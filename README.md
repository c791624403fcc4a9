# Webhook receiver model

A Dafny model of the webhook blueprint of `webhook-repo`: the Flask
handlers that take GitHub webhook deliveries at `/webhook/receiver`,
validate them by event type, turn them into records and insert them into the
`events` collection, and the `/webhook/events` handler that reads them back
newest first.

The model has five modules, one per file:

- `PyJson` (`json.dfy`): JSON values as `request.json` produces them, and the
  Python operations the handlers apply to them. These are truth values,
  `dict.get` with and without a default, chained `.get(k, {}).get(k2)`, the
  `in` operator (key test on a dict, element test on a list, substring test
  on a str, `TypeError` otherwise) and `str.join`. An operation that raises in
  Python returns `Err(str(e))`, with the exact messages Python gives.
- `Validator` (`validator.dfy`): `validate_webhook_data`. It exists as a
  declarative function `ValidationErrors` and as the method
  `ValidateWebhookData`, which collects the missing field names by
  successive appends as `validate_webhook_data` does and is proved equal to the function.
- `Normalizer` (`normalizer.dfy`): the stored records for `push`,
  `pull_request`, the derived `merge` record and `workflow_run`. `Document`
  is the field layout written to the database, and `Normalize` gives every
  record one event produces, in insertion order.
- `Store` (`store.dfy`): the `events` collection as a class, `EventStore`,
  whose `events` field only grows. `InsertOne` is `insert_one` and may be
  refused. `Find` is `find(query).sort("timestamp", -1).limit(n)`. It is
  specified by `Select`: filter, then newest-first sort, then take a prefix.
- `Receiver` (`receiver.dfy`): `error_response`, the receiver and the events
  endpoint. `Handle` is the receiver's whole outcome as a function: the
  response and the records appended, in order. The class `Service` holds
  the store. `Service.Receive` runs the handler step by step against it, and
  `Service.GetEvents` builds the filter and queries it. Lemmas about
  `Handle` cover each branch of the receiver.

Inputs outside the code are parameters:

- `now` is the UTC timestamp string that `datetime.utcnow().strftime(...)`
  produces.
- `faults` lists the database's answers to the successive `insert_one` calls
  of one delivery. `None` means success; `Some(text)` means the call raises
  with that text.
- The `fault` of `GetEvents` plays the same role for the query.

Behaviour of the code that is easy to miss, and that the model keeps:

- A nested object that is present but not a dict is not read as null.
  `payload.get('repository', {}).get('full_name')` raises when
  `repository` is `null`, and the delivery is answered 400 (`NullRepositoryRejected`).
- The merge record is derived when `merged` is truthy, not only when it is
  `true`. The stored `merged` field is the payload's raw value, not a
  coerced boolean.
- The top-level payload need not be a dict. A truthy list, string or integer
  reaches validation, where `in` behaves as Python's does on that type
  (`IntegerPayload`).
- Storage is not idempotent. A repeated delivery is stored again
  (`DuplicateDelivery`).

## Model

| member | source | states |
|---|---|---|
| Validator.ValidateWebhookData | app/webhook/routes.py:15-51 | the field-by-field appends of `validate_webhook_data` give exactly the declarative result: no message, one "Missing required fields: …" message, the fixed workflow_run message, or the exception `in`/`.get` raise |
| Validator.ValidationErrors | app/webhook/routes.py:15-51 | a message, when there is one, is either the fixed workflow_run message or starts with "Missing required fields: "; PushValidation, WorkflowRunValidation, PermissiveDefault and NonContainerRaises state its results exactly |
| Validator.FailedMembers | app/webhook/routes.py:26-32 | a field name is reported exactly when its check failed; nothing is reported exactly when every check passes; at most one name per check |
| Validator.PermissiveDefault | app/webhook/routes.py:21-22 | `ping` and every type other than `push` and `workflow_run` pass validation whatever the payload |
| Validator.AtMostOneMessage | app/webhook/routes.py:15-51 | whenever validation returns, it returns at most one message |
| Validator.PushValidation | app/webhook/routes.py:25-33 | a dict push payload passes iff it has both `ref` and `after`; otherwise the one message names exactly the missing keys, `ref` before `after`, joined by ", " |
| Validator.WorkflowRunValidation | app/webhook/routes.py:36-49 | without `workflow_run` the fixed message; with a non-dict value `.get` raises; with a dict, one message listing exactly the falsy ones of `id`, `name`, `status` in that order, and none iff all three are truthy |
| Validator.NonContainerRaises | app/webhook/routes.py:27-37 | for `push` and `workflow_run`, an int, bool or null payload makes `in` raise "argument of type '…' is not iterable" |
| Normalizer.Document | app/webhook/routes.py:104-166 | every stored document carries its `event_type` and `timestamp`; only workflow runs carry `status`, holding the run's status |
| Normalizer.PushRecord | app/webhook/routes.py:104-112 | a built record is a push record stamped with the request time; PushRecordOk states when it is built and every field it holds |
| Normalizer.PullRequestRecord | app/webhook/routes.py:118-129 | a built record is a pull request record stamped with the request time; PullRequestRecordOk states when it is built and every field it holds |
| Normalizer.MergeRecord | app/webhook/routes.py:135-144 | a built record is a merge record stamped with the request time; MergeAgreesWithPullRequest states that it is built, agrees with the pull request record and carries `merge_commit_sha` |
| Normalizer.WorkflowRunRecord | app/webhook/routes.py:150-166 | a built record is a workflow run record stamped with the request time; WorkflowRunRecordOk states when it is built and every field it holds |
| Normalizer.ShouldMerge | app/webhook/routes.py:134 | the merge condition, `action` equal to "closed" and `merged` truthy, read off the pull request record; NormalizeShape and InsertionCounts state that it decides the merge record |
| Normalizer.Normalize | app/webhook/routes.py:101-168 | records are produced only for push, pull_request and workflow_run, each stamped with the request time; NormalizeShape and StoredTypes state counts and kinds |
| Normalizer.PushRecordOk | app/webhook/routes.py:102-112 | the push record is built iff the payload is a dict whose `repository`, `pusher` and `sender` are absent or dicts; `ref` and `after` are copied; `repository.full_name`, `pusher.name` and `sender.login` are read through, null when the outer key is absent; a present non-dict repository raises |
| Normalizer.PullRequestRecordOk | app/webhook/routes.py:116-129 | the pull request record is built iff the payload, `pull_request`, its `head` and `base`, `sender` and `repository` are absent or dicts; `action`, `pull_request.id` and `title` are copied; `head.ref`, `base.ref`, `sender.login` and `repository.full_name` are read through, null when the outer key is absent; `merged` is the payload's value, False when absent, and then there is no merge |
| Normalizer.MergeAgreesWithPullRequest | app/webhook/routes.py:133-144 | once the pull request record was built the merge record cannot raise, it repeats that record's id, branches, author, repository and timestamp, and it carries `pull_request.merge_commit_sha` |
| Normalizer.WorkflowRunRecordOk | app/webhook/routes.py:148-166 | the workflow record is built iff the payload, `workflow_run`, its `actor` and `repository` are absent or dicts; `id`, `name`, `status`, `head_branch`, `head_sha` and `run_number` are copied; `actor.login` and `repository.full_name` are read through, null when the outer key is absent; `conclusion` defaults to "unknown", `run_attempt` to 1; start and update times come from `created_at` and `updated_at` |
| Normalizer.NormalizeShape | app/webhook/routes.py:101-168 | exactly the push or workflow record built from the payload; for a pull request the record built from the payload, then the merge record built from it exactly when the payload's `action` is "closed" and its `pull_request.merged` is truthy; nothing for other types; every record stamped with the request time |
| Normalizer.ClosedAsMerged | app/webhook/routes.py:134 | the merge test on the payload; NormalizeShape and InsertionCounts state that it decides the merge record |
| Normalizer.StoredTypes | app/webhook/routes.py:101-168 | every produced record has one of the types push, pull_request, merge, workflow_run, and only the merge record differs from the delivery's type |
| Store.StrLeTotal | app/webhook/routes.py:204 | the timestamp order the query sorts by is total |
| Store.StrLeTransitive | app/webhook/routes.py:204 | the timestamp order is transitive |
| Store.StrLeAntisymmetric | app/webhook/routes.py:204 | the timestamp order is antisymmetric |
| Store.SortDescCorrect | app/webhook/routes.py:204 | sorting by timestamp descending yields a newest-first permutation of its input |
| Store.MatchingCorrect | app/webhook/routes.py:201-203 | the filter keeps exactly the stored records matching every queried field, and none more often than stored |
| Store.MatchingAll | app/webhook/routes.py:194-203 | with no query parameter the filter is empty and keeps every stored record, in store order |
| Store.Select | app/webhook/routes.py:201-204 | at most `limit` records; SelectCorrect states which ones and in what order |
| Store.SelectCorrect | app/webhook/routes.py:201-204 | the query returns min(limit, matches) records, each stored and matching, newest first, none more often than stored, and no matching record left out is newer than one returned |
| Store.EventStore.InsertOne | app/webhook/routes.py:113 | an accepted insert appends the record and reports no error; a refused one stores nothing and reports the database's error |
| Store.EventStore.Find | app/webhook/routes.py:201-204 | the found records are `Select` of the stored ones, whose properties `SelectCorrect` states |
| Receiver.ErrorResponse | app/webhook/routes.py:53-56 | the JSON error answer `{"error": message}` with the given code, no contract of its own; the branch lemmas on `Handle` below state each error answer with its code and message |
| Receiver.PingResponse | app/webhook/routes.py:89-93 | the 200 answer to ping; PingShortCircuit and PingIgnoresOtherFields state its fields |
| Receiver.SuccessResponse | app/webhook/routes.py:170-174 | the 200 answer after processing; StoresNormalizedRecords and UnknownTypeStoresNothing state when it is given |
| Receiver.InsertAll | app/webhook/routes.py:113-167 | the records stored are a prefix of those produced; InsertAllCorrect states which prefix |
| Receiver.InsertAllCorrect | app/webhook/routes.py:113-145 | the stored records are a prefix of those produced: all of them iff no insert is refused, otherwise exactly those before the first refused insert, each of them accepted, and that refusal's error is reported |
| Receiver.Handle | app/webhook/routes.py:66-182 | every answer is 200, 400 or 500, and records are stored only for push, pull_request and workflow_run; the lemmas below state each branch |
| Receiver.RejectsMissingPayload | app/webhook/routes.py:73-76 | an absent or falsy body is answered 400 "No payload received" whatever the header, and nothing is stored |
| Receiver.RejectsMissingEventType | app/webhook/routes.py:80-83 | a body without an `X-GitHub-Event` header, or with an empty one, is answered 400 "No event type specified in headers", and nothing is stored |
| Receiver.PingShortCircuit | app/webhook/routes.py:88-93 | `ping` stores nothing; a dict payload is answered 200 with its `zen` and `hook_id`; any other payload makes `.get` raise, a 500 |
| Receiver.PingIgnoresOtherFields | app/webhook/routes.py:88-93 | two ping payloads agreeing on `zen` and `hook_id` get the same outcome whatever else they hold and whatever the database would do |
| Receiver.ValidationRaiseIsInternalError | app/webhook/routes.py:180-182 | an exception raised during validation gives 500 "Internal server error", and nothing is stored |
| Receiver.ValidationErrorsRejected | app/webhook/routes.py:96-98 | validation messages give 400 "Validation errors: " and the messages joined by ", ", and nothing is stored |
| Receiver.PushMissingFieldsRejected | app/webhook/routes.py:96-98 | a dict push payload lacking `ref` or `after` gets 400 naming exactly the missing fields |
| Receiver.WorkflowRunMissingFieldsRejected | app/webhook/routes.py:36-49 | a dict workflow_run payload without the key gets 400 "Validation errors: Missing workflow_run information"; with falsy `id`, `name` or `status`, 400 listing exactly the falsy ones; nothing is stored |
| Receiver.NormalizationErrorRejected | app/webhook/routes.py:176-178 | a record that cannot be built gives 400 "Error processing webhook: " and the exception's text, and nothing is stored |
| Receiver.StoresNormalizedRecords | app/webhook/routes.py:100-174 | a validated event whose records are built and all accepted is answered with the success message and stores exactly those records in order |
| Receiver.InsertRefused | app/webhook/routes.py:113-146 | when the database refuses the i-th insert after accepting those before it, the answer is 400 "Error processing webhook: " and the database's text, and exactly the first i records stay stored |
| Receiver.InsertionCounts | app/webhook/routes.py:101-174 | with no refused insert: exactly the payload's push or workflow record; for a pull request, the payload's record, then its merge record exactly when the payload's `action` is "closed" and `pull_request.merged` is truthy; nothing for other types |
| Receiver.UnknownTypeStoresNothing | app/webhook/routes.py:170-174 | a type other than ping, push, pull_request and workflow_run gets 200 "Successfully processed … event" on any truthy payload and stores nothing |
| Receiver.MergedPullRequest | app/webhook/routes.py:116-146 | a pull request closed as merged stores its record then the merge record; when the second insert is refused the first stays stored and the answer is 400 with the database's error |
| Receiver.NullRepositoryRejected | app/webhook/routes.py:109 | a push whose `repository` is null is answered 400 "Error processing webhook: 'NoneType' object has no attribute 'get'", and nothing is stored |
| Receiver.IntegerPayload | app/webhook/routes.py:66-182 | a non-zero integer payload gives 500 for push, 400 "… 'int' object has no attribute 'get'" for pull_request, and a success storing nothing for an unhandled type |
| Receiver.QueryFor | app/webhook/routes.py:193-198 | the filter has `event_type` iff a non-empty type is given, and `status` iff a non-empty status is given together with type workflow_run, holding those values, and no other key |
| Receiver.QueryForMatches | app/webhook/routes.py:193-198 | a record matching the filter has the requested type, and is a workflow run in the requested status when one was given with type workflow_run |
| Receiver.EventsQueryResults | app/webhook/routes.py:193-204 | at most `limit` stored records, newest first; all of the requested type; all workflow runs in the requested status when one was given; no matching record left out is newer than one returned; without a type, the newest `limit` of all |
| Receiver.EventsDocumentsMatch | app/webhook/routes.py:193-209 | every returned document carries `event_type` and `timestamp`, holds the requested type when one was given, and the requested `status` when one was given with type workflow_run |
| Receiver.EventsCount | app/webhook/routes.py:206-209 | the reported count is the number of documents returned |
| Receiver.Service.Receive | app/webhook/routes.py:66-182 | the response is `Handle`'s, and the store gains exactly the records `Handle` says were inserted, in order |
| Receiver.Service.GetEvents | app/webhook/routes.py:184-212 | a failing query gives 500 "Failed to retrieve events"; otherwise 200 with the count and documents of `Select` on the filter from `QueryFor` and the limit (10 by default) |
| Receiver.DuplicateDelivery | app/webhook/routes.py:113 | delivering the same request twice stores its records twice: there is no deduplication |

## Left out

- Logging (`logger.info`, `logger.error`, `json.dumps` of the payload) has no effect on responses or storage and is not modelled.
- Flask plumbing is not modelled. The blueprint, routing and `jsonify` are reduced to `Request` and `Response` values. A body that `request.json` refuses to parse, which raises in the outer handler, is not modelled; an unparsed body is `None`.
- Header names are case-insensitive in Flask; the model takes the `X-GitHub-Event` value as already looked up.
- The clock is a parameter. `receiver` reads it separately for each record and for the response, so those timestamps may differ by a second; the model uses one `now` for all of them.
- JSON numbers other than integers are not modelled.
- The health check (routes.py:58-64), the test endpoints (routes.py:214-275), `VALID_ACTIONS` and the unused `hmac`/`hashlib` imports are not part of this model, and neither are `app/utils.py` and `app/__init__.py`.
- The database is represented by its answers (`faults`, `fault`), not by a model of MongoDB. The `{'_id': 0}` projection is implicit: no identity field is modelled. Matching an element of an array field is not modelled. The order of records with equal timestamps is left open by MongoDB. The model's choice is a stable sort (equal timestamps in store order); the contracts of `Store.EventStore.Find` and `Receiver.Service.GetEvents` fix that order through `Select`, while the lemmas state only order-independent facts.
- Receiver.Service.GetEvents: requires a positive limit. The `int()` parse of the `limit` parameter (which raises on a non-number, a 500) is not modelled, and neither are MongoDB's meanings of `limit(0)` (no limit) and a negative limit.

