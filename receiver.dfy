/**
 * The `/webhook/receiver` and `/webhook/events` handlers. The receiver runs
 * its steps in a fixed order (payload check, event-type header check, ping
 * short-circuit, validation, normalization and inserts, response), each with
 * its own status code and message; the events handler turns its query
 * parameters into an equality filter and returns the newest matching records.
 */
module Receiver {
  import opened PyJson
  import opened Validator
  import opened Normalizer
  import opened Store

  /** An inbound request: the parsed JSON body (None when there is none) and the `X-GitHub-Event` header. */
  datatype Request = Request(payload: Option<Json>, eventHeader: Option<string>)

  /** A JSON response: the status code and the fields of the body. */
  datatype Response = Response(code: int, body: map<string, Json>)

  /** What one delivery yields: the response, and the records appended to the store in order. */
  datatype Outcome = Outcome(response: Response, inserted: seq<Record>)

  const NoPayload := "No payload received"
  const NoEventType := "No event type specified in headers"
  const InternalError := "Internal server error"
  const ProcessingPrefix := "Error processing webhook: "
  const RetrievalError := "Failed to retrieve events"
  const DefaultLimit := 10

  /** `error_response(message, status_code)`: the body holds the message under `error` and nothing else. */
  function ErrorResponse(message: string, code: int): Response {
    Response(code, map["error" := JStr(message)])
  }

  /** The 200 answer to `ping`, echoing the payload's `zen` and `hook_id`. */
  function PingResponse(payload: map<string, Json>): Response {
    Response(200, map["message" := JStr("Webhook configured successfully"),
                      "zen" := DictGet(payload, "zen"), "hook_id" := DictGet(payload, "hook_id")])
  }

  /** The 200 answer after an event was processed. */
  function SuccessResponse(eventType: string, now: string): Response {
    Response(200, map["message" := JStr("Successfully processed " + eventType + " event"),
                      "status" := JStr("success"), "timestamp" := JStr(now)])
  }

  /** The database's answer to the i-th insert of a delivery: None is success. */
  function FaultAt(faults: seq<Option<string>>, i: nat): Option<string> {
    if i < |faults| then faults[i] else None
  }

  /** Inserts `records` one at a time, stopping at the first refused insert; nothing is rolled back. */
  function InsertAll(records: seq<Record>, faults: seq<Option<string>>): (r: (seq<Record>, Option<string>))
    ensures r.0 <= records
    decreases |records|
  {
    if records == [] then ([], None)
    else if FaultAt(faults, 0).Some? then ([], FaultAt(faults, 0))
    else
      var rest := InsertAll(records[1..], if faults == [] then [] else faults[1..]);
      ([records[0]] + rest.0, rest.1)
  }

  /**
   * The records stored are a prefix of those produced: all of them when no
   * insert is refused, otherwise those before the first refused insert,
   * whose fault is reported.
   */
  lemma {:induction false} InsertAllCorrect(records: seq<Record>, faults: seq<Option<string>>)
    ensures var (inserted, fault) := InsertAll(records, faults);
            && inserted <= records
            && (fault.None? <==> forall i :: 0 <= i < |records| ==> FaultAt(faults, i).None?)
            && (fault.None? ==> inserted == records)
            && (fault.Some? ==> |inserted| < |records| && fault == FaultAt(faults, |inserted|))
            && (forall i :: 0 <= i < |inserted| ==> FaultAt(faults, i).None?)
    decreases |records|
  {
    if records != [] && FaultAt(faults, 0).None? {
      var tail := if faults == [] then [] else faults[1..];
      InsertAllCorrect(records[1..], tail);
      forall i | 0 <= i < |records| - 1 ensures FaultAt(tail, i) == FaultAt(faults, i + 1) { }
      assert records == [records[0]] + records[1..];
      var rest := InsertAll(records[1..], tail);
      forall i | 0 <= i < |InsertAll(records, faults).0| ensures FaultAt(faults, i).None? {
        if i > 0 {
          assert FaultAt(tail, i - 1).None?;
        }
      }
      if rest.1.None? {
        forall i | 0 <= i < |records| ensures FaultAt(faults, i).None? {
          if i > 0 {
            assert FaultAt(tail, i - 1).None?;
          }
        }
      }
    }
  }

  /** `InsertAll` on one record, written out. */
  lemma InsertAllOne(r: Record, faults: seq<Option<string>>)
    ensures InsertAll([r], faults) == if FaultAt(faults, 0).Some? then ([], FaultAt(faults, 0)) else ([r], None)
  {
    assert [r][1..] == [];
    if FaultAt(faults, 0).None? {
      var tail := if faults == [] then [] else faults[1..];
      assert InsertAll([], tail) == ([], None);
      assert InsertAll([r], faults) == ([r] + InsertAll([], tail).0, InsertAll([], tail).1);
      assert InsertAll([r], faults).0 == [r];
      assert InsertAll([r], faults).1 == None;
    }
  }

  /** `InsertAll` on two records, written out: a refused second insert leaves the first stored. */
  lemma InsertAllTwo(a: Record, b: Record, faults: seq<Option<string>>)
    ensures InsertAll([a, b], faults) ==
              if FaultAt(faults, 0).Some? then ([], FaultAt(faults, 0))
              else if FaultAt(faults, 1).Some? then ([a], FaultAt(faults, 1))
              else ([a, b], None)
  {
    assert [a, b][1..] == [b];
    var tail := if faults == [] then [] else faults[1..];
    assert FaultAt(tail, 0) == FaultAt(faults, 1);
    InsertAllOne(b, tail);
    if FaultAt(faults, 0).None? {
      assert InsertAll([a, b], faults) == ([a] + InsertAll([b], tail).0, InsertAll([b], tail).1);
      if FaultAt(faults, 1).Some? {
        assert InsertAll([a, b], faults).0 == [a];
      } else {
        assert InsertAll([a, b], faults).0 == [a, b];
      }
    }
  }

  /** The outcome of one delivery to the receiver, `now` standing for the clock. */
  function Handle(req: Request, now: string, faults: seq<Option<string>>): (o: Outcome)
    ensures o.response.code in {200, 400, 500}
    ensures o.inserted != [] ==>
              req.eventHeader.Some? && req.eventHeader.value in {"push", "pull_request", "workflow_run"}
  {
    if req.payload.None? || !Truthy(req.payload.value) then
      Outcome(ErrorResponse(NoPayload, 400), [])
    else if req.eventHeader.None? || req.eventHeader.value == "" then
      Outcome(ErrorResponse(NoEventType, 400), [])
    else
      var payload, eventType := req.payload.value, req.eventHeader.value;
      if eventType == "ping" then
        if payload.JObj? then Outcome(PingResponse(payload.fields), [])
        else Outcome(ErrorResponse(InternalError, 500), [])
      else
        match ValidationErrors(payload, eventType)
        case Err(_) => Outcome(ErrorResponse(InternalError, 500), [])
        case Ok(errors) =>
          if errors != [] then
            Outcome(ErrorResponse("Validation errors: " + Join(", ", errors), 400), [])
          else
            match Normalize(payload, eventType, now)
            case Err(e) => Outcome(ErrorResponse(ProcessingPrefix + e, 400), [])
            case Ok(records) =>
              var (inserted, fault) := InsertAll(records, faults);
              if fault.Some? then Outcome(ErrorResponse(ProcessingPrefix + fault.value, 400), inserted)
              else Outcome(SuccessResponse(eventType, now), inserted)
  }

  /** The equality filter of the events query: `status` only together with type `workflow_run`. */
  function QueryFor(eventType: Option<string>, status: Option<string>): (q: map<string, string>)
    ensures "event_type" in q <==> eventType.Some? && eventType.value != ""
    ensures "event_type" in q ==> q["event_type"] == eventType.value
    ensures "status" in q <==> status.Some? && status.value != "" && eventType == Some("workflow_run")
    ensures "status" in q ==> q["status"] == status.value
    ensures q.Keys <= {"event_type", "status"}
  {
    var byType := if eventType.Some? && eventType.value != "" then map["event_type" := eventType.value] else map[];
    if status.Some? && status.value != "" && eventType == Some("workflow_run") then byType["status" := status.value]
    else byType
  }

  /** The stored documents of `events`, as JSON. */
  function Documents(events: seq<Record>): seq<Json> {
    seq(|events|, i requires 0 <= i < |events| => JObj(Document(events[i])))
  }

  /** The 200 answer of the events endpoint. */
  function EventsResponse(events: seq<Record>): Response {
    Response(200, map["count" := JInt(|events|), "events" := JArr(Documents(events))])
  }

  /** An absent or falsy body is refused first, whatever the header says, and nothing is stored. */
  lemma RejectsMissingPayload(req: Request, now: string, faults: seq<Option<string>>)
    requires req.payload.None? || !Truthy(req.payload.value)
    ensures Handle(req, now, faults) == Outcome(ErrorResponse(NoPayload, 400), [])
  {
  }

  /** A body without an `X-GitHub-Event` header (or with an empty one) is refused, and nothing is stored. */
  lemma RejectsMissingEventType(req: Request, now: string, faults: seq<Option<string>>)
    requires req.payload.Some? && Truthy(req.payload.value)
    requires req.eventHeader.None? || req.eventHeader.value == ""
    ensures Handle(req, now, faults) == Outcome(ErrorResponse(NoEventType, 400), [])
  {
  }

  /**
   * `ping` stores nothing; a dict payload gets 200 with its `zen` and
   * `hook_id`, any other truthy payload makes `.get` raise, a 500.
   */
  lemma PingShortCircuit(req: Request, now: string, faults: seq<Option<string>>)
    requires req.payload.Some? && Truthy(req.payload.value) && req.eventHeader == Some("ping")
    ensures Handle(req, now, faults).inserted == []
    ensures req.payload.value.JObj? ==>
              var p := req.payload.value.fields;
              Handle(req, now, faults).response ==
                Response(200, map["message" := JStr("Webhook configured successfully"),
                                  "zen" := DictGet(p, "zen"), "hook_id" := DictGet(p, "hook_id")])
    ensures !req.payload.value.JObj? ==> Handle(req, now, faults).response == ErrorResponse(InternalError, 500)
  {
  }

  /** Two `ping` payloads that agree on `zen` and `hook_id` get the same answer, whatever else they hold. */
  lemma PingIgnoresOtherFields(p1: map<string, Json>, p2: map<string, Json>, now: string,
                               faults1: seq<Option<string>>, faults2: seq<Option<string>>)
    requires p1 != map[] && p2 != map[]
    requires DictGet(p1, "zen") == DictGet(p2, "zen") && DictGet(p1, "hook_id") == DictGet(p2, "hook_id")
    ensures Handle(Request(Some(JObj(p1)), Some("ping")), now, faults1) ==
            Handle(Request(Some(JObj(p2)), Some("ping")), now, faults2)
  {
  }

  /** An exception inside validation (outside the inner handler) is a generic 500, and nothing is stored. */
  lemma ValidationRaiseIsInternalError(req: Request, now: string, faults: seq<Option<string>>)
    requires req.payload.Some? && Truthy(req.payload.value)
    requires req.eventHeader.Some? && req.eventHeader.value != "" && req.eventHeader.value != "ping"
    requires ValidationErrors(req.payload.value, req.eventHeader.value).Err?
    ensures Handle(req, now, faults) == Outcome(ErrorResponse(InternalError, 500), [])
  {
  }

  /** Validation errors give 400 with every message joined by ", ", and nothing is stored. */
  lemma ValidationErrorsRejected(req: Request, now: string, faults: seq<Option<string>>)
    requires req.payload.Some? && Truthy(req.payload.value)
    requires req.eventHeader.Some? && req.eventHeader.value != "" && req.eventHeader.value != "ping"
    requires var v := ValidationErrors(req.payload.value, req.eventHeader.value); v.Ok? && v.value != []
    ensures Handle(req, now, faults) ==
              Outcome(ErrorResponse("Validation errors: " + Join(", ", ValidationErrors(req.payload.value, req.eventHeader.value).value), 400), [])
  {
  }

  /** A dict `push` payload lacking `ref` or `after` gets 400 naming exactly the missing fields. */
  lemma PushMissingFieldsRejected(m: map<string, Json>, now: string, faults: seq<Option<string>>)
    requires m != map[] && !("ref" in m && "after" in m)
    ensures Handle(Request(Some(JObj(m)), Some("push")), now, faults) ==
              Outcome(ErrorResponse("Validation errors: " +
                (if "after" in m then "Missing required fields: ref"
                 else if "ref" in m then "Missing required fields: after"
                 else "Missing required fields: ref, after"), 400), [])
  {
    PushValidation(JObj(m));
    var msg := if "after" in m then "Missing required fields: ref"
               else if "ref" in m then "Missing required fields: after"
               else "Missing required fields: ref, after";
    assert Join(", ", [msg]) == msg;
    ValidationErrorsRejected(Request(Some(JObj(m)), Some("push")), now, faults);
  }

  /**
   * A dict `workflow_run` payload without the `workflow_run` key gets 400
   * with the fixed message; with a dict `workflow_run` whose `id`, `name` or
   * `status` is falsy, 400 listing exactly the falsy ones. Nothing is stored.
   */
  lemma WorkflowRunMissingFieldsRejected(m: map<string, Json>, now: string, faults: seq<Option<string>>)
    requires m != map[]
    ensures "workflow_run" !in m ==>
              Handle(Request(Some(JObj(m)), Some("workflow_run")), now, faults) ==
                Outcome(ErrorResponse("Validation errors: " + MissingWorkflowRun, 400), [])
    ensures "workflow_run" in m && m["workflow_run"].JObj? ==>
              var run := m["workflow_run"].fields;
              var missing := Failed(WorkflowRunChecks(run));
              missing != [] ==>
                && Handle(Request(Some(JObj(m)), Some("workflow_run")), now, faults) ==
                     Outcome(ErrorResponse("Validation errors: " + MissingFieldsPrefix + Join(", ", missing), 400), [])
                && ("workflow_run.id" in missing <==> !Truthy(DictGet(run, "id")))
                && ("workflow_run.name" in missing <==> !Truthy(DictGet(run, "name")))
                && ("workflow_run.status" in missing <==> !Truthy(DictGet(run, "status")))
  {
    var req := Request(Some(JObj(m)), Some("workflow_run"));
    WorkflowRunValidation(JObj(m));
    if "workflow_run" !in m {
      assert Join(", ", [MissingWorkflowRun]) == MissingWorkflowRun;
      ValidationErrorsRejected(req, now, faults);
    } else if m["workflow_run"].JObj? {
      var missing := Failed(WorkflowRunChecks(m["workflow_run"].fields));
      if missing != [] {
        var msg := MissingFieldsPrefix + Join(", ", missing);
        assert Join(", ", [msg]) == msg;
        ValidationErrorsRejected(req, now, faults);
        assert "Validation errors: " + msg == "Validation errors: " + MissingFieldsPrefix + Join(", ", missing);
      }
    }
  }

  /** A validated event whose records cannot be built gets 400 with the exception's text, and nothing is stored. */
  lemma NormalizationErrorRejected(req: Request, now: string, faults: seq<Option<string>>)
    requires req.payload.Some? && Truthy(req.payload.value)
    requires req.eventHeader.Some? && req.eventHeader.value != "" && req.eventHeader.value != "ping"
    requires ValidationErrors(req.payload.value, req.eventHeader.value) == Ok([])
    requires Normalize(req.payload.value, req.eventHeader.value, now).Err?
    ensures Handle(req, now, faults) ==
              Outcome(ErrorResponse(ProcessingPrefix + Normalize(req.payload.value, req.eventHeader.value, now).error, 400), [])
  {
  }

  /**
   * A validated event whose records are built and all accepted by the
   * database gets the success answer, and the store gains exactly those
   * records in order.
   */
  lemma StoresNormalizedRecords(req: Request, now: string, faults: seq<Option<string>>)
    requires req.payload.Some? && Truthy(req.payload.value)
    requires req.eventHeader.Some? && req.eventHeader.value != "" && req.eventHeader.value != "ping"
    requires ValidationErrors(req.payload.value, req.eventHeader.value) == Ok([])
    requires var n := Normalize(req.payload.value, req.eventHeader.value, now);
             n.Ok? && forall i :: 0 <= i < |n.value| ==> FaultAt(faults, i).None?
    ensures Handle(req, now, faults) ==
              Outcome(SuccessResponse(req.eventHeader.value, now),
                      Normalize(req.payload.value, req.eventHeader.value, now).value)
  {
    InsertAllCorrect(Normalize(req.payload.value, req.eventHeader.value, now).value, faults);
  }

  /**
   * When the database refuses the i-th insert of a validated event, after
   * accepting those before it, the answer is 400 with the database's text,
   * and exactly the records before the refused one stay stored.
   */
  lemma InsertRefused(req: Request, now: string, faults: seq<Option<string>>, i: nat)
    requires req.payload.Some? && Truthy(req.payload.value)
    requires req.eventHeader.Some? && req.eventHeader.value != "" && req.eventHeader.value != "ping"
    requires ValidationErrors(req.payload.value, req.eventHeader.value) == Ok([])
    requires var n := Normalize(req.payload.value, req.eventHeader.value, now);
             n.Ok? && i < |n.value| && FaultAt(faults, i).Some?
    requires forall j :: 0 <= j < i ==> FaultAt(faults, j).None?
    ensures Handle(req, now, faults) ==
              Outcome(ErrorResponse(ProcessingPrefix + FaultAt(faults, i).value, 400),
                      Normalize(req.payload.value, req.eventHeader.value, now).value[..i])
  {
    var records := Normalize(req.payload.value, req.eventHeader.value, now).value;
    InsertAllCorrect(records, faults);
    var (inserted, fault) := InsertAll(records, faults);
    assert fault.Some?;
    assert |inserted| == i;
    assert inserted == records[..i];
  }

  /**
   * Insertion counts when nothing is refused: one record for `push` and
   * `workflow_run`; for `pull_request` the pull request record, then a merge
   * record exactly when it was closed as merged.
   */
  lemma InsertionCounts(req: Request, now: string)
    requires req.payload.Some? && Truthy(req.payload.value)
    requires req.eventHeader.Some? && req.eventHeader.value != "" && req.eventHeader.value != "ping"
    requires ValidationErrors(req.payload.value, req.eventHeader.value) == Ok([])
    requires Normalize(req.payload.value, req.eventHeader.value, now).Ok?
    ensures var t, p, o := req.eventHeader.value, req.payload.value, Handle(req, now, []);
            && o.response == SuccessResponse(t, now)
            && (t == "push" || t == "workflow_run" ==> |o.inserted| == 1 && EventType(o.inserted[0]) == t)
            && (t == "push" ==> o.inserted == [PushRecord(p, now).value])
            && (t == "workflow_run" ==> o.inserted == [WorkflowRunRecord(p, now).value])
            && (t == "pull_request" ==>
                  && p.JObj? && 1 <= |o.inserted| <= 2
                  && o.inserted[0] == PullRequestRecord(p, now).value && o.inserted[0].PullRequest?
                  && (|o.inserted| == 2 <==> ShouldMerge(o.inserted[0]))
                  && (|o.inserted| == 2 <==> ClosedAsMerged(p.fields))
                  && (|o.inserted| == 2 ==> o.inserted[1] == MergeRecord(p, now).value && o.inserted[1].Merge?))
            && (t != "push" && t != "pull_request" && t != "workflow_run" ==> o.inserted == [])
  {
    NormalizeShape(req.payload.value, req.eventHeader.value, now);
    StoresNormalizedRecords(req, now, []);
  }

  /** Any type other than the four handled ones gets 200 "success" on any truthy payload, and stores nothing. */
  lemma UnknownTypeStoresNothing(req: Request, now: string, faults: seq<Option<string>>)
    requires req.payload.Some? && Truthy(req.payload.value) && req.eventHeader.Some?
    requires req.eventHeader.value !in {"", "ping", "push", "pull_request", "workflow_run"}
    ensures Handle(req, now, faults) == Outcome(SuccessResponse(req.eventHeader.value, now), [])
  {
  }

  /**
   * A pull request closed as merged stores the pull request record and then
   * the merge record; when the second insert is refused the first stays
   * stored and the answer is a 400 with the database's message.
   */
  lemma MergedPullRequest(m: map<string, Json>, now: string, faults: seq<Option<string>>)
    requires PullRequestRecord(JObj(m), now).Ok?
    requires DictGet(m, "action") == JStr("closed")
    requires Truthy(DictGetOr(DictGetOr(m, "pull_request", JObj(map[])).fields, "merged", JBool(false)))
    requires FaultAt(faults, 0).None?
    ensures MergeRecord(JObj(m), now).Ok?
    ensures var pr, mr := PullRequestRecord(JObj(m), now).value, MergeRecord(JObj(m), now).value;
            var o := Handle(Request(Some(JObj(m)), Some("pull_request")), now, faults);
            && (FaultAt(faults, 1).None? ==> o == Outcome(SuccessResponse("pull_request", now), [pr, mr]))
            && (FaultAt(faults, 1).Some? ==>
                  o == Outcome(ErrorResponse(ProcessingPrefix + FaultAt(faults, 1).value, 400), [pr]))
  {
    PullRequestRecordOk(JObj(m), now);
    MergeAgreesWithPullRequest(JObj(m), now);
    InsertAllTwo(PullRequestRecord(JObj(m), now).value, MergeRecord(JObj(m), now).value, faults);
  }

  /**
   * A nested value that is present but not a dict makes `.get` raise inside
   * the inner handler: a 400, not a stored null field.
   */
  lemma NullRepositoryRejected(m: map<string, Json>, now: string, faults: seq<Option<string>>)
    requires "ref" in m && "after" in m && "repository" in m && m["repository"] == JNull
    ensures Handle(Request(Some(JObj(m)), Some("push")), now, faults) ==
              Outcome(ErrorResponse(ProcessingPrefix + "'NoneType' object has no attribute 'get'", 400), [])
  {
    PushValidation(JObj(m));
    assert Normalize(JObj(m), "push", now) == Err(NoGet(JNull));
    NormalizationErrorRejected(Request(Some(JObj(m)), Some("push")), now, faults);
    NoGetNone();
  }

  /**
   * A truthy payload that is an integer: `in` raises for `push` (500),
   * `.get` raises while building a `pull_request` record (400), and an
   * unhandled type is a success that stores nothing.
   */
  lemma IntegerPayload(n: int, now: string, faults: seq<Option<string>>)
    requires n != 0
    ensures Handle(Request(Some(JInt(n)), Some("push")), now, faults) ==
              Outcome(ErrorResponse(InternalError, 500), [])
    ensures Handle(Request(Some(JInt(n)), Some("pull_request")), now, faults) ==
              Outcome(ErrorResponse(ProcessingPrefix + "'int' object has no attribute 'get'", 400), [])
    ensures Handle(Request(Some(JInt(n)), Some("deployment_status")), now, faults) ==
              Outcome(SuccessResponse("deployment_status", now), [])
  {
    ValidationRaiseIsInternalError(Request(Some(JInt(n)), Some("push")), now, faults);
    assert Normalize(JInt(n), "pull_request", now) == Err(NoGet(JInt(n)));
    NormalizationErrorRejected(Request(Some(JInt(n)), Some("pull_request")), now, faults);
    NoGetInt(n);
    UnknownTypeStoresNothing(Request(Some(JInt(n)), Some("deployment_status")), now, faults);
  }

  /**
   * A record matching the events filter has the requested type, and, when a
   * status was given with type `workflow_run`, is a workflow run in that status.
   */
  lemma QueryForMatches(x: Record, eventType: Option<string>, status: Option<string>)
    requires Matches(x, QueryFor(eventType, status))
    ensures eventType.Some? && eventType.value != "" ==> EventType(x) == eventType.value
    ensures eventType == Some("workflow_run") && status.Some? && status.value != "" ==>
              x.WorkflowRun? && x.status == JStr(status.value)
  {
    var q := QueryFor(eventType, status);
    if "event_type" in q {
      assert Document(x)["event_type"] == JStr(q["event_type"]);
    }
    if "status" in q {
      assert "status" in Document(x);
    }
  }

  /**
   * The events query returns at most `limit` stored records, newest first;
   * with a type, all of that type; with type `workflow_run` and a status,
   * all workflow runs in that status; with no type, the newest `limit` of all.
   */
  lemma EventsQueryResults(events: seq<Record>, eventType: Option<string>, status: Option<string>, limit: nat)
    ensures var r := Select(events, QueryFor(eventType, status), limit);
            && |r| <= limit
            && SortedDesc(r)
            && (forall x :: x in r ==> x in events)
            && (eventType.Some? && eventType.value != "" ==>
                  forall x :: x in r ==> EventType(x) == eventType.value)
            && (eventType == Some("workflow_run") && status.Some? && status.value != "" ==>
                  forall x :: x in r ==> x.WorkflowRun? && x.status == JStr(status.value))
            && (eventType.None? || eventType.value == "" ==> |r| == Min(limit, |events|))
            && (forall x, y :: x in r && y in events && Matches(y, QueryFor(eventType, status)) && y !in r ==>
                  StrLe(y.timestamp, x.timestamp))
  {
    var q := QueryFor(eventType, status);
    SelectCorrect(events, q, limit);
    var r := Select(events, q, limit);
    forall x | x in r
      ensures eventType.Some? && eventType.value != "" ==> EventType(x) == eventType.value
      ensures eventType == Some("workflow_run") && status.Some? && status.value != "" ==>
                x.WorkflowRun? && x.status == JStr(status.value)
    {
      QueryForMatches(x, eventType, status);
    }
    if eventType.None? || eventType.value == "" {
      assert q.Keys == {};
      assert q == map[];
      MatchingAll(events);
    }
  }

  /**
   * Every document the events endpoint returns carries its `event_type` and
   * `timestamp`; the requested type when one was given; and, for type
   * `workflow_run` with a status, that `status`.
   */
  lemma EventsDocumentsMatch(events: seq<Record>, eventType: Option<string>, status: Option<string>, limit: nat)
    ensures var body := EventsResponse(Select(events, QueryFor(eventType, status), limit)).body;
            && body["events"].JArr?
            && forall d :: d in body["events"].items ==>
                 && d.JObj? && "event_type" in d.fields && "timestamp" in d.fields
                 && (eventType.Some? && eventType.value != "" ==> d.fields["event_type"] == JStr(eventType.value))
                 && (eventType == Some("workflow_run") && status.Some? && status.value != "" ==>
                       "status" in d.fields && d.fields["status"] == JStr(status.value))
  {
    var r := Select(events, QueryFor(eventType, status), limit);
    EventsQueryResults(events, eventType, status, limit);
    var docs := Documents(r);
    forall d | d in docs
      ensures d.JObj? && "event_type" in d.fields && "timestamp" in d.fields
      ensures eventType.Some? && eventType.value != "" ==> d.fields["event_type"] == JStr(eventType.value)
      ensures eventType == Some("workflow_run") && status.Some? && status.value != "" ==>
                "status" in d.fields && d.fields["status"] == JStr(status.value)
    {
      var k :| 0 <= k < |docs| && docs[k] == d;
      assert r[k] in r;
    }
  }

  /** The count reported is the number of documents returned. */
  lemma EventsCount(events: seq<Record>)
    ensures var body := EventsResponse(events).body;
            body["events"].JArr? && body["count"] == JInt(|body["events"].items|)
  {
  }

  /** The web service: the receiver and the events handler over one injected store. */
  class Service {
    const store: EventStore

    constructor (store: EventStore)
      ensures this.store == store
    {
      this.store := store;
    }

    /**
     * `receiver`: `faults[i]` is the database's answer to the i-th insert
     * of this delivery. The store gains exactly the records `Handle` names.
     */
    method Receive(req: Request, now: string, faults: seq<Option<string>>) returns (resp: Response)
      modifies store
      ensures resp == Handle(req, now, faults).response
      ensures store.events == old(store.events) + Handle(req, now, faults).inserted
    {
      if req.payload.None? || !Truthy(req.payload.value) {
        return ErrorResponse(NoPayload, 400);
      }
      var payload := req.payload.value;
      if req.eventHeader.None? || req.eventHeader.value == "" {
        return ErrorResponse(NoEventType, 400);
      }
      var eventType := req.eventHeader.value;
      if eventType == "ping" {
        if !payload.JObj? {
          return ErrorResponse(InternalError, 500);
        }
        return PingResponse(payload.fields);
      }
      var validation := ValidateWebhookData(payload, eventType);
      if validation.Err? {
        return ErrorResponse(InternalError, 500);
      }
      if validation.value != [] {
        return ErrorResponse("Validation errors: " + Join(", ", validation.value), 400);
      }
      if eventType == "push" {
        var record := PushRecord(payload, now);
        if record.Err? {
          return ErrorResponse(ProcessingPrefix + record.error, 400);
        }
        InsertAllOne(record.value, faults);
        var err := store.InsertOne(record.value, FaultAt(faults, 0));
        if err.Some? {
          return ErrorResponse(ProcessingPrefix + err.value, 400);
        }
      } else if eventType == "pull_request" {
        var pr := PullRequestRecord(payload, now);
        if pr.Err? {
          return ErrorResponse(ProcessingPrefix + pr.error, 400);
        }
        MergeAgreesWithPullRequest(payload, now);
        InsertAllOne(pr.value, faults);
        InsertAllTwo(pr.value, MergeRecord(payload, now).value, faults);
        var err := store.InsertOne(pr.value, FaultAt(faults, 0));
        if err.Some? {
          return ErrorResponse(ProcessingPrefix + err.value, 400);
        }
        if ShouldMerge(pr.value) {
          err := store.InsertOne(MergeRecord(payload, now).value, FaultAt(faults, 1));
          if err.Some? {
            return ErrorResponse(ProcessingPrefix + err.value, 400);
          }
        }
      } else if eventType == "workflow_run" {
        var record := WorkflowRunRecord(payload, now);
        if record.Err? {
          return ErrorResponse(ProcessingPrefix + record.error, 400);
        }
        InsertAllOne(record.value, faults);
        var err := store.InsertOne(record.value, FaultAt(faults, 0));
        if err.Some? {
          return ErrorResponse(ProcessingPrefix + err.value, 400);
        }
      }
      return SuccessResponse(eventType, now);
    }

    /**
     * `get_events`: the query parameters `type`, `status` and `limit`
     * (already an integer, 10 when absent); `fault` is the exception the
     * database raises, if any.
     */
    method GetEvents(eventType: Option<string>, status: Option<string>, limit: Option<int>,
                     fault: Option<string>) returns (resp: Response)
      requires limit.Some? ==> limit.value > 0
      ensures fault.Some? ==> resp == ErrorResponse(RetrievalError, 500)
      ensures fault.None? ==>
                resp == EventsResponse(Select(store.events, QueryFor(eventType, status),
                                              if limit.Some? then limit.value else DefaultLimit))
    {
      var n: nat := if limit.Some? then limit.value else DefaultLimit;
      var query: map<string, string> := map[];
      if eventType.Some? && eventType.value != "" {
        query := query["event_type" := eventType.value];
      }
      if status.Some? && status.value != "" && eventType == Some("workflow_run") {
        query := query["status" := status.value];
      }
      if fault.Some? {
        return ErrorResponse(RetrievalError, 500);
      }
      var events := store.Find(query, n);
      return EventsResponse(events);
    }
  }

  /** Deliveries are not deduplicated: the same request twice stores its records twice. */
  method DuplicateDelivery(service: Service, req: Request, now: string)
    modifies service.store
    ensures service.store.events ==
              old(service.store.events) + Handle(req, now, []).inserted + Handle(req, now, []).inserted
  {
    var first := service.Receive(req, now, []);
    var second := service.Receive(req, now, []);
  }
}
