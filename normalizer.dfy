/**
 * The record construction inside the receiver: for `push`, `pull_request`
 * and `workflow_run` it turns a payload into the documents to store, with
 * a derived `merge` record for a pull request closed as merged. Lookups
 * default when a key is absent, but `.get` raises when the payload, or a
 * nested value that is looked into, is not a dict.
 */
module Normalizer {
  import opened PyJson

  /** A stored event, one constructor per `event_type`. */
  datatype Record =
    | Push(timestamp: string, ref: Json, after: Json, repository: Json, pusher: Json, sender: Json)
    | PullRequest(timestamp: string, action: Json, pullRequestId: Json, title: Json,
                  fromBranch: Json, toBranch: Json, author: Json, repository: Json, merged: Json)
    | Merge(timestamp: string, pullRequestId: Json, fromBranch: Json, toBranch: Json,
            author: Json, repository: Json, mergeCommitSha: Json)
    | WorkflowRun(timestamp: string, workflowId: Json, workflowName: Json, status: Json,
                  conclusion: Json, actor: Json, repository: Json, headBranch: Json,
                  headSha: Json, runAttempt: Json, runNumber: Json, runStartedAt: Json,
                  runUpdatedAt: Json)

  /** The `event_type` discriminator of a record. */
  function EventType(r: Record): string {
    match r
    case Push(_, _, _, _, _, _) => "push"
    case PullRequest(_, _, _, _, _, _, _, _, _) => "pull_request"
    case Merge(_, _, _, _, _, _, _) => "merge"
    case WorkflowRun(_, _, _, _, _, _, _, _, _, _, _, _, _) => "workflow_run"
  }

  /** The document as stored, under the field names the receiver writes. */
  function Document(r: Record): (d: map<string, Json>)
    ensures "event_type" in d && d["event_type"] == JStr(EventType(r))
    ensures "timestamp" in d && d["timestamp"] == JStr(r.timestamp)
    ensures "status" in d <==> r.WorkflowRun?
    ensures r.WorkflowRun? ==> d["status"] == r.status
  {
    match r
    case Push(ts, ref, after, repository, pusher, sender) =>
      map["event_type" := JStr("push"), "timestamp" := JStr(ts), "ref" := ref, "after" := after,
          "repository" := repository, "pusher" := pusher, "sender" := sender]
    case PullRequest(ts, action, id, title, from, to, author, repository, merged) =>
      map["event_type" := JStr("pull_request"), "timestamp" := JStr(ts), "action" := action,
          "pull_request_id" := id, "title" := title, "from_branch" := from, "to_branch" := to,
          "author" := author, "repository" := repository, "merged" := merged]
    case Merge(ts, id, from, to, author, repository, sha) =>
      map["event_type" := JStr("merge"), "timestamp" := JStr(ts), "pull_request_id" := id,
          "from_branch" := from, "to_branch" := to, "author" := author,
          "repository" := repository, "merge_commit_sha" := sha]
    case WorkflowRun(ts, id, name, status, conclusion, actor, repository, headBranch, headSha,
                     attempt, number, started, updated) =>
      map["event_type" := JStr("workflow_run"), "timestamp" := JStr(ts), "workflow_id" := id,
          "workflow_name" := name, "status" := status, "conclusion" := conclusion,
          "actor" := actor, "repository" := repository, "head_branch" := headBranch,
          "head_sha" := headSha, "run_attempt" := attempt, "run_number" := number,
          "run_started_at" := started, "run_updated_at" := updated]
  }

  /** The `push` record; the fields are evaluated in the order `receiver` lists them. */
  function PushRecord(payload: Json, now: string): (r: Result<Record>)
    ensures r.Ok? ==> payload.JObj? && r.value.Push? && r.value.timestamp == now && EventType(r.value) == "push"
  {
    if !payload.JObj? then Err(NoGet(payload))
    else
      var p := payload.fields;
      var repository :- Nested(p, "repository", "full_name");
      var pusher :- Nested(p, "pusher", "name");
      var sender :- Nested(p, "sender", "login");
      Ok(Push(now, DictGet(p, "ref"), DictGet(p, "after"), repository, pusher, sender))
  }

  /** The `pull_request` record; `merged` defaults to False. */
  function PullRequestRecord(payload: Json, now: string): (r: Result<Record>)
    ensures r.Ok? ==> payload.JObj? && r.value.PullRequest? && r.value.timestamp == now && EventType(r.value) == "pull_request"
  {
    if !payload.JObj? then Err(NoGet(payload))
    else
      var p := payload.fields;
      var pr := DictGetOr(p, "pull_request", JObj(map[]));
      if !pr.JObj? then Err(NoGet(pr))
      else
        var head := DictGetOr(pr.fields, "head", JObj(map[]));
        if !head.JObj? then Err(NoGet(head))
        else
          var base := DictGetOr(pr.fields, "base", JObj(map[]));
          if !base.JObj? then Err(NoGet(base))
          else
            var author :- Nested(p, "sender", "login");
            var repository :- Nested(p, "repository", "full_name");
            Ok(PullRequest(now, DictGet(p, "action"), DictGet(pr.fields, "id"),
                           DictGet(pr.fields, "title"), DictGet(head.fields, "ref"),
                           DictGet(base.fields, "ref"), author, repository,
                           DictGetOr(pr.fields, "merged", JBool(false))))
  }

  /** The derived `merge` record, looked up afresh from the same payload, as `receiver` does. */
  function MergeRecord(payload: Json, now: string): (r: Result<Record>)
    ensures r.Ok? ==> payload.JObj? && r.value.Merge? && r.value.timestamp == now && EventType(r.value) == "merge"
  {
    if !payload.JObj? then Err(NoGet(payload))
    else
      var p := payload.fields;
      var pr := DictGetOr(p, "pull_request", JObj(map[]));
      if !pr.JObj? then Err(NoGet(pr))
      else
        var head := DictGetOr(pr.fields, "head", JObj(map[]));
        if !head.JObj? then Err(NoGet(head))
        else
          var base := DictGetOr(pr.fields, "base", JObj(map[]));
          if !base.JObj? then Err(NoGet(base))
          else
            var author :- Nested(p, "sender", "login");
            var repository :- Nested(p, "repository", "full_name");
            Ok(Merge(now, DictGet(pr.fields, "id"), DictGet(head.fields, "ref"),
                     DictGet(base.fields, "ref"), author, repository,
                     DictGet(pr.fields, "merge_commit_sha")))
  }

  /**
   * The merge condition `action == "closed" and pull_request.merged`. Its two
   * lookups return exactly the `action` and `merged` values of the record
   * just built, so it is read off that record.
   */
  predicate ShouldMerge(pr: Record)
    requires pr.PullRequest?
  {
    pr.action == JStr("closed") && Truthy(pr.merged)
  }

  /**
   * The merge test of `receiver` on the payload itself: `action` is
   * "closed" and `pull_request.merged`, False when absent, is truthy.
   */
  predicate ClosedAsMerged(p: map<string, Json>) {
    && DictGet(p, "action") == JStr("closed")
    && var pr := DictGetOr(p, "pull_request", JObj(map[]));
       pr.JObj? && Truthy(DictGetOr(pr.fields, "merged", JBool(false)))
  }

  /** The `workflow_run` record; `conclusion` defaults to "unknown", `run_attempt` to 1. */
  function WorkflowRunRecord(payload: Json, now: string): (r: Result<Record>)
    ensures r.Ok? ==> payload.JObj? && r.value.WorkflowRun? && r.value.timestamp == now && EventType(r.value) == "workflow_run"
  {
    if !payload.JObj? then Err(NoGet(payload))
    else
      var p := payload.fields;
      var run := DictGetOr(p, "workflow_run", JObj(map[]));
      if !run.JObj? then Err(NoGet(run))
      else
        var w := run.fields;
        var actor :- Nested(w, "actor", "login");
        var repository :- Nested(p, "repository", "full_name");
        Ok(WorkflowRun(now, DictGet(w, "id"), DictGet(w, "name"), DictGet(w, "status"),
                       DictGetOr(w, "conclusion", JStr("unknown")), actor, repository,
                       DictGet(w, "head_branch"), DictGet(w, "head_sha"),
                       DictGetOr(w, "run_attempt", JInt(1)), DictGet(w, "run_number"),
                       DictGet(w, "created_at"), DictGet(w, "updated_at")))
  }

  /** Once the pull request record is built, the merge record cannot raise and agrees with it. */
  lemma MergeAgreesWithPullRequest(payload: Json, now: string)
    requires PullRequestRecord(payload, now).Ok?
    ensures MergeRecord(payload, now).Ok?
    ensures var pr, m := PullRequestRecord(payload, now).value, MergeRecord(payload, now).value;
            && m.pullRequestId == pr.pullRequestId && m.fromBranch == pr.fromBranch
            && m.toBranch == pr.toBranch && m.author == pr.author
            && m.repository == pr.repository && m.timestamp == pr.timestamp
            && m.mergeCommitSha ==
                 DictGet(DictGetOr(payload.fields, "pull_request", JObj(map[])).fields, "merge_commit_sha")
  {
  }

  /**
   * The records to store for one event, in insertion order: one for `push`
   * and `workflow_run`, the pull request record followed by a merge record
   * when it was closed as merged, and none for any other type.
   */
  function Normalize(payload: Json, eventType: string, now: string): (r: Result<seq<Record>>)
    ensures r.Ok? && r.value != [] ==> eventType in {"push", "pull_request", "workflow_run"}
    ensures r.Ok? ==> forall x :: x in r.value ==> x.timestamp == now
  {
    if eventType == "push" then
      var r :- PushRecord(payload, now);
      Ok([r])
    else if eventType == "pull_request" then
      var pr :- PullRequestRecord(payload, now);
      if ShouldMerge(pr) then
        MergeAgreesWithPullRequest(payload, now);
        Ok([pr, MergeRecord(payload, now).value])
      else Ok([pr])
    else if eventType == "workflow_run" then
      var r :- WorkflowRunRecord(payload, now);
      Ok([r])
    else Ok([])
  }

  /**
   * Which records each event type yields, all stamped with `now`: the push
   * or workflow record built from the payload; for a pull request its
   * record, then the merge record exactly when the payload says it was
   * closed as merged; nothing for other types.
   */
  lemma NormalizeShape(payload: Json, eventType: string, now: string)
    ensures eventType != "push" && eventType != "pull_request" && eventType != "workflow_run" ==>
              Normalize(payload, eventType, now) == Ok([])
    ensures Normalize(payload, eventType, now).Ok? && eventType == "push" ==>
              var rs := Normalize(payload, eventType, now).value;
              && PushRecord(payload, now).Ok? && rs == [PushRecord(payload, now).value]
              && rs[0].Push?
    ensures Normalize(payload, eventType, now).Ok? && eventType == "workflow_run" ==>
              var rs := Normalize(payload, eventType, now).value;
              && WorkflowRunRecord(payload, now).Ok? && rs == [WorkflowRunRecord(payload, now).value]
              && rs[0].WorkflowRun?
    ensures Normalize(payload, eventType, now).Ok? && eventType == "pull_request" ==>
              var rs := Normalize(payload, eventType, now).value;
              && PullRequestRecord(payload, now).Ok? && payload.JObj?
              && 1 <= |rs| <= 2 && rs[0] == PullRequestRecord(payload, now).value && rs[0].PullRequest?
              && (|rs| == 2 <==> ShouldMerge(rs[0]))
              && (|rs| == 2 <==> ClosedAsMerged(payload.fields))
              && (|rs| == 2 ==> MergeRecord(payload, now).Ok? && rs[1] == MergeRecord(payload, now).value)
              && (|rs| == 2 ==> rs[1].Merge?)
    ensures Normalize(payload, eventType, now).Ok? ==>
              forall r :: r in Normalize(payload, eventType, now).value ==> r.timestamp == now
  {
    PullRequestRecordOk(payload, now);
  }

  /** A `push` payload is normalized unless it is not a dict or has a non-dict `repository`, `pusher` or `sender`. */
  lemma PushRecordOk(payload: Json, now: string)
    ensures PushRecord(payload, now).Ok? <==>
              payload.JObj? && YieldsDict(payload.fields, "repository")
              && YieldsDict(payload.fields, "pusher") && YieldsDict(payload.fields, "sender")
    ensures PushRecord(payload, now).Ok? ==>
              var r := PushRecord(payload, now).value;
              && r.ref == DictGet(payload.fields, "ref") && r.after == DictGet(payload.fields, "after")
              && r.repository == NestedValue(payload.fields, "repository", "full_name")
              && r.pusher == NestedValue(payload.fields, "pusher", "name")
              && r.sender == NestedValue(payload.fields, "sender", "login")
              && ("repository" !in payload.fields ==> r.repository == JNull)
    ensures payload.JObj? && "repository" in payload.fields && !payload.fields["repository"].JObj? ==>
              PushRecord(payload, now) == Err(NoGet(payload.fields["repository"]))
  {
  }

  /**
   * A `pull_request` payload is normalized unless the payload, its
   * `pull_request`, that one's `head` or `base`, `sender` or `repository`
   * is present and not a dict; `merged` is False when absent.
   */
  lemma PullRequestRecordOk(payload: Json, now: string)
    ensures PullRequestRecord(payload, now).Ok? <==>
              && payload.JObj? && YieldsDict(payload.fields, "pull_request")
              && var pr := DictGetOr(payload.fields, "pull_request", JObj(map[])).fields;
                 && YieldsDict(pr, "head") && YieldsDict(pr, "base")
                 && YieldsDict(payload.fields, "sender") && YieldsDict(payload.fields, "repository")
    ensures PullRequestRecord(payload, now).Ok? ==>
              var pr := DictGetOr(payload.fields, "pull_request", JObj(map[])).fields;
              var r := PullRequestRecord(payload, now).value;
              && r.action == DictGet(payload.fields, "action")
              && r.pullRequestId == DictGet(pr, "id") && r.title == DictGet(pr, "title")
              && r.fromBranch == NestedValue(pr, "head", "ref") && r.toBranch == NestedValue(pr, "base", "ref")
              && r.author == NestedValue(payload.fields, "sender", "login")
              && r.repository == NestedValue(payload.fields, "repository", "full_name")
              && r.merged == DictGetOr(pr, "merged", JBool(false))
              && ("merged" !in pr ==> r.merged == JBool(false))
              && ("merged" !in pr ==> !ShouldMerge(r))
  {
  }

  /**
   * A `workflow_run` payload is normalized unless the payload, its
   * `workflow_run`, that one's `actor` or the `repository` is present and
   * not a dict; absent `conclusion` and `run_attempt` become "unknown" and 1.
   */
  lemma WorkflowRunRecordOk(payload: Json, now: string)
    ensures WorkflowRunRecord(payload, now).Ok? <==>
              && payload.JObj? && YieldsDict(payload.fields, "workflow_run")
              && YieldsDict(DictGetOr(payload.fields, "workflow_run", JObj(map[])).fields, "actor")
              && YieldsDict(payload.fields, "repository")
    ensures WorkflowRunRecord(payload, now).Ok? ==>
              var w := DictGetOr(payload.fields, "workflow_run", JObj(map[])).fields;
              var r := WorkflowRunRecord(payload, now).value;
              && r.workflowId == DictGet(w, "id") && r.workflowName == DictGet(w, "name")
              && r.status == DictGet(w, "status")
              && r.actor == NestedValue(w, "actor", "login")
              && r.repository == NestedValue(payload.fields, "repository", "full_name")
              && r.headBranch == DictGet(w, "head_branch") && r.headSha == DictGet(w, "head_sha")
              && r.runNumber == DictGet(w, "run_number")
              && r.conclusion == (if "conclusion" in w then w["conclusion"] else JStr("unknown"))
              && r.runAttempt == (if "run_attempt" in w then w["run_attempt"] else JInt(1))
              && r.runStartedAt == DictGet(w, "created_at") && r.runUpdatedAt == DictGet(w, "updated_at")
  {
  }

  /** Every record the normalizer produces carries one of the four stored event types. */
  lemma StoredTypes(payload: Json, eventType: string, now: string)
    ensures Normalize(payload, eventType, now).Ok? ==>
              forall r :: r in Normalize(payload, eventType, now).value ==>
                && EventType(r) in {"push", "pull_request", "merge", "workflow_run"}
                && (EventType(r) != "merge" ==> EventType(r) == eventType)
  {
  }
}
