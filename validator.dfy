/**
 * `validate_webhook_data`: for each event type, the fields a payload must
 * carry before it is stored. The answer is a list of at most one error
 * message (empty means the payload passes), or the exception Python raises
 * when the payload is not shaped like a dict.
 */
module Validator {
  import opened PyJson

  /** One required-field check: the name to report and whether the check passed. */
  type Check = (string, bool)

  /** The names of the failed checks, in the order the checks were made. */
  function Failed(checks: seq<Check>): seq<string>
    decreases |checks|
  {
    if checks == [] then []
    else (if checks[0].1 then [] else [checks[0].0]) + Failed(checks[1..])
  }

  /** A name is reported exactly when its check failed; nothing is reported when all pass. */
  lemma {:induction false} FailedMembers(checks: seq<Check>)
    ensures forall n :: n in Failed(checks) <==> (n, false) in checks
    ensures Failed(checks) == [] <==> forall i :: 0 <= i < |checks| ==> checks[i].1
    ensures |Failed(checks)| <= |checks|
    decreases |checks|
  {
    if checks != [] {
      FailedMembers(checks[1..]);
      assert checks == [checks[0]] + checks[1..];
      forall n ensures (n, false) in checks <==> (n, false) == checks[0] || (n, false) in checks[1..] {
      }
      if !checks[0].1 {
        assert !checks[0 + 0].1;
      } else {
        assert (forall i :: 0 <= i < |checks| ==> checks[i].1) <==>
               (forall i :: 0 <= i < |checks[1..]| ==> checks[1..][i].1) by {
          forall i | 0 <= i < |checks[1..]| ensures checks[1..][i] == checks[i + 1] { }
        }
      }
    }
  }

  /** `Failed` on two checks, written out. */
  lemma FailedPair(c1: Check, c2: Check)
    ensures Failed([c1, c2]) == (if c1.1 then [] else [c1.0]) + (if c2.1 then [] else [c2.0])
  {
    assert [c1, c2][1..] == [c2];
    assert [c2][1..] == [];
    assert Failed([c2]) == (if c2.1 then [] else [c2.0]) + Failed([]);
    assert Failed([c1, c2]) == (if c1.1 then [] else [c1.0]) + Failed([c2]);
  }

  /** `Failed` on three checks, written out. */
  lemma FailedTriple(c1: Check, c2: Check, c3: Check)
    ensures Failed([c1, c2, c3]) == (if c1.1 then [] else [c1.0]) + (if c2.1 then [] else [c2.0])
                                    + (if c3.1 then [] else [c3.0])
  {
    assert [c1, c2, c3][1..] == [c2, c3];
    FailedPair(c2, c3);
  }

  const MissingFieldsPrefix := "Missing required fields: "
  const MissingWorkflowRun := "Missing workflow_run information"

  /** No message when nothing is missing, otherwise one message naming every missing field. */
  function Report(missing: seq<string>): seq<string> {
    if missing == [] then [] else [MissingFieldsPrefix + Join(", ", missing)]
  }

  /** The three checks on a `workflow_run` dict: `id`, `name` and `status` must be truthy. */
  function WorkflowRunChecks(run: map<string, Json>): seq<Check> {
    [("workflow_run.id", Truthy(DictGet(run, "id"))),
     ("workflow_run.name", Truthy(DictGet(run, "name"))),
     ("workflow_run.status", Truthy(DictGet(run, "status")))]
  }

  /** The validation result of `data` for `eventType`, as a declarative definition. */
  function ValidationErrors(data: Json, eventType: string): (r: Result<seq<string>>)
    ensures r.Ok? && r.value != [] ==>
              r.value[0] == MissingWorkflowRun || MissingFieldsPrefix <= r.value[0]
  {
    if eventType == "ping" then Ok([])
    else if eventType == "push" then
      var hasRef :- Contains(data, "ref");
      // once one `in` has not raised, the next one on the same payload cannot
      var hasAfter := Contains(data, "after").value;
      Ok(Report(Failed([("ref", hasRef), ("after", hasAfter)])))
    else if eventType == "workflow_run" then
      var hasRun :- Contains(data, "workflow_run");
      if !hasRun then Ok([MissingWorkflowRun])
      else
        var run :- GetOr(data, "workflow_run", JObj(map[]));
        if !run.JObj? then Err(NoGet(run))
        else Ok(Report(Failed(WorkflowRunChecks(run.fields))))
    else Ok([])
  }

  /**
   * `validate_webhook_data` as written: the missing names are collected
   * by successive appends, and a raising `in` or `.get` ends the call.
   */
  method ValidateWebhookData(data: Json, eventType: string) returns (r: Result<seq<string>>)
    ensures r == ValidationErrors(data, eventType)
  {
    if eventType == "ping" {
      return Ok([]);
    }
    if eventType == "push" {
      var requiredFields: seq<string> := [];
      var hasRef :- Contains(data, "ref");
      if !hasRef {
        requiredFields := requiredFields + ["ref"];
      }
      var hasAfter := Contains(data, "after").value;
      if !hasAfter {
        requiredFields := requiredFields + ["after"];
      }
      FailedPair(("ref", hasRef), ("after", hasAfter));
      if requiredFields != [] {
        return Ok([MissingFieldsPrefix + Join(", ", requiredFields)]);
      }
      return Ok([]);
    }
    if eventType == "workflow_run" {
      var hasRun :- Contains(data, "workflow_run");
      if !hasRun {
        return Ok([MissingWorkflowRun]);
      }
      var run :- GetOr(data, "workflow_run", JObj(map[]));
      if !run.JObj? {
        return Err(NoGet(run));
      }
      var requiredFields: seq<string> := [];
      if !Truthy(DictGet(run.fields, "id")) {
        requiredFields := requiredFields + ["workflow_run.id"];
      }
      if !Truthy(DictGet(run.fields, "name")) {
        requiredFields := requiredFields + ["workflow_run.name"];
      }
      if !Truthy(DictGet(run.fields, "status")) {
        requiredFields := requiredFields + ["workflow_run.status"];
      }
      ghost var checks := WorkflowRunChecks(run.fields);
      FailedTriple(checks[0], checks[1], checks[2]);
      assert requiredFields == Failed(checks);
      if requiredFields != [] {
        return Ok([MissingFieldsPrefix + Join(", ", requiredFields)]);
      }
      return Ok([]);
    }
    return Ok([]);
  }

  /** `ping` and every type other than `push` and `workflow_run` pass, whatever the payload. */
  lemma PermissiveDefault(data: Json, eventType: string)
    requires eventType == "ping" || (eventType != "push" && eventType != "workflow_run")
    ensures ValidationErrors(data, eventType) == Ok([])
  {
  }

  /** Whenever validation returns, it returns at most one message. */
  lemma AtMostOneMessage(data: Json, eventType: string)
    ensures ValidationErrors(data, eventType).Ok? ==> |ValidationErrors(data, eventType).value| <= 1
  {
  }

  /**
   * A dict `push` payload passes iff it has both `ref` and `after`; otherwise
   * the one message names exactly the missing keys, `ref` before `after`.
   */
  lemma PushValidation(data: Json)
    requires data.JObj?
    ensures ValidationErrors(data, "push") == Ok(
      if "ref" in data.fields && "after" in data.fields then []
      else if "after" in data.fields then ["Missing required fields: ref"]
      else if "ref" in data.fields then ["Missing required fields: after"]
      else ["Missing required fields: ref, after"])
  {
    FailedPair(("ref", "ref" in data.fields), ("after", "after" in data.fields));
    assert ["ref", "after"][1..] == ["after"];
    assert Join(", ", ["ref", "after"]) == "ref" + ", " + Join(", ", ["after"]);
    assert Join(", ", ["ref"]) == "ref";
    assert Join(", ", ["after"]) == "after";
    assert MissingFieldsPrefix + "ref" == "Missing required fields: ref";
    assert MissingFieldsPrefix + "after" == "Missing required fields: after";
    assert MissingFieldsPrefix + ("ref" + ", " + "after") == "Missing required fields: ref, after";
  }

  /**
   * A `workflow_run` dict payload: without the key, the fixed message; with a
   * non-dict value, `.get` raises; with a dict, one message listing, prefixed
   * by `workflow_run.`, exactly those of `id`, `name`, `status` that are falsy.
   */
  lemma WorkflowRunValidation(data: Json)
    requires data.JObj?
    ensures "workflow_run" !in data.fields ==>
              ValidationErrors(data, "workflow_run") == Ok([MissingWorkflowRun])
    ensures "workflow_run" in data.fields && !data.fields["workflow_run"].JObj? ==>
              ValidationErrors(data, "workflow_run") == Err(NoGet(data.fields["workflow_run"]))
    ensures "workflow_run" in data.fields && data.fields["workflow_run"].JObj? ==>
              var run := data.fields["workflow_run"].fields;
              var missing := Failed(WorkflowRunChecks(run));
              && ValidationErrors(data, "workflow_run") == Ok(Report(missing))
              && (missing == [] <==>
                    Truthy(DictGet(run, "id")) && Truthy(DictGet(run, "name")) && Truthy(DictGet(run, "status")))
              && ("workflow_run.id" in missing <==> !Truthy(DictGet(run, "id")))
              && ("workflow_run.name" in missing <==> !Truthy(DictGet(run, "name")))
              && ("workflow_run.status" in missing <==> !Truthy(DictGet(run, "status")))
  {
    if "workflow_run" in data.fields && data.fields["workflow_run"].JObj? {
      var checks := WorkflowRunChecks(data.fields["workflow_run"].fields);
      FailedMembers(checks);
      assert (forall i :: 0 <= i < |checks| ==> checks[i].1) <==> checks[0].1 && checks[1].1 && checks[2].1;
    }
  }

  /** A payload that is an int, a bool or None makes `in` raise for `push` and `workflow_run`. */
  lemma NonContainerRaises(data: Json, eventType: string)
    requires data.JInt? || data.JBool? || data.JNull?
    requires eventType == "push" || eventType == "workflow_run"
    ensures ValidationErrors(data, eventType) == Err(NotIterable(data))
  {
  }
}
