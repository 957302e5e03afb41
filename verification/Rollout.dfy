/** Following a rollout: from what the cluster says about a Deployment, over the HTTP status, to the waiting client. */
module Rollout {

  import opened Wrappers

  datatype Condition = Condition(kind: string, reason: string)

  datatype Snapshot = Snapshot(
    generation: int,
    observedGeneration: int,
    desired: int,
    total: int,
    updated: int,
    available: int,
    conditions: seq<Condition>)

  datatype Status = Succeeded | InProgress | Failed

  predicate IsExceeded(c: Condition) {
    c.kind == "Progressing" && c.reason == "ProgressDeadlineExceeded"
  }

  predicate DeadlineExceeded(d: Snapshot) {
    exists i :: 0 <= i < |d.conditions| && IsExceeded(d.conditions[i])
  }

  method DeploymentExceededProgressDeadline(d: Snapshot) returns (exceeded: bool)
    ensures exceeded <==> DeadlineExceeded(d)
    ensures exceeded <==>
            exists c :: c in d.conditions && c.kind == "Progressing" && c.reason == "ProgressDeadlineExceeded"
  {
    for i := 0 to |d.conditions|
      invariant forall j :: 0 <= j < i ==> !IsExceeded(d.conditions[j])
    {
      if IsExceeded(d.conditions[i]) {
        return true;
      }
    }
    exceeded := false;
  }

  function StatusOf(d: Snapshot): Status {
    if d.generation <= d.observedGeneration then
      if DeadlineExceeded(d) then Failed
      else if d.updated < d.desired then InProgress
      else if d.total > d.updated then InProgress
      else if d.available < d.updated then InProgress
      else Succeeded
    else InProgress
  }

  method DeploymentStatus(d: Snapshot) returns (status: Status)
    ensures status == StatusOf(d)
  {
    status := InProgress;
    if d.generation <= d.observedGeneration {
      var exceeded := DeploymentExceededProgressDeadline(d);
      if exceeded {
        status := Failed;
      } else if d.updated >= d.desired && d.total <= d.updated && d.available >= d.updated {
        status := Succeeded;
      }
    }
  }

  /** The cluster counts updated and available replicas among all of them. */
  predicate CountsFit(d: Snapshot) {
    d.updated <= d.total && d.available <= d.total
  }

  /** The new version runs, all of it, and nothing else does. */
  predicate RolledOut(d: Snapshot) {
    && d.generation <= d.observedGeneration && !DeadlineExceeded(d)
    && d.available == d.updated == d.total && d.total >= d.desired
  }

  lemma SucceededMeansRolledOut(d: Snapshot)
    requires CountsFit(d)
    ensures StatusOf(d) == Succeeded <==> RolledOut(d)
    ensures StatusOf(d) == Failed <==> d.generation <= d.observedGeneration && DeadlineExceeded(d)
  {
  }

  /** The HTTP status for a Deployment, or for none. */
  function StatusCode(found: Option<Snapshot>): int {
    match found
    case None => 404
    case Some(d) =>
      match StatusOf(d)
      case InProgress => 202
      case Failed => 500
      case Succeeded => 200
  }

  /** Each status means one thing about the Deployment. */
  lemma StatusCodesTell(found: Option<Snapshot>)
    requires found.Some? ==> CountsFit(found.value)
    ensures StatusCode(found) == 404 <==> found.None?
    ensures StatusCode(found) == 200 <==> found.Some? && RolledOut(found.value)
    ensures StatusCode(found) == 500 <==>
            found.Some? && found.value.generation <= found.value.observedGeneration && DeadlineExceeded(found.value)
    ensures StatusCode(found) in {200, 202, 404, 500}
  {
  }

  datatype Response = NoContact | Code(code: int)

  /** How far a client got within the responses at hand. */
  datatype Waiting = Deployed | GivenUp(last: Response) | StillWaiting

  predicate SaysWait(r: Response) {
    r == Code(202)
  }

  /** The first response that does not say to wait is the one at `i`. */
  predicate Decides(responses: seq<Response>, i: nat) {
    i < |responses| && !SaysWait(responses[i]) && forall j :: 0 <= j < i ==> SaysWait(responses[j])
  }

  method WaitForDeploy(responses: seq<Response>) returns (result: Waiting)
    ensures result == Deployed <==> exists i: nat :: Decides(responses, i) && responses[i] == Code(200)
    ensures result == StillWaiting <==> forall i :: 0 <= i < |responses| ==> SaysWait(responses[i])
    ensures result.GivenUp? ==> exists i: nat :: Decides(responses, i) && responses[i] == result.last
  {
    var polls := 0;
    while polls < |responses|
      invariant 0 <= polls <= |responses|
      invariant forall j :: 0 <= j < polls ==> SaysWait(responses[j])
    {
      var resp := responses[polls];
      if resp == NoContact {
        assert Decides(responses, polls);
        return GivenUp(resp);
      }
      if resp.code == 200 {
        assert Decides(responses, polls);
        return Deployed;
      }
      if resp.code != 202 {
        assert Decides(responses, polls);
        return GivenUp(resp);
      }
      polls := polls + 1;
    }
    result := StillWaiting;
  }

  /** The answers to a client whose i-th poll meets the i-th state of the Deployment. */
  function Answers(seen: seq<Option<Snapshot>>): (answers: seq<Response>)
    ensures |answers| == |seen| && forall i :: 0 <= i < |seen| ==> answers[i] == Code(StatusCode(seen[i]))
  {
    seq(|seen|, i requires 0 <= i < |seen| => Code(StatusCode(seen[i])))
  }

  ghost predicate InProgressBefore(seen: seq<Option<Snapshot>>, i: nat)
    requires i <= |seen|
  {
    forall j :: 0 <= j < i ==> seen[j].Some? && StatusOf(seen[j].value) == InProgress
  }

  /** A client is told of success exactly when the Deployment was there all the time, first in progress and then rolled
      out. */
  lemma WaitIsSound(seen: seq<Option<Snapshot>>)
    requires forall i :: 0 <= i < |seen| && seen[i].Some? ==> CountsFit(seen[i].value)
    ensures (exists i: nat :: Decides(Answers(seen), i) && Answers(seen)[i] == Code(200)) <==>
            (exists i: nat :: i < |seen| && InProgressBefore(seen, i) && seen[i].Some? && RolledOut(seen[i].value))
  {
    var answers := Answers(seen);
    forall i: nat | i < |seen|
      ensures Decides(answers, i) && answers[i] == Code(200) <==>
              InProgressBefore(seen, i) && seen[i].Some? && RolledOut(seen[i].value)
    {
      forall j | 0 <= j <= i
        ensures SaysWait(answers[j]) <==> seen[j].Some? && StatusOf(seen[j].value) == InProgress
        ensures answers[j] == Code(200) <==> seen[j].Some? && RolledOut(seen[j].value)
      {
      }
    }
  }
}
