/** How the log of an interleaving relates to the requests that made it, and to requests served one at a time. */
module Histories {

  import opened Wrappers
  import opened Folds
  import opened Kubernetes
  import opened Steps
  import opened Runs
  import opened Interleaving
  import opened SharedRules

  // ---- Each handler's commits are its own steps, in order, none of them twice ----

  /** What a handler has committed, in the order of the log. */
  function StepsBy(who: nat, log: seq<Commit>): seq<Step> {
    if log == [] then []
    else
      var last := log[|log| - 1];
      StepsBy(who, log[..|log| - 1]) + if last.Did? && last.who == who then [last.step] else []
  }

  /** `part` is `whole` with some elements left out. */
  predicate Within(part: seq<Step>, whole: seq<Step>) {
    if part == [] then true
    else if whole == [] then false
    else
      var p, w := |part| - 1, |whole| - 1;
      (part[p] == whole[w] && Within(part[..p], whole[..w])) || Within(part, whole[..w])
  }

  lemma {:induction false} WithinMore(part: seq<Step>, whole: seq<Step>, step: Step)
    requires Within(part, whole)
    ensures Within(part, whole + [step]) && Within(part + [step], whole + [step])
  {
  }

  /** The steps a handler has had its turn at; the last of them is the one that stopped it. */
  function Tried(h: Handler): seq<Step>
    requires h.next <= |h.plan|
  {
    if h.stopped && h.next < |h.plan| then h.plan[..h.next + 1] else h.plan[..h.next]
  }

  predicate Ordered(h: Handler, who: nat, log: seq<Commit>) {
    h.next <= |h.plan| && Within(StepsBy(who, log), Tried(h))
  }

  ghost predicate InOrder(sys: System) {
    forall i :: 0 <= i < |sys.handlers| ==> Ordered(sys.handlers[i], i, sys.log)
  }

  lemma {:induction false} StrangersCommitNothing(who: nat, log: seq<Commit>)
    requires forall c :: c in log && c.Did? ==> c.who != who
    ensures StepsBy(who, log) == []
  {
    if log != [] {
      assert log[|log| - 1] in log;
      StrangersCommitNothing(who, log[..|log| - 1]);
    }
  }

  lemma StepsByNext(who: nat, log: seq<Commit>, c: Commit)
    ensures StepsBy(who, log + [c]) == StepsBy(who, log) + if c.Did? && c.who == who then [c.step] else []
  {
  }

  /** A turn of one handler: it goes on or stops, and may commit its step. */
  ghost predicate Turn(sys: System, sys': System, who: nat)
    requires Busy(sys, who)
  {
    var h, step := sys.handlers[who], StepOf(sys.handlers[who]);
    && (sys'.log == sys.log || sys'.log == sys.log + [Did(who, step)])
    && exists h' :: sys'.handlers == sys.handlers[who := h'] && h'.plan == h.plan &&
                    (if h'.stopped then h'.next == h.next else h'.next == h.next + 1)
  }

  lemma ActIsTurn(sys: System, who: nat, fault: Fault)
    requires Busy(sys, who) && sys.handlers[who].seen.Some?
    ensures Turn(sys, Act(sys, who, fault), who)
  {
  }

  lemma TurnOrdered(h: Handler, h': Handler, who: nat, log: seq<Commit>)
    requires Ordered(h, who, log) && !h.stopped && h.next < |h.plan|
    requires h'.plan == h.plan && if h'.stopped then h'.next == h.next else h'.next == h.next + 1
    ensures Ordered(h', who, log) && Ordered(h', who, log + [Did(who, StepOf(h))])
  {
    assert Tried(h') == Tried(h) + [StepOf(h)];
    WithinMore(StepsBy(who, log), Tried(h), StepOf(h));
    StepsByNext(who, log, Did(who, StepOf(h)));
  }

  lemma OthersOrdered(h: Handler, who: nat, log: seq<Commit>, c: Commit)
    requires Ordered(h, who, log) && !(c.Did? && c.who == who)
    ensures Ordered(h, who, log + [c])
  {
    StepsByNext(who, log, c);
    assert StepsBy(who, log) + [] == StepsBy(who, log);
  }

  lemma TurnKeepsOrder(sys: System, sys': System, who: nat)
    requires InOrder(sys) && Busy(sys, who) && Turn(sys, sys', who)
    ensures InOrder(sys')
  {
    var commit := Did(who, StepOf(sys.handlers[who]));
    forall i | 0 <= i < |sys.handlers| ensures Ordered(sys'.handlers[i], i, sys'.log) {
      assert Ordered(sys.handlers[i], i, sys.log);
      if i == who {
        TurnOrdered(sys.handlers[who], sys'.handlers[who], who, sys.log);
      } else {
        OthersOrdered(sys.handlers[i], i, sys.log, commit);
      }
    }
  }

  lemma NextKeepsOrder(sys: System, e: Event)
    requires InOrder(sys) && Planned(sys)
    ensures InOrder(Next(sys, e))
  {
    match e
    case Acts(who, fault) =>
      if Busy(sys, who) && sys.handlers[who].seen.Some? {
        ActIsTurn(sys, who, fault);
        TurnKeepsOrder(sys, Act(sys, who, fault), who);
      }
    case Interferes(key, content) =>
      forall i | 0 <= i < |sys.handlers| ensures Ordered(sys.handlers[i], i, sys.log + [Outside(key, content)]) {
        OthersOrdered(sys.handlers[i], i, sys.log, Outside(key, content));
      }
    case Looks(who, _) =>
      forall i | 0 <= i < |sys.handlers| ensures Ordered(Next(sys, e).handlers[i], i, sys.log) {
        assert Ordered(sys.handlers[i], i, sys.log);
      }
    case Starts(plan) =>
      StrangersCommitNothing(|sys.handlers|, sys.log);
      assert Ordered(Handler(plan, 0, None, false), |sys.handlers|, sys.log);
  }

  /** The log holds each request's own steps in the order of its plan, each of them once at most, and nothing that the
      request has not come to. */
  lemma {:induction false} LogFollowsPlans(s: Store, events: seq<Event>)
    ensures InOrder(Run(s, events))
  {
    if events != [] {
      LogFollowsPlans(s, events[..|events| - 1]);
      RunKeepsAccounted(s, events[..|events| - 1]);
      NextKeepsOrder(Run(s, events[..|events| - 1]), events[|events| - 1]);
    }
  }

  // ---- One request at a time is one way to interleave ----

  /** The network as one step meets it: is the look answered, and what happens to the write. */
  function Schedule(w: World, step: Step): seq<Event> {
    var seen := if LooksFirst(step) then w.Rest() else w;
    [Looks(0, w.Next() == Fine), Acts(0, seen.Next())]
  }

  /** A single handler before step `k` of its plan. */
  predicate Alone(sys: System, plan: seq<Step>, k: nat, stopped: bool) {
    && |sys.handlers| == 1 && sys.handlers[0].plan == plan && sys.handlers[0].next == k
    && sys.handlers[0].stopped == stopped && (!stopped ==> sys.handlers[0].seen == None)
  }

  lemma {:induction false} StepAlone(sys: System, w: World, plan: seq<Step>, k: nat)
    requires k < |plan| && Alone(sys, plan, k, false) && sys.store == w.store
    ensures var (w', outcome) := RunStep(w, plan[k]);
            var sys' := Fold(Next, sys, Schedule(w, plan[k]));
            && sys'.store == w'.store
            && if Stops(plan[k], outcome) then Alone(sys', plan, k, true) else Alone(sys', plan, k + 1, false)
  {
    var schedule := Schedule(w, plan[k]);
    var looked := Next(sys, schedule[0]);
    FoldOne(Next, sys, schedule[0]);
    FoldMore(Next, sys, [schedule[0]], schedule[1]);
    assert [schedule[0]] + [schedule[1]] == schedule;
    assert looked.handlers[0].seen.Some? && Busy(looked, 0);
  }

  lemma {:induction false} RestAlone(sys: System, w: World, plan: seq<Step>, k: nat) returns (events: seq<Event>)
    requires k <= |plan| && Alone(sys, plan, k, false) && sys.store == w.store
    ensures Fold(Next, sys, events).store == RunPlan(w, plan[k..]).0.store
    ensures var sys' := Fold(Next, sys, events); var outcomes := RunPlan(w, plan[k..]).1;
            if Completed(plan[k..], outcomes) then Alone(sys', plan, |plan|, false)
            else |outcomes| > 0 && Alone(sys', plan, k + |outcomes| - 1, true)
    decreases |plan| - k
  {
    if k == |plan| {
      events := [];
    } else {
      var (first, outcome) := RunStep(w, plan[k]);
      var schedule := Schedule(w, plan[k]);
      var sys' := Fold(Next, sys, schedule);
      StepAlone(sys, w, plan, k);
      assert plan[k..][0] == plan[k] && plan[k..][1..] == plan[k + 1..];
      if Stops(plan[k], outcome) {
        events := schedule;
        assert !Completed(plan[k..], [outcome]);
      } else {
        var rest := RestAlone(sys', first, plan, k + 1);
        events := schedule + rest;
        FoldConcat(Next, sys, schedule, rest);
        CompletedHead(plan[k..], outcome, RunPlan(first, plan[k + 1..]).1);
      }
    }
  }

  /** Whatever the network does to a request that is served alone, the machine of interleaved handlers can do it too:
      the same store in the end, and the request through or stopped at the same step. */
  lemma {:induction false} SequentialIsInterleaving(w: World, plan: seq<Step>) returns (events: seq<Event>)
    ensures Run(w.store, events).store == RunPlan(w, plan).0.store
    ensures var outcomes := RunPlan(w, plan).1;
            if Completed(plan, outcomes) then Alone(Run(w.store, events), plan, |plan|, false)
            else |outcomes| > 0 && Alone(Run(w.store, events), plan, |outcomes| - 1, true)
  {
    var start := System(w.store, [], []);
    FoldOne(Next, start, Starts(plan));
    var begun := Next(start, Starts(plan));
    var rest := RestAlone(begun, w, plan, 0);
    events := [Starts(plan)] + rest;
    FoldConcat(Next, start, [Starts(plan)], rest);
    assert plan[0..] == plan;
  }
}
