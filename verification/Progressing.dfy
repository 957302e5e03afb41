/** A request under way: a run of a plan seen step by step, so that its parts can be put together. */
module Progressing {

  import opened Folds
  import opened Kubernetes
  import opened Steps
  import opened Runs

  /** A request under way: the world as it left it, the outcomes so far, and whether one of them ended it. */
  datatype Progress = Progress(now: World, outcomes: seq<Outcome>, stopped: bool)

  function Advance(p: Progress, step: Step): Progress {
    if p.stopped then p
    else
      var (next, outcome) := RunStep(p.now, step);
      Progress(next, p.outcomes + [outcome], Stops(step, outcome))
  }

  function Begin(w: World): Progress {
    Progress(w, [], false)
  }

  /** From `from`, the steps in `done` lead to `p`. */
  ghost predicate Reached(from: Progress, done: seq<Step>, p: Progress) {
    Fold(Advance, from, done) == p
  }

  lemma {:induction false} ReachNext(from: Progress, done: seq<Step>, p: Progress, step: Step)
    requires Reached(from, done, p)
    ensures Reached(from, done + [step], Advance(p, step))
  {
  }

  lemma {:induction false} ReachOn(from: Progress, done: seq<Step>, p: Progress, more: seq<Step>, p': Progress)
    requires Reached(from, done, p) && Reached(p, more, p')
    ensures Reached(from, done + more, p')
  {
    FoldConcat(Advance, from, done, more);
  }

  lemma {:induction false} StoppedStays(p: Progress, rest: seq<Step>)
    requires p.stopped
    ensures Reached(p, rest, p)
  {
    if rest != [] {
      StoppedStays(p, rest[..|rest| - 1]);
    }
  }

  /** A request that stopped within a plan has come as far as the plan will go. */
  lemma {:induction false} StopsShort(from: Progress, done: seq<Step>, p: Progress, plan: seq<Step>)
    requires Reached(from, done, p) && p.stopped && done <= plan
    ensures Reached(from, plan, p)
  {
    StoppedStays(p, plan[|done|..]);
    ReachOn(from, done, p, plan[|done|..], p);
    assert plan == done + plan[|done|..];
  }

  lemma {:induction false} AdvanceFirst(p: Progress, plan: seq<Step>)
    requires plan != []
    ensures Fold(Advance, p, plan) == Fold(Advance, Advance(p, plan[0]), plan[1..])
  {
    FoldConcat(Advance, p, [plan[0]], plan[1..]);
    FoldOne(Advance, p, plan[0]);
    assert plan == [plan[0]] + plan[1..];
  }

  lemma {:induction false} RunPlanFirst(w: World, before: seq<Outcome>, plan: seq<Step>)
    requires plan != []
    ensures var (first, outcome) := RunStep(w, plan[0]);
            && (Stops(plan[0], outcome) ==> RunPlan(w, plan) == (first, [outcome]))
            && (!Stops(plan[0], outcome) ==>
                  && RunPlan(w, plan).0 == RunPlan(first, plan[1..]).0
                  && before + RunPlan(w, plan).1 == before + [outcome] + RunPlan(first, plan[1..]).1)
  {
  }

  lemma {:induction false} RunIsFold(w: World, before: seq<Outcome>, plan: seq<Step>)
    ensures var p := Fold(Advance, Progress(w, before, false), plan);
            (p.now, p.outcomes) == (RunPlan(w, plan).0, before + RunPlan(w, plan).1)
    decreases |plan|
  {
    if plan == [] {
      assert before + [] == before;
    } else {
      var (first, outcome) := RunStep(w, plan[0]);
      AdvanceFirst(Progress(w, before, false), plan);
      RunPlanFirst(w, before, plan);
      if Stops(plan[0], outcome) {
        StoppedStays(Progress(first, before + [outcome], true), plan[1..]);
      } else {
        RunIsFold(first, before + [outcome], plan[1..]);
      }
    }
  }

  lemma {:induction false} CompletedSoFar(plan: seq<Step>, outcomes: seq<Outcome>, outcome: Outcome)
    requires plan != [] && |outcomes| < |plan|
    ensures Completed(plan, outcomes + [outcome]) <==>
            Completed(plan[..|plan| - 1], outcomes) && !Stops(plan[|plan| - 1], outcome)
  {
  }

  lemma {:induction false} StoppedOrCompleted(w: World, plan: seq<Step>)
    ensures var p := Fold(Advance, Begin(w), plan);
            |p.outcomes| <= |plan| && (p.stopped <==> !Completed(plan, p.outcomes))
  {
    if plan != [] {
      var front := plan[..|plan| - 1];
      StoppedOrCompleted(w, front);
      var p := Fold(Advance, Begin(w), front);
      if !p.stopped {
        CompletedSoFar(plan, p.outcomes, RunStep(p.now, plan[|plan| - 1]).1);
      }
    }
  }

  lemma {:induction false} ReachedIsRun(w: World, plan: seq<Step>, p: Progress)
    requires Reached(Begin(w), plan, p)
    ensures RunPlan(w, plan) == (p.now, p.outcomes)
    ensures p.stopped <==> !Completed(plan, p.outcomes)
  {
    RunIsFold(w, [], plan);
    assert [] + RunPlan(w, plan).1 == RunPlan(w, plan).1;
    StoppedOrCompleted(w, plan);
  }

  /** After a first part that was completed the run goes on with the rest. */
  lemma {:induction false} CompletedPartFirst(w: World, first: seq<Step>, rest: seq<Step>)
    requires Completed(first, RunPlan(w, first).1)
    ensures var (now, outcomes) := RunPlan(w, first);
            RunPlan(w, first + rest) == (RunPlan(now, rest).0, outcomes + RunPlan(now, rest).1)
  {
    var p := Fold(Advance, Begin(w), first);
    ReachedIsRun(w, first, p);
    var p' := Fold(Advance, p, rest);
    RunIsFold(p.now, p.outcomes, rest);
    ReachOn(Begin(w), first, p, rest, p');
    ReachedIsRun(w, first + rest, p');
  }
}
