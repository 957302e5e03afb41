/** A deploy among any number of other requests ends as it would have ended alone. */
module Independence {

  import opened Wrappers
  import opened App
  import opened Folds
  import opened Kubernetes
  import opened Steps
  import opened Runs
  import opened Interleaving
  import opened SharedRules
  import opened Deletion
  import opened Isolation
  import Convergence

  /** The handler `who` deploys application `a`; all others are busy with applications that are apart from it, and
      nobody outside touches what belongs to it. */
  ghost predicate LeftAlone(a: Spec, who: nat, sys: System) {
    && (forall i, k :: 0 <= i < |sys.handlers| && i != who && 0 <= k < |sys.handlers[i].plan| ==>
          Apart(a, sys.handlers[i].plan[k].spec))
    && (who < |sys.handlers| ==> forall k :: 0 <= k < |sys.handlers[who].plan| ==>
          sys.handlers[who].plan[k].spec == a && !IsDrop(sys.handlers[who].plan[k]))
    && (forall c :: c in sys.log && c.Outside? ==> !Owns(a, c.key) && c.key != RULES_KEY)
  }

  lemma LeftAloneBefore(a: Spec, who: nat, sys: System, e: Event)
    requires LeftAlone(a, who, Next(sys, e))
    ensures LeftAlone(a, who, sys)
  {
    var sys' := Next(sys, e);
    assert forall i :: 0 <= i < |sys.handlers| ==> sys'.handlers[i].plan == sys.handlers[i].plan;
    assert forall c :: c in sys.log ==> c in sys'.log;
  }

  /** What the handler has read of its application's objects is still so. */
  ghost predicate ReadIsTrue(a: Spec, h: Handler, s: Store) {
    h.seen.Some? && h.next < |h.plan| && !h.seen.value.Unreachable? && Owns(a, Target(StepOf(h))) ==>
      ContentOf(h.seen.value) == Seen(s, Target(StepOf(h)))
  }

  /** So far the application is where the steps passed would have brought it alone. */
  ghost predicate OnCourse(a: Spec, h: Handler, s: Store, now: Store) {
    && h.next <= |h.plan|
    && (!h.stopped ==> SameView(a, now, Replay(s, h.plan[..h.next])) && ReadIsTrue(a, h, now))
  }

  ghost predicate AsIfAlone(a: Spec, who: nat, s: Store, sys: System) {
    if who < |sys.handlers| then OnCourse(a, sys.handlers[who], s, sys.store) else SameView(a, sys.store, s)
  }

  lemma UnseenKeepsAlone(a: Spec, who: nat, s: Store, sys: System, sys': System)
    requires AsIfAlone(a, who, s, sys) && SameView(a, sys'.store, sys.store)
    requires |sys'.handlers| == |sys.handlers| && (who < |sys.handlers| ==> sys'.handlers[who] == sys.handlers[who])
    ensures AsIfAlone(a, who, s, sys')
  {
  }

  lemma ActTakesPlaceOrNot(s: Store, sys: System, who: nat, fault: Fault)
    requires Inv(s, sys) && Busy(sys, who) && sys.handlers[who].seen.Some?
    ensures var h, sys' := sys.handlers[who], Act(sys, who, fault);
            var call := Decide(StepOf(h), h.seen.value);
            && sys'.store in {sys.store, Atomic(sys.store, StepOf(h))}
            && (!IsDrop(StepOf(h)) && !sys'.handlers[who].stopped ==>
                  !call.Abort? && sys'.store == if IsWrite(call) then Atomic(sys.store, StepOf(h)) else sys.store)
  {
    var h := sys.handlers[who];
    var step, read := StepOf(h), h.seen.value;
    assert Sound(h, sys.store);
    if IsWrite(Decide(step, read)) && Verdict(sys.store, Target(step), Decide(step, read)) == Accepted {
      AcceptedWriteIsAtomic(sys.store, step, read);
    }
  }

  /** A step that is left out because nothing is to be done would indeed have done nothing. */
  lemma IdleIsNothing(a: Spec, s: Store, step: Step, read: Read)
    requires step.spec == a && !IsDrop(step) && Decide(step, read).Idle?
    requires !read.Unreachable? && Owns(a, Target(step)) ==> ContentOf(read) == Seen(s, Target(step))
    ensures Atomic(s, step) == s
  {
    TargetIsOwned(step);
  }

  lemma OwnActKeepsCourse(a: Spec, who: nat, s: Store, sys: System, fault: Fault)
    requires Versioned(s) && Inv(s, sys) && LeftAlone(a, who, sys) && Busy(sys, who) && sys.handlers[who].seen.Some?
    requires OnCourse(a, sys.handlers[who], s, sys.store)
    ensures OnCourse(a, Act(sys, who, fault).handlers[who], s, Act(sys, who, fault).store)
  {
    var h, sys' := sys.handlers[who], Act(sys, who, fault);
    var step := StepOf(h);
    ActTakesPlaceOrNot(s, sys, who, fault);
    if !sys'.handlers[who].stopped {
      if !IsWrite(Decide(step, h.seen.value)) {
        IdleIsNothing(a, sys.store, step, h.seen.value);
      }
      OwnStepGoesOn(a, h, s, sys.store);
    }
  }

  lemma OwnStepGoesOn(a: Spec, h: Handler, s: Store, now: Store)
    requires Versioned(s) && Versioned(now) && h.next < |h.plan| && StepOf(h).spec == a
    requires SameView(a, now, Replay(s, h.plan[..h.next]))
    ensures SameView(a, Atomic(now, StepOf(h)), Replay(s, h.plan[..h.next + 1]))
  {
    ReplayKeeps(s, h.plan[..h.next]);
    OwnStepSeesOwnView(a, now, Replay(s, h.plan[..h.next]), StepOf(h));
    FoldMore(Atomic, s, h.plan[..h.next], StepOf(h));
    assert h.plan[..h.next] + [StepOf(h)] == h.plan[..h.next + 1];
  }

  lemma OtherActUnseen(a: Spec, who: nat, s: Store, sys: System, other: nat, fault: Fault)
    requires Inv(s, sys) && LeftAlone(a, who, sys) && other != who && Busy(sys, other) && sys.handlers[other].seen.Some?
    ensures SameView(a, Act(sys, other, fault).store, sys.store)
  {
    ActTakesPlaceOrNot(s, sys, other, fault);
    ForeignStepUnseen(a, sys.store, StepOf(sys.handlers[other]));
  }

  lemma NextKeepsAlone(a: Spec, who: nat, s: Store, sys: System, e: Event)
    requires Versioned(s) && Inv(s, sys) && LeftAlone(a, who, Next(sys, e)) && AsIfAlone(a, who, s, sys)
    ensures AsIfAlone(a, who, s, Next(sys, e))
  {
    LeftAloneBefore(a, who, sys, e);
    match e
    case Starts(plan) =>
      assert Replay(s, plan[..0]) == s;
    case Looks(_, _) =>
    case Acts(i, fault) =>
      if Busy(sys, i) && sys.handlers[i].seen.Some? {
        if i == who {
          OwnActKeepsCourse(a, who, s, sys, fault);
        } else {
          OtherActUnseen(a, who, s, sys, i, fault);
          UnseenKeepsAlone(a, who, s, sys, Next(sys, e));
        }
      }
    case Interferes(key, content) =>
      assert Outside(key, content) in Next(sys, e).log;
      OutsideUnseen(a, sys.store, Outside(key, content));
      UnseenKeepsAlone(a, who, s, sys, Next(sys, e));
  }

  lemma {:induction false} RunKeepsAlone(a: Spec, who: nat, s: Store, events: seq<Event>)
    requires Versioned(s) && LeftAlone(a, who, Run(s, events))
    ensures AsIfAlone(a, who, s, Run(s, events))
  {
    if events != [] {
      var front, e := events[..|events| - 1], events[|events| - 1];
      LeftAloneBefore(a, who, Run(s, front), e);
      RunKeepsAlone(a, who, s, front);
      RunKeepsInv(s, front);
      NextKeepsAlone(a, who, s, Run(s, front), e);
    }
  }

  /** Whatever requests for other applications come and go meanwhile, and however the network treats all of them: a
      deploy that gets through leaves the objects and the rule file of its application as they would be after the same
      deploy in a quiet cluster. */
  lemma DeployAmongOthers(a: Spec, inputs: Inputs, who: nat, s: Store, events: seq<Event>)
    requires Versioned(s) && Convergence.AllWorkedOut(inputs) && LeftAlone(a, who, Run(s, events))
    requires who < |Run(s, events).handlers|
    requires var h := Run(s, events).handlers[who];
             h.plan == DeployPlan(a, inputs) && h.next == |h.plan| && !h.stopped
    ensures SameView(a, Run(s, events).store, RunPlan(World(s, []), DeployPlan(a, inputs)).0.store)
  {
    var plan := DeployPlan(a, inputs);
    RunKeepsAlone(a, who, s, events);
    assert plan[..|plan|] == plan;
    Convergence.DeployIsFeasible(s, a, inputs);
    QuietRunIsClean(s, plan);
  }
}
