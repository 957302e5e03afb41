/** Applications do not see each other: what happens to the objects of one is decided by the steps of that one. */
module Isolation {

  import opened Wrappers
  import opened App
  import opened Folds
  import opened Alerts
  import opened Kubernetes
  import opened Steps
  import opened Runs
  import opened Interleaving
  import opened SharedRules
  import opened Deletion

  /** Neither application is the other, or the other's Redis. */
  predicate NamesApart(a: Spec, b: Spec) {
    || a.namespace != b.namespace
    || (a.application != b.application && a.application != b.Redis().application &&
         b.application != a.Redis().application)
  }

  predicate Apart(a: Spec, b: Spec) {
    NamesApart(a, b) && a.RuleFile() != b.RuleFile()
  }

  /** Two applications have no object in common exactly when their names are apart. */
  lemma FootprintsDisjoint(a: Spec, b: Spec)
    ensures NamesApart(a, b) <==> forall k :: !(Owns(a, k) && Owns(b, k))
  {
    if a.namespace == b.namespace {
      var own := Key(Services, a.namespace, a.ResourceName());
      assert Owns(a, own);
      if a.application == b.application || a.application == b.Redis().application {
        assert Owns(b, own);
      }
      if b.application == a.Redis().application {
        assert Owns(a, Key(Services, a.namespace, b.ResourceName())) &&
               Owns(b, Key(Services, a.namespace, b.ResourceName()));
      }
      if NamesApart(a, b) {
        RedisNamesApart(a.application, b.application);
      }
    }
  }

  lemma RedisNamesApart(a: string, b: string)
    requires a != b
    ensures a + "-redis" != b + "-redis"
  {
    assert (a + "-redis")[..|a|] == a && (b + "-redis")[..|b|] == b;
  }

  /** The part of the cluster that belongs to one application. */
  ghost predicate SameView(a: Spec, s: Store, t: Store) {
    && (forall k :: Owns(a, k) ==> Seen(s, k) == Seen(t, k))
    && (a.RuleFile() in FilesIn(s) <==> a.RuleFile() in FilesIn(t))
    && (a.RuleFile() in FilesIn(s) ==> FilesIn(s)[a.RuleFile()] == FilesIn(t)[a.RuleFile()])
  }

  lemma OwnStepSeesOwnView(a: Spec, s: Store, t: Store, step: Step)
    requires Versioned(s) && Versioned(t) && SameView(a, s, t) && step.spec == a
    ensures SameView(a, Atomic(s, step), Atomic(t, step))
  {
    TargetIsOwned(step);
    forall k | Owns(a, k) ensures Seen(Atomic(s, step), k) == Seen(Atomic(t, step), k) {
      AtomicEffect(s, step, k);
      AtomicEffect(t, step, k);
    }
    OwnChangeOnly(s, Did(0, step));
    OwnChangeOnly(t, Did(0, step));
  }

  lemma ForeignStepUnseen(a: Spec, s: Store, step: Step)
    requires Versioned(s) && Apart(a, step.spec)
    ensures SameView(a, Atomic(s, step), s)
  {
    TargetIsOwned(step);
    FootprintsDisjoint(a, step.spec);
    forall k | Owns(a, k) ensures Seen(Atomic(s, step), k) == Seen(s, k) {
      AtomicEffect(s, step, k);
    }
    OwnChangeOnly(s, Did(0, step));
  }

  lemma OutsideUnseen(a: Spec, s: Store, c: Commit)
    requires c.Outside? && !Owns(a, c.key) && c.key != RULES_KEY
    ensures SameView(a, AtOnce(s, c), s)
  {
  }

  lemma SameViewTransitive(a: Spec, s: Store, t: Store, u: Store)
    requires SameView(a, s, t) && SameView(a, t, u)
    ensures SameView(a, s, u)
  {
  }

  /** A commit by this application, by one that is apart from it, or from outside on somebody else's object. */
  predicate NotInTheWay(a: Spec, c: Commit) {
    match c
    case Did(_, step) => step.spec == a || Apart(a, step.spec)
    case Outside(key, _) => !Owns(a, key) && key != RULES_KEY
  }

  predicate IsBy(a: Spec, c: Commit) {
    c.Did? && c.step.spec == a
  }

  lemma CommitProjects(a: Spec, all: Store, own: Store, c: Commit)
    requires Versioned(all) && Versioned(own) && SameView(a, all, own) && NotInTheWay(a, c)
    ensures SameView(a, AtOnce(all, c), if IsBy(a, c) then AtOnce(own, c) else own)
  {
    if IsBy(a, c) {
      OwnStepSeesOwnView(a, all, own, c.step);
    } else {
      if c.Did? {
        ForeignStepUnseen(a, all, c.step);
      } else {
        OutsideUnseen(a, all, c);
      }
      SameViewTransitive(a, AtOnce(all, c), all, own);
    }
  }

  /** The commits of one application. */
  function Only(a: Spec, log: seq<Commit>): seq<Commit> {
    if log == [] then []
    else
      var last := log[|log| - 1];
      Only(a, log[..|log| - 1]) + if IsBy(a, last) then [last] else []
  }

  lemma {:induction false} LogProjects(a: Spec, s: Store, log: seq<Commit>)
    requires Versioned(s) && forall c :: c in log ==> NotInTheWay(a, c)
    ensures Versioned(Fold(AtOnce, s, log)) && Versioned(Fold(AtOnce, s, Only(a, log)))
    ensures SameView(a, Fold(AtOnce, s, log), Fold(AtOnce, s, Only(a, log)))
  {
    if log != [] {
      var front, last := log[..|log| - 1], log[|log| - 1];
      assert last in log && forall c :: c in front ==> c in log;
      LogProjects(a, s, front);
      var all, own := Fold(AtOnce, s, front), Fold(AtOnce, s, Only(a, front));
      CommitProjects(a, all, own, last);
      AtOnceKeepsVersioned(all, last);
      AtOnceKeepsVersioned(own, last);
      FoldMore(AtOnce, s, Only(a, front), last);
      if !IsBy(a, last) {
        assert Only(a, log) == Only(a, front);
      }
    }
  }

  /** In any interleaving, an application's objects and rule file are exactly what its own commits alone would have made
      of them. */
  lemma OthersDoNotMatter(a: Spec, s: Store, events: seq<Event>)
    requires Versioned(s) && forall c :: c in Run(s, events).log ==> NotInTheWay(a, c)
    ensures SameView(a, Run(s, events).store, Fold(AtOnce, s, Only(a, Run(s, events).log)))
  {
    Serializable(s, events);
    LogProjects(a, s, Run(s, events).log);
  }

  /** An object that belongs to none of the applications at work, and that nobody outside touches, is never written. */
  lemma {:induction false} StrangersUntouched(s: Store, log: seq<Commit>, key: Key)
    requires Versioned(s) && key != RULES_KEY
    requires forall c :: c in log ==> match c case Did(_, step) => !Owns(step.spec, key) case Outside(k, _) => k != key
    ensures Versioned(Fold(AtOnce, s, log)) && Look(Fold(AtOnce, s, log), key) == Look(s, key)
  {
    if log != [] {
      var front, last := log[..|log| - 1], log[|log| - 1];
      assert forall c :: c in front ==> c in log;
      StrangersUntouched(s, front, key);
      assert last in log;
      AtOnceKeepsVersioned(Fold(AtOnce, s, front), last);
      if last.Did? {
        TargetIsOwned(last.step);
      }
    }
  }

  // ---- Commuting ----

  lemma AtomicRespectsContents(s: Store, t: Store, step: Step)
    requires Versioned(s) && Versioned(t) && SameContents(s, t)
    ensures SameContents(Atomic(s, step), Atomic(t, step))
  {
    forall k ensures Seen(Atomic(s, step), k) == Seen(Atomic(t, step), k) {
      AtomicEffect(s, step, k);
      AtomicEffect(t, step, k);
    }
  }

  lemma StepsCommute(s: Store, x: Step, y: Step)
    requires Versioned(s) && Apart(x.spec, y.spec)
    ensures SameContents(Atomic(Atomic(s, x), y), Atomic(Atomic(s, y), x))
  {
    AtomicMovesOn(s, x);
    AtomicMovesOn(s, y);
    TargetIsOwned(x);
    TargetIsOwned(y);
    FootprintsDisjoint(x.spec, y.spec);
    forall k ensures Seen(Atomic(Atomic(s, x), y), k) == Seen(Atomic(Atomic(s, y), x), k) {
      AtomicEffect(s, x, k);
      AtomicEffect(s, y, k);
      AtomicEffect(Atomic(s, x), y, k);
      AtomicEffect(Atomic(s, y), x, k);
      if k == Target(x) == Target(y) {
        RuleChangesCommute(x, y, Seen(s, k));
      }
    }
  }

  lemma RuleChangesCommute(x: Step, y: Step, existing: Option<Content>)
    requires (x.PutRules? || x.DropRules?) && (y.PutRules? || y.DropRules?) && x.spec.RuleFile() != y.spec.RuleFile()
    ensures Effect(y, Effect(x, existing)) == Effect(x, Effect(y, existing))
  {
    var files, f, g := FilesOf(existing), x.spec.RuleFile(), y.spec.RuleFile();
    assert files - {f} - {g} == files - {g} - {f};
    if x.PutRules? {
      var v := Yaml(x.group);
      assert files[f := v] - {g} == (files - {g})[f := v];
      if y.PutRules? {
        assert files[f := v][g := Yaml(y.group)] == files[g := Yaml(y.group)][f := v];
      }
    }
    if y.PutRules? {
      assert files[g := Yaml(y.group)] - {f} == (files - {f})[g := Yaml(y.group)];
    }
  }

  lemma {:induction false} StepPassesPlan(s: Store, x: Step, plan: seq<Step>)
    requires Versioned(s) && forall y :: y in plan ==> Apart(x.spec, y.spec)
    ensures Versioned(Replay(Atomic(s, x), plan)) && Versioned(Atomic(Replay(s, plan), x))
    ensures SameContents(Replay(Atomic(s, x), plan), Atomic(Replay(s, plan), x))
  {
    AtomicMovesOn(s, x);
    ReplayKeeps(s, plan);
    ReplayKeeps(Atomic(s, x), plan);
    AtomicMovesOn(Replay(s, plan), x);
    if plan != [] {
      var front, y := plan[..|plan| - 1], plan[|plan| - 1];
      assert y in plan;
      StepPassesPlan(s, x, front);
      ReplayKeeps(s, front);
      AtomicRespectsContents(Replay(Atomic(s, x), front), Atomic(Replay(s, front), x), y);
      StepsCommute(Replay(s, front), x, y);
    }
  }

  /** Whole plans of applications that are apart can change places, up to versions. */
  lemma {:induction false} PlansCommute(s: Store, first: seq<Step>, second: seq<Step>)
    requires Versioned(s) && forall x, y :: x in first && y in second ==> Apart(x.spec, y.spec)
    ensures SameContents(Replay(Replay(s, first), second), Replay(Replay(s, second), first))
  {
    if first != [] {
      var front, x := first[..|first| - 1], first[|first| - 1];
      assert x in first && forall z :: z in front ==> z in first;
      ReplayKeeps(s, front);
      ReplayKeeps(s, second);
      ReplayKeeps(Replay(s, front), second);
      ReplayKeeps(Replay(s, second), front);
      StepPassesPlan(Replay(s, front), x, second);
      PlansCommute(s, front, second);
      AtomicRespectsContents(Replay(Replay(s, front), second), Replay(Replay(s, second), front), x);
    }
  }

  /** Deploys and deletions of applications that are apart can be made in either order. */
  lemma {:induction false} OperationsCommute(s: Store, first: seq<Step>, second: seq<Step>)
    requires Versioned(s) && RULES_KEY in s.objects && Feasible(s, first) && Feasible(s, second)
    requires forall x, y :: x in first && y in second ==> Apart(x.spec, y.spec)
    ensures var ab := RunPlan(World(RunPlan(World(s, []), first).0.store, []), second);
            var ba := RunPlan(World(RunPlan(World(s, []), second).0.store, []), first);
            NoFailure(second, ab.1) && NoFailure(first, ba.1) && SameContents(ab.0.store, ba.0.store)
  {
    QuietRunIsClean(s, first);
    QuietRunIsClean(s, second);
    ReplayKeeps(s, first);
    ReplayKeeps(s, second);
    RulesStayAll(s, first);
    RulesStayAll(s, second);
    QuietRunIsClean(Replay(s, first), second);
    QuietRunIsClean(Replay(s, second), first);
    PlansCommute(s, first, second);
  }
}
