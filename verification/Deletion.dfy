/** What a deletion leaves behind. */
module Deletion {

  import opened Wrappers
  import opened App
  import opened Alerts
  import opened Kubernetes
  import opened Steps
  import opened Runs
  import opened SharedRules

  /** The objects that belong to one application alone.  Rule files are not objects of their own. */
  predicate Owns(spec: Spec, key: Key) {
    && key.namespace == spec.namespace
    && ((key.name == spec.ResourceName() && key.kind != ConfigMaps) ||
        (key.name == spec.Redis().ResourceName() && key.kind in {Services, Deployments}))
  }

  function RoleBindingKey(spec: Spec): Key {
    Key(RoleBindings, spec.namespace, spec.ResourceName())
  }

  predicate IsRedis(spec: Spec, key: Key) {
    key.name == spec.Redis().ResourceName()
  }

  /** A step is about the shared configmap or about an object of its application. */
  lemma TargetIsOwned(step: Step)
    ensures step.PutRules? || step.DropRules? <==> Target(step) == RULES_KEY
    ensures step.PutRules? || step.DropRules? || Owns(step.spec, Target(step))
  {
  }

  function PositionOf(spec: Spec, key: Key): (i: nat)
    requires Owns(spec, key) && key != RoleBindingKey(spec)
    ensures i < |DeletePlan(spec)| && Target(DeletePlan(spec)[i]) == key && i != 7
    ensures i in {2, 3} <==> IsRedis(spec, key)
  {
    assert spec.Redis().ResourceName() != spec.ResourceName();
    match key.kind
    case Services => if IsRedis(spec, key) then 3 else 0
    case Deployments => if IsRedis(spec, key) then 2 else 1
    case Secrets => 4
    case Ingresses => 5
    case Autoscalers => 6
    case _ => 8
  }

  lemma DropsLeaveNothing(step: Step, existing: Option<Content>)
    requires IsDrop(step) && !step.DropRules?
    ensures Effect(step, existing) == None
  {
  }

  lemma OthersUntouched(w: World, spec: Spec, key: Key)
    requires Versioned(w.store) && key != RULES_KEY && (!Owns(spec, key) || key == RoleBindingKey(spec))
    ensures Seen(RunPlan(w, DeletePlan(spec)).0.store, key) == Seen(w.store, key)
  {
    var plan := DeletePlan(spec);
    DeleteTargetsDistinct(spec);
    forall i | 0 <= i < |plan| ensures Target(plan[i]) != key {
      TargetIsOwned(plan[i]);
    }
    RunEffect(w, plan, key);
  }

  /** An object that a successful deletion removes: all but the role binding, and Redis if its deletion went through. */
  predicate Goes(spec: Spec, outcomes: seq<Outcome>, key: Key)
    requires |outcomes| == |DeletePlan(spec)|
  {
    && Owns(spec, key) && key != RoleBindingKey(spec)
    && !(IsRedis(spec, key) && outcomes[PositionOf(spec, key)].Failed?)
  }

  lemma OwnObjectsGo(w: World, spec: Spec, key: Key)
    requires Versioned(w.store) && Completed(DeletePlan(spec), RunPlan(w, DeletePlan(spec)).1)
    requires Goes(spec, RunPlan(w, DeletePlan(spec)).1, key)
    ensures Seen(RunPlan(w, DeletePlan(spec)).0.store, key) == None
  {
    var plan, i := DeletePlan(spec), PositionOf(spec, key);
    assert !Stops(plan[i], RunPlan(w, plan).1[i]);
    DeleteTargetsDistinct(spec);
    RunEffect(w, plan, key);
    DropsLeaveNothing(plan[i], Seen(w.store, key));
  }

  lemma DropRulesEffect(spec: Spec, existing: Option<Content>)
    ensures FilesOf(Effect(DropRules(spec), existing)) == FilesOf(existing) - {spec.RuleFile()}
  {
  }

  lemma {:induction false} DroppedRulesGo(w: World, plan: seq<Step>, i: nat, spec: Spec)
    requires Versioned(w.store) && TargetsDistinct(plan) && Completed(plan, RunPlan(w, plan).1)
    requires i < |plan| && plan[i] == DropRules(spec)
    ensures FilesIn(RunPlan(w, plan).0.store) == FilesIn(w.store) - {spec.RuleFile()}
  {
    assert !Stops(plan[i], RunPlan(w, plan).1[i]);
    RunEffect(w, plan, RULES_KEY);
    DropRulesEffect(spec, Seen(w.store, RULES_KEY));
  }

  lemma RuleFileGoes(w: World, spec: Spec)
    requires Versioned(w.store) && Completed(DeletePlan(spec), RunPlan(w, DeletePlan(spec)).1)
    ensures FilesIn(RunPlan(w, DeletePlan(spec)).0.store) == FilesIn(w.store) - {spec.RuleFile()}
  {
    DeleteTargetsDistinct(spec);
    DroppedRulesGo(w, DeletePlan(spec), 7, spec);
  }

  /** A deletion that reports success has removed every object of the application but its role binding and, if the
      deletion of Redis failed, Redis; its rule file is gone; and nothing else has changed. */
  lemma DeleteRemoves(w: World, spec: Spec)
    requires Versioned(w.store)
    requires Completed(DeletePlan(spec), RunPlan(w, DeletePlan(spec)).1)
    ensures var (w', outcomes) := RunPlan(w, DeletePlan(spec));
            && (forall k :: Goes(spec, outcomes, k) ==> Seen(w'.store, k) == None)
            && FilesIn(w'.store) == FilesIn(w.store) - {spec.RuleFile()}
            && (forall k :: k != RULES_KEY && (!Owns(spec, k) || k == RoleBindingKey(spec)) ==>
                  Seen(w'.store, k) == Seen(w.store, k))
  {
    var outcomes := RunPlan(w, DeletePlan(spec)).1;
    forall k | Goes(spec, outcomes, k)
      ensures Seen(RunPlan(w, DeletePlan(spec)).0.store, k) == None
    {
      OwnObjectsGo(w, spec, k);
    }
    RuleFileGoes(w, spec);
    forall k | k != RULES_KEY && (!Owns(spec, k) || k == RoleBindingKey(spec))
      ensures Seen(RunPlan(w, DeletePlan(spec)).0.store, k) == Seen(w.store, k)
    {
      OthersUntouched(w, spec, k);
    }
  }

  lemma {:induction false} GoesOnAfter(w: World, plan: seq<Step>)
    requires plan != [] && !Stops(plan[0], RunStep(w, plan[0]).1)
    requires Completed(plan[1..], RunPlan(RunStep(w, plan[0]).0, plan[1..]).1)
    ensures Completed(plan, RunPlan(w, plan).1)
  {
    RunPlanHead(w, plan);
    CompletedHead(plan, RunStep(w, plan[0]).1, RunPlan(RunStep(w, plan[0]).0, plan[1..]).1);
  }

  /** A deletion that does not look first is one call that meets one fault. */
  lemma BlindDrop(w: World, step: Step)
    requires IsDrop(step) && !LooksFirst(step) && w.faults != [] && Versioned(w.store) && RULES_KEY in w.store.objects
    requires w.faults[0] == Fine || step.DropRedisDeployment? || step.DropRedisService?
    ensures var (w', outcome) := RunStep(w, step);
            && w'.faults == w.faults[1..] && Versioned(w'.store) && RULES_KEY in w'.store.objects
            && !Stops(step, outcome)
  {
  }

  /** A run of deletions goes on over what happens to a blind deletion of Redis. */
  lemma {:induction false} BlindDropFirst(w: World, plan: seq<Step>)
    requires plan != [] && IsDrop(plan[0]) && !LooksFirst(plan[0])
    requires w.faults != [] && Versioned(w.store) && RULES_KEY in w.store.objects
    requires w.faults[0] == Fine || plan[0].DropRedisDeployment? || plan[0].DropRedisService?
    ensures var w' := RunStep(w, plan[0]).0;
            && w'.faults == w.faults[1..] && Versioned(w'.store) && RULES_KEY in w'.store.objects
            && (Completed(plan[1..], RunPlan(w', plan[1..]).1) ==> Completed(plan, RunPlan(w, plan).1))
  {
    BlindDrop(w, plan[0]);
    if Completed(plan[1..], RunPlan(RunStep(w, plan[0]).0, plan[1..]).1) {
      GoesOnAfter(w, plan);
    }
  }

  /** The first faults are met by blind deletions, and are harmless or met by a deletion of Redis. */
  lemma {:induction false} FaultsArePassedOver(w: World, plan: seq<Step>)
    requires |w.faults| <= |plan| && Versioned(w.store) && RULES_KEY in w.store.objects
    requires forall i :: 0 <= i < |plan| ==> IsDrop(plan[i])
    requires forall i :: 0 <= i < |w.faults| ==>
               !LooksFirst(plan[i]) &&
                   (w.faults[i] == Fine || plan[i].DropRedisDeployment? || plan[i].DropRedisService?)
    ensures Completed(plan, RunPlan(w, plan).1)
    decreases |plan|
  {
    if w.faults == [] {
      RestIsClean(w.store, plan);
    } else {
      BlindDropFirst(w, plan);
      FaultsArePassedOver(RunStep(w, plan[0]).0, plan[1..]);
    }
  }

  /** Whatever happens to the two deletions of Redis, the request goes on and gets to its end. */
  lemma RedisFailuresArePassedOver(s: Store, spec: Spec, f: Fault, g: Fault)
    requires Versioned(s) && RULES_KEY in s.objects
    ensures Completed(DeletePlan(spec), RunPlan(World(s, [Fine, Fine, f, g]), DeletePlan(spec)).1)
  {
    FaultsArePassedOver(World(s, [Fine, Fine, f, g]), DeletePlan(spec));
  }

  lemma {:induction false} RestIsClean(s: Store, plan: seq<Step>)
    requires Versioned(s) && RULES_KEY in s.objects && forall i :: 0 <= i < |plan| ==> IsDrop(plan[i])
    ensures Completed(plan, RunPlan(World(s, []), plan).1)
  {
    QuietRunIsClean(s, plan);
    NoFailureCompletes(plan, RunPlan(World(s, []), plan).1);
  }

  /** The delete endpoint does not know the team. Its deletion therefore takes the rule file along exactly when the
      application was deployed without a team; the objects go either way. */
  lemma EndpointMissesRules(w: World, spec: Spec)
    requires Versioned(w.store) && spec.RuleFile() in FilesIn(w.store)
    requires var plan := DeletePlan(spec.(team := "")); Completed(plan, RunPlan(w, plan).1)
    ensures var w' := RunPlan(w, DeletePlan(spec.(team := ""))).0;
            spec.RuleFile() in FilesIn(w'.store) <==> spec.team != ""
    ensures forall k :: Owns(spec.(team := ""), k) <==> Owns(spec, k)
  {
    var teamless := spec.(team := "");
    DeleteRemoves(w, teamless);
    if spec.team == "" {
      assert teamless == spec;
    } else {
      assert |teamless.RuleFile()| < |spec.RuleFile()|;
    }
  }

  /** The shared configmap has to be there; then an untroubled deletion always succeeds. */
  lemma DeleteSucceedsExactly(s: Store, spec: Spec)
    requires Versioned(s)
    ensures Completed(DeletePlan(spec), RunPlan(World(s, []), DeletePlan(spec)).1) <==> RULES_KEY in s.objects
  {
    var plan := DeletePlan(spec);
    if RULES_KEY in s.objects {
      QuietRunIsClean(s, plan);
    } else {
      assert plan[7] == DropRules(spec);
      forall j | 0 <= j < 7 ensures Target(plan[j]) != RULES_KEY {
        TargetIsOwned(plan[j]);
      }
      MissingConfigMapStops(World(s, []), plan, 7);
    }
  }

  lemma {:induction false} MissingConfigMapStops(w: World, plan: seq<Step>, i: nat)
    requires Versioned(w.store) && RULES_KEY !in w.store.objects
    requires i < |plan| && plan[i].DropRules? && forall j :: 0 <= j < i ==> Target(plan[j]) != RULES_KEY
    ensures !Completed(plan, RunPlan(w, plan).1)
    decreases i
  {
    var (first, outcome) := RunStep(w, plan[0]);
    if i == 0 {
      assert Stops(plan[0], outcome);
    } else if !Stops(plan[0], outcome) {
      assert Target(plan[0]) != RULES_KEY;
      StepTakesPlaceOrNot(w, plan[0]);
      AtomicMovesOn(w.store, plan[0]);
      AtomicEffect(w.store, plan[0], RULES_KEY);
      MissingConfigMapStops(first, plan[1..], i - 1);
      CompletedTail(plan, outcome, RunPlan(first, plan[1..]).1);
    }
  }

  lemma DropTwice(step: Step, existing: Option<Content>)
    requires IsDrop(step)
    ensures Effect(step, Effect(step, existing)) == Effect(step, existing)
  {
    if step.DropRules? {
      var files, file := FilesOf(existing), step.spec.RuleFile();
      assert files - {file} - {file} == files - {file};
    } else {
      DropsLeaveNothing(step, existing);
      DropsLeaveNothing(step, None);
    }
  }

  lemma {:induction false} RulesStayAll(s: Store, plan: seq<Step>)
    requires RULES_KEY in s.objects
    ensures RULES_KEY in Replay(s, plan).objects
  {
    if plan != [] {
      RulesStayAll(s, plan[..|plan| - 1]);
      RulesStay(Replay(s, plan[..|plan| - 1]), plan[|plan| - 1]);
    }
  }

  lemma {:induction false} DroppedTwice(s: Store, plan: seq<Step>, key: Key)
    requires Versioned(s) && TargetsDistinct(plan) && Feasible(s, plan)
    requires RULES_KEY in s.objects && forall i :: 0 <= i < |plan| ==> IsDrop(plan[i])
    ensures Seen(Replay(Replay(s, plan), plan), key) == Seen(Replay(s, plan), key)
  {
    var once := Replay(s, plan);
    ReplayKeeps(s, plan);
    RulesStayAll(s, plan);
    QuietRunIsClean(s, plan);
    QuietRunIsClean(once, plan);
    RunEffect(World(s, []), plan, key);
    RunEffect(World(once, []), plan, key);
    if i :| 0 <= i < |plan| && Target(plan[i]) == key {
      DropTwice(plan[i], Seen(s, key));
    }
  }

  lemma {:induction false} DropsTwice(s: Store, plan: seq<Step>)
    requires Versioned(s) && TargetsDistinct(plan) && Feasible(s, plan)
    requires RULES_KEY in s.objects && forall i :: 0 <= i < |plan| ==> IsDrop(plan[i])
    ensures var once := RunPlan(World(s, []), plan).0.store;
            && NoFailure(plan, RunPlan(World(once, []), plan).1)
            && SameContents(RunPlan(World(once, []), plan).0.store, once)
  {
    QuietRunIsClean(s, plan);
    ReplayKeeps(s, plan);
    RulesStayAll(s, plan);
    QuietRunIsClean(Replay(s, plan), plan);
    forall k ensures Seen(Replay(Replay(s, plan), plan), k) == Seen(Replay(s, plan), k) {
      DroppedTwice(s, plan, k);
    }
  }

  /** Deleting again succeeds and changes no content. */
  lemma DeleteTwice(s: Store, spec: Spec)
    requires Versioned(s) && RULES_KEY in s.objects
    ensures var plan := DeletePlan(spec);
            var once := RunPlan(World(s, []), plan).0.store;
            && NoFailure(plan, RunPlan(World(once, []), plan).1)
            && SameContents(RunPlan(World(once, []), plan).0.store, once)
  {
    DeleteTargetsDistinct(spec);
    DropsTwice(s, DeletePlan(spec));
  }

  lemma {:induction false} PlanKeepsOtherFiles(w: World, plan: seq<Step>, spec: Spec)
    requires Versioned(w.store) && TargetsDistinct(plan) && forall i :: 0 <= i < |plan| ==> plan[i].spec == spec
    ensures Versioned(RunPlan(w, plan).0.store)
    ensures FilesIn(RunPlan(w, plan).0.store) - {spec.RuleFile()} == FilesIn(w.store) - {spec.RuleFile()}
  {
    RunEffect(w, plan, RULES_KEY);
    if i :| 0 <= i < |plan| && Target(plan[i]) == RULES_KEY {
      TargetIsOwned(plan[i]);
    }
  }

  lemma {:induction false} PlanStaysHome(w: World, plan: seq<Step>, spec: Spec, key: Key)
    requires Versioned(w.store) && TargetsDistinct(plan) && forall i :: 0 <= i < |plan| ==> plan[i].spec == spec
    requires key != RULES_KEY && !Owns(spec, key)
    ensures Seen(RunPlan(w, plan).0.store, key) == Seen(w.store, key)
  {
    forall i | 0 <= i < |plan| ensures Target(plan[i]) != key {
      TargetIsOwned(plan[i]);
    }
    RunEffect(w, plan, key);
  }

  /** A deploy, however far it gets, changes objects of its application and its own rule file. */
  lemma DeployStaysHome(w: World, spec: Spec, inputs: Inputs, key: Key)
    requires Versioned(w.store)
    ensures var after := RunPlan(w, DeployPlan(spec, inputs)).0.store;
            && Versioned(after)
            && (key != RULES_KEY && !Owns(spec, key) ==> Seen(after, key) == Seen(w.store, key))
            && FilesIn(after) - {spec.RuleFile()} == FilesIn(w.store) - {spec.RuleFile()}
  {
    DeployTargetsDistinct(spec, inputs);
    PlanKeepsOtherFiles(w, DeployPlan(spec, inputs), spec);
    if key != RULES_KEY && !Owns(spec, key) {
      PlanStaysHome(w, DeployPlan(spec, inputs), spec, key);
    }
  }

  lemma ObjectComesAndGoes(s: Store, spec: Spec, inputs: Inputs, faults: seq<Fault>, later: seq<Fault>, key: Key)
    requires Versioned(s) && (Owns(spec, key) ==> key !in s.objects) && key !in {RULES_KEY, RoleBindingKey(spec)}
    requires var deployed := RunPlan(World(s, faults), DeployPlan(spec, inputs)).0.store;
             NoFailure(DeletePlan(spec), RunPlan(World(deployed, later), DeletePlan(spec)).1)
    ensures var deployed := RunPlan(World(s, faults), DeployPlan(spec, inputs)).0.store;
            Seen(RunPlan(World(deployed, later), DeletePlan(spec)).0.store, key) == Seen(s, key)
  {
    var deployed := RunPlan(World(s, faults), DeployPlan(spec, inputs)).0.store;
    DeployStaysHome(World(s, faults), spec, inputs, key);
    if Owns(spec, key) {
      OwnObjectsGo(World(deployed, later), spec, key);
    } else {
      OthersUntouched(World(deployed, later), spec, key);
    }
  }

  /** From a cluster without the application, a deploy of any extent and then a clean deletion leave at most its role
      binding. */
  lemma DeleteUndoesDeploy(s: Store, spec: Spec, inputs: Inputs, faults: seq<Fault>, later: seq<Fault>)
    requires Versioned(s)
    requires (forall k :: Owns(spec, k) ==> k !in s.objects) && spec.RuleFile() !in FilesIn(s)
    requires var deployed := RunPlan(World(s, faults), DeployPlan(spec, inputs)).0.store;
             NoFailure(DeletePlan(spec), RunPlan(World(deployed, later), DeletePlan(spec)).1)
    ensures var deployed := RunPlan(World(s, faults), DeployPlan(spec, inputs)).0.store;
            var deleted := RunPlan(World(deployed, later), DeletePlan(spec)).0.store;
            && FilesIn(deleted) == FilesIn(s)
            && forall k :: k !in {RULES_KEY, RoleBindingKey(spec)} ==> Seen(deleted, k) == Seen(s, k)
  {
    var deployed := RunPlan(World(s, faults), DeployPlan(spec, inputs)).0.store;
    var deleted := RunPlan(World(deployed, later), DeletePlan(spec)).0.store;
    DeployStaysHome(World(s, faults), spec, inputs, RULES_KEY);
    RuleFileGoes(World(deployed, later), spec);
    assert FilesIn(s) - {spec.RuleFile()} == FilesIn(s);
    forall k | k !in {RULES_KEY, RoleBindingKey(spec)} ensures Seen(deleted, k) == Seen(s, k) {
      ObjectComesAndGoes(s, spec, inputs, faults, later, k);
    }
  }
}
