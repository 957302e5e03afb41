/** What a run of a plan does to each object, whatever the network does to the run. */
module Runs {

  import opened Wrappers
  import opened App
  import opened Folds
  import opened Kubernetes
  import opened Steps
  import opened Alerts
  import Manifests
  import PodSpecs
  import Ingresses

  /** An object without its version. */
  function Seen(s: Store, key: Key): Option<Content> {
    ContentOf(Look(s, key))
  }

  /** The same objects, up to versions. */
  ghost predicate SameContents(s: Store, t: Store) {
    forall k :: Seen(s, k) == Seen(t, k)
  }

  /** What a step makes of the content it is about. */
  function Effect(step: Step, existing: Option<Content>): Option<Content> {
    match Desired(step, existing)
    case Keep => existing
    case Put(content) => Some(content)
    case Remove => None
    case Refuse(_) => existing
  }

  lemma AtomicEffect(s: Store, step: Step, key: Key)
    requires Versioned(s)
    ensures Seen(Atomic(s, step), key) == if key == Target(step) then Effect(step, Seen(s, key)) else Seen(s, key)
  {
  }

  /** A step either takes place or leaves the store alone; unless it reports a failure, it has taken place. */
  lemma StepTakesPlaceOrNot(w: World, step: Step)
    requires Versioned(w.store)
    ensures var (w', outcome) := RunStep(w, step);
            && (w'.store == w.store || w'.store == Atomic(w.store, step))
            && (!outcome.Failed? ==> w'.store == Atomic(w.store, step))
  {
  }

  ghost predicate TargetsDistinct(plan: seq<Step>) {
    forall i, j :: 0 <= i < j < |plan| ==> Target(plan[i]) != Target(plan[j])
  }

  /** The fate of one object in a run: untouched if it is no target; otherwise its step took place or not, and did if
      the run got past it without a failure. */
  ghost predicate Fate(s: Store, s': Store, plan: seq<Step>, outcomes: seq<Outcome>, key: Key) {
    && ((forall i :: 0 <= i < |plan| ==> Target(plan[i]) != key) ==> Seen(s', key) == Seen(s, key))
    && (forall i :: 0 <= i < |plan| && Target(plan[i]) == key ==>
          && Seen(s', key) in {Seen(s, key), Effect(plan[i], Seen(s, key))}
          && (i < |outcomes| && !outcomes[i].Failed? ==> Seen(s', key) == Effect(plan[i], Seen(s, key))))
  }

  /** What one step may do to the store. */
  ghost predicate OneStep(s: Store, next: Store, step: Step, outcome: Outcome) {
    (next == s || next == Atomic(s, step)) && (!outcome.Failed? ==> next == Atomic(s, step))
  }

  lemma {:induction false} FateStopped(s: Store, next: Store, plan: seq<Step>, outcome: Outcome, key: Key)
    requires Versioned(s) && plan != [] && TargetsDistinct(plan) && OneStep(s, next, plan[0], outcome)
    ensures Fate(s, next, plan, [outcome], key)
  {
    AtomicEffect(s, plan[0], key);
  }

  /** The rest of the run does not touch the object of the first step. */
  lemma {:induction false} FateOfFirst(s: Store, next: Store, s': Store, plan: seq<Step>, outcome: Outcome,
                                       outcomes: seq<Outcome>, key: Key)
    requires Versioned(s) && plan != [] && TargetsDistinct(plan) && OneStep(s, next, plan[0], outcome)
    requires Seen(s', key) == Seen(next, key) && key == Target(plan[0])
    ensures Fate(s, s', plan, [outcome] + outcomes, key)
  {
    AtomicEffect(s, plan[0], key);
  }

  /** The first step does not touch the objects of the others. */
  lemma {:induction false} FateOfOthers(s: Store, next: Store, s': Store, plan: seq<Step>, outcome: Outcome,
                                        outcomes: seq<Outcome>, key: Key)
    requires plan != [] && key != Target(plan[0]) && Seen(next, key) == Seen(s, key)
    requires Fate(next, s', plan[1..], outcomes, key)
    ensures Fate(s, s', plan, [outcome] + outcomes, key)
  {
    forall i | 0 < i < |plan| ensures plan[i] == plan[1..][i - 1] {
    }
    forall i | 0 < i < |[outcome] + outcomes| ensures ([outcome] + outcomes)[i] == outcomes[i - 1] {
    }
  }

  lemma {:induction false} FateNext(s: Store, next: Store, s': Store, plan: seq<Step>, outcome: Outcome,
                                    outcomes: seq<Outcome>, key: Key)
    requires Versioned(s) && plan != [] && TargetsDistinct(plan) && OneStep(s, next, plan[0], outcome)
    requires Fate(next, s', plan[1..], outcomes, key)
    ensures Fate(s, s', plan, [outcome] + outcomes, key)
  {
    if key == Target(plan[0]) {
      assert forall i :: 0 <= i < |plan[1..]| ==> Target(plan[1..][i]) == Target(plan[i + 1]) != key;
      FateOfFirst(s, next, s', plan, outcome, outcomes, key);
    } else {
      AtomicEffect(s, plan[0], key);
      FateOfOthers(s, next, s', plan, outcome, outcomes, key);
    }
  }

  lemma {:induction false} RunEffect(w: World, plan: seq<Step>, key: Key)
    requires Versioned(w.store) && TargetsDistinct(plan)
    ensures var (w', outcomes) := RunPlan(w, plan);
            Versioned(w'.store) && |outcomes| <= |plan| && Fate(w.store, w'.store, plan, outcomes, key)
    decreases |plan|
  {
    if plan != [] {
      var (first, outcome) := RunStep(w, plan[0]);
      StepTakesPlaceOrNot(w, plan[0]);
      AtomicMovesOn(w.store, plan[0]);
      RunPlanHead(w, plan);
      if Stops(plan[0], outcome) {
        FateStopped(w.store, first.store, plan, outcome, key);
      } else {
        RunEffect(first, plan[1..], key);
        var (last, outcomes) := RunPlan(first, plan[1..]);
        FateNext(w.store, first.store, last.store, plan, outcome, outcomes, key);
      }
    }
  }

  /** The place of a step's object among the objects of its application. */
  function Slot(step: Step): nat {
    match step
    case EnsureServiceAccount(_) | DropServiceAccount(_) => 0
    case PutRoleBinding(_) => 1
    case PutService(_) | DropService(_) => 2
    case PutRedisDeployment(_, _) | DropRedisDeployment(_) => 3
    case PutRedisService(_) | DropRedisService(_) => 4
    case PutDeployment(_, _) | DropDeployment(_) => 5
    case PutSecret(_, _) | DropSecret(_) => 6
    case PutAutoscaler(_, _) | DropAutoscaler(_) => 7
    case PutRules(_, _) | DropRules(_) => 8
    case PutIngress(_, _, _) | DropIngress(_) => 9
  }

  lemma SlotsSeparate(a: Step, b: Step)
    requires a.spec == b.spec
    ensures Slot(a) == Slot(b) <==> Target(a) == Target(b)
  {
  }

  /** Steps about one application, in the order of its objects, with slots from `low` up to `high`. */
  ghost predicate SlotsRise(spec: Spec, plan: seq<Step>, low: nat, high: nat) {
    && (forall i :: 0 <= i < |plan| ==> plan[i].spec == spec && low <= Slot(plan[i]) < high)
    && (forall i, j :: 0 <= i < j < |plan| ==> Slot(plan[i]) < Slot(plan[j]))
  }

  lemma OneRises(step: Step)
    ensures SlotsRise(step.spec, [step], Slot(step), Slot(step) + 1)
  {
  }

  lemma TwoRise(first: Step, second: Step)
    requires first.spec == second.spec && Slot(first) < Slot(second)
    ensures SlotsRise(first.spec, [first, second], Slot(first), Slot(second) + 1)
  {
  }

  lemma IdentityRises(spec: Spec)
    ensures SlotsRise(spec, IdentityPuts(spec), 0, 3)
  {
  }

  lemma RedisRises(spec: Spec, enabled: bool, wanted: Result<PodSpecs.DeploymentSpec, PodSpecs.PodError>)
    ensures SlotsRise(spec, RedisPuts(spec, enabled, wanted), 3, 5)
  {
  }

  lemma ExposureRises(spec: Spec, m: Manifests.Manifest, rules: seq<Ingresses.IngressRule>)
    ensures SlotsRise(spec, ExposurePuts(spec, m, rules), 8, 10)
  {
  }

  lemma PartsRise(spec: Spec, inputs: Inputs)
    ensures SlotsRise(spec, IdentityPuts(spec), 0, 3)
    ensures SlotsRise(spec, RedisPuts(spec, inputs.manifest.redis.enabled, inputs.redis), 3, 5)
    ensures SlotsRise(spec, [PutDeployment(spec, inputs.wanted)], 5, 6)
    ensures SlotsRise(spec, DataPuts(spec, inputs.data, inputs.manifest.replicas), 6, 8)
    ensures SlotsRise(spec, ExposurePuts(spec, inputs.manifest, inputs.ingressRules), 8, 10)
  {
    IdentityRises(spec);
    RedisRises(spec, inputs.manifest.redis.enabled, inputs.redis);
    OneRises(PutDeployment(spec, inputs.wanted));
    TwoRise(PutSecret(spec, inputs.data), PutAutoscaler(spec, inputs.manifest.replicas));
    ExposureRises(spec, inputs.manifest, inputs.ingressRules);
  }

  lemma {:induction false} PartsRiseTogether(spec: Spec, identity: seq<Step>, redis: seq<Step>, main: seq<Step>,
                                             data: seq<Step>, exposure: seq<Step>)
    requires SlotsRise(spec, identity, 0, 3) && SlotsRise(spec, redis, 3, 5) && SlotsRise(spec, main, 5, 6)
    requires SlotsRise(spec, data, 6, 8) && SlotsRise(spec, exposure, 8, 10)
    ensures SlotsRise(spec, identity + redis + main + data + exposure, 0, 10)
  {
  }

  lemma DeploySlotsRise(spec: Spec, inputs: Inputs)
    ensures SlotsRise(spec, DeployPlan(spec, inputs), 0, 10)
  {
    var m := inputs.manifest;
    PartsRise(spec, inputs);
    PartsRiseTogether(spec, IdentityPuts(spec), RedisPuts(spec, m.redis.enabled, inputs.redis), [PutDeployment(spec,
        inputs.wanted)],
                      DataPuts(spec, inputs.data, m.replicas), ExposurePuts(spec, m, inputs.ingressRules));
  }

  lemma {:induction false} RisingSlotsDistinct(spec: Spec, plan: seq<Step>, high: nat)
    requires SlotsRise(spec, plan, 0, high)
    ensures TargetsDistinct(plan)
  {
    forall i, j | 0 <= i < j < |plan| ensures Target(plan[i]) != Target(plan[j]) {
      SlotsSeparate(plan[i], plan[j]);
    }
  }

  lemma DeployTargetsDistinct(spec: Spec, inputs: Inputs)
    ensures forall i :: 0 <= i < |DeployPlan(spec, inputs)| ==> DeployPlan(spec, inputs)[i].spec == spec
    ensures TargetsDistinct(DeployPlan(spec, inputs))
  {
    DeploySlotsRise(spec, inputs);
    RisingSlotsDistinct(spec, DeployPlan(spec, inputs), 10);
  }

  lemma DeleteTargetsDistinct(spec: Spec)
    ensures TargetsDistinct(DeletePlan(spec))
  {
    var plan := DeletePlan(spec);
    forall i, j | 0 <= i < j < |plan| ensures Target(plan[i]) != Target(plan[j]) {
      SlotsSeparate(plan[i], plan[j]);
    }
  }

  predicate NoFailure(plan: seq<Step>, outcomes: seq<Outcome>) {
    |outcomes| == |plan| && forall i :: 0 <= i < |plan| ==> !outcomes[i].Failed?
  }

  lemma {:induction false} ReplayHead(s: Store, plan: seq<Step>)
    requires plan != []
    ensures Replay(s, plan) == Replay(Atomic(s, plan[0]), plan[1..])
  {
    assert plan == [plan[0]] + plan[1..];
    FoldConcat(Atomic, s, [plan[0]], plan[1..]);
    FoldOne(Atomic, s, plan[0]);
  }

  lemma {:induction false} NoFailureCompletes(plan: seq<Step>, outcomes: seq<Outcome>)
    requires NoFailure(plan, outcomes)
    ensures Completed(plan, outcomes)
  {
  }

  lemma {:induction false} NoFailureTail(plan: seq<Step>, outcome: Outcome, rest: seq<Outcome>)
    requires plan != [] && NoFailure(plan, [outcome] + rest)
    ensures !outcome.Failed? && NoFailure(plan[1..], rest)
  {
    var outcomes := [outcome] + rest;
    assert outcomes[0] == outcome;
    assert forall i :: 0 <= i < |rest| ==> outcomes[i + 1] == rest[i];
  }

  lemma {:induction false} RunPlanHead(w: World, plan: seq<Step>)
    requires plan != []
    ensures var (first, outcome) := RunStep(w, plan[0]);
            && (Stops(plan[0], outcome) ==> RunPlan(w, plan) == (first, [outcome]))
            && (!Stops(plan[0], outcome) ==>
                  RunPlan(w, plan) == (RunPlan(first, plan[1..]).0, [outcome] + RunPlan(first, plan[1..]).1))
            && (Stops(plan[0], outcome) ==> outcome.Failed?)
  {
  }

  lemma {:induction false} CleanHead(w: World, plan: seq<Step>)
    requires plan != [] && !RunStep(w, plan[0]).1.Failed?
    ensures var (first, outcome) := RunStep(w, plan[0]);
            RunPlan(w, plan) == (RunPlan(first, plan[1..]).0, [outcome] + RunPlan(first, plan[1..]).1)
  {
    RunPlanHead(w, plan);
  }

  lemma {:induction false} CleanTail(w: World, plan: seq<Step>)
    requires plan != [] && NoFailure(plan, RunPlan(w, plan).1)
    ensures var (first, outcome) := RunStep(w, plan[0]);
            !outcome.Failed? && NoFailure(plan[1..], RunPlan(first, plan[1..]).1)
  {
    var (first, outcome) := RunStep(w, plan[0]);
    RunPlanHead(w, plan);
    NoFailureTail(plan, outcome, if Stops(plan[0], outcome) then [] else RunPlan(first, plan[1..]).1);
  }

  /** A run without failures is all its steps, one after the other. */
  lemma {:induction false} CleanRunIsReplay(w: World, plan: seq<Step>)
    requires Versioned(w.store) && NoFailure(plan, RunPlan(w, plan).1)
    ensures RunPlan(w, plan).0.store == Replay(w.store, plan)
    decreases |plan|
  {
    if plan != [] {
      CleanTail(w, plan);
      CleanHead(w, plan);
      StepTakesPlaceOrNot(w, plan[0]);
      AtomicMovesOn(w.store, plan[0]);
      ReplayHead(w.store, plan);
      CleanRunIsReplay(RunStep(w, plan[0]).0, plan[1..]);
    }
  }

  /** What a plan needs from its inputs and from the store to go through. */
  ghost predicate Feasible(s: Store, plan: seq<Step>) {
    && (forall step :: step in plan && (step.PutDeployment? || step.PutRedisDeployment?) ==> step.wanted.Success?)
    && (forall step :: step in plan && step.DropRules? ==> RULES_KEY in s.objects)
  }

  lemma QuietStep(s: Store, step: Step)
    requires Versioned(s) && (step.PutDeployment? || step.PutRedisDeployment? ==> step.wanted.Success?) &&
             (step.DropRules? ==> RULES_KEY in s.objects)
    ensures RunStep(World(s, []), step).0 == World(Atomic(s, step), []) && !RunStep(World(s, []), step).1.Failed?
  {
    ChoiceIsRight(s, step);
  }

  /** Without faults and interference, every feasible plan goes through. */
  lemma {:induction false} QuietRunIsClean(s: Store, plan: seq<Step>)
    requires Versioned(s) && Feasible(s, plan)
    ensures NoFailure(plan, RunPlan(World(s, []), plan).1)
    ensures RunPlan(World(s, []), plan).0 == World(Replay(s, plan), [])
    decreases |plan|
  {
    if plan != [] {
      var w := World(s, []);
      var (first, outcome) := RunStep(w, plan[0]);
      AtomicMovesOn(s, plan[0]);
      assert plan[0] in plan;
      QuietStep(s, plan[0]);
      RulesStay(s, plan[0]);
      assert forall step :: step in plan[1..] ==> step in plan;
      QuietRunIsClean(first.store, plan[1..]);
      ReplayHead(s, plan);
    }
  }

  lemma {:induction false} CompletedTail(plan: seq<Step>, outcome: Outcome, rest: seq<Outcome>)
    requires plan != []
    ensures Completed(plan, [outcome] + rest) ==> Completed(plan[1..], rest)
  {
  }

  lemma {:induction false} CompletedHead(plan: seq<Step>, outcome: Outcome, rest: seq<Outcome>)
    requires plan != [] && !Stops(plan[0], outcome)
    ensures Completed(plan, [outcome] + rest) <==> Completed(plan[1..], rest)
  {
  }

  lemma RulesStay(s: Store, step: Step)
    ensures RULES_KEY in s.objects ==> RULES_KEY in Atomic(s, step).objects
  {
  }

  // ---- Choosing between Create and Update under faults ----

  /** What a step sees when it looks. */
  function LookOf(w: World, step: Step): Read {
    if LooksFirst(step) then w.Get(Target(step)).1 else Absent
  }

  /** Creating what exists, or updating what does not or with a stale version. */
  predicate IsWrong(s: Store, key: Key, call: Call) {
    || (call.Create? && key in s.objects)
    || (call.Update? && (key !in s.objects || call.version !in {0, s.objects[key].version}))
  }

  lemma WrongChoiceExactly(w: World, step: Step)
    requires Versioned(w.store)
    ensures IsWrong(w.store, Target(step), Decide(step, LookOf(w, step))) <==>
            TakesFailureAsAbsence(step) && w.Next() != Fine && Target(step) in w.store.objects
  {
  }

  lemma {:induction false} RunKeepsVersioned(w: World, plan: seq<Step>)
    requires Versioned(w.store)
    ensures Versioned(RunPlan(w, plan).0.store)
    decreases |plan|
  {
    if plan != [] {
      StepTakesPlaceOrNot(w, plan[0]);
      AtomicMovesOn(w.store, plan[0]);
      if !Stops(plan[0], RunStep(w, plan[0]).1) {
        RunKeepsVersioned(RunStep(w, plan[0]).0, plan[1..]);
      }
    }
  }

  /** Under any faults, a run makes a wrong choice exactly where it loses the look of a step that takes this for absence
      - service account or role binding - and the object is there. */
  lemma {:induction false} WrongChoicesInRun(w: World, plan: seq<Step>, i: nat)
    requires Versioned(w.store) && i < |plan|
    ensures var now := RunPlan(w, plan[..i]).0;
            IsWrong(now.store, Target(plan[i]), Decide(plan[i], LookOf(now, plan[i]))) <==>
            (plan[i].EnsureServiceAccount? || plan[i].PutRoleBinding?) &&
            now.Next() != Fine && Target(plan[i]) in now.store.objects
  {
    RunKeepsVersioned(w, plan[..i]);
    WrongChoiceExactly(RunPlan(w, plan[..i]).0, plan[i]);
  }
}
