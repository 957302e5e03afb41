/** A deploy that failed half-way, any number of times, and is then run to its end leaves the cluster as if it had run
    once without trouble. */
module Convergence {

  import opened Wrappers
  import opened App
  import opened Alerts
  import opened Manifests
  import opened PodSpecs
  import opened Kubernetes
  import opened Steps
  import opened Runs
  import Ingresses

  /** The later step writes over everything the earlier one may have written. */
  predicate Overwrites(later: Step, earlier: Step) {
    && later.spec == earlier.spec
    && match later
       case EnsureServiceAccount(_) => earlier.EnsureServiceAccount?
       case PutRoleBinding(_) => earlier.PutRoleBinding?
       case PutService(_) => earlier.PutService?
       case PutRedisDeployment(_, wanted) => earlier.PutRedisDeployment? && wanted.Success?
       case PutRedisService(_) => earlier.PutRedisService?
       case PutDeployment(_, wanted) => earlier.PutDeployment? && wanted.Success?
       case PutSecret(_, data) => earlier.PutSecret? && (data == map[] ==> earlier.data == map[])
       case PutAutoscaler(_, _) => earlier.PutAutoscaler?
       case PutRules(_, _) => earlier.PutRules?
       case PutIngress(_, _, _) => earlier.PutIngress?
       case _ => false
  }

  lemma LabelledTwice(labels: map<string, string>, spec: Spec)
    ensures Labelled(Labelled(labels, spec), spec) == Labelled(labels, spec)
  {
  }

  lemma OverwritesEffect(later: Step, earlier: Step, existing: Option<Content>)
    requires Overwrites(later, earlier)
    ensures Effect(later, Effect(earlier, existing)) == Effect(later, existing)
    ensures Target(later) == Target(earlier)
  {
    var spec := later.spec;
    LabelledTwice(LabelsOf(existing), spec);
    LabelledTwice(LabelsOf(existing), spec.Redis());
    if later.PutRules? {
      var files, file := FilesOf(existing), spec.RuleFile();
      assert files[file := Yaml(earlier.group)][file := Yaml(later.group)] == files[file := Yaml(later.group)];
    }
  }

  /** Whatever the earlier plan may have written, some step of the later one writes over. */
  predicate Covers(later: seq<Step>, earlier: seq<Step>) {
    forall j :: 0 <= j < |earlier| ==> Covered(later, earlier[j])
  }

  predicate Covered(later: seq<Step>, step: Step) {
    exists i :: 0 <= i < |later| && Overwrites(later[i], step)
  }

  /** One try: its plan, and what the network does to it. */
  datatype Attempt = Attempt(plan: seq<Step>, faults: seq<Fault>)

  /** The store after one try after the other, each stopping where it fails. */
  function AfterAttempts(s: Store, attempts: seq<Attempt>): Store {
    if attempts == [] then s
    else
      var last := attempts[|attempts| - 1];
      RunPlan(World(AfterAttempts(s, attempts[..|attempts| - 1]), last.faults), last.plan).0.store
  }

  /** The plan would make the same of both stores, and what it does not touch is the same already. */
  ghost predicate Absorbed(s: Store, t: Store, plan: seq<Step>) {
    && (forall i :: 0 <= i < |plan| ==>
         Effect(plan[i], Seen(t, Target(plan[i]))) == Effect(plan[i], Seen(s, Target(plan[i]))))
    && (forall k :: (forall i :: 0 <= i < |plan| ==> Target(plan[i]) != k) ==> Seen(t, k) == Seen(s, k))
  }

  lemma {:induction false} OverwriterOf(plan: seq<Step>, earlier: seq<Step>, j: nat) returns (i: nat)
    requires Covers(plan, earlier) && j < |earlier|
    ensures i < |plan| && Overwrites(plan[i], earlier[j]) && Target(plan[i]) == Target(earlier[j])
  {
    assert Covered(plan, earlier[j]);
    i :| 0 <= i < |plan| && Overwrites(plan[i], earlier[j]);
    OverwritesEffect(plan[i], earlier[j], None);
  }

  /** A cut-off run of an earlier plan makes no difference to what a step of the later one makes of its object. */
  lemma {:induction false} StepAbsorbs(w: World, earlier: seq<Step>, plan: seq<Step>, i: nat)
    requires Versioned(w.store) && TargetsDistinct(plan) && TargetsDistinct(earlier) && Covers(plan, earlier) &&
             i < |plan|
    ensures var key := Target(plan[i]);
            Effect(plan[i], Seen(RunPlan(w, earlier).0.store, key)) == Effect(plan[i], Seen(w.store, key))
  {
    var key := Target(plan[i]);
    RunEffect(w, earlier, key);
    if j :| 0 <= j < |earlier| && Target(earlier[j]) == key {
      var k := OverwriterOf(plan, earlier, j);
      assert k == i;
      OverwritesEffect(plan[i], earlier[j], Seen(w.store, key));
    }
  }

  lemma {:induction false} RestUntouched(w: World, earlier: seq<Step>, plan: seq<Step>, key: Key)
    requires Versioned(w.store) && TargetsDistinct(earlier) && Covers(plan, earlier)
    requires forall i :: 0 <= i < |plan| ==> Target(plan[i]) != key
    ensures Seen(RunPlan(w, earlier).0.store, key) == Seen(w.store, key)
  {
    forall j | 0 <= j < |earlier| ensures Target(earlier[j]) != key {
      var i := OverwriterOf(plan, earlier, j);
    }
    RunEffect(w, earlier, key);
  }

  lemma {:induction false} AttemptIsAbsorbed(s: Store, attempt: Attempt, plan: seq<Step>)
    requires Versioned(s) && TargetsDistinct(plan) && TargetsDistinct(attempt.plan) && Covers(plan, attempt.plan)
    ensures var t := RunPlan(World(s, attempt.faults), attempt.plan).0.store; Versioned(t) && Absorbed(s, t, plan)
  {
    var w := World(s, attempt.faults);
    RunKeepsVersioned(w, attempt.plan);
    var t := RunPlan(w, attempt.plan).0.store;
    forall i | 0 <= i < |plan|
      ensures Effect(plan[i], Seen(t, Target(plan[i]))) == Effect(plan[i], Seen(s, Target(plan[i])))
    {
      StepAbsorbs(w, attempt.plan, plan, i);
    }
    forall k | forall i :: 0 <= i < |plan| ==> Target(plan[i]) != k ensures Seen(t, k) == Seen(s, k) {
      RestUntouched(w, attempt.plan, plan, k);
    }
  }

  ghost predicate AllCovered(plan: seq<Step>, attempts: seq<Attempt>) {
    forall a :: a in attempts ==> TargetsDistinct(a.plan) && Covers(plan, a.plan)
  }

  lemma {:induction false} AbsorbedTwice(s: Store, t: Store, u: Store, plan: seq<Step>)
    requires Absorbed(s, t, plan) && Absorbed(t, u, plan)
    ensures Absorbed(s, u, plan)
  {
  }

  lemma {:induction false} AttemptsAreAbsorbed(s: Store, attempts: seq<Attempt>, plan: seq<Step>)
    requires Versioned(s) && TargetsDistinct(plan) && AllCovered(plan, attempts)
    ensures Versioned(AfterAttempts(s, attempts)) && Absorbed(s, AfterAttempts(s, attempts), plan)
  {
    if attempts != [] {
      var front, last := attempts[..|attempts| - 1], attempts[|attempts| - 1];
      assert last in attempts && forall a :: a in front ==> a in attempts;
      AttemptsAreAbsorbed(s, front, plan);
      AttemptIsAbsorbed(AfterAttempts(s, front), last, plan);
      AbsorbedTwice(s, AfterAttempts(s, front), AfterAttempts(s, attempts), plan);
    }
  }

  /** Deploy plans consist of steps that write, and write over what they wrote before. */
  predicate Repeatable(plan: seq<Step>) {
    forall i :: 0 <= i < |plan| ==> Overwrites(plan[i], plan[i])
  }

  lemma {:induction false} RepeatableIsFeasible(s: Store, plan: seq<Step>)
    requires Repeatable(plan)
    ensures Feasible(s, plan)
  {
  }

  /** Two complete runs from stores that the plan would make the same agree. */
  lemma {:induction false} CompleteRunsAgree(s: Store, t: Store, plan: seq<Step>, faults: seq<Fault>, key: Key)
    requires Versioned(s) && Versioned(t) && TargetsDistinct(plan) && Absorbed(s, t, plan)
    requires NoFailure(plan, RunPlan(World(t, faults), plan).1) && NoFailure(plan, RunPlan(World(s, []), plan).1)
    ensures Seen(RunPlan(World(t, faults), plan).0.store, key) == Seen(RunPlan(World(s, []), plan).0.store, key)
  {
    RunEffect(World(t, faults), plan, key);
    RunEffect(World(s, []), plan, key);
  }

  lemma {:induction false} CompletedWithoutFailure(plan: seq<Step>, outcomes: seq<Outcome>)
    requires Repeatable(plan) && Completed(plan, outcomes)
    ensures NoFailure(plan, outcomes)
  {
  }

  /** Whatever was tried before and wherever it stopped, running the plan to its end gives the contents that one
      untroubled run would have given. */
  lemma {:induction false} RetryConverges(s: Store, attempts: seq<Attempt>, plan: seq<Step>, faults: seq<Fault>)
    requires Versioned(s) && TargetsDistinct(plan) && Repeatable(plan)
    requires AllCovered(plan, attempts)
    requires Completed(plan, RunPlan(World(AfterAttempts(s, attempts), faults), plan).1)
    ensures NoFailure(plan, RunPlan(World(s, []), plan).1)
    ensures SameContents(RunPlan(World(AfterAttempts(s, attempts), faults), plan).0.store,
                         RunPlan(World(s, []), plan).0.store)
  {
    var tried := AfterAttempts(s, attempts);
    AttemptsAreAbsorbed(s, attempts, plan);
    RepeatableIsFeasible(s, plan);
    QuietRunIsClean(s, plan);
    CompletedWithoutFailure(plan, RunPlan(World(tried, faults), plan).1);
    forall k
      ensures Seen(RunPlan(World(tried, faults), plan).0.store, k) == Seen(RunPlan(World(s, []), plan).0.store, k)
    {
      CompleteRunsAgree(s, tried, plan, faults, k);
    }
  }

  /** What a step makes of its object in a further run after a complete one, when the further plan has the same objects
      but perhaps not the same steps. */
  lemma {:induction false} FurtherRun(w: World, plan: seq<Step>, again: seq<Step>, faults: seq<Fault>, i: nat)
    requires Versioned(w.store) && TargetsDistinct(plan) && Repeatable(plan) && Completed(plan, RunPlan(w, plan).1)
    requires |again| == |plan| && forall j :: 0 <= j < |plan| ==> Target(again[j]) == Target(plan[j])
    requires i < |plan|
    ensures var t, key := RunPlan(w, plan).0.store, Target(plan[i]);
            var (w', outcomes) := RunPlan(World(t, faults), again);
            && Seen(t, key) == Effect(plan[i], Seen(w.store, key))
            && Seen(w'.store, key) in {Seen(t, key), Effect(again[i], Seen(t, key))}
            && (i < |outcomes| && !outcomes[i].Failed? ==> Seen(w'.store, key) == Effect(again[i], Seen(t, key)))
  {
    CompletedWithoutFailure(plan, RunPlan(w, plan).1);
    RunKeepsVersioned(w, plan);
    RunEffect(w, plan, Target(plan[i]));
    RunEffect(World(RunPlan(w, plan).0.store, faults), again, Target(plan[i]));
  }

  /** An object whose step is the same in both plans stays as it is. */
  lemma {:induction false} FurtherRunSameStep(w: World, plan: seq<Step>, again: seq<Step>, faults: seq<Fault>, key: Key)
    requires Versioned(w.store) && TargetsDistinct(plan) && Repeatable(plan) && Completed(plan, RunPlan(w, plan).1)
    requires |again| == |plan| && forall j :: 0 <= j < |plan| ==> Target(again[j]) == Target(plan[j])
    requires forall i :: 0 <= i < |plan| && Target(plan[i]) == key ==> again[i] == plan[i]
    ensures var t := RunPlan(w, plan).0.store; Seen(RunPlan(World(t, faults), again).0.store, key) == Seen(t, key)
  {
    if i :| 0 <= i < |plan| && Target(plan[i]) == key {
      FurtherRun(w, plan, again, faults, i);
      OverwritesEffect(plan[i], plan[i], Seen(w.store, key));
    } else {
      RunKeepsVersioned(w, plan);
      RunEffect(World(RunPlan(w, plan).0.store, faults), again, key);
    }
  }

  /** A run of the very same steps after a complete one changes no content, even when it is cut short. */
  lemma {:induction false} FurtherRunChangesNothing(w: World, plan: seq<Step>, faults: seq<Fault>)
    requires Versioned(w.store) && TargetsDistinct(plan) && Repeatable(plan) && Completed(plan, RunPlan(w, plan).1)
    ensures var t := RunPlan(w, plan).0.store; SameContents(RunPlan(World(t, faults), plan).0.store, t)
  {
    var t := RunPlan(w, plan).0.store;
    forall k ensures Seen(RunPlan(World(t, faults), plan).0.store, k) == Seen(t, k) {
      FurtherRunSameStep(w, plan, plan, faults, k);
    }
  }

  // ---- Deploy plans ----

  /** The later deploy uses at least the parts of the cluster that the earlier one may have used. */
  predicate Includes(later: Inputs, earlier: Inputs) {
    var m, m' := later.manifest, earlier.manifest;
    && (m'.redis.enabled ==> m.redis.enabled) && (!m'.ingressDisabled ==> !m.ingressDisabled)
    && (m'.alerts != [] ==> m.alerts != []) && (earlier.data != map[] ==> later.data != map[])
  }

  predicate AllWorkedOut(inputs: Inputs) {
    inputs.wanted.Success? && (inputs.manifest.redis.enabled ==> inputs.redis.Success?)
  }

  lemma {:induction false} CoversConcat(later: seq<Step>, earlier: seq<Step>, more: seq<Step>, more': seq<Step>)
    requires Covers(later, earlier) && Covers(more, more')
    ensures Covers(later + more, earlier + more')
  {
    var all, all' := later + more, earlier + more';
    forall j | 0 <= j < |all'| ensures Covered(all, all'[j]) {
      if j < |earlier| {
        assert Covered(later, earlier[j]);
        var i :| 0 <= i < |later| && Overwrites(later[i], earlier[j]);
        assert all[i] == later[i];
      } else {
        assert Covered(more, more'[j - |earlier|]);
        var i :| 0 <= i < |more| && Overwrites(more[i], more'[j - |earlier|]);
        assert all[|later| + i] == more[i];
      }
    }
  }

  lemma OneCovers(later: Step, earlier: Step)
    requires Overwrites(later, earlier)
    ensures Covers([later], [earlier])
  {
    assert Overwrites([later][0], [earlier][0]);
  }

  lemma TwoCover(later: Step, earlier: Step, more: Step, more': Step)
    requires Overwrites(later, earlier) && Overwrites(more, more')
    ensures Covers([later, more], [earlier, more'])
  {
    assert Overwrites([later, more][0], earlier) && Overwrites([later, more][1], more');
  }

  lemma IdentityCovers(spec: Spec)
    ensures Covers(IdentityPuts(spec), IdentityPuts(spec))
  {
    TwoCover(EnsureServiceAccount(spec), EnsureServiceAccount(spec), PutRoleBinding(spec), PutRoleBinding(spec));
    OneCovers(PutService(spec), PutService(spec));
    var two := [EnsureServiceAccount(spec), PutRoleBinding(spec)];
    CoversConcat(two, two, [PutService(spec)], [PutService(spec)]);
    assert two + [PutService(spec)] == IdentityPuts(spec);
  }

  lemma RedisCovers(spec: Spec, later: Inputs, earlier: Inputs)
    requires AllWorkedOut(later) && Includes(later, earlier)
    ensures Covers(RedisPuts(spec, later.manifest.redis.enabled, later.redis),
                   RedisPuts(spec, earlier.manifest.redis.enabled, earlier.redis))
  {
    if earlier.manifest.redis.enabled {
      TwoCover(PutRedisDeployment(spec, later.redis), PutRedisDeployment(spec, earlier.redis),
               PutRedisService(spec), PutRedisService(spec));
    }
  }

  lemma ExposureCovers(spec: Spec, later: Inputs, earlier: Inputs)
    requires Includes(later, earlier)
    ensures Covers(ExposurePuts(spec, later.manifest, later.ingressRules),
                   ExposurePuts(spec, earlier.manifest, earlier.ingressRules))
  {
    var m, m' := later.manifest, earlier.manifest;
    var alerts := if m.alerts == [] then [] else [PutRules(spec, Group(spec, m.team, m.alerts))];
    var alerts' := if m'.alerts == [] then [] else [PutRules(spec, Group(spec, m'.team, m'.alerts))];
    var ingress := if m.ingressDisabled then [] else [PutIngress(spec, m.livenessPath, later.ingressRules)];
    var ingress' := if m'.ingressDisabled then [] else [PutIngress(spec, m'.livenessPath, earlier.ingressRules)];
    if m'.alerts != [] {
      OneCovers(alerts[0], alerts'[0]);
    }
    if !m'.ingressDisabled {
      OneCovers(ingress[0], ingress'[0]);
    }
    CoversConcat(alerts, alerts', ingress, ingress');
  }

  lemma DeployCovers(spec: Spec, later: Inputs, earlier: Inputs)
    requires AllWorkedOut(later) && Includes(later, earlier)
    ensures Covers(DeployPlan(spec, later), DeployPlan(spec, earlier))
  {
    var m, m' := later.manifest, earlier.manifest;
    var redis, redis' :=
        RedisPuts(spec, m.redis.enabled, later.redis), RedisPuts(spec, m'.redis.enabled, earlier.redis);
    var main, main' := [PutDeployment(spec, later.wanted)], [PutDeployment(spec, earlier.wanted)];
    var data, data' := DataPuts(spec, later.data, m.replicas), DataPuts(spec, earlier.data, m'.replicas);
    var basis, basis' := IdentityPuts(spec) + redis, IdentityPuts(spec) + redis';
    IdentityCovers(spec);
    RedisCovers(spec, later, earlier);
    CoversConcat(IdentityPuts(spec), IdentityPuts(spec), redis, redis');
    OneCovers(main[0], main'[0]);
    CoversConcat(basis, basis', main, main');
    TwoCover(data[0], data'[0], data[1], data'[1]);
    CoversConcat(basis + main, basis' + main', data, data');
    ExposureCovers(spec, later, earlier);
    CoversConcat(basis + main + data, basis' + main' + data',
                 ExposurePuts(spec, m, later.ingressRules), ExposurePuts(spec, m', earlier.ingressRules));
  }

  lemma DeployIsRepeatable(spec: Spec, inputs: Inputs)
    requires AllWorkedOut(inputs)
    ensures Repeatable(DeployPlan(spec, inputs))
  {
  }

  lemma DeployIsFeasible(s: Store, spec: Spec, inputs: Inputs)
    requires AllWorkedOut(inputs)
    ensures Feasible(s, DeployPlan(spec, inputs))
  {
    DeployIsRepeatable(spec, inputs);
    RepeatableIsFeasible(s, DeployPlan(spec, inputs));
  }

  /** Where the Deployments stand in the plan. */
  lemma PlacesOfDeployments(spec: Spec, inputs: Inputs) returns (i: nat)
    ensures var plan := DeployPlan(spec, inputs);
            && i + 1 < |plan| && plan[i] == PutDeployment(spec, inputs.wanted) &&
                 plan[i + 1] == PutSecret(spec, inputs.data)
            && (inputs.manifest.redis.enabled ==> i == 5 && plan[3] == PutRedisDeployment(spec, inputs.redis))
  {
    i := if inputs.manifest.redis.enabled then 5 else 3;
  }

  lemma {:induction false} RefusalStops(w: World, plan: seq<Step>, i: nat)
    requires i < |plan| && (plan[i].PutDeployment? || plan[i].PutRedisDeployment?) && plan[i].wanted.Failure?
    ensures !Completed(plan, RunPlan(w, plan).1)
    decreases i
  {
    var (first, outcome) := RunStep(w, plan[0]);
    if i == 0 {
      assert Stops(plan[0], outcome);
    } else if !Stops(plan[0], outcome) {
      RefusalStops(first, plan[1..], i - 1);
      CompletedTail(plan, outcome, RunPlan(first, plan[1..]).1);
    }
  }

  lemma CompletedDeployHadSpec(w: World, spec: Spec, inputs: Inputs)
    requires Completed(DeployPlan(spec, inputs), RunPlan(w, DeployPlan(spec, inputs)).1)
    ensures AllWorkedOut(inputs)
  {
    var i := PlacesOfDeployments(spec, inputs);
    if inputs.wanted.Failure? {
      RefusalStops(w, DeployPlan(spec, inputs), i);
    }
    if inputs.manifest.redis.enabled && inputs.redis.Failure? {
      RefusalStops(w, DeployPlan(spec, inputs), 3);
    }
  }

  /** A deploy that ends well ends the same however often it, or another version of the application that used no more of
      the cluster, was tried before; and the same steps once more change no content. */
  lemma DeployConverges(s: Store, spec: Spec, inputs: Inputs, attempts: seq<Attempt>, faults: seq<Fault>,
                        later: seq<Fault>)
    requires Versioned(s)
    requires forall a :: a in attempts ==> exists i :: a.plan == DeployPlan(spec, i) && Includes(inputs, i)
    requires var plan := DeployPlan(spec, inputs);
             Completed(plan, RunPlan(World(AfterAttempts(s, attempts), faults), plan).1)
    ensures var plan := DeployPlan(spec, inputs);
            var t := RunPlan(World(AfterAttempts(s, attempts), faults), plan).0.store;
            && SameContents(t, RunPlan(World(s, []), plan).0.store)
            && SameContents(RunPlan(World(t, later), plan).0.store, t)
  {
    var plan := DeployPlan(spec, inputs);
    CompletedDeployHadSpec(World(AfterAttempts(s, attempts), faults), spec, inputs);
    DeployTargetsDistinct(spec, inputs);
    DeployIsRepeatable(spec, inputs);
    forall a | a in attempts ensures TargetsDistinct(a.plan) && Covers(plan, a.plan) {
      var i :| a.plan == DeployPlan(spec, i) && Includes(inputs, i);
      DeployCovers(spec, inputs, i);
      DeployTargetsDistinct(spec, i);
    }
    AttemptsAreAbsorbed(s, attempts, plan);
    RetryConverges(s, attempts, plan, faults);
    FurtherRunChangesNothing(World(AfterAttempts(s, attempts), faults), plan, later);
  }
}
