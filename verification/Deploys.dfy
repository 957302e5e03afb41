/** What a deploy works out, when it gets through, where it breaks off, and what doing it again changes. */
module Deploys {

  import opened Wrappers
  import opened App
  import opened NaisResources
  import opened Walks
  import opened Environment
  import opened Manifests
  import opened PodSpecs
  import opened Reordering
  import opened Kubernetes
  import opened Steps
  import opened Runs
  import opened Progressing
  import Convergence
  import Secrets
  import Ingresses

  function DeploymentKey(spec: Spec): Key {
    Key(Deployments, spec.namespace, spec.ResourceName())
  }

  /** What a deploy works out on the way.  Two deploys of the same request need not agree on all of it. */
  ghost predicate RightInputs(inputs: Inputs, spec: Spec, request: Request, m: Manifest, rs: seq<NaisResource>,
                              settings: Settings)
  {
    && inputs.manifest == m && inputs.redis == WantedRedis(settings.parses, spec, m)
    && WorkedOut(inputs.wanted, spec, request, m, rs, settings)
    && Secrets.LastWins(inputs.data, rs)
    && inputs.ingressRules == Ingresses.Rules(spec, request, settings.subdomain, rs)
  }

  predicate RedisQuantitiesParse(m: Manifest, settings: Settings) {
    var redis := UpdateDefaultRedisValues(m.redis);
    m.redis.enabled ==> MustParse(settings.parses, redis.requests, redis.limits)
  }

  /** All that a deploy asks of its request, manifest, resources and settings. */
  ghost predicate DeployPossible(spec: Spec, request: Request, m: Manifest, rs: seq<NaisResource>, settings: Settings) {
    PodPossible(spec, request, m, rs, settings) && RedisQuantitiesParse(m, settings)
  }

  lemma PossibleMeansWorkedOut(inputs: Inputs, spec: Spec, request: Request, m: Manifest, rs: seq<NaisResource>,
                               settings: Settings)
    requires RightInputs(inputs, spec, request, m, rs, settings)
    ensures DeployPossible(spec, request, m, rs, settings) <==> Convergence.AllWorkedOut(inputs)
  {
  }

  /** In a quiet cluster a deploy gets through exactly when all that it needs is there. */
  lemma DeploySucceedsExactly(s: Store, inputs: Inputs, spec: Spec, request: Request, m: Manifest,
                              rs: seq<NaisResource>, settings: Settings)
    requires Versioned(s) && RightInputs(inputs, spec, request, m, rs, settings)
    ensures Completed(DeployPlan(spec, inputs), RunPlan(World(s, []), DeployPlan(spec, inputs)).1) <==>
            DeployPossible(spec, request, m, rs, settings)
  {
    var plan := DeployPlan(spec, inputs);
    PossibleMeansWorkedOut(inputs, spec, request, m, rs, settings);
    if Convergence.AllWorkedOut(inputs) {
      Convergence.DeployIsFeasible(s, spec, inputs);
      QuietRunIsClean(s, plan);
    } else if Completed(plan, RunPlan(World(s, []), plan).1) {
      Convergence.CompletedDeployHadSpec(World(s, []), spec, inputs);
    }
  }

  // ---- Breaking off at Redis ----

  const PANIC: Outcome := Failed(BadDeployment(BadQuantity))

  /** The request ended at its fourth step for want of a quantity. */
  predicate BrokeOffFourth(outcomes: seq<Outcome>) {
    |outcomes| == 4 && outcomes[3] == PANIC
  }

  lemma IdentityIsFeasible(s: Store, spec: Spec)
    ensures Feasible(s, IdentityPuts(spec))
  {
  }

  /** The steps after the first three, from where these lead. */
  lemma {:induction false} AfterIdentity(s: Store, spec: Spec, rest: seq<Step>)
    requires Versioned(s)
    ensures var t, plan := Replay(s, IdentityPuts(spec)), IdentityPuts(spec) + rest;
            && Versioned(t) && |RunPlan(World(s, []), IdentityPuts(spec)).1| == 3
            && RunPlan(World(s, []), plan).0 == RunPlan(World(t, []), rest).0
            && RunPlan(World(s, []), plan).1 ==
                 RunPlan(World(s, []), IdentityPuts(spec)).1 + RunPlan(World(t, []), rest).1
  {
    IdentityIsFeasible(s, spec);
    QuietRunIsClean(s, IdentityPuts(spec));
    ReplayKeeps(s, IdentityPuts(spec));
    NoFailureCompletes(IdentityPuts(spec), RunPlan(World(s, []), IdentityPuts(spec)).1);
    CompletedPartFirst(World(s, []), IdentityPuts(spec), rest);
  }

  lemma {:induction false} RefusedFirst(t: Store, rest: seq<Step>)
    requires rest != [] && (rest[0].PutRedisDeployment? || rest[0].PutDeployment?) && rest[0].wanted.Failure?
    ensures RunPlan(World(t, []), rest) == (World(t, []), [Failed(BadDeployment(rest[0].wanted.error))])
  {
    RunPlanHead(World(t, []), rest);
  }

  lemma {:induction false} NotRefusedFirst(t: Store, rest: seq<Step>)
    requires Versioned(t) && rest != [] && (rest[0].PutRedisDeployment? || rest[0].PutDeployment?) &&
             rest[0].wanted.Success?
    ensures |RunPlan(World(t, []), rest).1| > 0 && !RunPlan(World(t, []), rest).1[0].Failed?
  {
    QuietStep(t, rest[0]);
    CleanHead(World(t, []), rest);
  }

  function AfterThree(spec: Spec, inputs: Inputs): seq<Step> {
    RedisPuts(spec, inputs.manifest.redis.enabled, inputs.redis) + [PutDeployment(spec, inputs.wanted)] +
    DataPuts(spec, inputs.data, inputs.manifest.replicas) + ExposurePuts(spec, inputs.manifest, inputs.ingressRules)
  }

  lemma PlanAfterThree(spec: Spec, inputs: Inputs)
    ensures DeployPlan(spec, inputs) == IdentityPuts(spec) + AfterThree(spec, inputs)
    ensures AfterThree(spec, inputs) != []
    ensures AfterThree(spec, inputs)[0] == if inputs.manifest.redis.enabled then PutRedisDeployment(spec, inputs.redis)
                                           else PutDeployment(spec, inputs.wanted)
  {
  }

  lemma {:induction false} FourthOutcome(s: Store, spec: Spec, rest: seq<Step>)
    requires Versioned(s) && rest != [] && (rest[0].PutRedisDeployment? || rest[0].PutDeployment?)
    ensures BrokeOffFourth(RunPlan(World(s, []), IdentityPuts(spec) + rest).1) <==>
            rest[0].wanted == Failure(BadQuantity)
  {
    AfterIdentity(s, spec, rest);
    if rest[0].wanted.Failure? {
      RefusedFirst(Replay(s, IdentityPuts(spec)), rest);
    } else {
      NotRefusedFirst(Replay(s, IdentityPuts(spec)), rest);
    }
  }

  /** What the first Deployment of a deploy comes to: that of Redis, if there is one. */
  function FirstWanted(inputs: Inputs): Result<DeploymentSpec, PodError> {
    if inputs.manifest.redis.enabled then inputs.redis else inputs.wanted
  }

  lemma FirstWantedPanics(inputs: Inputs, spec: Spec, request: Request, m: Manifest, rs: seq<NaisResource>,
                          settings: Settings)
    requires RightInputs(inputs, spec, request, m, rs, settings)
    requires Validated(settings.parses, m) && settings.parses("100m") && settings.parses("128Mi")
    ensures FirstWanted(inputs) == Failure(BadQuantity) <==>
            m.redis.enabled && RedisQuantitySlipsThrough(settings.parses, m.redis)
  {
    RedisPanicsExactly(settings.parses, m);
    MainResourcesNeverPanic(settings.parses, m);
  }

  /** A deploy of a manifest that passed validation breaks off at Redis exactly when Redis is enabled and one of its
      quantities slipped through the validators. */
  lemma RedisBreaksOffExactly(s: Store, inputs: Inputs, spec: Spec, request: Request, m: Manifest,
                              rs: seq<NaisResource>, settings: Settings)
    requires Versioned(s) && RightInputs(inputs, spec, request, m, rs, settings)
    requires Validated(settings.parses, m) && settings.parses("100m") && settings.parses("128Mi")
    ensures BrokeOffFourth(RunPlan(World(s, []), DeployPlan(spec, inputs)).1) <==>
            m.redis.enabled && RedisQuantitySlipsThrough(settings.parses, m.redis)
  {
    PlanAfterThree(spec, inputs);
    FourthOutcome(s, spec, AfterThree(spec, inputs));
    FirstWantedPanics(inputs, spec, request, m, rs, settings);
  }

  /** The objects that come before Redis: service account, role binding and service. */
  function IdentityKeys(spec: Spec): set<Key> {
    {Key(ServiceAccounts, spec.namespace, spec.ResourceName()), Key(RoleBindings, spec.namespace, spec.ResourceName()),
     Key(Services, spec.namespace, spec.ResourceName())}
  }

  /** They are in the cluster after a deploy that broke off at Redis, and nothing else has changed. */
  lemma BrokenOffDeploy(s: Store, inputs: Inputs, spec: Spec, key: Key)
    requires Versioned(s) && inputs.manifest.redis.enabled && inputs.redis.Failure?
    ensures var after := RunPlan(World(s, []), DeployPlan(spec, inputs)).0.store;
            if key in IdentityKeys(spec) then key in after.objects else Seen(after, key) == Seen(s, key)
  {
    var t, rest := Replay(s, IdentityPuts(spec)), AfterThree(spec, inputs);
    PlanAfterThree(spec, inputs);
    AfterIdentity(s, spec, rest);
    RefusedFirst(t, rest);
    IdentityEffect(s, spec, key);
  }

  lemma IdentityTargets(spec: Spec)
    ensures var plan := IdentityPuts(spec);
            && TargetsDistinct(plan)
            && IdentityKeys(spec) == {Target(plan[0]), Target(plan[1]), Target(plan[2])}
  {
    IdentityRises(spec);
    RisingSlotsDistinct(spec, IdentityPuts(spec), 3);
  }

  lemma {:induction false} ThreePuts(s: Store, plan: seq<Step>, key: Key)
    requires Versioned(s) && |plan| == 3 && TargetsDistinct(plan)
    requires forall i :: 0 <= i < 3 ==> forall existing :: Effect(plan[i], existing).Some?
    ensures var after := RunPlan(World(s, []), plan);
            NoFailure(plan, after.1) ==>
              if key in {Target(plan[0]), Target(plan[1]), Target(plan[2])} then Seen(after.0.store, key).Some?
              else Seen(after.0.store, key) == Seen(s, key)
  {
    RunEffect(World(s, []), plan, key);
  }

  lemma IdentityEffect(s: Store, spec: Spec, key: Key)
    requires Versioned(s)
    ensures var after := Replay(s, IdentityPuts(spec));
            if key in IdentityKeys(spec) then key in after.objects else Seen(after, key) == Seen(s, key)
  {
    IdentityIsFeasible(s, spec);
    QuietRunIsClean(s, IdentityPuts(spec));
    IdentityTargets(spec);
    ThreePuts(s, IdentityPuts(spec), key);
  }

  // ---- Deploying again ----

  lemma SameTargets(spec: Spec, inputs: Inputs, inputs': Inputs)
    requires inputs' == inputs.(wanted := inputs'.wanted)
    ensures var plan, plan' := DeployPlan(spec, inputs), DeployPlan(spec, inputs');
            && |plan'| == |plan|
            && forall i :: 0 <= i < |plan| ==>
                 Target(plan'[i]) == Target(plan[i]) &&
                     (plan[i] == plan'[i] || plan[i] == PutDeployment(spec, inputs.wanted))
  {
    var i := Convergence.PlacesOfDeployments(spec, inputs);
    assert DeployPlan(spec, inputs') == DeployPlan(spec, inputs)[i := PutDeployment(spec, inputs'.wanted)];
  }

  /** Of what two deploys of one request work out, only the Deployment can differ. */
  lemma OnlyWantedDiffers(inputs: Inputs, inputs': Inputs, spec: Spec, request: Request, m: Manifest,
                          rs: seq<NaisResource>, settings: Settings)
    requires RightInputs(inputs, spec, request, m, rs, settings) && RightInputs(inputs', spec, request, m, rs, settings)
    requires NamesClear(spec, request, m, rs)
    ensures inputs' == inputs.(wanted := inputs'.wanted)
  {
    Secrets.DistinctEntriesHaveDistinctReferences(BaseVariables(spec, request, m.redis.enabled), rs);
    Secrets.LastWinsHolds(inputs.data, rs);
    Secrets.LastWinsHolds(inputs'.data, rs);
    Secrets.HeldDataUnique(rs, inputs.data, inputs'.data);
  }

  /** What a further deploy may make of a Deployment: another order of its walks, under the same labels and replicas. */
  function Rewritten(existing: Option<Content>, d: DeploymentSpec): Option<Content> {
    if existing.Some? && existing.value.body.Deployment?
    then Some(existing.value.(body := Deployment(existing.value.body.replicas, d))) else existing
  }

  lemma RewritesOnly(spec: Spec, d: DeploymentSpec, d': DeploymentSpec, existing: Option<Content>)
    ensures var first := Effect(PutDeployment(spec, Success(d)), existing);
            && first.Some? && first.value.body.Deployment? && first.value.body.spec == d
            && Effect(PutDeployment(spec, Success(d')), first) == Rewritten(first, d')
            && (Rewritten(first, d') == first <==> d' == d)
  {
    Convergence.LabelledTwice(LabelsOf(existing), spec);
  }

  /** After a deploy that got through, however it got there, a further deploy of the same request leaves every content
      as it is but the Deployment's, and gives that at most another order. */
  lemma FurtherDeploy(w: World, faults: seq<Fault>, inputs: Inputs, inputs': Inputs, spec: Spec, request: Request,
                      m: Manifest, rs: seq<NaisResource>, settings: Settings, key: Key)
    requires Versioned(w.store) && Completed(DeployPlan(spec, inputs), RunPlan(w, DeployPlan(spec, inputs)).1)
    requires RightInputs(inputs, spec, request, m, rs, settings) && RightInputs(inputs', spec, request, m, rs, settings)
    ensures inputs.wanted.Success? && inputs'.wanted.Success?
    ensures OnlyReordered(inputs.wanted.value, inputs'.wanted.value,
                          BaseVariables(spec, request, m.redis.enabled), Appended(m, settings))
    ensures var t := RunPlan(w, DeployPlan(spec, inputs)).0.store;
            var (w', outcomes) := RunPlan(World(t, faults), DeployPlan(spec, inputs'));
            && (key != DeploymentKey(spec) ==> Seen(w'.store, key) == Seen(t, key))
            && (key == DeploymentKey(spec) ==>
                  && (Rewritten(Seen(t, key), inputs'.wanted.value) == Seen(t, key) <==>
                       inputs'.wanted == inputs.wanted)
                  && Seen(w'.store, key) in {Seen(t, key), Rewritten(Seen(t, key), inputs'.wanted.value)}
                  && (Completed(DeployPlan(spec, inputs'), outcomes) ==>
                        Seen(w'.store, key) == Rewritten(Seen(t, key), inputs'.wanted.value)))
  {
    Convergence.CompletedDeployHadSpec(w, spec, inputs);
    PossibleMeansWorkedOut(inputs, spec, request, m, rs, settings);
    PossibleMeansWorkedOut(inputs', spec, request, m, rs, settings);
    OnlyWantedDiffers(inputs, inputs', spec, request, m, rs, settings);
    WantedOnlyReordered(inputs.wanted.value, inputs'.wanted.value, spec, request, m, rs, settings);
    OneObjectAgain(w, faults, inputs, inputs', spec, key);
  }

  lemma OneObjectAgain(w: World, faults: seq<Fault>, inputs: Inputs, inputs': Inputs, spec: Spec, key: Key)
    requires Versioned(w.store) && Completed(DeployPlan(spec, inputs), RunPlan(w, DeployPlan(spec, inputs)).1)
    requires Convergence.AllWorkedOut(inputs) && Convergence.AllWorkedOut(inputs') &&
             inputs' == inputs.(wanted := inputs'.wanted)
    ensures var t := RunPlan(w, DeployPlan(spec, inputs)).0.store;
            var (w', outcomes) := RunPlan(World(t, faults), DeployPlan(spec, inputs'));
            && (key != DeploymentKey(spec) ==> Seen(w'.store, key) == Seen(t, key))
            && (key == DeploymentKey(spec) ==>
                  && (Rewritten(Seen(t, key), inputs'.wanted.value) == Seen(t, key) <==>
                       inputs'.wanted == inputs.wanted)
                  && Seen(w'.store, key) in {Seen(t, key), Rewritten(Seen(t, key), inputs'.wanted.value)}
                  && (Completed(DeployPlan(spec, inputs'), outcomes) ==>
                        Seen(w'.store, key) == Rewritten(Seen(t, key), inputs'.wanted.value)))
  {
    SameTargets(spec, inputs, inputs');
    DeployTargetsDistinct(spec, inputs);
    Convergence.DeployIsRepeatable(spec, inputs);
    if key == DeploymentKey(spec) {
      var i := Convergence.PlacesOfDeployments(spec, inputs);
      var i' := Convergence.PlacesOfDeployments(spec, inputs');
      assert i' == i;
      DeploymentAgain(w, faults, DeployPlan(spec, inputs), DeployPlan(spec, inputs'), i, spec,
                      inputs.wanted.value, inputs'.wanted.value);
    } else {
      Convergence.FurtherRunSameStep(w, DeployPlan(spec, inputs), DeployPlan(spec, inputs'), faults, key);
    }
  }

  lemma {:induction false} DeploymentAgain(w: World, faults: seq<Fault>, plan: seq<Step>, again: seq<Step>, i: nat,
                                           spec: Spec, d: DeploymentSpec, d': DeploymentSpec)
    requires Versioned(w.store) && TargetsDistinct(plan) && Convergence.Repeatable(plan) &&
             Completed(plan, RunPlan(w, plan).1)
    requires |again| == |plan| && forall j :: 0 <= j < |plan| ==> Target(again[j]) == Target(plan[j])
    requires i < |plan| && plan[i] == PutDeployment(spec, Success(d)) && again[i] == PutDeployment(spec, Success(d'))
    ensures var t, key := RunPlan(w, plan).0.store, DeploymentKey(spec);
            var (w', outcomes) := RunPlan(World(t, faults), again);
            && (Rewritten(Seen(t, key), d') == Seen(t, key) <==> d' == d)
            && Seen(w'.store, key) in {Seen(t, key), Rewritten(Seen(t, key), d')}
            && (Completed(again, outcomes) ==> Seen(w'.store, key) == Rewritten(Seen(t, key), d'))
  {
    Convergence.FurtherRun(w, plan, again, faults, i);
    RewritesOnly(spec, d, d', Seen(w.store, DeploymentKey(spec)));
    var outcomes := RunPlan(World(RunPlan(w, plan).0.store, faults), again).1;
    assert Completed(again, outcomes) ==> !Stops(again[i], outcomes[i]);
  }

  lemma OtherInputs(inputs: Inputs, spec: Spec, request: Request, m: Manifest, rs: seq<NaisResource>,
                    settings: Settings)
    returns (inputs': Inputs)
    requires RightInputs(inputs, spec, request, m, rs, settings) && inputs.wanted.Success? &&
             !SingleEntries(rs, ALL_KINDS)
    ensures RightInputs(inputs', spec, request, m, rs, settings) && inputs'.wanted != inputs.wanted
  {
    var d := OtherPod(inputs.wanted.value, spec, request, m, rs, settings);
    inputs' := inputs.(wanted := Success(d));
  }

  /** No further deploy of the request changes any content exactly when no map of any resource has two entries. */
  lemma FurtherDeploysAgreeExactly(w: World, inputs: Inputs, spec: Spec, request: Request, m: Manifest,
                                   rs: seq<NaisResource>, settings: Settings)
    requires Versioned(w.store) && Completed(DeployPlan(spec, inputs), RunPlan(w, DeployPlan(spec, inputs)).1)
    requires RightInputs(inputs, spec, request, m, rs, settings)
    ensures var t := RunPlan(w, DeployPlan(spec, inputs)).0.store;
            (forall inputs', faults :: RightInputs(inputs', spec, request, m, rs, settings) ==>
               SameContents(RunPlan(World(t, faults), DeployPlan(spec, inputs')).0.store, t)) <==>
            SingleEntries(rs, ALL_KINDS)
  {
    var t := RunPlan(w, DeployPlan(spec, inputs)).0.store;
    Convergence.CompletedDeployHadSpec(w, spec, inputs);
    if SingleEntries(rs, ALL_KINDS) {
      forall inputs', faults | RightInputs(inputs', spec, request, m, rs, settings)
        ensures SameContents(RunPlan(World(t, faults), DeployPlan(spec, inputs')).0.store, t)
      {
        SingleEntriesChangeNothing(w, faults, inputs, inputs', spec, request, m, rs, settings);
      }
    } else {
      var inputs' := OtherInputs(inputs, spec, request, m, rs, settings);
      OtherOrderShows(w, inputs, inputs', spec, request, m, rs, settings);
    }
  }

  lemma SingleEntriesChangeNothing(w: World, faults: seq<Fault>, inputs: Inputs, inputs': Inputs, spec: Spec,
                                   request: Request, m: Manifest, rs: seq<NaisResource>, settings: Settings)
    requires Versioned(w.store) && Completed(DeployPlan(spec, inputs), RunPlan(w, DeployPlan(spec, inputs)).1)
    requires RightInputs(inputs, spec, request, m, rs, settings) && RightInputs(inputs', spec, request, m, rs, settings)
    requires SingleEntries(rs, ALL_KINDS)
    ensures var t := RunPlan(w, DeployPlan(spec, inputs)).0.store;
            SameContents(RunPlan(World(t, faults), DeployPlan(spec, inputs')).0.store, t)
  {
    var t := RunPlan(w, DeployPlan(spec, inputs)).0.store;
    FurtherDeploy(w, faults, inputs, inputs', spec, request, m, rs, settings, DeploymentKey(spec));
    SingleEntriesOnePod(inputs.wanted.value, inputs'.wanted.value, spec, request, m, rs, settings);
    forall k ensures Seen(RunPlan(World(t, faults), DeployPlan(spec, inputs')).0.store, k) == Seen(t, k) {
      FurtherDeploy(w, faults, inputs, inputs', spec, request, m, rs, settings, k);
    }
  }

  lemma OtherOrderShows(w: World, inputs: Inputs, inputs': Inputs, spec: Spec, request: Request, m: Manifest,
                        rs: seq<NaisResource>, settings: Settings)
    requires Versioned(w.store) && Completed(DeployPlan(spec, inputs), RunPlan(w, DeployPlan(spec, inputs)).1)
    requires RightInputs(inputs, spec, request, m, rs, settings) && RightInputs(inputs', spec, request, m, rs, settings)
    requires inputs'.wanted != inputs.wanted
    ensures var t := RunPlan(w, DeployPlan(spec, inputs)).0.store;
            !SameContents(RunPlan(World(t, []), DeployPlan(spec, inputs')).0.store, t)
  {
    var t := RunPlan(w, DeployPlan(spec, inputs)).0.store;
    FurtherDeploy(w, [], inputs, inputs', spec, request, m, rs, settings, DeploymentKey(spec));
    PossibleMeansWorkedOut(inputs, spec, request, m, rs, settings);
    Convergence.CompletedDeployHadSpec(w, spec, inputs);
    RunKeepsVersioned(w, DeployPlan(spec, inputs));
    DeploySucceedsExactly(t, inputs', spec, request, m, rs, settings);
  }
}
