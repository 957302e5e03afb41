/** The reconciler itself: get, modify, create or update, object by object, in the order of the daemon. */
module Reconciler {

  import opened Wrappers
  import opened App
  import opened Alerts
  import opened NaisResources
  import opened Environment
  import opened Manifests
  import opened PodSpecs
  import opened Kubernetes
  import opened Steps
  import opened Progressing
  import opened Deploys
  import opened DeployedObjects
  import Secrets
  import Ingresses

  // ---- Reading and writing one object ----

  /** The object, or nothing if there is none; any other answer of the server is an error. */
  method GetExisting(cluster: Cluster, key: Key) returns (r: Result<Option<Object>, Error>)
    modifies cluster`faults
    ensures (cluster.State(),
            match r case Failure(_) => Unreachable case Success(None) => Absent case Success(Some(o)) => Found(o))
         == old(cluster.State()).Get(key)
    ensures r.Failure? ==> r.error == Unavailable
  {
    var read := cluster.Get(key);
    match read
    case Found(o) => r := Success(Some(o));
    case Absent => r := Success(None);
    case Unreachable => r := Failure(Unavailable);
  }

  /** Updates what has a version, creates what has none. */
  method CreateOrUpdateResource(cluster: Cluster, key: Key, o: Object) returns (reply: Reply)
    modifies cluster
    ensures (cluster.State(), reply) ==
            old(cluster.State()).Send(key, if o.version != 0 then Update(o.version, o.content) else Create(o.content))
  {
    if o.version != 0 {
      reply := cluster.Update(key, o.version, o.content);
    } else {
      reply := cluster.Create(key, o.content);
    }
  }

  function OutcomeOf(reply: Reply): Outcome {
    match reply
    case Accepted => Done
    case Rejected(error) => Failed(error)
  }

  /** A deletion of something that is not there is no failure. */
  function FilterNotFound(reply: Reply): Outcome {
    if reply == Rejected(NotFound) then Missing else OutcomeOf(reply)
  }

  // ---- Deploying ----

  method CreateServiceAccountIfNotExist(spec: Spec, cluster: Cluster) returns (outcome: Outcome)
    modifies cluster
    ensures (cluster.State(), outcome) == RunStep(old(cluster.State()), EnsureServiceAccount(spec))
  {
    var key := Key(ServiceAccounts, spec.namespace, spec.ResourceName());
    var account := cluster.Get(key);
    if account.Found? {
      return Done;
    }
    var reply := cluster.Create(key, Content(Labelled(map[], spec), ServiceAccount));
    outcome := OutcomeOf(reply);
  }

  method CreateOrUpdateRoleBinding(spec: Spec, cluster: Cluster) returns (outcome: Outcome)
    modifies cluster
    ensures (cluster.State(), outcome) == RunStep(old(cluster.State()), PutRoleBinding(spec))
  {
    var key := Key(RoleBindings, spec.namespace, spec.ResourceName());
    var def := Content(Labelled(map[], spec),
                       RoleBinding(spec.ResourceName(), spec.namespace, "ClusterRole",
                           "serviceaccount-in-app-namespace"));
    var existing := cluster.Get(key);
    var reply;
    if existing.Found? {
      reply := cluster.Update(key, 0, def);
    } else {
      reply := cluster.Create(key, def);
    }
    outcome := OutcomeOf(reply);
  }

  method CreateOrUpdateService(spec: Spec, cluster: Cluster) returns (outcome: Outcome)
    modifies cluster
    ensures (cluster.State(), outcome) == RunStep(old(cluster.State()), PutService(spec))
  {
    var key := Key(Services, spec.namespace, spec.ResourceName());
    var existing := GetExisting(cluster, key);
    if existing.Failure? {
      return Failed(existing.error);
    }
    var service := if existing.value.Some? then existing.value.value
                   else Object(0, Content(map[], Service(map[], "", 0, "")));
    service := service.(content := service.content.(labels := Labelled(service.content.labels, spec)));
    service := service.(content := service.content.(
                          body := Service(PodSelector(spec), "http", 80, ClusterIPOf(Some(service.content)))));
    var reply := CreateOrUpdateResource(cluster, key, service);
    outcome := OutcomeOf(reply);
  }

  /** A quantity that does not parse ends the request after the look and before the write. */
  method CreateOrUpdateRedisInstance(spec: Spec, m: Manifest, parses: string -> bool, cluster: Cluster)
    returns (outcome: Outcome)
    modifies cluster
    ensures (cluster.State(), outcome) ==
            RunStep(old(cluster.State()), PutRedisDeployment(spec, WantedRedis(parses, spec, m)))
  {
    var redisSpec, redis := spec.Redis(), UpdateDefaultRedisValues(m.redis);
    var key := Key(Deployments, redisSpec.namespace, redisSpec.ResourceName());
    var existing := GetExisting(cluster, key);
    if existing.Failure? {
      return Failed(existing.error);
    }
    if !MustParse(parses, redis.requests, redis.limits) {
      return Failed(BadDeployment(BadQuantity));
    }
    var body := Deployment(1, RedisDeploymentSpec(redisSpec, redis));
    var deployment := if existing.value.Some?
                      then Object(existing.value.value.version, Content(Labelled(existing.value.value.content.labels,
                          redisSpec), body))
                      else Object(0, Content(Labelled(map[], redisSpec), body));
    var reply := CreateOrUpdateResource(cluster, key, deployment);
    outcome := OutcomeOf(reply);
  }

  /** An existing Redis service keeps its ports and selector; only its labels are set again. */
  method CreateOrUpdateRedisService(spec: Spec, cluster: Cluster) returns (outcome: Outcome)
    modifies cluster
    ensures (cluster.State(), outcome) == RunStep(old(cluster.State()), PutRedisService(spec))
  {
    var redisSpec := spec.Redis();
    var key := Key(Services, redisSpec.namespace, redisSpec.ResourceName());
    var existing := GetExisting(cluster, key);
    if existing.Failure? {
      return Failed(existing.error);
    }
    var service := if existing.value.Some? then existing.value.value
                   else Object(0, Content(map[], Service(map["app" := redisSpec.ResourceName()], "http", 6379, "")));
    service := service.(content := service.content.(labels := Labelled(service.content.labels, redisSpec)));
    var reply := CreateOrUpdateResource(cluster, key, service);
    outcome := OutcomeOf(reply);
  }

  /** Keeps the replica count of an existing Deployment; a new one gets a single replica. */
  method WriteDeployment(spec: Spec, wanted: Result<DeploymentSpec, PodError>, existing: Option<Object>,
                         cluster: Cluster)
    returns (outcome: Outcome)
    modifies cluster
    ensures var key, step := Key(Deployments, spec.namespace, spec.ResourceName()), PutDeployment(spec, wanted);
            var (sent, reply) := old(cluster.State()).Send(key, Decide(step, ReadOf(existing)));
            cluster.State() == sent && outcome == After(step, reply)
    ensures !outcome.Failed? ==> wanted.Success?
  {
    if wanted.Failure? {
      return Failed(BadDeployment(wanted.error));
    }
    var deployment := Object(0, Content(Labelled(map[], spec), Deployment(1, wanted.value)));
    if existing.Some? {
      var replicas := ReplicasOf(Some(existing.value.content));
      deployment := Object(existing.value.version,
                           Content(Labelled(existing.value.content.labels, spec), Deployment(replicas, wanted.value)));
    }
    var reply := CreateOrUpdateResource(cluster, Key(Deployments, spec.namespace, spec.ResourceName()), deployment);
    outcome := OutcomeOf(reply);
  }

  function ReadOf(existing: Option<Object>): Read {
    if existing.Some? then Found(existing.value) else Absent
  }

  lemma LookedAndSent(w: World, step: Step, existing: Option<Object>, seen: World, sent: World, outcome: Outcome)
    requires LooksFirst(step) && w.Get(Target(step)) == (seen, ReadOf(existing))
    requires var (now, reply) := seen.Send(Target(step), Decide(step, ReadOf(existing)));
             sent == now && outcome == After(step, reply)
    ensures RunStep(w, step) == (sent, outcome)
  {
  }

  lemma LookLost(w: World, step: Step, seen: World)
    requires LooksFirst(step) && !TakesFailureAsAbsence(step) && w.Get(Target(step)) == (seen, Unreachable)
    ensures RunStep(w, step) == (seen, Failed(Unavailable))
  {
  }

  /** The write of the step that began with a look at `start`. */
  method WriteAfterLook(spec: Spec, created: Result<DeploymentSpec, PodError>, existing: Option<Object>,
                        ghost start: World, cluster: Cluster)
    returns (outcome: Outcome)
    requires start.Get(Key(Deployments, spec.namespace, spec.ResourceName())) == (cluster.State(), ReadOf(existing))
    modifies cluster
    ensures (cluster.State(), outcome) == RunStep(start, PutDeployment(spec, created))
  {
    ghost var seen := cluster.State();
    outcome := WriteDeployment(spec, created, existing, cluster);
    LookedAndSent(start, PutDeployment(spec, created), existing, seen, cluster.State(), outcome);
  }

  /** The rest of that step. */
  method WorkOutAndWrite(spec: Spec, request: Request, m: Manifest, rs: seq<NaisResource>, settings: Settings,
                         existing: Option<Object>, ghost start: World, cluster: Cluster)
    returns (outcome: Outcome, ghost wanted: Result<DeploymentSpec, PodError>)
    requires start.Get(Key(Deployments, spec.namespace, spec.ResourceName())) == (cluster.State(), ReadOf(existing))
    modifies cluster
    ensures (cluster.State(), outcome) == RunStep(start, PutDeployment(spec, wanted))
    ensures WorkedOut(wanted, spec, request, m, rs, settings)
  {
    var created := CreateDeploymentSpec(spec, request, m, rs, settings);
    wanted := created;
    outcome := WriteAfterLook(spec, created, existing, start, cluster);
  }

  method CreateOrUpdateDeployment(spec: Spec, request: Request, m: Manifest, rs: seq<NaisResource>, settings: Settings,
                                  cluster: Cluster)
    returns (outcome: Outcome, ghost wanted: Result<DeploymentSpec, PodError>)
    modifies cluster
    ensures (cluster.State(), outcome) == RunStep(old(cluster.State()), PutDeployment(spec, wanted))
    ensures WorkedOut(wanted, spec, request, m, rs, settings)
  {
    ghost var start := cluster.State();
    var existing := GetExisting(cluster, Key(Deployments, spec.namespace, spec.ResourceName()));
    if existing.Success? {
      outcome, wanted := WorkOutAndWrite(spec, request, m, rs, settings, existing.value, start, cluster);
    } else {
      outcome := Failed(existing.error);
      wanted := WorkedOutExists(spec, request, m, rs, settings);
      LookLost(start, PutDeployment(spec, wanted), cluster.State());
    }
  }

  method WriteSecret(spec: Spec, data: map<string, string>, existing: Option<Object>, cluster: Cluster)
    returns (outcome: Outcome)
    modifies cluster
    ensures var key := Key(Kind.Secrets, spec.namespace, spec.ResourceName());
            var (sent, reply) := old(cluster.State()).Send(key, Decide(PutSecret(spec, data), ReadOf(existing)));
            cluster.State() == sent && outcome == After(PutSecret(spec, data), reply)
  {
    if existing.None? && |data| == 0 {
      return Done;
    }
    var secret := if existing.Some?
                  then Object(existing.value.version, Content(Labelled(existing.value.content.labels, spec),
                      Body.Secret(data)))
                  else Object(0, Content(Labelled(map[], spec), Body.Secret(data)));
    var reply := CreateOrUpdateResource(cluster, Key(Kind.Secrets, spec.namespace, spec.ResourceName()), secret);
    outcome := OutcomeOf(reply);
  }

  /** Writes the Secret, unless there is none yet and nothing to put in it. */
  method CreateOrUpdateSecret(spec: Spec, rs: seq<NaisResource>, cluster: Cluster)
    returns (outcome: Outcome, ghost data: map<string, string>)
    modifies cluster
    ensures (cluster.State(), outcome) == RunStep(old(cluster.State()), PutSecret(spec, data))
    ensures Secrets.LastWins(data, rs)
  {
    var existing := GetExisting(cluster, Key(Kind.Secrets, spec.namespace, spec.ResourceName()));
    if existing.Failure? {
      data := Secrets.DataExist(rs);
      return Failed(existing.error), data;
    }
    var created := SecretData(rs);
    data := created;
    outcome := WriteSecret(spec, created, existing.value, cluster);
  }

  method SecretData(rs: seq<NaisResource>) returns (data: map<string, string>)
    ensures Secrets.LastWins(data, rs)
  {
    data := Secrets.CreateSecretData(rs);
  }

  method CreateOrUpdateAutoscaler(spec: Spec, replicas: Replicas, cluster: Cluster) returns (outcome: Outcome)
    modifies cluster
    ensures (cluster.State(), outcome) == RunStep(old(cluster.State()), PutAutoscaler(spec, replicas))
  {
    var key := Key(Autoscalers, spec.namespace, spec.ResourceName());
    var existing := GetExisting(cluster, key);
    if existing.Failure? {
      return Failed(existing.error);
    }
    var body := Autoscaler(Int32(replicas.min), Int32(replicas.max), Int32(replicas.cpuThresholdPercentage),
        spec.ResourceName());
    var autoscaler := if existing.value.Some?
                      then Object(existing.value.value.version, Content(Labelled(existing.value.value.content.labels,
                          spec), body))
                      else Object(0, Content(Labelled(map[], spec), body));
    var reply := CreateOrUpdateResource(cluster, key, autoscaler);
    outcome := OutcomeOf(reply);
  }

  /** Reads the shared configmap, sets the application's file in it and writes it back under the version it was read at.
      The rules of the manifest are rewritten on the way, unless the configmap cannot be read. */
  method CreateOrUpdateAlertRules(spec: Spec, team: string, alerts: array<AlertRule>, cluster: Cluster)
    returns (outcome: Outcome)
    modifies cluster, alerts
    ensures old(alerts[..]) == [] ==> cluster.State() == old(cluster.State()) && outcome == Done
    ensures old(alerts[..]) != [] ==>
              (cluster.State(), outcome) ==
                  RunStep(old(cluster.State()), PutRules(spec, Group(spec, team, old(alerts[..]))))
    ensures alerts[..] == if old(cluster.State()).Next() == Fine then Group(spec, team, old(alerts[..])).rules
                          else old(alerts[..])
  {
    if alerts.Length == 0 {
      return Done;
    }
    var existing := GetExisting(cluster, RULES_KEY);
    if existing.Failure? {
      return Failed(existing.error);
    }
    var configMap := if existing.value.Some? then existing.value.value else Object(0, Content(map[], ConfigMap(map[])));
    var files := AddRules(spec, team, alerts, FilesOf(Some(configMap.content)));
    configMap := configMap.(content := configMap.content.(body := ConfigMap(files)));
    var reply := CreateOrUpdateResource(cluster, RULES_KEY, configMap);
    outcome := OutcomeOf(reply);
  }

  method WriteIngress(spec: Spec, livenessPath: string, rules: seq<Ingresses.IngressRule>, existing: Option<Object>,
                      cluster: Cluster)
    returns (outcome: Outcome)
    modifies cluster
    ensures var key := Key(Kind.Ingresses, spec.namespace, spec.ResourceName());
            var step := PutIngress(spec, livenessPath, rules);
            var (sent, reply) := old(cluster.State()).Send(key, Decide(step, ReadOf(existing)));
            cluster.State() == sent && outcome == After(step, reply)
  {
    var ingress := if existing.Some? then existing.value
                   else Object(0, Content(Labelled(map[], spec), Ingress(map[], [])));
    ingress := ingress.(content := ingress.content.(body := Ingress(IngressAnnotations(livenessPath), rules)));
    var reply := CreateOrUpdateResource(cluster, Key(Kind.Ingresses, spec.namespace, spec.ResourceName()), ingress);
    outcome := OutcomeOf(reply);
  }

  method CreateOrUpdateIngress(spec: Spec, request: Request, livenessPath: string, rs: seq<NaisResource>,
                               subdomain: string, cluster: Cluster)
    returns (outcome: Outcome)
    modifies cluster
    ensures (cluster.State(), outcome) ==
            RunStep(old(cluster.State()), PutIngress(spec, livenessPath, Ingresses.Rules(spec, request, subdomain, rs)))
  {
    var key := Key(Kind.Ingresses, spec.namespace, spec.ResourceName());
    var existing := GetExisting(cluster, key);
    if existing.Failure? {
      return Failed(existing.error);
    }
    var rules := Ingresses.CreateIngressRules(spec, request, subdomain, rs);
    outcome := WriteIngress(spec, livenessPath, rules, existing.value, cluster);
  }

  // ---- Deleting ----

  method DeleteService(spec: Spec, cluster: Cluster) returns (outcome: Outcome)
    modifies cluster
    ensures (cluster.State(), outcome) == RunStep(old(cluster.State()), DropService(spec))
  {
    var reply := cluster.Delete(Key(Services, spec.namespace, spec.ResourceName()));
    outcome := FilterNotFound(reply);
  }

  method DeleteDeployment(spec: Spec, cluster: Cluster) returns (outcome: Outcome)
    modifies cluster
    ensures (cluster.State(), outcome) == RunStep(old(cluster.State()), DropDeployment(spec))
  {
    var reply := cluster.Delete(Key(Deployments, spec.namespace, spec.ResourceName()));
    outcome := FilterNotFound(reply);
  }

  method DeleteRedisDeployment(spec: Spec, cluster: Cluster) returns (outcome: Outcome)
    modifies cluster
    ensures (cluster.State(), outcome) == RunStep(old(cluster.State()), DropRedisDeployment(spec))
  {
    var reply := cluster.Delete(Key(Deployments, spec.namespace, spec.ResourceName() + "-redis"));
    outcome := FilterNotFound(reply);
  }

  method DeleteRedisService(spec: Spec, cluster: Cluster) returns (outcome: Outcome)
    modifies cluster
    ensures (cluster.State(), outcome) == RunStep(old(cluster.State()), DropRedisService(spec))
  {
    var reply := cluster.Delete(Key(Services, spec.namespace, spec.ResourceName() + "-redis"));
    outcome := FilterNotFound(reply);
  }

  method DeleteSecret(spec: Spec, cluster: Cluster) returns (outcome: Outcome)
    modifies cluster
    ensures (cluster.State(), outcome) == RunStep(old(cluster.State()), DropSecret(spec))
  {
    var reply := cluster.Delete(Key(Kind.Secrets, spec.namespace, spec.ResourceName()));
    outcome := FilterNotFound(reply);
  }

  method DeleteIngress(spec: Spec, cluster: Cluster) returns (outcome: Outcome)
    modifies cluster
    ensures (cluster.State(), outcome) == RunStep(old(cluster.State()), DropIngress(spec))
  {
    var key := Key(Kind.Ingresses, spec.namespace, spec.ResourceName());
    var existing := GetExisting(cluster, key);
    if existing.Failure? {
      return Failed(existing.error);
    }
    outcome := Done;
    if existing.value.Some? {
      var reply := cluster.Delete(key);
      outcome := FilterNotFound(reply);
    }
  }

  method DeleteAutoscaler(spec: Spec, cluster: Cluster) returns (outcome: Outcome)
    modifies cluster
    ensures (cluster.State(), outcome) == RunStep(old(cluster.State()), DropAutoscaler(spec))
  {
    var key := Key(Autoscalers, spec.namespace, spec.ResourceName());
    var existing := GetExisting(cluster, key);
    if existing.Failure? {
      return Failed(existing.error);
    }
    outcome := Done;
    if existing.value.Some? {
      var reply := cluster.Delete(key);
      outcome := FilterNotFound(reply);
    }
  }

  /** Takes the application's file out of the shared configmap; without a configmap the daemon fails here. */
  method DeleteConfigMapRules(spec: Spec, cluster: Cluster) returns (outcome: Outcome)
    modifies cluster
    ensures (cluster.State(), outcome) == RunStep(old(cluster.State()), DropRules(spec))
  {
    var existing := GetExisting(cluster, RULES_KEY);
    if existing.Failure? {
      return Failed(existing.error);
    }
    if existing.value.None? {
      return Failed(NoConfigMap);
    }
    var configMap := existing.value.value;
    configMap := configMap.(content := configMap.content.(
                              body := ConfigMap(FilesOf(Some(configMap.content)) - {spec.RuleFile()})));
    var reply := CreateOrUpdateResource(cluster, RULES_KEY, configMap);
    outcome := FilterNotFound(reply);
  }

  method DeleteServiceAccount(spec: Spec, cluster: Cluster) returns (outcome: Outcome)
    modifies cluster
    ensures (cluster.State(), outcome) == RunStep(old(cluster.State()), DropServiceAccount(spec))
  {
    var reply := cluster.Delete(Key(ServiceAccounts, spec.namespace, spec.ResourceName()));
    outcome := if reply == Rejected(NotFound) then Done else OutcomeOf(reply);
  }

  // ---- A delete ----

  function WorkloadDrops(spec: Spec): seq<Step> {
    [DropService(spec), DropDeployment(spec), DropRedisDeployment(spec), DropRedisService(spec)]
  }

  function OtherDrops(spec: Spec): seq<Step> {
    [DropSecret(spec), DropIngress(spec), DropAutoscaler(spec), DropRules(spec), DropServiceAccount(spec)]
  }

  /** A failed deletion of Redis is reported and passed over; any other failure ends the request. */
  method DeleteWorkload(spec: Spec, cluster: Cluster, before: seq<Outcome>)
    returns (outcomes: seq<Outcome>, stopped: bool)
    modifies cluster
    ensures Reached(Progress(old(cluster.State()), before, false), WorkloadDrops(spec), Progress(cluster.State(),
            outcomes, stopped))
  {
    ghost var from, plan := Progress(cluster.State(), before, false), WorkloadDrops(spec);
    ghost var done: seq<Step>, p := [], from;
    outcomes, stopped := before, false;

    var outcome := DeleteService(spec, cluster);
    ReachNext(from, done, p, DropService(spec));
    done, p, outcomes := done + [DropService(spec)], Advance(p, DropService(spec)), outcomes + [outcome];
    if outcome.Failed? {
      StopsShort(from, done, p, plan);
      return outcomes, true;
    }

    outcome := DeleteDeployment(spec, cluster);
    ReachNext(from, done, p, DropDeployment(spec));
    done, p, outcomes := done + [DropDeployment(spec)], Advance(p, DropDeployment(spec)), outcomes + [outcome];
    if outcome.Failed? {
      StopsShort(from, done, p, plan);
      return outcomes, true;
    }

    outcome := DeleteRedisDeployment(spec, cluster);
    ReachNext(from, done, p, DropRedisDeployment(spec));
    done, p, outcomes :=
        done + [DropRedisDeployment(spec)], Advance(p, DropRedisDeployment(spec)), outcomes + [outcome];

    outcome := DeleteRedisService(spec, cluster);
    ReachNext(from, done, p, DropRedisService(spec));
    done, p, outcomes := done + [DropRedisService(spec)], Advance(p, DropRedisService(spec)), outcomes + [outcome];
    assert done == plan;
  }

  method DeleteOthers(spec: Spec, cluster: Cluster, before: seq<Outcome>)
    returns (outcomes: seq<Outcome>, stopped: bool)
    modifies cluster
    ensures Reached(Progress(old(cluster.State()), before, false), OtherDrops(spec), Progress(cluster.State(),
            outcomes, stopped))
  {
    ghost var from, plan := Progress(cluster.State(), before, false), OtherDrops(spec);
    ghost var done: seq<Step>, p := [], from;
    outcomes, stopped := before, false;

    var outcome := DeleteSecret(spec, cluster);
    ReachNext(from, done, p, DropSecret(spec));
    done, p, outcomes := done + [DropSecret(spec)], Advance(p, DropSecret(spec)), outcomes + [outcome];
    if outcome.Failed? {
      StopsShort(from, done, p, plan);
      return outcomes, true;
    }

    outcome := DeleteIngress(spec, cluster);
    ReachNext(from, done, p, DropIngress(spec));
    done, p, outcomes := done + [DropIngress(spec)], Advance(p, DropIngress(spec)), outcomes + [outcome];
    if outcome.Failed? {
      StopsShort(from, done, p, plan);
      return outcomes, true;
    }

    outcome := DeleteAutoscaler(spec, cluster);
    ReachNext(from, done, p, DropAutoscaler(spec));
    done, p, outcomes := done + [DropAutoscaler(spec)], Advance(p, DropAutoscaler(spec)), outcomes + [outcome];
    if outcome.Failed? {
      StopsShort(from, done, p, plan);
      return outcomes, true;
    }

    outcome := DeleteConfigMapRules(spec, cluster);
    ReachNext(from, done, p, DropRules(spec));
    done, p, outcomes := done + [DropRules(spec)], Advance(p, DropRules(spec)), outcomes + [outcome];
    if outcome.Failed? {
      StopsShort(from, done, p, plan);
      return outcomes, true;
    }

    outcome := DeleteServiceAccount(spec, cluster);
    ReachNext(from, done, p, DropServiceAccount(spec));
    done, p, outcomes := done + [DropServiceAccount(spec)], Advance(p, DropServiceAccount(spec)), outcomes + [outcome];
    stopped := outcome.Failed?;
    assert done == plan;
  }

  method DeleteK8sResources(spec: Spec, cluster: Cluster) returns (outcomes: seq<Outcome>, failed: bool)
    modifies cluster
    ensures (cluster.State(), outcomes) == RunPlan(old(cluster.State()), DeletePlan(spec))
    ensures failed <==> !Completed(DeletePlan(spec), outcomes)
  {
    ghost var start := cluster.State();
    outcomes, failed := DeleteWorkload(spec, cluster, []);
    ghost var p := Progress(cluster.State(), outcomes, failed);
    if failed {
      StopsShort(Begin(start), WorkloadDrops(spec), p, DeletePlan(spec));
    } else {
      outcomes, failed := DeleteOthers(spec, cluster, outcomes);
      ghost var p' := Progress(cluster.State(), outcomes, failed);
      ReachOn(Begin(start), WorkloadDrops(spec), p, OtherDrops(spec), p');
      p := p';
    }
    assert DeletePlan(spec) == WorkloadDrops(spec) + OtherDrops(spec);
    ReachedIsRun(start, DeletePlan(spec), p);
  }

  // ---- A deploy ----

  method CreateOrUpdateIdentity(spec: Spec, cluster: Cluster, before: seq<Outcome>)
    returns (outcomes: seq<Outcome>, stopped: bool)
    modifies cluster
    ensures Reached(Progress(old(cluster.State()), before, false), IdentityPuts(spec), Progress(cluster.State(),
            outcomes, stopped))
  {
    ghost var from := Progress(cluster.State(), before, false);
    ghost var done: seq<Step>, p := [], from;
    outcomes, stopped := before, false;

    var outcome := CreateServiceAccountIfNotExist(spec, cluster);
    ReachNext(from, done, p, EnsureServiceAccount(spec));
    done, p, outcomes :=
        done + [EnsureServiceAccount(spec)], Advance(p, EnsureServiceAccount(spec)), outcomes + [outcome];
    if outcome.Failed? {
      StopsShort(from, done, p, IdentityPuts(spec));
      stopped := true;
      return;
    }

    outcome := CreateOrUpdateRoleBinding(spec, cluster);
    ReachNext(from, done, p, PutRoleBinding(spec));
    done, p, outcomes := done + [PutRoleBinding(spec)], Advance(p, PutRoleBinding(spec)), outcomes + [outcome];
    if outcome.Failed? {
      StopsShort(from, done, p, IdentityPuts(spec));
      stopped := true;
      return;
    }

    outcome := CreateOrUpdateService(spec, cluster);
    ReachNext(from, done, p, PutService(spec));
    done, p, outcomes := done + [PutService(spec)], Advance(p, PutService(spec)), outcomes + [outcome];
    stopped := outcome.Failed?;
    assert done == IdentityPuts(spec);
  }

  method CreateOrUpdateRedis(spec: Spec, m: Manifest, parses: string -> bool, cluster: Cluster, before: seq<Outcome>)
    returns (outcomes: seq<Outcome>, stopped: bool)
    modifies cluster
    ensures Reached(Progress(old(cluster.State()), before, false),
                    RedisPuts(spec, m.redis.enabled, WantedRedis(parses, spec, m)), Progress(cluster.State(),
                        outcomes, stopped))
  {
    ghost var from := Progress(cluster.State(), before, false);
    ghost var done: seq<Step>, p := [], from;
    outcomes, stopped := before, false;
    if !m.redis.enabled {
      return;
    }
    ghost var wanted := WantedRedis(parses, spec, m);

    var outcome := CreateOrUpdateRedisInstance(spec, m, parses, cluster);
    ReachNext(from, done, p, PutRedisDeployment(spec, wanted));
    done, p, outcomes :=
        done + [PutRedisDeployment(spec, wanted)], Advance(p, PutRedisDeployment(spec, wanted)), outcomes + [outcome];
    if outcome.Failed? {
      StopsShort(from, done, p, RedisPuts(spec, true, wanted));
      stopped := true;
      return;
    }

    outcome := CreateOrUpdateRedisService(spec, cluster);
    ReachNext(from, done, p, PutRedisService(spec));
    done, p, outcomes := done + [PutRedisService(spec)], Advance(p, PutRedisService(spec)), outcomes + [outcome];
    stopped := outcome.Failed?;
    assert done == RedisPuts(spec, true, wanted);
  }

  method CreateOrUpdateData(spec: Spec, rs: seq<NaisResource>, replicas: Replicas, cluster: Cluster,
                            before: seq<Outcome>)
    returns (outcomes: seq<Outcome>, stopped: bool, ghost data: map<string, string>)
    modifies cluster
    ensures Reached(Progress(old(cluster.State()), before, false), DataPuts(spec, data, replicas),
                    Progress(cluster.State(), outcomes, stopped))
    ensures Secrets.LastWins(data, rs)
  {
    ghost var from := Progress(cluster.State(), before, false);
    ghost var done: seq<Step>, p := [], from;
    outcomes, stopped := before, false;

    var outcome;
    outcome, data := CreateOrUpdateSecret(spec, rs, cluster);
    ReachNext(from, done, p, PutSecret(spec, data));
    done, p, outcomes := done + [PutSecret(spec, data)], Advance(p, PutSecret(spec, data)), outcomes + [outcome];
    if outcome.Failed? {
      StopsShort(from, done, p, DataPuts(spec, data, replicas));
      stopped := true;
      return;
    }

    outcome := CreateOrUpdateAutoscaler(spec, replicas, cluster);
    ReachNext(from, done, p, PutAutoscaler(spec, replicas));
    done, p, outcomes :=
        done + [PutAutoscaler(spec, replicas)], Advance(p, PutAutoscaler(spec, replicas)), outcomes + [outcome];
    stopped := outcome.Failed?;
    assert done == DataPuts(spec, data, replicas);
  }

  /** The rules, if there are any, and the ingress, if there is to be one. */
  method CreateOrUpdateExposure(spec: Spec, request: Request, m: Manifest, alerts: array<AlertRule>,
                                rs: seq<NaisResource>, subdomain: string, cluster: Cluster, before: seq<Outcome>)
    returns (outcomes: seq<Outcome>, stopped: bool)
    requires alerts[..] == m.alerts
    modifies cluster, alerts
    ensures Reached(Progress(old(cluster.State()), before, false),
                    ExposurePuts(spec, m, Ingresses.Rules(spec, request, subdomain, rs)),
                    Progress(cluster.State(), outcomes, stopped))
    ensures alerts[..] == RulesAfter(old(cluster.State()).Next() == Fine, spec, m)
  {
    ghost var rules := Ingresses.Rules(spec, request, subdomain, rs);
    ghost var from := Progress(cluster.State(), before, false);
    ghost var done: seq<Step>, p := [], from;
    outcomes, stopped := before, false;

    var outcome := CreateOrUpdateAlertRules(spec, m.team, alerts, cluster);
    if m.alerts != [] {
      ghost var step := PutRules(spec, Group(spec, m.team, m.alerts));
      ReachNext(from, done, p, step);
      done, p, outcomes := done + [step], Advance(p, step), outcomes + [outcome];
      if outcome.Failed? {
        StopsShort(from, done, p, ExposurePuts(spec, m, rules));
        stopped := true;
        return;
      }
    }

    if !m.ingressDisabled {
      outcome := CreateOrUpdateIngress(spec, request, m.livenessPath, rs, subdomain, cluster);
      ghost var step := PutIngress(spec, m.livenessPath, rules);
      ReachNext(from, done, p, step);
      done, p, outcomes := done + [step], Advance(p, step), outcomes + [outcome];
      stopped := outcome.Failed?;
    }
    assert done == ExposurePuts(spec, m, rules);
  }

  /** The manifest's rules after a deploy: rewritten if it came to read the configmap. */
  function RulesAfter(read: bool, spec: Spec, m: Manifest): seq<AlertRule> {
    if read then Group(spec, m.team, m.alerts).rules else m.alerts
  }

  /** Everything up to the application's own Deployment. */
  method CreateOrUpdateBasis(spec: Spec, m: Manifest, parses: string -> bool, cluster: Cluster)
    returns (outcomes: seq<Outcome>, stopped: bool)
    modifies cluster
    ensures Reached(Begin(old(cluster.State())), BasisPuts(spec, m, parses), Progress(cluster.State(), outcomes,
            stopped))
  {
    ghost var start := Begin(cluster.State());
    ghost var redis := RedisPuts(spec, m.redis.enabled, WantedRedis(parses, spec, m));
    outcomes, stopped := CreateOrUpdateIdentity(spec, cluster, []);
    ghost var p := Progress(cluster.State(), outcomes, stopped);
    if stopped {
      StopsShort(start, IdentityPuts(spec), p, IdentityPuts(spec) + redis);
      return;
    }
    outcomes, stopped := CreateOrUpdateRedis(spec, m, parses, cluster, outcomes);
    ReachOn(start, IdentityPuts(spec), p, redis, Progress(cluster.State(), outcomes, stopped));
  }

  function BasisPuts(spec: Spec, m: Manifest, parses: string -> bool): seq<Step> {
    IdentityPuts(spec) + RedisPuts(spec, m.redis.enabled, WantedRedis(parses, spec, m))
  }

  /** Everything from the Secret on. */
  method CreateOrUpdateRest(spec: Spec, request: Request, m: Manifest, alerts: array<AlertRule>, rs: seq<NaisResource>,
                            subdomain: string, cluster: Cluster, before: seq<Outcome>)
    returns (outcomes: seq<Outcome>, stopped: bool, ghost data: map<string, string>, ghost middle: Progress)
    requires alerts[..] == m.alerts
    modifies cluster, alerts
    ensures Reached(Progress(old(cluster.State()), before, false), DataPuts(spec, data, m.replicas), middle)
    ensures var rest := if middle.stopped
            then [] else ExposurePuts(spec, m, Ingresses.Rules(spec, request, subdomain, rs));
            Reached(middle, rest, Progress(cluster.State(), outcomes, stopped))
    ensures Secrets.LastWins(data, rs)
    ensures alerts[..] == RulesAfter(!middle.stopped && middle.now.Next() == Fine, spec, m)
  {
    outcomes, stopped, data := CreateOrUpdateData(spec, rs, m.replicas, cluster, before);
    middle := Progress(cluster.State(), outcomes, stopped);
    if stopped {
      return;
    }
    outcomes, stopped := CreateOrUpdateExposure(spec, request, m, alerts, rs, subdomain, cluster, outcomes);
  }

  function UpToDeployment(spec: Spec, inputs: Inputs): seq<Step> {
    IdentityPuts(spec) + RedisPuts(spec, inputs.manifest.redis.enabled, inputs.redis) +
        [PutDeployment(spec, inputs.wanted)]
  }

  function UpToRules(spec: Spec, inputs: Inputs): seq<Step> {
    UpToDeployment(spec, inputs) + DataPuts(spec, inputs.data, inputs.manifest.replicas)
  }

  method CreateOrUpdateWorkload(spec: Spec, request: Request, m: Manifest, rs: seq<NaisResource>, settings: Settings,
                                cluster: Cluster)
    returns (outcomes: seq<Outcome>, stopped: bool, ghost wanted: Result<DeploymentSpec, PodError>)
    modifies cluster
    ensures Reached(Begin(old(cluster.State())), BasisPuts(spec, m, settings.parses) + [PutDeployment(spec, wanted)],
                    Progress(cluster.State(), outcomes, stopped))
    ensures WorkedOut(wanted, spec, request, m, rs, settings)
  {
    ghost var start := Begin(cluster.State());
    ghost var basis := BasisPuts(spec, m, settings.parses);
    outcomes, stopped := CreateOrUpdateBasis(spec, m, settings.parses, cluster);
    ghost var p := Progress(cluster.State(), outcomes, stopped);
    if stopped {
      wanted := WorkedOutExists(spec, request, m, rs, settings);
      StopsShort(start, basis, p, basis + [PutDeployment(spec, wanted)]);
      return;
    }
    var outcome;
    outcome, wanted := CreateOrUpdateDeployment(spec, request, m, rs, settings, cluster);
    ReachNext(start, basis, p, PutDeployment(spec, wanted));
    outcomes, stopped := outcomes + [outcome], outcome.Failed?;
  }

  /** The deploy came to read the shared configmap. */
  ghost predicate ReadsRules(start: World, spec: Spec, inputs: Inputs) {
    && Completed(UpToRules(spec, inputs), RunPlan(start, UpToRules(spec, inputs)).1)
    && RunPlan(start, UpToRules(spec, inputs)).0.Next() == Fine
  }

  /** A deploy follows its plan. The rules of the manifest are rewritten where they stand, so that each deploy needs a
      manifest of its own. */
  method CreateOrUpdateK8sResources(spec: Spec, request: Request, m: Manifest, alerts: array<AlertRule>,
                                    rs: seq<NaisResource>, settings: Settings, cluster: Cluster)
    returns (outcomes: seq<Outcome>, failed: bool, ghost inputs: Inputs)
    requires alerts[..] == m.alerts
    modifies cluster, alerts
    ensures (cluster.State(), outcomes) == RunPlan(old(cluster.State()), DeployPlan(spec, inputs))
    ensures failed <==> !Completed(DeployPlan(spec, inputs), outcomes)
    ensures RightInputs(inputs, spec, request, m, rs, settings)
    ensures alerts[..] == RulesAfter(ReadsRules(old(cluster.State()), spec, inputs), spec, m)
    ensures !failed && Versioned(old(cluster.State()).store) ==>
              EverythingThere(old(cluster.State()).store, cluster.State().store, spec, request, m, rs, settings)
  {
    ghost var start := cluster.State();
    ghost var rules := Ingresses.Rules(spec, request, settings.subdomain, rs);
    ghost var wanted, data, middle;
    outcomes, failed, wanted := CreateOrUpdateWorkload(spec, request, m, rs, settings, cluster);
    ghost var p := Progress(cluster.State(), outcomes, failed);
    if failed {
      data := Secrets.DataExist(rs);
      inputs := Inputs(m, WantedRedis(settings.parses, spec, m), wanted, data, rules);
      StopsEarly(start, p, spec, inputs);
      return;
    }
    outcomes, failed, data, middle :=
        CreateOrUpdateRest(spec, request, m, alerts, rs, settings.subdomain, cluster, outcomes);
    inputs := Inputs(m, WantedRedis(settings.parses, spec, m), wanted, data, rules);
    GoesOn(start, p, spec, inputs, middle, Progress(cluster.State(), outcomes, failed));
    LeavesEverything(start, spec, inputs, request, m, rs, settings);
  }

  lemma LeavesEverything(start: World, spec: Spec, inputs: Inputs, request: Request, m: Manifest,
                         rs: seq<NaisResource>, settings: Settings)
    requires RightInputs(inputs, spec, request, m, rs, settings)
    ensures var (now, outcomes) := RunPlan(start, DeployPlan(spec, inputs));
            Versioned(start.store) && Completed(DeployPlan(spec, inputs), outcomes) ==>
              EverythingThere(start.store, now.store, spec, request, m, rs, settings)
  {
    if Versioned(start.store) && Completed(DeployPlan(spec, inputs), RunPlan(start, DeployPlan(spec, inputs)).1) {
      CompletedDeployLeavesEverything(start, spec, inputs, request, m, rs, settings);
    }
  }

  lemma RulesAreRead(start: World, p: Progress, spec: Spec, inputs: Inputs)
    requires Reached(Begin(start), UpToRules(spec, inputs), p)
    ensures ReadsRules(start, spec, inputs) <==> !p.stopped && p.now.Next() == Fine
  {
    ReachedIsRun(start, UpToRules(spec, inputs), p);
  }

  lemma PlanFromRules(spec: Spec, inputs: Inputs)
    ensures DeployPlan(spec, inputs) ==
            UpToRules(spec, inputs) + ExposurePuts(spec, inputs.manifest, inputs.ingressRules)
  {
  }

  lemma StopsEarly(start: World, p: Progress, spec: Spec, inputs: Inputs)
    requires Reached(Begin(start), UpToDeployment(spec, inputs), p) && p.stopped
    ensures var plan := DeployPlan(spec, inputs);
            RunPlan(start, plan) == (p.now, p.outcomes) && !Completed(plan, p.outcomes)
    ensures !ReadsRules(start, spec, inputs)
  {
    PlanFromRules(spec, inputs);
    StopsShort(Begin(start), UpToDeployment(spec, inputs), p, UpToRules(spec, inputs));
    StopsShort(Begin(start), UpToRules(spec, inputs), p, DeployPlan(spec, inputs));
    RulesAreRead(start, p, spec, inputs);
    ReachedIsRun(start, DeployPlan(spec, inputs), p);
  }

  lemma GoesOn(start: World, p: Progress, spec: Spec, inputs: Inputs, middle: Progress, p': Progress)
    requires Reached(Begin(start), UpToDeployment(spec, inputs), p)
    requires Reached(p, DataPuts(spec, inputs.data, inputs.manifest.replicas), middle)
    requires Reached(middle, if middle.stopped
             then [] else ExposurePuts(spec, inputs.manifest, inputs.ingressRules), p')
    ensures var plan := DeployPlan(spec, inputs);
            RunPlan(start, plan) == (p'.now, p'.outcomes) && (p'.stopped <==> !Completed(plan, p'.outcomes))
    ensures ReadsRules(start, spec, inputs) <==> !middle.stopped && middle.now.Next() == Fine
  {
    var exposure := ExposurePuts(spec, inputs.manifest, inputs.ingressRules);
    ReachOn(Begin(start), UpToDeployment(spec, inputs), p, DataPuts(spec, inputs.data, inputs.manifest.replicas),
        middle);
    RulesAreRead(start, middle, spec, inputs);
    PlanFromRules(spec, inputs);
    if middle.stopped {
      StopsShort(Begin(start), UpToRules(spec, inputs), middle, DeployPlan(spec, inputs));
    } else {
      ReachOn(Begin(start), UpToRules(spec, inputs), middle, exposure, p');
    }
    ReachedIsRun(start, DeployPlan(spec, inputs), p');
  }
}
