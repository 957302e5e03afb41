/** Everything that a deploy which got through has left in the cluster, object by object and field by field. */
module DeployedObjects {

  import opened Wrappers
  import opened Text
  import opened App
  import opened Alerts
  import opened NaisResources
  import opened Environment
  import opened Manifests
  import opened PodSpecs
  import opened Kubernetes
  import opened Steps
  import opened Runs
  import opened Deploys
  import opened Delivery
  import Convergence
  import Ingresses
  import Secrets

  // ---- Objects in a store ----

  predicate Has(s: Store, kind: Kind, namespace: string, name: string) {
    Key(kind, namespace, name) in s.objects
  }

  /** The labels and the body of an object; nothing in particular if there is none. */
  function LabelsAt(s: Store, kind: Kind, namespace: string, name: string): map<string, string> {
    if Has(s, kind, namespace, name) then s.objects[Key(kind, namespace, name)].content.labels else map[]
  }

  function BodyAt(s: Store, kind: Kind, namespace: string, name: string): Option<Body> {
    if Has(s, kind, namespace, name) then Some(s.objects[Key(kind, namespace, name)].content.body) else None
  }

  /** The three labels are set, and all others are as they were. */
  predicate LabelsSet(labels: map<string, string>, was: map<string, string>, app: string, namespace: string,
                      team: string) {
    && "app" in labels && labels["app"] == app && "environment" in labels && labels["environment"] == namespace
    && "team" in labels && labels["team"] == team
    && labels.Keys == was.Keys + {"app", "environment", "team"}
    && forall l :: l in was && l !in {"app", "environment", "team"} ==> labels[l] == was[l]
  }

  /** An `int` cut down to 32 bits. */
  predicate IsInt32Of(x: int, i: int) {
    -0x8000_0000 <= x < 0x8000_0000 && (x - i) % 0x1_0000_0000 == 0
  }

  // ---- What is there ----

  /** The account is there; one that was there before is as it was. */
  ghost predicate AccountThere(before: Store, after: Store, spec: Spec) {
    var ns, app := spec.namespace, spec.application;
    && Has(after, ServiceAccounts, ns, app)
    && (if Has(before, ServiceAccounts, ns, app) then
          && BodyAt(after, ServiceAccounts, ns, app) == BodyAt(before, ServiceAccounts, ns, app)
          && LabelsAt(after, ServiceAccounts, ns, app) == LabelsAt(before, ServiceAccounts, ns, app)
        else
          && BodyAt(after, ServiceAccounts, ns, app) == Some(ServiceAccount)
          && LabelsSet(LabelsAt(after, ServiceAccounts, ns, app), map[], app, ns, spec.team))
  }

  /** The binding gives the account its role. */
  ghost predicate BindingThere(after: Store, spec: Spec) {
    var ns, app := spec.namespace, spec.application;
    && BodyAt(after, RoleBindings, ns, app) ==
         Some(RoleBinding(app, ns, "ClusterRole", "serviceaccount-in-app-namespace"))
    && LabelsSet(LabelsAt(after, RoleBindings, ns, app), map[], app, ns, spec.team)
  }

  /** The service sends port 80 to the application's pods and keeps the address it had. */
  ghost predicate ServiceThere(before: Store, after: Store, spec: Spec) {
    var ns, app := spec.namespace, spec.application;
    var was, now := BodyAt(before, Services, ns, app), BodyAt(after, Services, ns, app);
    && now.Some? && now.value.Service? && now.value.selector == map["app" := app]
    && now.value.portName == "http" && now.value.port == 80
    && now.value.clusterIP == (if was.Some? && was.value.Service? then was.value.clusterIP else "")
    && LabelsSet(LabelsAt(after, Services, ns, app), LabelsAt(before, Services, ns, app), app, ns, spec.team)
  }

  /** Redis runs under the application's name with `-redis`, with the image and quantities of the manifest. */
  ghost predicate RedisThere(before: Store, after: Store, spec: Spec, m: Manifest) {
    var ns, name := spec.namespace, spec.application + "-redis";
    var now := BodyAt(after, Deployments, ns, name);
    && now.Some? && now.value.Deployment? && now.value.replicas == 1
    && now.value.spec.selector == map["app" := name] && now.value.spec.strategy == "Recreate"
    && |now.value.spec.pod.containers| == 2
    && RedisContainer(now.value.spec.pod.containers[0], m.redis)
    && now.value.spec.pod.containers[1].name == "exporter"
    && now.value.spec.pod.containers[1].image == "oliver006/redis_exporter:v1.3.4-alpine"
    && LabelsSet(LabelsAt(after, Deployments, ns, name), LabelsAt(before, Deployments, ns, name), name, ns, spec.team)
  }

  predicate RedisContainer(c: Container, redis: Redis) {
    && c.name == "redis" && IsFilled(c.image, redis.image, "redis:5-alpine")
    && IsFilled(c.resources.limits.cpu, redis.limits.cpu, "100m")
    && IsFilled(c.resources.limits.memory, redis.limits.memory, "128Mi")
    && IsFilled(c.resources.requests.cpu, redis.requests.cpu, "100m")
    && IsFilled(c.resources.requests.memory, redis.requests.memory, "128Mi")
  }

  /** Its service is there; the body of one that was there before is as it was. */
  ghost predicate RedisServiceThere(before: Store, after: Store, spec: Spec) {
    var ns, name := spec.namespace, spec.application + "-redis";
    && BodyAt(after, Services, ns, name) ==
       (if Has(before, Services, ns, name) then BodyAt(before, Services, ns, name)
        else Some(Service(map["app" := name], "http", 6379, "")))
    && LabelsSet(LabelsAt(after, Services, ns, name), LabelsAt(before, Services, ns, name), name, ns, spec.team)
  }

  /** The Deployment is one the request asks for, with the replicas it had. */
  ghost predicate DeploymentThere(before: Store, after: Store, spec: Spec, request: Request, m: Manifest,
                                  rs: seq<NaisResource>, settings: Settings)
  {
    var ns, app := spec.namespace, spec.application;
    var was, now := BodyAt(before, Deployments, ns, app), BodyAt(after, Deployments, ns, app);
    && now.Some? && now.value.Deployment? && Wanted(now.value.spec, spec, request, m, rs, settings)
    && now.value.replicas == (if was.Some? && was.value.Deployment? then was.value.replicas else 1)
    && LabelsSet(LabelsAt(after, Deployments, ns, app), LabelsAt(before, Deployments, ns, app), app, ns, spec.team)
  }

  /** The Secret holds every secret and certificate; there is none if there was none and there is nothing to hold. */
  ghost predicate SecretThere(before: Store, after: Store, spec: Spec, rs: seq<NaisResource>) {
    var ns, app := spec.namespace, spec.application;
    if !Has(before, Kind.Secrets, ns, app) && (forall e :: !Secrets.Confidential(rs, e))
    then !Has(after, Kind.Secrets, ns, app)
    else
      var now := BodyAt(after, Kind.Secrets, ns, app);
      && now.Some? && now.value.Secret? && Secrets.Holds(now.value.data, rs)
      && LabelsSet(LabelsAt(after, Kind.Secrets, ns, app), LabelsAt(before, Kind.Secrets, ns, app), app, ns, spec.team)
  }

  /** The autoscaler scales the application within the manifest's bounds. */
  ghost predicate AutoscalerThere(before: Store, after: Store, spec: Spec, m: Manifest) {
    var ns, app := spec.namespace, spec.application;
    var now := BodyAt(after, Autoscalers, ns, app);
    && now.Some? && now.value.Autoscaler? && now.value.scaleTarget == app
    && IsInt32Of(now.value.min, m.replicas.min) && IsInt32Of(now.value.max, m.replicas.max)
    && IsInt32Of(now.value.cpuTarget, m.replicas.cpuThresholdPercentage)
    && LabelsSet(LabelsAt(after, Autoscalers, ns, app), LabelsAt(before, Autoscalers, ns, app), app, ns, spec.team)
  }

  /** One rule of the manifest as it stands in the shared configmap. */
  predicate RuleWritten(rule: AlertRule, given: AlertRule, spec: Spec, team: string) {
    && rule.alert == spec.team + "-" + spec.application + "-" + spec.namespace + "_" + given.alert
    && rule.expr == ReplaceAll(given.expr, "$namespace", spec.namespace)
    && rule.forDuration == given.forDuration && rule.annotations == given.annotations
    && rule.labels.Keys == given.labels.Keys + (if team == "" then {} else {"team"})
    && (team != "" ==> rule.labels["team"] == team)
    && forall l :: l in given.labels && (l != "team" || team == "") ==> rule.labels[l] == given.labels[l]
  }

  /** The application's file is in the shared configmap, with all its rules, and the other files are as they were. */
  ghost predicate RulesThere(before: Store, after: Store, spec: Spec, m: Manifest) {
    var file := spec.team + "-" + spec.application + "-" + spec.namespace + ".yml";
    var was, now := BodyAt(before, ConfigMaps, "nais", "app-rules"), BodyAt(after, ConfigMaps, "nais", "app-rules");
    && now.Some? && now.value.ConfigMap? && file in now.value.files && now.value.files[file].Yaml?
    && now.value.files[file].group.name == spec.team + "-" + spec.application + "-" + spec.namespace
    && |now.value.files[file].group.rules| == |m.alerts|
    && (forall i :: 0 <= i < |m.alerts| ==>
         RuleWritten(now.value.files[file].group.rules[i], m.alerts[i], spec, m.team))
    && now.value.files - {file} == (if was.Some? && was.value.ConfigMap? then was.value.files - {file} else map[])
    && LabelsAt(after, ConfigMaps, "nais", "app-rules") == LabelsAt(before, ConfigMaps, "nais", "app-rules")
  }

  /** The ingress has the rules of the application and tells where it can be probed. */
  ghost predicate IngressThere(before: Store, after: Store, spec: Spec, request: Request, m: Manifest,
                               rs: seq<NaisResource>, settings: Settings)
  {
    var ns, app := spec.namespace, spec.application;
    var now := BodyAt(after, Kind.Ingresses, ns, app);
    && now.Some? && now.value.Ingress? && Ingresses.RightRules(now.value.rules, spec, request, settings.subdomain, rs)
    && now.value.annotations == map["prometheus.io/scrape" := "true", "prometheus.io/path" := m.livenessPath]
    && (if Has(before, Kind.Ingresses, ns, app)
        then LabelsAt(after, Kind.Ingresses, ns, app) == LabelsAt(before, Kind.Ingresses, ns, app)
        else LabelsSet(LabelsAt(after, Kind.Ingresses, ns, app), map[], app, ns, spec.team))
  }

  /** All that a deploy is for. */
  ghost predicate EverythingThere(before: Store, after: Store, spec: Spec, request: Request, m: Manifest,
                                  rs: seq<NaisResource>, settings: Settings)
  {
    && AccountThere(before, after, spec) && BindingThere(after, spec) && ServiceThere(before, after, spec)
    && (m.redis.enabled ==> RedisThere(before, after, spec, m) && RedisServiceThere(before, after, spec))
    && DeploymentThere(before, after, spec, request, m, rs, settings) && SecretThere(before, after, spec, rs)
    && AutoscalerThere(before, after, spec, m)
    && (m.alerts != [] ==> RulesThere(before, after, spec, m))
    && (!m.ingressDisabled ==> IngressThere(before, after, spec, request, m, rs, settings))
  }

  // ---- Each step leaves its object ----

  /** What a step that took place has made of its object. */
  ghost predicate Took(before: Store, after: Store, step: Step) {
    Seen(after, Target(step)) == Effect(step, Seen(before, Target(step)))
  }

  lemma LabelledSets(was: map<string, string>, spec: Spec)
    ensures LabelsSet(Labelled(was, spec), was, spec.application, spec.namespace, spec.team)
  {
    assert "app" != "team" && "app" != "environment" && "team" != "environment" by {
      assert |"app"| == 3 && |"team"| == 4 && |"environment"| == 11;
    }
  }

  lemma AccountLeft(before: Store, after: Store, spec: Spec)
    requires Took(before, after, EnsureServiceAccount(spec))
    ensures AccountThere(before, after, spec)
  {
    LabelledSets(map[], spec);
  }

  lemma BindingLeft(before: Store, after: Store, spec: Spec)
    requires Took(before, after, PutRoleBinding(spec))
    ensures BindingThere(after, spec)
  {
    LabelledSets(map[], spec);
  }

  lemma ServiceLeft(before: Store, after: Store, spec: Spec)
    requires Took(before, after, PutService(spec))
    ensures ServiceThere(before, after, spec)
  {
    LabelledSets(LabelsOf(Seen(before, Target(PutService(spec)))), spec);
  }

  lemma RedisLeft(before: Store, after: Store, spec: Spec, m: Manifest, parses: string -> bool)
    requires WantedRedis(parses, spec, m).Success?
    requires Took(before, after, PutRedisDeployment(spec, WantedRedis(parses, spec, m)))
    ensures RedisThere(before, after, spec, m)
  {
    RedisDefaultsFillGaps(m.redis);
    LabelledSets(LabelsOf(Seen(before, Target(PutRedisService(spec)).(kind := Deployments))), spec.Redis());
  }

  lemma RedisServiceLeft(before: Store, after: Store, spec: Spec)
    requires Took(before, after, PutRedisService(spec))
    ensures RedisServiceThere(before, after, spec)
  {
    LabelledSets(LabelsOf(Seen(before, Target(PutRedisService(spec)))), spec.Redis());
  }

  lemma DeploymentLeft(before: Store, after: Store, spec: Spec, d: DeploymentSpec, request: Request, m: Manifest,
                       rs: seq<NaisResource>, settings: Settings)
    requires Took(before, after, PutDeployment(spec, Success(d))) && Wanted(d, spec, request, m, rs, settings)
    ensures DeploymentThere(before, after, spec, request, m, rs, settings)
  {
    LabelledSets(LabelsOf(Seen(before, DeploymentKey(spec))), spec);
  }

  lemma NothingToHold(rs: seq<NaisResource>, data: map<string, string>)
    requires Secrets.Holds(data, rs)
    ensures data == map[] <==> forall e :: !Secrets.Confidential(rs, e)
  {
    if data != map[] {
      var key :| key in data;
    }
  }

  lemma SecretLeft(before: Store, after: Store, spec: Spec, data: map<string, string>, rs: seq<NaisResource>)
    requires Took(before, after, PutSecret(spec, data)) && Secrets.Holds(data, rs)
    ensures SecretThere(before, after, spec, rs)
  {
    NothingToHold(rs, data);
    LabelledSets(LabelsOf(Seen(before, SecretKey(spec.namespace, spec.ResourceName()))), spec);
  }

  lemma AutoscalerLeft(before: Store, after: Store, spec: Spec, m: Manifest)
    requires Took(before, after, PutAutoscaler(spec, m.replicas))
    ensures AutoscalerThere(before, after, spec, m)
  {
    Int32Spelled(m.replicas.min);
    Int32Spelled(m.replicas.max);
    Int32Spelled(m.replicas.cpuThresholdPercentage);
    LabelledSets(LabelsOf(Seen(before, Target(PutAutoscaler(spec, m.replicas)))), spec);
  }

  lemma Int32Spelled(i: int)
    ensures IsInt32Of(Int32(i), i)
  {
    var q := (i + 0x8000_0000) / 0x1_0000_0000;
    assert Int32(i) - i == -q * 0x1_0000_0000;
  }

  lemma GroupWritten(spec: Spec, team: string, alerts: seq<AlertRule>)
    ensures var group := Group(spec, team, alerts);
            && group.name == spec.team + "-" + spec.application + "-" + spec.namespace
            && forall i :: 0 <= i < |alerts| ==> RuleWritten(group.rules[i], alerts[i], spec, team)
  {
  }

  lemma RulesLeft(before: Store, after: Store, spec: Spec, m: Manifest)
    requires Took(before, after, PutRules(spec, Group(spec, m.team, m.alerts)))
    ensures RulesThere(before, after, spec, m)
  {
    GroupWritten(spec, m.team, m.alerts);
    var files, file := FilesOf(Seen(before, RULES_KEY)), spec.RuleFile();
    assert files[file := Yaml(Group(spec, m.team, m.alerts))] - {file} == files - {file};
  }

  lemma IngressLeft(before: Store, after: Store, spec: Spec, request: Request, m: Manifest, rs: seq<NaisResource>,
                    settings: Settings)
    requires Took(before, after,
             PutIngress(spec, m.livenessPath, Ingresses.Rules(spec, request, settings.subdomain, rs)))
    ensures IngressThere(before, after, spec, request, m, rs, settings)
  {
    Ingresses.RulesAreRight(spec, request, settings.subdomain, rs);
    LabelledSets(map[], spec);
  }

  // ---- A completed deploy leaves everything ----

  ghost predicate AllTook(before: Store, after: Store, plan: seq<Step>) {
    forall step :: step in plan ==> Took(before, after, step)
  }

  lemma {:induction false} StepTook(w: World, plan: seq<Step>, step: Step)
    requires Versioned(w.store) && TargetsDistinct(plan) && Completed(plan, RunPlan(w, plan).1)
    requires step in plan && !IsDrop(step)
    ensures Took(w.store, RunPlan(w, plan).0.store, step)
  {
    var i :| 0 <= i < |plan| && plan[i] == step;
    RunEffect(w, plan, Target(step));
    assert !Stops(plan[i], RunPlan(w, plan).1[i]);
  }

  lemma {:induction false} StepsTook(w: World, plan: seq<Step>)
    requires Versioned(w.store) && TargetsDistinct(plan) && Completed(plan, RunPlan(w, plan).1)
    requires forall step :: step in plan ==> !IsDrop(step)
    ensures AllTook(w.store, RunPlan(w, plan).0.store, plan)
  {
    forall step | step in plan ensures Took(w.store, RunPlan(w, plan).0.store, step) {
      StepTook(w, plan, step);
    }
  }

  lemma DeployDropsNothing(spec: Spec, inputs: Inputs)
    ensures forall step :: step in DeployPlan(spec, inputs) ==> !IsDrop(step)
  {
  }

  lemma IdentityLeft(before: Store, after: Store, spec: Spec)
    requires AllTook(before, after, IdentityPuts(spec))
    ensures AccountThere(before, after, spec) && BindingThere(after, spec) && ServiceThere(before, after, spec)
  {
    var identity := IdentityPuts(spec);
    assert identity[0] in identity && identity[1] in identity && identity[2] in identity;
    AccountLeft(before, after, spec);
    BindingLeft(before, after, spec);
    ServiceLeft(before, after, spec);
  }

  lemma RedisBothLeft(before: Store, after: Store, spec: Spec, m: Manifest, parses: string -> bool)
    requires m.redis.enabled && WantedRedis(parses, spec, m).Success?
    requires AllTook(before, after, RedisPuts(spec, true, WantedRedis(parses, spec, m)))
    ensures RedisThere(before, after, spec, m) && RedisServiceThere(before, after, spec)
  {
    var redis := RedisPuts(spec, true, WantedRedis(parses, spec, m));
    assert redis[0] in redis && redis[1] in redis;
    RedisLeft(before, after, spec, m, parses);
    RedisServiceLeft(before, after, spec);
  }

  lemma DataLeft(before: Store, after: Store, spec: Spec, data: map<string, string>, m: Manifest, rs: seq<NaisResource>)
    requires AllTook(before, after, DataPuts(spec, data, m.replicas)) && Secrets.Holds(data, rs)
    ensures SecretThere(before, after, spec, rs) && AutoscalerThere(before, after, spec, m)
  {
    var puts := DataPuts(spec, data, m.replicas);
    assert puts[0] in puts && puts[1] in puts;
    SecretLeft(before, after, spec, data, rs);
    AutoscalerLeft(before, after, spec, m);
  }

  lemma ExposureLeft(before: Store, after: Store, spec: Spec, request: Request, m: Manifest, rs: seq<NaisResource>,
                     settings: Settings)
    requires AllTook(before, after, ExposurePuts(spec, m, Ingresses.Rules(spec, request, settings.subdomain, rs)))
    ensures m.alerts != [] ==> RulesThere(before, after, spec, m)
    ensures !m.ingressDisabled ==> IngressThere(before, after, spec, request, m, rs, settings)
  {
    var rules := Ingresses.Rules(spec, request, settings.subdomain, rs);
    var puts := ExposurePuts(spec, m, rules);
    if m.alerts != [] {
      assert puts[0] in puts && puts[0] == PutRules(spec, Group(spec, m.team, m.alerts));
      RulesLeft(before, after, spec, m);
    }
    if !m.ingressDisabled {
      assert puts[|puts| - 1] in puts && puts[|puts| - 1] == PutIngress(spec, m.livenessPath, rules);
      IngressLeft(before, after, spec, request, m, rs, settings);
    }
  }

  lemma {:induction false} TookInParts(before: Store, after: Store, a: seq<Step>, b: seq<Step>, c: seq<Step>,
                                       d: seq<Step>, e: seq<Step>)
    requires AllTook(before, after, a + b + c + d + e)
    ensures AllTook(before, after, a) && AllTook(before, after, b) && AllTook(before, after, c)
    ensures AllTook(before, after, d) && AllTook(before, after, e)
  {
    var plan := a + b + c + d + e;
    assert forall step :: step in a || step in b || step in c || step in d || step in e ==> step in plan;
  }

  lemma AllPartsTook(before: Store, after: Store, spec: Spec, inputs: Inputs)
    requires AllTook(before, after, DeployPlan(spec, inputs))
    ensures var m := inputs.manifest;
            && AllTook(before, after, IdentityPuts(spec))
            && AllTook(before, after, RedisPuts(spec, m.redis.enabled, inputs.redis))
            && Took(before, after, PutDeployment(spec, inputs.wanted))
            && AllTook(before, after, DataPuts(spec, inputs.data, m.replicas))
            && AllTook(before, after, ExposurePuts(spec, m, inputs.ingressRules))
  {
    var m := inputs.manifest;
    TookInParts(before, after, IdentityPuts(spec), RedisPuts(spec, m.redis.enabled, inputs.redis),
                [PutDeployment(spec, inputs.wanted)], DataPuts(spec, inputs.data, m.replicas),
                ExposurePuts(spec, m, inputs.ingressRules));
    assert PutDeployment(spec, inputs.wanted) in [PutDeployment(spec, inputs.wanted)];
  }

  lemma TookMeansThere(before: Store, after: Store, spec: Spec, inputs: Inputs, request: Request, m: Manifest,
                       rs: seq<NaisResource>, settings: Settings)
    requires AllTook(before, after, DeployPlan(spec, inputs)) && Convergence.AllWorkedOut(inputs)
    requires RightInputs(inputs, spec, request, m, rs, settings) && Secrets.Holds(inputs.data, rs)
    ensures EverythingThere(before, after, spec, request, m, rs, settings)
  {
    AllPartsTook(before, after, spec, inputs);
    IdentityLeft(before, after, spec);
    if m.redis.enabled {
      RedisBothLeft(before, after, spec, m, settings.parses);
    }
    DeploymentLeft(before, after, spec, inputs.wanted.value, request, m, rs, settings);
    DataLeft(before, after, spec, inputs.data, m, rs);
    ExposureLeft(before, after, spec, request, m, rs, settings);
  }

  /** From any store and under any faults: a deploy that got through has left everything it is for. */
  lemma CompletedDeployLeavesEverything(w: World, spec: Spec, inputs: Inputs, request: Request, m: Manifest,
                                        rs: seq<NaisResource>, settings: Settings)
    requires Finished(w, spec, inputs, request, m, rs, settings)
    ensures EverythingThere(w.store, StoreAfter(w, spec, inputs), spec, request, m, rs, settings)
  {
    DeployTargetsDistinct(spec, inputs);
    DeployDropsNothing(spec, inputs);
    StepsTook(w, DeployPlan(spec, inputs));
    FinishedFacts(w, spec, inputs, request, m, rs, settings);
    Convergence.CompletedDeployHadSpec(w, spec, inputs);
    TookMeansThere(w.store, StoreAfter(w, spec, inputs), spec, inputs, request, m, rs, settings);
  }
}
