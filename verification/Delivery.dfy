/** What a completed deploy leaves in the cluster: a Deployment whose variables and volumes find their secrets. */
module Delivery {

  import opened Wrappers
  import opened Text
  import opened App
  import opened NaisResources
  import opened Environment
  import opened Manifests
  import opened PodSpecs
  import opened Kubernetes
  import opened Steps
  import opened Deploys
  import Runs
  import Convergence
  import Secrets
  import ProxyOptions

  function SecretKey(namespace: string, name: string): Key {
    Key(Kind.Secrets, namespace, name)
  }

  /** The data of a Secret in the store. */
  function DataAt(s: Store, key: Key): map<string, string> {
    if key in s.objects && s.objects[key].content.body.Secret? then s.objects[key].content.body.data else map[]
  }

  lemma {:induction false} LandsInStore(w: World, plan: seq<Step>, i: nat)
    requires Versioned(w.store) && Runs.TargetsDistinct(plan) && i < |plan|
    requires Completed(plan, RunPlan(w, plan).1) && (plan[i].PutDeployment? || plan[i].PutSecret?)
    ensures Runs.Seen(RunPlan(w, plan).0.store, Target(plan[i])) ==
            Runs.Effect(plan[i], Runs.Seen(w.store, Target(plan[i])))
  {
    Runs.RunEffect(w, plan, Target(plan[i]));
    assert !Stops(plan[i], RunPlan(w, plan).1[i]);
  }

  /** The store has the Deployment, and the Secret if there is anything to put in it. */
  ghost predicate Deployed(s: Store, spec: Spec, d: DeploymentSpec, data: map<string, string>) {
    && DeploymentKey(spec) in s.objects
    && s.objects[DeploymentKey(spec)].content.body.Deployment?
    && s.objects[DeploymentKey(spec)].content.body.spec == d
    && (data != map[] ==> DataAt(s, SecretKey(spec.namespace, spec.ResourceName())) == data)
  }

  lemma HasDeployment(s: Store, spec: Spec, d: DeploymentSpec, existing: Option<Content>)
    requires Runs.Seen(s, DeploymentKey(spec)) == Runs.Effect(PutDeployment(spec, Success(d)), existing)
    ensures DeploymentKey(spec) in s.objects && s.objects[DeploymentKey(spec)].content.body.Deployment?
    ensures s.objects[DeploymentKey(spec)].content.body.spec == d
  {
  }

  lemma HasSecret(s: Store, spec: Spec, data: map<string, string>, existing: Option<Content>)
    requires Runs.Seen(s, SecretKey(spec.namespace, spec.ResourceName())) ==
             Runs.Effect(PutSecret(spec, data), existing)
    ensures data != map[] ==> DataAt(s, SecretKey(spec.namespace, spec.ResourceName())) == data
  {
  }

  lemma {:induction false} CompletedPutsBoth(w: World, plan: seq<Step>, i: nat, spec: Spec, d: DeploymentSpec,
                                             data: map<string, string>)
    requires Versioned(w.store) && Runs.TargetsDistinct(plan) && Completed(plan, RunPlan(w, plan).1)
    requires i + 1 < |plan| && plan[i] == PutDeployment(spec, Success(d)) && plan[i + 1] == PutSecret(spec, data)
    ensures Deployed(RunPlan(w, plan).0.store, spec, d, data)
  {
    var s := RunPlan(w, plan).0.store;
    LandsInStore(w, plan, i);
    HasDeployment(s, spec, d, Runs.Seen(w.store, DeploymentKey(spec)));
    LandsInStore(w, plan, i + 1);
    HasSecret(s, spec, data, Runs.Seen(w.store, SecretKey(spec.namespace, spec.ResourceName())));
  }

  lemma DeployedState(w: World, spec: Spec, inputs: Inputs)
    requires Versioned(w.store) && Completed(DeployPlan(spec, inputs), RunPlan(w, DeployPlan(spec, inputs)).1)
    ensures inputs.wanted.Success?
    ensures Deployed(RunPlan(w, DeployPlan(spec, inputs)).0.store, spec, inputs.wanted.value, inputs.data)
  {
    Convergence.CompletedDeployHadSpec(w, spec, inputs);
    Runs.DeployTargetsDistinct(spec, inputs);
    var i := Convergence.PlacesOfDeployments(spec, inputs);
    CompletedPutsBoth(w, DeployPlan(spec, inputs), i, spec, inputs.wanted.value, inputs.data);
  }

  // ---- The variables of the container ----

  /** The variables of the first container of the application's stored Deployment. */
  function MainEnv(s: Store, spec: Spec): seq<EnvVar> {
    if DeploymentKey(spec) in s.objects && s.objects[DeploymentKey(spec)].content.body.Deployment? &&
       |s.objects[DeploymentKey(spec)].content.body.spec.pod.containers| > 0
    then s.objects[DeploymentKey(spec)].content.body.spec.pod.containers[0].env else []
  }

  /** The variables that are always there and those of the entries, and what was appended to them. */
  ghost predicate Splits(env: seq<EnvVar>, vars: seq<EnvVar>, base: seq<EnvVar>, appended: seq<EnvVar>, spec: Spec,
                         rs: seq<NaisResource>)
  {
    && env == vars + appended && Lists(vars, spec, base, rs) && NamesDistinct(vars)
    && (forall v :: v in base || v in appended ==> v.value.Literal?)
  }

  lemma ProxyTextsAreLiteral(url: string, noProxy: string, javaOptions: string)
    ensures forall v :: v in ProxyTexts(url, noProxy, javaOptions) ==> v.value.Literal?
  {
  }

  lemma AppendedIsLiteral(m: Manifest, settings: Settings)
    requires ProxyUsable(m, settings)
    ensures forall v :: v in Appended(m, settings) ==> v.value.Literal?
  {
    if m.webproxy {
      var url := GetEnvDualCase(settings.environ, "NAIS_POD_HTTP_PROXY");
      var noProxy := GetEnvDualCase(settings.environ, "NAIS_POD_NO_PROXY");
      ProxyTextsAreLiteral(url, noProxy,
                           ProxyOptions.FormatText(ProxyOptions.Options(settings.parseUrl, url, noProxy).value));
    }
  }

  lemma MainEnvSplits(pod: PodSpec, spec: Spec, request: Request, m: Manifest, rs: seq<NaisResource>,
                      settings: Settings)
    returns (vars: seq<EnvVar>)
    requires NamesClear(spec, request, m, rs) && RightPod(pod, spec, request, m, rs, settings)
    ensures |pod.containers| > 0
    ensures Splits(pod.containers[0].env, vars, BaseVariables(spec, request, m.redis.enabled), Appended(m, settings),
            spec, rs)
  {
    var order := RightPodRuns(pod, spec, request, m, rs, settings);
    var base := BaseVariables(spec, request, m.redis.enabled);
    vars := base + Variables(spec, rs, order);
    BaseNamesDistinct(spec, request, m.redis.enabled);
    ListedNamesDistinct(spec, base, rs, order);
    BaseIsLiteral(spec, request, m.redis.enabled);
    AppendedIsLiteral(m, settings);
  }

  /** Nothing that was appended has the name of an entry. */
  ghost predicate AppendedApart(m: Manifest, rs: seq<NaisResource>, settings: Settings)
    requires ProxyUsable(m, settings)
  {
    forall e, v :: IsEntry(rs, e) && v in Appended(m, settings) ==> VariableName(rs, e) != v.name
  }

  /** The names of all the container's variables are distinct exactly when no entry is called like a proxy variable or,
      with a leader elector, ELECTOR_PATH. */
  lemma ContainerNames(pod: PodSpec, spec: Spec, request: Request, m: Manifest, rs: seq<NaisResource>,
                       settings: Settings)
    requires NamesClear(spec, request, m, rs) && RightPod(pod, spec, request, m, rs, settings)
    ensures |pod.containers| > 0
    ensures NamesDistinct(pod.containers[0].env) <==> AppendedApart(m, rs, settings)
  {
    var base := BaseVariables(spec, request, m.redis.enabled);
    var vars := MainEnvSplits(pod, spec, request, m, rs, settings);
    var proxy := if m.webproxy then ProxyVariables(settings.parseUrl, settings.environ).value else [];
    var elector := if m.leaderElection then [ELECTOR_PATH] else [];
    if m.webproxy {
      Secrets.ProxyVariableNames(settings.parseUrl, settings.environ);
    }
    Secrets.BaseIsBaseLike(spec, request, m.redis.enabled);
    NamesOfAll(vars, spec, base, rs, proxy, elector);
  }

  lemma NamesOfAll(vars: seq<EnvVar>, spec: Spec, base: seq<EnvVar>, rs: seq<NaisResource>, proxy: seq<EnvVar>,
                   elector: seq<EnvVar>)
    requires Lists(vars, spec, base, rs) && NamesDistinct(vars) && NamesDistinct(proxy) &&
             elector in {[], [ELECTOR_PATH]}
    requires (forall u :: u in base ==> Secrets.BaseLike(u.name)) && forall v :: v in proxy ==>
             Secrets.ProxyLike(v.name)
    ensures NamesDistinct(vars + (proxy + elector)) <==>
            forall e, v :: IsEntry(rs, e) && v in proxy + elector ==> VariableName(rs, e) != v.name
  {
    assert Secrets.Begins(ELECTOR_PATH.name, 'E', 'L');
    Secrets.LikesDiffer(base, proxy);
    Secrets.AppendedNames(vars, spec, base, rs, proxy, elector);
  }

  // ---- After a completed deploy ----

  /** A deploy that got through, and what it worked out. */
  ghost predicate Finished(w: World, spec: Spec, inputs: Inputs, request: Request, m: Manifest, rs: seq<NaisResource>,
                           settings: Settings)
  {
    && Versioned(w.store) && RightInputs(inputs, spec, request, m, rs, settings)
    && Completed(DeployPlan(spec, inputs), RunPlan(w, DeployPlan(spec, inputs)).1)
  }

  function StoreAfter(w: World, spec: Spec, inputs: Inputs): Store {
    RunPlan(w, DeployPlan(spec, inputs)).0.store
  }

  lemma FinishedFacts(w: World, spec: Spec, inputs: Inputs, request: Request, m: Manifest, rs: seq<NaisResource>,
                      settings: Settings)
    requires Finished(w, spec, inputs, request, m, rs, settings)
    ensures inputs.wanted.Success? && Deployed(StoreAfter(w, spec, inputs), spec, inputs.wanted.value, inputs.data)
    ensures NamesClear(spec, request, m, rs) && RightPod(inputs.wanted.value.pod, spec, request, m, rs, settings)
    ensures Secrets.Holds(inputs.data, rs)
  {
    DeployedState(w, spec, inputs);
    Secrets.DistinctEntriesHaveDistinctReferences(BaseVariables(spec, request, m.redis.enabled), rs);
    Secrets.LastWinsHolds(inputs.data, rs);
  }

  /** After a completed deploy no variable of the application's container points to a Secret, or a key of one, that is
      not in the store. */
  lemma DeployedReferencesResolve(w: World, spec: Spec, inputs: Inputs, request: Request, m: Manifest,
                                  rs: seq<NaisResource>, settings: Settings, v: EnvVar)
    requires Finished(w, spec, inputs, request, m, rs, settings)
    requires v in MainEnv(StoreAfter(w, spec, inputs), spec) && v.value.SecretKeyRef?
    ensures v.value.key in DataAt(StoreAfter(w, spec, inputs), SecretKey(spec.namespace, v.value.secretName))
  {
    FinishedFacts(w, spec, inputs, request, m, rs, settings);
    var base, appended := BaseVariables(spec, request, m.redis.enabled), Appended(m, settings);
    var vars := MainEnvSplits(inputs.wanted.value.pod, spec, request, m, rs, settings);
    ReferenceIsHeld(inputs.wanted.value.pod.containers[0].env, vars, base, appended, spec, rs, inputs.data, v);
  }

  lemma ReferenceIsHeld(env: seq<EnvVar>, vars: seq<EnvVar>, base: seq<EnvVar>, appended: seq<EnvVar>, spec: Spec,
                        rs: seq<NaisResource>, data: map<string, string>, v: EnvVar)
    requires Splits(env, vars, base, appended, spec, rs) && Secrets.Holds(data, rs) && v in env && v.value.SecretKeyRef?
    ensures v.value.secretName == spec.ResourceName() && v.value.key in data
  {
    Secrets.NoDanglingReference(vars, spec, base, rs, data, v);
  }

  ghost predicate ReferenceIsAt(env: seq<EnvVar>, i: nat, name: string, secretName: string, key: string) {
    && i < |env| && env[i] == EnvVar(name, SecretKeyRef(secretName, key))
    && forall j :: 0 <= j < |env| && env[j].value.SecretKeyRef? && env[j].value.key == key ==> j == i
  }

  /** The variable `name`, and no other, refers to `key`. */
  ghost predicate RefersOnlyAt(env: seq<EnvVar>, name: string, secretName: string, key: string) {
    exists i: nat :: ReferenceIsAt(env, i, name, secretName, key)
  }

  /** No two variables are called `name`. */
  predicate NamedOnce(env: seq<EnvVar>, name: string) {
    forall i, j :: 0 <= i < |env| && 0 <= j < |env| && env[i].name == name && env[j].name == name ==> i == j
  }

  /** The variable of an entry shares its name with no other exactly when no appended one is called like it. */
  ghost predicate NameClear(env: seq<EnvVar>, m: Manifest, settings: Settings, name: string) {
    ProxyUsable(m, settings) && (NamedOnce(env, name) <==> forall v :: v in Appended(m, settings) ==> v.name != name)
  }

  /** One variable refers to the secret's key, and the stored Secret has its value there. */
  ghost predicate SecretDelivered(s: Store, spec: Spec, rs: seq<NaisResource>, e: Entry)
    requires IsEntry(rs, e) && e.kind == EntryKind.Secret
  {
    var key, data := Reference(rs, e), DataAt(s, SecretKey(spec.namespace, spec.ResourceName()));
    && RefersOnlyAt(MainEnv(s, spec), VariableName(rs, e), spec.ResourceName(), key)
    && key in data && data[key] == rs[e.resource].secret[e.key]
  }

  /** A variable holds the certificate's path, a mounted volume of the stored Deployment shows the Secret's key there,
      and the key holds the certificate. */
  ghost predicate CertificateDelivered(s: Store, spec: Spec, rs: seq<NaisResource>, e: Entry)
    requires IsEntry(rs, e) && e.kind == Certificate
  {
    var file, data := Reference(rs, e), DataAt(s, SecretKey(spec.namespace, spec.ResourceName()));
    && EnvVar(VariableName(rs, e), Literal("/var/run/secrets/naisd.io/" + file)) in MainEnv(s, spec)
    && DeploymentKey(spec) in s.objects && s.objects[DeploymentKey(spec)].content.body.Deployment?
    && FileIn(s.objects[DeploymentKey(spec)].content.body.spec.pod, spec.ResourceName(), file)
    && file in data && data[file] == rs[e.resource].certificates[e.key]
  }

  /** After a completed deploy each secret of a resource reaches the container, under the name it ought to have; no
      other variable has that name exactly when no appended one does. */
  lemma DeployedSecretReachesContainer(w: World, spec: Spec, inputs: Inputs, request: Request, m: Manifest,
                                       rs: seq<NaisResource>, settings: Settings, e: Entry)
    requires Finished(w, spec, inputs, request, m, rs, settings)
    requires IsEntry(rs, e) && e.kind == EntryKind.Secret
    ensures SecretDelivered(StoreAfter(w, spec, inputs), spec, rs, e)
    ensures NameClear(MainEnv(StoreAfter(w, spec, inputs), spec), m, settings, VariableName(rs, e))
  {
    FinishedFacts(w, spec, inputs, request, m, rs, settings);
    var base, appended := BaseVariables(spec, request, m.redis.enabled), Appended(m, settings);
    var vars := MainEnvSplits(inputs.wanted.value.pod, spec, request, m, rs, settings);
    SecretVariable(inputs.wanted.value.pod.containers[0].env, vars, base, appended, spec, rs, inputs.data, e);
    EntryNamedOnce(inputs.wanted.value.pod.containers[0].env, vars, base, appended, spec, rs, e);
  }

  lemma SecretVariable(env: seq<EnvVar>, vars: seq<EnvVar>, base: seq<EnvVar>, appended: seq<EnvVar>, spec: Spec,
                       rs: seq<NaisResource>, data: map<string, string>, e: Entry)
    requires Splits(env, vars, base, appended, spec, rs) && Secrets.Holds(data, rs)
    requires IsEntry(rs, e) && e.kind == EntryKind.Secret
    ensures RefersOnlyAt(env, VariableName(rs, e), spec.ResourceName(), Reference(rs, e))
    ensures Reference(rs, e) in data && data[Reference(rs, e)] == Value(rs, e)
  {
    Secrets.SecretAgreement(vars, spec, base, rs, data, e);
    var i: nat :| Secrets.OnlyAt(vars, i, VariableName(rs, e)) &&
                  vars[i].value == SecretKeyRef(spec.ResourceName(), Reference(rs, e)) &&
                  forall j :: 0 <= j < |vars| && SameKey(vars[j].value, vars[i].value) ==> j == i;
    assert ReferenceIsAt(env, i, VariableName(rs, e), spec.ResourceName(), Reference(rs, e)) by {
      forall j | 0 <= j < |env| && env[j].value.SecretKeyRef? && env[j].value.key == Reference(rs, e) ensures j == i {
        assert env[j] !in appended && env[j] in env;
        assert SameKey(vars[j].value, vars[i].value);
      }
    }
  }

  lemma EntryNamedOnce(env: seq<EnvVar>, vars: seq<EnvVar>, base: seq<EnvVar>, appended: seq<EnvVar>, spec: Spec,
                       rs: seq<NaisResource>, e: Entry)
    requires Splits(env, vars, base, appended, spec, rs) && IsEntry(rs, e)
    ensures Variable(spec, rs, e) in vars
    ensures NamedOnce(env, VariableName(rs, e)) <==> forall v :: v in appended ==> v.name != VariableName(rs, e)
  {
    Secrets.EntryIsListed(vars, spec, base, rs, e);
    var i :| 0 <= i < |vars| && vars[i] == Variable(spec, rs, e);
    NamedOnceAmong(env, vars, appended, i, VariableName(rs, e));
  }

  lemma NamedOnceAmong(env: seq<EnvVar>, vars: seq<EnvVar>, appended: seq<EnvVar>, i: nat, name: string)
    requires env == vars + appended && NamesDistinct(vars) && i < |vars| && vars[i].name == name
    ensures NamedOnce(env, name) <==> forall v :: v in appended ==> v.name != name
  {
    assert env[i] == vars[i];
    if NamedOnce(env, name) {
      forall v | v in appended ensures v.name != name {
        var j :| 0 <= j < |appended| && appended[j] == v;
        assert env[|vars| + j] == v;
      }
    }
  }

  /** After a completed deploy each certificate of a resource reaches the container as a file; no other variable has the
      name of its variable exactly when no appended one does. */
  lemma DeployedCertificateReachesContainer(w: World, spec: Spec, inputs: Inputs, request: Request, m: Manifest,
                                            rs: seq<NaisResource>, settings: Settings, e: Entry)
    requires Finished(w, spec, inputs, request, m, rs, settings)
    requires IsEntry(rs, e) && e.kind == Certificate
    ensures CertificateDelivered(StoreAfter(w, spec, inputs), spec, rs, e)
    ensures NameClear(MainEnv(StoreAfter(w, spec, inputs), spec), m, settings, VariableName(rs, e))
  {
    FinishedFacts(w, spec, inputs, request, m, rs, settings);
    var pod := inputs.wanted.value.pod;
    var base, appended := BaseVariables(spec, request, m.redis.enabled), Appended(m, settings);
    var vars := MainEnvSplits(pod, spec, request, m, rs, settings);
    EntryNamedOnce(pod.containers[0].env, vars, base, appended, spec, rs, e);
    assert Variable(spec, rs, e) in pod.containers[0].env;
    assert Secrets.Confidential(rs, e);
    CertificateFile(pod, spec, request, m, rs, settings, e);
  }

  lemma CertificateFile(pod: PodSpec, spec: Spec, request: Request, m: Manifest, rs: seq<NaisResource>,
                        settings: Settings, e: Entry)
    requires RightPod(pod, spec, request, m, rs, settings) && IsEntry(rs, e) && e.kind == Certificate
    ensures FileIn(pod, spec.ResourceName(), Reference(rs, e))
  {
    assert |rs[e.resource].certificates| > 0 by {
      assert e.key in rs[e.resource].certificates.Keys;
    }
    RightPodProjects(pod, spec, request, m, rs, settings);
    var v :| v in pod.volumes && v.name == Secrets.ValidLabelName(spec.ResourceName()) &&
             v.source.SecretVolume? && v.source.secretName == spec.ResourceName() &&
                 Secrets.Projects(v.source.items, rs);
    Secrets.CertificateIsProjected(v.source.items, rs, e);
  }

  /** A volume that the first container mounts at the common root, and that shows the key `file` of a Secret as the file
      of that name. */
  ghost predicate FileIn(pod: PodSpec, secretName: string, file: string) {
    exists v :: v in pod.volumes && v.source.SecretVolume? && v.source.secretName == secretName &&
                Secrets.KeyToPath(file, file) in v.source.items &&
                |pod.containers| > 0 &&
                Secrets.VolumeMount(v.name, "/var/run/secrets/naisd.io/") in pod.containers[0].mounts
  }

  /** After a completed deploy each property of a resource reaches the container under the name it ought to have; no
      other variable has that name exactly when no appended one does. */
  lemma DeployedPropertyReachesContainer(w: World, spec: Spec, inputs: Inputs, request: Request, m: Manifest,
                                         rs: seq<NaisResource>, settings: Settings, e: Entry)
    requires Finished(w, spec, inputs, request, m, rs, settings)
    requires IsEntry(rs, e) && e.kind == Property
    ensures SaysLiteral(MainEnv(StoreAfter(w, spec, inputs), spec), VariableName(rs, e),
            rs[e.resource].properties[e.key])
    ensures NameClear(MainEnv(StoreAfter(w, spec, inputs), spec), m, settings, VariableName(rs, e))
  {
    FinishedFacts(w, spec, inputs, request, m, rs, settings);
    var env := inputs.wanted.value.pod.containers[0].env;
    var base, appended := BaseVariables(spec, request, m.redis.enabled), Appended(m, settings);
    var vars := MainEnvSplits(inputs.wanted.value.pod, spec, request, m, rs, settings);
    EntryNamedOnce(env, vars, base, appended, spec, rs, e);
    Secrets.PropertyAgreement(vars, spec, base, rs, e);
    assert forall v :: v in vars ==> v in env;
  }

  // ---- The variables that do not come from resources ----

  /** The variables every application gets. */
  predicate SaysDefaults(env: seq<EnvVar>, spec: Spec, request: Request, m: Manifest) {
    && SaysLiteral(env, "APP_NAME", request.application) && SaysLiteral(env, "APP_VERSION", request.version)
    && SaysLiteral(env, "APP_ENVIRONMENT", request.namespace) && SaysLiteral(env, "NAIS_NAMESPACE", request.namespace)
    && SaysLiteral(env, "NAIS_APP_NAME", request.application) && SaysLiteral(env, "NAIS_APP_IMAGE", request.version)
    && SaysLiteral(env, "NAIS_CLUSTER_NAME", request.clusterName)
    && (!request.skipFasit ==> SaysLiteral(env, "FASIT_ENVIRONMENT_NAME", request.fasitEnvironment))
    && (m.redis.enabled ==> SaysLiteral(env, "REDIS_HOST", "rfs-" + spec.application))
    && (m.leaderElection ==> SaysLiteral(env, "ELECTOR_PATH", "localhost:4040"))
  }

  lemma BaseSaysDefaults(spec: Spec, request: Request, redisEnabled: bool)
    ensures var env := BaseVariables(spec, request, redisEnabled);
            && SaysLiteral(env, "APP_NAME", request.application) && SaysLiteral(env, "APP_VERSION", request.version)
            && SaysLiteral(env, "APP_ENVIRONMENT", request.namespace)
            && SaysLiteral(env, "NAIS_NAMESPACE", request.namespace)
            && SaysLiteral(env, "NAIS_APP_NAME", request.application)
            && SaysLiteral(env, "NAIS_APP_IMAGE", request.version)
            && SaysLiteral(env, "NAIS_CLUSTER_NAME", request.clusterName)
            && (!request.skipFasit ==> SaysLiteral(env, "FASIT_ENVIRONMENT_NAME", request.fasitEnvironment))
            && (redisEnabled ==> SaysLiteral(env, "REDIS_HOST", "rfs-" + spec.application))
    ensures |BaseVariables(spec, request, redisEnabled)| ==
            7 + (if request.skipFasit then 0 else 1) + (if redisEnabled then 1 else 0)
  {
  }

  /** After a completed deploy the container knows the application, its version, its place, and Redis and the elector if
      it has them. */
  lemma DeployedDefaultsReachContainer(w: World, spec: Spec, inputs: Inputs, request: Request, m: Manifest,
                                       rs: seq<NaisResource>, settings: Settings)
    requires Finished(w, spec, inputs, request, m, rs, settings)
    ensures SaysDefaults(MainEnv(StoreAfter(w, spec, inputs), spec), spec, request, m)
  {
    FinishedFacts(w, spec, inputs, request, m, rs, settings);
    var order := RightPodRuns(inputs.wanted.value.pod, spec, request, m, rs, settings);
    BaseSaysDefaults(spec, request, m.redis.enabled);
    ElectorIsAppended(m, settings);
  }

  lemma ElectorIsAppended(m: Manifest, settings: Settings)
    requires ProxyUsable(m, settings)
    ensures m.leaderElection ==> SaysLiteral(Appended(m, settings), "ELECTOR_PATH", "localhost:4040")
  {
    if m.leaderElection {
      assert Appended(m, settings)[|Appended(m, settings)| - 1] == ELECTOR_PATH;
    }
  }

  /** The text of a variable of the daemon's environment, which may be written in either case. */
  function EitherCase(environ: map<string, string>, upper: string, lower: string): string {
    if upper in environ then environ[upper] else if lower in environ then environ[lower] else ""
  }

  /** The variables of the web proxy. */
  ghost predicate SaysProxy(env: seq<EnvVar>, settings: Settings) {
    var url := EitherCase(settings.environ, "NAIS_POD_HTTP_PROXY", "nais_pod_http_proxy");
    var noProxy := EitherCase(settings.environ, "NAIS_POD_NO_PROXY", "nais_pod_no_proxy");
    SaysAddresses(env, url, noProxy) && SaysOptions(env, settings, url, noProxy)
  }

  predicate SaysAddresses(env: seq<EnvVar>, url: string, noProxy: string) {
    && (url != "" ==>
          && SaysLiteral(env, "HTTP_PROXY", url) && SaysLiteral(env, "http_proxy", url)
          && SaysLiteral(env, "HTTPS_PROXY", url) && SaysLiteral(env, "https_proxy", url))
    && (noProxy != "" ==> SaysLiteral(env, "NO_PROXY", noProxy) && SaysLiteral(env, "no_proxy", noProxy))
  }

  ghost predicate SaysOptions(env: seq<EnvVar>, settings: Settings, url: string, noProxy: string) {
    (url != "" || noProxy != "") && ProxyOptions.FreeOfSpaces(settings.parseUrl, url, noProxy) ==>
      exists line ::
        && SaysLiteral(env, "JAVA_PROXY_OPTIONS", line) && ProxyOptions.ParseOptions(line).Some?
        && ProxyOptions.PointsTo(ProxyOptions.ParseOptions(line).value, settings.parseUrl, url, noProxy)
  }

  lemma EitherCaseSpelled(environ: map<string, string>)
    ensures GetEnvDualCase(environ, "NAIS_POD_HTTP_PROXY") ==
            EitherCase(environ, "NAIS_POD_HTTP_PROXY", "nais_pod_http_proxy")
    ensures GetEnvDualCase(environ, "NAIS_POD_NO_PROXY") ==
            EitherCase(environ, "NAIS_POD_NO_PROXY", "nais_pod_no_proxy")
  {
    assert ToUpper("NAIS_POD_HTTP_PROXY") == "NAIS_POD_HTTP_PROXY" &&
           ToLower("NAIS_POD_HTTP_PROXY") == "nais_pod_http_proxy";
    assert ToUpper("NAIS_POD_NO_PROXY") == "NAIS_POD_NO_PROXY" && ToLower("NAIS_POD_NO_PROXY") == "nais_pod_no_proxy";
  }

  lemma DualCaseSpelled(value: string)
    ensures DualCase("HTTP_PROXY", value) ==
            [EnvVar("HTTP_PROXY", Literal(value)), EnvVar("http_proxy", Literal(value))]
    ensures DualCase("HTTPS_PROXY", value) ==
            [EnvVar("HTTPS_PROXY", Literal(value)), EnvVar("https_proxy", Literal(value))]
    ensures DualCase("NO_PROXY", value) == [EnvVar("NO_PROXY", Literal(value)), EnvVar("no_proxy", Literal(value))]
  {
    assert ToUpper("HTTP_PROXY") == "HTTP_PROXY" && ToLower("HTTP_PROXY") == "http_proxy";
    assert ToUpper("HTTPS_PROXY") == "HTTPS_PROXY" && ToLower("HTTPS_PROXY") == "https_proxy";
    assert ToUpper("NO_PROXY") == "NO_PROXY" && ToLower("NO_PROXY") == "no_proxy";
  }

  lemma ProxyTextsSay(url: string, noProxy: string, line: string)
    ensures var env := ProxyTexts(url, noProxy, line);
            && SaysAddresses(env, url, noProxy)
            && (line != "" ==> SaysLiteral(env, "JAVA_PROXY_OPTIONS", line))
  {
    DualCaseSpelled(url);
    DualCaseSpelled(noProxy);
  }

  lemma ProxyVariablesSay(settings: Settings)
    requires ProxyVariables(settings.parseUrl, settings.environ).Success?
    ensures SaysProxy(ProxyVariables(settings.parseUrl, settings.environ).value, settings)
  {
    var url := GetEnvDualCase(settings.environ, "NAIS_POD_HTTP_PROXY");
    var noProxy := GetEnvDualCase(settings.environ, "NAIS_POD_NO_PROXY");
    var options := ProxyOptions.Options(settings.parseUrl, url, noProxy).value;
    var line := ProxyOptions.FormatText(options);
    EitherCaseSpelled(settings.environ);
    ProxyTextsSay(url, noProxy, line);
    ProxyOptions.OptionsPointToProxy(settings.parseUrl, url, noProxy);
    ProxyOptions.SomeOptionsSomeText(options);
  }

  /** After a completed deploy that asked for the web proxy, the container has its variables in both cases, and the JVM
      options point to the same proxy. */
  lemma DeployedProxyReachesContainer(w: World, spec: Spec, inputs: Inputs, request: Request, m: Manifest,
                                      rs: seq<NaisResource>, settings: Settings)
    requires Finished(w, spec, inputs, request, m, rs, settings) && m.webproxy
    ensures SaysProxy(MainEnv(StoreAfter(w, spec, inputs), spec), settings)
  {
    FinishedFacts(w, spec, inputs, request, m, rs, settings);
    var order := RightPodRuns(inputs.wanted.value.pod, spec, request, m, rs, settings);
    ProxyVariablesSay(settings);
    MoreSaysMore(ProxyVariables(settings.parseUrl, settings.environ).value,
                 MainEnv(StoreAfter(w, spec, inputs), spec), settings);
  }

  lemma MoreSaysMore(env: seq<EnvVar>, more: seq<EnvVar>, settings: Settings)
    requires SaysProxy(env, settings) && forall v :: v in env ==> v in more
    ensures SaysProxy(more, settings)
  {
    var url := EitherCase(settings.environ, "NAIS_POD_HTTP_PROXY", "nais_pod_http_proxy");
    var noProxy := EitherCase(settings.environ, "NAIS_POD_NO_PROXY", "nais_pod_no_proxy");
    MoreSaysAddresses(env, more, url, noProxy);
    MoreSaysOptions(env, more, settings, url, noProxy);
  }

  lemma MoreSaysAddresses(env: seq<EnvVar>, more: seq<EnvVar>, url: string, noProxy: string)
    requires SaysAddresses(env, url, noProxy) && forall v :: v in env ==> v in more
    ensures SaysAddresses(more, url, noProxy)
  {
  }

  lemma MoreSaysOptions(env: seq<EnvVar>, more: seq<EnvVar>, settings: Settings, url: string, noProxy: string)
    requires SaysOptions(env, settings, url, noProxy) && forall v :: v in env ==> v in more
    ensures SaysOptions(more, settings, url, noProxy)
  {
  }
}
