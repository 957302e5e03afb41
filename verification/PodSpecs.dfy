/** The pod that runs the application: its containers, volumes and mounts. */
module PodSpecs {

  import opened Wrappers
  import opened Text
  import opened App
  import opened NaisResources
  import opened Walks
  import opened Environment
  import opened Secrets
  import opened Manifests
  import ProxyOptions

  datatype Container = Container(
    name: string,
    image: string,
    env: seq<EnvVar>,
    mounts: seq<VolumeMount>,
    resources: ResourceRequirements)

  datatype PodSpec = PodSpec(
    containers: seq<Container>,
    initContainers: seq<Container>,
    volumes: seq<Volume>,
    serviceAccountName: string)

  datatype DeploymentSpec = DeploymentSpec(
    selector: map<string, string>,
    strategy: string,
    annotations: map<string, string>,
    pod: PodSpec)

  /** The vault settings of the daemon's own environment. */
  datatype VaultSettings = VaultSettings(enabled: bool, address: string, initImage: string, authPath: string,
      kvPath: string)

  /** The settings of the daemon itself, and the library functions it relies on. */
  datatype Settings = Settings(
    subdomain: string,
    istioEnabled: bool,
    vault: VaultSettings,
    environ: map<string, string>,
    parseUrl: string -> ProxyOptions.ParsedUrl,
    parses: string -> bool)

  /** A quantity that does not parse is a panic in the daemon; it ends the request like the other two. */
  datatype PodError = BadEnvironment(cause: EnvError) | BadQuantity | VaultIncomplete

  const NO_RESOURCES := ResourceRequirements(NO_LIMITS, NO_LIMITS)
  const VAULT_SECRETS := "vault-secrets"

  // ---- The vault ----

  function Truth(b: bool): string {
    if b then "true" else "false"
  }

  const VAULT_VOLUME := Volume(VAULT_SECRETS, EmptyDir)
  const VAULT_MOUNT := VolumeMount(VAULT_SECRETS, "/var/run/secrets/nais.io/vault")

  function VaultContainer(spec: Spec, vault: VaultSettings, sidecar: bool): Container {
    Container(
      if sidecar then "vks-sidecar" else "vks-init",
      vault.initImage,
      [EnvVar("VKS_VAULT_ADDR", Literal(vault.address)),
       EnvVar("VKS_AUTH_PATH", Literal(vault.authPath)),
       EnvVar("VKS_KV_PATH", Literal(vault.kvPath + "/" + spec.application + "/" + spec.namespace)),
       EnvVar("VKS_VAULT_ROLE", Literal(spec.application)),
       EnvVar("VKS_SECRET_DEST_PATH", Literal(VAULT_MOUNT.mountPath)),
       EnvVar("VKS_IS_SIDECAR", Literal(Truth(sidecar)))],
      [VAULT_MOUNT],
      NO_RESOURCES)
  }

  function WithVaultMount(c: Container, spec: Spec): Container {
    if c.name == spec.application then c.(mounts := c.mounts + [VAULT_MOUNT]) else c
  }

  function Mounted(containers: seq<Container>, spec: Spec): (mounted: seq<Container>)
    ensures |mounted| == |containers|
    ensures forall i :: 0 <= i < |containers| ==> mounted[i] == WithVaultMount(containers[i], spec)
  {
    seq(|containers|, i requires 0 <= i < |containers| => WithVaultMount(containers[i], spec))
  }

  function WithVault(spec: Spec, vault: VaultSettings, sidecar: bool, pod: PodSpec): PodSpec {
    PodSpec(
      Mounted(pod.containers, spec) + (if sidecar then [VaultContainer(spec, vault, true)] else []),
      pod.initContainers + [VaultContainer(spec, vault, false)],
      pod.volumes + [VAULT_VOLUME],
      pod.serviceAccountName)
  }

  /** Mounts the shared volume in every container named as the application, and adds the vault's own containers. */
  method AddVaultContainers(spec: Spec, vault: VaultSettings, sidecar: bool, podSpec: PodSpec) returns (pod: PodSpec)
    ensures pod == WithVault(spec, vault, sidecar, podSpec)
  {
    pod := podSpec.(volumes := podSpec.volumes + [VAULT_VOLUME]);
    var mutatedContainers: seq<Container> := [];
    for i := 0 to |podSpec.containers|
      invariant mutatedContainers == Mounted(podSpec.containers, spec)[..i]
    {
      var container := podSpec.containers[i];
      if container.name == spec.application {
        container := container.(mounts := container.mounts + [VAULT_MOUNT]);
      }
      mutatedContainers := mutatedContainers + [container];
    }
    pod := pod.(containers := mutatedContainers);
    pod := pod.(initContainers := pod.initContainers + [VaultContainer(spec, vault, false)]);
    if sidecar {
      pod := pod.(containers := pod.containers + [VaultContainer(spec, vault, true)]);
    }
  }

  /** Both halves of the vault are on: the daemon's switch and the manifest's. */
  predicate UsesVault(m: Manifest, vault: VaultSettings) {
    vault.enabled && (m.secrets || m.vaultEnabled)
  }

  predicate VaultComplete(vault: VaultSettings) {
    vault.address != "" && vault.initImage != "" && vault.authPath != "" && vault.kvPath != ""
  }

  // ---- What a pod ought to be ----

  const ELECTOR_PATH := EnvVar("ELECTOR_PATH", Literal("localhost:4040"))

  function ElectorContainer(): Container {
    Container("elector", "gcr.io/google_containers/leader-elector:0.5", [], [],
              ResourceRequirements(NO_LIMITS, ResourceList("100m", "")))
  }

  predicate ProxyUsable(m: Manifest, settings: Settings) {
    m.webproxy ==> ProxyVariables(settings.parseUrl, settings.environ).Success?
  }

  /** The variables that are appended without a duplicate check. */
  function Appended(m: Manifest, settings: Settings): seq<EnvVar>
    requires ProxyUsable(m, settings)
  {
    (if m.webproxy then ProxyVariables(settings.parseUrl, settings.environ).value else []) +
    (if m.leaderElection then [ELECTOR_PATH] else [])
  }

  /** The two walks that leave their mark on a pod: over all entries, and over the certificates. */
  datatype Orders = Orders(entries: seq<Entry>, certificates: seq<Entry>)

  ghost predicate Walked(orders: Orders, rs: seq<NaisResource>) {
    Enumerates(orders.entries, rs) && Walk(orders.certificates, rs, CERTIFICATES)
  }

  function MainVariables(spec: Spec, request: Request, m: Manifest, rs: seq<NaisResource>, settings: Settings,
                         order: seq<Entry>)
    : seq<EnvVar>
    requires ProxyUsable(m, settings) && forall e :: e in order ==> IsEntry(rs, e)
  {
    BaseVariables(spec, request, m.redis.enabled) + Variables(spec, rs, order) + Appended(m, settings)
  }

  function CertificateVolume(spec: Spec, rs: seq<NaisResource>, order: seq<Entry>): Volume
    requires forall e :: e in order ==> IsEntry(rs, e)
  {
    Volume(ValidLabelName(spec.ResourceName()), SecretVolume(spec.ResourceName(), Items(rs, order)))
  }

  /** The pod of an application with these variables in its first container and, if there are certificates, this volume.
      */
  function PlainPod(spec: Spec, request: Request, m: Manifest, env: seq<EnvVar>, certificates: Option<Volume>)
      : PodSpec {
    var mounts := if certificates.Some? then [VolumeMount(certificates.value.name, ROOT_MOUNT_POINT)] else [];
    var main := Container(spec.application, m.image + ":" + request.version, env, mounts, m.resources);
    PodSpec([main] + (if m.leaderElection then [ElectorContainer()] else []), [],
            if certificates.Some? then [certificates.value] else [], spec.ResourceName())
  }

  function VaultedPod(spec: Spec, m: Manifest, vault: VaultSettings, pod: PodSpec): PodSpec {
    if UsesVault(m, vault) then WithVault(spec, vault, m.vaultSidecar, pod) else pod
  }

  /** The pod that a deploy makes when its walks take these orders: nothing else is left open. */
  function Pod(spec: Spec, request: Request, m: Manifest, rs: seq<NaisResource>, settings: Settings, orders: Orders)
      : PodSpec
    requires ProxyUsable(m, settings)
    requires forall e :: e in orders.entries || e in orders.certificates ==> IsEntry(rs, e)
  {
    var env := MainVariables(spec, request, m, rs, settings, orders.entries);
    var volume := if HasCertificate(rs) then Some(CertificateVolume(spec, rs, orders.certificates)) else None;
    VaultedPod(spec, m, settings.vault, PlainPod(spec, request, m, env, volume))
  }

  ghost predicate RightPod(pod: PodSpec, spec: Spec, request: Request, m: Manifest, rs: seq<NaisResource>,
                           settings: Settings)
  {
    && ProxyUsable(m, settings)
    && exists orders :: Walked(orders, rs) && pod == Pod(spec, request, m, rs, settings, orders)
  }

  // ---- When there is a pod ----

  ghost predicate NamesClear(spec: Spec, request: Request, m: Manifest, rs: seq<NaisResource>) {
    EntriesDistinct(BaseVariables(spec, request, m.redis.enabled), rs)
  }

  predicate MainQuantitiesParse(m: Manifest, settings: Settings) {
    MustParse(settings.parses, m.resources.requests, m.resources.limits)
  }

  ghost predicate PodPossible(spec: Spec, request: Request, m: Manifest, rs: seq<NaisResource>, settings: Settings) {
    && NamesClear(spec, request, m, rs) && ProxyUsable(m, settings) && MainQuantitiesParse(m, settings)
    && (UsesVault(m, settings.vault) ==> VaultComplete(settings.vault))
  }

  /** The first of the things that stand in the way is the one that is reported. */
  ghost predicate RightError(error: PodError, spec: Spec, request: Request, m: Manifest, rs: seq<NaisResource>,
                             settings: Settings)
  {
    if !NamesClear(spec, request, m, rs) then error.BadEnvironment? && error.cause.Duplicate?
    else if !ProxyUsable(m, settings)
    then error == BadEnvironment(BadProxy(ProxyVariables(settings.parseUrl, settings.environ).error))
    else error == if MainQuantitiesParse(m, settings) then VaultIncomplete else BadQuantity
  }

  // ---- Making it ----

  /** The first container, with the leader elector beside it if there is one. */
  method StartPod(spec: Spec, request: Request, m: Manifest, envVars: seq<EnvVar>) returns (pod: PodSpec)
    ensures pod == PlainPod(spec, request, m, envVars + (if m.leaderElection then [ELECTOR_PATH] else []), None)
  {
    var main := Container(spec.application, m.image + ":" + request.version, envVars, [], m.resources);
    pod := PodSpec([main], [], [], spec.ResourceName());
    if m.leaderElection {
      pod := pod.(containers := pod.containers + [ElectorContainer()]);
      pod := pod.(containers := pod.containers[0 := main.(env := main.env + [ELECTOR_PATH])]);
    }
    assert envVars + [] == envVars;
  }

  /** Declares the certificate volume and mounts it in the first container. */
  method AddCertificates(spec: Spec, request: Request, m: Manifest, rs: seq<NaisResource>, ghost env: seq<EnvVar>,
                         podSpec: PodSpec)
    returns (pod: PodSpec, ghost order: seq<Entry>)
    requires HasCertificate(rs) && podSpec == PlainPod(spec, request, m, env, None)
    ensures Walk(order, rs, CERTIFICATES) &&
            pod == PlainPod(spec, request, m, env, Some(CertificateVolume(spec, rs, order)))
  {
    var volume := CreateCertificateVolume(spec, rs);
    order :| Walk(order, rs, CERTIFICATES) && volume.source.items == Items(rs, order);
    assert volume == CertificateVolume(spec, rs, order);
    var container := podSpec.containers[0];
    container := container.(mounts := container.mounts + [CreateCertificateVolumeMount(spec, rs)]);
    pod := podSpec.(volumes := podSpec.volumes + [volume], containers := podSpec.containers[0 := container]);
    assert container.mounts == [VolumeMount(volume.name, ROOT_MOUNT_POINT)];
    assert pod.containers == PlainPod(spec, request, m, env, Some(volume)).containers && pod.volumes == [volume];
  }

  /** The vault's volume and containers, if the vault is used; an incomplete vault configuration is an error. */
  method AddVault(spec: Spec, m: Manifest, vault: VaultSettings, podSpec: PodSpec)
    returns (r: Result<PodSpec, PodError>)
    ensures r == if UsesVault(m, vault) && !VaultComplete(vault) then Failure(VaultIncomplete)
                 else Success(VaultedPod(spec, m, vault, podSpec))
  {
    if vault.enabled && (m.secrets || m.vaultEnabled) {
      if vault.address == "" || vault.initImage == "" || vault.authPath == "" || vault.kvPath == "" {
        return Failure(VaultIncomplete);
      }
      var pod := AddVaultContainers(spec, vault, m.vaultSidecar, podSpec);
      r := Success(pod);
    } else {
      r := Success(podSpec);
    }
  }

  /** A pod before the vault comes in, with the walks it was made by. */
  method CreatePlainPod(spec: Spec, request: Request, m: Manifest, rs: seq<NaisResource>, settings: Settings,
                        envVars: seq<EnvVar>)
    returns (pod: PodSpec, ghost orders: Orders)
    requires ProxyUsable(m, settings)
    requires exists vars :: Lists(vars, spec, BaseVariables(spec, request, m.redis.enabled), rs) &&
               envVars == vars + if m.webproxy then ProxyVariables(settings.parseUrl, settings.environ).value else []
    ensures Walked(orders, rs)
    ensures pod == PlainPod(spec, request, m, MainVariables(spec, request, m, rs, settings, orders.entries),
                            if HasCertificate(rs) then Some(CertificateVolume(spec, rs, orders.certificates)) else None)
  {
    ghost var order := OrderOf(spec, request, m, rs, settings, envVars);
    ghost var env := envVars + if m.leaderElection then [ELECTOR_PATH] else [];
    assert env == MainVariables(spec, request, m, rs, settings, order);
    pod := StartPod(spec, request, m, envVars);
    ghost var certificates := WalkExists(rs, CERTIFICATES);
    if HasCertificate(rs) {
      pod, certificates := AddCertificates(spec, request, m, rs, env, pod);
    }
    orders := Orders(order, certificates);
  }

  lemma OrderOf(spec: Spec, request: Request, m: Manifest, rs: seq<NaisResource>, settings: Settings,
                envVars: seq<EnvVar>)
    returns (order: seq<Entry>)
    requires ProxyUsable(m, settings)
    requires exists vars :: Lists(vars, spec, BaseVariables(spec, request, m.redis.enabled), rs) &&
               envVars == vars + if m.webproxy then ProxyVariables(settings.parseUrl, settings.environ).value else []
    ensures Enumerates(order, rs)
    ensures envVars + (if m.leaderElection then [ELECTOR_PATH] else []) ==
            MainVariables(spec, request, m, rs, settings, order)
  {
    var base := BaseVariables(spec, request, m.redis.enabled);
    var proxy := if m.webproxy then ProxyVariables(settings.parseUrl, settings.environ).value else [];
    var vars :| Lists(vars, spec, base, rs) && envVars == vars + proxy;
    order :| Enumerates(order, rs) && vars == base + Variables(spec, rs, order);
    AppendLast(base + Variables(spec, rs, order), proxy, if m.leaderElection then [ELECTOR_PATH] else []);
  }

  lemma AppendLast(vars: seq<EnvVar>, proxy: seq<EnvVar>, elector: seq<EnvVar>)
    ensures vars + proxy + elector == vars + (proxy + elector)
  {
  }

  method CreatePodSpec(spec: Spec, request: Request, m: Manifest, rs: seq<NaisResource>, settings: Settings)
    returns (r: Result<PodSpec, PodError>)
    ensures r.Success? <==> PodPossible(spec, request, m, rs, settings)
    ensures r.Success? ==> RightPod(r.value, spec, request, m, rs, settings)
    ensures r.Failure? ==> RightError(r.error, spec, request, m, rs, settings)
  {
    var envVars := CreateEnvironmentVariables(spec, request, m.redis.enabled, m.webproxy, rs, settings.parseUrl,
        settings.environ);
    if envVars.Failure? {
      return Failure(BadEnvironment(envVars.error));
    }
    if !MustParse(settings.parses, m.resources.requests, m.resources.limits) {
      return Failure(BadQuantity);
    }
    var pod, orders := CreatePlainPod(spec, request, m, rs, settings, envVars.value);
    r := AddVault(spec, m, settings.vault, pod);
    assert r.Success? ==> r.value == Pod(spec, request, m, rs, settings, orders);
  }

  function PodSelector(spec: Spec): map<string, string> {
    map["app" := spec.application]
  }

  function PodAnnotations(m: Manifest, istioEnabled: bool): map<string, string> {
    var base := map["prometheus.io/scrape" := Truth(m.prometheusEnabled), "prometheus.io/port" := "http",
                    "prometheus.io/path" := m.prometheusPath];
    var istio := if istioEnabled && m.istioEnabled then base["sidecar.istio.io/inject" := "true"] else base;
    var format := if m.logformat != "" then istio["nais.io/logformat" := m.logformat] else istio;
    if m.logtransform != "" then format["nais.io/logtransform" := m.logtransform] else format
  }

  function Strategy(m: Manifest): string {
    if m.deploymentStrategy in {RECREATE, ROLLING_UPDATE} then m.deploymentStrategy else ""
  }

  /** The Deployment around a pod. */
  function SpecAround(pod: PodSpec, spec: Spec, m: Manifest, settings: Settings): DeploymentSpec {
    DeploymentSpec(PodSelector(spec), Strategy(m), PodAnnotations(m, settings.istioEnabled), pod)
  }

  /** What a deploy wants the application's Deployment to be: one that some order of its walks would make. */
  ghost predicate Wanted(d: DeploymentSpec, spec: Spec, request: Request, m: Manifest, rs: seq<NaisResource>,
                         settings: Settings)
  {
    RightPod(d.pod, spec, request, m, rs, settings) && d == SpecAround(d.pod, spec, m, settings)
  }

  /** How working out a Deployment ends: exactly when it can be done, with what is wanted, and otherwise with the first
      thing that stands in the way. */
  ghost predicate WorkedOut(r: Result<DeploymentSpec, PodError>, spec: Spec, request: Request, m: Manifest,
                            rs: seq<NaisResource>, settings: Settings)
  {
    match r
    case Success(d) => PodPossible(spec, request, m, rs, settings) && Wanted(d, spec, request, m, rs, settings)
    case Failure(error) =>
      !PodPossible(spec, request, m, rs, settings) && RightError(error, spec, request, m, rs, settings)
  }

  method CreateDeploymentSpec(spec: Spec, request: Request, m: Manifest, rs: seq<NaisResource>, settings: Settings)
    returns (r: Result<DeploymentSpec, PodError>)
    ensures WorkedOut(r, spec, request, m, rs, settings)
  {
    var pod := CreatePodSpec(spec, request, m, rs, settings);
    if pod.Failure? {
      return Failure(pod.error);
    }
    var strategy := "";
    if m.deploymentStrategy == RECREATE {
      strategy := RECREATE;
    } else if m.deploymentStrategy == ROLLING_UPDATE {
      strategy := ROLLING_UPDATE;
    }
    r := Success(DeploymentSpec(PodSelector(spec), strategy, PodAnnotations(m, settings.istioEnabled), pod.value));
  }

  lemma WorkedOutExists(spec: Spec, request: Request, m: Manifest, rs: seq<NaisResource>, settings: Settings)
    returns (r: Result<DeploymentSpec, PodError>)
    ensures WorkedOut(r, spec, request, m, rs, settings)
  {
    if PodPossible(spec, request, m, rs, settings) {
      var order := WalkExists(rs, ALL_KINDS);
      var certificates := WalkExists(rs, CERTIFICATES);
      var pod := Pod(spec, request, m, rs, settings, Orders(order, certificates));
      assert Walked(Orders(order, certificates), rs);
      r := Success(SpecAround(pod, spec, m, settings));
    } else if !NamesClear(spec, request, m, rs) {
      r := Failure(BadEnvironment(Duplicate(SameName(""))));
    } else if !ProxyUsable(m, settings) {
      r := Failure(BadEnvironment(BadProxy(ProxyVariables(settings.parseUrl, settings.environ).error)));
    } else {
      r := Failure(if MainQuantitiesParse(m, settings) then VaultIncomplete else BadQuantity);
    }
  }

  // ---- Volumes and mounts ----

  predicate MountsDeclared(mounts: seq<VolumeMount>, volumes: seq<Volume>) {
    forall m :: m in mounts ==> exists v :: v in volumes && v.name == m.name
  }

  /** Every mount of every container names a volume of the pod. */
  predicate AllMountsDeclared(pod: PodSpec) {
    && (forall c :: c in pod.containers ==> MountsDeclared(c.mounts, pod.volumes))
    && (forall c :: c in pod.initContainers ==> MountsDeclared(c.mounts, pod.volumes))
  }

  predicate VolumeNamesDistinct(volumes: seq<Volume>) {
    forall i, j :: 0 <= i < j < |volumes| ==> volumes[i].name != volumes[j].name
  }

  lemma MountsStayDeclared(mounts: seq<VolumeMount>, volumes: seq<Volume>)
    requires MountsDeclared(mounts, volumes)
    ensures MountsDeclared(mounts, volumes + [VAULT_VOLUME]) &&
            MountsDeclared(mounts + [VAULT_MOUNT], volumes + [VAULT_VOLUME])
  {
    var more := volumes + [VAULT_VOLUME];
    assert more[|volumes|] == VAULT_VOLUME && VAULT_VOLUME in more;
    forall m | m in mounts ensures exists v :: v in more && v.name == m.name {
      var v :| v in volumes && v.name == m.name;
      assert v in more;
    }
  }

  lemma VaultMountsDeclared(spec: Spec, vault: VaultSettings, sidecar: bool, pod: PodSpec)
    requires AllMountsDeclared(pod)
    ensures AllMountsDeclared(WithVault(spec, vault, sidecar, pod))
  {
    var after := WithVault(spec, vault, sidecar, pod);
    assert after.volumes[|pod.volumes|] == VAULT_VOLUME && VAULT_VOLUME in after.volumes;
    forall c | c in after.containers ensures MountsDeclared(c.mounts, after.volumes) {
      var i :| 0 <= i < |after.containers| && after.containers[i] == c;
      if i < |pod.containers| {
        assert pod.containers[i] in pod.containers;
        MountsStayDeclared(pod.containers[i].mounts, pod.volumes);
      }
    }
    forall c | c in after.initContainers ensures MountsDeclared(c.mounts, after.volumes) {
      if c in pod.initContainers {
        MountsStayDeclared(c.mounts, pod.volumes);
      }
    }
  }

  lemma PlainMountsDeclared(spec: Spec, request: Request, m: Manifest, env: seq<EnvVar>, certificates: Option<Volume>)
    ensures AllMountsDeclared(PlainPod(spec, request, m, env, certificates))
  {
    var pod := PlainPod(spec, request, m, env, certificates);
    assert certificates.Some? ==> certificates.value == pod.volumes[0];
  }

  /** No deploy makes a pod with a mount that names no volume. */
  lemma RightPodMountsDeclared(pod: PodSpec, spec: Spec, request: Request, m: Manifest, rs: seq<NaisResource>,
                               settings: Settings)
    requires RightPod(pod, spec, request, m, rs, settings)
    ensures AllMountsDeclared(pod)
  {
    var orders :| Walked(orders, rs) && pod == Pod(spec, request, m, rs, settings, orders);
    var env := MainVariables(spec, request, m, rs, settings, orders.entries);
    var volume := if HasCertificate(rs) then Some(CertificateVolume(spec, rs, orders.certificates)) else None;
    PlainMountsDeclared(spec, request, m, env, volume);
    if UsesVault(m, settings.vault) {
      VaultMountsDeclared(spec, settings.vault, m.vaultSidecar, PlainPod(spec, request, m, env, volume));
    }
  }

  /** Its volumes get the same name exactly when certificates and vault meet in an application called like the vault's.
      */
  lemma VolumeNamesClash(pod: PodSpec, spec: Spec, request: Request, m: Manifest, rs: seq<NaisResource>,
                         settings: Settings)
    requires RightPod(pod, spec, request, m, rs, settings)
    ensures VolumeNamesDistinct(pod.volumes) <==>
            !(HasCertificate(rs) && UsesVault(m, settings.vault) &&
                ValidLabelName(spec.ResourceName()) == VAULT_SECRETS)
  {
    if HasCertificate(rs) && UsesVault(m, settings.vault) {
      assert |pod.volumes| == 2 && pod.volumes[0].name == ValidLabelName(spec.ResourceName()) &&
             pod.volumes[1] == VAULT_VOLUME;
    } else {
      assert |pod.volumes| <= 1;
    }
  }

  /** The volume that holds the certificates is declared, projects each of them, and is mounted in the first container.
      */
  ghost predicate CertificatesProjected(pod: PodSpec, spec: Spec, rs: seq<NaisResource>) {
    && |pod.containers| > 0 &&
         VolumeMount(ValidLabelName(spec.ResourceName()), ROOT_MOUNT_POINT) in pod.containers[0].mounts
    && exists v :: v in pod.volumes && v.name == ValidLabelName(spec.ResourceName()) &&
                v.source.SecretVolume? && v.source.secretName == spec.ResourceName() && Projects(v.source.items, rs)
  }

  lemma RightPodProjects(pod: PodSpec, spec: Spec, request: Request, m: Manifest, rs: seq<NaisResource>,
                         settings: Settings)
    requires RightPod(pod, spec, request, m, rs, settings) && HasCertificate(rs)
    ensures CertificatesProjected(pod, spec, rs)
  {
    var orders :| Walked(orders, rs) && pod == Pod(spec, request, m, rs, settings, orders);
    var volume := CertificateVolume(spec, rs, orders.certificates);
    assert pod.volumes[0] == volume && volume in pod.volumes && Projects(volume.source.items, rs);
    assert pod.containers[0].mounts[0] == VolumeMount(ValidLabelName(spec.ResourceName()), ROOT_MOUNT_POINT);
  }

  /** The first container is the application's: its image, resources and variables. */
  lemma RightPodRuns(pod: PodSpec, spec: Spec, request: Request, m: Manifest, rs: seq<NaisResource>, settings: Settings)
    returns (order: seq<Entry>)
    requires RightPod(pod, spec, request, m, rs, settings)
    ensures |pod.containers| > 0 && pod.containers[0].name == spec.application &&
            pod.serviceAccountName == spec.ResourceName()
    ensures pod.containers[0].image == m.image + ":" + request.version && pod.containers[0].resources == m.resources
    ensures Enumerates(order, rs) && pod.containers[0].env == MainVariables(spec, request, m, rs, settings, order)
  {
    var orders :| Walked(orders, rs) && pod == Pod(spec, request, m, rs, settings, orders);
    order := orders.entries;
    var env := MainVariables(spec, request, m, rs, settings, order);
    var volume := if HasCertificate(rs) then Some(CertificateVolume(spec, rs, orders.certificates)) else None;
    assert pod == VaultedPod(spec, m, settings.vault, PlainPod(spec, request, m, env, volume));
  }

  // ---- The pod and its Deployment, field by field ----

  /** The annotations of the pods, key by key. */
  predicate AnnotationsAre(annotations: map<string, string>, m: Manifest, istioEnabled: bool) {
    && Annotates(annotations, "prometheus.io/scrape", true, if m.prometheusEnabled then "true" else "false")
    && Annotates(annotations, "prometheus.io/port", true, "http")
    && Annotates(annotations, "prometheus.io/path", true, m.prometheusPath)
    && Annotates(annotations, "sidecar.istio.io/inject", istioEnabled && m.istioEnabled, "true")
    && Annotates(annotations, "nais.io/logformat", m.logformat != "", m.logformat)
    && Annotates(annotations, "nais.io/logtransform", m.logtransform != "", m.logtransform)
    && annotations.Keys <= {"prometheus.io/scrape", "prometheus.io/port", "prometheus.io/path",
                            "sidecar.istio.io/inject", "nais.io/logformat", "nais.io/logtransform"}
  }

  predicate Annotates(annotations: map<string, string>, key: string, present: bool, value: string) {
    if present then key in annotations && annotations[key] == value else key !in annotations
  }

  lemma AnnotationKeysDiffer()
    ensures "prometheus.io/port" != "prometheus.io/path" && "prometheus.io/scrape" != "nais.io/logtransform"
    ensures |"prometheus.io/port"| == |"prometheus.io/path"| == 18
    ensures |"prometheus.io/scrape"| == |"nais.io/logtransform"| == 20
    ensures |"sidecar.istio.io/inject"| == 23 && |"nais.io/logformat"| == 17
  {
    assert "prometheus.io/port"[15] == 'o' && "prometheus.io/path"[15] == 'a';
    assert "prometheus.io/scrape"[0] == 'p' && "nais.io/logtransform"[0] == 'n';
  }

  lemma AnnotationsSpelled(m: Manifest, istioEnabled: bool)
    ensures AnnotationsAre(PodAnnotations(m, istioEnabled), m, istioEnabled)
  {
    AnnotationKeysDiffer();
  }

  /** The selector, strategy and annotations of every Deployment that a deploy wants. */
  lemma WantedFields(d: DeploymentSpec, spec: Spec, request: Request, m: Manifest, rs: seq<NaisResource>,
                     settings: Settings)
    requires Wanted(d, spec, request, m, rs, settings)
    ensures d.selector == map["app" := spec.application]
    ensures d.strategy ==
            if m.deploymentStrategy == "Recreate" || m.deploymentStrategy == "RollingUpdate"
            then m.deploymentStrategy else ""
    ensures AnnotationsAre(d.annotations, m, settings.istioEnabled)
  {
    AnnotationsSpelled(m, settings.istioEnabled);
  }

  predicate SaysLiteral(env: seq<EnvVar>, name: string, value: string) {
    EnvVar(name, Literal(value)) in env
  }

  /** A container of the vault: its image, what it is told, and the shared volume. */
  predicate ServesVault(c: Container, name: string, spec: Spec, vault: VaultSettings, sidecar: string) {
    && c.name == name && c.image == vault.initImage && |c.env| == 6
    && SaysLiteral(c.env, "VKS_VAULT_ADDR", vault.address) && SaysLiteral(c.env, "VKS_AUTH_PATH", vault.authPath)
    && SaysLiteral(c.env, "VKS_KV_PATH", vault.kvPath + "/" + spec.application + "/" + spec.namespace)
    && SaysLiteral(c.env, "VKS_VAULT_ROLE", spec.application) && SaysLiteral(c.env, "VKS_IS_SIDECAR", sidecar)
    && SaysLiteral(c.env, "VKS_SECRET_DEST_PATH", "/var/run/secrets/nais.io/vault")
    && c.mounts == [VolumeMount("vault-secrets", "/var/run/secrets/nais.io/vault")]
  }

  lemma VaultContainerServes(spec: Spec, vault: VaultSettings)
    ensures ServesVault(VaultContainer(spec, vault, false), "vks-init", spec, vault, "false")
    ensures ServesVault(VaultContainer(spec, vault, true), "vks-sidecar", spec, vault, "true")
  {
    var c, d := VaultContainer(spec, vault, false), VaultContainer(spec, vault, true);
    assert c.env[0] in c.env && c.env[1] in c.env && c.env[2] in c.env && c.env[3] in c.env && c.env[4] in c.env;
    assert d.env[0] in d.env && d.env[1] in d.env && d.env[2] in d.env && d.env[3] in d.env && d.env[4] in d.env;
    assert c.env[5] in c.env && d.env[5] in d.env;
  }

  /** Who is in the pod beside the application: the elector if asked for, and the vault's containers if the daemon has a
      vault and the manifest wants secrets. */
  lemma PodCompany(pod: PodSpec, spec: Spec, request: Request, m: Manifest, rs: seq<NaisResource>, settings: Settings)
    requires RightPod(pod, spec, request, m, rs, settings)
    ensures var vault := settings.vault.enabled && (m.secrets || m.vaultEnabled); var n := |pod.containers|;
            && n == 1 + (if m.leaderElection then 1 else 0) + (if vault && m.vaultSidecar then 1 else 0)
            && (m.leaderElection ==>
                  pod.containers[1].name == "elector" &&
                  pod.containers[1].image == "gcr.io/google_containers/leader-elector:0.5")
            && (vault && m.vaultSidecar ==>
                 ServesVault(pod.containers[n - 1], "vks-sidecar", spec, settings.vault, "true"))
            && |pod.initContainers| == (if vault then 1 else 0)
            && (vault ==> ServesVault(pod.initContainers[0], "vks-init", spec, settings.vault, "false"))
            && (vault ==> Volume("vault-secrets", EmptyDir) in pod.volumes)
            && (vault ==> VolumeMount("vault-secrets", "/var/run/secrets/nais.io/vault") in pod.containers[0].mounts)
  {
    var orders :| Walked(orders, rs) && pod == Pod(spec, request, m, rs, settings, orders);
    var env := MainVariables(spec, request, m, rs, settings, orders.entries);
    var volume := if HasCertificate(rs) then Some(CertificateVolume(spec, rs, orders.certificates)) else None;
    PlainCompany(spec, request, m, env, volume, settings.vault);
  }

  lemma PlainCompany(spec: Spec, request: Request, m: Manifest, env: seq<EnvVar>, volume: Option<Volume>,
                     vault: VaultSettings)
    ensures var plain := PlainPod(spec, request, m, env, volume); var pod := VaultedPod(spec, m, vault, plain);
            var uses := vault.enabled && (m.secrets || m.vaultEnabled); var n := |pod.containers|;
            && n == 1 + (if m.leaderElection then 1 else 0) + (if uses && m.vaultSidecar then 1 else 0)
            && (m.leaderElection ==>
                  pod.containers[1].name == "elector" &&
                  pod.containers[1].image == "gcr.io/google_containers/leader-elector:0.5")
            && (uses && m.vaultSidecar ==> ServesVault(pod.containers[n - 1], "vks-sidecar", spec, vault, "true"))
            && |pod.initContainers| == (if uses then 1 else 0)
            && (uses ==> ServesVault(pod.initContainers[0], "vks-init", spec, vault, "false"))
            && (uses ==> Volume("vault-secrets", EmptyDir) in pod.volumes)
            && (uses ==> VolumeMount("vault-secrets", "/var/run/secrets/nais.io/vault") in pod.containers[0].mounts)
  {
    VaultContainerServes(spec, vault);
    if UsesVault(m, vault) {
      var pod := VaultedPod(spec, m, vault, PlainPod(spec, request, m, env, volume));
      assert pod.volumes[|pod.volumes| - 1] == VAULT_VOLUME;
      assert pod.containers[0].mounts[|pod.containers[0].mounts| - 1] == VAULT_MOUNT;
    }
  }

  /** A label is the text in lower case, with dashes for underscores. */
  lemma LabelSpelled(s: string)
    ensures var name := ValidLabelName(s);
            && |name| == |s|
            && forall i :: 0 <= i < |s| ==>
                 name[i] == if s[i] == '_' then '-' else if 'A' <= s[i] <= 'Z' then s[i] - 'A' + 'a' else s[i]
  {
  }
}
