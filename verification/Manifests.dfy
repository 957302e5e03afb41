/** The part of nais.yaml that decides what is deployed, its defaults and its validation. `parses` stands for the
    Kubernetes quantity parser: it says which texts are quantities. */
module Manifests {

  import opened Wrappers
  import opened Alerts

  datatype ResourceList = ResourceList(cpu: string, memory: string)

  datatype ResourceRequirements = ResourceRequirements(limits: ResourceList, requests: ResourceList)

  datatype Redis = Redis(enabled: bool, image: string, limits: ResourceList, requests: ResourceList)

  datatype Replicas = Replicas(min: int, max: int, cpuThresholdPercentage: int)

  datatype UsedResource = UsedResource(alias: string, resourceType: string)

  datatype WsdlArtifact = WsdlArtifact(groupId: string, artifactId: string, version: string)

  datatype ExposedResource = ExposedResource(
    alias: string,
    resourceType: string,
    path: string,
    description: string,
    wsdl: WsdlArtifact,
    securityToken: string,
    allZones: bool)

  datatype Manifest = Manifest(
    team: string,
    image: string,
    deploymentStrategy: string,
    livenessPath: string,
    prometheusEnabled: bool,
    prometheusPath: string,
    istioEnabled: bool,
    replicas: Replicas,
    ingressDisabled: bool,
    resources: ResourceRequirements,
    used: seq<UsedResource>,
    exposed: seq<ExposedResource>,
    leaderElection: bool,
    redis: Redis,
    alerts: seq<AlertRule>,
    logformat: string,
    logtransform: string,
    secrets: bool,
    vaultEnabled: bool,
    vaultSidecar: bool,
    webproxy: bool)

  const ROLLING_UPDATE := "RollingUpdate"
  const RECREATE := "Recreate"
  const NO_LIMITS := ResourceList("", "")

  // ---- Defaults: an empty field takes the default value ----

  function TextOr(value: string, default_: string): string {
    if value == "" then default_ else value
  }

  function NumberOr(value: int, default_: int): int {
    if value == 0 then default_ else value
  }

  function AddDefaultManifestValues(m: Manifest, application: string): Manifest {
    m.(image := TextOr(m.image, "docker.adeo.no:5000/" + application),
       deploymentStrategy := TextOr(m.deploymentStrategy, ROLLING_UPDATE),
       livenessPath := TextOr(m.livenessPath, "isAlive"),
       prometheusPath := TextOr(m.prometheusPath, "/metrics"),
       replicas := Replicas(NumberOr(m.replicas.min, 2), NumberOr(m.replicas.max, 4),
           NumberOr(m.replicas.cpuThresholdPercentage, 50)),
       resources := ResourceRequirements(
         ResourceList(TextOr(m.resources.limits.cpu, "500m"), TextOr(m.resources.limits.memory, "512Mi")),
         ResourceList(TextOr(m.resources.requests.cpu, "200m"), TextOr(m.resources.requests.memory, "256Mi"))))
  }

  function UpdateDefaultRedisValues(redis: Redis): Redis {
    redis.(image := TextOr(redis.image, "redis:5-alpine"),
           limits := ResourceList(TextOr(redis.limits.cpu, "100m"), TextOr(redis.limits.memory, "128Mi")),
           requests := ResourceList(TextOr(redis.requests.cpu, "100m"), TextOr(redis.requests.memory, "128Mi")))
  }

  // ---- Validation ----

  datatype ValidationError =
    | ImageHasTag | MaxNotSet | MinNotSet | MinAboveMax | CpuThreshold
    | NotAQuantity(field: string) | ResourceIncomplete | AlertIncomplete | UnknownStrategy

  function LastIndex(s: string, c: char): (i: int)
    ensures -1 <= i < |s|
    ensures i >= 0 ==> s[i] == c
    ensures forall j :: i < j < |s| ==> s[j] != c
  {
    if s == "" then -1
    else if s[|s| - 1] == c then |s| - 1
    else LastIndex(s[..|s| - 1], c)
  }

  predicate Incomplete(resourceType: string, alias: string) {
    resourceType == "" || alias == ""
  }

  predicate AlertMissesField(rule: AlertRule) {
    rule.alert == "" || rule.expr == "" || "action" !in rule.annotations
  }

  function QuantityError(parses: string -> bool, field: string, value: string): Option<ValidationError> {
    if parses(value) then None else Some(NotAQuantity(field))
  }

  /** The outcome of each validator, in the order in which they are called. */
  function Verdicts(parses: string -> bool, m: Manifest): seq<Option<ValidationError>> {
    var requests, limits := m.resources.requests, m.resources.limits;
    [ if LastIndex(m.image, ':') > LastIndex(m.image, '/') then Some(ImageHasTag) else None,
      if m.replicas.max == 0 then Some(MaxNotSet) else None,
      if m.replicas.min == 0 then Some(MinNotSet) else None,
      if m.replicas.min > m.replicas.max then Some(MinAboveMax) else None,
      if m.replicas.cpuThresholdPercentage < 10 ||
          m.replicas.cpuThresholdPercentage > 90 then Some(CpuThreshold) else None,
      QuantityError(parses, "Resources.Requests.Memory", requests.memory),
      QuantityError(parses, "Resources.Limits.Memory", limits.memory),
      QuantityError(parses, "Resources.Request.Cpu", requests.cpu),
      QuantityError(parses, "Resources.Limits.Cpu", limits.cpu),
      if (exists r :: r in m.exposed && Incomplete(r.resourceType, r.alias)) ||
         (exists r :: r in m.used && Incomplete(r.resourceType, r.alias)) then Some(ResourceIncomplete) else None,
      if exists r :: r in m.alerts && AlertMissesField(r) then Some(AlertIncomplete) else None,
      if m.deploymentStrategy == ROLLING_UPDATE ||
          m.deploymentStrategy == RECREATE then None else Some(UnknownStrategy),
      if m.redis.requests != NO_LIMITS && m.redis.requests.memory != ""
      then QuantityError(parses, "Redis.Requests.Memory", m.redis.requests.memory) else None,
      if m.redis.requests != NO_LIMITS && m.redis.limits.memory != ""
      then QuantityError(parses, "Redis.Limits.Memory", m.redis.limits.memory) else None,
      if m.redis.limits != NO_LIMITS && m.redis.requests.cpu != ""
      then QuantityError(parses, "Redis.Request.Cpu", m.redis.requests.cpu) else None,
      if m.redis.limits != NO_LIMITS && m.redis.limits.cpu != ""
      then QuantityError(parses, "Redis.Limits.Cpu", m.redis.limits.cpu) else None ]
  }

  method Collect(verdicts: seq<Option<ValidationError>>) returns (errors: seq<ValidationError>)
    ensures errors == [] <==> forall v :: v in verdicts ==> v.None?
    ensures forall e :: e in errors <==> Some(e) in verdicts
  {
    errors := [];
    for i := 0 to |verdicts|
      invariant forall e :: e in errors <==> Some(e) in verdicts[..i]
      invariant errors == [] <==> forall v :: v in verdicts[..i] ==> v.None?
    {
      assert verdicts[..i + 1] == verdicts[..i] + [verdicts[i]];
      if verdicts[i].Some? {
        errors := errors + [verdicts[i].value];
      }
    }
    assert verdicts[..|verdicts|] == verdicts;
  }

  /** Runs every validator and keeps what each of them complains about. */
  method ValidateManifest(parses: string -> bool, m: Manifest) returns (errors: seq<ValidationError>)
    ensures errors == [] <==> Validated(parses, m)
    ensures forall e :: e in errors <==> Some(e) in Verdicts(parses, m)
  {
    errors := Collect(Verdicts(parses, m));
  }

  predicate Validated(parses: string -> bool, m: Manifest) {
    forall v :: v in Verdicts(parses, m) ==> v.None?
  }

  /** No colon behind the last slash. */
  predicate Untagged(image: string) {
    forall i :: 0 <= i < |image| && image[i] == ':' ==> exists j :: i < j < |image| && image[j] == '/'
  }

  predicate ReplicasSensible(replicas: Replicas) {
    && replicas.min != 0 && replicas.max != 0 && replicas.min <= replicas.max
    && 10 <= replicas.cpuThresholdPercentage <= 90
  }

  predicate QuantitiesSensible(parses: string -> bool, resources: ResourceRequirements) {
    && parses(resources.requests.memory) && parses(resources.limits.memory)
    && parses(resources.requests.cpu) && parses(resources.limits.cpu)
  }

  predicate NothingMissing(m: Manifest) {
    && (forall r :: r in m.exposed ==> r.alias != "" && r.resourceType != "")
    && (forall r :: r in m.used ==> r.alias != "" && r.resourceType != "")
    && (forall r :: r in m.alerts ==> r.alert != "" && r.expr != "" && "action" in r.annotations)
    && (m.deploymentStrategy == "RollingUpdate" || m.deploymentStrategy == "Recreate")
  }

  /** These conditions look at the wrong list. */
  predicate RedisSensible(parses: string -> bool, redis: Redis) {
    && (redis.requests.cpu != "" || redis.requests.memory != "" ==>
          Empty(redis.requests.memory, parses) && Empty(redis.limits.memory, parses))
    && (redis.limits.cpu != "" || redis.limits.memory != "" ==>
          Empty(redis.requests.cpu, parses) && Empty(redis.limits.cpu, parses))
  }

  predicate Empty(quantity: string, parses: string -> bool) {
    quantity == "" || parses(quantity)
  }

  lemma UntaggedExactly(image: string)
    ensures LastIndex(image, ':') <= LastIndex(image, '/') <==> Untagged(image)
  {
    var colon, slash := LastIndex(image, ':'), LastIndex(image, '/');
    if colon <= slash {
      forall i | 0 <= i < |image| && image[i] == ':' ensures exists j :: i < j < |image| && image[j] == '/' {
        assert i <= colon;
        assert slash >= 0 && image[slash] == '/' && colon != slash;
      }
    }
  }

  lemma NoneExactly(v: seq<Option<ValidationError>>)
    requires |v| == 16
    ensures (forall x :: x in v ==> x.None?) <==>
            && v[0].None? && v[1].None? && v[2].None? && v[3].None? && v[4].None? && v[5].None? && v[6].None?
            && v[7].None? && v[8].None? && v[9].None? && v[10].None? && v[11].None? && v[12].None? && v[13].None?
            && v[14].None? && v[15].None?
  {
    if forall x :: x in v ==> x.None? {
      assert forall i :: 0 <= i < |v| ==> v[i] in v;
    }
  }

  lemma FirstVerdicts(parses: string -> bool, m: Manifest)
    ensures var v := Verdicts(parses, m);
            && (v[0].None? <==> LastIndex(m.image, ':') <= LastIndex(m.image, '/'))
            && (v[1].None? && v[2].None? && v[3].None? && v[4].None? <==> ReplicasSensible(m.replicas))
            && (v[5].None? && v[6].None? && v[7].None? && v[8].None? <==> QuantitiesSensible(parses, m.resources))
  {
  }

  lemma MiddleVerdicts(parses: string -> bool, m: Manifest)
    ensures var v := Verdicts(parses, m); v[9].None? && v[10].None? && v[11].None? <==> NothingMissing(m)
  {
    ResourcesSpelled(m);
  }

  lemma RedisVerdicts(parses: string -> bool, m: Manifest)
    ensures var v := Verdicts(parses, m);
            v[12].None? && v[13].None? && v[14].None? && v[15].None? <==> RedisSensible(parses, m.redis)
  {
    var redis := m.redis;
    assert redis.requests == NO_LIMITS <==> redis.requests.cpu == "" && redis.requests.memory == "";
    assert redis.limits == NO_LIMITS <==> redis.limits.cpu == "" && redis.limits.memory == "";
  }

  lemma ResourcesSpelled(m: Manifest)
    ensures (exists r :: r in m.exposed && Incomplete(r.resourceType, r.alias)) <==>
            !forall r :: r in m.exposed ==> r.alias != "" && r.resourceType != ""
    ensures (exists r :: r in m.used && Incomplete(r.resourceType, r.alias)) <==>
            !forall r :: r in m.used ==> r.alias != "" && r.resourceType != ""
    ensures (exists r :: r in m.alerts && AlertMissesField(r)) <==>
            !forall r :: r in m.alerts ==> r.alert != "" && r.expr != "" && "action" in r.annotations
  {
  }

  /** What passes validation, exactly. */
  lemma ValidatedExactly(parses: string -> bool, m: Manifest)
    ensures Validated(parses, m) <==>
            && Untagged(m.image) && ReplicasSensible(m.replicas) && QuantitiesSensible(parses, m.resources)
            && NothingMissing(m) && RedisSensible(parses, m.redis)
  {
    NoneExactly(Verdicts(parses, m));
    UntaggedExactly(m.image);
    FirstVerdicts(parses, m);
    MiddleVerdicts(parses, m);
    RedisVerdicts(parses, m);
  }

  /** The quantities that `createResourceLimits` insists on; it panics when one is none. */
  predicate MustParse(parses: string -> bool, requests: ResourceList, limits: ResourceList) {
    parses(requests.cpu) && parses(requests.memory) && parses(limits.cpu) && parses(limits.memory)
  }

  lemma VerdictAt(parses: string -> bool, m: Manifest, i: nat)
    requires Validated(parses, m) && i < |Verdicts(parses, m)|
    ensures Verdicts(parses, m)[i].None?
  {
  }

  /** The main container of a validated manifest never makes the quantity parser panic. */
  lemma MainResourcesNeverPanic(parses: string -> bool, m: Manifest)
    requires Validated(parses, m)
    ensures MustParse(parses, m.resources.requests, m.resources.limits)
  {
    VerdictAt(parses, m, 5);
    VerdictAt(parses, m, 6);
    VerdictAt(parses, m, 7);
    VerdictAt(parses, m, 8);
  }

  /** Each pair of Redis validators looks at the wrong list to decide whether to run: two quantities can slip through.
      */
  predicate RedisQuantitySlipsThrough(parses: string -> bool, redis: Redis) {
    || (redis.requests == NO_LIMITS && redis.limits.memory != "" && !parses(redis.limits.memory))
    || (redis.limits == NO_LIMITS && redis.requests.cpu != "" && !parses(redis.requests.cpu))
  }

  /** Redis brings the daemon down: it is enabled, and the defaults do not make up for a bad quantity. */
  predicate PanicsAtRedis(parses: string -> bool, redis: Redis) {
    var filled := UpdateDefaultRedisValues(redis);
    redis.enabled && !MustParse(parses, filled.requests, filled.limits)
  }

  /** A validated manifest makes the Redis deployment panic exactly when Redis is enabled and a quantity slipped
      through. */
  lemma RedisPanicsExactly(parses: string -> bool, m: Manifest)
    requires Validated(parses, m)
    requires parses("100m") && parses("128Mi")
    ensures var redis := UpdateDefaultRedisValues(m.redis);
            !MustParse(parses, redis.requests, redis.limits) <==> RedisQuantitySlipsThrough(parses, m.redis)
    ensures PanicsAtRedis(parses, m.redis) <==> m.redis.enabled && RedisQuantitySlipsThrough(parses, m.redis)
  {
    VerdictAt(parses, m, 12);
    VerdictAt(parses, m, 13);
    VerdictAt(parses, m, 14);
    VerdictAt(parses, m, 15);
  }

  /** A manifest that validates and then brings the daemon down. */
  lemma RedisPanicExample(parses: string -> bool, m: Manifest)
    requires Validated(parses, m) && parses("100m") && parses("128Mi") && !parses("lots")
    ensures var broken := m.(redis := Redis(true, "", ResourceList("", "lots"), NO_LIMITS));
            Validated(parses, broken) && PanicsAtRedis(parses, broken.redis)
  {
    var broken := m.(redis := Redis(true, "", ResourceList("", "lots"), NO_LIMITS));
    forall i | 0 <= i < |Verdicts(parses, broken)| ensures Verdicts(parses, broken)[i].None? {
      VerdictAt(parses, m, i);
    }
    RedisPanicsExactly(parses, broken);
  }

  /** With the defaults filled in, an empty manifest passes every check. */
  lemma DefaultsValidate(parses: string -> bool, m: Manifest, application: string)
    requires parses("500m") && parses("512Mi") && parses("200m") && parses("256Mi")
    requires m.image == "" && m.deploymentStrategy == "" && m.replicas == Replicas(0, 0, 0)
    requires m.resources == ResourceRequirements(NO_LIMITS, NO_LIMITS) && m.used == [] && m.exposed == [] &&
             m.alerts == []
    requires m.redis.limits == NO_LIMITS == m.redis.requests
    requires ':' !in application
    ensures Validated(parses, AddDefaultManifestValues(m, application))
  {
    var image := "docker.adeo.no:5000/" + application;
    assert image[19] == '/';
    assert forall j :: 19 < j < |image| ==> image[j] == application[j - 20];
    var verdicts := Verdicts(parses, AddDefaultManifestValues(m, application));
    assert forall i :: 0 <= i < |verdicts| ==> verdicts[i].None?;
  }

  /** The manifest's own text, or the default where it has none. */
  predicate IsFilled(filled: string, given: string, default_: string) {
    if given == "" then filled == default_ else filled == given
  }

  predicate IsFilledNumber(filled: int, given: int, default_: int) {
    if given == 0 then filled == default_ else filled == given
  }

  /** Filling in defaults leaves what is given, closes each gap with its own default, and touches nothing else. */
  lemma DefaultsFillGaps(m: Manifest, application: string)
    ensures var d := AddDefaultManifestValues(m, application);
            && IsFilled(d.image, m.image, "docker.adeo.no:5000/" + application)
            && IsFilled(d.deploymentStrategy, m.deploymentStrategy, "RollingUpdate")
            && IsFilled(d.livenessPath, m.livenessPath, "isAlive")
            && IsFilled(d.prometheusPath, m.prometheusPath, "/metrics")
            && AreFilled(d.replicas, m.replicas) && HaveLimits(d.resources, m.resources)
            && m == d.(image := m.image, deploymentStrategy := m.deploymentStrategy, livenessPath := m.livenessPath,
                       prometheusPath := m.prometheusPath, replicas := m.replicas, resources := m.resources)
  {
  }

  predicate AreFilled(filled: Replicas, given: Replicas) {
    && IsFilledNumber(filled.min, given.min, 2) && IsFilledNumber(filled.max, given.max, 4)
    && IsFilledNumber(filled.cpuThresholdPercentage, given.cpuThresholdPercentage, 50)
  }

  predicate HaveLimits(filled: ResourceRequirements, given: ResourceRequirements) {
    && IsFilled(filled.limits.cpu, given.limits.cpu, "500m")
    && IsFilled(filled.limits.memory, given.limits.memory, "512Mi")
    && IsFilled(filled.requests.cpu, given.requests.cpu, "200m")
    && IsFilled(filled.requests.memory, given.requests.memory, "256Mi")
  }

  lemma RedisDefaultsFillGaps(redis: Redis)
    ensures var d := UpdateDefaultRedisValues(redis);
            && IsFilled(d.image, redis.image, "redis:5-alpine")
            && IsFilled(d.limits.cpu, redis.limits.cpu, "100m")
            && IsFilled(d.limits.memory, redis.limits.memory, "128Mi")
            && IsFilled(d.requests.cpu, redis.requests.cpu, "100m")
            && IsFilled(d.requests.memory, redis.requests.memory, "128Mi")
            && d.enabled == redis.enabled && UpdateDefaultRedisValues(d) == d
  {
  }
}
