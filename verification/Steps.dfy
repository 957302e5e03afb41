/** Every action of the daemon on the cluster as one step: look at one object, decide, write it. A deploy and a delete
    are lists of steps. */
module Steps {

  import opened Wrappers
  import opened App
  import opened Folds
  import opened Alerts
  import opened Manifests
  import opened PodSpecs
  import opened Kubernetes
  import Ingresses

  const RULES_KEY := Key(ConfigMaps, "nais", "app-rules")

  datatype Step =
    | EnsureServiceAccount(spec: Spec)
    | PutRoleBinding(spec: Spec)
    | PutService(spec: Spec)
    | PutRedisDeployment(spec: Spec, wanted: Result<DeploymentSpec, PodError>)
    | PutRedisService(spec: Spec)
    | PutDeployment(spec: Spec, wanted: Result<DeploymentSpec, PodError>)
    | PutSecret(spec: Spec, data: map<string, string>)
    | PutAutoscaler(spec: Spec, replicas: Replicas)
    | PutRules(spec: Spec, group: RuleGroup)
    | PutIngress(spec: Spec, livenessPath: string, rules: seq<Ingresses.IngressRule>)
    | DropService(spec: Spec)
    | DropDeployment(spec: Spec)
    | DropRedisDeployment(spec: Spec)
    | DropRedisService(spec: Spec)
    | DropSecret(spec: Spec)
    | DropIngress(spec: Spec)
    | DropAutoscaler(spec: Spec)
    | DropRules(spec: Spec)
    | DropServiceAccount(spec: Spec)

  /** The object a step is about. */
  function Target(step: Step): Key {
    var spec := step.spec;
    match step
    case EnsureServiceAccount(_) | DropServiceAccount(_) => Key(ServiceAccounts, spec.namespace, spec.ResourceName())
    case PutRoleBinding(_) => Key(RoleBindings, spec.namespace, spec.ResourceName())
    case PutService(_) | DropService(_) => Key(Services, spec.namespace, spec.ResourceName())
    case PutRedisDeployment(_, _) | DropRedisDeployment(_) => Key(Deployments, spec.namespace,
      spec.Redis().ResourceName())
    case PutRedisService(_) | DropRedisService(_) => Key(Services, spec.namespace, spec.Redis().ResourceName())
    case PutDeployment(_, _) | DropDeployment(_) => Key(Deployments, spec.namespace, spec.ResourceName())
    case PutSecret(_, _) | DropSecret(_) => Key(Secrets, spec.namespace, spec.ResourceName())
    case PutAutoscaler(_, _) | DropAutoscaler(_) => Key(Autoscalers, spec.namespace, spec.ResourceName())
    case PutIngress(_, _, _) | DropIngress(_) => Key(Kind.Ingresses, spec.namespace, spec.ResourceName())
    case PutRules(_, _) | DropRules(_) => RULES_KEY
  }

  // ---- What a step makes of the object it finds ----

  datatype Change = Keep | Put(content: Content) | Remove | Refuse(error: Error)

  function Labelled(labels: map<string, string>, spec: Spec): map<string, string> {
    labels["app" := spec.application]["environment" := spec.namespace]["team" := spec.team]
  }

  function LabelsOf(existing: Option<Content>): map<string, string> {
    if existing.Some? then existing.value.labels else map[]
  }

  /** Fields that are carried over from an existing object; its body is of the kind that has them. */
  function ReplicasOf(existing: Option<Content>): int {
    if existing.Some? && existing.value.body.Deployment? then existing.value.body.replicas else 1
  }

  function ClusterIPOf(existing: Option<Content>): string {
    if existing.Some? && existing.value.body.Service? then existing.value.body.clusterIP else ""
  }

  function FilesOf(existing: Option<Content>): map<string, FileText> {
    if existing.Some? && existing.value.body.ConfigMap? then existing.value.body.files else map[]
  }

  /** Conversion of a Go `int` to `int32`. */
  function Int32(i: int): int {
    (i + 0x8000_0000) % 0x1_0000_0000 - 0x8000_0000
  }

  function RedisDeploymentSpec(redisSpec: Spec, redis: Redis): DeploymentSpec {
    var exporterLimits := ResourceList("100m", "100Mi");
    DeploymentSpec(
      PodSelector(redisSpec), RECREATE,
      map["prometheus.io/scrape" := "true", "prometheus.io/port" := "9121", "prometheus.io/path" := "/metrics"],
      PodSpec([Container("redis", redis.image, [], [], ResourceRequirements(redis.limits, redis.requests)),
               Container("exporter", "oliver006/redis_exporter:v1.3.4-alpine", [], [],
                         ResourceRequirements(exporterLimits, exporterLimits))],
              [], [], ""))
  }

  /** Redis as the manifest asks for it; a quantity that does not parse ends the request. */
  function WantedRedis(parses: string -> bool, spec: Spec, m: Manifest): Result<DeploymentSpec, PodError> {
    var redis := UpdateDefaultRedisValues(m.redis);
    if MustParse(parses, redis.requests, redis.limits) then Success(RedisDeploymentSpec(spec.Redis(), redis))
    else Failure(BadQuantity)
  }

  function IngressAnnotations(livenessPath: string): map<string, string> {
    map["prometheus.io/scrape" := "true", "prometheus.io/path" := livenessPath]
  }

  function Desired(step: Step, existing: Option<Content>): Change {
    var spec := step.spec;
    var labels := Labelled(LabelsOf(existing), spec);
    match step
    case EnsureServiceAccount(_) =>
      if existing.Some? then Keep else Put(Content(labels, ServiceAccount))
    case PutRoleBinding(_) =>
      Put(Content(Labelled(map[], spec),
                  RoleBinding(spec.ResourceName(), spec.namespace, "ClusterRole", "serviceaccount-in-app-namespace")))
    case PutService(_) =>
      Put(Content(labels, Service(PodSelector(spec), "http", 80, ClusterIPOf(existing))))
    case PutRedisDeployment(_, wanted) =>
      (match wanted
       case Failure(cause) => Refuse(BadDeployment(cause))
       case Success(d) => Put(Content(Labelled(LabelsOf(existing), spec.Redis()), Deployment(1, d))))
    case PutRedisService(_) =>
      var redisLabels := Labelled(LabelsOf(existing), spec.Redis());
      Put(if existing.Some? then existing.value.(labels := redisLabels)
          else Content(redisLabels, Service(map["app" := spec.Redis().ResourceName()], "http", 6379, "")))
    case PutDeployment(_, wanted) =>
      (match wanted
       case Failure(cause) => Refuse(BadDeployment(cause))
       case Success(d) => Put(Content(labels, Deployment(ReplicasOf(existing), d))))
    case PutSecret(_, data) =>
      if existing.None? && data == map[] then Keep else Put(Content(labels, Secret(data)))
    case PutAutoscaler(_, replicas) =>
      Put(Content(labels, Autoscaler(Int32(replicas.min), Int32(replicas.max), Int32(replicas.cpuThresholdPercentage),
                                     spec.ResourceName())))
    case PutRules(_, group) =>
      Put(Content(LabelsOf(existing), ConfigMap(FilesOf(existing)[spec.RuleFile() := Yaml(group)])))
    case PutIngress(_, livenessPath, rules) =>
      Put(Content(if existing.Some?
          then existing.value.labels else labels, Ingress(IngressAnnotations(livenessPath), rules)))
    case DropIngress(_) | DropAutoscaler(_) =>
      if existing.Some? then Remove else Keep
    case DropRules(_) =>
      if existing.None? then Refuse(NoConfigMap)
      else Put(Content(LabelsOf(existing), ConfigMap(FilesOf(existing) - {spec.RuleFile()})))
    case _ => Remove
  }

  /** Most deletions do not look first. */
  predicate LooksFirst(step: Step) {
    !(step.DropService? || step.DropDeployment? || step.DropRedisDeployment? || step.DropRedisService? ||
      step.DropSecret? || step.DropServiceAccount?)
  }

  /** Service account and role binding take any failure to look as "not there". */
  predicate TakesFailureAsAbsence(step: Step) {
    step.EnsureServiceAccount? || step.PutRoleBinding?
  }

  function ContentOf(read: Read): Option<Content> {
    if read.Found? then Some(read.current.content) else None
  }

  /** The version an update carries: the one read, except that the role binding is written without one. */
  function VersionFor(step: Step, read: Read): nat {
    if read.Found? && !step.PutRoleBinding? then read.current.version else 0
  }

  /** The call a step makes after looking.  Create or update is chosen by the version of the object at hand. */
  function Decide(step: Step, read: Read): Call {
    if read.Unreachable? && !TakesFailureAsAbsence(step) then Abort(Unavailable)
    else match Desired(step, ContentOf(read))
      case Keep => Idle
      case Put(content) =>
        if VersionFor(step, read) != 0 ||
            (step.PutRoleBinding? && read.Found?) then Update(VersionFor(step, read), content)
        else Create(content)
      case Remove => Delete
      case Refuse(error) => Abort(error)
  }

  // ---- How a step ends ----

  datatype Outcome = Done | Missing | Failed(error: Error)

  predicate IsDrop(step: Step) {
    step.DropService? || step.DropDeployment? || step.DropRedisDeployment? || step.DropRedisService? ||
        step.DropSecret? ||
    step.DropIngress? || step.DropAutoscaler? || step.DropRules? || step.DropServiceAccount?
  }

  function After(step: Step, reply: Reply): Outcome {
    match reply
    case Accepted => Done
    case Rejected(error) =>
      if error == NotFound && step.DropServiceAccount? then Done
      else if error == NotFound && IsDrop(step) then Missing
      else Failed(error)
  }

  /** A failure ends the request, except for a failed deletion of Redis, which is only reported. */
  predicate Stops(step: Step, outcome: Outcome) {
    outcome.Failed? && !step.DropRedisDeployment? && !step.DropRedisService?
  }

  // ---- Running steps with nobody interfering ----

  function RunStep(w: World, step: Step): (World, Outcome) {
    var (seen, read) := if LooksFirst(step) then w.Get(Target(step)) else (w, Absent);
    var (sent, reply) := seen.Send(Target(step), Decide(step, read));
    (sent, After(step, reply))
  }

  function RunPlan(w: World, plan: seq<Step>): (World, seq<Outcome>)
    decreases |plan|
  {
    if plan == [] then (w, [])
    else
      var (first, outcome) := RunStep(w, plan[0]);
      if Stops(plan[0], outcome) then (first, [outcome])
      else
        var (last, outcomes) := RunPlan(first, plan[1..]);
        (last, [outcome] + outcomes)
  }

  /** The plan ran to its end. */
  predicate Completed(plan: seq<Step>, outcomes: seq<Outcome>) {
    |outcomes| == |plan| && forall i :: 0 <= i < |plan| ==> !Stops(plan[i], outcomes[i])
  }

  // ---- The plans ----

  /** What a deploy is to bring about: the manifest, and what was worked out from the request and the resources. */
  datatype Inputs = Inputs(
    manifest: Manifest,
    redis: Result<DeploymentSpec, PodError>,
    wanted: Result<DeploymentSpec, PodError>,
    data: map<string, string>,
    ingressRules: seq<Ingresses.IngressRule>)

  function IdentityPuts(spec: Spec): seq<Step> {
    [EnsureServiceAccount(spec), PutRoleBinding(spec), PutService(spec)]
  }

  function RedisPuts(spec: Spec, enabled: bool, wanted: Result<DeploymentSpec, PodError>): seq<Step> {
    if enabled then [PutRedisDeployment(spec, wanted), PutRedisService(spec)] else []
  }

  function DataPuts(spec: Spec, data: map<string, string>, replicas: Replicas): seq<Step> {
    [PutSecret(spec, data), PutAutoscaler(spec, replicas)]
  }

  function ExposurePuts(spec: Spec, m: Manifest, rules: seq<Ingresses.IngressRule>): seq<Step> {
    (if m.alerts == [] then [] else [PutRules(spec, Group(spec, m.team, m.alerts))]) +
    (if m.ingressDisabled then [] else [PutIngress(spec, m.livenessPath, rules)])
  }

  function DeployPlan(spec: Spec, inputs: Inputs): seq<Step> {
    var m := inputs.manifest;
    IdentityPuts(spec) + RedisPuts(spec, m.redis.enabled, inputs.redis) + [PutDeployment(spec, inputs.wanted)] +
    DataPuts(spec, inputs.data, m.replicas) + ExposurePuts(spec, m, inputs.ingressRules)
  }

  function DeletePlan(spec: Spec): seq<Step> {
    [DropService(spec), DropDeployment(spec), DropRedisDeployment(spec), DropRedisService(spec), DropSecret(spec),
     DropIngress(spec), DropAutoscaler(spec), DropRules(spec), DropServiceAccount(spec)]
  }

  // ---- The sequential meaning of a step ----

  /** The store after a step nobody interferes with. */
  function Atomic(s: Store, step: Step): Store {
    Perform(s, Target(step), Decide(step, Look(s, Target(step))))
  }

  function Replay(s: Store, plan: seq<Step>): Store {
    Fold(Atomic, s, plan)
  }

  /** Whatever a step writes is of the kind its key says. */
  lemma WritesItsKind(step: Step, read: Read)
    requires read.Found? ==> KindOf(read.current.content.body) == Target(step).kind
    ensures var call := Decide(step, read); call.Create? || call.Update? ==>
            KindOf(call.content.body) == Target(step).kind
  {
  }

  lemma AtomicMovesOn(s: Store, step: Step)
    ensures Later(s, Atomic(s, step))
    ensures Versioned(s) ==> Versioned(Atomic(s, step))
    ensures Typed(s) ==> Typed(Atomic(s, step))
  {
    if Typed(s) {
      WritesItsKind(step, Look(s, Target(step)));
    }
    PerformMovesOn(s, Target(step), Decide(step, Look(s, Target(step))));
  }

  /** The calls that can be rejected when nobody interferes: deleting what is not there, and giving up. */
  predicate MayFail(call: Call) {
    call.Delete? || call.Abort?
  }

  lemma ChoiceIsRight(s: Store, step: Step)
    requires Versioned(s)
    ensures var key, call := Target(step), Decide(step, Look(s, Target(step)));
            && (call.Create? ==> key !in s.objects)
            && (call.Update? ==> key in s.objects && call.version in {0, s.objects[key].version})
            && (!MayFail(call) ==> Verdict(s, key, call) == Accepted)
  {
  }

  lemma {:induction false} ReplayKeeps(s: Store, plan: seq<Step>)
    ensures Versioned(s) ==> Versioned(Replay(s, plan))
    ensures Typed(s) ==> Typed(Replay(s, plan))
  {
    if plan != [] {
      ReplayKeeps(s, plan[..|plan| - 1]);
      AtomicMovesOn(Replay(s, plan[..|plan| - 1]), plan[|plan| - 1]);
    }
  }

  /** All along a plan the choice between Create and Update is right: no Create of what exists, no Update of what does
      not or with a stale version. Versions stay non-empty and bodies keep to their kinds. */
  lemma {:induction false} NoWrongChoice(s: Store, plan: seq<Step>, i: nat)
    requires Versioned(s) && i < |plan|
    ensures var now := Replay(s, plan[..i]);
            var key, call := Target(plan[i]), Decide(plan[i], Look(now, Target(plan[i])));
            && Versioned(now) && (Typed(s) ==> Typed(now))
            && (call.Create? ==> key !in now.objects)
            && (call.Update? ==> key in now.objects && call.version in {0, now.objects[key].version})
            && (!MayFail(call) ==> Verdict(now, key, call) == Accepted)
  {
    ReplayKeeps(s, plan[..i]);
    ChoiceIsRight(Replay(s, plan[..i]), plan[i]);
  }

  /** A step that rewrites an object it finds succeeds exactly when that object has a version; the role binding is
      written without one. */
  lemma RewriteNeedsVersion(s: Store, step: Step)
    requires Target(step) in s.objects && Desired(step, Some(s.objects[Target(step)].content)).Put?
    ensures Verdict(s, Target(step), Decide(step, Look(s, Target(step)))) == Accepted <==>
            s.objects[Target(step)].version != 0 || step.PutRoleBinding?
  {
  }
}
