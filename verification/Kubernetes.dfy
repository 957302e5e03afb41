/** The API server as the daemon sees it: typed objects under keys, each with a resource version. Version 0 stands for
    the empty resourceVersion; every successful write hands out a version never seen before. */
module Kubernetes {

  import opened Wrappers
  import Alerts
  import Ingresses
  import PodSpecs

  datatype Kind =
    Services | Deployments | Secrets | Ingresses | Autoscalers | ConfigMaps | ServiceAccounts | RoleBindings

  datatype Key = Key(kind: Kind, namespace: string, name: string)

  datatype Body =
    | Service(selector: map<string, string>, portName: string, port: nat, clusterIP: string)
    | Deployment(replicas: int, spec: PodSpecs.DeploymentSpec)
    | Secret(data: map<string, string>)
    | Ingress(annotations: map<string, string>, rules: seq<Ingresses.IngressRule>)
    | Autoscaler(min: int, max: int, cpuTarget: int, scaleTarget: string)
    | ConfigMap(files: map<string, Alerts.FileText>)
    | ServiceAccount
    | RoleBinding(subject: string, subjectNamespace: string, roleKind: string, roleName: string)

  /** All of an object but its version. */
  datatype Content = Content(labels: map<string, string>, body: Body)

  datatype Object = Object(version: nat, content: Content)

  datatype Store = Store(objects: map<Key, Object>, clock: nat)

  function KindOf(body: Body): Kind {
    match body
    case Service(_, _, _, _) => Services
    case Deployment(_, _) => Deployments
    case Secret(_) => Secrets
    case Ingress(_, _) => Ingresses
    case Autoscaler(_, _, _, _) => Autoscalers
    case ConfigMap(_) => ConfigMaps
    case ServiceAccount => ServiceAccounts
    case RoleBinding(_, _, _, _) => RoleBindings
  }

  /** Every object has a non-empty version that was handed out. */
  ghost predicate Versioned(s: Store) {
    forall k :: k in s.objects ==> 0 < s.objects[k].version <= s.clock
  }

  /** Every object is of the kind its key says. */
  ghost predicate Typed(s: Store) {
    forall k :: k in s.objects ==> KindOf(s.objects[k].content.body) == k.kind
  }

  // ---- Calls ----

  datatype Error =
    NotFound | AlreadyExists | Conflict | Unavailable | NoConfigMap | BadDeployment(cause: PodSpecs.PodError)

  /** What a handler does after looking: nothing, one write, or giving up before writing. */
  datatype Call =
    | Idle
    | Create(content: Content)
    | Update(version: nat, content: Content)
    | Delete
    | Abort(error: Error)

  datatype Reply = Accepted | Rejected(error: Error)

  /** Whether the server takes the call, and if not why. */
  function Verdict(s: Store, key: Key, call: Call): Reply {
    match call
    case Idle => Accepted
    case Create(_) => if key in s.objects then Rejected(AlreadyExists) else Accepted
    case Update(version, _) =>
      if key !in s.objects then Rejected(NotFound)
      else if version != 0 && version != s.objects[key].version then Rejected(Conflict)
      else Accepted
    case Delete => if key in s.objects then Accepted else Rejected(NotFound)
    case Abort(error) => Rejected(error)
  }

  /** The store after the call; a rejected call changes nothing. */
  function Perform(s: Store, key: Key, call: Call): Store {
    if Verdict(s, key, call).Rejected? then s
    else match call
      case Create(content) => Write(s, key, content)
      case Update(_, content) => Write(s, key, content)
      case Delete => s.(objects := s.objects - {key})
      case _ => s
  }

  function Write(s: Store, key: Key, content: Content): Store {
    Store(s.objects[key := Object(s.clock + 1, content)], s.clock + 1)
  }

  predicate IsWrite(call: Call) {
    call.Create? || call.Update? || call.Delete?
  }

  /** Anything new in `s'` has a version that `s` had not handed out yet. */
  ghost predicate Later(s: Store, s': Store) {
    && s.clock <= s'.clock
    && forall k :: k in s'.objects ==>
         (k in s.objects && s'.objects[k] == s.objects[k]) || s.clock < s'.objects[k].version <= s'.clock
  }

  lemma PerformMovesOn(s: Store, key: Key, call: Call)
    ensures Later(s, Perform(s, key, call))
    ensures Versioned(s) ==> Versioned(Perform(s, key, call))
    ensures Typed(s) && (call.Create? || call.Update? ==> KindOf(call.content.body) == key.kind) ==>
            Typed(Perform(s, key, call))
  {
  }

  // ---- Looking ----

  datatype Read = Found(current: Object) | Absent | Unreachable

  function Look(s: Store, key: Key): Read {
    if key in s.objects then Found(s.objects[key]) else Absent
  }

  // ---- The cluster with its network ----

  /** What the network does to one call: nothing, losing the request, or losing the answer. */
  datatype Fault = Fine | Refused | Lost

  /** The store, and what the network will do to the calls to come (nothing, once the list is used up). */
  datatype World = World(store: Store, faults: seq<Fault>) {

    function Next(): Fault {
      if faults == [] then Fine else faults[0]
    }

    function Rest(): World {
      if faults == [] then this else this.(faults := faults[1..])
    }

    function Get(key: Key): (World, Read) {
      (Rest(), if Next() == Fine then Look(store, key) else Unreachable)
    }

    function Send(key: Key, call: Call): (World, Reply) {
      if !IsWrite(call) then (this, Verdict(store, key, call))
      else match Next()
        case Fine => (Rest().(store := Perform(store, key, call)), Verdict(store, key, call))
        case Refused => (Rest(), Rejected(Unavailable))
        case Lost => (Rest().(store := Perform(store, key, call)), Rejected(Unavailable))
    }
  }

  /** The client of the API server. */
  class Cluster {
    var objects: map<Key, Object>
    var clock: nat
    var faults: seq<Fault>

    constructor (objects: map<Key, Object>, clock: nat, faults: seq<Fault>)
      ensures State() == World(Store(objects, clock), faults)
    {
      this.objects, this.clock, this.faults := objects, clock, faults;
    }

    ghost function State(): World
      reads this
    {
      World(Store(objects, clock), faults)
    }

    method NextFault() returns (fault: Fault)
      modifies this`faults
      ensures fault == old(State()).Next() && State() == old(State()).Rest()
    {
      fault := Fine;
      if |faults| > 0 {
        fault, faults := faults[0], faults[1..];
      }
    }

    method Get(key: Key) returns (r: Read)
      modifies this`faults
      ensures (State(), r) == old(State()).Get(key)
    {
      var fault := NextFault();
      r := if fault != Fine then Unreachable else if key in objects then Found(objects[key]) else Absent;
    }

    method Create(key: Key, content: Content) returns (reply: Reply)
      modifies this
      ensures (State(), reply) == old(State()).Send(key, Call.Create(content))
    {
      var fault := NextFault();
      if fault == Refused {
        return Rejected(Unavailable);
      }
      if key in objects {
        reply := Rejected(AlreadyExists);
      } else {
        clock := clock + 1;
        objects := objects[key := Object(clock, content)];
        reply := Accepted;
      }
      if fault == Lost {
        reply := Rejected(Unavailable);
      }
    }

    method Update(key: Key, version: nat, content: Content) returns (reply: Reply)
      modifies this
      ensures (State(), reply) == old(State()).Send(key, Call.Update(version, content))
    {
      var fault := NextFault();
      if fault == Refused {
        return Rejected(Unavailable);
      }
      if key !in objects {
        reply := Rejected(NotFound);
      } else if version != 0 && version != objects[key].version {
        reply := Rejected(Conflict);
      } else {
        clock := clock + 1;
        objects := objects[key := Object(clock, content)];
        reply := Accepted;
      }
      if fault == Lost {
        reply := Rejected(Unavailable);
      }
    }

    method Delete(key: Key) returns (reply: Reply)
      modifies this
      ensures (State(), reply) == old(State()).Send(key, Call.Delete)
    {
      var fault := NextFault();
      if fault == Refused {
        return Rejected(Unavailable);
      }
      if key in objects {
        objects := objects - {key};
        reply := Accepted;
      } else {
        reply := Rejected(NotFound);
      }
      if fault == Lost {
        reply := Rejected(Unavailable);
      }
    }
  }
}
