/** Registering what an application exposes with Fasit: looking each resource up, then creating or updating it. */
module Fasit {

  import opened Wrappers
  import opened Text
  import opened Folds
  import opened NaisResources
  import opened Manifests
  import opened Kubernetes

  /** What is the same for all resources of one deploy. */
  datatype Target = Target(environmentClass: string, environment: string, zone: string, hostname: string)

  // ---- The payload ----

  datatype Payload =
    | RestService(alias: string, url: string, description: string, scope: Scope)
    | WebService(resourceType: string, alias: string, endpointUrl: string, wsdl: WsdlArtifact, securityToken: string,
                 description: string, scope: Scope)

  predicate IsRest(r: ExposedResource) {
    ToLower(r.resourceType) == "restservice"
  }

  predicate IsWebService(r: ExposedResource) {
    ToLower(r.resourceType) in {"webserviceendpoint", "soapservice"}
  }

  predicate Supported(r: ExposedResource) {
    IsRest(r) || IsWebService(r)
  }

  /** A resource for all zones has none; otherwise an existing resource keeps its scope.  Ids are positive. */
  function GenerateScope(r: ExposedResource, existing: Option<Stored>, target: Target): Scope {
    if r.allZones then Scope(target.environmentClass, target.environment, "")
    else if existing.Some? && existing.value.id > 0 then existing.value.payload.scope
    else Scope(target.environmentClass, target.environment, target.zone)
  }

  /** Nothing for a type that naisd does not know; it is sent as `null`. */
  function BuildResourcePayload(r: ExposedResource, existing: Option<Stored>, target: Target): Option<Payload> {
    var scope := GenerateScope(r, existing, target);
    if IsRest(r) then Some(RestService(r.alias, "https://" + target.hostname + r.path, r.description, scope))
    else if IsWebService(r) then
      Some(WebService(r.resourceType, r.alias, "https://" + target.hostname +
          r.path, r.wsdl, r.securityToken, r.description, scope))
    else None
  }

  // ---- The registry ----

  /** Lookups go by alias and type; the type in any case. */
  datatype Name = Name(alias: string, resourceType: string)

  datatype Stored = Stored(id: int, payload: Payload)

  datatype Registry = Registry(resources: map<Name, Stored>, nextId: int)

  function NameOf(r: ExposedResource): Name {
    Name(r.alias, ToLower(r.resourceType))
  }

  function PayloadName(payload: Payload): Name {
    match payload
    case RestService(alias, _, _, _) => Name(alias, ToLower("RestService"))
    case WebService(resourceType, alias, _, _, _, _, _) => Name(alias, ToLower(resourceType))
  }

  ghost predicate WellKept(registry: Registry) {
    && 0 < registry.nextId
    && (forall n :: n in registry.resources ==> 0 < registry.resources[n].id < registry.nextId)
    && (forall m, n | m in registry.resources && n in registry.resources ::
          registry.resources[m].id == registry.resources[n].id ==> m == n)
  }

  function Lookup(registry: Registry, n: Name): Option<Stored> {
    if n in registry.resources then Some(registry.resources[n]) else None
  }

  /** The registry with one more resource created or updated; an unknown type changes nothing. */
  function Place(target: Target, registry: Registry, r: ExposedResource): Registry {
    var existing := Lookup(registry, NameOf(r));
    match BuildResourcePayload(r, existing, target)
    case None => registry
    case Some(payload) =>
      if existing.Some? then registry.(resources := registry.resources[NameOf(r) := Stored(existing.value.id, payload)])
      else Registry(registry.resources[NameOf(r) := Stored(registry.nextId, payload)], registry.nextId + 1)
  }

  function Placing(target: Target): (Registry, ExposedResource) -> Registry {
    (registry, r) => Place(target, registry, r)
  }

  function PlaceAll(target: Target, registry: Registry, rs: seq<ExposedResource>): Registry {
    Fold(Placing(target), registry, rs)
  }

  // ---- The server and the client ----

  datatype FasitError = NotContacted | Rejected

  datatype Answer = Existing(stored: Stored) | Nothing | NoAnswer

  class Server {
    var resources: map<Name, Stored>
    var nextId: int
    var faults: seq<Fault>

    constructor ()
      ensures WellKept(State()) && State().resources == map[] && faults == []
    {
      resources, nextId, faults := map[], 1, [];
    }

    ghost function State(): Registry
      reads this
    {
      Registry(resources, nextId)
    }

    method NextFault() returns (fault: Fault)
      modifies this`faults
      ensures old(faults) == [] ==> fault == Fine && faults == []
    {
      fault := Fine;
      if |faults| > 0 {
        fault, faults := faults[0], faults[1..];
      }
    }

    method GetScopedResource(n: Name) returns (answer: Answer)
      modifies this`faults
      ensures old(faults) == [] ==> faults == [] && answer != NoAnswer
      ensures answer.Existing? ==> Lookup(State(), n) == Some(answer.stored)
      ensures answer == Nothing ==> Lookup(State(), n) == None
    {
      var fault := NextFault();
      answer := if fault != Fine then NoAnswer else if n in resources then Existing(resources[n]) else Nothing;
    }

    /** Creates a resource and answers with its id.  A request without content is rejected. */
    method Post(payload: Option<Payload>) returns (r: Result<int, FasitError>)
      modifies this
      ensures old(faults) == [] ==> faults == [] && (r.Success? <==> payload.Some?)
      ensures r.Success? ==> payload.Some? && r.value == old(nextId)
      ensures State() == old(State()) || (payload.Some? && State() == Created(old(State()), payload.value))
      ensures r.Success? ==> State() == Created(old(State()), payload.value)
    {
      var fault := NextFault();
      if fault == Refused {
        return Failure(NotContacted);
      }
      if payload.None? {
        return Failure(FasitError.Rejected);
      }
      resources, nextId := resources[PayloadName(payload.value) := Stored(nextId, payload.value)], nextId + 1;
      r := if fault == Lost then Failure(NotContacted) else Success(nextId - 1);
    }

    /** Replaces the resource with an id. */
    method Put(id: int, payload: Option<Payload>) returns (r: Result<int, FasitError>)
      modifies this
      ensures old(faults) == [] && (exists n :: HasId(old(State()), n, id)) ==>
              faults == [] && (r.Success? <==> payload.Some?)
      ensures r.Success? ==> payload.Some? && r.value == id
      ensures State() == old(State()) ||
              (payload.Some? &&
               exists n :: HasId(old(State()), n, id) && State() == Replaced(old(State()), n, payload.value))
      ensures r.Success? ==>
              exists n :: HasId(old(State()), n, id) && State() == Replaced(old(State()), n, payload.value)
    {
      var fault := NextFault();
      if fault == Refused {
        return Failure(NotContacted);
      }
      if payload.Some? && exists n :: n in resources && resources[n].id == id {
        var n :| n in resources && resources[n].id == id;
        assert HasId(old(State()), n, id);
        resources := (resources - {n})[PayloadName(payload.value) := Stored(id, payload.value)];
        r := if fault == Lost then Failure(NotContacted) else Success(id);
      } else {
        r := Failure(FasitError.Rejected);
      }
    }
  }

  predicate HasId(registry: Registry, n: Name, id: int) {
    n in registry.resources && registry.resources[n].id == id
  }

  /** What the server makes of a new payload, and of one that replaces what is called `n`. */
  function Created(registry: Registry, payload: Payload): Registry {
    Registry(registry.resources[PayloadName(payload) := Stored(registry.nextId, payload)], registry.nextId + 1)
  }

  function Replaced(registry: Registry, n: Name, payload: Payload): Registry
    requires n in registry.resources
  {
    registry.(resources := (registry.resources - {n})[PayloadName(payload) :=
        Stored(registry.resources[n].id, payload)])
  }

  /** What is sent is found again under the name it was looked up by. */
  lemma PayloadKeepsName(r: ExposedResource, existing: Option<Stored>, target: Target)
    ensures BuildResourcePayload(r, existing, target).Some? <==> Supported(r)
    ensures Supported(r) ==> PayloadName(BuildResourcePayload(r, existing, target).value) == NameOf(r)
  {
  }

  lemma ReplacedInPlace(registry: Registry, n: Name, payload: Payload)
    requires n in registry.resources && PayloadName(payload) == n
    ensures Replaced(registry, n, payload) ==
            registry.(resources := registry.resources[n := Stored(registry.resources[n].id, payload)])
  {
  }

  /** Creates or updates one resource: done, or not, or done with the answer lost. */
  method CreateOrUpdate(server: Server, r: ExposedResource, target: Target) returns (id: Result<int, FasitError>)
    requires WellKept(server.State())
    modifies server
    ensures server.State() in {old(server.State()), Place(target, old(server.State()), r)}
    ensures id.Success? ==>
              && Supported(r) && server.State() == Place(target, old(server.State()), r)
              && NameOf(r) in server.State().resources && server.State().resources[NameOf(r)].id == id.value
    ensures old(server.faults) == [] ==> server.faults == [] && (id.Success? <==> Supported(r))
  {
    var answer := server.GetScopedResource(NameOf(r));
    match answer {
      case NoAnswer =>
        id := Failure(NotContacted);
      case Nothing =>
        PayloadKeepsName(r, None, target);
        id := server.Post(BuildResourcePayload(r, None, target));
      case Existing(stored) =>
        var payload := BuildResourcePayload(r, Some(stored), target);
        PayloadKeepsName(r, Some(stored), target);
        ghost var before := server.State();
        assert HasId(before, NameOf(r), stored.id);
        if payload.Some? {
          ReplacedInPlace(before, NameOf(r), payload.value);
        }
        id := server.Put(stored.id, payload);
    }
  }

  /** The ids of the resources, in order. */
  ghost predicate IdsOf(ids: seq<int>, rs: seq<ExposedResource>, registry: Registry) {
    |ids| == |rs| && forall i :: 0 <= i < |rs| ==>
        Lookup(registry, NameOf(rs[i])).Some? && ids[i] == Lookup(registry, NameOf(rs[i])).value.id
  }

  predicate AllSupported(rs: seq<ExposedResource>) {
    forall i :: 0 <= i < |rs| ==> Supported(rs[i])
  }

  /** Goes through the resources until one fails; those before it are in place, and that one perhaps. */
  method CreateOrUpdateFasitResources(server: Server, rs: seq<ExposedResource>, target: Target)
    returns (r: Result<seq<int>, FasitError>)
    requires WellKept(server.State())
    modifies server
    ensures WellKept(server.State())
    ensures exists k :: 0 <= k <= |rs| && server.State() == PlaceAll(target, old(server.State()), rs[..k])
    ensures r.Success? ==>
              && AllSupported(rs) && server.State() == PlaceAll(target, old(server.State()), rs)
              && IdsOf(r.value, rs, server.State())
              && forall n :: Registered(target, old(server.State()), server.State(), rs, n)
    ensures old(server.faults) == [] ==> (r.Success? <==> AllSupported(rs))
  {
    ghost var start := server.State();
    var ids: seq<int> := [];
    for i := 0 to |rs|
      invariant WellKept(server.State()) && server.State() == PlaceAll(target, start, rs[..i])
      invariant IdsOf(ids, rs[..i], server.State())
      invariant AllSupported(rs[..i])
      invariant old(server.faults) == [] ==> server.faults == []
    {
      ghost var before := server.State();
      assert rs[..i + 1] == rs[..i] + [rs[i]] && rs[..i + 0] == rs[..i];
      FoldMore(Placing(target), start, rs[..i], rs[i]);
      PlaceKeeps(target, before, rs[i]);
      var id := CreateOrUpdate(server, rs[i], target);
      if id.Failure? {
        return Failure(id.error);
      }
      ids := ids + [id.value];
    }
    assert rs[..|rs|] == rs;
    forall n ensures Registered(target, start, server.State(), rs, n) {
      PlacedIsRegistered(target, start, rs, n);
    }
    r := Success(ids);
  }

  /** Ids are there to stay. */
  lemma PlaceKeeps(target: Target, registry: Registry, r: ExposedResource)
    requires WellKept(registry)
    ensures WellKept(Place(target, registry, r))
    ensures forall n :: n in registry.resources ==>
              n in Place(target, registry, r).resources &&
                  Place(target, registry, r).resources[n].id == registry.resources[n].id
  {
  }

  // ---- Doing it again ----

  function LastFor(rs: seq<ExposedResource>, n: Name): Option<ExposedResource> {
    if rs == [] then None
    else if NameOf(rs[|rs| - 1]) == n && Supported(rs[|rs| - 1]) then Some(rs[|rs| - 1])
    else LastFor(rs[..|rs| - 1], n)
  }

  predicate ForAllZones(rs: seq<ExposedResource>, n: Name) {
    exists i :: 0 <= i < |rs| && NameOf(rs[i]) == n && Supported(rs[i]) && rs[i].allZones
  }

  /** The payload but for its scope is that of `r`. */
  predicate Describes(payload: Payload, r: ExposedResource, target: Target) {
    Supported(r) && Some(payload) == BuildResourcePayload(r.(allZones := false), Some(Stored(1, payload)), target)
  }

  /** What placing `rs` leaves behind for each name. */
  ghost predicate InPlace(target: Target, registry: Registry, rs: seq<ExposedResource>) {
    forall n :: InPlaceFor(target, registry, rs, n)
  }

  lemma ForAllZonesNext(rs: seq<ExposedResource>, r: ExposedResource, n: Name)
    ensures ForAllZones(rs + [r], n) <==> ForAllZones(rs, n) || (NameOf(r) == n && Supported(r) && r.allZones)
  {
    var all := rs + [r];
    assert all[|rs|] == r;
    if i :| 0 <= i < |rs| && NameOf(rs[i]) == n && Supported(rs[i]) && rs[i].allZones {
      assert all[i] == rs[i];
    }
  }

  ghost predicate InPlaceFor(target: Target, registry: Registry, rs: seq<ExposedResource>, n: Name) {
    LastFor(rs, n).Some? ==>
      && n in registry.resources
      && Describes(registry.resources[n].payload, LastFor(rs, n).value, target)
      && (ForAllZones(rs, n) ==>
           registry.resources[n].payload.scope == Scope(target.environmentClass, target.environment, ""))
  }

  lemma PlacedNext(target: Target, before: Registry, front: seq<ExposedResource>, r: ExposedResource, n: Name)
    requires WellKept(before) && InPlaceFor(target, before, front, n)
    ensures InPlaceFor(target, Place(target, before, r), front + [r], n)
  {
    assert (front + [r])[..|front|] == front;
    ForAllZonesNext(front, r, n);
    ZonedIsThere(front, n);
  }

  lemma {:induction false} PlacedIsInPlace(target: Target, registry: Registry, rs: seq<ExposedResource>)
    requires WellKept(registry)
    ensures WellKept(PlaceAll(target, registry, rs)) && InPlace(target, PlaceAll(target, registry, rs), rs)
  {
    if rs != [] {
      var front, r := rs[..|rs| - 1], rs[|rs| - 1];
      PlacedIsInPlace(target, registry, front);
      var before := PlaceAll(target, registry, front);
      PlaceKeeps(target, before, r);
      forall n ensures InPlaceFor(target, Place(target, before, r), front + [r], n) {
        PlacedNext(target, before, front, r, n);
      }
      assert rs == front + [r];
    }
  }

  lemma {:induction false} ZonedIsThere(rs: seq<ExposedResource>, n: Name)
    ensures ForAllZones(rs, n) ==> LastFor(rs, n).Some?
  {
    if rs != [] {
      ZonedIsThere(rs[..|rs| - 1], n);
      assert rs == rs[..|rs| - 1] + [rs[|rs| - 1]];
      ForAllZonesNext(rs[..|rs| - 1], rs[|rs| - 1], n);
    }
  }

  /** Half-way through the second run only descriptions differ, and only of names that are yet to come again. */
  ghost predicate Revisited(target: Target, full: Registry, now: Registry, front: seq<ExposedResource>) {
    && now.nextId == full.nextId && now.resources.Keys == full.resources.Keys
    && forall n :: n in full.resources ==>
         && now.resources[n].id == full.resources[n].id
         && now.resources[n].payload.scope == full.resources[n].payload.scope
         && (match LastFor(front, n)
             case None => now.resources[n] == full.resources[n]
             case Some(r) => Describes(now.resources[n].payload, r, target))
  }

  /** Placing a resource that has its place keeps its id, and its scope unless it is for all zones. */
  lemma PlaceAgain(target: Target, registry: Registry, r: ExposedResource)
    requires WellKept(registry) && NameOf(r) in registry.resources && Supported(r)
    ensures var next, was := Place(target, registry, r), registry.resources[NameOf(r)];
            && next == registry.(resources := registry.resources[NameOf(r) := next.resources[NameOf(r)]])
            && next.resources[NameOf(r)].id == was.id && Describes(next.resources[NameOf(r)].payload, r, target)
            && next.resources[NameOf(r)].payload.scope ==
               if r.allZones then Scope(target.environmentClass, target.environment, "") else was.payload.scope
  {
  }

  lemma LastForNext(rs: seq<ExposedResource>, i: nat, n: Name)
    requires i < |rs|
    ensures LastFor(rs[..i + 1], n) == if NameOf(rs[i]) == n &&
            Supported(rs[i]) then Some(rs[i]) else LastFor(rs[..i], n)
  {
    assert rs[..i + 1][..i] == rs[..i];
  }

  lemma RevisitStored(target: Target, full: Registry, now: Registry, front: seq<ExposedResource>,
                      front': seq<ExposedResource>, r: ExposedResource, stored: Stored)
    requires Revisited(target, full, now, front) && NameOf(r) in full.resources
    requires stored.id == full.resources[NameOf(r)].id && Describes(stored.payload, r, target)
    requires stored.payload.scope == full.resources[NameOf(r)].payload.scope
    requires forall n :: LastFor(front', n) == if NameOf(r) == n then Some(r) else LastFor(front, n)
    ensures Revisited(target, full, now.(resources := now.resources[NameOf(r) := stored]), front')
  {
  }

  lemma RevisitNext(target: Target, full: Registry, now: Registry, rs: seq<ExposedResource>, i: nat)
    requires WellKept(now) && InPlace(target, full, rs) && i < |rs|
    requires Revisited(target, full, now, rs[..i])
    ensures Revisited(target, full, Place(target, now, rs[i]), rs[..i + 1])
  {
    var r := rs[i];
    forall n ensures LastFor(rs[..i + 1], n) == if NameOf(r) == n &&
        Supported(r) then Some(r) else LastFor(rs[..i], n)
  {
      LastForNext(rs, i, n);
    }
    if Supported(r) {
      SomethingIsLast(rs, i);
      ZonedScope(target, full, rs, i);
      PlaceAgain(target, now, r);
      RevisitStored(target, full, now, rs[..i], rs[..i + 1], r, Place(target, now, r).resources[NameOf(r)]);
    }
  }

  lemma ZonedScope(target: Target, full: Registry, rs: seq<ExposedResource>, i: nat)
    requires InPlace(target, full, rs) && i < |rs| && Supported(rs[i]) && LastFor(rs, NameOf(rs[i])).Some?
    ensures NameOf(rs[i]) in full.resources
    ensures rs[i].allZones ==>
              full.resources[NameOf(rs[i])].payload.scope == Scope(target.environmentClass, target.environment, "")
  {
    assert InPlaceFor(target, full, rs, NameOf(rs[i]));
    assert rs[i].allZones ==> ForAllZones(rs, NameOf(rs[i]));
  }

  lemma {:induction false} SomethingIsLast(rs: seq<ExposedResource>, i: nat)
    requires i < |rs| && Supported(rs[i])
    ensures LastFor(rs, NameOf(rs[i])).Some?
  {
    if i < |rs| - 1 {
      SomethingIsLast(rs[..|rs| - 1], i);
    }
  }

  lemma {:induction false} Revisiting(target: Target, full: Registry, rs: seq<ExposedResource>, i: nat)
    requires WellKept(full) && InPlace(target, full, rs) && i <= |rs|
    ensures Revisited(target, full, PlaceAll(target, full, rs[..i]), rs[..i])
  {
    if i > 0 {
      Revisiting(target, full, rs, i - 1);
      PlacedIsInPlace(target, full, rs[..i - 1]);
      RevisitNext(target, full, PlaceAll(target, full, rs[..i - 1]), rs, i - 1);
      assert rs[..i] == rs[..i - 1] + [rs[i - 1]];
      FoldMore(Placing(target), full, rs[..i - 1], rs[i - 1]);
    }
  }

  lemma DescriptionDetermines(p: Payload, q: Payload, r: ExposedResource, target: Target)
    requires Describes(p, r, target) && Describes(q, r, target) && p.scope == q.scope
    ensures p == q
  {
  }

  /** Placing the same resources again changes nothing at all: no new ids, no other scopes, the same descriptions. */
  lemma SecondRunChangesNothing(target: Target, registry: Registry, rs: seq<ExposedResource>)
    requires WellKept(registry)
    ensures PlaceAll(target, PlaceAll(target, registry, rs), rs) == PlaceAll(target, registry, rs)
  {
    var full := PlaceAll(target, registry, rs);
    PlacedIsInPlace(target, registry, rs);
    Revisiting(target, full, rs, |rs|);
    assert rs[..|rs|] == rs;
    RevisitedIsSame(target, full, PlaceAll(target, full, rs), rs);
  }

  lemma RevisitedIsSame(target: Target, full: Registry, again: Registry, rs: seq<ExposedResource>)
    requires InPlace(target, full, rs) && Revisited(target, full, again, rs)
    ensures again == full
  {
    forall n | n in full.resources ensures again.resources[n] == full.resources[n] {
      assert InPlaceFor(target, full, rs, n);
      if LastFor(rs, n).Some? {
        DescriptionDetermines(again.resources[n].payload, full.resources[n].payload, LastFor(rs, n).value, target);
      }
    }
  }

  /** A run that starts over after one that broke off anywhere ends as if nothing had happened, ids included. */
  lemma RetryConverges(target: Target, registry: Registry, rs: seq<ExposedResource>, k: nat)
    requires WellKept(registry) && k <= |rs|
    ensures PlaceAll(target, PlaceAll(target, registry, rs[..k]), rs) == PlaceAll(target, registry, rs)
  {
    assert rs == rs[..k] + rs[k..];
    FoldConcat(Placing(target), PlaceAll(target, registry, rs[..k]), rs[..k], rs[k..]);
    FoldConcat(Placing(target), registry, rs[..k], rs[k..]);
    SecondRunChangesNothing(target, registry, rs[..k]);
  }

  /** Ids tell resources apart: the same for repeats, different for different names, and the same in a second run. */
  lemma IdsIdentify(target: Target, registry: Registry, rs: seq<ExposedResource>, ids: seq<int>, ids': seq<int>)
    requires WellKept(registry) && AllSupported(rs)
    requires IdsOf(ids, rs, PlaceAll(target, registry, rs))
    requires IdsOf(ids', rs, PlaceAll(target, PlaceAll(target, registry, rs), rs))
    ensures ids == ids'
    ensures forall i, j :: 0 <= i < |rs| && 0 <= j < |rs| ==> (ids[i] == ids[j] <==> NameOf(rs[i]) == NameOf(rs[j]))
  {
    SecondRunChangesNothing(target, registry, rs);
    PlacedIsInPlace(target, registry, rs);
  }

  // ---- What is registered ----

  /** The last of the exposed resources that is looked up under `n`. */
  ghost predicate IsLastOf(rs: seq<ExposedResource>, i: nat, n: Name) {
    && i < |rs| && rs[i].alias == n.alias && ToLower(rs[i].resourceType) == n.resourceType
    && forall j :: i < j < |rs| ==> !(rs[j].alias == n.alias && ToLower(rs[j].resourceType) == n.resourceType)
  }

  ghost predicate Exposes(rs: seq<ExposedResource>, n: Name) {
    exists r :: r in rs && r.alias == n.alias && ToLower(r.resourceType) == n.resourceType
  }

  ghost predicate ExposesToAllZones(rs: seq<ExposedResource>, n: Name) {
    exists r :: r in rs && r.allZones && r.alias == n.alias && ToLower(r.resourceType) == n.resourceType
  }

  /** The payload tells what the manifest says of the resource. */
  predicate Tells(payload: Payload, r: ExposedResource, hostname: string) {
    && payload.alias == r.alias && payload.description == r.description
    && if ToLower(r.resourceType) == "restservice"
       then payload.RestService? && payload.url == "https://" + hostname + r.path
       else
         && payload.WebService? && payload.resourceType == r.resourceType
         && payload.endpointUrl == "https://" + hostname + r.path
         && payload.wsdl == r.wsdl && payload.securityToken == r.securityToken
  }

  /** The scope of a name after its resources were placed: all zones if one of them asks for that; otherwise the scope
      it had, or, if it was not there, the zone of the deploy. */
  ghost predicate RightScope(scope: Scope, was: Option<Stored>, target: Target, toAllZones: bool) {
    scope == if toAllZones then Scope(target.environmentClass, target.environment, "")
             else if was.Some? then was.value.payload.scope
             else Scope(target.environmentClass, target.environment, target.zone)
  }

  const KNOWN_TYPES := {"restservice", "webserviceendpoint", "soapservice"}

  /** How one name stands in the registry after the exposed resources were placed. */
  ghost predicate Registered(target: Target, before: Registry, after: Registry, rs: seq<ExposedResource>, n: Name) {
    if n.resourceType in KNOWN_TYPES && Exposes(rs, n) then
      && n in after.resources
      && (forall i: nat :: IsLastOf(rs, i, n) ==> Tells(after.resources[n].payload, rs[i], target.hostname))
      && RightScope(after.resources[n].payload.scope, Lookup(before, n), target, ExposesToAllZones(rs, n))
      && (n in before.resources ==> after.resources[n].id == before.resources[n].id)
      && (n !in before.resources ==> after.resources[n].id >= before.nextId)
    else Lookup(after, n) == Lookup(before, n)
  }

  lemma ExposesMore(rs: seq<ExposedResource>, r: ExposedResource, n: Name)
    ensures Exposes(rs + [r], n) <==> Exposes(rs, n) || NameOf(r) == n
    ensures ExposesToAllZones(rs + [r], n) <==> ExposesToAllZones(rs, n) || (NameOf(r) == n && r.allZones)
  {
    assert r in rs + [r];
    assert forall x :: x in rs + [r] <==> x in rs || x == r;
  }

  lemma LastOfMore(rs: seq<ExposedResource>, r: ExposedResource, i: nat, n: Name)
    requires IsLastOf(rs + [r], i, n)
    ensures if NameOf(r) == n then i == |rs| else IsLastOf(rs, i, n)
  {
    var all := rs + [r];
    assert all[|rs|] == r;
    if i < |rs| {
      forall j | i < j < |rs| ensures !(rs[j].alias == n.alias && ToLower(rs[j].resourceType) == n.resourceType) {
        assert all[j] == rs[j];
      }
    }
  }

  /** What one placement does to the name of its resource. */
  lemma PlaceTells(target: Target, registry: Registry, r: ExposedResource)
    requires WellKept(registry)
    ensures var n, next := NameOf(r), Place(target, registry, r);
            if n.resourceType in KNOWN_TYPES then
              && n in next.resources && next.resources == registry.resources[n := next.resources[n]]
              && Tells(next.resources[n].payload, r, target.hostname)
              && RightScope(next.resources[n].payload.scope, Lookup(registry, n), target, r.allZones)
              && next.resources[n].id == (if n in registry.resources then registry.resources[n].id else registry.nextId)
              && registry.nextId <= next.nextId
            else next == registry
  {
  }

  lemma RegisteredNext(target: Target, before: Registry, now: Registry, rs: seq<ExposedResource>, r: ExposedResource,
                       n: Name)
    requires WellKept(now) && before.nextId <= now.nextId && Registered(target, before, now, rs, n)
    ensures Registered(target, before, Place(target, now, r), rs + [r], n)
    ensures before.nextId <= Place(target, now, r).nextId
  {
    PlaceTells(target, now, r);
    ExposesMore(rs, r, n);
    forall i: nat | IsLastOf(rs + [r], i, n) ensures if NameOf(r) == n then i == |rs| else IsLastOf(rs, i, n) {
      LastOfMore(rs, r, i, n);
    }
    assert (rs + [r])[|rs|] == r && forall i :: 0 <= i < |rs| ==> (rs + [r])[i] == rs[i];
  }

  /** Every exposed resource of a known type ends up registered as the last of its name says, in the right scope; every
      other name stays as it was. */
  lemma {:induction false} PlacedIsRegistered(target: Target, registry: Registry, rs: seq<ExposedResource>, n: Name)
    requires WellKept(registry)
    ensures Registered(target, registry, PlaceAll(target, registry, rs), rs, n)
    ensures registry.nextId <= PlaceAll(target, registry, rs).nextId
  {
    if rs != [] {
      var front, r := rs[..|rs| - 1], rs[|rs| - 1];
      PlacedIsRegistered(target, registry, front, n);
      PlacedIsInPlace(target, registry, front);
      RegisteredNext(target, registry, PlaceAll(target, registry, front), front, r, n);
      FoldMore(Placing(target), registry, front, r);
      assert rs == front + [r];
    }
  }
}
