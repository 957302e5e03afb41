/** Handlers that run at the same time, without locks, over one API server, while others change objects too. Any number
    of handlers, any plans, any schedule, any network fault. */
module Interleaving {

  import opened Wrappers
  import opened App
  import opened Folds
  import opened Alerts
  import opened Kubernetes
  import opened Steps

  /** A request being served: its plan, how far it got, and what its current step has read. */
  datatype Handler = Handler(plan: seq<Step>, next: nat, seen: Option<Read>, stopped: bool)

  /** A change that took effect: a handler's step, or somebody else setting or removing an object. */
  datatype Commit = Did(who: nat, step: Step) | Outside(key: Key, content: Option<Content>)

  datatype System = System(store: Store, handlers: seq<Handler>, log: seq<Commit>)

  datatype Event =
    | Starts(plan: seq<Step>)
    | Looks(who: nat, reachable: bool)
    | Acts(who: nat, fault: Fault)
    | Interferes(key: Key, content: Option<Content>)

  predicate Busy(sys: System, who: nat) {
    who < |sys.handlers| && !sys.handlers[who].stopped && sys.handlers[who].next < |sys.handlers[who].plan|
  }

  function StepOf(h: Handler): Step
    requires h.next < |h.plan|
  {
    h.plan[h.next]
  }

  function Impose(s: Store, key: Key, content: Option<Content>): Store {
    if content.Some? then Write(s, key, content.value) else s.(objects := s.objects - {key})
  }

  function Next(sys: System, e: Event): System {
    match e
    case Starts(plan) => sys.(handlers := sys.handlers + [Handler(plan, 0, None, false)])
    case Looks(who, reachable) =>
      if Busy(sys, who) && sys.handlers[who].seen.None? then
        var h := sys.handlers[who];
        var read := if !LooksFirst(StepOf(h)) then Absent
                    else if reachable then Look(sys.store, Target(StepOf(h))) else Unreachable;
        sys.(handlers := sys.handlers[who := h.(seen := Some(read))])
      else sys
    case Acts(who, fault) =>
      if Busy(sys, who) && sys.handlers[who].seen.Some? then Act(sys, who, fault) else sys
    case Interferes(key, content) => System(Impose(sys.store, key, content), sys.handlers, sys.log +
      [Outside(key, content)])
  }

  function Act(sys: System, who: nat, fault: Fault): System
    requires Busy(sys, who) && sys.handlers[who].seen.Some?
  {
    var h := sys.handlers[who];
    var step := StepOf(h);
    var key, call := Target(step), Decide(step, h.seen.value);
    var (w, reply) := World(sys.store, [fault]).Send(key, call);
    var takesEffect := IsWrite(call) && fault != Refused && Verdict(sys.store, key, call) == Accepted;
    System(w.store,
           sys.handlers[who := if Stops(step, After(step, reply))
               then h.(stopped := true) else h.(next := h.next + 1, seen := None)],
           if takesEffect then sys.log + [Did(who, step)] else sys.log)
  }

  function Run(s: Store, events: seq<Event>): System {
    Fold(Next, System(s, [], []), events)
  }

  // ---- Serializability ----

  /** The effect of a commit that happens all at once. */
  function AtOnce(s: Store, c: Commit): Store {
    match c
    case Did(_, step) => Atomic(s, step)
    case Outside(key, content) => Impose(s, key, content)
  }

  /** What was read is either still there or will never come back under its version. */
  ghost predicate Current(s: Store, key: Key, read: Read) {
    read.Found? ==>
      && 0 < read.current.version <= s.clock
      && (key in s.objects && s.objects[key].version == read.current.version ==> s.objects[key] == read.current)
  }

  /** An accepted write does what the whole step would do at that moment, however old its reading is. */
  lemma AcceptedWriteIsAtomic(s: Store, step: Step, read: Read)
    requires Versioned(s) && Current(s, Target(step), read)
    requires IsWrite(Decide(step, read)) && Verdict(s, Target(step), Decide(step, read)) == Accepted
    ensures Perform(s, Target(step), Decide(step, read)) == Atomic(s, step)
  {
  }

  lemma CurrentStays(s: Store, s': Store, key: Key, read: Read)
    requires Current(s, key, read) && Later(s, s')
    ensures Current(s', key, read)
  {
  }

  ghost predicate Sound(h: Handler, s: Store) {
    h.seen.Some? ==> h.next < |h.plan| && Current(s, Target(StepOf(h)), h.seen.value)
  }

  ghost predicate Inv(s: Store, sys: System) {
    && Versioned(sys.store)
    && (forall i :: 0 <= i < |sys.handlers| ==> Sound(sys.handlers[i], sys.store))
    && sys.store == Fold(AtOnce, s, sys.log)
  }

  lemma ActKeepsInv(s: Store, sys: System, who: nat, fault: Fault)
    requires Inv(s, sys) && Busy(sys, who) && sys.handlers[who].seen.Some?
    ensures Inv(s, Act(sys, who, fault))
  {
    var h := sys.handlers[who];
    var step, read := StepOf(h), h.seen.value;
    var key, call := Target(step), Decide(step, read);
    var sys' := Act(sys, who, fault);
    PerformMovesOn(sys.store, key, call);
    if IsWrite(call) && fault != Refused && Verdict(sys.store, key, call) == Accepted {
      AcceptedWriteIsAtomic(sys.store, step, read);
      FoldMore(AtOnce, s, sys.log, Did(who, step));
    }
    assert Later(sys.store, sys'.store);
    forall i | 0 <= i < |sys'.handlers| ensures Sound(sys'.handlers[i], sys'.store) {
      if sys.handlers[i].seen.Some? {
        CurrentStays(sys.store, sys'.store, Target(StepOf(sys.handlers[i])), sys.handlers[i].seen.value);
      }
    }
  }

  lemma InterferesKeepsInv(s: Store, sys: System, key: Key, content: Option<Content>)
    requires Inv(s, sys)
    ensures Inv(s, Next(sys, Interferes(key, content)))
  {
    var sys' := Next(sys, Interferes(key, content));
    FoldMore(AtOnce, s, sys.log, Outside(key, content));
    forall i | 0 <= i < |sys.handlers| ensures Sound(sys.handlers[i], sys'.store) {
      if sys.handlers[i].seen.Some? {
        CurrentStays(sys.store, sys'.store, Target(StepOf(sys.handlers[i])), sys.handlers[i].seen.value);
      }
    }
  }

  lemma NextKeepsInv(s: Store, sys: System, e: Event)
    requires Inv(s, sys)
    ensures Inv(s, Next(sys, e))
  {
    match e
    case Acts(who, fault) =>
      if Busy(sys, who) && sys.handlers[who].seen.Some? {
        ActKeepsInv(s, sys, who, fault);
      }
    case Interferes(key, content) =>
      InterferesKeepsInv(s, sys, key, content);
    case _ =>
  }

  lemma {:induction false} RunKeepsInv(s: Store, events: seq<Event>)
    requires Versioned(s)
    ensures Inv(s, Run(s, events))
  {
    if events == [] {
    } else {
      RunKeepsInv(s, events[..|events| - 1]);
      NextKeepsInv(s, Run(s, events[..|events| - 1]), events[|events| - 1]);
    }
  }

  /** Every interleaving leaves the store, versions included, as if the writes that took effect had been made one whole
      step after the other. */
  lemma Serializable(s: Store, events: seq<Event>)
    requires Versioned(s)
    ensures Run(s, events).store == Fold(AtOnce, s, Run(s, events).log)
  {
    RunKeepsInv(s, events);
  }

  /** An update based on a stale reading is rejected and changes nothing. It ends its request, except that a deletion
      takes a configmap that has vanished meanwhile for one that was never there. */
  lemma StaleUpdateIsRejected(s: Store, events: seq<Event>, who: nat, fault: Fault)
    requires Versioned(s) && Busy(Run(s, events), who)
    requires var h := Run(s, events).handlers[who];
      h.seen.Some? && h.seen.value.Found? && !StepOf(h).PutRoleBinding? &&
      Decide(StepOf(h), h.seen.value).Update? &&
      Look(Run(s, events).store, Target(StepOf(h))) != h.seen.value
    ensures var sys, sys' := Run(s, events), Run(s, events + [Acts(who, fault)]);
            sys'.store == sys.store && sys'.log == sys.log &&
                (!StepOf(sys.handlers[who]).DropRules? ==> sys'.handlers[who].stopped)
  {
    RunKeepsInv(s, events);
    FoldMore(Next, System(s, [], []), events, Acts(who, fault));
    assert Sound(Run(s, events).handlers[who], Run(s, events).store);
    StaleActChangesNothing(Run(s, events), who, fault);
  }

  lemma StaleActChangesNothing(sys: System, who: nat, fault: Fault)
    requires Busy(sys, who) && sys.handlers[who].seen.Some? && Sound(sys.handlers[who], sys.store)
    requires var h := sys.handlers[who];
      h.seen.value.Found? && !StepOf(h).PutRoleBinding? && Decide(StepOf(h), h.seen.value).Update? &&
      Look(sys.store, Target(StepOf(h))) != h.seen.value
    ensures var sys' := Act(sys, who, fault);
            sys'.store == sys.store && sys'.log == sys.log &&
                (!StepOf(sys.handlers[who]).DropRules? ==> sys'.handlers[who].stopped)
  {
  }
}
