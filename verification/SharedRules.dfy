/** No lost updates: the rule files that all applications share, and the replica counts an outside scaler sets, under
    any interleaving. */
module SharedRules {

  import opened Wrappers
  import opened App
  import opened Folds
  import opened Alerts
  import opened Kubernetes
  import opened Steps
  import opened Runs
  import opened Interleaving

  function FilesIn(s: Store): map<string, FileText> {
    FilesOf(ContentOf(Look(s, RULES_KEY)))
  }

  /** A commit's own change to the rule files. */
  function OwnChange(files: map<string, FileText>, c: Commit): map<string, FileText> {
    match c
    case Did(_, PutRules(spec, group)) => files[spec.RuleFile() := Yaml(group)]
    case Did(_, DropRules(spec)) => files - {spec.RuleFile()}
    case Did(_, _) => files
    case Outside(key, content) => if key == RULES_KEY then FilesOf(content) else files
  }

  lemma OtherStepsKeepFiles(s: Store, step: Step)
    requires Versioned(s) && !step.PutRules? && !step.DropRules?
    ensures FilesIn(Atomic(s, step)) == FilesIn(s)
  {
  }

  lemma RuleStepsChangeFiles(s: Store, step: Step)
    requires Versioned(s) && (step.PutRules? || step.DropRules?)
    ensures FilesIn(Atomic(s, step)) == OwnChange(FilesIn(s), Did(0, step))
  {
    AtomicEffect(s, step, RULES_KEY);
  }

  lemma OwnChangeOnly(s: Store, c: Commit)
    requires Versioned(s)
    ensures FilesIn(AtOnce(s, c)) == OwnChange(FilesIn(s), c)
  {
    match c
    case Outside(_, _) =>
    case Did(_, step) =>
      if step.PutRules? || step.DropRules? {
        RuleStepsChangeFiles(s, step);
      } else {
        OtherStepsKeepFiles(s, step);
      }
  }

  lemma AtOnceKeepsVersioned(s: Store, c: Commit)
    requires Versioned(s)
    ensures Versioned(AtOnce(s, c))
  {
    match c
    case Did(_, step) => AtomicMovesOn(s, step);
    case Outside(key, content) =>
  }

  lemma {:induction false} FilesFollowLog(s: Store, log: seq<Commit>)
    requires Versioned(s)
    ensures Versioned(Fold(AtOnce, s, log))
    ensures FilesIn(Fold(AtOnce, s, log)) == Fold(OwnChange, FilesIn(s), log)
  {
    if log != [] {
      var last := |log| - 1;
      FilesFollowLog(s, log[..last]);
      AtOnceKeepsVersioned(Fold(AtOnce, s, log[..last]), log[last]);
      OwnChangeOnly(Fold(AtOnce, s, log[..last]), log[last]);
    }
  }

  /** After any interleaving the rule files are what the commits' own changes make of them, in commit order: nobody ever
      writes back somebody else's old file. */
  lemma NoLostUpdates(s: Store, events: seq<Event>)
    requires Versioned(s)
    ensures FilesIn(Run(s, events).store) == Fold(OwnChange, FilesIn(s), Run(s, events).log)
  {
    Serializable(s, events);
    FilesFollowLog(s, Run(s, events).log);
  }

  // ---- What a handler that got past a step has left in the log ----

  /** Steps that cannot succeed without writing. */
  predicate AlwaysWrites(step: Step) {
    step.PutRoleBinding? || step.PutService? || step.PutRedisDeployment? || step.PutRedisService? ||
        step.PutDeployment? ||
    step.PutAutoscaler? || step.PutRules? || step.PutIngress?
  }

  /** A handler has left a commit for every writing step it got past. */
  ghost predicate Accounts(h: Handler, who: nat, log: seq<Commit>) {
    h.next <= |h.plan| && forall j :: 0 <= j < h.next ==> AlwaysWrites(h.plan[j]) ==> Did(who, h.plan[j]) in log
  }

  /** Nobody commits what is not in their plan. */
  ghost predicate Planned(sys: System) {
    forall c :: c in sys.log && c.Did? ==> c.who < |sys.handlers| && c.step in sys.handlers[c.who].plan
  }

  ghost predicate Accounted(sys: System) {
    Planned(sys) && forall i :: 0 <= i < |sys.handlers| ==> Accounts(sys.handlers[i], i, sys.log)
  }

  lemma PassedMeansWritten(step: Step, read: Read)
    requires AlwaysWrites(step)
    ensures IsWrite(Decide(step, read)) || Decide(step, read).Abort?
  {
  }

  lemma ActKeepsAccounted(sys: System, who: nat, fault: Fault)
    requires Accounted(sys) && Busy(sys, who) && sys.handlers[who].seen.Some?
    ensures Accounted(Act(sys, who, fault))
  {
    var sys' := Act(sys, who, fault);
    var h, h' := sys.handlers[who], sys'.handlers[who];
    var step := StepOf(h);
    assert step in h.plan && h'.plan == h.plan;
    assert sys'.log == sys.log || sys'.log == sys.log + [Did(who, step)];
    if AlwaysWrites(step) {
      PassedMeansWritten(step, h.seen.value);
    }
    assert AlwaysWrites(step) && h'.next == h.next + 1 ==> Did(who, step) in sys'.log;
    forall i | 0 <= i < |sys.handlers| ensures Accounts(sys'.handlers[i], i, sys'.log) {
      assert Accounts(sys.handlers[i], i, sys.log);
    }
  }

  lemma NextKeepsAccounted(sys: System, e: Event)
    requires Accounted(sys)
    ensures Accounted(Next(sys, e))
  {
    match e
    case Acts(who, fault) =>
      if Busy(sys, who) && sys.handlers[who].seen.Some? {
        ActKeepsAccounted(sys, who, fault);
      }
    case Interferes(key, content) =>
      var sys' := Next(sys, e);
      forall i | 0 <= i < |sys.handlers| ensures Accounts(sys'.handlers[i], i, sys'.log) {
        assert Accounts(sys.handlers[i], i, sys.log);
      }
    case Looks(who, _) =>
      var sys' := Next(sys, e);
      forall i | 0 <= i < |sys.handlers| ensures Accounts(sys'.handlers[i], i, sys'.log) {
        assert Accounts(sys.handlers[i], i, sys.log);
      }
    case Starts(plan) =>
      assert Accounts(Handler(plan, 0, None, false), |sys.handlers|, sys.log);
  }

  lemma {:induction false} RunKeepsAccounted(s: Store, events: seq<Event>)
    ensures Accounted(Run(s, events))
  {
    if events != [] {
      RunKeepsAccounted(s, events[..|events| - 1]);
      NextKeepsAccounted(Run(s, events[..|events| - 1]), events[|events| - 1]);
    }
  }

  predicate Touches(c: Commit, file: string) {
    match c
    case Did(_, step) => (step.PutRules? || step.DropRules?) && step.spec.RuleFile() == file
    case Outside(key, _) => key == RULES_KEY
  }

  lemma {:induction false} LastWordStays(files: map<string, FileText>, log: seq<Commit>, c: Commit)
    requires c in log && c.Did? && c.step.PutRules?
    requires forall d :: d in log && Touches(d, c.step.spec.RuleFile()) ==> d == c
    ensures var file := c.step.spec.RuleFile();
            file in Fold(OwnChange, files, log) && Fold(OwnChange, files, log)[file] == Yaml(c.step.group)
  {
    var front, last := log[..|log| - 1], log[|log| - 1];
    assert log == front + [last];
    if last != c {
      assert c in front;
      LastWordStays(files, front, c);
      assert !Touches(last, c.step.spec.RuleFile());
    }
  }

  /** No other handler is out to change the file, and nobody writes the configmap from outside. */
  ghost predicate Undisturbed(sys: System, who: nat, j: nat)
    requires who < |sys.handlers| && j < |sys.handlers[who].plan|
  {
    var step := sys.handlers[who].plan[j];
    && (forall c :: c in sys.log && c.Outside? ==> c.key != RULES_KEY)
    && (forall i, k :: 0 <= i < |sys.handlers| && 0 <= k < |sys.handlers[i].plan| ==>
          Touches(Did(i, sys.handlers[i].plan[k]), step.spec.RuleFile()) ==> i == who && k == j)
  }

  /** Once a handler is past writing its rules, they are there and stay there, whatever everybody else does to other
      files of the same configmap in the meantime. */
  lemma FinishedRulesSurvive(s: Store, events: seq<Event>, who: nat, j: nat)
    requires Versioned(s)
    requires who < |Run(s, events).handlers| && j < Run(s, events).handlers[who].next
    requires j < |Run(s, events).handlers[who].plan| && Run(s, events).handlers[who].plan[j].PutRules?
    requires Undisturbed(Run(s, events), who, j)
    ensures var sys := Run(s, events);
            var step := sys.handlers[who].plan[j];
            step.spec.RuleFile() in FilesIn(sys.store) && FilesIn(sys.store)[step.spec.RuleFile()] == Yaml(step.group)
  {
    var sys := Run(s, events);
    var step := sys.handlers[who].plan[j];
    NoLostUpdates(s, events);
    RunKeepsAccounted(s, events);
    assert Accounts(sys.handlers[who], who, sys.log);
    forall d | d in sys.log && Touches(d, step.spec.RuleFile()) ensures d == Did(who, step) {
      if d.Did? {
        var k :| 0 <= k < |sys.handlers[d.who].plan| && sys.handlers[d.who].plan[k] == d.step;
      }
    }
    LastWordStays(FilesIn(s), sys.log, Did(who, step));
  }

  // ---- Replicas ----

  predicate RunsReplicas(s: Store, key: Key, replicas: int) {
    key in s.objects && s.objects[key].content.body.Deployment? && s.objects[key].content.body.replicas == replicas
  }

  /** A deploy's write of an existing Deployment carries the replica count of the moment it is written, not of the
      moment it was read: a scaler in between makes it fail instead. */
  lemma ReplicasPreserved(s: Store, events: seq<Event>, who: nat, fault: Fault, replicas: int)
    requires Versioned(s) && Busy(Run(s, events), who) && StepOf(Run(s, events).handlers[who]).PutDeployment?
    requires RunsReplicas(Run(s, events).store, Target(StepOf(Run(s, events).handlers[who])), replicas)
    ensures RunsReplicas(Run(s, events + [Acts(who, fault)]).store, Target(StepOf(Run(s, events).handlers[who])),
            replicas)
  {
    var sys := Run(s, events);
    var h := sys.handlers[who];
    RunKeepsInv(s, events);
    FoldMore(Next, System(s, [], []), events, Acts(who, fault));
    if h.seen.Some? {
      var step, call := StepOf(h), Decide(StepOf(h), h.seen.value);
      assert Sound(h, sys.store);
      if IsWrite(call) && Verdict(sys.store, Target(step), call) == Accepted {
        AcceptedWriteIsAtomic(sys.store, step, h.seen.value);
      }
    }
  }
}
