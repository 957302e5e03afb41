/** The identity of a deployed application, and the names built from it. */
module App {

  import opened Text

  datatype Spec = Spec(application: string, namespace: string, team: string) {

    function ResourceName(): string {
      application
    }

    /** The identity under which an application's Redis is deployed. */
    function Redis(): Spec {
      Spec(ResourceName() + "-redis", namespace, team)
    }

    function DeploymentPrefix(): string {
      team + "-" + application + "-" + namespace
    }

    /** The key of the application's rule file in the shared configmap. */
    function RuleFile(): string {
      DeploymentPrefix() + ".yml"
    }
  }

  function IngressHostname(application: string, namespace: string, subdomain: string): string {
    if namespace == "default" then application + "." + subdomain
    else application + "-" + namespace + "." + subdomain
  }

  /** Where team and application contain no dash, no two applications share a rule file.  The namespace is free. */
  lemma RuleFileInjective(a: Spec, b: Spec)
    requires Free(a.team, '-') && Free(a.application, '-')
    requires Free(b.team, '-') && Free(b.application, '-')
    ensures a.RuleFile() == b.RuleFile() <==> a == b
  {
    if a.RuleFile() == b.RuleFile() {
      var restA := a.application + "-" + a.namespace + ".yml";
      var restB := b.application + "-" + b.namespace + ".yml";
      assert a.RuleFile() == a.team + ['-'] + restA && b.RuleFile() == b.team + ['-'] + restB;
      HeadsAgree(a.team, b.team, '-', restA, restB);
      var tailA, tailB := a.namespace + ".yml", b.namespace + ".yml";
      assert restA == a.application + ['-'] + tailA && restB == b.application + ['-'] + tailB;
      HeadsAgree(a.application, b.application, '-', tailA, tailB);
      assert a.namespace == tailA[..|tailA| - 4] == tailB[..|tailB| - 4] == b.namespace;
    }
  }

  function Dashes(s: string): nat {
    if s == "" then 0 else Dashes(s[..|s| - 1]) + if s[|s| - 1] == '-' then 1 else 0
  }

  lemma {:induction false} DashesConcat(a: string, b: string)
    ensures Dashes(a + b) == Dashes(a) + Dashes(b)
  {
    if b == "" {
      assert a + b == a;
    } else {
      DashesConcat(a, b[..|b| - 1]);
      assert (a + b)[..|a + b| - 1] == a + b[..|b| - 1];
    }
  }

  lemma {:induction false} NoDashes(s: string)
    ensures Dashes(s) == 0 <==> Free(s, '-')
  {
    if s != "" {
      NoDashes(s[..|s| - 1]);
      assert s == s[..|s| - 1] + [s[|s| - 1]];
    }
  }

  lemma DashesOfPrefix(a: Spec)
    ensures Dashes(a.DeploymentPrefix()) == Dashes(a.team) + Dashes(a.application) + Dashes(a.namespace) + 2
  {
    DashesConcat(a.team + "-" + a.application + "-", a.namespace);
    DashesConcat(a.team + "-" + a.application, "-");
    DashesConcat(a.team + "-", a.application);
    DashesConcat(a.team, "-");
    assert Dashes("-") == 1 by {
      assert "-"[..0] == "";
    }
  }

  lemma PrefixOfRuleFile(a: Spec, b: Spec)
    requires a.RuleFile() == b.RuleFile()
    ensures a.DeploymentPrefix() == b.DeploymentPrefix()
  {
    var s := a.RuleFile();
    assert a.DeploymentPrefix() == s[..|s| - 4] == b.DeploymentPrefix();
  }

  predicate DashFree(a: Spec) {
    Free(a.team, '-') && Free(a.application, '-') && Free(a.namespace, '-')
  }

  /** No other application has this rule file. */
  ghost predicate OwnsRuleFile(a: Spec) {
    forall b: Spec :: b.RuleFile() == a.RuleFile() ==> b == a
  }

  lemma DashFreeOwns(a: Spec, b: Spec)
    requires DashFree(a) && b.RuleFile() == a.RuleFile()
    ensures b == a
  {
    PrefixOfRuleFile(a, b);
    DashesOfPrefix(a);
    DashesOfPrefix(b);
    NoDashes(a.team);
    NoDashes(a.application);
    NoDashes(a.namespace);
    NoDashes(b.team);
    NoDashes(b.application);
    RuleFileInjective(a, b);
  }

  lemma SplitAtDash(s: string) returns (head: string, tail: string)
    requires !Free(s, '-')
    ensures s == head + "-" + tail
  {
    var i :| 0 <= i < |s| && s[i] == '-';
    head, tail := s[..i], s[i + 1..];
  }

  /** Moving the border between two parts to another dash gives another application with the same rule file. */
  lemma DashShares(a: Spec) returns (b: Spec)
    requires !DashFree(a)
    ensures b != a && b.RuleFile() == a.RuleFile()
  {
    if !Free(a.team, '-') {
      var head, tail := SplitAtDash(a.team);
      b := Spec(tail + "-" + a.application, a.namespace, head);
      assert |b.team| < |a.team|;
      assert head + "-" + (tail + "-" + a.application) == head + "-" + tail + "-" + a.application;
    } else if !Free(a.application, '-') {
      var head, tail := SplitAtDash(a.application);
      b := Spec(tail, a.namespace, a.team + "-" + head);
      assert |b.team| > |a.team|;
      assert a.team + "-" + (head + "-" + tail) == a.team + "-" + head + "-" + tail;
    } else {
      var head, tail := SplitAtDash(a.namespace);
      b := Spec(a.application + "-" + head, tail, a.team);
      assert |b.application| > |a.application|;
      assert a.team + "-" + (a.application + "-" + head) + "-" + tail ==
             a.team + "-" + a.application + "-" + (head + "-" + tail);
    }
  }

  /** An application has its rule file for itself exactly when there is no dash in its team, name and namespace. */
  lemma RuleFileOwnedExactly(a: Spec)
    ensures OwnsRuleFile(a) <==> DashFree(a)
  {
    if DashFree(a) {
      forall b: Spec | b.RuleFile() == a.RuleFile() ensures b == a {
        DashFreeOwns(a, b);
      }
    } else {
      var b := DashShares(a);
    }
  }

  /** With dashes the rule file of one team's application can be that of another team's. */
  lemma RuleFileCollision()
    ensures exists a: Spec, b: Spec ::
              a.team != b.team && a.application != b.application && a.RuleFile() == b.RuleFile()
  {
    var a, b := Spec("pay-api", "default", "nais"), Spec("api", "default", "nais-pay");
    assert a.team != b.team && a.application != b.application;
    assert a.RuleFile() == "nais-pay-api-default.yml" == b.RuleFile();
  }

  // ---- Hostnames ----

  lemma HostnameInjective(a: Spec, b: Spec, subdomain: string)
    requires Free(a.application, '-') && Free(b.application, '-')
    ensures IngressHostname(a.application, a.namespace, subdomain) ==
            IngressHostname(b.application, b.namespace, subdomain)
       <==> a.application == b.application && a.namespace == b.namespace
  {
    var hostA := IngressHostname(a.application, a.namespace, subdomain);
    var hostB := IngressHostname(b.application, b.namespace, subdomain);
    if hostA == hostB {
      var end := "." + subdomain;
      var headA := if a.namespace == "default" then a.application else a.application + "-" + a.namespace;
      var headB := if b.namespace == "default" then b.application else b.application + "-" + b.namespace;
      assert hostA == headA + end && hostB == headB + end;
      assert headA == hostA[..|hostA| - |end|] == hostB[..|hostB| - |end|] == headB;
      if a.namespace != "default" {
        assert headA[|a.application|] == '-';
      }
      if b.namespace != "default" {
        assert headB[|b.application|] == '-';
      }
      if a.namespace != "default" && b.namespace != "default" {
        assert headA == a.application + ['-'] + a.namespace && headB == b.application + ['-'] + b.namespace;
        HeadsAgree(a.application, b.application, '-', a.namespace, b.namespace);
      }
    }
  }

  /** No other application in any namespace has this hostname. */
  ghost predicate OwnsHostname(application: string, namespace: string, subdomain: string) {
    forall app, ns :: IngressHostname(app, ns, subdomain) == IngressHostname(application, namespace, subdomain) ==>
      app == application && ns == namespace
  }

  /** After every dash comes the text "default". */
  predicate DashesOnlyBeforeDefault(s: string) {
    forall i :: 0 <= i < |s| && s[i] == '-' ==> s[i + 1..] == "default"
  }

  function HostPart(application: string, namespace: string): string {
    if namespace == "default" then application else application + "-" + namespace
  }

  lemma SameHostPart(app: string, ns: string, application: string, namespace: string, subdomain: string)
    ensures IngressHostname(app, ns, subdomain) == IngressHostname(application, namespace, subdomain) <==>
            HostPart(app, ns) == HostPart(application, namespace)
  {
    var end, host, host' := "." + subdomain, HostPart(app, ns), HostPart(application, namespace);
    assert IngressHostname(app, ns, subdomain) == host + end &&
           IngressHostname(application, namespace, subdomain) == host' + end;
    if host + end == host' + end {
      assert host == (host + end)[..|host + end| - |end|] == (host' + end)[..|host' + end| - |end|] == host';
    }
  }

  /** Outside the default namespace the hostname is always also that of an application in the default namespace. */
  lemma OtherNamespaceShares(application: string, namespace: string, subdomain: string)
    requires namespace != "default"
    ensures IngressHostname(application + "-" + namespace, "default", subdomain) ==
            IngressHostname(application, namespace, subdomain)
    ensures !OwnsHostname(application, namespace, subdomain)
  {
    SameHostPart(application + "-" + namespace, "default", application, namespace, subdomain);
  }

  lemma DashSharesHost(application: string, i: nat, subdomain: string)
    requires i < |application| && application[i] == '-' && application[i + 1..] != "default"
    ensures IngressHostname(application[..i], application[i + 1..], subdomain) ==
            IngressHostname(application, "default", subdomain)
    ensures application[..i] != application
  {
    assert application == application[..i] + "-" + application[i + 1..];
    SameHostPart(application[..i], application[i + 1..], application, "default", subdomain);
  }

  lemma DashBetween(app: string, ns: string)
    ensures var s := app + "-" + ns; s[|app|] == '-' && s[|app| + 1..] == ns
  {
  }

  lemma OnlyDefaultOwns(application: string, app: string, ns: string, subdomain: string)
    requires DashesOnlyBeforeDefault(application)
    requires IngressHostname(app, ns, subdomain) == IngressHostname(application, "default", subdomain)
    ensures app == application && ns == "default"
  {
    SameHostPart(app, ns, application, "default", subdomain);
    if ns != "default" {
      DashBetween(app, ns);
    }
  }

  /** An application has its hostname for itself exactly when it is in the default namespace and no dash of its name has
      anything but "default" behind it. */
  lemma HostnameOwnedExactly(application: string, namespace: string, subdomain: string)
    ensures OwnsHostname(application, namespace, subdomain) <==>
            namespace == "default" && DashesOnlyBeforeDefault(application)
  {
    if namespace != "default" {
      OtherNamespaceShares(application, namespace, subdomain);
    } else if DashesOnlyBeforeDefault(application) {
      forall app, ns | IngressHostname(app, ns, subdomain) == IngressHostname(application, namespace, subdomain)
        ensures app == application && ns == namespace
      {
        OnlyDefaultOwns(application, app, ns, subdomain);
      }
    } else {
      var i :| 0 <= i < |application| && application[i] == '-' && application[i + 1..] != "default";
      DashSharesHost(application, i, subdomain);
    }
  }

  /** With dashes two applications can ask for the same hostname. */
  lemma HostnameCollision(subdomain: string)
    ensures exists a: Spec, b: Spec ::
              a.application != b.application &&
              IngressHostname(a.application, a.namespace, subdomain) ==
                  IngressHostname(b.application, b.namespace, subdomain)
  {
    var a, b := Spec("pay-q1", "default", "t"), Spec("pay", "q1", "t");
    assert a.application != b.application;
    assert "pay-q1" == "pay" + "-" + "q1";
    assert IngressHostname(a.application, a.namespace, subdomain) ==
           IngressHostname(b.application, b.namespace, subdomain);
  }
}
