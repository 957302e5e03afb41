/** Alert rules of an application and the file they become in the shared configmap. The daemon rewrites the rules of the
    manifest in place, so the rules are an array here. */
module Alerts {

  import opened Text
  import opened App

  datatype AlertRule = AlertRule(
    alert: string,
    expr: string,
    forDuration: string,
    labels: map<string, string>,
    annotations: map<string, string>)

  datatype RuleGroup = RuleGroup(name: string, rules: seq<AlertRule>)

  /** A value of the configmap: the YAML of one rule group, or any other text. */
  datatype FileText = Yaml(group: RuleGroup) | Other(text: string)

  function PrefixedRule(rule: AlertRule, prefix: string): AlertRule {
    rule.(alert := prefix + "_" + rule.alert)
  }

  function SubstitutedRule(rule: AlertRule, namespace: string): AlertRule {
    rule.(expr := ReplaceAll(rule.expr, "$namespace", namespace))
  }

  function TeamRule(rule: AlertRule, team: string): AlertRule {
    if team == "" then rule else rule.(labels := rule.labels["team" := team])
  }

  /** What the daemon makes of one rule of the manifest. */
  function FinalRule(rule: AlertRule, spec: Spec, team: string): AlertRule {
    SubstitutedRule(PrefixedRule(TeamRule(rule, team), spec.DeploymentPrefix()), spec.namespace)
  }

  function Group(spec: Spec, team: string, rules: seq<AlertRule>): (group: RuleGroup)
    ensures |group.rules| == |rules|
  {
    RuleGroup(spec.DeploymentPrefix(), seq(|rules|, i requires 0 <= i < |rules| => FinalRule(rules[i], spec, team)))
  }

  method AddTeamLabel(rules: array<AlertRule>, team: string)
    modifies rules
    ensures forall i :: 0 <= i < rules.Length ==> rules[i] == TeamRule(old(rules[i]), team)
  {
    if team != "" {
      for i := 0 to rules.Length
        invariant forall j :: 0 <= j < i ==> rules[j] == TeamRule(old(rules[j]), team)
        invariant forall j :: i <= j < rules.Length ==> rules[j] == old(rules[j])
      {
        rules[i] := rules[i].(labels := rules[i].labels["team" := team]);
      }
    }
  }

  method PrefixAlertNames(rules: array<AlertRule>, prefix: string)
    modifies rules
    ensures forall i :: 0 <= i < rules.Length ==> rules[i] == PrefixedRule(old(rules[i]), prefix)
  {
    for i := 0 to rules.Length
      invariant forall j :: 0 <= j < i ==> rules[j] == PrefixedRule(old(rules[j]), prefix)
      invariant forall j :: i <= j < rules.Length ==> rules[j] == old(rules[j])
    {
      rules[i] := rules[i].(alert := prefix + "_" + rules[i].alert);
    }
  }

  method SubstituteNamespaceVariables(rules: array<AlertRule>, namespace: string)
    modifies rules
    ensures forall i :: 0 <= i < rules.Length ==> rules[i] == SubstitutedRule(old(rules[i]), namespace)
  {
    for i := 0 to rules.Length
      invariant forall j :: 0 <= j < i ==> rules[j] == SubstitutedRule(old(rules[j]), namespace)
      invariant forall j :: i <= j < rules.Length ==> rules[j] == old(rules[j])
    {
      rules[i] := rules[i].(expr := ReplaceAll(rules[i].expr, "$namespace", namespace));
    }
  }

  /** Sets the application's file and leaves every other file alone; the rules stay rewritten. */
  method AddRules(spec: Spec, team: string, rules: array<AlertRule>, data: map<string, FileText>)
    returns (updated: map<string, FileText>)
    modifies rules
    ensures updated == data[spec.RuleFile() := Yaml(Group(spec, team, old(rules[..])))]
    ensures rules[..] == Group(spec, team, old(rules[..])).rules
  {
    AddTeamLabel(rules, team);
    PrefixAlertNames(rules, spec.DeploymentPrefix());
    SubstituteNamespaceVariables(rules, spec.namespace);
    assert rules[..] == Group(spec, team, old(rules[..])).rules;
    updated := data[spec.RuleFile() := Yaml(RuleGroup(spec.DeploymentPrefix(), rules[..]))];
  }

  /** Rules that have been through a deploy once must not be used again: the names get a second prefix. */
  lemma RewritingIsNotIdempotent(spec: Spec, team: string, rules: seq<AlertRule>)
    ensures Group(spec, team, Group(spec, team, rules).rules) == Group(spec, team, rules) <==> rules == []
  {
    var once := Group(spec, team, rules);
    var twice := Group(spec, team, once.rules);
    if rules != [] {
      assert |twice.rules[0].alert| > |once.rules[0].alert|;
    }
  }
}
