/** Ingress rules: the default rule, the public rule of the sbs zone, and those of Fasit's load balancer configs. */
module Ingresses {

  import opened Wrappers
  import opened Text
  import opened App
  import opened NaisResources
  import opened Environment

  datatype IngressRule = IngressRule(host: string, path: string, serviceName: string)

  const ZONE_SBS := "sbs"
  const LOAD_BALANCER_CONFIG := "LoadBalancerConfig"

  function NormalPath(path: string): string {
    ReplaceFirst("/" + path, "//", "/")
  }

  function Rule(serviceName: string, host: string, path: string): IngressRule {
    IngressRule(host, NormalPath(path), serviceName)
  }

  function PublicHostname(fasitEnvironment: string): string {
    if fasitEnvironment != "p" then "tjenester-" + fasitEnvironment + ".nav.no" else "tjenester.nav.no"
  }

  // ---- Paths ----

  /** A path that begins with a slash is left as it is. */
  lemma RootedPathUnchanged(path: string)
    requires HasPrefix(path, "/")
    ensures NormalPath(path) == path
  {
  }

  lemma PathIsRooted(path: string)
    ensures HasPrefix(NormalPath(path), "/")
  {
  }

  lemma NormalPathIdempotent(path: string)
    ensures NormalPath(NormalPath(path)) == NormalPath(path)
  {
  }

  /** "Exactly one slash" is kept exactly when the input does not begin with two. */
  lemma BeginsWithOneSlash(path: string)
    ensures !HasPrefix(NormalPath(path), "//") <==> !HasPrefix(path, "//")
  {
    if HasPrefix(path, "/") {
      RootedPathUnchanged(path);
    } else if path != "" {
      var s := "/" + path;
      assert s[1] == path[0] && s[1..] == path;
      assert NormalPath(path) == [s[0]] + ReplaceFirst(path, "//", "/");
      FirstCharacterStays(path);
      assert NormalPath(path)[1] == path[0];
    }
  }

  lemma FirstCharacterStays(s: string)
    requires s != "" && s[0] != '/'
    ensures ReplaceFirst(s, "//", "/") != "" && ReplaceFirst(s, "//", "/")[0] == s[0]
  {
  }

  predicate PairAt(s: string, i: nat) {
    i + 1 < |s| && s[i] == '/' && s[i + 1] == '/'
  }

  /** There are two slashes at `i`, and nowhere before. */
  predicate FirstPairAt(s: string, i: nat) {
    PairAt(s, i) && forall j: nat :: j < i ==> !PairAt(s, j)
  }

  predicate HasPair(s: string) {
    exists i: nat :: i < |s| && PairAt(s, i)
  }

  /** A path with a slash in front, if it had none; then only does the first pair of slashes become one. */
  ghost predicate IsNormalOf(normal: string, path: string) {
    if HasPrefix(path, "/") then normal == path
    else
      && (!HasPair(path) ==> normal == "/" + path)
      && forall i: nat :: FirstPairAt(path, i) ==> normal == "/" + path[..i] + path[i + 1..]
  }

  lemma {:induction false} NoPairReplaced(s: string)
    requires !HasPair(s)
    ensures ReplaceFirst(s, "//", "/") == s
  {
    if |s| >= 2 {
      assert !PairAt(s, 0);
      forall i: nat | i < |s[1..]| ensures !PairAt(s[1..], i) {
        assert !PairAt(s, i + 1);
      }
      NoPairReplaced(s[1..]);
      assert s == [s[0]] + s[1..];
    }
  }

  lemma {:induction false} FirstPairReplaced(s: string, i: nat)
    requires FirstPairAt(s, i)
    ensures ReplaceFirst(s, "//", "/") == s[..i] + s[i + 1..]
  {
    if i == 0 {
      assert HasPrefix(s, "//") && "/" + s[2..] == s[1..];
    } else {
      assert !PairAt(s, 0);
      forall j: nat | j < i - 1 ensures !PairAt(s[1..], j) {
        assert !PairAt(s, j + 1);
      }
      FirstPairReplaced(s[1..], i - 1);
      assert s[..i] + s[i + 1..] == [s[0]] + (s[1..][..i - 1] + s[1..][i..]);
    }
  }

  lemma NormalPathExactly(path: string)
    ensures IsNormalOf(NormalPath(path), path)
  {
    if HasPrefix(path, "/") {
      RootedPathUnchanged(path);
    } else if path != "" {
      var s := "/" + path;
      assert s[1] == path[0] && s[1..] == path;
      assert NormalPath(path) == "/" + ReplaceFirst(path, "//", "/");
      if !HasPair(path) {
        NoPairReplaced(path);
      }
      forall i: nat | FirstPairAt(path, i) ensures NormalPath(path) == "/" + path[..i] + path[i + 1..] {
        FirstPairReplaced(path, i);
        assert "/" + (path[..i] + path[i + 1..]) == "/" + path[..i] + path[i + 1..];
      }
    }
  }

  // ---- Load balancer configs ----

  function Flatten<T>(blocks: seq<seq<T>>): seq<T> {
    if blocks == [] then [] else Flatten(blocks[..|blocks| - 1]) + blocks[|blocks| - 1]
  }

  lemma FlattenMore<T>(blocks: seq<seq<T>>, block: seq<T>)
    ensures Flatten(blocks + [block]) == Flatten(blocks) + block
  {
    assert (blocks + [block])[..|blocks|] == blocks;
  }

  lemma {:induction false} FlattenHas<T>(blocks: seq<seq<T>>, i: nat, x: T)
    requires i < |blocks| && x in blocks[i]
    ensures x in Flatten(blocks)
  {
    if i < |blocks| - 1 {
      FlattenHas(blocks[..|blocks| - 1], i, x);
    }
  }

  /** One config as read from the JSON; either field may be missing or of another type. */
  datatype LoadBalancerConfig = LoadBalancerConfig(url: Option<string>, contextRoots: Option<string>)

  function Roots(config: LoadBalancerConfig): seq<string> {
    Split(if config.contextRoots.Some? then config.contextRoots.value else "", ',')
  }

  function Paths(host: string, paths: seq<string>): (r: seq<FasitIngress>)
    ensures |r| == |paths| && forall i :: 0 <= i < |paths| ==> r[i] == FasitIngress(host, paths[i])
  {
    seq(|paths|, i requires 0 <= i < |paths| => FasitIngress(host, paths[i]))
  }

  /** One ingress per context root of each config with a url, in order. */
  function ConfiguredIngresses(configs: seq<LoadBalancerConfig>): seq<FasitIngress> {
    if configs == [] then []
    else ConfiguredIngresses(configs[..|configs| - 1]) +
         var last := configs[|configs| - 1];
         if last.url.Some? then Paths(last.url.value, Roots(last)) else []
  }

  function PathsIn(block: seq<FasitIngress>): (paths: seq<string>)
    ensures |paths| == |block| && forall i :: 0 <= i < |block| ==> paths[i] == block[i].path
  {
    seq(|block|, i requires 0 <= i < |block| => block[i].path)
  }

  /** What one config stands for: nothing without a url; otherwise its url with each piece of its text
      between commas. */
  predicate IsBlockOf(block: seq<FasitIngress>, config: LoadBalancerConfig) {
    if config.url.None? then block == []
    else
      && block != [] && AllFree(PathsIn(block), ',')
      && (forall x :: x in block ==> x.host == config.url.value)
      && Join(PathsIn(block), ",") == if config.contextRoots.Some? then config.contextRoots.value else ""
  }

  ghost predicate BlocksOf(blocks: seq<seq<FasitIngress>>, configs: seq<LoadBalancerConfig>) {
    |blocks| == |configs| && forall i :: 0 <= i < |configs| ==> IsBlockOf(blocks[i], configs[i])
  }

  /** The ingresses are those that the configs stand for, config by config. */
  ghost predicate FromConfigs(ingresses: seq<FasitIngress>, configs: seq<LoadBalancerConfig>) {
    exists blocks :: BlocksOf(blocks, configs) && ingresses == Flatten(blocks)
  }

  lemma PathsAreBlock(config: LoadBalancerConfig)
    requires config.url.Some?
    ensures IsBlockOf(Paths(config.url.value, Roots(config)), config)
  {
    assert PathsIn(Paths(config.url.value, Roots(config))) == Roots(config);
    JoinOfSplit(if config.contextRoots.Some? then config.contextRoots.value else "", ',');
  }

  lemma {:induction false} ConfiguredFromConfigs(configs: seq<LoadBalancerConfig>)
    returns (blocks: seq<seq<FasitIngress>>)
    ensures BlocksOf(blocks, configs) && ConfiguredIngresses(configs) == Flatten(blocks)
  {
    if configs == [] {
      blocks := [];
    } else {
      var front, last := configs[..|configs| - 1], configs[|configs| - 1];
      var before := ConfiguredFromConfigs(front);
      var block := if last.url.Some? then Paths(last.url.value, Roots(last)) else [];
      if last.url.Some? {
        PathsAreBlock(last);
      }
      FlattenMore(before, block);
      blocks := before + [block];
    }
  }

  lemma ConfiguredIsFromConfigs(configs: seq<LoadBalancerConfig>)
    ensures FromConfigs(ConfiguredIngresses(configs), configs)
  {
    var blocks := ConfiguredFromConfigs(configs);
  }

  datatype ParseError = NothingFound

  method AppendPaths(ingresses: seq<FasitIngress>, host: string, paths: seq<string>) returns (r: seq<FasitIngress>)
    ensures r == ingresses + Paths(host, paths)
  {
    r := ingresses;
    for j := 0 to |paths|
      invariant r == ingresses + Paths(host, paths)[..j]
    {
      r := r + [FasitIngress(host, paths[j])];
    }
  }

  method ParseLoadBalancerConfig(configs: seq<LoadBalancerConfig>) returns (r: Result<seq<FasitIngress>, ParseError>)
    ensures r.Failure? <==> configs != [] && forall c :: c in configs ==> c.url.None?
    ensures r.Success? ==> r.value == ConfiguredIngresses(configs)
    ensures r.Success? ==> FromConfigs(r.value, configs)
  {
    ConfiguredIsFromConfigs(configs);
    if |configs| == 0 {
      return Success([]);
    }
    var ingresses := CollectIngresses(configs);
    r := if |ingresses| == 0 then Failure(NothingFound) else Success(ingresses);
  }

  method CollectIngresses(configs: seq<LoadBalancerConfig>) returns (ingresses: seq<FasitIngress>)
    ensures ingresses == ConfiguredIngresses(configs)
    ensures ingresses == [] <==> forall c :: c in configs ==> c.url.None?
  {
    ingresses := [];
    for i := 0 to |configs|
      invariant ingresses == ConfiguredIngresses(configs[..i])
      invariant ingresses == [] <==> forall c :: c in configs[..i] ==> c.url.None?
    {
      assert configs[..i + 1] == configs[..i] + [configs[i]];
      assert configs[..i + 1][..i] == configs[..i];
      if configs[i].url.None? {
        continue;
      }
      ingresses := AppendPaths(ingresses, configs[i].url.value, Roots(configs[i]));
    }
    assert configs[..|configs|] == configs;
  }

  // ---- Rules ----

  function RulesFor(serviceName: string, ingresses: seq<FasitIngress>): (rules: seq<IngressRule>)
    ensures |rules| == |ingresses|
    ensures forall i :: 0 <= i < |rules| ==> rules[i] == Rule(serviceName, ingresses[i].host, ingresses[i].path)
  {
    seq(|ingresses|, i requires 0 <= i < |ingresses| => Rule(serviceName, ingresses[i].host, ingresses[i].path))
  }

  function LoadBalancerIngresses(rs: seq<NaisResource>): seq<FasitIngress> {
    if rs == [] then []
    else LoadBalancerIngresses(rs[..|rs| - 1]) +
         if rs[|rs| - 1].resourceType == LOAD_BALANCER_CONFIG then rs[|rs| - 1].ingresses else []
  }

  /** The default rule, the public rule in the sbs zone, then one rule per configured ingress. */
  function Rules(spec: Spec, request: Request, subdomain: string, rs: seq<NaisResource>): seq<IngressRule> {
    [Rule(spec.ResourceName(), IngressHostname(spec.application, request.namespace, subdomain), "")] +
    (if request.zone == ZONE_SBS
        then [Rule(spec.ResourceName(), PublicHostname(request.fasitEnvironment), spec.application)] else []) +
    RulesFor(spec.ResourceName(), LoadBalancerIngresses(rs))
  }

  method AppendRules(rules: seq<IngressRule>, serviceName: string, ingresses: seq<FasitIngress>)
    returns (r: seq<IngressRule>)
    ensures r == rules + RulesFor(serviceName, ingresses)
  {
    r := rules;
    for j := 0 to |ingresses|
      invariant r == rules + RulesFor(serviceName, ingresses)[..j]
    {
      r := r + [Rule(serviceName, ingresses[j].host, ingresses[j].path)];
    }
  }

  lemma RulesAreRooted(spec: Spec, request: Request, subdomain: string, rs: seq<NaisResource>)
    ensures var rules := Rules(spec, request, subdomain, rs);
            && |rules| == 1 + (if request.zone == ZONE_SBS then 1 else 0) + |LoadBalancerIngresses(rs)|
            && forall r :: r in rules ==> HasPrefix(r.path, "/") && r.serviceName == spec.ResourceName()
  {
  }

  lemma NextResource(serviceName: string, rs: seq<NaisResource>, i: nat)
    requires i < |rs|
    ensures var more := if rs[i].resourceType == LOAD_BALANCER_CONFIG then rs[i].ingresses else [];
            RulesFor(serviceName, LoadBalancerIngresses(rs[..i + 1])) ==
            RulesFor(serviceName, LoadBalancerIngresses(rs[..i])) + RulesFor(serviceName, more)
  {
    assert rs[..i + 1][..i] == rs[..i];
  }

  lemma AppendNext(fixed: seq<IngressRule>, serviceName: string, rs: seq<NaisResource>, i: nat)
    requires i < |rs|
    ensures var so, more := fixed + RulesFor(serviceName, LoadBalancerIngresses(rs[..i])), rs[i].ingresses;
            fixed + RulesFor(serviceName, LoadBalancerIngresses(rs[..i + 1])) ==
            if rs[i].resourceType == LOAD_BALANCER_CONFIG then so + RulesFor(serviceName, more) else so
  {
    NextResource(serviceName, rs, i);
  }

  /** The rules of the load balancer configs, behind those that are there already. */
  method AppendConfigured(fixed: seq<IngressRule>, serviceName: string, rs: seq<NaisResource>)
    returns (rules: seq<IngressRule>)
    ensures rules == fixed + RulesFor(serviceName, LoadBalancerIngresses(rs))
  {
    rules := fixed;
    for i := 0 to |rs|
      invariant rules == fixed + RulesFor(serviceName, LoadBalancerIngresses(rs[..i]))
    {
      AppendNext(fixed, serviceName, rs, i);
      if rs[i].resourceType == LOAD_BALANCER_CONFIG && |rs[i].ingresses| > 0 {
        rules := AppendRules(rules, serviceName, rs[i].ingresses);
      }
    }
    assert rs[..|rs|] == rs;
  }

  // ---- What the rules serve ----

  /** The rule sends what comes for the host under the path to the service. */
  ghost predicate Serves(rule: IngressRule, host: string, path: string, serviceName: string) {
    rule.host == host && IsNormalOf(rule.path, path) && rule.serviceName == serviceName
  }

  /** The rules every application gets: for its own host and, in the sbs zone, for its name on the public host. */
  ghost predicate ServesFixed(rules: seq<IngressRule>, spec: Spec, request: Request, subdomain: string) {
    && |rules| == (if request.zone == "sbs" then 2 else 1)
    && Serves(rules[0],
              if request.namespace == "default" then spec.application + "." + subdomain
              else spec.application + "-" + request.namespace + "." + subdomain,
              "", spec.application)
    && (request.zone == "sbs" ==>
          Serves(rules[1],
                 if request.fasitEnvironment == "p" then "tjenester.nav.no"
                 else "tjenester-" + request.fasitEnvironment + ".nav.no",
                 spec.application, spec.application))
  }

  /** One rule per ingress of a load balancer config, and none for any other resource. */
  ghost predicate ServesResource(block: seq<IngressRule>, r: NaisResource, serviceName: string) {
    if r.resourceType != "LoadBalancerConfig" then block == []
    else
      && |block| == |r.ingresses|
      && forall j :: 0 <= j < |block| ==> Serves(block[j], r.ingresses[j].host, r.ingresses[j].path, serviceName)
  }

  ghost predicate ServesResources(blocks: seq<seq<IngressRule>>, rs: seq<NaisResource>, serviceName: string) {
    |blocks| == |rs| && forall i :: 0 <= i < |rs| ==> ServesResource(blocks[i], rs[i], serviceName)
  }

  ghost predicate RightRules(rules: seq<IngressRule>, spec: Spec, request: Request, subdomain: string,
                             rs: seq<NaisResource>)
  {
    exists fixed, blocks ::
      ServesFixed(fixed, spec, request, subdomain) && ServesResources(blocks, rs, spec.application) &&
      rules == fixed + Flatten(blocks)
  }

  lemma RulesForServe(r: NaisResource, serviceName: string)
    ensures ServesResource(BlockFor(r, serviceName), r, serviceName)
  {
    forall path ensures IsNormalOf(NormalPath(path), path) {
      NormalPathExactly(path);
    }
  }

  function BlockFor(r: NaisResource, serviceName: string): seq<IngressRule> {
    if r.resourceType == LOAD_BALANCER_CONFIG then RulesFor(serviceName, r.ingresses) else []
  }

  lemma LastBlock(rs: seq<NaisResource>, serviceName: string)
    requires rs != []
    ensures RulesFor(serviceName, LoadBalancerIngresses(rs)) ==
            RulesFor(serviceName, LoadBalancerIngresses(rs[..|rs| - 1])) + BlockFor(rs[|rs| - 1], serviceName)
  {
    NextResource(serviceName, rs, |rs| - 1);
    assert rs[..|rs|] == rs;
  }

  lemma {:induction false} ResourcesServed(rs: seq<NaisResource>, serviceName: string)
    returns (blocks: seq<seq<IngressRule>>)
    ensures ServesResources(blocks, rs, serviceName)
    ensures RulesFor(serviceName, LoadBalancerIngresses(rs)) == Flatten(blocks)
  {
    if rs == [] {
      blocks := [];
    } else {
      var before := ResourcesServed(rs[..|rs| - 1], serviceName);
      var block := BlockFor(rs[|rs| - 1], serviceName);
      RulesForServe(rs[|rs| - 1], serviceName);
      FlattenMore(before, block);
      LastBlock(rs, serviceName);
      blocks := before + [block];
      OneMoreServed(before, block, rs, serviceName);
    }
  }

  lemma OneMoreServed(before: seq<seq<IngressRule>>, block: seq<IngressRule>, rs: seq<NaisResource>,
                      serviceName: string)
    requires rs != [] && ServesResources(before, rs[..|rs| - 1], serviceName)
    requires ServesResource(block, rs[|rs| - 1], serviceName)
    ensures ServesResources(before + [block], rs, serviceName)
  {
  }

  lemma RulesAreRight(spec: Spec, request: Request, subdomain: string, rs: seq<NaisResource>)
    ensures RightRules(Rules(spec, request, subdomain, rs), spec, request, subdomain, rs)
  {
    var blocks := ResourcesServed(rs, spec.application);
    var fixed :=
      [Rule(spec.ResourceName(), IngressHostname(spec.application, request.namespace, subdomain), "")] +
      (if request.zone == ZONE_SBS
          then [Rule(spec.ResourceName(), PublicHostname(request.fasitEnvironment), spec.application)] else []);
    NormalPathExactly("");
    NormalPathExactly(spec.application);
    assert ServesFixed(fixed, spec, request, subdomain);
  }

  /** From a config to the rules: each piece of its text between commas has a rule for its url. */
  lemma ConfiguredRootsServed(configs: seq<LoadBalancerConfig>, k: nat, rs: seq<NaisResource>, i: nat,
                              rules: seq<IngressRule>, spec: Spec, request: Request, subdomain: string)
    returns (roots: seq<string>)
    requires i < |rs| && rs[i].resourceType == "LoadBalancerConfig" && FromConfigs(rs[i].ingresses, configs)
    requires RightRules(rules, spec, request, subdomain, rs) && k < |configs| && configs[k].url.Some?
    ensures roots != [] && AllFree(roots, ',')
    ensures Join(roots, ",") == if configs[k].contextRoots.Some? then configs[k].contextRoots.value else ""
    ensures forall root :: root in roots ==>
              exists rule :: rule in rules && Serves(rule, configs[k].url.value, root, spec.application)
  {
    var parts :| BlocksOf(parts, configs) && rs[i].ingresses == Flatten(parts);
    var fixed, blocks :|
      ServesFixed(fixed, spec, request, subdomain) && ServesResources(blocks, rs, spec.application) &&
      rules == fixed + Flatten(blocks);
    roots := PathsIn(parts[k]);
    forall root | root in roots
      ensures exists rule :: rule in rules && Serves(rule, configs[k].url.value, root, spec.application)
    {
      var j :| 0 <= j < |roots| && roots[j] == root;
      FlattenHas(parts, k, parts[k][j]);
      var n :| 0 <= n < |rs[i].ingresses| && rs[i].ingresses[n] == parts[k][j];
      assert Serves(blocks[i][n], configs[k].url.value, root, spec.application);
      FlattenHas(blocks, i, blocks[i][n]);
    }
  }

  method CreateIngressRules(spec: Spec, request: Request, subdomain: string, rs: seq<NaisResource>)
    returns (rules: seq<IngressRule>)
    ensures rules == Rules(spec, request, subdomain, rs)
    ensures RightRules(rules, spec, request, subdomain, rs)
  {
    RulesAreRight(spec, request, subdomain, rs);
    var name := spec.ResourceName();
    rules := [Rule(name, IngressHostname(spec.application, request.namespace, subdomain), "")];
    if request.zone == ZONE_SBS {
      rules := rules + [Rule(name, PublicHostname(request.fasitEnvironment), spec.application)];
    }
    rules := AppendConfigured(rules, name, rs);
  }
}
