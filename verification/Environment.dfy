/** The environment variables of the application container, the data of its Secret and the files of its certificate
    volume: three walks over the same maps that have to agree. Go leaves the order of a map walk open, so each walk here
    takes any remaining key. */
module Environment {

  import opened Wrappers
  import opened Text
  import opened App
  import opened NaisResources
  import opened Walks
  import ProxyOptions

  datatype Request = Request(
    application: string,
    version: string,
    zone: string,
    skipFasit: bool,
    fasitEnvironment: string,
    namespace: string,
    clusterName: string)

  datatype EnvValue = Literal(text: string) | SecretKeyRef(secretName: string, key: string)

  datatype EnvVar = EnvVar(name: string, value: EnvValue)

  datatype Clash = SameName(existing: string) | SameSecretKey(key: string)

  datatype EnvError = Duplicate(clash: Clash) | BadProxy(cause: ProxyOptions.ProxyError)

  // ---- Specification ----

  function DefaultVariables(request: Request): seq<EnvVar> {
    [EnvVar("APP_NAME", Literal(request.application)),
     EnvVar("APP_VERSION", Literal(request.version)),
     EnvVar("APP_ENVIRONMENT", Literal(request.namespace))] +
    (if request.skipFasit then [] else [EnvVar("FASIT_ENVIRONMENT_NAME", Literal(request.fasitEnvironment))]) +
    [EnvVar("NAIS_NAMESPACE", Literal(request.namespace)),
     EnvVar("NAIS_APP_NAME", Literal(request.application)),
     EnvVar("NAIS_APP_IMAGE", Literal(request.version)),
     EnvVar("NAIS_CLUSTER_NAME", Literal(request.clusterName))]
  }

  function BaseVariables(spec: Spec, request: Request, redisEnabled: bool): seq<EnvVar> {
    DefaultVariables(request) +
    if redisEnabled then [EnvVar("REDIS_HOST", Literal("rfs-" + spec.ResourceName()))] else []
  }

  /** The variable that belongs to one entry of the resources. */
  function Variable(spec: Spec, rs: seq<NaisResource>, e: Entry): EnvVar
    requires IsEntry(rs, e)
  {
    EnvVar(VariableName(rs, e),
           match e.kind
           case Property => Literal(Value(rs, e))
           case Secret => SecretKeyRef(spec.ResourceName(), Reference(rs, e))
           case Certificate => Literal(rs[e.resource].MountPoint(e.key)))
  }

  function Variables(spec: Spec, rs: seq<NaisResource>, order: seq<Entry>): (vars: seq<EnvVar>)
    requires forall e :: e in order ==> IsEntry(rs, e)
    ensures |vars| == |order|
    ensures forall i :: 0 <= i < |order| ==> vars[i] == Variable(spec, rs, order[i])
  {
    seq(|order|, i requires 0 <= i < |order| => assert order[i] in order; Variable(spec, rs, order[i]))
  }

  predicate NamesDistinct(vars: seq<EnvVar>) {
    forall i, j :: 0 <= i < j < |vars| ==> vars[i].name != vars[j].name
  }

  /** No entry is named like another entry or like one of the variables that are always there. */
  ghost predicate EntriesDistinct(base: seq<EnvVar>, rs: seq<NaisResource>) {
    && (forall a, b :: IsEntry(rs, a) && IsEntry(rs, b) && a != b ==> VariableName(rs, a) != VariableName(rs, b))
    && (forall a, i :: IsEntry(rs, a) && 0 <= i < |base| ==> VariableName(rs, a) != base[i].name)
  }

  /** `order` is one in which all entries of the resources can be visited. */
  ghost predicate Enumerates(order: seq<Entry>, rs: seq<NaisResource>) {
    Walk(order, rs, ALL_KINDS)
  }

  /** What a run may produce: the base variables, then one variable per entry in some order. */
  ghost predicate Lists(vars: seq<EnvVar>, spec: Spec, base: seq<EnvVar>, rs: seq<NaisResource>) {
    exists order :: Enumerates(order, rs) && vars == base + Variables(spec, rs, order)
  }

  lemma BaseNamesDistinct(spec: Spec, request: Request, redisEnabled: bool)
    ensures NamesDistinct(BaseVariables(spec, request, redisEnabled))
  {
  }

  // ---- The duplicate check ----

  predicate SameKey(a: EnvValue, b: EnvValue) {
    a.SecretKeyRef? && b.SecretKeyRef? && a.key == b.key
  }

  /** The existing variable at `i` is in the way of `envVar`, for the reason `clash`. */
  predicate ClashesAt(envVars: seq<EnvVar>, i: nat, envVar: EnvVar, clash: Clash)
    requires i < |envVars|
  {
    match clash
    case SameName(existing) => envVars[i].name == envVar.name == existing
    case SameSecretKey(key) =>
      envVars[i].name != envVar.name && SameKey(envVars[i].value, envVar.value) && envVar.value.key == key
  }

  predicate InTheWay(existing: EnvVar, envVar: EnvVar) {
    existing.name == envVar.name || SameKey(existing.value, envVar.value)
  }

  method CheckForDuplicates(envVars: seq<EnvVar>, envVar: EnvVar) returns (clash: Option<Clash>)
    ensures clash.None? <==> forall i :: 0 <= i < |envVars| ==> !InTheWay(envVars[i], envVar)
    ensures clash.Some? ==> exists i :: 0 <= i < |envVars| && ClashesAt(envVars, i, envVar, clash.value) &&
                                   forall j :: 0 <= j < i ==> !InTheWay(envVars[j], envVar)
  {
    for i := 0 to |envVars|
      invariant forall j :: 0 <= j < i ==> !InTheWay(envVars[j], envVar)
    {
      var existing := envVars[i];
      if envVar.name == existing.name {
        assert ClashesAt(envVars, i, envVar, SameName(existing.name));
        return Some(SameName(existing.name));
      }
      if envVar.value.Literal? || existing.value.Literal? {
        continue;
      }
      if envVar.value.key == existing.value.key {
        assert ClashesAt(envVars, i, envVar, SameSecretKey(existing.value.key));
        return Some(SameSecretKey(existing.value.key));
      }
    }
    clash := None;
  }

  // ---- The walk ----

  /** The variables made so far: one for each entry in `order`, behind the base variables. */
  ghost predicate Made(vars: seq<EnvVar>, spec: Spec, base: seq<EnvVar>, rs: seq<NaisResource>, order: seq<Entry>) {
    && (forall e :: e in order ==> IsEntry(rs, e))
    && Ascends(order)
    && vars == base + Variables(spec, rs, order)
    && NamesDistinct(vars)
  }

  /** Adds the variable of one entry, unless something is in its way. */
  method AddEntry(spec: Spec, rs: seq<NaisResource>, i: nat, kind: EntryKind, key: string, vars: seq<EnvVar>,
                  ghost base: seq<EnvVar>, ghost order: seq<Entry>)
    returns (r: Result<seq<EnvVar>, Clash>)
    requires IsEntry(rs, Entry(i, kind, key)) && Entry(i, kind, key) !in order
    requires Below(order, 3 * i + KindIndex(kind) + 1)
    requires Made(vars, spec, base, rs, order) && forall v :: v in base ==> v.value.Literal?
    ensures r.Failure? ==> r.error.SameName? && !EntriesDistinct(base, rs)
    ensures r.Success? ==> Made(r.value, spec, base, rs, order + [Entry(i, kind, key)])
  {
    var res := rs[i];
    var envVar := EnvVar(res.ToEnvironmentVariable(key),
                         match kind
                         case Property => Literal(res.properties[key])
                         case Secret => SecretKeyRef(spec.ResourceName(), res.ToResourceVariable(key))
                         case Certificate => Literal(res.MountPoint(key)));
    ghost var entry := Entry(i, kind, key);
    assert envVar == Variable(spec, rs, entry);
    var clash := CheckForDuplicates(vars, envVar);
    if clash.Some? {
      ClashMeansSameName(spec, rs, base, order, entry, clash.value);
      r := Failure(clash.value);
    } else {
      OneMore(spec, base, rs, vars, order, entry);
      r := Success(vars + [envVar]);
    }
  }

  /** Adds the variables of one map of one resource, in any order. */
  method AddEntries(spec: Spec, rs: seq<NaisResource>, i: nat, kind: EntryKind, envVars: seq<EnvVar>,
                    ghost base: seq<EnvVar>, ghost order: seq<Entry>)
    returns (r: Result<seq<EnvVar>, Clash>, ghost extended: seq<Entry>)
    requires i < |rs| && Made(envVars, spec, base, rs, order)
    requires Below(order, 3 * i + KindIndex(kind))
    requires forall v :: v in base ==> v.value.Literal?
    ensures r.Failure? ==> r.error.SameName? && !EntriesDistinct(base, rs)
    ensures r.Success? ==>
      && Made(r.value, spec, base, rs, extended) && Adds(extended, order, i, kind, Entries(rs[i], kind).Keys)
      && Below(extended, 3 * i + KindIndex(kind) + 1)
  {
    extended := order;
    r := Success(envVars);
    var keys := Entries(rs[i], kind).Keys;
    ghost var done := {};
    while keys != {}
      invariant r.Success? && Made(r.value, spec, base, rs, extended)
      invariant Adds(extended, order, i, kind, done) && Below(extended, 3 * i + KindIndex(kind) + 1)
      invariant keys !! done && keys + done == Entries(rs[i], kind).Keys
      decreases |keys|
    {
      var key :| key in keys;
      r := AddEntry(spec, rs, i, kind, key, r.value, base, extended);
      if r.Failure? {
        return;
      }
      AddsOneMore(extended, order, Entry(i, kind, key), done);
      extended, keys, done := extended + [Entry(i, kind, key)], keys - {key}, done + {key};
    }
    assert done == Entries(rs[i], kind).Keys;
  }

  lemma OneMore(spec: Spec, base: seq<EnvVar>, rs: seq<NaisResource>, vars: seq<EnvVar>, order: seq<Entry>, e: Entry)
    requires Made(vars, spec, base, rs, order) && IsEntry(rs, e) && e !in order && Below(order, Rank(e) + 1)
    requires forall i :: 0 <= i < |vars| ==> vars[i].name != VariableName(rs, e)
    ensures Made(vars + [Variable(spec, rs, e)], spec, base, rs, order + [e])
  {
    ExtendVariables(spec, rs, order, e);
    AscendsMore(order, e);
  }

  lemma ExtendVariables(spec: Spec, rs: seq<NaisResource>, order: seq<Entry>, e: Entry)
    requires IsEntry(rs, e) && forall e' :: e' in order ==> IsEntry(rs, e')
    ensures Variables(spec, rs, order + [e]) == Variables(spec, rs, order) + [Variable(spec, rs, e)]
  {
  }

  /** The secret-key branch of the check is never the one that fires: it would need a second variable with the same name
      first. */
  lemma ClashMeansSameName(spec: Spec, rs: seq<NaisResource>, base: seq<EnvVar>, order: seq<Entry>, e: Entry,
                           clash: Clash)
    requires IsEntry(rs, e) && e !in order && forall e' :: e' in order ==> IsEntry(rs, e')
    requires forall v :: v in base ==> v.value.Literal?
    requires var vars := base + Variables(spec, rs, order);
             exists i :: 0 <= i < |vars| && ClashesAt(vars, i, Variable(spec, rs, e), clash)
    ensures clash.SameName? && !EntriesDistinct(base, rs)
  {
  }

  function GetEnvDualCase(environ: map<string, string>, name: string): string {
    if ToUpper(name) in environ then environ[ToUpper(name)]
    else if ToLower(name) in environ then environ[ToLower(name)]
    else ""
  }

  function DualCase(key: string, value: string): seq<EnvVar> {
    [EnvVar(ToUpper(key), Literal(value)), EnvVar(ToLower(key), Literal(value))]
  }

  /** The variables of the web proxy, which go in without a duplicate check. */
  function ProxyVariables(parse: string -> ProxyOptions.ParsedUrl, environ: map<string, string>)
    : Result<seq<EnvVar>, ProxyOptions.ProxyError>
  {
    var url, noProxy := GetEnvDualCase(environ, "NAIS_POD_HTTP_PROXY"), GetEnvDualCase(environ, "NAIS_POD_NO_PROXY");
    match ProxyOptions.Options(parse, url, noProxy)
    case Failure(e) => Failure(e)
    case Success(flags) =>
      Success(ProxyTexts(url, noProxy, ProxyOptions.FormatText(flags)))
  }

  function AddressTexts(url: string): seq<EnvVar> {
    if url == "" then [] else DualCase("HTTP_PROXY", url) + DualCase("HTTPS_PROXY", url)
  }

  function ExceptionTexts(noProxy: string): seq<EnvVar> {
    if noProxy == "" then [] else DualCase("NO_PROXY", noProxy)
  }

  function JavaTexts(javaOptions: string): seq<EnvVar> {
    if javaOptions == "" then [] else [EnvVar("JAVA_PROXY_OPTIONS", Literal(javaOptions))]
  }

  function ProxyTexts(url: string, noProxy: string, javaOptions: string): seq<EnvVar> {
    AddressTexts(url) + ExceptionTexts(noProxy) + JavaTexts(javaOptions)
  }

  method AppendDualCaseEnvVar(envVars: seq<EnvVar>, key: string, value: string) returns (r: seq<EnvVar>)
    ensures r == envVars + DualCase(key, value)
  {
    r := envVars;
    var keys := [ToUpper(key), ToLower(key)];
    for i := 0 to |keys|
      invariant r == envVars + DualCase(key, value)[..i]
    {
      r := r + [EnvVar(keys[i], Literal(value))];
    }
  }

  method AppendProxyAddresses(envVars: seq<EnvVar>, proxyUrl: string, noProxy: string) returns (vars: seq<EnvVar>)
    ensures vars == envVars + ProxyTexts(proxyUrl, noProxy, "")
  {
    vars := envVars;
    if |proxyUrl| > 0 {
      vars := AppendDualCaseEnvVar(vars, "HTTP_PROXY", proxyUrl);
      vars := AppendDualCaseEnvVar(vars, "HTTPS_PROXY", proxyUrl);
    }
    if |noProxy| > 0 {
      vars := AppendDualCaseEnvVar(vars, "NO_PROXY", noProxy);
    }
  }

  method CreateProxyEnvironmentVariables(envVars: seq<EnvVar>, parse: string -> ProxyOptions.ParsedUrl,
                                         environ: map<string, string>)
    returns (r: Result<seq<EnvVar>, EnvError>)
    ensures r.Success? <==> ProxyVariables(parse, environ).Success?
    ensures r.Success? ==> r.value == envVars + ProxyVariables(parse, environ).value
    ensures r.Failure? ==> r.error == BadProxy(ProxyVariables(parse, environ).error)
  {
    var proxyUrl, noProxy :=
        GetEnvDualCase(environ, "NAIS_POD_HTTP_PROXY"), GetEnvDualCase(environ, "NAIS_POD_NO_PROXY");
    var vars := AppendProxyAddresses(envVars, proxyUrl, noProxy);
    var javaOpts := ProxyOptions.JavaProxyOptions(parse, proxyUrl, noProxy);
    if javaOpts.Failure? {
      return Failure(BadProxy(javaOpts.error));
    }
    JavaOptionsLast(proxyUrl, noProxy, javaOpts.value);
    if |javaOpts.value| > 0 {
      vars := vars + [EnvVar("JAVA_PROXY_OPTIONS", Literal(javaOpts.value))];
    }
    r := Success(vars);
  }

  lemma JavaOptionsLast(url: string, noProxy: string, javaOptions: string)
    ensures ProxyTexts(url, noProxy, javaOptions) ==
            ProxyTexts(url, noProxy, "") + if javaOptions == ""
                then [] else [EnvVar("JAVA_PROXY_OPTIONS", Literal(javaOptions))]
  {
  }

  /** Adds the variables of one resource: its properties, its secrets, its certificates. */
  method AddResource(spec: Spec, rs: seq<NaisResource>, i: nat, envVars: seq<EnvVar>, ghost base: seq<EnvVar>,
                     ghost order: seq<Entry>)
    returns (r: Result<seq<EnvVar>, Clash>, ghost extended: seq<Entry>)
    requires i < |rs| && Made(envVars, spec, base, rs, order)
    requires WalkTo(order, rs, ALL_KINDS, i)
    requires forall v :: v in base ==> v.value.Literal?
    ensures r.Failure? ==> r.error.SameName? && !EntriesDistinct(base, rs)
    ensures r.Success? ==>
      && Made(r.value, spec, base, rs, extended)
      && WalkTo(extended, rs, ALL_KINDS, i + 1)
  {
    r, extended := AddEntries(spec, rs, i, Property, envVars, base, order);
    if r.Failure? {
      return;
    }
    r, extended := AddEntries(spec, rs, i, Secret, r.value, base, extended);
    if r.Failure? {
      return;
    }
    r, extended := AddEntries(spec, rs, i, Certificate, r.value, base, extended);
  }

  /** The walk over all resources, behind the variables that are always there. */
  method AddResources(spec: Spec, rs: seq<NaisResource>, base: seq<EnvVar>) returns (r: Result<seq<EnvVar>, Clash>)
    requires NamesDistinct(base) && forall v :: v in base ==> v.value.Literal?
    ensures r.Success? <==> EntriesDistinct(base, rs)
    ensures r.Success? ==> Lists(r.value, spec, base, rs) && NamesDistinct(r.value)
    ensures r.Failure? ==> r.error.SameName?
  {
    ghost var order: seq<Entry> := [];
    assert base + Variables(spec, rs, order) == base;
    r := Success(base);
    for i := 0 to |rs|
      invariant r.Success? && Made(r.value, spec, base, rs, order)
      invariant WalkTo(order, rs, ALL_KINDS, i)
    {
      r, order := AddResource(spec, rs, i, r.value, base, order);
      if r.Failure? {
        return;
      }
    }
    assert Enumerates(order, rs);
    DistinctWhenListed(spec, base, rs, order);
  }

  /** All variables but those of the proxy. */
  method CreateResourceVariables(spec: Spec, request: Request, redisEnabled: bool, rs: seq<NaisResource>)
    returns (r: Result<seq<EnvVar>, Clash>)
    ensures r.Success? <==> EntriesDistinct(BaseVariables(spec, request, redisEnabled), rs)
    ensures r.Success? ==>
            Lists(r.value, spec, BaseVariables(spec, request, redisEnabled), rs) && NamesDistinct(r.value)
    ensures r.Failure? ==> r.error.SameName?
  {
    var envVars := DefaultVariables(request);
    if redisEnabled {
      envVars := envVars + [EnvVar("REDIS_HOST", Literal("rfs-" + spec.ResourceName()))];
    }
    assert envVars == BaseVariables(spec, request, redisEnabled);
    BaseNamesDistinct(spec, request, redisEnabled);
    BaseIsLiteral(spec, request, redisEnabled);
    r := AddResources(spec, rs, envVars);
  }

  lemma BaseIsLiteral(spec: Spec, request: Request, redisEnabled: bool)
    ensures forall v :: v in BaseVariables(spec, request, redisEnabled) ==> v.value.Literal?
  {
  }

  /** Each property is there under its name, with its value. */
  ghost predicate PropertiesSaid(vars: seq<EnvVar>, rs: seq<NaisResource>) {
    forall e :: IsEntry(rs, e) && e.kind == Property ==>
      EnvVar(VariableName(rs, e), Literal(rs[e.resource].properties[e.key])) in vars
  }

  lemma ListSaysProperties(vars: seq<EnvVar>, spec: Spec, base: seq<EnvVar>, rs: seq<NaisResource>)
    requires Lists(vars, spec, base, rs)
    ensures PropertiesSaid(vars, rs)
  {
    var order :| Enumerates(order, rs) && vars == base + Variables(spec, rs, order);
    forall e | IsEntry(rs, e) && e.kind == Property
      ensures EnvVar(VariableName(rs, e), Literal(rs[e.resource].properties[e.key])) in vars
    {
      assert e in order;
      var i :| 0 <= i < |order| && order[i] == e;
      assert vars[|base| + i] == Variable(spec, rs, e);
    }
  }

  method CreateEnvironmentVariables(spec: Spec, request: Request, redisEnabled: bool, webproxy: bool,
                                    rs: seq<NaisResource>, parse: string -> ProxyOptions.ParsedUrl,
                                    environ: map<string, string>)
    returns (r: Result<seq<EnvVar>, EnvError>)
    ensures r.Success? <==> EntriesDistinct(BaseVariables(spec, request, redisEnabled), rs) &&
                            (webproxy ==> ProxyVariables(parse, environ).Success?)
    ensures r.Success? ==>
              exists vars :: Lists(vars, spec, BaseVariables(spec, request, redisEnabled), rs) && NamesDistinct(vars) &&
                             r.value == vars + if webproxy then ProxyVariables(parse, environ).value else []
    ensures r.Success? ==> PropertiesSaid(r.value, rs)
    ensures r.Failure? && r.error.Duplicate? ==> r.error.clash.SameName?
    ensures r.Failure? ==> if EntriesDistinct(BaseVariables(spec, request, redisEnabled), rs)
                           then r.error == BadProxy(ProxyVariables(parse, environ).error) else r.error.Duplicate?
  {
    var created := CreateResourceVariables(spec, request, redisEnabled, rs);
    if created.Failure? {
      return Failure(Duplicate(created.error));
    }
    ListSaysProperties(created.value, spec, BaseVariables(spec, request, redisEnabled), rs);
    if webproxy {
      r := CreateProxyEnvironmentVariables(created.value, parse, environ);
    } else {
      r := Success(created.value);
      assert r.value == created.value + [];
    }
  }

  /** Behind the first `offset` variables each variable has the name of the entry at its place. */
  ghost predicate NamedAfter(vars: seq<EnvVar>, offset: nat, order: seq<Entry>, name: Entry -> string) {
    |vars| == offset + |order| && forall i :: 0 <= i < |order| ==> vars[offset + i].name == name(order[i])
  }

  lemma NamesTellApart(vars: seq<EnvVar>, offset: nat, order: seq<Entry>, name: Entry -> string, a: Entry, b: Entry)
    requires NamedAfter(vars, offset, order, name) && NamesDistinct(vars) && a in order && b in order && a != b
    ensures name(a) != name(b)
  {
    var i :| 0 <= i < |order| && order[i] == a;
    var j :| 0 <= j < |order| && order[j] == b;
    assert vars[offset + i].name != vars[offset + j].name;
  }

  lemma NameIsNoneOfFirst(vars: seq<EnvVar>, offset: nat, order: seq<Entry>, name: Entry -> string, a: Entry, i: nat)
    requires NamedAfter(vars, offset, order, name) && NamesDistinct(vars) && a in order && i < offset
    ensures name(a) != vars[i].name
  {
    var j :| 0 <= j < |order| && order[j] == a;
    assert vars[offset + j].name != vars[i].name;
  }

  /** Whatever the order of the walk, distinct names in the result mean distinct entries. */
  lemma DistinctWhenListed(spec: Spec, base: seq<EnvVar>, rs: seq<NaisResource>, order: seq<Entry>)
    requires Enumerates(order, rs)
    requires NamesDistinct(base + Variables(spec, rs, order))
    ensures EntriesDistinct(base, rs)
  {
    var vars, name := base + Variables(spec, rs, order), NameOf(rs);
    ListIsNamedAfter(spec, base, rs, order);
    forall a, b | IsEntry(rs, a) && IsEntry(rs, b) && a != b ensures VariableName(rs, a) != VariableName(rs, b) {
      NamesTellApart(vars, |base|, order, name, a, b);
    }
    forall a, i | IsEntry(rs, a) && 0 <= i < |base| ensures VariableName(rs, a) != base[i].name {
      NameIsNoneOfFirst(vars, |base|, order, name, a, i);
    }
  }

  ghost function NameOf(rs: seq<NaisResource>): Entry -> string {
    e => if IsEntry(rs, e) then VariableName(rs, e) else ""
  }

  lemma ListIsNamedAfter(spec: Spec, base: seq<EnvVar>, rs: seq<NaisResource>, order: seq<Entry>)
    requires forall e :: e in order ==> IsEntry(rs, e)
    ensures NamedAfter(base + Variables(spec, rs, order), |base|, order, NameOf(rs))
  {
    var vars := base + Variables(spec, rs, order);
    forall i | 0 <= i < |order| ensures vars[|base| + i].name == NameOf(rs)(order[i]) {
      assert order[i] in order;
      assert vars[|base| + i] == Variable(spec, rs, order[i]);
    }
  }

  /** Distinct entries mean distinct names in every list of them. */
  lemma ListedNamesDistinct(spec: Spec, base: seq<EnvVar>, rs: seq<NaisResource>, order: seq<Entry>)
    requires EntriesDistinct(base, rs) && NamesDistinct(base) && Enumerates(order, rs)
    ensures NamesDistinct(base + Variables(spec, rs, order))
  {
    var vars := Variables(spec, rs, order);
    forall i, j | 0 <= i < j < |order| ensures vars[i].name != vars[j].name {
      assert order[i] in order && order[j] in order;
    }
    forall i, j | 0 <= i < |base| && 0 <= j < |order| ensures base[i].name != vars[j].name {
      assert order[j] in order;
    }
  }
}
