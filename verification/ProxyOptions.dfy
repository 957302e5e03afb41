/** Translation of $HTTP_PROXY and $NO_PROXY to JVM start-up options. `url.Parse` is a parameter: it maps a text to the
    hostname and port it finds. */
module ProxyOptions {

  import opened Wrappers
  import opened Text

  datatype ParsedUrl = Unparsable | Url(hostname: string, port: string)

  datatype ProxyError = BadUrl | MissingHostOrPort

  datatype JavaOption = JavaOption(key: string, value: string) {

    function Format(): string {
      "-D" + key + "=" + value
    }
  }

  function OptionTexts(options: seq<JavaOption>): (texts: seq<string>)
    ensures |texts| == |options| && forall i :: 0 <= i < |texts| ==> texts[i] == options[i].Format()
  {
    seq(|options|, i requires 0 <= i < |options| => options[i].Format())
  }

  function FormatText(options: seq<JavaOption>): string {
    Join(OptionTexts(options), " ")
  }

  method FormatOptions(options: seq<JavaOption>) returns (s: string)
    ensures s == FormatText(options)
  {
    var texts := new string[|options|];
    for i := 0 to |options|
      invariant forall j :: 0 <= j < i ==> texts[j] == options[j].Format()
    {
      texts[i] := options[i].Format();
    }
    assert texts[..] == OptionTexts(options);
    s := Join(texts[..], " ");
  }

  function HttpOptions(parse: string -> ParsedUrl, proxyUrl: string): Result<seq<JavaOption>, ProxyError> {
    if proxyUrl == "" then Success([])
    else match parse(proxyUrl)
      case Unparsable => Failure(BadUrl)
      case Url(hostname, port) =>
        if hostname == "" || port == "" then Failure(MissingHostOrPort)
        else Success([JavaOption("http.proxyHost", hostname), JavaOption("https.proxyHost", hostname),
                      JavaOption("http.proxyPort", port), JavaOption("https.proxyPort", port)])
  }

  function Mangle(host: string): string {
    if host != "" && host[0] == '.' then "*" + host else host
  }

  function Mangled(hosts: seq<string>): (mangled: seq<string>)
    ensures |mangled| == |hosts| && forall i :: 0 <= i < |hosts| ==> mangled[i] == Mangle(hosts[i])
  {
    seq(|hosts|, i requires 0 <= i < |hosts| => Mangle(hosts[i]))
  }

  method MangleWildcard(hosts: seq<string>) returns (r: seq<string>)
    ensures r == Mangled(hosts)
  {
    var mangled := new string[|hosts|];
    for i := 0 to |hosts|
      invariant forall j :: 0 <= j < i ==> mangled[j] == Mangle(hosts[j])
    {
      var host := hosts[i];
      if |host| > 0 && host[0] == '.' {
        host := "*" + host;
      }
      mangled[i] := host;
    }
    r := mangled[..];
  }

  const NON_PROXY_HOSTS := "http.nonProxyHosts"

  function NoProxyOptions(noProxy: string): seq<JavaOption> {
    if noProxy == "" then []
    else [JavaOption(NON_PROXY_HOSTS, Join(Mangled(Split(noProxy, ',')), "|"))]
  }

  function Options(parse: string -> ParsedUrl, proxyUrl: string, noProxy: string): Result<seq<JavaOption>, ProxyError> {
    match HttpOptions(parse, proxyUrl)
    case Failure(e) => Failure(e)
    case Success(flags) => Success(flags + NoProxyOptions(noProxy))
  }

  method JavaProxyOptions(parse: string -> ParsedUrl, proxyUrl: string, noProxy: string)
    returns (r: Result<string, ProxyError>)
    ensures r.Success? <==> Options(parse, proxyUrl, noProxy).Success?
    ensures r.Success? ==> r.value == FormatText(Options(parse, proxyUrl, noProxy).value)
    ensures r.Failure? ==> r.error == Options(parse, proxyUrl, noProxy).error
    ensures r.Success? <==> (proxyUrl != "" ==> IsUsable(parse(proxyUrl)))
    ensures r.Failure? ==> r.error == if parse(proxyUrl).Unparsable? then BadUrl else MissingHostOrPort
    ensures r.Success? && FreeOfSpaces(parse, proxyUrl, noProxy) ==>
              ParseOptions(r.value).Some? && PointsTo(ParseOptions(r.value).value, parse, proxyUrl, noProxy)
  {
    var flags: seq<JavaOption> := [];
    if |proxyUrl| > 0 {
      var u := parse(proxyUrl);
      if u.Unparsable? {
        return Failure(BadUrl);
      }
      if |u.hostname| == 0 || |u.port| == 0 {
        return Failure(MissingHostOrPort);
      }
      flags := flags + [JavaOption("http.proxyHost", u.hostname)];
      flags := flags + [JavaOption("https.proxyHost", u.hostname)];
      flags := flags + [JavaOption("http.proxyPort", u.port)];
      flags := flags + [JavaOption("https.proxyPort", u.port)];
    }
    if |noProxy| > 0 {
      var hosts := MangleWildcard(Split(noProxy, ','));
      flags := flags + [JavaOption(NON_PROXY_HOSTS, Join(hosts, "|"))];
    }
    var text := FormatOptions(flags);
    assert flags == Options(parse, proxyUrl, noProxy).value;
    OptionsPointToProxy(parse, proxyUrl, noProxy);
    r := Success(text);
  }

  predicate IsUsable(u: ParsedUrl) {
    u.Url? && u.hostname != "" && u.port != ""
  }

  // ---- What the JVM is told ----

  /** All values that are given for one key. */
  function ValuesOf(options: seq<JavaOption>, key: string): seq<string> {
    if options == [] then []
    else (if options[0].key == key then [options[0].value] else []) + ValuesOf(options[1..], key)
  }

  /** Both schemes get the host and the port of the address, once each, or neither without an address; the exceptions
      come once if there are any; and there is nothing else. */
  predicate PointsTo(options: seq<JavaOption>, parse: string -> ParsedUrl, proxyUrl: string, noProxy: string) {
    var host := if proxyUrl == "" || parse(proxyUrl).Unparsable? then [] else [parse(proxyUrl).hostname];
    var port := if proxyUrl == "" || parse(proxyUrl).Unparsable? then [] else [parse(proxyUrl).port];
    && ValuesOf(options, "http.proxyHost") == host && ValuesOf(options, "https.proxyHost") == host
    && ValuesOf(options, "http.proxyPort") == port && ValuesOf(options, "https.proxyPort") == port
    && |ValuesOf(options, "http.nonProxyHosts")| == (if noProxy == "" then 0 else 1)
    && |options| == (if proxyUrl == "" then 0 else 4) + (if noProxy == "" then 0 else 1)
  }

  lemma {:induction false} ValuesOfConcat(a: seq<JavaOption>, b: seq<JavaOption>, key: string)
    ensures ValuesOf(a + b, key) == ValuesOf(a, key) + ValuesOf(b, key)
  {
    if a == [] {
      assert a + b == b;
    } else {
      assert (a + b)[1..] == a[1..] + b;
      ValuesOfConcat(a[1..], b, key);
    }
  }

  lemma ValuesOfOne(o: JavaOption, key: string)
    ensures ValuesOf([o], key) == if o.key == key then [o.value] else []
  {
  }

  lemma ValuesOfFour(a: JavaOption, b: JavaOption, c: JavaOption, d: JavaOption, key: string)
    ensures ValuesOf([a, b, c, d], key) ==
            ValuesOf([a], key) + ValuesOf([b], key) + ValuesOf([c], key) + ValuesOf([d], key)
  {
    assert [a, b, c, d] == [a] + [b] + [c] + [d];
    ValuesOfConcat([a], [b], key);
    ValuesOfConcat([a] + [b], [c], key);
    ValuesOfConcat([a] + [b] + [c], [d], key);
  }

  lemma KeysDiffer()
    ensures "http.proxyHost" != "http.proxyPort" && "https.proxyHost" != "https.proxyPort"
    ensures |"http.proxyHost"| == |"http.proxyPort"| == 14 && |"https.proxyHost"| == |"https.proxyPort"| == 15
    ensures |"http.nonProxyHosts"| == 18
  {
    assert "http.proxyHost"[10] == 'H' && "http.proxyPort"[10] == 'P';
    assert "https.proxyHost"[11] == 'H' && "https.proxyPort"[11] == 'P';
  }

  lemma AddressOptionsPoint(parse: string -> ParsedUrl, proxyUrl: string, key: string)
    requires HttpOptions(parse, proxyUrl).Success?
    ensures var options := HttpOptions(parse, proxyUrl).value;
            if proxyUrl == "" then ValuesOf(options, key) == []
            else
              && (key in {"http.proxyHost", "https.proxyHost"} ==> ValuesOf(options, key) == [parse(proxyUrl).hostname])
              && (key in {"http.proxyPort", "https.proxyPort"} ==> ValuesOf(options, key) == [parse(proxyUrl).port])
              && (|key| == 18 ==> ValuesOf(options, key) == [])
  {
    if proxyUrl != "" {
      var o := HttpOptions(parse, proxyUrl).value;
      KeysDiffer();
      ValuesOfFour(o[0], o[1], o[2], o[3], key);
      assert o == [o[0], o[1], o[2], o[3]];
      ValuesOfOne(o[0], key);
      ValuesOfOne(o[1], key);
      ValuesOfOne(o[2], key);
      ValuesOfOne(o[3], key);
    }
  }

  lemma ExceptionOptionsPoint(noProxy: string, key: string)
    ensures |key| != 18 ==> ValuesOf(NoProxyOptions(noProxy), key) == []
    ensures |ValuesOf(NoProxyOptions(noProxy), NON_PROXY_HOSTS)| == if noProxy == "" then 0 else 1
  {
    KeysDiffer();
    if noProxy != "" {
      ValuesOfOne(NoProxyOptions(noProxy)[0], key);
      ValuesOfOne(NoProxyOptions(noProxy)[0], NON_PROXY_HOSTS);
    }
  }

  lemma KeyPoints(parse: string -> ParsedUrl, proxyUrl: string, noProxy: string, key: string)
    requires Options(parse, proxyUrl, noProxy).Success?
    ensures var values, u := ValuesOf(Options(parse, proxyUrl, noProxy).value, key), parse(proxyUrl);
            && (key in {"http.proxyHost", "https.proxyHost"} ==> values == if proxyUrl == "" then [] else [u.hostname])
            && (key in {"http.proxyPort", "https.proxyPort"} ==> values == if proxyUrl == "" then [] else [u.port])
            && (key == NON_PROXY_HOSTS ==> |values| == if noProxy == "" then 0 else 1)
  {
    KeysDiffer();
    AddressOptionsPoint(parse, proxyUrl, key);
    ExceptionOptionsPoint(noProxy, key);
    ValuesOfConcat(HttpOptions(parse, proxyUrl).value, NoProxyOptions(noProxy), key);
  }

  lemma SomeOptionsSomeText(options: seq<JavaOption>)
    ensures options != [] ==> FormatText(options) != ""
  {
    if options != [] {
      assert OptionTexts(options)[0] == options[0].Format() && OptionTexts(options)[0] <= FormatText(options);
    }
  }

  lemma OptionsPointToProxy(parse: string -> ParsedUrl, proxyUrl: string, noProxy: string)
    requires Options(parse, proxyUrl, noProxy).Success?
    ensures var options := Options(parse, proxyUrl, noProxy).value;
            && PointsTo(options, parse, proxyUrl, noProxy)
            && (FreeOfSpaces(parse, proxyUrl, noProxy) ==> ParseOptions(FormatText(options)) == Some(options))
  {
    TranslationRoundTrip(parse, proxyUrl, noProxy, "");
    KeyPoints(parse, proxyUrl, noProxy, "http.proxyHost");
    KeyPoints(parse, proxyUrl, noProxy, "https.proxyHost");
    KeyPoints(parse, proxyUrl, noProxy, "http.proxyPort");
    KeyPoints(parse, proxyUrl, noProxy, "https.proxyPort");
    KeyPoints(parse, proxyUrl, noProxy, NON_PROXY_HOSTS);
  }

  // ---- The meaning of NO_PROXY ----

  /** The reading of one NO_PROXY entry: a leading dot is a suffix, a bare name is itself. */
  predicate EntryMatches(entry: string, host: string) {
    if entry != "" && entry[0] == '.' then HasSuffix(host, entry) else host == entry
  }

  predicate Bypassed(noProxy: string, host: string) {
    noProxy != "" && exists i :: 0 <= i < |Split(noProxy, ',')| && EntryMatches(Split(noProxy, ',')[i], host)
  }

  /** The JVM's reading of one pattern, where `*` stands for any text. */
  predicate Glob(pattern: string, host: string)
    decreases |pattern| + |host|
  {
    if pattern == "" then host == ""
    else if pattern[0] == '*' then Glob(pattern[1..], host) || (host != "" && Glob(pattern, host[1..]))
    else host != "" && host[0] == pattern[0] && Glob(pattern[1..], host[1..])
  }

  /** The JVM bypasses the proxy for a host that some `|`-separated pattern matches. */
  predicate JvmBypasses(options: seq<JavaOption>, host: string) {
    exists o, i :: o in options && o.key == NON_PROXY_HOSTS && 0 <= i < |Split(o.value, '|')| &&
        Glob(Split(o.value, '|')[i], host)
  }

  lemma {:induction false} GlobWithoutStar(pattern: string, host: string)
    requires Free(pattern, '*')
    ensures Glob(pattern, host) <==> pattern == host
  {
    if pattern != "" && host != "" {
      GlobWithoutStar(pattern[1..], host[1..]);
      assert pattern == [pattern[0]] + pattern[1..] && host == [host[0]] + host[1..];
    }
  }

  lemma {:induction false} GlobWithLeadingStar(suffix: string, host: string)
    requires Free(suffix, '*')
    ensures Glob("*" + suffix, host) <==> HasSuffix(host, suffix)
    decreases |host|
  {
    var pattern := "*" + suffix;
    assert pattern[1..] == suffix;
    GlobWithoutStar(suffix, host);
    if host == "" {
    } else {
      GlobWithLeadingStar(suffix, host[1..]);
      if |suffix| < |host| {
        assert host[|host| - |suffix|..] == host[1..][|host[1..]| - |suffix|..];
      } else if |suffix| == |host| {
        assert host[0..] == host;
      }
    }
  }

  lemma {:induction false} PartsKeepFreedom(s: string, c: char, d: char)
    requires Free(s, d)
    ensures AllFree(Split(s, c), d)
  {
    var i := IndexOf(s, c);
    if i < |s| {
      PartsKeepFreedom(s[i + 1..], c, d);
    }
  }

  /** The translation means the same to the JVM as the variable means to everyone else. */
  lemma NoProxyMeaningPreserved(noProxy: string, host: string)
    requires Free(noProxy, '|') && Free(noProxy, '*')
    ensures JvmBypasses(NoProxyOptions(noProxy), host) <==> Bypassed(noProxy, host)
  {
    if noProxy != "" {
      var entries := Split(noProxy, ',');
      var patterns := Mangled(entries);
      PartsKeepFreedom(noProxy, ',', '|');
      PartsKeepFreedom(noProxy, ',', '*');
      SplitOfJoin(patterns, '|');
      var o := NoProxyOptions(noProxy)[0];
      assert o in NoProxyOptions(noProxy);
      assert Split(o.value, '|') == patterns;
      forall i | 0 <= i < |entries|
        ensures Glob(patterns[i], host) <==> EntryMatches(entries[i], host)
      {
        if entries[i] != "" && entries[i][0] == '.' {
          GlobWithLeadingStar(entries[i], host);
        } else {
          GlobWithoutStar(entries[i], host);
        }
      }
      if Bypassed(noProxy, host) {
        var i :| 0 <= i < |entries| && EntryMatches(entries[i], host);
        assert Glob(Split(o.value, '|')[i], host);
      }
    }
  }

  // ---- Reading the options back ----

  function ParseOption(text: string): Option<JavaOption> {
    var i := IndexOf(text, '=');
    if "-D" <= text && 2 <= i < |text| then Some(JavaOption(text[2..i], text[i + 1..])) else None
  }

  function ParseTexts(texts: seq<string>): Option<seq<JavaOption>> {
    if texts == [] then Some([])
    else match (ParseOption(texts[0]), ParseTexts(texts[1..]))
      case (Some(o), Some(rest)) => Some([o] + rest)
      case _ => None
  }

  function ParseOptions(text: string): Option<seq<JavaOption>> {
    if text == "" then Some([]) else ParseTexts(Split(text, ' '))
  }

  lemma ParseOfFormat(o: JavaOption)
    requires Free(o.key, '=')
    ensures ParseOption(o.Format()) == Some(o)
  {
    var text, head := o.Format(), "-D" + o.key;
    assert text == head + ['='] + o.value;
    FirstOccurrence(head, '=', o.value);
    assert text[2..|head|] == o.key && text[|head| + 1..] == o.value;
  }

  lemma {:induction false} ParseOfTexts(texts: seq<string>, options: seq<JavaOption>)
    requires |texts| == |options| && forall i :: 0 <= i < |texts| ==> ParseOption(texts[i]) == Some(options[i])
    ensures ParseTexts(texts) == Some(options)
  {
    if texts != [] {
      ParseOfTexts(texts[1..], options[1..]);
      assert [options[0]] + options[1..] == options;
    }
  }

  lemma {:induction false} ParsedLength(texts: seq<string>)
    ensures ParseTexts(texts).Some? ==> |ParseTexts(texts).value| == |texts|
  {
    if texts != [] {
      ParsedLength(texts[1..]);
    }
  }

  lemma {:induction false} SplitOfConcat(a: string, b: string, c: char)
    ensures |Split(a + [c] + b, c)| == |Split(a, c)| + |Split(b, c)|
  {
    var i := IndexOf(a, c);
    var s := a + [c] + b;
    if i == |a| {
      assert a[..i] == a;
      FirstOccurrence(a, c, b);
      assert s[|a| + 1..] == b;
    } else {
      var rest := a[i + 1..];
      assert a == a[..i] + [c] + rest;
      assert s == a[..i] + [c] + (rest + [c] + b);
      FirstOccurrence(a[..i], c, rest + [c] + b);
      assert s[i + 1..] == rest + [c] + b;
      SplitOfConcat(rest, b, c);
    }
  }

  lemma {:induction false} PiecesOfJoin(parts: seq<string>, c: char)
    requires |parts| > 0
    ensures |Split(Join(parts, [c]), c)| >= |parts|
    ensures !AllFree(parts, c) ==> |Split(Join(parts, [c]), c)| > |parts|
  {
    if |parts| == 1 {
    } else {
      PiecesOfJoin(parts[1..], c);
      SplitOfConcat(parts[0], Join(parts[1..], [c]), c);
      if !AllFree(parts, c) && Free(parts[0], c) {
        var i :| 0 <= i < |parts| && !Free(parts[i], c);
        assert !Free(parts[1..][i - 1], c);
      }
    }
  }

  lemma SpacelessReadBack(options: seq<JavaOption>)
    requires options != [] && forall o :: o in options ==> Free(o.key, '=') && Free(o.key, ' ') && Free(o.value, ' ')
    ensures ParseTexts(Split(FormatText(options), ' ')) == Some(options)
  {
    var texts := OptionTexts(options);
    forall i | 0 <= i < |texts| ensures Free(texts[i], ' ') && ParseOption(texts[i]) == Some(options[i]) {
      assert options[i] in options && texts[i] == options[i].Format();
      ParseOfFormat(options[i]);
    }
    SplitOfJoin(texts, ' ');
    ParseOfTexts(texts, options);
  }

  lemma SpacesSplitWrongly(options: seq<JavaOption>, o: JavaOption)
    requires o in options && !Free(o.value, ' ')
    ensures ParseTexts(Split(FormatText(options), ' ')) != Some(options)
  {
    var texts := OptionTexts(options);
    var i :| 0 <= i < |options| && options[i] == o;
    var j :| 0 <= j < |o.value| && o.value[j] == ' ';
    assert texts[i][|o.key| + 3 + j] == ' ';
    assert !Free(texts[i], ' ');
    PiecesOfJoin(texts, ' ');
    ParsedLength(Split(FormatText(options), ' '));
  }

  /** The option line can be read back exactly when no value contains a space. */
  lemma OptionsRoundTrip(options: seq<JavaOption>)
    requires forall o :: o in options ==> Free(o.key, '=') && Free(o.key, ' ')
    ensures ParseOptions(FormatText(options)) == Some(options) <==> forall o :: o in options ==> Free(o.value, ' ')
  {
    if options != [] {
      assert FormatText(options) != "" by {
        assert OptionTexts(options)[0] == options[0].Format() && OptionTexts(options)[0] <= FormatText(options);
      }
      if o :| o in options && !Free(o.value, ' ') {
        SpacesSplitWrongly(options, o);
      } else {
        SpacelessReadBack(options);
      }
    }
  }

  lemma {:induction false} JoinKeepsFreedom(parts: seq<string>, separator: char, c: char)
    requires separator != c
    ensures Free(Join(parts, [separator]), c) <==> AllFree(parts, c)
  {
    if |parts| > 1 {
      JoinKeepsFreedom(parts[1..], separator, c);
      assert AllFree(parts, c) <==> Free(parts[0], c) && AllFree(parts[1..], c) by {
        assert forall i :: 0 < i < |parts| ==> parts[i] == parts[1..][i - 1];
      }
    }
  }

  lemma NoProxyKeepsSpaces(noProxy: string)
    ensures (forall o :: o in NoProxyOptions(noProxy) ==> Free(o.value, ' ')) <==> Free(noProxy, ' ')
  {
    if noProxy != "" {
      var entries := Split(noProxy, ',');
      JoinOfSplit(noProxy, ',');
      JoinKeepsFreedom(entries, ',', ' ');
      JoinKeepsFreedom(Mangled(entries), '|', ' ');
      assert AllFree(Mangled(entries), ' ') <==> AllFree(entries, ' ') by {
        forall i | 0 <= i < |entries| ensures Free(Mangled(entries)[i], ' ') <==> Free(entries[i], ' ') {
        }
      }
      assert NoProxyOptions(noProxy)[0] in NoProxyOptions(noProxy);
    }
  }

  /** What the two variables must be free of for the line to be read as it was meant. */
  predicate FreeOfSpaces(parse: string -> ParsedUrl, proxyUrl: string, noProxy: string) {
    && Free(noProxy, ' ')
    && (proxyUrl != "" && parse(proxyUrl).Url? ==>
         Free(parse(proxyUrl).hostname, ' ') && Free(parse(proxyUrl).port, ' '))
  }

  lemma ProxyHostsKeepSpaces(parse: string -> ParsedUrl, proxyUrl: string)
    requires HttpOptions(parse, proxyUrl).Success?
    ensures (forall o :: o in HttpOptions(parse, proxyUrl).value ==> Free(o.value, ' ')) <==>
            FreeOfSpaces(parse, proxyUrl, "")
  {
  }

  predicate PlainKey(key: string) {
    Free(key, '=') && Free(key, ' ')
  }

  lemma KeysArePlain()
    ensures PlainKey("http.proxyHost") && PlainKey("https.proxyHost") && PlainKey("http.proxyPort") &&
            PlainKey("https.proxyPort")
    ensures PlainKey(NON_PROXY_HOSTS)
  {
  }

  lemma HttpKeysKnown(parse: string -> ParsedUrl, proxyUrl: string)
    requires HttpOptions(parse, proxyUrl).Success?
    ensures forall o :: o in HttpOptions(parse, proxyUrl).value ==> PlainKey(o.key) && |o.key| < |NON_PROXY_HOSTS|
  {
    KeysArePlain();
  }

  lemma OnlyExceptionsBypass(http: seq<JavaOption>, exceptions: seq<JavaOption>, host: string)
    requires forall o :: o in http ==> o.key != NON_PROXY_HOSTS
    ensures JvmBypasses(http + exceptions, host) <==> JvmBypasses(exceptions, host)
  {
  }

  /** From the two variables to the JVM: the line is read back as the options that were put into it exactly when no
      host, port or exception contains a space, and the same hosts go past the proxy. */
  lemma TranslationRoundTrip(parse: string -> ParsedUrl, proxyUrl: string, noProxy: string, host: string)
    requires Options(parse, proxyUrl, noProxy).Success?
    ensures var options := Options(parse, proxyUrl, noProxy).value;
            && (ParseOptions(FormatText(options)) == Some(options) <==> FreeOfSpaces(parse, proxyUrl, noProxy))
            && (Free(noProxy, '|') && Free(noProxy, '*') ==> (JvmBypasses(options, host) <==> Bypassed(noProxy, host)))
  {
    var http, exceptions := HttpOptions(parse, proxyUrl).value, NoProxyOptions(noProxy);
    HttpKeysKnown(parse, proxyUrl);
    KeysArePlain();
    OptionsRoundTrip(http + exceptions);
    NoProxyKeepsSpaces(noProxy);
    ProxyHostsKeepSpaces(parse, proxyUrl);
    OnlyExceptionsBypass(http, exceptions, host);
    if Free(noProxy, '|') && Free(noProxy, '*') {
      NoProxyMeaningPreserved(noProxy, host);
    }
  }
}
