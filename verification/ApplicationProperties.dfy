/** The lines of an application-properties resource, as `key=value` pairs. */
module ApplicationProperties {

  import opened Wrappers
  import opened Text

  const SOURCE := "applicationProperties"

  /** White space in the sense of Go's `unicode.IsSpace`. */
  predicate IsSpace(c: char) {
    var code := c as int;
    || 9 <= code <= 13 || code in {0x20, 0x85, 0xA0, 0x1680, 0x2028, 0x2029, 0x202F, 0x205F, 0x3000}
    || 0x2000 <= code <= 0x200A
  }

  function TrimLeft(s: string): string {
    if s != "" && IsSpace(s[0]) then TrimLeft(s[1..]) else s
  }

  function TrimRight(s: string): (r: string)
    ensures r <= s && (r != "" ==> !IsSpace(r[|r| - 1]))
  {
    if s != "" && IsSpace(s[|s| - 1]) then TrimRight(s[..|s| - 1]) else s
  }

  function TrimSpace(s: string): string {
    TrimRight(TrimLeft(s))
  }

  /** A character of a key.  Which characters are letters is left open, but `=` and white space are not. */
  predicate IsKeyChar(isLetter: char -> bool, c: char) {
    isLetter(c) || '0' <= c <= '9' || c == '_' || c == '.'
  }

  ghost predicate LetterClass(isLetter: char -> bool) {
    !isLetter('=') && !isLetter('#') && forall c :: IsSpace(c) ==> !isLetter(c)
  }

  predicate IsKey(isLetter: char -> bool, s: string) {
    s != "" && forall i :: 0 <= i < |s| ==> IsKeyChar(isLetter, s[i])
  }

  /** The line filter: a key, an equals sign, and something after it. */
  predicate Matches(isLetter: char -> bool, s: string) {
    var i := IndexOf(s, '=');
    i + 1 < |s| && IsKey(isLetter, s[..i])
  }

  datatype Setting = Setting(key: string, value: string)

  /** What one line says: the text before and after the first equals sign, if the trimmed line passes the filter. */
  function Reading(isLetter: char -> bool, line: string): Option<Setting> {
    var s := TrimSpace(line);
    if Matches(isLetter, s) then Some(Setting(s[..IndexOf(s, '=')], s[IndexOf(s, '=') + 1..])) else None
  }

  function Readings(isLetter: char -> bool, lines: seq<string>): (r: seq<Option<Setting>>)
    ensures |r| == |lines| && forall i :: 0 <= i < |lines| ==> r[i] == Reading(isLetter, lines[i])
  {
    seq(|lines|, i requires 0 <= i < |lines| => Reading(isLetter, lines[i]))
  }

  predicate Sets(reading: Option<Setting>, key: string) {
    reading.Some? && reading.value.key == key
  }

  ghost predicate SetsLast(readings: seq<Option<Setting>>, i: nat, key: string) {
    i < |readings| && Sets(readings[i], key) && forall j :: i < j < |readings| ==> !Sets(readings[j], key)
  }

  ghost predicate SetSomewhere(readings: seq<Option<Setting>>, key: string) {
    exists i :: 0 <= i < |readings| && Sets(readings[i], key)
  }

  /** `after` is `before` with what the readings say; the last one for a key decides. */
  ghost predicate Applied(readings: seq<Option<Setting>>, before: map<string, string>, after: map<string, string>) {
    && (forall key :: key in after <==> key in before || SetSomewhere(readings, key))
    && (forall i: nat, key :: SetsLast(readings, i, key) ==> after[key] == readings[i].value.value)
    && (forall key :: key in before && !SetSomewhere(readings, key) ==> after[key] == before[key])
  }

  lemma SetSomewhereNext(readings: seq<Option<Setting>>, reading: Option<Setting>, key: string)
    ensures SetSomewhere(readings + [reading], key) <==> SetSomewhere(readings, key) || Sets(reading, key)
  {
    var all := readings + [reading];
    assert all[|readings|] == reading;
    if i :| 0 <= i < |readings| && Sets(readings[i], key) {
      assert Sets(all[i], key);
    }
  }

  lemma SetsLastNext(readings: seq<Option<Setting>>, reading: Option<Setting>, i: nat, key: string)
    requires SetsLast(readings + [reading], i, key)
    ensures if i == |readings| then Sets(reading, key) else SetsLast(readings, i, key) && !Sets(reading, key)
  {
    var all := readings + [reading];
    assert all[|readings|] == reading;
    assert forall j :: 0 <= j < |readings| ==> all[j] == readings[j];
  }

  function ApplyReading(reading: Option<Setting>, before: map<string, string>): map<string, string> {
    if reading.Some? then before[reading.value.key := reading.value.value] else before
  }

  lemma ApplyNext(readings: seq<Option<Setting>>, before: map<string, string>, after: map<string, string>,
                  reading: Option<Setting>)
    requires Applied(readings, before, after)
    ensures Applied(readings + [reading], before, ApplyReading(reading, after))
  {
    var all := readings + [reading];
    var after' := ApplyReading(reading, after);
    forall key
      ensures key in after' <==> key in before || SetSomewhere(all, key)
      ensures key in before && !SetSomewhere(all, key) ==> after'[key] == before[key]
    {
      SetSomewhereNext(readings, reading, key);
    }
    forall i: nat, key | SetsLast(all, i, key) ensures after'[key] == all[i].value.value {
      SetsLastNext(readings, reading, i, key);
      SetSomewhereNext(readings, reading, key);
    }
  }

  /** Sets what one line says. */
  method ReadLine(isLetter: char -> bool, text: string, properties: map<string, string>)
    returns (result: map<string, string>)
    ensures result == ApplyReading(Reading(isLetter, text), properties)
  {
    result := properties;
    var line := TrimSpace(text);
    if Matches(isLetter, line) {
      var split := IndexOf(line, '=');
      result := result[line[..split] := line[split + 1..]];
    }
  }

  lemma ReadingsMore(isLetter: char -> bool, lines: seq<string>, i: nat)
    requires i < |lines|
    ensures Readings(isLetter, lines[..i + 1]) == Readings(isLetter, lines[..i]) + [Reading(isLetter, lines[i])]
  {
  }

  method ReadLines(isLetter: char -> bool, lines: seq<string>, properties: map<string, string>)
    returns (result: map<string, string>)
    ensures Applied(Readings(isLetter, lines), properties, result)
  {
    result := properties;
    for i := 0 to |lines|
      invariant Applied(Readings(isLetter, lines[..i]), properties, result)
    {
      ReadingsMore(isLetter, lines, i);
      ApplyNext(Readings(isLetter, lines[..i]), properties, result, Reading(isLetter, lines[i]));
      result := ReadLine(isLetter, lines[i], result);
    }
    assert lines[..|lines|] == lines;
  }

  /** Reads the lines of the property `applicationProperties` into the properties and takes that property out. */
  method ParseProperties(isLetter: char -> bool, properties: map<string, string>) returns (result: map<string, string>)
    ensures exists parsed: map<string, string> :: result == parsed - {SOURCE} &&
              Applied(Readings(isLetter, Split(SourceText(properties), '\n')), properties, parsed)
    ensures "applicationProperties" !in result
    ensures "applicationProperties" !in properties ==> result == properties
  {
    var lines := Split(SourceText(properties), '\n');
    var parsed := ReadLines(isLetter, lines, properties);
    result := parsed - {SOURCE};
  }

  function SourceText(properties: map<string, string>): string {
    if SOURCE in properties then properties[SOURCE] else ""
  }

  // ---- Printing and reading back ----

  datatype Line = Pair(setting: Setting) | Noise(text: string)

  function LineText(line: Line): string {
    match line
    case Pair(Setting(key, value)) => key + "=" + value
    case Noise(text) => text
  }

  function Texts(lines: seq<Line>): (texts: seq<string>)
    ensures |texts| == |lines| && forall i :: 0 <= i < |lines| ==> texts[i] == LineText(lines[i])
  {
    seq(|lines|, i requires 0 <= i < |lines| => LineText(lines[i]))
  }

  function Print(lines: seq<Line>): string {
    Join(Texts(lines), "\n")
  }

  function Meanings(lines: seq<Line>): (meanings: seq<Option<Setting>>)
    ensures |meanings| == |lines|
    ensures forall i :: 0 <= i < |lines| ==> meanings[i] == if lines[i].Pair? then Some(lines[i].setting) else None
  {
    seq(|lines|, i requires 0 <= i < |lines| => if lines[i].Pair? then Some(lines[i].setting) else None)
  }

  predicate RightTrimmed(value: string) {
    value != "" && !IsSpace(value[|value| - 1])
  }

  /** A pair that survives, or any line that the filter turns away, such as a blank line or a comment. */
  predicate Printable(isLetter: char -> bool, line: Line) {
    match line
    case Pair(Setting(key, value)) => IsKey(isLetter, key) && key != SOURCE && Free(value, '\n') && RightTrimmed(value)
    case Noise(text) => Free(text, '\n') && !Matches(isLetter, TrimSpace(text))
  }

  lemma CommentsAreNoise(isLetter: char -> bool, text: string)
    requires LetterClass(isLetter) && Free(text, '\n')
    requires TrimSpace(text) == "" || TrimSpace(text)[0] == '#'
    ensures Printable(isLetter, Noise(text))
  {
  }

  lemma KeyExcludes(isLetter: char -> bool, key: string)
    requires LetterClass(isLetter) && IsKey(isLetter, key)
    ensures Free(key, '=') && Free(key, '\n') && !IsSpace(key[0])
  {
  }

  lemma ReadingIsWholeLine(isLetter: char -> bool, line: string)
    ensures var reading := Reading(isLetter, line);
            reading.Some? ==>
                TrimSpace(line) == reading.value.key + "=" + reading.value.value && reading.value.value != ""
  {
  }

  /** A pair with a good key comes back exactly when the value is not empty and does not end in white space. */
  lemma PairReadBack(isLetter: char -> bool, key: string, value: string)
    requires LetterClass(isLetter) && IsKey(isLetter, key)
    ensures Reading(isLetter, LineText(Pair(Setting(key, value)))) == Some(Setting(key, value)) <==> RightTrimmed(value)
  {
    var line := key + "=" + value;
    KeyExcludes(isLetter, key);
    assert line[0] == key[0] && TrimLeft(line) == line;
    if RightTrimmed(value) {
      assert line[|line| - 1] == value[|value| - 1];
      FirstOccurrence(key, '=', value);
      assert line == key + ['='] + value && line[..|key|] == key && line[|key| + 1..] == value;
    } else {
      ReadingIsWholeLine(isLetter, line);
      assert value != "" ==> line[|line| - 1] == value[|value| - 1];
    }
  }

  /** Letters, digits, underscore and dot. */
  predicate MayBeInKey(isLetter: char -> bool, c: char) {
    isLetter(c) || c in {'0', '1', '2', '3', '4', '5', '6', '7', '8', '9', '_', '.'}
  }

  lemma KeyCharactersExactly(isLetter: char -> bool, c: char)
    ensures IsKeyChar(isLetter, c) <==> MayBeInKey(isLetter, c)
  {
  }

  /** A line with an equals sign says what it looks like exactly when its key is not empty and made of letters, digits,
      underscores and dots, and its value is not empty and does not end in white space. */
  lemma LineReadExactly(isLetter: char -> bool, key: string, value: string)
    requires LetterClass(isLetter) && Free(key, '=')
    ensures Reading(isLetter, key + "=" + value) == Some(Setting(key, value)) <==>
            key != "" && (forall i :: 0 <= i < |key| ==> MayBeInKey(isLetter, key[i])) && RightTrimmed(value)
  {
    var line := key + "=" + value;
    forall c ensures IsKeyChar(isLetter, c) <==> MayBeInKey(isLetter, c) {
      KeyCharactersExactly(isLetter, c);
    }
    if IsKey(isLetter, key) {
      PairReadBack(isLetter, key, value);
      assert LineText(Pair(Setting(key, value))) == line;
    } else {
      KeyOfReading(isLetter, line);
    }
  }

  // ---- White space around a line ----

  /** The characters that Unicode calls white space. */
  const WHITE_SPACE := {
    '\t', '\n', '\U{000B}', '\U{000C}', '\r', ' ', '\U{0085}', '\U{00A0}', '\U{1680}', '\U{2000}', '\U{2001}',
    '\U{2002}', '\U{2003}', '\U{2004}', '\U{2005}', '\U{2006}', '\U{2007}', '\U{2008}', '\U{2009}', '\U{200A}',
    '\U{2028}', '\U{2029}', '\U{202F}', '\U{205F}', '\U{3000}'}

  predicate Blank(s: string) {
    forall i :: 0 <= i < |s| ==> s[i] in WHITE_SPACE
  }

  lemma WhiteSpaceExactly(c: char)
    ensures IsSpace(c) <==> c in WHITE_SPACE
  {
  }

  lemma {:induction false} BlankBefore(blank: string, s: string)
    requires Blank(blank)
    ensures TrimLeft(blank + s) == TrimLeft(s)
  {
    if blank == "" {
      assert blank + s == s;
    } else {
      WhiteSpaceExactly(blank[0]);
      assert (blank + s)[1..] == blank[1..] + s;
      BlankBefore(blank[1..], s);
    }
  }

  lemma {:induction false} BlankBehind(s: string, blank: string)
    requires Blank(blank)
    ensures TrimRight(s + blank) == TrimRight(s)
  {
    if blank == "" {
      assert s + blank == s;
    } else {
      WhiteSpaceExactly(blank[|blank| - 1]);
      assert (s + blank)[..|s + blank| - 1] == s + blank[..|blank| - 1];
      BlankBehind(s, blank[..|blank| - 1]);
    }
  }

  /** Trimming takes all white space from both ends of a text, and nothing else. */
  lemma TrimmedExactly(before: string, s: string, after: string)
    requires Blank(before) && Blank(after)
    requires s != "" ==> s[0] !in WHITE_SPACE && s[|s| - 1] !in WHITE_SPACE
    ensures TrimSpace(before + s + after) == s
  {
    assert before + s + after == before + (s + after);
    BlankBefore(before, s + after);
    if s == "" {
      BlankBefore(after, "");
      assert s + after == after + "";
    } else {
      WhiteSpaceExactly(s[0]);
      WhiteSpaceExactly(s[|s| - 1]);
      BlankBehind(s, after);
    }
  }

  /** Every text is what trimming leaves of it, with white space around. */
  lemma TextAroundTrimmed(s: string) returns (before: string, after: string)
    ensures Blank(before) && Blank(after) && s == before + TrimSpace(s) + after
    ensures TrimSpace(s) != "" ==> TrimSpace(s)[0] !in WHITE_SPACE && TrimSpace(s)[|TrimSpace(s)| - 1] !in WHITE_SPACE
  {
    before := TakenLeft(s);
    after := TakenRight(TrimLeft(s));
    var t := TrimSpace(s);
    if t != "" {
      WhiteSpaceExactly(t[0]);
      WhiteSpaceExactly(t[|t| - 1]);
    }
  }

  lemma {:induction false} TakenLeft(s: string) returns (blank: string)
    ensures Blank(blank) && s == blank + TrimLeft(s)
    ensures TrimLeft(s) != "" ==> !IsSpace(TrimLeft(s)[0])
  {
    blank := "";
    if s != "" && IsSpace(s[0]) {
      var rest := TakenLeft(s[1..]);
      WhiteSpaceExactly(s[0]);
      blank := [s[0]] + rest;
      assert s == [s[0]] + s[1..];
    }
  }

  lemma {:induction false} TakenRight(s: string) returns (blank: string)
    ensures Blank(blank) && s == TrimRight(s) + blank
  {
    blank := "";
    if s != "" && IsSpace(s[|s| - 1]) {
      var rest := TakenRight(s[..|s| - 1]);
      WhiteSpaceExactly(s[|s| - 1]);
      blank := rest + [s[|s| - 1]];
      assert s == s[..|s| - 1] + [s[|s| - 1]];
    }
  }

  lemma BlankTogether(a: string, b: string)
    requires Blank(a) && Blank(b)
    ensures Blank(a + b)
  {
  }

  lemma TrimmedTheSame(before: string, s: string, after: string)
    requires Blank(before) && Blank(after)
    ensures TrimSpace(before + s + after) == TrimSpace(s)
  {
    var b, a := TextAroundTrimmed(s);
    var t := TrimSpace(s);
    BlankTogether(before, b);
    BlankTogether(a, after);
    TrimmedExactly(before + b, t, a + after);
    assert before + s + after == (before + b) + t + (a + after);
  }

  /** White space around a line does not change what it says. */
  lemma IndentationIsNoise(isLetter: char -> bool, before: string, line: string, after: string)
    requires Blank(before) && Blank(after)
    ensures Reading(isLetter, before + line + after) == Reading(isLetter, line)
  {
    TrimmedTheSame(before, line, after);
  }

  lemma KeyOfReading(isLetter: char -> bool, line: string)
    ensures Reading(isLetter, line).Some? ==> IsKey(isLetter, Reading(isLetter, line).value.key)
  {
  }

  lemma PrintReadBack(isLetter: char -> bool, lines: seq<Line>)
    requires LetterClass(isLetter) && lines != [] && forall line :: line in lines ==> Printable(isLetter, line)
    ensures Readings(isLetter, Split(Print(lines), '\n')) == Meanings(lines)
  {
    forall i | 0 <= i < |lines|
      ensures Free(Texts(lines)[i], '\n') && Reading(isLetter, Texts(lines)[i]) == Meanings(lines)[i]
    {
      assert lines[i] in lines;
      if lines[i].Pair? {
        var setting := lines[i].setting;
        KeyExcludes(isLetter, setting.key);
        PairReadBack(isLetter, setting.key, setting.value);
      }
    }
    SplitOfJoin(Texts(lines), '\n');
  }

  /** Where something is set, something is set last. */
  lemma SomethingIsLast(readings: seq<Option<Setting>>, i: nat, key: string) returns (last: nat)
    requires i < |readings| && Sets(readings[i], key)
    ensures SetsLast(readings, last, key)
    decreases |readings| - i
  {
    if j :| i < j < |readings| && Sets(readings[j], key) {
      last := SomethingIsLast(readings, j, key);
    } else {
      last := i;
    }
  }

  /** What was set does not depend on what was there before. */
  lemma SameSettings(readings: seq<Option<Setting>>, before: map<string, string>, after: map<string, string>,
                     entries: map<string, string>, key: string)
    requires Applied(readings, before, after) && Applied(readings, map[], entries)
    ensures key in entries ==> key in after && after[key] == entries[key]
    ensures key in after && key !in before ==> key in entries
  {
    if SetSomewhere(readings, key) {
      var i: nat :| i < |readings| && Sets(readings[i], key);
      var last := SomethingIsLast(readings, i, key);
    }
  }

  lemma SourceIsNotSet(isLetter: char -> bool, lines: seq<Line>)
    requires forall line :: line in lines ==> Printable(isLetter, line)
    ensures !SetSomewhere(Meanings(lines), SOURCE)
  {
    forall i | 0 <= i < |lines| ensures !Sets(Meanings(lines)[i], SOURCE) {
      assert lines[i] in lines;
    }
  }

  /** Lines that name every entry, and nothing but entries, mean those entries. */
  lemma ListingMeansEntries(lines: seq<Line>, entries: map<string, string>)
    requires forall key :: key in entries ==> Pair(Setting(key, entries[key])) in lines
    requires forall line :: line in lines && line.Pair? ==>
               line.setting.key in entries && line.setting.value == entries[line.setting.key]
    ensures Applied(Meanings(lines), map[], entries)
  {
  }

  lemma NothingPrinted(isLetter: char -> bool, entries: map<string, string>)
    requires Applied([], map[], entries)
    ensures Print([]) == "" && Applied(Readings(isLetter, Split("", '\n')), map[], entries)
    ensures !SetSomewhere(Readings(isLetter, Split("", '\n')), SOURCE)
  {
  }

  /** Printing entries, whatever noise stands between them and whatever they override, and reading them back gives
      exactly those entries. */
  lemma RoundTrip(isLetter: char -> bool, lines: seq<Line>, entries: map<string, string>, parsed: map<string, string>)
    requires LetterClass(isLetter) && forall line :: line in lines ==> Printable(isLetter, line)
    requires Applied(Meanings(lines), map[], entries)
    requires Applied(Readings(isLetter, Split(Print(lines), '\n')), map[SOURCE := Print(lines)], parsed)
    ensures parsed - {SOURCE} == entries
  {
    if lines == [] {
      NothingPrinted(isLetter, entries);
    } else {
      PrintReadBack(isLetter, lines);
      SourceIsNotSet(isLetter, lines);
    }
    OnlySourceIsLeft(Readings(isLetter, Split(Print(lines), '\n')), Print(lines), parsed, entries);
  }

  lemma OnlySourceIsLeft(readings: seq<Option<Setting>>, text: string, parsed: map<string, string>,
                         entries: map<string, string>)
    requires Applied(readings, map[SOURCE := text], parsed) && Applied(readings, map[], entries)
    requires !SetSomewhere(readings, SOURCE)
    ensures parsed - {SOURCE} == entries
  {
    forall key
      ensures key in entries <==> key in parsed && key != SOURCE
      ensures key in entries ==> parsed[key] == entries[key]
    {
      SameSettings(readings, map[SOURCE := text], parsed, entries, key);
    }
  }
}
