/** The parts of Go's `strings` package that naisd uses, over sequences of characters. Case mapping is ASCII only; every
    separator naisd splits on is a single character. */
module Text {

  predicate Free(s: string, c: char) {
    c !in s
  }

  predicate AllFree(parts: seq<string>, c: char) {
    forall i :: 0 <= i < |parts| ==> Free(parts[i], c)
  }

  predicate HasPrefix(s: string, prefix: string) {
    prefix <= s
  }

  predicate HasSuffix(s: string, suffix: string) {
    |suffix| <= |s| && s[|s| - |suffix|..] == suffix
  }

  function IndexOf(s: string, c: char): (i: nat)
    ensures i <= |s|
    ensures i < |s| ==> s[i] == c
    ensures Free(s[..i], c)
  {
    if s == "" || s[0] == c then 0
    else
      var rest := IndexOf(s[1..], c);
      assert s[..rest + 1] == [s[0]] + s[1..][..rest];
      rest + 1
  }

  function Join(parts: seq<string>, separator: string): string {
    if |parts| == 0 then ""
    else if |parts| == 1 then parts[0]
    else parts[0] + separator + Join(parts[1..], separator)
  }

  function Split(s: string, c: char): (parts: seq<string>)
    ensures |parts| > 0
    ensures AllFree(parts, c)
  {
    var i := IndexOf(s, c);
    if i == |s| then
      assert s[..i] == s;
      [s]
    else [s[..i]] + Split(s[i + 1..], c)
  }

  lemma FirstOccurrence(head: string, c: char, tail: string)
    requires Free(head, c)
    ensures IndexOf(head + [c] + tail, c) == |head|
  {
    var s := head + [c] + tail;
    assert s[|head|] == c;
    var i := IndexOf(s, c);
    assert forall j :: 0 <= j < |head| ==> s[j] == head[j] && head[j] != c;
    assert forall j :: 0 <= j < i ==> s[j] == s[..i][j] && s[..i][j] != c;
  }

  lemma {:induction false} SplitOfJoin(parts: seq<string>, c: char)
    requires |parts| > 0 && AllFree(parts, c)
    ensures Split(Join(parts, [c]), c) == parts
  {
    var s := Join(parts, [c]);
    if |parts| == 1 {
      assert Free(parts[0], c);
      assert IndexOf(s, c) == |s|;
    } else {
      var tail := Join(parts[1..], [c]);
      assert s == parts[0] + [c] + tail;
      FirstOccurrence(parts[0], c, tail);
      assert s[..|parts[0]|] == parts[0] && s[|parts[0]| + 1..] == tail;
      SplitOfJoin(parts[1..], c);
    }
  }

  lemma JoinOfCons(head: string, rest: seq<string>, separator: string)
    requires rest != []
    ensures Join([head] + rest, separator) == head + separator + Join(rest, separator)
  {
  }

  lemma {:induction false} JoinOfSplit(s: string, c: char)
    ensures Join(Split(s, c), [c]) == s
  {
    var i := IndexOf(s, c);
    if i < |s| {
      var rest := s[i + 1..];
      JoinOfSplit(rest, c);
      JoinOfCons(s[..i], Split(rest, c), [c]);
      assert s == s[..i] + [c] + rest;
    }
  }

  /** Two texts with the same separator after separator-free heads agree part by part. */
  lemma HeadsAgree(head: string, head': string, c: char, tail: string, tail': string)
    requires Free(head, c) && Free(head', c)
    requires head + [c] + tail == head' + [c] + tail'
    ensures head == head' && tail == tail'
  {
    FirstOccurrence(head, c, tail);
    FirstOccurrence(head', c, tail');
    var s, s' := head + [c] + tail, head' + [c] + tail';
    assert s[..|head|] == head && s'[..|head'|] == head';
    assert s[|head| + 1..] == tail && s'[|head'| + 1..] == tail';
  }

  function LowerChar(c: char): char {
    if 'A' <= c <= 'Z' then c - 'A' + 'a' else c
  }

  function UpperChar(c: char): char {
    if 'a' <= c <= 'z' then c - 'a' + 'A' else c
  }

  function ToLower(s: string): (r: string)
    ensures |r| == |s| && forall i :: 0 <= i < |s| ==> r[i] == LowerChar(s[i])
  {
    seq(|s|, i requires 0 <= i < |s| => LowerChar(s[i]))
  }

  function ToUpper(s: string): (r: string)
    ensures |r| == |s| && forall i :: 0 <= i < |s| ==> r[i] == UpperChar(s[i])
  {
    seq(|s|, i requires 0 <= i < |s| => UpperChar(s[i]))
  }

  /** Upper-casing loses nothing of a text that is already lower case. */
  lemma LowerOfUpper(s: string)
    ensures ToLower(ToUpper(ToLower(s))) == ToLower(s)
  {
  }

  function ReplaceChar(s: string, from: char, to: char): (r: string)
    ensures |r| == |s| && forall i :: 0 <= i < |s| ==> r[i] == if s[i] == from then to else s[i]
  {
    seq(|s|, i requires 0 <= i < |s| => if s[i] == from then to else s[i])
  }

  /** `strings.Replace(s, old, new, -1)` for a non-empty `old`. */
  function ReplaceAll(s: string, old_: string, new_: string): string
    requires old_ != ""
    decreases |s|
  {
    if |s| < |old_| then s
    else if HasPrefix(s, old_) then new_ + ReplaceAll(s[|old_|..], old_, new_)
    else [s[0]] + ReplaceAll(s[1..], old_, new_)
  }

  /** `strings.Replace(s, old, new, 1)` for a non-empty `old`. */
  function ReplaceFirst(s: string, old_: string, new_: string): string
    requires old_ != ""
    decreases |s|
  {
    if |s| < |old_| then s
    else if HasPrefix(s, old_) then new_ + s[|old_|..]
    else [s[0]] + ReplaceFirst(s[1..], old_, new_)
  }

  predicate Contains(s: string, part: string) {
    exists i: nat :: i <= |s| && HasPrefix(s[i..], part)
  }

  lemma StartAnew(s: string, part: string)
    requires part != "" && HasPrefix(s, part)
    ensures s == part + s[|part|..]
  {
  }

  /** Replacing takes a text apart at the occurrences of `old` and puts `new` in their places: nothing else changes, and
      no occurrence is left out. */
  lemma {:induction false} ReplaceAllExactly(s: string, old_: string, new_: string) returns (parts: seq<string>)
    requires old_ != ""
    ensures parts != [] && Join(parts, old_) == s && Join(parts, new_) == ReplaceAll(s, old_, new_)
    ensures forall part :: part in parts ==> !Contains(part, old_)
    decreases |s|
  {
    if |s| < |old_| {
      parts := [s];
    } else if HasPrefix(s, old_) {
      var rest := ReplaceAllExactly(s[|old_|..], old_, new_);
      StartAnew(s, old_);
      JoinOfCons("", rest, old_);
      JoinOfCons("", rest, new_);
      parts := [""] + rest;
    } else {
      var rest := ReplaceAllExactly(s[1..], old_, new_);
      parts := [[s[0]] + rest[0]] + rest[1..];
      JoinFirst(s[0], rest, old_);
      JoinFirst(s[0], rest, new_);
      assert s == [s[0]] + s[1..];
      FirstPartStaysFree(s, rest, old_);
    }
  }

  lemma JoinFirst(c: char, parts: seq<string>, separator: string)
    requires parts != []
    ensures Join([[c] + parts[0]] + parts[1..], separator) == [c] + Join(parts, separator)
  {
    if |parts| > 1 {
      JoinOfCons([c] + parts[0], parts[1..], separator);
    }
  }

  lemma PrefixOfPrefix(s: string, part: string, start: string)
    requires HasPrefix(s, part)
    ensures HasPrefix(part, start) ==> HasPrefix(s, start)
  {
  }

  lemma FirstPartStaysFree(s: string, rest: seq<string>, old_: string)
    requires |s| >= |old_| > 0 && !HasPrefix(s, old_) && rest != [] && Join(rest, old_) == s[1..]
    requires !Contains(rest[0], old_)
    ensures !Contains([s[0]] + rest[0], old_)
  {
    var part := [s[0]] + rest[0];
    assert HasPrefix(s[1..], rest[0]) && HasPrefix(s, part);
    forall i: nat | i <= |part| ensures !HasPrefix(part[i..], old_) {
      if i > 0 {
        assert part[i..] == rest[0][i - 1..];
        assert !HasPrefix(rest[0][i - 1..], old_);
      } else {
        assert part[0..] == part;
        PrefixOfPrefix(s, part, old_);
      }
    }
  }
}
