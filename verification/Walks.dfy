/** The orders in which a program can walk over the maps of a list of resources: resource by resource and map by map,
    but within a map in any order. */
module Walks {

  import opened NaisResources

  const ALL_KINDS: set<EntryKind> := {Property, Secret, Certificate}
  const CONFIDENTIAL: set<EntryKind> := {Secret, Certificate}
  const CERTIFICATES: set<EntryKind> := {Certificate}

  function KindIndex(kind: EntryKind): (i: nat)
    ensures i < 3
  {
    match kind
    case Property => 0
    case Secret => 1
    case Certificate => 2
  }

  /** The place of an entry's map among all maps. */
  function Rank(e: Entry): nat {
    3 * e.resource + KindIndex(e.kind)
  }

  /** Earlier resources come first, and within one the properties before the secrets before the certificates. */
  lemma RankSpelled(a: Entry, b: Entry)
    ensures Rank(a) < Rank(b) <==>
            || a.resource < b.resource
            || (a.resource == b.resource && ((a.kind == Property && b.kind != Property) ||
                                             (a.kind == Secret && b.kind == Certificate)))
    ensures Rank(a) == Rank(b) <==> a.resource == b.resource && a.kind == b.kind
  {
  }

  /** No map before an earlier one, and no entry twice. */
  ghost predicate Ascends(order: seq<Entry>) {
    forall j, k :: 0 <= j < k < |order| ==> Rank(order[j]) <= Rank(order[k]) && order[j] != order[k]
  }

  ghost predicate Below(order: seq<Entry>, rank: nat) {
    forall e :: e in order ==> Rank(e) < rank
  }

  /** A walk over the maps of some kinds, as far as the first `n` resources. */
  ghost predicate WalkTo(order: seq<Entry>, rs: seq<NaisResource>, kinds: set<EntryKind>, n: nat) {
    Ascends(order) && forall e :: e in order <==> IsEntry(rs, e) && e.kind in kinds && e.resource < n
  }

  /** A walk over all maps of some kinds. */
  ghost predicate Walk(order: seq<Entry>, rs: seq<NaisResource>, kinds: set<EntryKind>) {
    WalkTo(order, rs, kinds, |rs|)
  }

  function SizeOf(m: map<string, string>, wanted: bool): nat {
    if wanted then |m| else 0
  }

  /** The number of entries of some kinds in the first `n` resources. */
  function CountOf(rs: seq<NaisResource>, kinds: set<EntryKind>, n: nat): nat
    requires n <= |rs|
  {
    if n == 0 then 0
    else CountOf(rs, kinds, n - 1) + SizeOf(rs[n - 1].properties, Property in kinds) +
         SizeOf(rs[n - 1].secret, Secret in kinds) + SizeOf(rs[n - 1].certificates, Certificate in kinds)
  }

  lemma AscendsMore(order: seq<Entry>, e: Entry)
    requires Ascends(order) && e !in order && Below(order, Rank(e) + 1)
    ensures Ascends(order + [e]) && Below(order + [e], Rank(e) + 1)
  {
  }

  /** `extended` has the entries of `order`, and those of one map of one resource under the keys `keys`. */
  ghost predicate Adds(extended: seq<Entry>, order: seq<Entry>, i: nat, kind: EntryKind, keys: set<string>) {
    && |extended| == |order| + |keys|
    && forall e :: e in extended <==> e in order || (e.resource == i && e.kind == kind && e.key in keys)
  }

  lemma AddsOneMore(extended: seq<Entry>, order: seq<Entry>, e: Entry, keys: set<string>)
    requires Adds(extended, order, e.resource, e.kind, keys) && e.key !in keys
    ensures Adds(extended + [e], order, e.resource, e.kind, keys + {e.key})
  {
  }

  // ---- There is always a walk ----

  lemma AddKeys(order: seq<Entry>, i: nat, kind: EntryKind, keys: set<string>) returns (extended: seq<Entry>)
    requires Ascends(order) && Below(order, 3 * i + KindIndex(kind))
    ensures Ascends(extended) && Adds(extended, order, i, kind, keys)
    ensures Below(extended, 3 * i + KindIndex(kind) + 1)
    decreases keys
  {
    if keys == {} {
      extended := order;
    } else {
      var key :| key in keys;
      extended := AddKeys(order, i, kind, keys - {key});
      assert Entry(i, kind, key) !in extended;
      AscendsMore(extended, Entry(i, kind, key));
      AddsOneMore(extended, order, Entry(i, kind, key), keys - {key});
      assert keys - {key} + {key} == keys;
      extended := extended + [Entry(i, kind, key)];
    }
  }

  function KeysOf(rs: seq<NaisResource>, i: nat, kind: EntryKind, kinds: set<EntryKind>): set<string>
    requires i < |rs|
  {
    if kind in kinds then Entries(rs[i], kind).Keys else {}
  }

  lemma WalkUpTo(rs: seq<NaisResource>, kinds: set<EntryKind>, n: nat) returns (order: seq<Entry>)
    requires n <= |rs|
    ensures WalkTo(order, rs, kinds, n) && |order| == CountOf(rs, kinds, n)
  {
    if n == 0 {
      order := [];
    } else {
      var i := n - 1;
      order := WalkUpTo(rs, kinds, i);
      order := AddKeys(order, i, Property, KeysOf(rs, i, Property, kinds));
      order := AddKeys(order, i, Secret, KeysOf(rs, i, Secret, kinds));
      order := AddKeys(order, i, Certificate, KeysOf(rs, i, Certificate, kinds));
    }
  }

  lemma WalkExists(rs: seq<NaisResource>, kinds: set<EntryKind>) returns (order: seq<Entry>)
    ensures Walk(order, rs, kinds)
  {
    order := WalkUpTo(rs, kinds, |rs|);
  }

  predicate Unrepeated(o: seq<Entry>) {
    forall j, k :: 0 <= j < k < |o| ==> o[j] != o[k]
  }

  function Members(o: seq<Entry>): set<Entry> {
    set e | e in o
  }

  /** A sequence without repetitions is as long as any other with the same members. */
  lemma {:induction false} SameMembersSameLength(o: seq<Entry>, o': seq<Entry>)
    requires Ascends(o) && Ascends(o') && forall e :: e in o <==> e in o'
    ensures |o| == |o'|
  {
    MembersCount(o);
    MembersCount(o');
    assert Members(o) == Members(o');
  }

  lemma MembersMore(o: seq<Entry>, e: Entry)
    requires e !in o
    ensures |Members(o + [e])| == |Members(o)| + 1
  {
    assert e !in Members(o);
    assert Members(o + [e]) == Members(o) + {e};
  }

  lemma {:induction false} MembersCount(o: seq<Entry>)
    requires Unrepeated(o)
    ensures |Members(o)| == |o|
  {
    if o != [] {
      var front, last := o[..|o| - 1], o[|o| - 1];
      MembersCount(front);
      MembersMore(front, last);
      assert o == front + [last];
    }
  }

  /** Every walk visits each entry once. */
  lemma WalkLength(order: seq<Entry>, rs: seq<NaisResource>, kinds: set<EntryKind>)
    requires Walk(order, rs, kinds)
    ensures |order| == CountOf(rs, kinds, |rs|)
  {
    var other := WalkUpTo(rs, kinds, |rs|);
    SameMembersSameLength(order, other);
  }

  // ---- When there is only one ----

  /** Each map of these kinds has at most one entry. */
  predicate SingleEntries(rs: seq<NaisResource>, kinds: set<EntryKind>) {
    forall i, kind :: 0 <= i < |rs| && kind in kinds ==> |Entries(rs[i], kind)| <= 1
  }

  lemma SingleKey(m: map<string, string>, a: string, b: string)
    requires |m| <= 1 && a in m && b in m
    ensures a == b
  {
    if a != b {
      assert {a, b} <= m.Keys && |{a, b}| == 2;
      SubsetSize({a, b}, m.Keys);
    }
  }

  lemma SubsetSize(s: set<string>, t: set<string>)
    requires s <= t
    ensures |s| <= |t|
  {
    if s != {} {
      var x :| x in s;
      SubsetSize(s - {x}, t - {x});
    }
  }

  lemma RankDetermines(rs: seq<NaisResource>, kinds: set<EntryKind>, a: Entry, b: Entry)
    requires SingleEntries(rs, kinds) && IsEntry(rs, a) && IsEntry(rs, b) && a.kind in kinds && Rank(a) == Rank(b)
    ensures a == b
  {
    assert a.resource == b.resource && a.kind == b.kind;
    SingleKey(Entries(rs[a.resource], a.kind), a.key, b.key);
  }

  predicate SameSet(o: seq<Entry>, o': seq<Entry>) {
    (forall e :: e in o ==> e in o') && (forall e :: e in o' ==> e in o)
  }

  lemma EmptyTogether(o: seq<Entry>, o': seq<Entry>)
    requires SameSet(o, o')
    ensures o == [] <==> o' == []
  {
    assert o != [] ==> o[0] in o';
    assert o' != [] ==> o'[0] in o;
  }

  lemma LastsAgree(o: seq<Entry>, o': seq<Entry>)
    requires o != [] && o' != [] && Ascends(o) && Ascends(o') && SameSet(o, o')
    requires forall a, b :: a in o && b in o && Rank(a) == Rank(b) ==> a == b
    ensures o[|o| - 1] == o'[|o'| - 1]
  {
    var last, last' := o[|o| - 1], o'[|o'| - 1];
    assert last in o' && last' in o;
    assert Rank(last) == Rank(last');
  }

  lemma FrontsAgree(o: seq<Entry>, o': seq<Entry>)
    requires o != [] && o' != [] && Ascends(o) && Ascends(o') && SameSet(o, o')
    requires o[|o| - 1] == o'[|o'| - 1]
    ensures SameSet(o[..|o| - 1], o'[..|o'| - 1])
  {
    var last, front, front' := o[|o| - 1], o[..|o| - 1], o'[..|o'| - 1];
    assert o == front + [last] && o' == front' + [last];
    assert last !in front && last !in front';
    forall e ensures e in front <==> e in front' {
      assert e in o <==> e in front || e == last;
      assert e in o' <==> e in front' || e == last;
    }
  }

  /** Two walks over the same entries with one entry per map agree from the last to the first. */
  lemma {:induction false} StrictWalksAgree(o: seq<Entry>, o': seq<Entry>)
    requires Ascends(o) && Ascends(o') && SameSet(o, o')
    requires forall a, b :: a in o && b in o && Rank(a) == Rank(b) ==> a == b
    ensures o == o'
  {
    EmptyTogether(o, o');
    if o != [] {
      LastsAgree(o, o');
      FrontsAgree(o, o');
      StrictWalksAgree(o[..|o| - 1], o'[..|o'| - 1]);
      assert o == o[..|o| - 1] + [o[|o| - 1]] && o' == o'[..|o'| - 1] + [o[|o| - 1]];
    }
  }

  lemma SingleEntriesOneWalk(rs: seq<NaisResource>, kinds: set<EntryKind>, o: seq<Entry>, o': seq<Entry>)
    requires SingleEntries(rs, kinds) && Walk(o, rs, kinds) && Walk(o', rs, kinds)
    ensures o == o'
  {
    forall a, b | a in o && b in o && Rank(a) == Rank(b) ensures a == b {
      RankDetermines(rs, kinds, a, b);
    }
    StrictWalksAgree(o, o');
  }

  lemma Exchange(order: seq<Entry>, p: nat, q: nat) returns (other: seq<Entry>)
    requires Ascends(order) && p < |order| && q < |order| && p != q && Rank(order[p]) == Rank(order[q])
    ensures Ascends(other) && other != order && |other| == |order| && forall e :: e in other <==> e in order
  {
    other := order[p := order[q]][q := order[p]];
    assert forall k :: 0 <= k < |order| ==>
           other[k] == if k == p then order[q] else if k == q then order[p] else order[k];
    forall e ensures e in other <==> e in order {
      if e in order {
        var k :| 0 <= k < |order| && order[k] == e;
        assert other[if k == p then q else if k == q then p else k] == e;
      }
    }
  }

  lemma TwoKeys(m: map<string, string>) returns (a: string, b: string)
    requires |m| > 1
    ensures a in m && b in m && a != b
  {
    assert m.Keys != {} by {
      assert |m.Keys| > 1;
    }
    a :| a in m.Keys;
    assert m.Keys - {a} != {} by {
      assert |m.Keys - {a}| == |m.Keys| - 1;
    }
    b :| b in m.Keys - {a};
  }

  lemma SecondWalk(rs: seq<NaisResource>, kinds: set<EntryKind>, o: seq<Entry>) returns (o': seq<Entry>)
    requires !SingleEntries(rs, kinds) && Walk(o, rs, kinds)
    ensures Walk(o', rs, kinds) && |o'| == |o| && o' != o
  {
    var i, kind :| 0 <= i < |rs| && kind in kinds && |Entries(rs[i], kind)| > 1;
    var a, b := TwoKeys(Entries(rs[i], kind));
    assert Entry(i, kind, a) in o && Entry(i, kind, b) in o;
    var p :| 0 <= p < |o| && o[p] == Entry(i, kind, a);
    var q :| 0 <= q < |o| && o[q] == Entry(i, kind, b);
    o' := Exchange(o, p, q);
  }
}
