/** The Secret of an application and the volume its certificates are read from, and their agreement with the environment
    variables. */
module Secrets {

  import opened Wrappers
  import opened Text
  import opened App
  import opened NaisResources
  import opened Walks
  import opened Environment
  import ProxyOptions

  datatype KeyToPath = KeyToPath(key: string, path: string)

  datatype VolumeSource = NoSource | SecretVolume(secretName: string, items: seq<KeyToPath>) | EmptyDir

  datatype Volume = Volume(name: string, source: VolumeSource)

  datatype VolumeMount = VolumeMount(name: string, mountPath: string)

  /** An entry that is stored in the Secret. */
  predicate Confidential(rs: seq<NaisResource>, e: Entry) {
    IsEntry(rs, e) && e.kind in CONFIDENTIAL
  }

  /** Every confidential entry can be read back under its reference, and there is nothing else. */
  ghost predicate Holds(data: map<string, string>, rs: seq<NaisResource>) {
    && (forall e :: Confidential(rs, e) ==> Reference(rs, e) in data && data[Reference(rs, e)] == Value(rs, e))
    && (forall key :: key in data ==> exists e :: Confidential(rs, e) && Reference(rs, e) == key)
  }

  ghost predicate ReferencesDistinct(rs: seq<NaisResource>) {
    forall a, b :: Confidential(rs, a) && Confidential(rs, b) && a != b ==> Reference(rs, a) != Reference(rs, b)
  }

  lemma HeldDataCovers(rs: seq<NaisResource>, data: map<string, string>, data': map<string, string>)
    requires Holds(data, rs) && Holds(data', rs)
    ensures data.Keys <= data'.Keys && forall key :: key in data ==> data'[key] == data[key]
  {
  }

  lemma HeldDataUnique(rs: seq<NaisResource>, data: map<string, string>, data': map<string, string>)
    requires Holds(data, rs) && Holds(data', rs)
    ensures data == data'
  {
    HeldDataCovers(rs, data, data');
    assert data'.Keys <= data.Keys by {
      HeldDataCovers(rs, data', data);
    }
  }

  datatype Pair = Pair(key: string, value: string)

  /** The references and values of the entries in `order`. */
  ghost predicate PairsOf(pairs: seq<Pair>, rs: seq<NaisResource>, order: seq<Entry>) {
    && |pairs| == |order|
    && forall i :: 0 <= i < |order| ==>
         Confidential(rs, order[i]) && pairs[i] == Pair(Reference(rs, order[i]), Value(rs, order[i]))
  }

  ghost predicate KeysDistinct(pairs: seq<Pair>) {
    forall i, j :: 0 <= i < |pairs| && 0 <= j < |pairs| && i != j ==> pairs[i].key != pairs[j].key
  }

  ghost predicate LastAt(pairs: seq<Pair>, i: nat, key: string) {
    i < |pairs| && pairs[i].key == key && forall j :: i < j < |pairs| ==> pairs[j].key != key
  }

  /** The data after writing `pairs` one over the other. */
  ghost predicate Written(data: map<string, string>, pairs: seq<Pair>) {
    && (forall i :: 0 <= i < |pairs| ==> pairs[i].key in data)
    && (forall key :: key in data ==> exists i: nat :: LastAt(pairs, i, key) && pairs[i].value == data[key])
  }

  lemma WriteOne(data: map<string, string>, pairs: seq<Pair>, key: string, value: string)
    requires Written(data, pairs)
    ensures Written(data[key := value], pairs + [Pair(key, value)])
  {
    var data', pairs' := data[key := value], pairs + [Pair(key, value)];
    forall k | k in data' ensures exists i: nat :: LastAt(pairs', i, k) && pairs'[i].value == data'[k] {
      if k == key {
        assert LastAt(pairs', |pairs|, key);
      } else {
        var i: nat :| LastAt(pairs, i, k) && pairs[i].value == data[k];
        assert LastAt(pairs', i, k);
      }
    }
  }

  predicate AllDistinct(keys: seq<string>) {
    forall i, j :: 0 <= i < j < |keys| ==> keys[i] != keys[j]
  }

  lemma AllDistinctNext(keys: seq<string>, last: string)
    ensures AllDistinct(keys + [last]) <==> AllDistinct(keys) && last !in keys
  {
    var all := keys + [last];
    assert all[|keys|] == last && forall i :: 0 <= i < |keys| ==> all[i] == keys[i];
    if last in keys {
      var i :| 0 <= i < |keys| && keys[i] == last;
      assert all[i] == all[|keys|];
    }
  }

  function KeySet(keys: seq<string>): set<string> {
    set k | k in keys
  }

  lemma {:induction false} DistinctKeysCount(keys: seq<string>)
    ensures |KeySet(keys)| <= |keys|
    ensures |KeySet(keys)| == |keys| <==> AllDistinct(keys)
  {
    if keys != [] {
      var front, last := keys[..|keys| - 1], keys[|keys| - 1];
      DistinctKeysCount(front);
      assert keys == front + [last];
      assert KeySet(keys) == KeySet(front) + {last};
      AllDistinctNext(front, last);
    }
  }

  function KeysOfPairs(pairs: seq<Pair>): (keys: seq<string>)
    ensures |keys| == |pairs| && forall i :: 0 <= i < |pairs| ==> keys[i] == pairs[i].key
  {
    seq(|pairs|, i requires 0 <= i < |pairs| => pairs[i].key)
  }

  lemma WrittenKeys(data: map<string, string>, pairs: seq<Pair>)
    requires Written(data, pairs)
    ensures data.Keys == KeySet(KeysOfPairs(pairs))
  {
    var keys := KeysOfPairs(pairs);
    forall k ensures k in data.Keys <==> k in keys {
      if k in data {
        var i: nat :| LastAt(pairs, i, k) && pairs[i].value == data[k];
        assert keys[i] == k;
      }
      if k in keys {
        var i :| 0 <= i < |keys| && keys[i] == k;
        assert pairs[i].key == k;
      }
    }
  }

  /** As many keys as writes: then, and only then, no write met an earlier one. */
  lemma KeysCounted(data: map<string, string>, pairs: seq<Pair>)
    requires Written(data, pairs)
    ensures |data| <= |pairs|
    ensures |data| == |pairs| <==> KeysDistinct(pairs)
  {
    WrittenKeys(data, pairs);
    DistinctKeysCount(KeysOfPairs(pairs));
  }

  lemma PairsOneMore(pairs: seq<Pair>, rs: seq<NaisResource>, order: seq<Entry>, e: Entry)
    requires PairsOf(pairs, rs, order) && Confidential(rs, e)
    ensures PairsOf(pairs + [Pair(Reference(rs, e), Value(rs, e))], rs, order + [e])
  {
  }

  /** The writes made so far, in the order of a walk. */
  ghost predicate Progressed(data: map<string, string>, rs: seq<NaisResource>, order: seq<Entry>, pairs: seq<Pair>) {
    Ascends(order) && PairsOf(pairs, rs, order) && Written(data, pairs)
  }

  lemma ProgressOne(data: map<string, string>, rs: seq<NaisResource>, order: seq<Entry>, pairs: seq<Pair>, e: Entry)
    requires Progressed(data, rs, order, pairs) && Confidential(rs, e) && e !in order && Below(order, Rank(e) + 1)
    ensures Progressed(data[Reference(rs, e) := Value(rs, e)], rs, order + [e],
                       pairs + [Pair(Reference(rs, e), Value(rs, e))])
    ensures Below(order + [e], Rank(e) + 1)
  {
    WriteOne(data, pairs, Reference(rs, e), Value(rs, e));
    AscendsMore(order, e);
    PairsOneMore(pairs, rs, order, e);
  }

  /** Writes one map of one resource into the data, in any order, overwriting what is there. */
  method StoreEntries(rs: seq<NaisResource>, i: nat, kind: EntryKind, before: map<string, string>,
                      ghost order: seq<Entry>, ghost pairs: seq<Pair>)
    returns (data: map<string, string>, ghost order': seq<Entry>, ghost pairs': seq<Pair>)
    requires i < |rs| && kind in CONFIDENTIAL
    requires Progressed(before, rs, order, pairs) && Below(order, 3 * i + KindIndex(kind))
    ensures Progressed(data, rs, order', pairs') && Below(order', 3 * i + KindIndex(kind) + 1)
    ensures Adds(order', order, i, kind, Entries(rs[i], kind).Keys)
  {
    data, order', pairs' := before, order, pairs;
    var keys := Entries(rs[i], kind).Keys;
    ghost var done := {};
    while keys != {}
      invariant Progressed(data, rs, order', pairs') && Below(order', 3 * i + KindIndex(kind) + 1)
      invariant Adds(order', order, i, kind, done)
      invariant keys !! done && keys + done == Entries(rs[i], kind).Keys
      decreases |keys|
    {
      var key :| key in keys;
      ghost var e := Entry(i, kind, key);
      assert IsEntry(rs, e);
      ProgressOne(data, rs, order', pairs', e);
      AddsOneMore(order', order, e, done);
      data := data[rs[i].ToResourceVariable(key) := Entries(rs[i], kind)[key]];
      order', pairs' := order' + [e], pairs' + [Pair(Reference(rs, e), Value(rs, e))];
      keys, done := keys - {key}, done + {key};
    }
    assert done == Entries(rs[i], kind).Keys;
  }

  /** The entry whose value ends up at its reference when several share it: no other comes in a later map. */
  ghost predicate Prevails(rs: seq<NaisResource>, e: Entry) {
    Confidential(rs, e) && forall o :: Confidential(rs, o) && Reference(rs, o) == Reference(rs, e) ==>
        Rank(o) <= Rank(e)
  }

  /** Every reference is there, with the value of an entry that prevails. */
  ghost predicate LastWins(data: map<string, string>, rs: seq<NaisResource>) {
    && (forall e :: Confidential(rs, e) ==> Reference(rs, e) in data)
    && (forall key :: key in data ==>
         exists e :: Prevails(rs, e) && Reference(rs, e) == key && Value(rs, e) == data[key])
  }

  method StoreResource(rs: seq<NaisResource>, i: nat, before: map<string, string>, ghost order: seq<Entry>,
                       ghost pairs: seq<Pair>)
    returns (data: map<string, string>, ghost order': seq<Entry>, ghost pairs': seq<Pair>)
    requires i < |rs| && Progressed(before, rs, order, pairs) && WalkTo(order, rs, CONFIDENTIAL, i)
    ensures Progressed(data, rs, order', pairs') && WalkTo(order', rs, CONFIDENTIAL, i + 1)
  {
    data, order', pairs' := StoreEntries(rs, i, Secret, before, order, pairs);
    data, order', pairs' := StoreEntries(rs, i, Certificate, data, order', pairs');
  }

  /** The overwriting writes lose nothing exactly when no two entries share a reference; where they do, the later map
      wins. */
  method CreateSecretData(rs: seq<NaisResource>) returns (data: map<string, string>)
    ensures |data| <= CountOf(rs, CONFIDENTIAL, |rs|)
    ensures |data| == CountOf(rs, CONFIDENTIAL, |rs|) <==> ReferencesDistinct(rs)
    ensures LastWins(data, rs)
    ensures ReferencesDistinct(rs) ==> Holds(data, rs)
  {
    data := map[];
    ghost var order: seq<Entry>, pairs: seq<Pair> := [], [];
    for i := 0 to |rs|
      invariant WalkTo(order, rs, CONFIDENTIAL, i) && Progressed(data, rs, order, pairs)
    {
      data, order, pairs := StoreResource(rs, i, data, order, pairs);
    }
    DataFacts(data, rs, order, pairs);
  }

  lemma DataFacts(data: map<string, string>, rs: seq<NaisResource>, order: seq<Entry>, pairs: seq<Pair>)
    requires Walk(order, rs, CONFIDENTIAL) && Progressed(data, rs, order, pairs)
    ensures |data| <= CountOf(rs, CONFIDENTIAL, |rs|)
    ensures |data| == CountOf(rs, CONFIDENTIAL, |rs|) <==> ReferencesDistinct(rs)
    ensures LastWins(data, rs)
    ensures ReferencesDistinct(rs) ==> Holds(data, rs)
  {
    WalkLength(order, rs, CONFIDENTIAL);
    DistinctReferences(rs, order, pairs);
    KeysCounted(data, pairs);
    LastWritten(data, rs, order, pairs);
    if ReferencesDistinct(rs) {
      LastWinsHolds(data, rs);
    }
  }

  lemma DistinctReferences(rs: seq<NaisResource>, order: seq<Entry>, pairs: seq<Pair>)
    requires Walk(order, rs, CONFIDENTIAL) && PairsOf(pairs, rs, order)
    ensures KeysDistinct(pairs) <==> ReferencesDistinct(rs)
  {
  }

  lemma NoLaterMap(rs: seq<NaisResource>, order: seq<Entry>, pairs: seq<Pair>, i: nat, o: Entry)
    requires Ascends(order) && PairsOf(pairs, rs, order) && i < |order| && LastAt(pairs, i, pairs[i].key)
    requires o in order && Confidential(rs, o) && Reference(rs, o) == pairs[i].key
    ensures Rank(o) <= Rank(order[i])
  {
    var j :| 0 <= j < |order| && order[j] == o;
    assert pairs[j].key == pairs[i].key;
  }

  lemma LastPrevails(rs: seq<NaisResource>, order: seq<Entry>, pairs: seq<Pair>, i: nat, key: string)
    requires Walk(order, rs, CONFIDENTIAL) && PairsOf(pairs, rs, order) && LastAt(pairs, i, key)
    ensures Prevails(rs, order[i]) && Reference(rs, order[i]) == key && Value(rs, order[i]) == pairs[i].value
  {
    forall o | Confidential(rs, o) && Reference(rs, o) == key ensures Rank(o) <= Rank(order[i]) {
      NoLaterMap(rs, order, pairs, i, o);
    }
  }

  lemma LastWritten(data: map<string, string>, rs: seq<NaisResource>, order: seq<Entry>, pairs: seq<Pair>)
    requires Walk(order, rs, CONFIDENTIAL) && PairsOf(pairs, rs, order) && Written(data, pairs)
    ensures LastWins(data, rs)
  {
    forall e | Confidential(rs, e) ensures Reference(rs, e) in data {
      assert e in order;
      var i :| 0 <= i < |order| && order[i] == e;
      assert pairs[i].key in data;
    }
    forall key | key in data
      ensures exists e :: Prevails(rs, e) && Reference(rs, e) == key && Value(rs, e) == data[key]
    {
      var i: nat :| LastAt(pairs, i, key) && pairs[i].value == data[key];
      LastPrevails(rs, order, pairs, i, key);
    }
  }

  lemma LastWinsHolds(data: map<string, string>, rs: seq<NaisResource>)
    requires LastWins(data, rs) && ReferencesDistinct(rs)
    ensures Holds(data, rs)
  {
    forall e | Confidential(rs, e) ensures data[Reference(rs, e)] == Value(rs, e) {
      var o :| Prevails(rs, o) && Reference(rs, o) == Reference(rs, e) && Value(rs, o) == data[Reference(rs, e)];
    }
  }

  lemma {:induction false} WriteAll(pairs: seq<Pair>) returns (data: map<string, string>)
    ensures Written(data, pairs)
  {
    if pairs == [] {
      data := map[];
    } else {
      var front, last := pairs[..|pairs| - 1], pairs[|pairs| - 1];
      data := WriteAll(front);
      WriteOne(data, front, last.key, last.value);
      data := data[last.key := last.value];
      assert pairs == front + [Pair(last.key, last.value)];
    }
  }

  lemma PairsExist(rs: seq<NaisResource>, order: seq<Entry>) returns (pairs: seq<Pair>)
    requires forall e :: e in order ==> Confidential(rs, e)
    ensures PairsOf(pairs, rs, order)
  {
    pairs := seq(|order|, i requires 0 <= i < |order| =>
               assert order[i] in order; Pair(Reference(rs, order[i]), Value(rs, order[i])));
  }

  lemma DataExist(rs: seq<NaisResource>) returns (data: map<string, string>)
    ensures LastWins(data, rs)
  {
    var order := WalkExists(rs, CONFIDENTIAL);
    var pairs := PairsExist(rs, order);
    data := WriteAll(pairs);
    LastWritten(data, rs, order, pairs);
  }

  // ---- The certificate volume ----

  predicate HasCertificate(rs: seq<NaisResource>) {
    exists i :: 0 <= i < |rs| && |rs[i].certificates| > 0
  }

  function ValidLabelName(s: string): string {
    ToLower(ReplaceChar(s, '_', '-'))
  }

  /** The items of the volume: one per certificate, in the order of some walk. */
  ghost predicate Projects(items: seq<KeyToPath>, rs: seq<NaisResource>) {
    exists order :: Walk(order, rs, CERTIFICATES) && items == Items(rs, order)
  }

  function Items(rs: seq<NaisResource>, order: seq<Entry>): (items: seq<KeyToPath>)
    requires forall e :: e in order ==> IsEntry(rs, e)
    ensures |items| == |order|
    ensures forall j :: 0 <= j < |order| ==> items[j] == KeyToPath(Reference(rs, order[j]), Reference(rs, order[j]))
  {
    seq(|order|, j requires 0 <= j < |order| =>
      assert order[j] in order; KeyToPath(Reference(rs, order[j]), Reference(rs, order[j])))
  }

  lemma ItemsMore(rs: seq<NaisResource>, order: seq<Entry>, e: Entry)
    requires IsEntry(rs, e) && forall o :: o in order ==> IsEntry(rs, o)
    ensures Items(rs, order + [e]) == Items(rs, order) + [KeyToPath(Reference(rs, e), Reference(rs, e))]
  {
  }

  ghost predicate ItemsSoFar(items: seq<KeyToPath>, rs: seq<NaisResource>, order: seq<Entry>) {
    Ascends(order) && (forall e :: e in order ==> IsEntry(rs, e)) && items == Items(rs, order)
  }

  method CertificateItems(rs: seq<NaisResource>, i: nat, before: seq<KeyToPath>, ghost order: seq<Entry>)
    returns (items: seq<KeyToPath>, ghost order': seq<Entry>)
    requires i < |rs| && ItemsSoFar(before, rs, order) && Below(order, 3 * i + KindIndex(Certificate))
    ensures ItemsSoFar(items, rs, order') && Adds(order', order, i, Certificate, rs[i].certificates.Keys)
  {
    items, order' := before, order;
    var keys := rs[i].certificates.Keys;
    ghost var done := {};
    while keys != {}
      invariant ItemsSoFar(items, rs, order') && Below(order', 3 * i + KindIndex(Certificate) + 1)
      invariant Adds(order', order, i, Certificate, done)
      invariant keys !! done && keys + done == rs[i].certificates.Keys
      decreases |keys|
    {
      var key :| key in keys;
      ghost var e := Entry(i, Certificate, key);
      ItemsMore(rs, order', e);
      AddsOneMore(order', order, e, done);
      AscendsMore(order', e);
      items := items + [KeyToPath(rs[i].ToResourceVariable(key), rs[i].ToResourceVariable(key))];
      order' := order' + [e];
      keys, done := keys - {key}, done + {key};
    }
    assert done == rs[i].certificates.Keys;
  }

  lemma SomeCertificateSomeItem(rs: seq<NaisResource>, order: seq<Entry>)
    requires Walk(order, rs, CERTIFICATES)
    ensures order != [] <==> HasCertificate(rs)
  {
    if order != [] {
      assert order[0] in order;
      assert order[0].key in rs[order[0].resource].certificates.Keys;
    }
    if HasCertificate(rs) {
      var i :| 0 <= i < |rs| && |rs[i].certificates| > 0;
      assert rs[i].certificates.Keys != {};
      var key :| key in rs[i].certificates.Keys;
      assert Entry(i, Certificate, key) in order;
    }
  }

  method CreateCertificateVolume(spec: Spec, rs: seq<NaisResource>) returns (volume: Volume)
    ensures HasCertificate(rs) ==>
              && volume.name == ValidLabelName(spec.ResourceName())
              && volume.source.SecretVolume? && volume.source.secretName == spec.ResourceName()
              && Projects(volume.source.items, rs)
    ensures !HasCertificate(rs) ==> volume == Volume("", NoSource)
  {
    var items: seq<KeyToPath> := [];
    ghost var order: seq<Entry> := [];
    for i := 0 to |rs|
      invariant WalkTo(order, rs, CERTIFICATES, i) && ItemsSoFar(items, rs, order)
    {
      items, order := CertificateItems(rs, i, items, order);
    }
    SomeCertificateSomeItem(rs, order);
    if |items| > 0 {
      volume := Volume(ValidLabelName(spec.ResourceName()), SecretVolume(spec.ResourceName(), items));
    } else {
      volume := Volume("", NoSource);
    }
  }

  function CreateCertificateVolumeMount(spec: Spec, rs: seq<NaisResource>): VolumeMount {
    if HasCertificate(rs)
        then VolumeMount(ValidLabelName(spec.ResourceName()), ROOT_MOUNT_POINT) else VolumeMount("", "")
  }

  // ---- Agreement ----

  lemma DistinctEntriesHaveDistinctReferences(base: seq<EnvVar>, rs: seq<NaisResource>)
    requires EntriesDistinct(base, rs)
    ensures ReferencesDistinct(rs)
  {
    forall a, b | Confidential(rs, a) && Confidential(rs, b) && a != b ensures Reference(rs, a) != Reference(rs, b) {
      assert VariableName(rs, a) != VariableName(rs, b);
    }
  }

  lemma EntryOf(vars: seq<EnvVar>, spec: Spec, base: seq<EnvVar>, rs: seq<NaisResource>, v: EnvVar) returns (e: Entry)
    requires Lists(vars, spec, base, rs) && v in vars && v !in base
    ensures IsEntry(rs, e) && v == Variable(spec, rs, e)
  {
    var order :| Enumerates(order, rs) && vars == base + Variables(spec, rs, order);
    var i :| 0 <= i < |vars| && vars[i] == v;
    assert forall j :: 0 <= j < |base| ==> vars[j] in base;
    e := order[i - |base|];
  }

  /** Every variable comes from the base or from exactly one entry. */
  lemma Origin(vars: seq<EnvVar>, spec: Spec, base: seq<EnvVar>, rs: seq<NaisResource>)
    requires Lists(vars, spec, base, rs)
    ensures forall v :: v in vars <==> v in base || exists e :: IsEntry(rs, e) && v == Variable(spec, rs, e)
  {
  }

  lemma ListLength(vars: seq<EnvVar>, spec: Spec, base: seq<EnvVar>, rs: seq<NaisResource>)
    requires Lists(vars, spec, base, rs)
    ensures |vars| == |base| + CountOf(rs, ALL_KINDS, |rs|)
  {
    var order :| Enumerates(order, rs) && vars == base + Variables(spec, rs, order);
    WalkLength(order, rs, ALL_KINDS);
  }

  /** Successful runs yield the same variables, whatever order each of them took. */
  lemma OrderIsIrrelevant(vars: seq<EnvVar>, vars': seq<EnvVar>, spec: Spec, base: seq<EnvVar>, rs: seq<NaisResource>)
    requires Lists(vars, spec, base, rs) && Lists(vars', spec, base, rs)
    ensures (forall v :: v in vars <==> v in vars') && |vars| == |vars'| == |base| + CountOf(rs, ALL_KINDS, |rs|)
  {
    ListLength(vars, spec, base, rs);
    ListLength(vars', spec, base, rs);
    Origin(vars, spec, base, rs);
    Origin(vars', spec, base, rs);
  }

  /** The variable called `name` is at `i` and nowhere else. */
  ghost predicate OnlyAt(vars: seq<EnvVar>, i: nat, name: string) {
    i < |vars| && vars[i].name == name && forall j :: 0 <= j < |vars| && vars[j].name == name ==> j == i
  }

  lemma NameIsUnique(vars: seq<EnvVar>, v: EnvVar) returns (i: nat)
    requires NamesDistinct(vars) && v in vars
    ensures OnlyAt(vars, i, v.name) && vars[i] == v
  {
    i :| 0 <= i < |vars| && vars[i] == v;
  }

  /** A secret variable is called by the upper case of its key. */
  lemma NamedByTheirKey(vars: seq<EnvVar>, spec: Spec, base: seq<EnvVar>, rs: seq<NaisResource>)
    requires Lists(vars, spec, base, rs) && forall v :: v in base ==> v.value.Literal?
    ensures forall v :: v in vars && v.value.SecretKeyRef? ==> v.name == ToUpper(v.value.key)
  {
  }

  /** One variable refers to each secret entry, and the Secret has that entry's value there. */
  lemma SecretAgreement(vars: seq<EnvVar>, spec: Spec, base: seq<EnvVar>, rs: seq<NaisResource>,
                        data: map<string, string>, e: Entry)
    requires Lists(vars, spec, base, rs) && NamesDistinct(vars) && Holds(data, rs)
    requires forall v :: v in base ==> v.value.Literal?
    requires IsEntry(rs, e) && e.kind == Secret
    ensures exists i: nat ::
              && OnlyAt(vars, i, VariableName(rs, e))
              && vars[i].value == SecretKeyRef(spec.ResourceName(), Reference(rs, e))
              && forall j :: 0 <= j < |vars| && SameKey(vars[j].value, vars[i].value) ==> j == i
    ensures Reference(rs, e) in data && data[Reference(rs, e)] == rs[e.resource].secret[e.key]
  {
    var key := Reference(rs, e);
    var v := Variable(spec, rs, e);
    assert Confidential(rs, e);
    assert v in vars by {
      Origin(vars, spec, base, rs);
    }
    NamedByTheirKey(vars, spec, base, rs);
    var i := NameIsUnique(vars, v);
    forall j | 0 <= j < |vars| && SameKey(vars[j].value, vars[i].value) ensures j == i {
      assert vars[j] in vars;
      assert vars[j].name == ToUpper(key);
    }
  }

  /** One variable is called as each property, and it holds the property's value. */
  lemma PropertyAgreement(vars: seq<EnvVar>, spec: Spec, base: seq<EnvVar>, rs: seq<NaisResource>, e: Entry)
    requires Lists(vars, spec, base, rs) && NamesDistinct(vars) && IsEntry(rs, e) && e.kind == Property
    ensures exists i: nat ::
              OnlyAt(vars, i, VariableName(rs, e)) && vars[i].value == Literal(rs[e.resource].properties[e.key])
  {
    EntryIsListed(vars, spec, base, rs, e);
    var i := NameIsUnique(vars, Variable(spec, rs, e));
  }

  /** No variable refers to something the Secret does not hold, or to another Secret. */
  lemma NoDanglingReference(vars: seq<EnvVar>, spec: Spec, base: seq<EnvVar>, rs: seq<NaisResource>,
                            data: map<string, string>, v: EnvVar)
    requires Lists(vars, spec, base, rs) && Holds(data, rs)
    requires forall u :: u in base ==> u.value.Literal?
    requires v in vars && v.value.SecretKeyRef?
    ensures v.value.secretName == spec.ResourceName() && v.value.key in data
  {
    var e := EntryOf(vars, spec, base, rs, v);
    assert Confidential(rs, e);
  }

  /** One variable holds the path of each certificate, one item of the volume puts a file there, and the file is that
      certificate. */
  lemma CertificateAgreement(vars: seq<EnvVar>, spec: Spec, base: seq<EnvVar>, rs: seq<NaisResource>,
                             data: map<string, string>, items: seq<KeyToPath>, e: Entry)
    requires Lists(vars, spec, base, rs) && NamesDistinct(vars)
    requires ReferencesDistinct(rs) && Holds(data, rs) && Projects(items, rs)
    requires IsEntry(rs, e) && e.kind == Certificate
    ensures exists i: nat ::
              OnlyAt(vars, i, VariableName(rs, e)) && vars[i].value == Literal(ROOT_MOUNT_POINT + Reference(rs, e))
    ensures exists i: nat :: ProjectedOnlyAt(items, i, Reference(rs, e)) && items[i].key in data &&
                        data[items[i].key] == rs[e.resource].certificates[e.key]
  {
    var v := Variable(spec, rs, e);
    assert v in vars by {
      Origin(vars, spec, base, rs);
    }
    var i := NameIsUnique(vars, v);
    ProjectedOnce(items, rs, e);
    assert Confidential(rs, e);
  }

  ghost predicate ProjectedOnlyAt(items: seq<KeyToPath>, i: nat, path: string) {
    i < |items| && items[i] == KeyToPath(path, path) && forall j :: 0 <= j < |items| && items[j].path == path ==> j == i
  }

  lemma CertificateIsProjected(items: seq<KeyToPath>, rs: seq<NaisResource>, e: Entry)
    requires Projects(items, rs) && IsEntry(rs, e) && e.kind == Certificate
    ensures KeyToPath(Reference(rs, e), Reference(rs, e)) in items
  {
    var order :| Walk(order, rs, CERTIFICATES) && items == Items(rs, order);
    assert e in order;
    var k :| 0 <= k < |order| && order[k] == e;
    assert items[k] == KeyToPath(Reference(rs, e), Reference(rs, e));
  }

  lemma ProjectedOnce(items: seq<KeyToPath>, rs: seq<NaisResource>, e: Entry)
    requires Projects(items, rs) && ReferencesDistinct(rs)
    requires IsEntry(rs, e) && e.kind == Certificate
    ensures exists i: nat :: ProjectedOnlyAt(items, i, Reference(rs, e))
  {
    var order :| Walk(order, rs, CERTIFICATES) && items == Items(rs, order);
    var k :| 0 <= k < |order| && order[k] == e;
    forall j | 0 <= j < |items| && items[j].path == Reference(rs, e) ensures j == k {
      assert order[j] in order && Confidential(rs, order[j]) && Confidential(rs, e);
    }
    assert ProjectedOnlyAt(items, k, Reference(rs, e));
  }

  lemma EntryIsListed(vars: seq<EnvVar>, spec: Spec, base: seq<EnvVar>, rs: seq<NaisResource>, e: Entry)
    requires Lists(vars, spec, base, rs) && IsEntry(rs, e)
    ensures Variable(spec, rs, e) in vars
  {
    Origin(vars, spec, base, rs);
  }

  lemma ProxyVariableNames(parse: string -> ProxyOptions.ParsedUrl, environ: map<string, string>)
    requires ProxyVariables(parse, environ).Success?
    ensures var proxy := ProxyVariables(parse, environ).value;
            NamesDistinct(proxy) && forall v :: v in proxy ==> ProxyLike(v.name)
  {
    var url, noProxy := GetEnvDualCase(environ, "NAIS_POD_HTTP_PROXY"), GetEnvDualCase(environ, "NAIS_POD_NO_PROXY");
    ProxyNamesKnown(url, noProxy, ProxyOptions.FormatText(ProxyOptions.Options(parse, url, noProxy).value));
  }

  /** Variables appended without a check: names stay distinct exactly when none of them is called like an entry. */
  lemma AppendedNames(vars: seq<EnvVar>, spec: Spec, base: seq<EnvVar>, rs: seq<NaisResource>, proxy: seq<EnvVar>,
                      elector: seq<EnvVar>)
    requires Lists(vars, spec, base, rs) && NamesDistinct(vars) && NamesDistinct(proxy) && NamesDistinct(elector)
    requires forall u, v :: u in proxy && v in elector ==> u.name != v.name
    requires forall u, v :: u in base && (v in proxy || v in elector) ==> u.name != v.name
    ensures NamesDistinct(vars + (proxy + elector)) <==>
            forall e, v :: IsEntry(rs, e) && v in proxy + elector ==> VariableName(rs, e) != v.name
  {
    var appended := proxy + elector;
    DistinctConcat(proxy, elector);
    DistinctConcat(vars, appended);
    if NamesDistinct(vars + appended) {
      forall e, v | IsEntry(rs, e) && v in appended ensures VariableName(rs, e) != v.name {
        EntryIsListed(vars, spec, base, rs, e);
      }
    }
    if forall e, v :: IsEntry(rs, e) && v in appended ==> VariableName(rs, e) != v.name {
      forall u, v | u in vars && v in appended ensures u.name != v.name {
        if u !in base {
          var e := EntryOf(vars, spec, base, rs, u);
        }
      }
    }
  }

  /** With the proxy variables alone. */
  lemma ProxyNames(vars: seq<EnvVar>, spec: Spec, request: Request, redisEnabled: bool, rs: seq<NaisResource>,
                   parse: string -> ProxyOptions.ParsedUrl, environ: map<string, string>)
    requires Lists(vars, spec, BaseVariables(spec, request, redisEnabled), rs) && NamesDistinct(vars)
    requires ProxyVariables(parse, environ).Success?
    ensures var proxy := ProxyVariables(parse, environ).value;
            NamesDistinct(vars + proxy) <==>
                forall e, v :: IsEntry(rs, e) && v in proxy ==> VariableName(rs, e) != v.name
  {
    var proxy, base := ProxyVariables(parse, environ).value, BaseVariables(spec, request, redisEnabled);
    ProxyVariableNames(parse, environ);
    BaseIsBaseLike(spec, request, redisEnabled);
    LikesDiffer(base, proxy);
    AppendedNames(vars, spec, base, rs, proxy, []);
    assert proxy + [] == proxy;
  }

  lemma DistinctConcat(vars: seq<EnvVar>, more: seq<EnvVar>)
    requires NamesDistinct(vars) && NamesDistinct(more)
    ensures NamesDistinct(vars + more) <==> forall u, v :: u in vars && v in more ==> u.name != v.name
  {
    var all := vars + more;
    if NamesDistinct(all) {
      forall u, v | u in vars && v in more ensures u.name != v.name {
        var i :| 0 <= i < |vars| && vars[i] == u;
        var j :| 0 <= j < |more| && more[j] == v;
        assert all[i] == u && all[|vars| + j] == v;
      }
    }
  }

  predicate Begins(name: string, first: char, second: char) {
    |name| > 1 && name[0] == first && name[1] == second
  }

  /** How the names of the proxy variables begin, and those of the variables that are always there. */
  predicate ProxyLike(name: string) {
    Begins(name, 'H', 'T') || Begins(name, 'h', 't') || Begins(name, 'N', 'O') || Begins(name, 'n', 'o') ||
        Begins(name, 'J', 'A')
  }

  predicate BaseLike(name: string) {
    Begins(name, 'A', 'P') || Begins(name, 'F', 'A') || Begins(name, 'N', 'A') || Begins(name, 'R', 'E')
  }

  lemma DualCaseNamed(key: string, value: string, first: char, second: char)
    requires Begins(key, first, second) && 'A' <= first <= 'Z' && 'A' <= second <= 'Z'
    ensures NamesDistinct(DualCase(key, value))
    ensures forall v :: v in DualCase(key, value) ==>
              |v.name| == |key| &&
              (Begins(v.name, first, second) || Begins(v.name, LowerChar(first), LowerChar(second)))
  {
    assert ToUpper(key)[0] == first && ToLower(key)[0] == LowerChar(first) != first;
  }

  /** The variables for the two addresses of the proxy differ in length. */
  lemma AddressNames(url: string)
    ensures NamesDistinct(AddressTexts(url))
    ensures forall v :: v in AddressTexts(url) ==> Begins(v.name, 'H', 'T') || Begins(v.name, 'h', 't')
  {
    DualCaseNamed("HTTP_PROXY", url, 'H', 'T');
    DualCaseNamed("HTTPS_PROXY", url, 'H', 'T');
    DistinctConcat(DualCase("HTTP_PROXY", url), DualCase("HTTPS_PROXY", url));
  }

  lemma ExceptionNames(noProxy: string)
    ensures NamesDistinct(ExceptionTexts(noProxy))
    ensures forall v :: v in ExceptionTexts(noProxy) ==> Begins(v.name, 'N', 'O') || Begins(v.name, 'n', 'o')
  {
    DualCaseNamed("NO_PROXY", noProxy, 'N', 'O');
  }

  lemma JavaNames(javaOptions: string)
    ensures NamesDistinct(JavaTexts(javaOptions)) && forall v :: v in JavaTexts(javaOptions) ==>
            Begins(v.name, 'J', 'A')
  {
  }

  lemma ProxyNamesKnown(url: string, noProxy: string, javaOptions: string)
    ensures NamesDistinct(ProxyTexts(url, noProxy, javaOptions))
    ensures forall v :: v in ProxyTexts(url, noProxy, javaOptions) ==> ProxyLike(v.name)
  {
    AddressNames(url);
    ExceptionNames(noProxy);
    JavaNames(javaOptions);
    ThreeParts(AddressTexts(url), ExceptionTexts(noProxy), JavaTexts(javaOptions));
  }

  lemma ThreeParts(http: seq<EnvVar>, no: seq<EnvVar>, java: seq<EnvVar>)
    requires NamesDistinct(http) && forall v :: v in http ==> Begins(v.name, 'H', 'T') || Begins(v.name, 'h', 't')
    requires NamesDistinct(no) && forall v :: v in no ==> Begins(v.name, 'N', 'O') || Begins(v.name, 'n', 'o')
    requires NamesDistinct(java) && forall v :: v in java ==> Begins(v.name, 'J', 'A')
    ensures NamesDistinct(http + no + java) && forall v :: v in http + no + java ==> ProxyLike(v.name)
  {
    DistinctConcat(http, no);
    DistinctConcat(http + no, java);
  }

  lemma LikesDiffer(base: seq<EnvVar>, proxy: seq<EnvVar>)
    requires forall u :: u in base ==> BaseLike(u.name)
    requires forall v :: v in proxy ==> ProxyLike(v.name)
    ensures forall u, v :: u in base && v in proxy ==> u.name != v.name
  {
  }

  lemma BaseIsBaseLike(spec: Spec, request: Request, redisEnabled: bool)
    ensures forall v :: v in BaseVariables(spec, request, redisEnabled) ==> BaseLike(v.name)
  {
    var base := BaseVariables(spec, request, redisEnabled);
    forall i | 0 <= i < |base| ensures BaseLike(base[i].name) {
    }
  }
}
