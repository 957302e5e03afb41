/** How far two Deployments may differ that are made from the same request, manifest and resources. */
module Reordering {

  import opened Wrappers
  import opened App
  import opened NaisResources
  import opened Walks
  import opened Environment
  import opened Secrets
  import opened Manifests
  import opened PodSpecs

  predicate SameMembers<T(==)>(xs: seq<T>, ys: seq<T>) {
    |xs| == |ys| && (forall x :: x in xs ==> x in ys) && (forall y :: y in ys ==> y in xs)
  }

  /** The variables of the entries change places among themselves; those before and behind stay. */
  ghost predicate EnvReordered(env: seq<EnvVar>, env': seq<EnvVar>, base: seq<EnvVar>, appended: seq<EnvVar>) {
    exists vars, vars' ::
      env == base + vars + appended && env' == base + vars' + appended && SameMembers(vars, vars')
  }

  /** Equal but for the order of the items. */
  predicate VolumeReordered(v: Volume, v': Volume) {
    || v == v'
    || (v.name == v'.name && v.source.SecretVolume? && v'.source.SecretVolume? &&
        v.source.secretName == v'.source.secretName && SameMembers(v.source.items, v'.source.items))
  }

  ghost predicate PodReordered(pod: PodSpec, pod': PodSpec, base: seq<EnvVar>, appended: seq<EnvVar>) {
    && |pod.containers| == |pod'.containers| > 0 && pod.containers[1..] == pod'.containers[1..]
    && pod'.containers[0] == pod.containers[0].(env := pod'.containers[0].env)
    && EnvReordered(pod.containers[0].env, pod'.containers[0].env, base, appended)
    && pod.initContainers == pod'.initContainers && pod.serviceAccountName == pod'.serviceAccountName
    && |pod.volumes| == |pod'.volumes|
    && forall i :: 0 <= i < |pod.volumes| ==> VolumeReordered(pod.volumes[i], pod'.volumes[i])
  }

  /** Nothing differs but the order of the entries' variables and of the items of the certificate volume. */
  ghost predicate OnlyReordered(d: DeploymentSpec, d': DeploymentSpec, base: seq<EnvVar>, appended: seq<EnvVar>) {
    d' == d.(pod := d'.pod) && PodReordered(d.pod, d'.pod, base, appended)
  }

  lemma VariablesReordered(spec: Spec, rs: seq<NaisResource>, o: seq<Entry>, o': seq<Entry>)
    requires Ascends(o) && Ascends(o') && (forall e :: e in o <==> e in o') && forall e :: e in o ==> IsEntry(rs, e)
    ensures SameMembers(Variables(spec, rs, o), Variables(spec, rs, o'))
  {
    SameMembersSameLength(o, o');
    VariablesCovered(spec, rs, o, o');
    VariablesCovered(spec, rs, o', o);
  }

  lemma VariablesCovered(spec: Spec, rs: seq<NaisResource>, o: seq<Entry>, o': seq<Entry>)
    requires (forall e :: e in o ==> e in o') && forall e :: e in o' ==> IsEntry(rs, e)
    ensures forall v :: v in Variables(spec, rs, o) ==> v in Variables(spec, rs, o')
  {
    var vars, vars' := Variables(spec, rs, o), Variables(spec, rs, o');
    forall v | v in vars ensures v in vars' {
      var i :| 0 <= i < |vars| && vars[i] == v;
      assert o[i] in o';
      var j :| 0 <= j < |o'| && o'[j] == o[i];
      assert vars'[j] == v;
    }
  }

  lemma ItemsReordered(rs: seq<NaisResource>, o: seq<Entry>, o': seq<Entry>)
    requires Ascends(o) && Ascends(o') && (forall e :: e in o <==> e in o') && forall e :: e in o ==> IsEntry(rs, e)
    ensures SameMembers(Items(rs, o), Items(rs, o'))
  {
    SameMembersSameLength(o, o');
    ItemsCovered(rs, o, o');
    ItemsCovered(rs, o', o);
  }

  lemma ItemsCovered(rs: seq<NaisResource>, o: seq<Entry>, o': seq<Entry>)
    requires (forall e :: e in o ==> e in o') && forall e :: e in o' ==> IsEntry(rs, e)
    ensures forall v :: v in Items(rs, o) ==> v in Items(rs, o')
  {
    var items, items' := Items(rs, o), Items(rs, o');
    forall v | v in items ensures v in items' {
      var i :| 0 <= i < |items| && items[i] == v;
      assert o[i] in o';
      var j :| 0 <= j < |o'| && o'[j] == o[i];
      assert items'[j] == v;
    }
  }

  lemma PlainPodsReordered(spec: Spec, request: Request, m: Manifest, env: seq<EnvVar>, env': seq<EnvVar>,
                           volume: Option<Volume>, volume': Option<Volume>, base: seq<EnvVar>, appended: seq<EnvVar>)
    requires EnvReordered(env, env', base, appended) && (volume.Some? <==> volume'.Some?)
    requires volume.Some? ==> volume.value.name == volume'.value.name && VolumeReordered(volume.value, volume'.value)
    ensures PodReordered(PlainPod(spec, request, m, env, volume), PlainPod(spec, request, m, env', volume'), base,
            appended)
  {
  }

  lemma VaultedPodsReordered(spec: Spec, m: Manifest, vault: VaultSettings, pod: PodSpec, pod': PodSpec,
                             base: seq<EnvVar>, appended: seq<EnvVar>)
    requires PodReordered(pod, pod', base, appended)
    ensures PodReordered(VaultedPod(spec, m, vault, pod), VaultedPod(spec, m, vault, pod'), base, appended)
  {
    if UsesVault(m, vault) {
      var after, after' := VaultedPod(spec, m, vault, pod), VaultedPod(spec, m, vault, pod');
      forall i | 1 <= i < |after.containers| ensures after.containers[i] == after'.containers[i] {
        if i < |pod.containers| {
          assert pod.containers[i] == pod.containers[1..][i - 1] && pod'.containers[i] == pod'.containers[1..][i - 1];
        }
      }
    }
  }

  /** Whatever two deploys of the same request make of it, nothing differs but the order of their walks. */
  lemma WantedOnlyReordered(d: DeploymentSpec, d': DeploymentSpec, spec: Spec, request: Request, m: Manifest,
                            rs: seq<NaisResource>, settings: Settings)
    requires Wanted(d, spec, request, m, rs, settings) && Wanted(d', spec, request, m, rs, settings)
    ensures OnlyReordered(d, d', BaseVariables(spec, request, m.redis.enabled), Appended(m, settings))
  {
    var o :| Walked(o, rs) && d.pod == Pod(spec, request, m, rs, settings, o);
    var o' :| Walked(o', rs) && d'.pod == Pod(spec, request, m, rs, settings, o');
    PodsOnlyReordered(spec, request, m, rs, settings, o, o');
  }

  lemma PodsOnlyReordered(spec: Spec, request: Request, m: Manifest, rs: seq<NaisResource>, settings: Settings,
                          o: Orders, o': Orders)
    requires ProxyUsable(m, settings) && Walked(o, rs) && Walked(o', rs)
    ensures PodReordered(Pod(spec, request, m, rs, settings, o), Pod(spec, request, m, rs, settings, o'),
                         BaseVariables(spec, request, m.redis.enabled), Appended(m, settings))
  {
    var base, appended := BaseVariables(spec, request, m.redis.enabled), Appended(m, settings);
    VariablesReordered(spec, rs, o.entries, o'.entries);
    ItemsReordered(rs, o.certificates, o'.certificates);
    var env, env' := MainVariables(spec, request, m, rs, settings, o.entries),
                     MainVariables(spec, request, m, rs, settings, o'.entries);
    assert EnvReordered(env, env', base, appended);
    var volume := if HasCertificate(rs) then Some(CertificateVolume(spec, rs, o.certificates)) else None;
    var volume' := if HasCertificate(rs) then Some(CertificateVolume(spec, rs, o'.certificates)) else None;
    PlainPodsReordered(spec, request, m, env, env', volume, volume', base, appended);
    VaultedPodsReordered(spec, m, settings.vault, PlainPod(spec, request, m, env, volume),
                         PlainPod(spec, request, m, env', volume'), base, appended);
  }

  // ---- When there is only one ----

  lemma SingleEntriesOnePod(d: DeploymentSpec, d': DeploymentSpec, spec: Spec, request: Request, m: Manifest,
                            rs: seq<NaisResource>, settings: Settings)
    requires Wanted(d, spec, request, m, rs, settings) && Wanted(d', spec, request, m, rs, settings)
    requires SingleEntries(rs, ALL_KINDS)
    ensures d == d'
  {
    var o :| Walked(o, rs) && d.pod == Pod(spec, request, m, rs, settings, o);
    var o' :| Walked(o', rs) && d'.pod == Pod(spec, request, m, rs, settings, o');
    SingleEntriesOneWalk(rs, ALL_KINDS, o.entries, o'.entries);
    SingleEntriesOneWalk(rs, CERTIFICATES, o.certificates, o'.certificates);
  }

  /** From the variables of a pod the walk can be told, because their names are distinct. */
  lemma EnvTellsWalk(base: seq<EnvVar>, appended: seq<EnvVar>, spec: Spec, rs: seq<NaisResource>, o: seq<Entry>,
                     o': seq<Entry>)
    requires EntriesDistinct(base, rs) && Enumerates(o, rs) && Enumerates(o', rs) && |o| == |o'|
    ensures base + Variables(spec, rs, o) + appended == base + Variables(spec, rs, o') + appended ==> o == o'
  {
    var env, env' := base + Variables(spec, rs, o) + appended, base + Variables(spec, rs, o') + appended;
    if env == env' {
      forall i | 0 <= i < |o| ensures o[i] == o'[i] {
        assert env[|base| + i] == Variable(spec, rs, o[i]) && env'[|base| + i] == Variable(spec, rs, o'[i]);
        assert o[i] in o && o'[i] in o';
      }
    }
  }

  lemma WalksMakeDifferentPods(spec: Spec, request: Request, m: Manifest, rs: seq<NaisResource>, settings: Settings,
                               o: Orders, o': Orders)
    requires NamesClear(spec, request, m, rs) && ProxyUsable(m, settings) && Walked(o, rs) && Walked(o', rs)
    requires |o.entries| == |o'.entries| && o.entries != o'.entries
    ensures Pod(spec, request, m, rs, settings, o) != Pod(spec, request, m, rs, settings, o')
  {
    OrdersShow(spec, request, m, rs, settings, o);
    OrdersShow(spec, request, m, rs, settings, o');
    EnvTellsWalk(BaseVariables(spec, request, m.redis.enabled), Appended(m, settings), spec, rs, o.entries, o'.entries);
  }

  lemma WantedFor(spec: Spec, request: Request, m: Manifest, rs: seq<NaisResource>, settings: Settings, o: Orders)
    returns (d: DeploymentSpec)
    requires ProxyUsable(m, settings) && Walked(o, rs)
    ensures Wanted(d, spec, request, m, rs, settings) && d.pod == Pod(spec, request, m, rs, settings, o)
  {
    d := SpecAround(Pod(spec, request, m, rs, settings, o), spec, m, settings);
  }

  lemma OtherPod(d: DeploymentSpec, spec: Spec, request: Request, m: Manifest, rs: seq<NaisResource>,
                 settings: Settings)
    returns (d': DeploymentSpec)
    requires NamesClear(spec, request, m, rs) && Wanted(d, spec, request, m, rs, settings)
    requires !SingleEntries(rs, ALL_KINDS)
    ensures Wanted(d', spec, request, m, rs, settings) && d' != d
  {
    var o :| Walked(o, rs) && d.pod == Pod(spec, request, m, rs, settings, o);
    var order := SecondWalk(rs, ALL_KINDS, o.entries);
    var o' := Orders(order, o.certificates);
    d' := WantedFor(spec, request, m, rs, settings, o');
    WalksMakeDifferentPods(spec, request, m, rs, settings, o, o');
  }

  lemma OrdersShow(spec: Spec, request: Request, m: Manifest, rs: seq<NaisResource>, settings: Settings, orders: Orders)
    requires ProxyUsable(m, settings) && Walked(orders, rs)
    ensures var pod := Pod(spec, request, m, rs, settings, orders);
            |pod.containers| > 0 &&
                pod.containers[0].env == MainVariables(spec, request, m, rs, settings, orders.entries)
  {
    var env := MainVariables(spec, request, m, rs, settings, orders.entries);
    var volume := if HasCertificate(rs) then Some(CertificateVolume(spec, rs, orders.certificates)) else None;
    assert Pod(spec, request, m, rs, settings, orders) ==
           VaultedPod(spec, m, settings.vault, PlainPod(spec, request, m, env, volume));
  }

  /** All deploys of a request make the same Deployment exactly when no map of any resource has two entries. */
  lemma DeploymentsAgreeExactly(spec: Spec, request: Request, m: Manifest, rs: seq<NaisResource>, settings: Settings)
    requires PodPossible(spec, request, m, rs, settings)
    ensures (forall d, d' ::
               Wanted(d, spec, request, m, rs, settings) && Wanted(d', spec, request, m, rs, settings) ==> d == d')
       <==> SingleEntries(rs, ALL_KINDS)
  {
    if SingleEntries(rs, ALL_KINDS) {
      forall d, d' | Wanted(d, spec, request, m, rs, settings) &&
          Wanted(d', spec, request, m, rs, settings) ensures d == d' {
        SingleEntriesOnePod(d, d', spec, request, m, rs, settings);
      }
    } else {
      var r := WorkedOutExists(spec, request, m, rs, settings);
      var d' := OtherPod(r.value, spec, request, m, rs, settings);
    }
  }
}
