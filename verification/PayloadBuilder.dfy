/** Flattening the linked tree into a payload. Go maps are walked in an arbitrary order. */
module PayloadBuilder {
  import opened Options
  import opened Kube
  import opened Sorting
  import opened Tree
  import opened TreeObjects
  import opened Payload
  import Api = AlbApi

  ghost predicate KeyDecides<K(!new), V(!new)>(keys: set<K>, f: K -> V, lessK: (K, K) -> bool, lessV: (V, V) -> bool) {
    forall a, b | a in keys && b in keys :: lessV(f(a), f(b)) <==> lessK(a, b)
  }

  ghost function Image<K, V>(keys: set<K>, f: K -> V): set<V> {
    set k | k in keys :: f(k)
  }

  lemma SameElements<K>(order: seq<K>, keys: set<K>)
    requires multiset(order) == multiset(keys)
    ensures Within(order, keys)
  {
    forall i | 0 <= i < |order| ensures order[i] in keys { assert order[i] in multiset(order); }
  }

  lemma MapWithin<K, V>(order: seq<K>, keys: set<K>, f: K -> V, sorted: seq<V>)
    requires Within(order, keys) && multiset(sorted) == multiset(Map(f, order))
    ensures Within(sorted, Image(keys, f))
  {
    var mapped := Map(f, order);
    forall i | 0 <= i < |sorted| ensures sorted[i] in Image(keys, f) {
      assert sorted[i] in multiset(mapped);
      var k :| 0 <= k < |mapped| && mapped[k] == sorted[i];
      assert order[k] in keys;
    }
  }

  lemma MapSorted<K(!new), V(!new)>(ks: seq<K>, keys: set<K>, f: K -> V, lessK: (K, K) -> bool, lessV: (V, V) -> bool)
    requires KeyDecides(keys, f, lessK, lessV) && Within(ks, keys) && Sorted(lessK, ks)
    ensures Sorted(lessV, Map(f, ks))
  {
  }

  lemma ImageUntied<K(!new), V(!new)>(keys: set<K>, f: K -> V, lessK: (K, K) -> bool, lessV: (V, V) -> bool)
    requires KeyDecides(keys, f, lessK, lessV) && TotalOrder(lessK)
    ensures NoTies(lessV, Image(keys, f)) && WeakOrder(lessK, Elems(multiset(keys)))
  {
    forall x, y | x in Image(keys, f) && y in Image(keys, f) && x != y ensures lessV(x, y) || lessV(y, x) {
      var a :| a in keys && f(a) == x;
      var b :| b in keys && f(b) == y;
    }
  }

  /** Sorting values by a key that determines them gives the canonical order of the keys. */
  lemma SortedByKey<K(!new), V(!new)>(keys: set<K>, order: seq<K>, f: K -> V, lessK: (K, K) -> bool,
                                      lessV: (V, V) -> bool, sorted: seq<V>)
    requires TotalOrder(lessK) && multiset(order) == multiset(keys)
    requires multiset(sorted) == multiset(Map(f, order)) && Sorted(lessV, sorted)
    requires KeyDecides(keys, f, lessK, lessV)
    ensures WeakOrder(lessK, Elems(multiset(keys))) && sorted == Map(f, SortOf(multiset(keys), lessK))
  {
    hide TotalOrder, WeakOrder, Sorted, NoTies, Within, Image, KeyDecides;
    ImageUntied(keys, f, lessK, lessV);
    var ks := SortOf(multiset(keys), lessK);
    SameElements(order, keys);
    SameElements(ks, keys);
    MapWithin(order, keys, f, sorted);
    MapSorted(ks, keys, f, lessK, lessV);
    MapPermutes(f, order, ks);
    SortedUnique(lessV, sorted, Map(f, ks), Image(keys, f));
  }

  // ---- walking over the keys of a map ----

  /** `order` lists the members of `all` that are no longer in `todo`. */
  ghost predicate Walked<K>(all: set<K>, todo: set<K>, order: seq<K>) {
    multiset(order) == multiset(all - todo)
  }

  lemma WalkStart<K>(all: set<K>, todo: set<K>)
    requires all <= todo
    ensures Walked(all, todo, [])
  {
  }

  lemma WalkStep<K>(all: set<K>, todo: set<K>, order: seq<K>, k: K)
    requires Walked(all, todo, order) && k in todo && k in all
    ensures Walked(all, todo - {k}, order + [k])
  {
  }

  lemma WalkSkip<K>(all: set<K>, todo: set<K>, order: seq<K>, k: K)
    requires Walked(all, todo, order) && k !in all
    ensures Walked(all, todo - {k}, order)
  {
  }

  lemma WalkEnd<K>(all: set<K>, order: seq<K>)
    requires Walked(all, {}, order)
    ensures multiset(order) == multiset(all) && |order| == |all|
  {
    assert all - {} == all;
    assert |order| == |multiset(order)| == |multiset(all)|;
  }

  lemma MapSnoc<A, B>(f: A -> B, order: seq<A>, k: A)
    ensures Map(f, order + [k]) == Map(f, order) + [f(k)]
  {
  }

  // ---- what the objects hold, in terms of the flat view ----

  lemma ShapeOfListener(g: Shape, t: WorkTree, port: nat)
    requires g.Good(t) && port in g.listeners
    ensures g.hosts[g.listeners[port]].Keys == HostNames(t, port)
  {
    hide Shape.Unshared, Shape.PathAt;
    forall h ensures h in g.hosts[g.listeners[port]] <==> h in HostNames(t, port) { HostIsNamed(g, t, port, h); }
  }

  lemma HostIsNamed(g: Shape, t: WorkTree, port: nat, h: string)
    requires g.Good(t) && port in g.listeners
    ensures h in g.hosts[g.listeners[port]] <==> h in HostNames(t, port)
  {
    hide Shape.Unshared;
    if h in g.hosts[g.listeners[port]] {
      assert g.HasHost(port, h);
      var k :| k in g.paths[g.HostAt(port, h)];
      assert g.Holds(Slot(port, h, k));
    }
    if h in HostNames(t, port) {
      var slot :| slot in t.paths && slot.port == port && slot.host == h;
      assert g.Holds(slot);
    }
  }

  lemma ShapeOfHost(g: Shape, t: WorkTree, port: nat, host: string)
    requires g.Good(t) && g.HasHost(port, host)
    ensures g.paths[g.HostAt(port, host)].Keys == KeysAt(t, port, host)
    ensures forall k | k in g.paths[g.HostAt(port, host)] ::
              g.paths[g.HostAt(port, host)][k] == Payload.PathAt(t, Slot(port, host, k))
  {
    hide Shape.Unshared, Shape.Inhabited;
    var paths := g.paths[g.HostAt(port, host)];
    forall k | k in paths ensures k in KeysAt(t, port, host) && paths[k] == Payload.PathAt(t, Slot(port, host, k)) {
      assert g.Holds(Slot(port, host, k));
      assert Slot(port, host, k) in t.paths;
    }
    forall k | k in KeysAt(t, port, host) ensures k in paths {
      var slot :| slot in t.paths && slot.port == port && slot.host == host && slot.key == k;
      assert g.Holds(slot);
    }
  }

  /** Each stored path carries its own map key. */
  ghost predicate KeysAgree(t: WorkTree) {
    forall slot | slot in t.paths :: t.paths[slot].key == slot.key
  }

  // ---- rules of a host ----

  predicate PathLess(a: TreePath, b: TreePath) { KeyBefore(a.key, b.key) }

  lemma PathLessIsWeak(dom: set<TreePath>)
    ensures WeakOrder(PathLess, dom)
  {
    KeyBeforeTotal();
  }

  method BuildRules(ghost t: WorkTree, ghost port: nat, ghost host: string, hostObject: TreeHost)
      returns (rules: seq<Api.Rule>)
    requires KeysAgree(t)
    requires hostObject.paths.Keys == KeysAt(t, port, host)
    requires forall k | k in hostObject.paths :: hostObject.paths[k] == Payload.PathAt(t, Slot(port, host, k))
    ensures rules == Rules(t, port, host)
  {
    hide KeyBefore, RuleOf, KeysAt, TotalOrder, WeakOrder, Sorted, Walked, SortKeys;
    ghost var keys := hostObject.paths.Keys;
    ghost var at := (k: PathKey) => Payload.PathAt(t, Slot(port, host, k));
    var paths: seq<TreePath> := [];
    ghost var order: seq<PathKey> := [];
    var todo := hostObject.paths.Keys;
    WalkStart(keys, todo);
    while todo != {}
      invariant todo <= keys && Walked(keys, todo, order) && paths == Map(at, order)
      decreases |todo|
    {
      var k :| k in todo;
      paths := paths + [hostObject.paths[k]];
      WalkStep(keys, todo, order, k);
      MapSnoc(at, order, k);
      order := order + [k];
      todo := todo - {k};
    }
    WalkEnd(keys, order);
    assert paths == Map((k: PathKey) => Payload.PathAt(t, Slot(port, host, k)), order);
    var sorted := SortSlice(paths, PathLess);
    PathLessIsWeak(Elems(multiset(paths)));
    PathsInOrder(t, port, host, order, sorted);
    rules := [];
    for i := 0 to |sorted|
      invariant |rules| == i && forall j | 0 <= j < i :: rules[j] == RuleOf(sorted[j])
    {
      rules := rules + [RuleOf(sorted[i])];
    }
    assert rules == Rules(t, port, host);
  }

  lemma PathsInOrder(t: WorkTree, port: nat, host: string, order: seq<PathKey>, sorted: seq<TreePath>)
    requires KeysAgree(t) && multiset(order) == multiset(KeysAt(t, port, host)) && Sorted(PathLess, sorted)
    requires multiset(sorted) == multiset(Map((k: PathKey) => Payload.PathAt(t, Slot(port, host, k)), order))
    ensures sorted == Map((k: PathKey) => Payload.PathAt(t, Slot(port, host, k)), SortKeys(KeysAt(t, port, host)))
  {
    var at := (k: PathKey) => Payload.PathAt(t, Slot(port, host, k));
    var keys := KeysAt(t, port, host);
    KeyBeforeTotal();
    assert Map((k: PathKey) => Payload.PathAt(t, Slot(port, host, k)), order) == Map(at, order);
    forall k ensures at(k).key == k {
      hide KeysAt;
    }
    hide KeyBefore;
    SortedByKey(keys, order, at, KeyBefore, PathLess, sorted);
  }

  // ---- hosts of a listener ----

  predicate HostLess(a: Api.HostConfig, b: Api.HostConfig) { StrLess(a.host.GetOr(""), b.host.GetOr("")) }

  lemma HostsInOrder(t: WorkTree, port: nat, order: seq<string>, sorted: seq<Api.HostConfig>)
    requires multiset(order) == multiset(HostNames(t, port)) && Sorted(HostLess, sorted)
    requires multiset(sorted) == multiset(Map((h: string) => HostOf(t, port, h), order))
    ensures sorted == Hosts(t, port)
  {
    hide Rules, HostNames;
    StrTotal();
    var at := (h: string) => HostOf(t, port, h);
    assert Map((h: string) => HostOf(t, port, h), order) == Map(at, order);
    SortedByKey(HostNames(t, port), order, at, StrLess, HostLess, sorted);
    assert sorted == Map(at, SortStrings(multiset(HostNames(t, port))));
  }

  lemma HostLessIsWeak(dom: set<Api.HostConfig>)
    ensures WeakOrder(HostLess, dom)
  {
    StrTotal();
  }

  method BuildHosts(tree: TreeObject, port: nat) returns (hosts: seq<Api.HostConfig>)
    requires tree.Valid() && KeysAgree(tree.view) && port in tree.listeners
    ensures hosts == Hosts(tree.view, port)
  {
    hide Shape.Good, HostNames, KeysAt, Rules, WeakOrder, Sorted, StrLess, Walked;
    ghost var t, g := tree.view, tree.Snapshot();
    assert g.Closed() by { GoodIsClosed(g, t); }
    var listener := tree.listeners[port];
    assert listener in tree.listenerObjects by { assert g.listeners[port] in g.hosts; }
    ShapeOfListener(g, t, port);
    hosts := [];
    ghost var order: seq<string> := [];
    ghost var names := HostNames(t, port);
    ghost var at := (h: string) => HostOf(t, port, h);
    var todo := listener.hosts.Keys;
    WalkStart(names, todo);
    while todo != {}
      invariant todo <= names && Walked(names, todo, order) && hosts == Map(at, order)
      decreases |todo|
    {
      var h :| h in todo;
      assert g.HasHost(port, h) && g.HostAt(port, h) == listener.hosts[h];
      ShapeOfHost(g, t, port, h);
      var rules := BuildRules(t, port, h, listener.hosts[h]);
      hosts := hosts + [Api.HostConfig(Some(h), rules)];
      WalkStep(names, todo, order, h);
      MapSnoc(at, order, h);
      order := order + [h];
      todo := todo - {h};
    }
    WalkEnd(names, order);
    assert hosts == Map((h: string) => HostOf(t, port, h), order);
    HostLessIsWeak(Elems(multiset(hosts)));
    hosts := SortSlice(hosts, HostLess);
    HostsInOrder(t, port, order, hosts);
  }

  lemma GoodIsClosed(g: Shape, t: WorkTree)
    requires g.Good(t)
    ensures g.Closed() && t.protocols.Keys == g.listeners.Keys
    ensures forall p | p in g.listeners :: t.protocols[p] == g.listeners[p].protocol
  {
  }

  // ---- certificate ids of a listener ----

  method BuildCertificateIds(tree: TreeObject, ids: map<string, string>, port: nat)
      returns (certificateIds: seq<string>)
    requires tree.Valid()
    ensures certificateIds == CertificateIds(tree.view, ids, port)
    ensures certificateIds == [] <==> FingerprintsFor(tree.view, ids, port) == {}
  {
    hide Shape.Good, Walked, SortStrings;
    ghost var wanted := FingerprintsFor(tree.view, ids, port);
    certificateIds := [];
    ghost var order: seq<string> := [];
    ghost var at := (f: string) => IdOf(ids, f);
    var todo := tree.certificates.Keys;
    WalkStart(wanted, todo);
    while todo != {}
      invariant todo <= tree.certificates.Keys && Walked(wanted, todo, order) && certificateIds == Map(at, order)
      decreases |todo|
    {
      var f :| f in todo;
      if port in tree.certificates[f].ports && f in ids {
        certificateIds := certificateIds + [ids[f]];
        WalkStep(wanted, todo, order, f);
        MapSnoc(at, order, f);
        order := order + [f];
      } else {
        WalkSkip(wanted, todo, order, f);
      }
      todo := todo - {f};
    }
    WalkEnd(wanted, order);
    assert certificateIds == Map((f: string) => IdOf(ids, f), order);
    certificateIds := SortIds(ids, order, wanted, certificateIds);
  }

  method SortIds(ids: map<string, string>, ghost order: seq<string>, ghost wanted: set<string>, unsorted: seq<string>)
    returns (sorted: seq<string>)
    requires multiset(order) == multiset(wanted) && unsorted == Map((f: string) => IdOf(ids, f), order)
    ensures sorted == SortStrings(multiset(Map((f: string) => IdOf(ids, f), SortStrings(multiset(wanted)))))
    ensures |sorted| == |order|
  {
    hide StrLess;
    StrTotal();
    ghost var at := (f: string) => IdOf(ids, f);
    ghost var canonical := SortStrings(multiset(wanted));
    MapPermutes(at, order, canonical);
    assert Map((f: string) => IdOf(ids, f), order) == Map(at, order);
    assert Map((f: string) => IdOf(ids, f), canonical) == Map(at, canonical);
    sorted := SortSlice(unsorted, StrLess);
    SortOfUnique(sorted, multiset(Map(at, canonical)), StrLess);
    assert |sorted| == |multiset(sorted)| == |multiset(unsorted)| == |unsorted|;
  }

  // ---- listeners ----

  predicate ListenerLess(a: Api.Listener, b: Api.Listener) { a.port.GetOr(0) < b.port.GetOr(0) }

  lemma ListenersInOrder(cls: IngressClass, t: WorkTree, ids: map<string, string>, order: seq<nat>,
                         sorted: seq<Api.Listener>)
    requires multiset(order) == multiset(PortsOf(t, ids)) && Sorted(ListenerLess, sorted)
    requires multiset(sorted) == multiset(Map((p: nat) => ListenerOf(cls, t, ids, p), order))
    ensures sorted == LiveListeners(cls, t, ids)
  {
    hide PortsOf, Hosts, CertificateIds, Names.Decimal;
    var at := (p: nat) => ListenerOf(cls, t, ids, p);
    assert Map((p: nat) => ListenerOf(cls, t, ids, p), order) == Map(at, order);
    SortedByKey(PortsOf(t, ids), order, at, PortBefore, ListenerLess, sorted);
    assert sorted == Map(at, SortPorts(PortsOf(t, ids)));
  }

  method BuildListener(cls: IngressClass, tree: TreeObject, ids: map<string, string>, port: nat)
      returns (listener: Option<Api.Listener>)
    requires tree.Valid() && KeysAgree(tree.view) && port in tree.listeners
    ensures listener.Some? <==> port in PortsOf(tree.view, ids)
    ensures listener.Some? ==> listener.value == ListenerOf(cls, tree.view, ids, port)
  {
    hide Shape.Good, FingerprintsFor, Hosts, CertificateIds, Names.Decimal;
    GoodIsClosed(tree.Snapshot(), tree.view);
    var hosts := BuildHosts(tree, port);
    var protocol, certificateIds := tree.listeners[port].protocol, [];
    if protocol == Api.HTTPS {
      certificateIds := BuildCertificateIds(tree, ids, port);
      // The API does not allow an HTTPS port without a certificate, so the port is dropped.
      if certificateIds == [] { return None; }
    }
    return Some(MakeListener(cls, port, protocol, hosts, certificateIds));
  }

  method BuildListeners(cls: IngressClass, tree: TreeObject, ids: map<string, string>)
      returns (listeners: seq<Api.Listener>)
    requires tree.Valid() && KeysAgree(tree.view)
    ensures listeners == LiveListeners(cls, tree.view, ids)
  {
    hide Shape.Good, PortsOf, ListenerOf, KeysAgree, WeakOrder, Sorted, Walked, LiveListeners;
    ghost var t := tree.view;
    GoodIsClosed(tree.Snapshot(), t);
    ghost var ports := PortsOf(t, ids);
    LivePortsAreListeners(t, ids);
    listeners := [];
    ghost var order: seq<nat> := [];
    ghost var at := (p: nat) => ListenerOf(cls, t, ids, p);
    var todo := tree.listeners.Keys;
    WalkStart(ports, todo);
    while todo != {}
      invariant todo <= tree.listeners.Keys && Walked(ports, todo, order) && listeners == Map(at, order)
      decreases |todo|
    {
      var port :| port in todo;
      var listener := BuildListener(cls, tree, ids, port);
      if listener.Some? {
        listeners := listeners + [listener.value];
        WalkStep(ports, todo, order, port);
        MapSnoc(at, order, port);
        order := order + [port];
      } else {
        WalkSkip(ports, todo, order, port);
      }
      todo := todo - {port};
    }
    WalkEnd(ports, order);
    assert listeners == Map((p: nat) => ListenerOf(cls, t, ids, p), order);
    ListenerLessIsWeak(Elems(multiset(listeners)));
    listeners := SortSlice(listeners, ListenerLess);
    ListenersInOrder(cls, t, ids, order, listeners);
  }

  lemma ListenerLessIsWeak(dom: set<Api.Listener>)
    ensures WeakOrder(ListenerLess, dom)
  {
  }

  lemma LivePortsAreListeners(t: WorkTree, ids: map<string, string>)
    ensures PortsOf(t, ids) <= t.protocols.Keys
  {
  }

  // ---- the whole payload ----

  method BuildPools(tree: TreeObject) returns (pools: seq<Api.TargetPool>)
    requires tree.Valid()
    ensures ArePools(tree.view, pools)
  {
    hide Shape.Good, StrLess, Walked;
    ghost var t := tree.view;
    pools := [];
    ghost var order: seq<PathRef> := [];
    ghost var at := (r: PathRef) => PoolAt(t, r);
    var todo := tree.targetPools.Keys;
    WalkStart(t.pools.Keys, todo);
    while todo != {}
      invariant todo <= t.pools.Keys && Walked(t.pools.Keys, todo, order) && pools == Map(at, order)
      decreases |todo|
    {
      var ref :| ref in todo;
      pools := pools + [tree.targetPools[ref]];
      WalkStep(t.pools.Keys, todo, order, ref);
      MapSnoc(at, order, ref);
      order := order + [ref];
      todo := todo - {ref};
    }
    WalkEnd(t.pools.Keys, order);
    assert pools == Map((r: PathRef) => PoolAt(t, r), order);
    StrTotal();
    pools := SortSlice(pools, PoolBefore);
    assert ArePoolsVia(t, pools, order);
  }

  method ToCreatePayload(f: Frame, tree: TreeObject, ids: map<string, string>) returns (p: Api.Payload)
    requires tree.Valid() && KeysAgree(tree.view)
    ensures IsCreatePayload(f, tree.view, ids, p)
  {
    hide Shape.Good, LiveListeners, ArePools, KeysAgree;
    var listeners := BuildListeners(f.class_, tree, ids);
    var pools := BuildPools(tree);
    p := Assemble(f, OrDummy(listeners), pools);
  }

  method ToUpdatePayload(f: Frame, tree: TreeObject, ids: map<string, string>, existing: Api.LoadBalancer)
      returns (p: Api.Payload)
    requires tree.Valid() && KeysAgree(tree.view)
    ensures IsUpdatePayload(f, tree.view, ids, existing, p)
  {
    hide Shape.Good, LiveListeners, ArePools, KeysAgree;
    var create := ToCreatePayload(f, tree, ids);
    p := Revise(create, existing);
  }
}
