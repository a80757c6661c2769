/** What every payload guarantees: it is well formed, it is canonical, and it contains what was admitted. */
module PayloadProperties {
  import opened Options
  import opened Kube
  import opened Names
  import opened Sorting
  import opened Tree
  import opened Configuration
  import opened TreeProperties
  import opened Precedence
  import opened Compiler
  import opened Targets
  import opened Payload
  import Api = AlbApi

  // ---- positions in the sorted lists ----

  lemma PortsSorted(t: WorkTree, ids: map<string, string>)
    ensures var ps := SortPorts(PortsOf(t, ids));
      && (forall x :: x in ps <==> x in PortsOf(t, ids))
      && (forall i, j | 0 <= i < j < |ps| :: ps[i] < ps[j])
  {
    SortOfSet(PortsOf(t, ids), PortBefore);
  }

  lemma PortIndex(t: WorkTree, ids: map<string, string>, port: nat) returns (i: nat)
    requires port in PortsOf(t, ids)
    ensures i < |SortPorts(PortsOf(t, ids))| && SortPorts(PortsOf(t, ids))[i] == port
  {
    PortsSorted(t, ids);
    i :| 0 <= i < |SortPorts(PortsOf(t, ids))| && SortPorts(PortsOf(t, ids))[i] == port;
  }

  lemma SameMembers<T>(s: seq<T>, t: set<T>)
    requires multiset(s) == multiset(t)
    ensures forall x :: x in s <==> x in t
  {
    forall x ensures x in s <==> x in t { assert x in s <==> x in multiset(s); }
  }

  /** The ids of a listener are exactly the ids of the certificates registered for its port. */
  lemma IdsOfListener(t: WorkTree, ids: map<string, string>, port: nat)
    ensures var certs := CertificateIds(t, ids, port);
      && (forall f | f in FingerprintsFor(t, ids, port) :: ids[f] in certs)
      && (forall id | id in certs :: exists f :: f in FingerprintsFor(t, ids, port) && ids[f] == id)
      && |certs| == |FingerprintsFor(t, ids, port)|
  {
    hide FingerprintsFor, SortStrings;
    var fs := FingerprintsFor(t, ids, port);
    var order := SortStrings(multiset(fs));
    var mapped := Map((f: string) => IdOf(ids, f), order);
    var certs := CertificateIds(t, ids, port);
    SameMembers(order, fs);
    FingerprintsKnown(t, ids, port);
    assert multiset(certs) == multiset(mapped);
    forall f | f in fs ensures ids[f] in certs {
      var i :| 0 <= i < |order| && order[i] == f;
      assert mapped[i] in multiset(mapped);
    }
    forall id | id in certs ensures exists f :: f in fs && ids[f] == id {
      assert id in multiset(mapped);
      var i :| 0 <= i < |mapped| && mapped[i] == id;
      assert order[i] in fs && ids[order[i]] == id;
    }
    assert |certs| == |multiset(certs)| == |multiset(mapped)| == |mapped|;
    assert |order| == |multiset(order)| == |multiset(fs)| == |fs|;
  }

  lemma FingerprintsKnown(t: WorkTree, ids: map<string, string>, port: nat)
    ensures forall f | f in FingerprintsFor(t, ids, port) :: f in ids && f in t.certificates
  {
  }

  // ---- certificates ----

  /** The ids the load balancer may keep: those of certificates that the tree uses. */
  function KeptIds(t: WorkTree, ids: map<string, string>): set<string> {
    set f | f in t.certificates && f in ids :: ids[f]
  }

  /** A payload never refers to a certificate that is not in the tree. This is what protects the kept
      certificates when the duplicates and the unused ones are deleted. */
  lemma PayloadRefersToKeptCertificates(cls: IngressClass, t: WorkTree, ids: map<string, string>)
    ensures Api.ReferencedCertificates(OrDummy(LiveListeners(cls, t, ids))) <= KeptIds(t, ids)
  {
    var ps := SortPorts(PortsOf(t, ids));
    var ls := LiveListeners(cls, t, ids);
    forall id | id in Api.ReferencedCertificates(OrDummy(ls)) ensures id in KeptIds(t, ids) {
      hide CertificateIds, Hosts, FingerprintsFor;
      var i, k :| 0 <= i < |OrDummy(ls)| && 0 <= k < |Api.ListenerCertificateIds(OrDummy(ls)[i])|
        && Api.ListenerCertificateIds(OrDummy(ls)[i])[k] == id;
      assert id in CertificateIds(t, ids, ps[i]);
      IdsOfListener(t, ids, ps[i]);
      FingerprintsKnown(t, ids, ps[i]);
    }
  }

  // ---- well-formedness ----

  ghost predicate ListenerWellFormed(t: WorkTree, ids: map<string, string>, l: Api.Listener) {
    && l.port.Some? && PortOk(l.port.value)
    && l.protocol.Some? && l.http.Some?
    && (l.protocol.value == Api.HTTPS ==> Api.ListenerCertificateIds(l) != [])
    && (l.protocol.value == Api.HTTP ==> l.https.None?)
    && (forall id | id in Api.ListenerCertificateIds(l) ::
          exists f :: f in t.certificates && l.port.value in t.certificates[f].ports && f in ids && ids[f] == id)
  }

  lemma ListenerIsWellFormed(cls: IngressClass, t: WorkTree, ids: map<string, string>, port: nat)
    requires PathsInv(t) && port in PortsOf(t, ids)
    ensures ListenerWellFormed(t, ids, ListenerOf(cls, t, ids, port))
  {
    hide CertificateIds, Hosts, Decimal;
    IdsOfListener(t, ids, port);
    var slot :| slot in t.paths && slot.port == port;
    if t.protocols[port] == Api.HTTPS {
      assert |FingerprintsFor(t, ids, port)| > 0;
    }
  }

  /** Listeners: at least one, ports in range and strictly increasing, certificates where there must be some. */
  lemma ListenersAreWellFormed(cls: IngressClass, t: WorkTree, ids: map<string, string>)
    requires PathsInv(t)
    ensures var ls := OrDummy(LiveListeners(cls, t, ids));
      && ls != []
      && (forall i | 0 <= i < |ls| :: ListenerWellFormed(t, ids, ls[i]))
      && (forall i, j | 0 <= i < j < |ls| :: ls[i].port.value < ls[j].port.value)
  {
    hide ListenerOf, PathsInv, SortPorts, PortsOf;
    var ps := SortPorts(PortsOf(t, ids));
    PortsSorted(t, ids);
    var live := LiveListeners(cls, t, ids);
    forall i | 0 <= i < |live| ensures ListenerWellFormed(t, ids, live[i]) && live[i].port.value == ps[i] {
      ListenerIsWellFormed(cls, t, ids, ps[i]);
      ListenerPort(cls, t, ids, ps[i]);
    }
  }

  lemma ListenerPort(cls: IngressClass, t: WorkTree, ids: map<string, string>, port: nat)
    ensures var l := ListenerOf(cls, t, ids, port);
      && l.port == Some(port) && l.protocol == Some(ProtocolAt(t, port))
        && l.http == Some(Api.HttpOptions(Hosts(t, port)))
  {
  }

  /** Every pool of the payload is a pool of the tree. */
  lemma PoolOrigin(t: WorkTree, pools: seq<Api.TargetPool>, k: nat) returns (ref: PathRef)
    requires ArePools(t, pools) && k < |pools|
    ensures ref in t.pools && t.pools[ref] == pools[k]
  {
    var order :| ArePoolsVia(t, pools, order);
    var mapped := Map((r: PathRef) => PoolAt(t, r), order);
    SameMembers(order, t.pools.Keys);
    assert pools[k] in multiset(mapped);
    var m :| 0 <= m < |mapped| && mapped[m] == pools[k];
    ref := order[m];
  }

  /** Pools: at most twenty, and none with more targets than allowed. */
  lemma PoolsAreWellFormed(ctx: Context, t: WorkTree, pools: seq<Api.TargetPool>)
    requires PoolsInv(ctx, t) && ArePools(t, pools) && |ctx.targets| <= LIMIT_TARGETS_PER_POOL
    ensures |pools| <= LIMIT_TARGET_POOLS
    ensures forall i | 0 <= i < |pools| :: |pools[i].targets| <= LIMIT_TARGETS_PER_POOL
    ensures forall ref | ref in t.pools :: exists i :: 0 <= i < |pools| && pools[i] == t.pools[ref]
  {
    hide PathsHavePools, PoolsHavePaths, PathRef.PoolName;
    var order :| ArePoolsVia(t, pools, order);
    var mapped := Map((r: PathRef) => PoolAt(t, r), order);
    SameMembers(order, t.pools.Keys);
    assert |pools| == |multiset(pools)| == |multiset(mapped)| == |mapped|;
    assert |order| == |multiset(order)| == |multiset(t.pools.Keys)| == |t.pools|;
    forall i | 0 <= i < |pools| ensures |pools[i].targets| <= LIMIT_TARGETS_PER_POOL {
      var ref := PoolOrigin(t, pools, i);
    }
    forall ref | ref in t.pools ensures exists i :: 0 <= i < |pools| && pools[i] == t.pools[ref] {
      var k :| 0 <= k < |order| && order[k] == ref;
      assert mapped[k] in multiset(pools);
    }
  }

  /** Every rule of every host sends its traffic to a pool that the payload contains. */
  lemma RulesReferToPools(ctx: Context, t: WorkTree, pools: seq<Api.TargetPool>, port: nat, host: string, i: nat)
    requires PathsInv(t) && PoolsInv(ctx, t) && ArePools(t, pools) && |ctx.targets| <= LIMIT_TARGETS_PER_POOL
    requires i < |Rules(t, port, host)|
    ensures exists k :: 0 <= k < |pools| && pools[k].name == Rules(t, port, host)[i].targetPool && pools[k].name.Some?
  {
    hide PoolsHavePaths, ArePools, PathsInv, PathRef.PoolName, SortKeys;
    var ks := SortKeys(KeysAt(t, port, host));
    SameMembers(ks, KeysAt(t, port, host));
    assert ks[i] in KeysAt(t, port, host);
    var slot :| slot in t.paths && slot.port == port && slot.host == host && slot.key == ks[i];
    assert slot == Slot(port, host, ks[i]);
    var ref := t.paths[slot].ref;
    assert ref in t.pools;
    PoolsAreWellFormed(ctx, t, pools);
    var k :| 0 <= k < |pools| && pools[k] == t.pools[ref];
    assert pools[k].name == Some(ref.PoolName());
  }

  // ---- nothing that was admitted is missing ----

  /** The matcher of the rule is what the path asks for: its text as a prefix, or as the exact path. */
  predicate RuleServes(rule: Api.Rule, path: HttpPath) {
    && rule.path.Some?
    && if path.pathType == Some(Prefix) then rule.path.value == Api.Path(Some(path.path), None)
       else rule.path.value == Api.Path(None, Some(path.path))
  }

  lemma RuleOfServes(path: HttpPath, ing: Ingress, r: nat, p: nat, ws: bool)
    ensures var rule := RuleOf(TreePath(KeyOf(path), RefOf(ing, r, p), ws));
      && RuleServes(rule, path)
      && rule.targetPool == Some(PoolName(ing.uid, r, p)) && rule.webSocket == Some(ws)
  {
  }

  /** The rule for the path (r, p) is in the listener on `port`, under the host of its ingress rule. */
  ghost predicate Exposes(ls: seq<Api.Listener>, ing: Ingress, r: nat, p: nat, port: int, protocol: Api.Protocol,
                          ws: bool)
    requires r < |ing.rules| && p < ing.PathCount(r)
  {
    exists i, h, k :: 0 <= i < |ls| && RuleAt(ls[i], ing, r, p, port, protocol, ws, h, k)
  }

  ghost predicate RuleAt(l: Api.Listener, ing: Ingress, r: nat, p: nat, port: int, protocol: Api.Protocol, ws: bool,
                         h: int, k: int)
    requires r < |ing.rules| && p < ing.PathCount(r)
  {
    && l.port == Some(port) && l.protocol == Some(protocol) && l.http.Some?
    && 0 <= h < |l.http.value.hosts|
    && var host := l.http.value.hosts[h];
    && host.host == Some(ing.rules[r].host)
    && 0 <= k < |host.rules|
    && RuleServes(host.rules[k], ing.rules[r].http.value[p])
    && host.rules[k].targetPool == Some(PoolName(ing.uid, r, p)) && host.rules[k].webSocket == Some(ws)
  }

  lemma HostIndex(t: WorkTree, slot: Slot) returns (h: nat)
    requires slot in t.paths
    ensures h < |Hosts(t, slot.port)| && Hosts(t, slot.port)[h] == HostOf(t, slot.port, slot.host)
  {
    hide Rules, SortStrings;
    var names := SortStrings(multiset(HostNames(t, slot.port)));
    SameMembers(names, HostNames(t, slot.port));
    assert slot.host in names;
    h :| 0 <= h < |names| && names[h] == slot.host;
  }

  lemma RuleIndex(t: WorkTree, slot: Slot) returns (k: nat)
    requires slot in t.paths
    ensures k < |Rules(t, slot.port, slot.host)| && Rules(t, slot.port, slot.host)[k] == RuleOf(t.paths[slot])
  {
    hide SortKeys, RuleOf;
    var ks := SortKeys(KeysAt(t, slot.port, slot.host));
    SameMembers(ks, KeysAt(t, slot.port, slot.host));
    assert slot.key in ks;
    k :| 0 <= k < |ks| && ks[k] == slot.key;
    assert Slot(slot.port, slot.host, ks[k]) == slot;
  }

  lemma BoundIsExposed(cls: IngressClass, t: WorkTree, ids: map<string, string>, ing: Ingress, r: nat, p: nat,
                       port: nat, protocol: Api.Protocol, ws: bool)
    requires r < |ing.rules| && p < ing.PathCount(r) && PathsInv(t)
    requires Bound(t, ing, r, p, port, protocol, ws) && port in PortsOf(t, ids)
    ensures Exposes(OrDummy(LiveListeners(cls, t, ids)), ing, r, p, port, protocol, ws)
  {
    hide Hosts, Rules, SortPorts, PortsOf, PathRef.PoolName, CertificateIds, Decimal;
    var slot := SlotOf(ing, r, p, port);
    var i := PortIndex(t, ids, port);
    ListenerPort(cls, t, ids, port);
    var ls := OrDummy(LiveListeners(cls, t, ids));
    assert ls[i] == ListenerOf(cls, t, ids, port);
    var h := HostIndex(t, slot);
    var k := RuleIndex(t, slot);
    RuleOfServes(ing.rules[r].http.value[p], ing, r, p, ws);
    assert RuleAt(ls[i], ing, r, p, port, protocol, ws, h, k);
  }

  /** The path is in the payload on every protocol its ingress asked for, and so is its own pool. */
  ghost predicate PathExposed(ls: seq<Api.Listener>, pools: seq<Api.TargetPool>, s: Settings, ing: Ingress, r: nat,
                              p: nat)
    requires r < |ing.rules| && p < ing.PathCount(r)
  {
    && (exists k :: 0 <= k < |pools| && pools[k].name == Some(PoolName(ing.uid, r, p)))
    && (!s.httpsOnly ==> Exposes(ls, ing, r, p, s.httpPort, Api.HTTP, s.webSocket))
    && (|ing.tls| > 0 ==> Exposes(ls, ing, r, p, s.httpsPort, Api.HTTPS, s.webSocket))
  }

  /** Everything the ingress asked for can be found in the payload. */
  ghost predicate FullyExposed(cls: IngressClass, ls: seq<Api.Listener>, pools: seq<Api.TargetPool>, ing: Ingress) {
    exists s :: HasSettings(cls, ing, s) && AllExposed(ls, pools, s, ing)
  }

  ghost predicate AllExposed(ls: seq<Api.Listener>, pools: seq<Api.TargetPool>, s: Settings, ing: Ingress) {
    forall r, p | 0 <= r < |ing.rules| && 0 <= p < ing.PathCount(r) :: PathExposed(ls, pools, s, ing, r, p)
  }

  lemma RefName(ing: Ingress, r: nat, p: nat)
    ensures RefOf(ing, r, p).PoolName() == PoolName(ing.uid, r, p)
  {
  }

  lemma ServedIsExposed(ctx: Context, t: WorkTree, ids: map<string, string>, pools: seq<Api.TargetPool>, ing: Ingress,
                        r: nat, p: nat)
    requires TreeInv(ctx, t) && ArePools(t, pools) && |ctx.targets| <= LIMIT_TARGETS_PER_POOL
    requires FullyServed(ctx.class_, t, ing) && r < |ing.rules| && p < ing.PathCount(r)
    requires t.certificates.Keys <= ids.Keys
    ensures PathExposed(OrDummy(LiveListeners(ctx.class_, t, ids)), pools, Settle(ctx.class_, ing).settings, ing, r, p)
  {
    hide PathsInv, Exposes, Bound, Settle, PathRef.PoolName, PoolName, ArePools, PathsHavePools, PoolsHavePaths,
         LiveListeners,
         CertificatesInv;
    var s := Settle(ctx.class_, ing).settings;
    SettledPortsFit(ctx.class_, ing);
    assert Served(t, ing, s, r, p);
    RefName(ing, r, p);
    PoolsAreWellFormed(ctx, t, pools);
    if !s.httpsOnly {
      BoundPort(t, ing, r, p, s.httpPort, Api.HTTP, s.webSocket);
      BoundIsExposed(ctx.class_, t, ids, ing, r, p, s.httpPort, Api.HTTP, s.webSocket);
    }
    if |ing.tls| > 0 {
      BoundPort(t, ing, r, p, s.httpsPort, Api.HTTPS, s.webSocket);
      var f :| f in t.certificates && Uint16(s.httpsPort) in t.certificates[f].ports;
      assert f in FingerprintsFor(t, ids, s.httpsPort);
      BoundIsExposed(ctx.class_, t, ids, ing, r, p, s.httpsPort, Api.HTTPS, s.webSocket);
    }
  }

  lemma BoundPort(t: WorkTree, ing: Ingress, r: nat, p: nat, port: nat, protocol: Api.Protocol, ws: bool)
    requires r < |ing.rules| && p < ing.PathCount(r) && Bound(t, ing, r, p, port, protocol, ws)
    ensures port in t.protocols && t.protocols[port] == protocol
  {
  }

  /** End to end, no silent drop: for every cluster state, an ingress either gets every path it asked for on every
      protocol, with a target pool of its own, or some event names it. */
  lemma NoSilentDropEndToEnd(i: Inputs, b: Build, f: Frame, ids: map<string, string>, p: Api.Payload, ing: Ingress)
    requires IsBuild(i, b) && ing in i.ingresses && f.class_ == i.class_
    requires b.tree.certificates.Keys <= ids.Keys && IsCreatePayload(f, b.tree, ids, p)
    ensures
      || (exists e :: e in b.events && e.ingress == ing.Key())
      || FullyExposed(i.class_, p.listeners, p.targetPools, ing)
  {
    hide TreeInv, IsTargets, Settle, FullyServed, LiveListeners, PathExposed, ArePools, PathRef.PoolName, Bounded,
         AdmitAll;
    var order, targets :| IsBuildWith(i, b, order, targets);
    var ctx := ContextOf(i, targets);
    assert ing in multiset(order);
    var k :| 0 <= k < |order| && order[k] == ing;
    EmptyTreeInv(ctx);
    AdmitAllKeepsInv(ctx, EMPTY_BUILD, order);
    NoSilentDrop(ctx, order, k);
    TargetsWithinLimit(Candidates(i.nodes), targets);
    if FullyServed(i.class_, b.tree, ing) {
      FullyServedAccepted(i.class_, b.tree, ing);
      var s := Settle(i.class_, ing).settings;
      forall r, q | 0 <= r < |ing.rules| && 0 <= q < ing.PathCount(r)
        ensures PathExposed(p.listeners, p.targetPools, s, ing, r, q)
      {
        ServedIsExposed(ctx, b.tree, ids, p.targetPools, ing, r, q);
      }
      SettingsIff(i.class_, ing, s);
      assert AllExposed(p.listeners, p.targetPools, s, ing);
    }
  }

  lemma FullyServedAccepted(cls: IngressClass, t: WorkTree, ing: Ingress)
    requires FullyServed(cls, t, ing)
    ensures Settle(cls, ing).Accepted?
  {
  }

  // ---- the payload is canonical ----

  ghost predicate PoolNamesDistinct(t: WorkTree) {
    forall a, b | a in t.pools && b in t.pools && t.pools[a].name == t.pools[b].name :: a == b
  }

  lemma PoolsAreUnique(t: WorkTree, ps: seq<Api.TargetPool>, qs: seq<Api.TargetPool>)
    requires PoolNamesDistinct(t) && (forall r | r in t.pools :: t.pools[r].name.Some?) && ArePools(t, ps)
    requires ArePools(t, qs)
    ensures ps == qs
  {
    var o :| ArePoolsVia(t, ps, o);
    var o' :| ArePoolsVia(t, qs, o');
    var f := (r: PathRef) => PoolAt(t, r);
    var mapped := Map(f, o);
    assert multiset(ps) == multiset(mapped) by { assert mapped == Map((r: PathRef) => PoolAt(t, r), o); }
    assert multiset(qs) == multiset(Map(f, o')) by { assert Map(f, o') == Map((r: PathRef) => PoolAt(t, r), o'); }
    MapPermutes(f, o, o');
    var dom := set r | r in t.pools :: t.pools[r];
    forall i | 0 <= i < |ps| ensures ps[i] in dom { var r := PoolOrigin(t, ps, i); }
    PoolsUntied(t, dom);
    SortedUnique(PoolBefore, ps, qs, dom);
  }

  lemma PoolsUntied(t: WorkTree, dom: set<Api.TargetPool>)
    requires PoolNamesDistinct(t) && (forall r | r in t.pools :: t.pools[r].name.Some?)
    requires dom == set r | r in t.pools :: t.pools[r]
    ensures NoTies(PoolBefore, dom)
  {
    StrTotal();
  }

  lemma PayloadIsUnique(f: Frame, t: WorkTree, ids: map<string, string>, p: Api.Payload, q: Api.Payload)
    requires PoolNamesDistinct(t) && (forall r | r in t.pools :: t.pools[r].name.Some?)
    requires IsCreatePayload(f, t, ids, p) && IsCreatePayload(f, t, ids, q)
    ensures p == q
  {
    hide LiveListeners, ArePools;
    PoolsAreUnique(t, p.targetPools, q.targetPools);
  }

  ghost predicate DistinctUids(ings: multiset<Ingress>) {
    forall a, b | a in ings && b in ings && a.uid == b.uid :: a == b
  }

  /** Pool references of a build belong to the ingresses it was built from. */
  ghost predicate RefsFrom(t: WorkTree, ings: seq<Ingress>) {
    forall ref | ref in t.pools :: exists k :: 0 <= k < |ings| && ref == RefOf(ings[k], ref.rule, ref.path)
  }

  lemma AdmitPathRefs(ctx: Context, b: Build, ing: Ingress, s: Settings, r: nat, p: nat)
    requires r < |ing.rules| && p < ing.PathCount(r)
    ensures AdmitPath(ctx, b, ing, s, r, p).tree.pools.Keys <= b.tree.pools.Keys + {RefOf(ing, r, p)}
  {
    hide TargetPoolFor, AddPath, EventsFor;
    var result := TargetPoolFor(ctx, b.tree, ing, r, p);
    var reported := b.(events := b.events + EventsFor(ing, result.kinds, r, p));
    var http := AddHttp(reported, ing, s, r, p);
    AddPathKeepsPools(reported, ing, r, p, Uint16(s.httpPort), Api.HTTP, s.webSocket);
    AddPathKeepsPools(http.build, ing, r, p, Uint16(s.httpsPort), Api.HTTPS, s.webSocket);
  }

  lemma AddPathKeepsPools(b: Build, ing: Ingress, r: nat, p: nat, port: nat, protocol: Api.Protocol, ws: bool)
    requires r < |ing.rules| && p < ing.PathCount(r)
    ensures AddPath(b, ing, r, p, port, protocol, ws).build.tree.pools == b.tree.pools
  {
  }

  lemma {:induction false} AdmitPathsRefs(ctx: Context, b: Build, ing: Ingress, s: Settings, r: nat, n: nat)
    requires r < |ing.rules| && n <= ing.PathCount(r)
    ensures forall ref | ref in AdmitPathsUpTo(ctx, b, ing, s, r, n).tree.pools ::
              ref in b.tree.pools || ref == RefOf(ing, ref.rule, ref.path)
  {
    hide AdmitPath;
    if n > 0 {
      AdmitPathsRefs(ctx, b, ing, s, r, n - 1);
      AdmitPathRefs(ctx, AdmitPathsUpTo(ctx, b, ing, s, r, n - 1), ing, s, r, n - 1);
    }
  }

  lemma {:induction false} AdmitRulesRefs(ctx: Context, b: Build, ing: Ingress, s: Settings, n: nat)
    requires n <= |ing.rules|
    ensures forall ref | ref in AdmitRulesUpTo(ctx, b, ing, s, n).tree.pools ::
              ref in b.tree.pools || ref == RefOf(ing, ref.rule, ref.path)
  {
    hide AdmitPathsUpTo;
    if n > 0 {
      AdmitRulesRefs(ctx, b, ing, s, n - 1);
      AdmitPathsRefs(ctx, AdmitRulesUpTo(ctx, b, ing, s, n - 1), ing, s, n - 1, ing.PathCount(n - 1));
    }
  }

  lemma {:induction false} AdmitTlsKeepsPools(ctx: Context, b: Build, ing: Ingress, s: Settings, n: nat)
    requires n <= |ing.tls|
    ensures AdmitTlsUpTo(ctx, b, ing, s, n).tree.pools == b.tree.pools
  {
    if n > 0 { AdmitTlsKeepsPools(ctx, b, ing, s, n - 1); }
  }

  lemma {:induction false} AdmitAllRefs(ctx: Context, ings: seq<Ingress>)
    ensures RefsFrom(AdmitAll(ctx, EMPTY_BUILD, ings).tree, ings)
  {
    if ings != [] {
      hide Settle, AdmitTlsUpTo, AdmitRulesUpTo;
      var n := |ings| - 1;
      var last := ings[n];
      var m := AdmitAll(ctx, EMPTY_BUILD, ings[..n]);
      AdmitAllRefs(ctx, ings[..n]);
      var verdict := Settle(ctx.class_, last);
      if verdict.Accepted? {
        AdmitTlsKeepsPools(ctx, m, last, verdict.settings, |last.tls|);
        AdmitRulesRefs(ctx, AdmitTlsUpTo(ctx, m, last, verdict.settings, |last.tls|), last, verdict.settings,
                       |last.rules|);
      }
      forall ref | ref in AdmitAll(ctx, EMPTY_BUILD, ings).tree.pools
        ensures exists k :: 0 <= k < |ings| && ref == RefOf(ings[k], ref.rule, ref.path)
      {
        if ref in m.tree.pools {
          var k :| 0 <= k < n && ref == RefOf(ings[..n][k], ref.rule, ref.path);
          assert ings[k] == ings[..n][k];
        }
      }
    }
  }

  lemma DistinctUidsGiveDistinctNames(ctx: Context, ings: seq<Ingress>)
    requires DistinctUids(multiset(ings))
    ensures PoolNamesDistinct(AdmitAll(ctx, EMPTY_BUILD, ings).tree)
    ensures forall r | r in AdmitAll(ctx, EMPTY_BUILD, ings).tree.pools ::
              AdmitAll(ctx, EMPTY_BUILD, ings).tree.pools[r].name.Some?
  {
    hide AdmitAll, PoolName, Decimal, PathsInv, CertificatesInv, PathsHavePools, PoolsHavePaths;
    var t := AdmitAll(ctx, EMPTY_BUILD, ings).tree;
    EmptyTreeInv(ctx);
    AdmitAllKeepsInv(ctx, EMPTY_BUILD, ings);
    AdmitAllRefs(ctx, ings);
    forall a, b | a in t.pools && b in t.pools && t.pools[a].name == t.pools[b].name ensures a == b {
      PoolNameInjective(a.uid, a.rule, a.path, b.uid, b.rule, b.path);
      var k :| 0 <= k < |ings| && a == RefOf(ings[k], a.rule, a.path);
      var m :| 0 <= m < |ings| && b == RefOf(ings[m], b.rule, b.path);
      assert ings[k] in multiset(ings) && ings[m] in multiset(ings);
    }
  }

  /** Canonical payload: whatever order ingresses, nodes and map entries come in, the same objects and certificate
      ids give the same payload, so that comparing two payloads compares what they stand for. */
  lemma PayloadIsCanonical(i: Inputs, j: Inputs, b: Build, c: Build, f: Frame, ids: map<string, string>, p: Api.Payload,
                           q: Api.Payload)
    requires SameInputs(i, j) && Unambiguous(i) && DistinctUids(multiset(i.ingresses))
    requires IsBuild(i, b) && IsBuild(j, c)
    requires IsCreatePayload(f, b.tree, ids, p) && IsCreatePayload(f, c.tree, ids, q)
    ensures b == c && p == q
  {
    hide AdmitAll, IsTargets, IsCreatePayload, Untied;
    BuildIsCanonical(i, j, b, c);
    var order, targets :| IsBuildWith(i, b, order, targets);
    DistinctUidsGiveDistinctNames(ContextOf(i, targets), order);
    PayloadIsUnique(f, b.tree, ids, p, q);
  }
}
