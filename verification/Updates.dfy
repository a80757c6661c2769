/** Changes of the cluster reach the load balancer: what differs in the tree is updated. */
module Updates {
  import opened Options
  import opened Kube
  import opened Sorting
  import opened Tree
  import opened TreeProperties
  import opened Compiler
  import opened Provenance
  import opened Payload
  import opened Certificates
  import opened PayloadProperties
  import opened EndToEnd
  import opened Comparison
  import opened Diff
  import opened Protocol
  import opened Convergence
  import opened ClassChanges
  import Api = AlbApi
  import Names

  // ---- what can be seen of a tree ----

  /** No pool of `u` is like the pool of `t` for this path. */
  ghost predicate PoolLost(t: WorkTree, u: WorkTree, ref: PathRef) {
    ref in t.pools && forall other | other in u.pools :: !SamePool(t.pools[ref], u.pools[other])
  }

  /** The port is one that the load balancer listens on, if all certificates are known. */
  ghost predicate Open(t: WorkTree, port: nat) {
    port in t.protocols && (t.protocols[port] == Api.HTTPS ==> HasCertificate(t, port))
  }

  /** `u` has a rule for this port and host with the same text, the same kind of match, and the same destination. */
  ghost predicate RuleKept(t: WorkTree, u: WorkTree, slot: Slot)
    requires slot in t.paths
  {
    exists other ::
      other in u.paths && other.port == slot.port && other.host == slot.host && SameDestination(t, u, slot, other)
  }

  ghost predicate SameDestination(t: WorkTree, u: WorkTree, slot: Slot, other: Slot)
    requires slot in t.paths && other in u.paths
  {
    var x, y := t.paths[slot], u.paths[other];
    && x.key.path == y.key.path && (x.key.path == "" || (x.key.pathType == Prefix <==> y.key.pathType == Prefix))
    && x.ref.PoolName() == y.ref.PoolName() && x.webSocket == y.webSocket
  }

  ghost predicate RuleLost(t: WorkTree, u: WorkTree, slot: Slot) {
    slot in t.paths && Open(t, slot.port) && !RuleKept(t, u, slot)
  }

  /** Something that can be seen of one tree cannot be seen of the other. */
  ghost predicate Differ(t: WorkTree, u: WorkTree) {
    || (exists ref :: PoolLost(t, u, ref) || PoolLost(u, t, ref))
    || (exists slot :: RuleLost(t, u, slot) || RuleLost(u, t, slot))
  }

  // ---- the same configuration shows the same ----

  lemma SamePoolsLoseNone(t: WorkTree, u: WorkTree, ps: seq<Api.TargetPool>, qs: seq<Api.TargetPool>, ref: PathRef)
    requires ArePools(t, ps) && ArePools(u, qs) && SamePools(ps, qs)
    ensures !PoolLost(t, u, ref)
  {
    hide SamePool, ArePools;
    if ref in t.pools {
      var k := PoolIndex(t, ps, ref);
      var other := PoolOrigin(u, qs, k);
      assert SamePool(t.pools[ref], u.pools[other]);
    }
  }

  lemma PoolIndex(t: WorkTree, pools: seq<Api.TargetPool>, ref: PathRef) returns (k: nat)
    requires ArePools(t, pools) && ref in t.pools
    ensures k < |pools| && pools[k] == t.pools[ref]
  {
    var order :| ArePoolsVia(t, pools, order);
    var mapped := Map((r: PathRef) => PoolAt(t, r), order);
    SameMembers(order, t.pools.Keys);
    var n :| 0 <= n < |order| && order[n] == ref;
    assert mapped[n] in multiset(pools);
    k :| 0 <= k < |pools| && pools[k] == mapped[n];
  }

  lemma SamePoolsSymmetric(ps: seq<Api.TargetPool>, qs: seq<Api.TargetPool>)
    requires SamePools(ps, qs)
    ensures SamePools(qs, ps)
  {
    hide SamePools;
    PoolsIff(ps, qs);
    PoolsIff(qs, ps);
  }

  lemma SameListenersSymmetric(ls: seq<Api.Listener>, ms: seq<Api.Listener>)
    requires SameListeners(ls, ms)
    ensures SameListeners(ms, ls)
  {
    hide SameListeners;
    ListenersIff(ls, ms);
    ListenersIff(ms, ls);
  }

  /** The stored path behind rule `k` of host `h` of listener `i`. */
  lemma RulePosition(d: IngressClass, u: WorkTree, ids: map<string, string>, i: nat, h: nat, k: nat)
    returns (other: Slot)
    requires i < |OrDummy(LiveListeners(d, u, ids))|
    requires var l := OrDummy(LiveListeners(d, u, ids))[i];
      l.http.Some? && h < |l.http.value.hosts| && k < |l.http.value.hosts[h].rules|
    ensures var l := OrDummy(LiveListeners(d, u, ids))[i];
      && other in u.paths && l.port == Some(other.port) && l.http.value.hosts[h].host == Some(other.host)
      && l.http.value.hosts[h].rules[k] == RuleOf(u.paths[other])
  {
    hide PortsOf, LiveListeners, ListenerOf, Hosts, Rules, RuleOf;
    HostsAreLive(d, u, ids, i);
    var port := ListenerOrigin(d, u, ids, i);
    ListenerPort(d, u, ids, port);
    var host := HostOrigin(u, port, h);
    other := RuleOrigin(u, port, host, k);
  }

  lemma SameListenersKeepRules(c: IngressClass, d: IngressClass, t: WorkTree, u: WorkTree, ids: map<string, string>,
                               ids': map<string, string>, slot: Slot)
    requires SameListeners(OrDummy(LiveListeners(c, t, ids)), OrDummy(LiveListeners(d, u, ids')))
    requires slot in t.paths && slot.port in PortsOf(t, ids) && PathsInv(t)
    ensures RuleKept(t, u, slot)
  {
    assert slot.port != 0;
    hide PathsInv, PortsOf, SameListeners, LiveListeners, ListenerOf, Hosts, Rules, SameRule, RuleOf, RuleKept,
         SameDestination;
    var ls, ms := OrDummy(LiveListeners(c, t, ids)), OrDummy(LiveListeners(d, u, ids'));
    var i := OpenPortIndex(c, t, ids, slot.port);
    var h := HostIndex(t, slot);
    var k := RuleIndex(t, slot);
    SameListenersAt(ls, ms, i, h, k);
    var other := RulePosition(d, u, ids', i, h, k);
    SameRuleSameDestination(t, u, slot, other);
    assert other.port == slot.port && other.host == slot.host;
    KeepsRule(t, u, slot, other);
  }

  lemma KeepsRule(t: WorkTree, u: WorkTree, slot: Slot, other: Slot)
    requires slot in t.paths && other in u.paths && other.port == slot.port && other.host == slot.host
    requires SameDestination(t, u, slot, other)
    ensures RuleKept(t, u, slot)
  {
    hide SameDestination;
  }

  lemma OpenPortIndex(c: IngressClass, t: WorkTree, ids: map<string, string>, port: nat) returns (i: nat)
    requires port in PortsOf(t, ids)
    ensures var ls := OrDummy(LiveListeners(c, t, ids));
      && i < |ls| && ls[i].port == Some(port) && ls[i].http == Some(Api.HttpOptions(Hosts(t, port)))
  {
    hide Hosts, SortPorts, PortsOf, CertificateIds, Names.Decimal;
    i := PortIndex(t, ids, port);
    ListenerPort(c, t, ids, port);
  }

  /** A listener with hosts is not the stand-in. */
  lemma HostsAreLive(d: IngressClass, u: WorkTree, ids: map<string, string>, i: nat)
    requires i < |OrDummy(LiveListeners(d, u, ids))|
    requires OrDummy(LiveListeners(d, u, ids))[i].http.Some?
    requires |OrDummy(LiveListeners(d, u, ids))[i].http.value.hosts| > 0
    ensures i < |LiveListeners(d, u, ids)|
  {
    hide LiveListeners;
  }

  lemma SameListenersAt(ls: seq<Api.Listener>, ms: seq<Api.Listener>, i: nat, h: nat, k: nat)
    requires SameListeners(ls, ms) && i < |ls| && ls[i].http.Some? && h < |ls[i].http.value.hosts|
    requires k < |ls[i].http.value.hosts[h].rules|
    ensures i < |ms| && Same(ls[i].port, ms[i].port, 0) && ms[i].http.Some? && h < |ms[i].http.value.hosts|
    ensures var x, y := ls[i].http.value.hosts[h], ms[i].http.value.hosts[h];
      Same(x.host, y.host, "") && k < |y.rules| && SameRule(x.rules[k], y.rules[k])
  {
    hide SameRule, SameHttps;
    assert SameListener(ls[i], ms[i]);
    assert SameHost(ls[i].http.value.hosts[h], ms[i].http.value.hosts[h]);
  }

  lemma SameRuleSameDestination(t: WorkTree, u: WorkTree, slot: Slot, other: Slot)
    requires slot in t.paths && other in u.paths && SameRule(RuleOf(t.paths[slot]), RuleOf(u.paths[other]))
    ensures SameDestination(t, u, slot, other)
  {
    hide PathRef.PoolName;
  }

  /** The comparison takes an empty prefix and an empty exact path for the same, because both read as unset. With any
      other text it tells them apart. */
  lemma EmptyPathsLookSameIff(text: string, a: PathType, b: PathType, ref: PathRef, webSocket: bool)
    ensures SameRule(RuleOf(TreePath(PathKey(a, text), ref, webSocket)),
                     RuleOf(TreePath(PathKey(b, text), ref, webSocket)))
            <==> text == "" || (a == Prefix <==> b == Prefix)
  {
  }

  lemma SameConfigurationShowsSame(f: Frame, g: Frame, t: WorkTree, u: WorkTree, ids: map<string, string>,
                                   ids': map<string, string>, p: Api.Payload, q: Api.Payload)
    requires IsCreatePayload(f, t, ids, p) && IsCreatePayload(g, u, ids', q) && SameConfiguration(p, q)
    requires PathsInv(t) && PathsInv(u) && t.certificates.Keys <= ids.Keys && u.certificates.Keys <= ids'.Keys
    ensures !Differ(t, u)
  {
    hide SameListeners, SamePools, ArePools, LiveListeners, PoolLost, RuleKept, PathsInv, Open, PortsOf;
    SamePoolsSymmetric(p.targetPools, q.targetPools);
    SameListenersSymmetric(p.listeners, q.listeners);
    forall ref ensures !PoolLost(t, u, ref) && !PoolLost(u, t, ref) {
      SamePoolsLoseNone(t, u, p.targetPools, q.targetPools, ref);
      SamePoolsLoseNone(u, t, q.targetPools, p.targetPools, ref);
    }
    forall slot ensures !RuleLost(t, u, slot) && !RuleLost(u, t, slot) {
      if slot in t.paths && Open(t, slot.port) {
        OpenIsListened(t, ids, slot.port);
        SameListenersKeepRules(f.class_, g.class_, t, u, ids, ids', slot);
      }
      if slot in u.paths && Open(u, slot.port) {
        OpenIsListened(u, ids', slot.port);
        SameListenersKeepRules(g.class_, f.class_, u, t, ids', ids, slot);
      }
    }
  }

  lemma OpenIsListened(t: WorkTree, ids: map<string, string>, port: nat)
    requires Open(t, port) && t.certificates.Keys <= ids.Keys
    ensures port in PortsOf(t, ids)
  {
    if t.protocols[port] == Api.HTTPS {
      var f :| f in t.certificates && port in t.certificates[f].ports;
      assert f in FingerprintsFor(t, ids, port);
    }
  }

  // ---- runs ----

  /** The load balancer is still the same, or it has been updated since. */
  ghost predicate KeptOrUpdated(me: Me, s: State, s': State) {
    && me.lbName in s.w.albs && me.lbName in s'.w.albs && s.w.calls <= s'.w.calls
    && (s'.w.albs[me.lbName] == s.w.albs[me.lbName] || UpdateLoadBalancer in s'.w.calls[|s.w.calls|..])
  }

  lemma StepKeepsOrUpdates(me: Me, plan: Plan, s: State, s': State)
    requires QuietStep(me, plan, s, s') && me.lbName in s.w.albs
    ensures KeptOrUpdated(me, s, s')
  {
    hide NormalForm, IsCreatePayload, IsUpdatePayload, IsListing, Missing, PlanFor, NextCleaning, SameConfig;
    if UpdateLb(me, s, s') {
      var p, lb :| UpdateLbWith(me, s, s', p, lb);
      assert s'.w.calls[|s.w.calls|..] == [UpdateLoadBalancer];
    }
  }

  lemma {:induction false} RunKeepsOrUpdates(me: Me, plan: Plan, run: seq<State>, i: nat)
    requires QuietRun(me, plan, run) && i < |run| && me.lbName in run[0].w.albs
    ensures KeptOrUpdated(me, run[0], run[i])
  {
    if i > 0 {
      assert QuietStep(me, plan, run[i - 1], run[i]);
      hide QuietRun, QuietStep;
      RunKeepsOrUpdates(me, plan, run, i - 1);
      StepKeepsOrUpdates(me, plan, run[i - 1], run[i]);
      var a, b, c := run[0].w.calls, run[i - 1].w.calls, run[i].w.calls;
      assert c[|a|..] == b[|a|..] + c[|b|..];
    }
  }

  /** A class is at rest with one tree. If the tree then changes visibly, the next undisturbed reconcile updates the
      load balancer. */
  lemma DifferenceIsUpdated(me: Me, f: Frame, t: WorkTree, g: Frame, u: WorkTree, run: seq<State>)
    requires QuietRun(me, Plan(g, u), run) && AtRest(me, run[0].w, Plan(f, t))
    requires PathsInv(t) && PathsInv(u) && Differ(t, u)
    ensures run[0].w.calls <= run[|run| - 1].w.calls
    ensures UpdateLoadBalancer in run[|run| - 1].w.calls[|run[0].w.calls|..]
  {
    assert |run| > 1 by { RunIsLong(me, Plan(g, u), run); }
    hide QuietRun, NormalForm, IsCreatePayload, OneEach, PathsInv, Differ, SameConfiguration;
    var ids, n :| SettledWith(me, run[0].w, Plan(f, t), ids, n);
    var p :| IsCreatePayload(f, t, ids, p) && NormalForm(p) == n;
    RestHasFingerprints(me, run[0].w, t, ids);
    OneReconcileSettles(me, Plan(g, u), run);
    var ids', n' :| SettledWith(me, run[|run| - 1].w, Plan(g, u), ids', n');
    var q :| IsCreatePayload(g, u, ids', q) && NormalForm(q) == n';
    RestHasFingerprints(me, run[|run| - 1].w, u, ids');
    RunKeepsOrUpdates(me, Plan(g, u), run, |run| - 1);
    if n == n' {
      NormalFormIff(p, q);
      SameConfigurationShowsSame(f, g, t, u, ids, ids', p, q);
    }
  }

  lemma RestHasFingerprints(me: Me, w: World, t: WorkTree, ids: map<string, string>)
    requires OneEach(me, w, t, ids)
    ensures Fingerprinted(me, w) && t.certificates.Keys <= ids.Keys
  {
  }

  // ---- from the cluster ----

  /** A pool of the tree is called for by the path of that name, in the ingress with that uid. */
  lemma PoolIsForItsPath(i: Inputs, b: Build, ing: Ingress, r: nat, q: nat) returns (targets: seq<Api.Target>)
    requires IsBuild(i, b) && ing in i.ingresses && DistinctUids(multiset(i.ingresses))
    requires r < |ing.rules| && q < ing.PathCount(r) && RefOf(ing, r, q) in b.tree.pools
    ensures CallsFor(ContextOf(i, targets), ing, r, q, b.tree.pools[RefOf(ing, r, q)])
  {
    hide IsBuild, AdmitAll, TreeInv, PoolFrom, CallsFor, SomePathFrom, SomeCertificateFrom, ContextOf;
    var ref := RefOf(ing, r, q);
    var ctx, order := BuildFacts(i, b);
    assert SomePoolFrom(ctx, order, ref, b.tree.pools[ref]);
    var n :| 0 <= n < |order| && PoolFrom(ctx, order[n], ref, b.tree.pools[ref]);
    assert order[n] in multiset(i.ingresses) && ing in multiset(i.ingresses);
    PoolFromRef(ctx, order[n], ref, b.tree.pools[ref], ing, r, q);
    targets := ctx.targets;
  }

  lemma PoolFromRef(ctx: Context, owner: Ingress, ref: PathRef, pool: Api.TargetPool, ing: Ingress, r: nat, q: nat)
    requires PoolFrom(ctx, owner, ref, pool) && ref == RefOf(ing, r, q) && (owner.uid == ing.uid ==> owner == ing)
    requires r < |ing.rules| && q < ing.PathCount(r)
    ensures owner.uid == ing.uid && CallsFor(ctx, ing, r, q, pool)
  {
    hide PoolForService, PoolConfigured, PathRef.PoolName;
    var r', q' :| 0 <= r' < |owner.rules| && 0 <= q' < owner.PathCount(r') && IsPoolOf(ctx, owner, r', q', ref, pool);
    assert owner.uid == ref.uid == ing.uid && r' == r && q' == q;
    var backend := ing.rules[r].http.value[q].backend.value;
    PoolIsConfigured(ctx, ctx.services[ObjectKey(ing.namespace, backend.service)], ing, ref, backend, pool);
  }

  /** A pool that is kept under its name but is not the same any more. */
  lemma ChangedPoolIsLost(t: WorkTree, u: WorkTree, ref: PathRef)
    requires ref in t.pools && ref in u.pools && Unmistakable(u)
    requires t.pools[ref].name.Some? && t.pools[ref].name == u.pools[ref].name && !SamePool(t.pools[ref], u.pools[ref])
    ensures PoolLost(t, u, ref)
  {
    hide SameTargets, SameTls, SameCheck;
  }

  /** The service that a path names decides on this node port. */
  ghost predicate NodePortOf(i: Inputs, ing: Ingress, r: nat, q: nat, nodePort: int)
    requires r < |ing.rules| && q < ing.PathCount(r)
  {
    var backend := ing.rules[r].http.value[q].backend;
    && backend.Some? && ObjectKey(ing.namespace, backend.value.service) in IndexServices(i.services)
    && PortDecided(IndexServices(i.services)[ObjectKey(ing.namespace, backend.value.service)].ports, backend.value,
                   nodePort)
  }

  lemma PoolHasNodePort(i: Inputs, b: Build, ing: Ingress, r: nat, q: nat, nodePort: int)
    requires IsBuild(i, b) && ing in i.ingresses && DistinctUids(multiset(i.ingresses))
    requires r < |ing.rules| && q < ing.PathCount(r) && RefOf(ing, r, q) in b.tree.pools
    requires NodePortOf(i, ing, r, q, nodePort)
    ensures b.tree.pools[RefOf(ing, r, q)].targetPort == Some(nodePort)
    ensures b.tree.pools[RefOf(ing, r, q)].name == Some(RefOf(ing, r, q).PoolName())
  {
    hide IsBuild, PortDecided, TlsDecided, PathRef.PoolName;
    var targets := PoolIsForItsPath(i, b, ing, r, q);
    var backend := ing.rules[r].http.value[q].backend.value;
    var ports := IndexServices(i.services)[ObjectKey(ing.namespace, backend.service)].ports;
    PortIsDecided(ports, backend, nodePort);
    PortIsDecided(ports, backend, b.tree.pools[RefOf(ing, r, q)].targetPort.value);
  }

  lemma NodePortChangeDiffers(i: Inputs, b: Build, j: Inputs, c: Build, ing: Ingress, edited: Ingress, r: nat, q: nat,
                              before: int, after: int)
    requires IsBuild(i, b) && ing in i.ingresses && DistinctUids(multiset(i.ingresses))
    requires IsBuild(j, c) && edited in j.ingresses && DistinctUids(multiset(j.ingresses))
    requires r < |ing.rules| && q < ing.PathCount(r) && r < |edited.rules| && q < edited.PathCount(r)
    requires RefOf(ing, r, q) == RefOf(edited, r, q)
    requires RefOf(ing, r, q) in b.tree.pools && NodePortOf(i, ing, r, q, before)
    requires RefOf(edited, r, q) in c.tree.pools && NodePortOf(j, edited, r, q, after) && before != after
    ensures Differ(b.tree, c.tree)
  {
    var ref := RefOf(ing, r, q);
    PortsAreSet(j, edited, r, q, after);
    PortsAreSet(i, ing, r, q, before);
    assert !Same(Some(before), Some(after), 0);
    hide IsBuild, NodePortOf, PathRef.PoolName, PoolLost, RuleLost;
    PoolHasNodePort(i, b, ing, r, q, before);
    PoolHasNodePort(j, c, edited, r, q, after);
    BuildIsUnmistakable(j, c);
    assert !SamePool(b.tree.pools[ref], c.tree.pools[ref]);
    hide SamePool;
    ChangedPoolIsLost(b.tree, c.tree, ref);
  }

  /** A class is at rest, and the service of a path that is and stays admitted gets another node port, or the path gets
      another backend with another node port. Then the next undisturbed reconcile updates the load balancer. */
  lemma NodePortChangeIsUpdated(me: Me, i: Inputs, b: Build, f: Frame, j: Inputs, c: Build, g: Frame, ing: Ingress,
                                edited: Ingress, r: nat, q: nat, before: int, after: int, run: seq<State>)
    requires IsBuild(i, b) && ing in i.ingresses && DistinctUids(multiset(i.ingresses))
    requires IsBuild(j, c) && edited in j.ingresses && DistinctUids(multiset(j.ingresses))
    requires r < |ing.rules| && q < ing.PathCount(r) && r < |edited.rules| && q < edited.PathCount(r)
    requires RefOf(ing, r, q) == RefOf(edited, r, q)
    requires RefOf(ing, r, q) in b.tree.pools && NodePortOf(i, ing, r, q, before)
    requires RefOf(edited, r, q) in c.tree.pools && NodePortOf(j, edited, r, q, after) && before != after
    requires QuietRun(me, Plan(g, c.tree), run) && AtRest(me, run[0].w, Plan(f, b.tree))
    ensures run[0].w.calls <= run[|run| - 1].w.calls
    ensures UpdateLoadBalancer in run[|run| - 1].w.calls[|run[0].w.calls|..]
  {
    hide IsBuild, NodePortOf, QuietRun, AtRest, PathsInv, Differ;
    NodePortChangeDiffers(i, b, j, c, ing, edited, r, q, before, after);
    BuildHasPathsInv(i, b);
    BuildHasPathsInv(j, c);
    DifferenceIsUpdated(me, f, b.tree, g, c.tree, run);
  }

  lemma PortsAreSet(i: Inputs, ing: Ingress, r: nat, q: nat, nodePort: int)
    requires r < |ing.rules| && q < ing.PathCount(r) && NodePortOf(i, ing, r, q, nodePort)
    ensures nodePort != 0
  {
  }

  lemma BuildHasPathsInv(i: Inputs, b: Build)
    requires IsBuild(i, b)
    ensures PathsInv(b.tree)
  {
    hide IsBuild, AdmitAll, Sound, PathsInv, PoolsInv, CertificatesInv, ContextOf;
    var ctx, order := BuildFacts(i, b);
  }
}
