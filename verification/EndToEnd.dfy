/** The whole compiler, from the objects in the cluster to the payload: well-formed, and faithful to the ingresses. */
module EndToEnd {
  import opened Options
  import opened Kube
  import opened Sorting
  import opened Tree
  import opened Configuration
  import opened TreeProperties
  import opened Precedence
  import opened Targets
  import opened Compiler
  import opened Payload
  import opened PayloadProperties
  import opened Provenance
  import opened Events
  import Api = AlbApi
  import Names

  // ---- finding the way back ----

  /** What is known about the tree of any build. */
  lemma BuildFacts(i: Inputs, b: Build) returns (ctx: Context, order: seq<Ingress>)
    requires IsBuild(i, b)
    ensures ctx == ContextOf(i, ctx.targets) && IsTargets(Candidates(i.nodes), ctx.targets)
    ensures |ctx.targets| <= LIMIT_TARGETS_PER_POOL && multiset(order) == multiset(i.ingresses)
    ensures b == AdmitAll(ctx, EMPTY_BUILD, order) && TreeInv(ctx, b.tree) && Sound(ctx, b.tree, order)
  {
    hide AdmitAll, IsTargets, TreeInv, Sound, Bounded;
    var targets;
    order, targets :| IsBuildWith(i, b, order, targets);
    ctx := ContextOf(i, targets);
    EmptyTreeInv(ctx);
    AdmitAllKeepsInv(ctx, EMPTY_BUILD, order);
    NothingIsInvented(ctx, order);
    TargetsWithinLimit(Candidates(i.nodes), targets);
  }

  lemma ListenerOrigin(cls: IngressClass, t: WorkTree, ids: map<string, string>, l: nat) returns (port: nat)
    requires l < |LiveListeners(cls, t, ids)|
    ensures port in PortsOf(t, ids) && LiveListeners(cls, t, ids)[l] == ListenerOf(cls, t, ids, port)
  {
    hide ListenerOf, PortsOf, SortPorts;
    var ps := SortPorts(PortsOf(t, ids));
    SameMembers(ps, PortsOf(t, ids));
    port := ps[l];
  }

  lemma HostOrigin(t: WorkTree, port: nat, h: nat) returns (host: string)
    requires h < |Hosts(t, port)|
    ensures Hosts(t, port)[h] == HostOf(t, port, host)
  {
    hide Rules, SortStrings;
    host := SortStrings(multiset(HostNames(t, port)))[h];
  }

  lemma RuleOrigin(t: WorkTree, port: nat, host: string, k: nat) returns (slot: Slot)
    requires k < |Rules(t, port, host)|
    ensures slot in t.paths && slot.port == port && slot.host == host
    ensures Rules(t, port, host)[k] == RuleOf(t.paths[slot])
  {
    hide SortKeys, RuleOf;
    var ks := SortKeys(KeysAt(t, port, host));
    SameMembers(ks, KeysAt(t, port, host));
    assert ks[k] in KeysAt(t, port, host);
    slot := Slot(port, host, ks[k]);
  }

  // ---- well-formed ----

  /** Rule `k` of host `h` of the listener sends its traffic to one of the pools. */
  ghost predicate RuleHasPool(l: Api.Listener, pools: seq<Api.TargetPool>, h: nat, k: nat)
    requires l.http.Some? && h < |l.http.value.hosts| && k < |l.http.value.hosts[h].rules|
  {
    exists m :: 0 <= m < |pools| && pools[m].name.Some? && pools[m].name == l.http.value.hosts[h].rules[k].targetPool
  }

  ghost predicate RulesHavePools(l: Api.Listener, pools: seq<Api.TargetPool>) {
    l.http.Some? && forall h, k | 0 <= h < |l.http.value.hosts| && 0 <= k < |l.http.value.hosts[h].rules| ::
      RuleHasPool(l, pools, h, k)
  }

  lemma ListenerRulesHavePools(ctx: Context, t: WorkTree, ids: map<string, string>, pools: seq<Api.TargetPool>,
                               port: nat)
    requires TreeInv(ctx, t) && ArePools(t, pools) && |ctx.targets| <= LIMIT_TARGETS_PER_POOL
    ensures RulesHavePools(ListenerOf(ctx.class_, t, ids, port), pools)
  {
    hide ArePools, PathsInv, PoolsInv, CertificatesInv, Hosts, Rules, ListenerOf;
    var l := ListenerOf(ctx.class_, t, ids, port);
    ListenerPort(ctx.class_, t, ids, port);
    forall h, k | 0 <= h < |l.http.value.hosts| && 0 <= k < |l.http.value.hosts[h].rules|
      ensures RuleHasPool(l, pools, h, k)
    {
      var host := HostOrigin(t, port, h);
      RulesReferToPools(ctx, t, pools, port, host, k);
    }
  }

  /** Whatever is in the cluster and whatever ids are known: the payload has at least one listener, the ports are
      in range and strictly increasing, HTTPS listeners have certificates, there are at most twenty pools with at
      most 250 targets each, and every rule refers to one of them. */
  lemma PayloadIsWellFormed(i: Inputs, b: Build, f: Frame, ids: map<string, string>, p: Api.Payload)
    requires IsBuild(i, b) && f.class_ == i.class_ && IsCreatePayload(f, b.tree, ids, p)
    ensures p.listeners != []
    ensures forall l | 0 <= l < |p.listeners| ::
              ListenerWellFormed(b.tree, ids, p.listeners[l]) && RulesHavePools(p.listeners[l], p.targetPools)
    ensures forall l, m | 0 <= l < m < |p.listeners| :: p.listeners[l].port.value < p.listeners[m].port.value
    ensures |p.targetPools| <= 20
    ensures forall k | 0 <= k < |p.targetPools| :: |p.targetPools[k].targets| <= 250
  {
    hide IsBuild, AdmitAll, Sound, LiveListeners, ArePools, PathsInv, PoolsInv, CertificatesInv, ListenerWellFormed,
         RulesHavePools;
    var ctx, order := BuildFacts(i, b);
    ListenersAreWellFormed(f.class_, b.tree, ids);
    PoolsAreWellFormed(ctx, b.tree, p.targetPools);
    forall l | 0 <= l < |p.listeners| ensures RulesHavePools(p.listeners[l], p.targetPools) {
      if |LiveListeners(f.class_, b.tree, ids)| > 0 {
        var port := ListenerOrigin(f.class_, b.tree, ids, l);
        ListenerRulesHavePools(ctx, b.tree, ids, p.targetPools, port);
      } else {
        DummyRulesHavePools(p.targetPools);
      }
    }
  }

  lemma DummyRulesHavePools(pools: seq<Api.TargetPool>)
    ensures RulesHavePools(DUMMY_LISTENER, pools)
  {
  }

  // ---- in order ----

  /** Pools are listed by name. */
  lemma PoolsAreSorted(f: Frame, t: WorkTree, ids: map<string, string>, p: Api.Payload, i: nat, j: nat)
    requires IsCreatePayload(f, t, ids, p) && i < j < |p.targetPools|
    requires p.targetPools[i].name.Some? && p.targetPools[j].name.Some?
    ensures !StrLess(p.targetPools[j].name.value, p.targetPools[i].name.value)
  {
    hide LiveListeners;
    assert !PoolBefore(p.targetPools[j], p.targetPools[i]);
  }

  /** The hosts of a listener are listed by name, each once. */
  lemma HostsAreSorted(t: WorkTree, port: nat, i: nat, j: nat)
    requires i < j < |Hosts(t, port)|
    ensures Hosts(t, port)[i].host.Some? && Hosts(t, port)[j].host.Some?
    ensures StrLess(Hosts(t, port)[i].host.value, Hosts(t, port)[j].host.value)
  {
    hide Rules;
    StrTotal();
    SortOfSet(HostNames(t, port), StrLess);
  }

  /** The certificate ids of a listener are listed in ascending order. */
  lemma CertificateIdsAreSorted(t: WorkTree, ids: map<string, string>, port: nat, i: nat, j: nat)
    requires i < j < |CertificateIds(t, ids, port)|
    ensures !StrLess(CertificateIds(t, ids, port)[j], CertificateIds(t, ids, port)[i])
  {
    StrTotal();
  }

  // ---- faithful ----

  /** Path (r, q) of the ingress asked for rule `k` of host `h`, on the port and the protocol of the listener. */
  ghost predicate AsksFor(cls: IngressClass, ing: Ingress, r: nat, q: nat, l: Api.Listener, h: nat, k: nat) {
    && r < |ing.rules| && q < ing.PathCount(r)
    && exists s :: HasSettings(cls, ing, s) && AsksWith(s, ing, r, q, l, h, k)
  }

  /** With these settings the path asks for the rule. */
  ghost predicate AsksWith(s: Settings, ing: Ingress, r: nat, q: nat, l: Api.Listener, h: nat, k: nat)
    requires r < |ing.rules| && q < ing.PathCount(r)
  {
    || (!s.httpsOnly && RuleAt(l, ing, r, q, s.httpPort, Api.HTTP, s.webSocket, h, k))
    || (|ing.tls| > 0 && RuleAt(l, ing, r, q, s.httpsPort, Api.HTTPS, s.webSocket, h, k))
  }

  ghost predicate SomeoneAsksFor(cls: IngressClass, ings: seq<Ingress>, l: Api.Listener, h: nat, k: nat) {
    exists ing, r: nat, q: nat :: ing in ings && AsksFor(cls, ing, r, q, l, h, k)
  }

  lemma SlotIsAskedFor(ctx: Context, t: WorkTree, ing: Ingress, slot: Slot, l: Api.Listener, h: nat, k: nat)
      returns (r: nat, q: nat)
    requires slot in t.paths && slot.port in t.protocols
    requires PathFrom(ctx, ing, slot, t.paths[slot], t.protocols[slot.port])
    requires l.port == Some(slot.port) && l.protocol == Some(t.protocols[slot.port]) && l.http.Some?
    requires h < |l.http.value.hosts| && l.http.value.hosts[h].host == Some(slot.host)
    requires k < |l.http.value.hosts[h].rules| && l.http.value.hosts[h].rules[k] == RuleOf(t.paths[slot])
    ensures AsksFor(ctx.class_, ing, r, q, l, h, k)
  {
    hide Settle, PathRef.PoolName;
    SettledPortsFit(ctx.class_, ing);
    var s := Settle(ctx.class_, ing).settings;
    r, q :| 0 <= r < |ing.rules| && 0 <= q < ing.PathCount(r)
      && IsPathOf(ing, s, r, q, slot, t.paths[slot], t.protocols[slot.port]);
    SettingsIff(ctx.class_, ing, s);
    RuleOfServes(ing.rules[r].http.value[q], ing, r, q, s.webSocket);
    assert AsksWith(s, ing, r, q, l, h, k);
  }

  /** The converse of `NoSilentDropEndToEnd`: every rule in the payload was asked for by an accepted ingress, with
      this port, protocol, host, matcher and web socket setting, and it leads to the pool of that very path. */
  lemma NoRuleIsInvented(i: Inputs, b: Build, f: Frame, ids: map<string, string>, p: Api.Payload, l: nat, h: nat,
                         k: nat)
    requires IsBuild(i, b) && f.class_ == i.class_ && IsCreatePayload(f, b.tree, ids, p)
    requires l < |p.listeners| && p.listeners[l].http.Some? && h < |p.listeners[l].http.value.hosts|
    requires k < |p.listeners[l].http.value.hosts[h].rules|
    ensures SomeoneAsksFor(i.class_, i.ingresses, p.listeners[l], h, k)
  {
    hide IsBuild, AdmitAll, TreeInv, LiveListeners, ArePools, ListenerOf, Hosts, Rules, PathFrom, AsksFor, PortsOf,
         RuleOf, SomePoolFrom, SomeCertificateFrom;
    var t := b.tree;
    var ctx, order := BuildFacts(i, b);
    var port := ListenerOrigin(f.class_, t, ids, l);
    ListenerPort(f.class_, t, ids, port);
    var host := HostOrigin(t, port, h);
    var slot := RuleOrigin(t, port, host, k);
    assert SomePathFrom(ctx, order, slot, t.paths[slot], t.protocols[slot.port]);
    var n :| 0 <= n < |order| && PathFrom(ctx, order[n], slot, t.paths[slot], t.protocols[slot.port]);
    var r, q := SlotIsAskedFor(ctx, t, order[n], slot, p.listeners[l], h, k);
    assert order[n] in multiset(i.ingresses);
  }

  /** The pool is the one that the service named by path (r, q) of the ingress calls for. */
  ghost predicate CallsFor(ctx: Context, ing: Ingress, r: nat, q: nat, pool: Api.TargetPool) {
    && r < |ing.rules| && q < ing.PathCount(r)
    && var backend := ing.rules[r].http.value[q].backend;
    && backend.Some? && ObjectKey(ing.namespace, backend.value.service) in ctx.services
    && PoolConfigured(ctx, ctx.services[ObjectKey(ing.namespace, backend.value.service)], ing, RefOf(ing, r, q),
                      backend.value, pool)
  }

  ghost predicate SomeoneCallsFor(i: Inputs, pool: Api.TargetPool) {
    exists targets, ing, r: nat, q: nat ::
      IsTargets(Candidates(i.nodes), targets) && ing in i.ingresses && CallsFor(ContextOf(i, targets), ing, r, q, pool)
  }

  lemma PoolIsCalledFor(ctx: Context, ing: Ingress, ref: PathRef, pool: Api.TargetPool) returns (r: nat, q: nat)
    requires PoolFrom(ctx, ing, ref, pool)
    ensures CallsFor(ctx, ing, r, q, pool)
  {
    hide PoolForService, PoolConfigured, PathRef.PoolName;
    r, q :| 0 <= r < |ing.rules| && 0 <= q < ing.PathCount(r) && IsPoolOf(ctx, ing, r, q, ref, pool);
    var backend := ing.rules[r].http.value[q].backend.value;
    PoolIsConfigured(ctx, ctx.services[ObjectKey(ing.namespace, backend.service)], ing, ref, backend, pool);
  }

  /** Every pool of the payload is named after a path of some ingress, and it has the node port, the TLS settings
      and the targets that the service of that path, the annotations and the nodes call for. */
  lemma NoPoolIsInvented(i: Inputs, b: Build, f: Frame, ids: map<string, string>, p: Api.Payload, k: nat)
    requires IsBuild(i, b) && IsCreatePayload(f, b.tree, ids, p) && k < |p.targetPools|
    ensures SomeoneCallsFor(i, p.targetPools[k])
  {
    hide IsBuild, AdmitAll, TreeInv, LiveListeners, ArePools, PoolFrom, CallsFor, SomePathFrom, SomeCertificateFrom,
         IsTargets, ContextOf;
    var ctx, order := BuildFacts(i, b);
    var ref := PoolOrigin(b.tree, p.targetPools, k);
    assert SomePoolFrom(ctx, order, ref, p.targetPools[k]);
    var n :| 0 <= n < |order| && PoolFrom(ctx, order[n], ref, p.targetPools[k]);
    var r, q := PoolIsCalledFor(ctx, order[n], ref, p.targetPools[k]);
    assert order[n] in multiset(i.ingresses);
  }

  /** Some accepted ingress with this HTTPS port has a valid certificate with the fingerprint. */
  ghost predicate SomeoneHas(i: Inputs, f: string, port: nat) {
    exists ing, s, n: nat :: ing in i.ingresses && HasSettings(i.class_, ing, s) && s.httpsPort == port
      && HasCertificateAt(i, ing, n, f)
  }

  /** The secret of TLS entry `n` is a valid certificate with this fingerprint. */
  ghost predicate HasCertificateAt(i: Inputs, ing: Ingress, n: nat, f: string) {
    n < |ing.tls|
    && var key, secrets := ObjectKey(ing.namespace, ing.tls[n]), IndexSecrets(i.secrets);
    key in secrets && secrets[key].isTls && secrets[key].fingerprint == Ok(f)
  }

  lemma CertificateFromIff(i: Inputs, ing: Ingress, f: string, port: nat)
    ensures CertificateFrom(ContextOf(i, []), ing, f, port) <==>
              exists s, n: nat :: HasSettings(i.class_, ing, s) && s.httpsPort == port && HasCertificateAt(i, ing, n, f)
  {
    var ctx := ContextOf(i, []);
    forall n: nat ensures IsCertificateOf(ctx, ing, n, f) <==> HasCertificateAt(i, ing, n, f) { }
    assert forall n: nat | HasCertificateAt(i, ing, n, f) :: |ing.tls| > 0;
    SettledPortsFit(i.class_, ing);
    hide Settle, HasSettings, IsCertificateOf, HasCertificateAt;
    forall s ensures Settle(i.class_, ing) == Accepted(s) <==> HasSettings(i.class_, ing, s) {
      SettingsIff(i.class_, ing, s);
    }
    if CertificateFrom(ctx, ing, f, port) {
      var n: nat :| IsCertificateOf(ctx, ing, n, f);
      assert HasSettings(i.class_, ing, Settle(i.class_, ing).settings) && HasCertificateAt(i, ing, n, f);
    }
  }

  lemma HasIgnoresOrder(i: Inputs, ctx: Context, order: seq<Ingress>, f: string, port: nat)
    requires ctx == ContextOf(i, ctx.targets) && multiset(order) == multiset(i.ingresses)
    ensures SomeCertificateFrom(ctx, order, f, port) <==> SomeoneHas(i, f, port)
  {
    hide Settle, IsCertificateOf;
    forall ing ensures ing in order <==> ing in i.ingresses {
      assert ing in multiset(order) <==> ing in multiset(i.ingresses);
    }
    forall ing ensures CertificateFrom(ctx, ing, f, port) <==> CertificateFrom(ContextOf(i, []), ing, f, port) {
      CertificateIgnoresTargets(ctx, ContextOf(i, []), ing, f, port);
    }
    hide CertificateFrom;
    forall ing { CertificateFromIff(i, ing, f, port); }
    if SomeoneHas(i, f, port) {
      var ing :| ing in i.ingresses && CertificateFrom(ContextOf(i, []), ing, f, port);
      var k :| 0 <= k < |order| && order[k] == ing;
    }
  }

  lemma CertificateIgnoresTargets(ctx: Context, other: Context, ing: Ingress, f: string, port: nat)
    requires other == ctx.(targets := other.targets)
    ensures CertificateFrom(ctx, ing, f, port) <==> CertificateFrom(other, ing, f, port)
  {
    hide Settle;
    forall k: nat ensures IsCertificateOf(ctx, ing, k, f) <==> IsCertificateOf(other, ing, k, f) { }
  }

  /** An HTTPS listener of the payload presents exactly the known certificates that accepted ingresses with this
      HTTPS port have in valid secrets. */
  lemma CertificatesComeFromIngresses(i: Inputs, b: Build, f: Frame, ids: map<string, string>, p: Api.Payload,
                                      l: nat, port: nat, id: string)
    requires IsBuild(i, b) && f.class_ == i.class_ && IsCreatePayload(f, b.tree, ids, p)
    requires l < |p.listeners| && p.listeners[l].protocol == Some(Api.HTTPS) && p.listeners[l].port == Some(port)
    ensures id in Api.ListenerCertificateIds(p.listeners[l])
            <==> exists x :: x in ids && ids[x] == id && SomeoneHas(i, x, port)
  {
    hide IsBuild, AdmitAll, TreeInv, LiveListeners, ArePools, PortsOf, Sound, SomeCertificateFrom, SomeoneHas,
         CertificateIds, ListenerOf;
    var t := b.tree;
    var ctx, order := BuildFacts(i, b);
    var at := ListenerOrigin(f.class_, t, ids, l);
    ListenerPort(f.class_, t, ids, at);
    IdsOfHttpsListener(f.class_, t, ids, at);
    IdsOfListener(t, ids, port);
    forall x ensures x in FingerprintsFor(t, ids, port) <==> x in ids && SomeoneHas(i, x, port) {
      CertificatesAreExact(ctx, order, x, port);
      HasIgnoresOrder(i, ctx, order, x, port);
    }
  }

  lemma IdsOfHttpsListener(cls: IngressClass, t: WorkTree, ids: map<string, string>, port: nat)
    requires ProtocolAt(t, port) == Api.HTTPS
    ensures Api.ListenerCertificateIds(ListenerOf(cls, t, ids, port)) == CertificateIds(t, ids, port)
  {
    hide CertificateIds, Hosts, Names.Decimal;
  }

  // ---- events ----

  /** In a list with distinct names nothing occurs twice. */
  lemma OccursOnce(ings: seq<Ingress>, x: Ingress)
    requires DistinctKeys(ings)
    ensures multiset(ings)[x] <= 1
  {
    if x in ings {
      var k :| 0 <= k < |ings| && ings[k] == x;
      assert ings == ings[..k] + [x] + ings[k + 1..];
      assert x !in ings[..k] && x !in ings[k + 1..];
    }
  }

  lemma OccursTwice(order: seq<Ingress>, i: nat, j: nat)
    requires i < j < |order| && order[i] == order[j]
    ensures multiset(order)[order[i]] >= 2
  {
    assert order == order[..j] + [order[j]] + order[j + 1..];
    assert order[..j][i] in multiset(order[..j]);
  }

  lemma ReorderingKeepsKeys(ings: seq<Ingress>, order: seq<Ingress>)
    requires multiset(order) == multiset(ings) && DistinctKeys(ings)
    ensures DistinctKeys(order)
  {
    forall i, j | 0 <= i < j < |order| ensures order[i].Key() != order[j].Key() {
      assert order[i] in multiset(ings) && order[j] in multiset(ings);
      if order[i] == order[j] {
        OccursTwice(order, i, j);
        OccursOnce(ings, order[i]);
      }
    }
  }

  lemma JustifiedIgnoresTargets(ctx: Context, other: Context, ing: Ingress, e: ErrorEvent, t: WorkTree)
    requires other == ctx.(targets := other.targets) && Justified(ctx, ing, e, t)
    ensures Justified(other, ing, e, t)
  {
    hide HasSettings, Misconfigured, PortDecided, Undecidable, Taken, Occupied;
    if s :| HasSettings(ctx.class_, ing, s) && True(ctx, ing, s, e, t) { assert True(other, ing, s, e, t); }
  }

  /** The converse of "no silent drop" for events: whatever the order of admission, each event names an ingress of the
      cluster and gives a true reason. */
  lemma NoFalseAlarm(i: Inputs, b: Build, e: ErrorEvent)
    requires IsBuild(i, b) && DistinctKeys(i.ingresses) && e in b.events
    ensures exists ing :: ing in i.ingresses && Justified(ContextOf(i, []), ing, e, b.tree)
  {
    hide IsBuild, AdmitAll, TreeInv, Sound, DistinctKeys, Justified, IsTargets;
    var ctx, order := BuildFacts(i, b);
    ReorderingKeepsKeys(i.ingresses, order);
    EventsAreJustified(ctx, order);
    var n :| 0 <= n < |b.events| && b.events[n] == e;
    assert SomeoneJustifies(ctx, order, b.events[n], b.tree);
    var k :| 0 <= k < |order| && Justified(ctx, order[k], e, b.tree);
    assert order[k] in multiset(i.ingresses);
    JustifiedIgnoresTargets(ctx, ContextOf(i, []), order[k], e, b.tree);
  }
}
