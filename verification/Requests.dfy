/** From the path of an ingress to the request: which requests reach the pool of the path. */
module Requests {
  import opened Options
  import opened Kube
  import opened Names
  import opened Sorting
  import opened Tree
  import opened Configuration
  import opened TreeProperties
  import opened Compiler
  import opened Payload
  import opened PayloadProperties
  import opened Routing
  import opened Claims
  import opened Provenance
  import opened EndToEnd
  import Api = AlbApi

  /** The key of a path is its text with its type; a missing type counts as exact. */
  lemma KeyIsTypeAndText(path: HttpPath)
    ensures KeyOf(path).path == path.path
    ensures path.pathType == Some(KeyOf(path).pathType) || (path.pathType.None? && KeyOf(path).pathType == Exact)
  {
  }

  /** The path asks for this request. */
  predicate Serves(path: HttpPath, request: string) {
    if path.pathType == Some(Prefix) then path.path <= request else path.path == request
  }

  /** An entry of this type and text is more specific for the request than the path. */
  predicate Beats(kind: PathType, text: string, path: HttpPath, request: string) {
    if path.pathType == Some(Prefix)
    then (if kind == Prefix then text <= request && |text| > |path.path| else text == request)
    else path.pathType == Some(ImplementationSpecific) && kind == Exact && text == request
  }

  /** Nothing stored for the port and host is more specific for the request than the path. */
  ghost predicate Unbeaten(t: WorkTree, port: nat, host: string, path: HttpPath, request: string) {
    forall slot | slot in t.paths && slot.port == port && slot.host == host ::
      !Beats(slot.key.pathType, slot.key.path, path, request)
  }

  /** Then the path is the most specific one. */
  lemma UnbeatenIsMostSpecific(t: WorkTree, port: nat, host: string, path: HttpPath, request: string)
    requires Slot(port, host, KeyOf(path)) in t.paths && Serves(path, request)
    requires Unbeaten(t, port, host, path, request)
    ensures MostSpecific(KeysAt(t, port, host), request) == Some(KeyOf(path))
  {
    var keys, key := KeysAt(t, port, host), KeyOf(path);
    assert key in keys;
    forall k | k in keys ensures !Beats(k.pathType, k.path, path, request) {
      var slot :| slot in t.paths && slot.port == port && slot.host == host && slot.key == k;
    }
    hide KeysAt, Unbeaten, LongestPrefix;
    KeyIsTypeAndText(path);
    LongestPrefixIsLongest(keys, request, |request|);
    if path.pathType == Some(Prefix) {
      var best := LongestPrefix(keys, request, |request|);
      assert |key.path| <= |request| && best.Some?;
      assert best.value.path == request[..|best.value.path|] && key.path == request[..|key.path|];
      assert best.value == key;
      assert PathKey(Exact, request) !in keys && PathKey(ImplementationSpecific, request) !in keys;
    } else if path.pathType == Some(ImplementationSpecific) {
      assert PathKey(Exact, request) !in keys;
    }
  }

  /** A request reaches the pool of the stored path that asks for it, unless something more specific is stored. */
  lemma RequestReachesPath(t: WorkTree, ing: Ingress, r: nat, q: nat, port: nat, protocol: Api.Protocol, ws: bool,
                           request: string)
    requires r < |ing.rules| && q < ing.PathCount(r) && PathsInv(t) && Bound(t, ing, r, q, port, protocol, ws)
    requires Serves(ing.rules[r].http.value[q], request)
    requires Unbeaten(t, port, ing.rules[r].host, ing.rules[r].http.value[q], request)
    ensures FirstMatch(Rules(t, port, ing.rules[r].host), request) == Some(PoolName(ing.uid, r, q))
  {
    hide PathsInv, Rules, FirstMatch, Unbeaten, MostSpecific, KeysAt, PathRef.PoolName, PoolName;
    RoutingIsMostSpecific(t, port, ing.rules[r].host, request);
    UnbeatenIsMostSpecific(t, port, ing.rules[r].host, ing.rules[r].http.value[q], request);
    RefName(ing, r, q);
  }

  // ---- in the payload ----

  /** The listener on the port has the host, and sends the request to the pool. */
  ghost predicate Routes(ls: seq<Api.Listener>, port: int, protocol: Api.Protocol, host: string, request: string,
                         pool: string) {
    exists l, h :: 0 <= l < |ls| && RoutesAt(ls[l], h, port, protocol, host, request, pool)
  }

  ghost predicate RoutesAt(l: Api.Listener, h: int, port: int, protocol: Api.Protocol, host: string, request: string,
                           pool: string) {
    && l.port == Some(port) && l.protocol == Some(protocol) && l.http.Some?
    && 0 <= h < |l.http.value.hosts| && l.http.value.hosts[h].host == Some(host)
    && FirstMatch(l.http.value.hosts[h].rules, request) == Some(pool)
  }

  lemma HostRoutes(cls: IngressClass, t: WorkTree, ids: map<string, string>, slot: Slot, protocol: Api.Protocol,
                   request: string, pool: string)
    requires slot in t.paths && slot.port in PortsOf(t, ids) && ProtocolAt(t, slot.port) == protocol
    requires FirstMatch(Rules(t, slot.port, slot.host), request) == Some(pool)
    ensures Routes(OrDummy(LiveListeners(cls, t, ids)), slot.port, protocol, slot.host, request, pool)
  {
    hide Hosts, Rules, SortPorts, PortsOf, CertificateIds, Decimal, FirstMatch;
    var i := PortIndex(t, ids, slot.port);
    ListenerPort(cls, t, ids, slot.port);
    var ls := OrDummy(LiveListeners(cls, t, ids));
    assert ls[i] == ListenerOf(cls, t, ids, slot.port);
    var h := HostIndex(t, slot);
    assert RoutesAt(ls[i], h, slot.port, protocol, slot.host, request, pool);
  }

  /** End to end: if no event names the ingress, each request that one of its paths asks for reaches the pool of that
      path, on every protocol the ingress asked for, unless something more specific is stored for the host. */
  lemma RequestsReachPools(i: Inputs, b: Build, f: Frame, ids: map<string, string>, p: Api.Payload, ing: Ingress,
                           s: Settings, r: nat, q: nat, protocol: Api.Protocol, request: string)
    requires IsBuild(i, b) && ing in i.ingresses && f.class_ == i.class_ && HasSettings(i.class_, ing, s)
    requires b.tree.certificates.Keys <= ids.Keys && IsCreatePayload(f, b.tree, ids, p)
    requires forall e | e in b.events :: e.ingress != ing.Key()
    requires r < |ing.rules| && q < ing.PathCount(r) && (if protocol == Api.HTTP then !s.httpsOnly else ing.tls != [])
    requires Serves(ing.rules[r].http.value[q], request)
    requires Unbeaten(b.tree, if protocol == Api.HTTP then s.httpPort else s.httpsPort, ing.rules[r].host,
                      ing.rules[r].http.value[q], request)
    ensures Routes(p.listeners, if protocol == Api.HTTP then s.httpPort else s.httpsPort, protocol, ing.rules[r].host,
                   request, PoolName(ing.uid, r, q))
  {
    hide IsBuild, HasSettings, AdmitAll, Sound, TreeInv, ArePools, LiveListeners, FullyServed, PoolName, Unbeaten,
         Rules,
         FirstMatch, Routes, Bound, Settle, PortsOf, SlotOf;
    var ctx, order := BuildFacts(i, b);
    assert ing in multiset(order);
    var k :| 0 <= k < |order| && order[k] == ing;
    NoSilentDrop(ctx, order, k);
    SettingsIff(i.class_, ing, s);
    SettledPortsFit(i.class_, ing);
    var port := if protocol == Api.HTTP then s.httpPort else s.httpsPort;
    ServedPath(ctx, b.tree, ing, s, r, q, protocol);
    assert PathsInv(b.tree) by { InvHasPaths(ctx, b.tree); }
    RequestReachesPath(b.tree, ing, r, q, port, protocol, s.webSocket, request);
    SlotFields(ing, r, q, port);
    BoundIsServed(b.tree, ids, ing, s, r, q, port, protocol);
    HostRoutes(i.class_, b.tree, ids, SlotOf(ing, r, q, port), protocol, request, PoolName(ing.uid, r, q));
  }

  lemma InvHasPaths(ctx: Context, t: WorkTree)
    requires TreeInv(ctx, t)
    ensures PathsInv(t)
  {
  }

  lemma SlotFields(ing: Ingress, r: nat, q: nat, port: nat)
    requires r < |ing.rules| && q < ing.PathCount(r)
    ensures SlotOf(ing, r, q, port).port == port && SlotOf(ing, r, q, port).host == ing.rules[r].host
  {
  }

  lemma ServedPath(ctx: Context, t: WorkTree, ing: Ingress, s: Settings, r: nat, q: nat, protocol: Api.Protocol)
    requires FullyServed(ctx.class_, t, ing) && Settle(ctx.class_, ing) == Accepted(s) && PortsFit(ing, s)
    requires r < |ing.rules| && q < ing.PathCount(r) && (if protocol == Api.HTTP then !s.httpsOnly else ing.tls != [])
    ensures Bound(t, ing, r, q, if protocol == Api.HTTP then s.httpPort else s.httpsPort, protocol, s.webSocket)
    ensures protocol == Api.HTTPS ==> HasCertificate(t, s.httpsPort)
  {
    hide Bound, Settle, HasCertificate;
    assert Served(t, ing, s, r, q);
  }

  lemma BoundIsServed(t: WorkTree, ids: map<string, string>, ing: Ingress, s: Settings, r: nat, q: nat, port: nat,
                      protocol: Api.Protocol)
    requires r < |ing.rules| && q < ing.PathCount(r) && Bound(t, ing, r, q, port, protocol, s.webSocket)
    requires (protocol == Api.HTTPS ==> HasCertificate(t, port)) && t.certificates.Keys <= ids.Keys
    ensures SlotOf(ing, r, q, port) in t.paths && port in PortsOf(t, ids) && ProtocolAt(t, port) == protocol
  {
    hide SlotOf;
    if protocol == Api.HTTPS {
      var f :| f in t.certificates && port in t.certificates[f].ports;
      assert f in FingerprintsFor(t, ids, port);
    }
  }

  // ---- the order of rules ----

  /** Rules are listed by path type, then longest first, then in lexical order of their text. */
  ghost predicate DocumentedRuleOrder(a: PathKey, b: PathKey) {
    || (a.pathType == Exact && b.pathType != Exact)
    || (a.pathType == ImplementationSpecific && b.pathType == Prefix)
    || (a.pathType == b.pathType && |a.path| > |b.path|)
    || (a.pathType == b.pathType && |a.path| == |b.path| && StrLess(a.path, b.path))
  }

  lemma RulesAreInDocumentedOrder(t: WorkTree, port: nat, host: string, i: nat, j: nat)
    requires i < j < |SortKeys(KeysAt(t, port, host))|
    ensures DocumentedRuleOrder(SortKeys(KeysAt(t, port, host))[i], SortKeys(KeysAt(t, port, host))[j])
  {
    KeyBeforeTotal();
    SortOfSet(KeysAt(t, port, host), KeyBefore);
  }
}
