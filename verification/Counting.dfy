/** Why a limit on target pools also limits the rules: each pool serves one path per protocol. */
module Counting {
  import opened Kube
  import opened Tree
  import opened TreeProperties
  import opened Cardinality
  import Api = AlbApi

  /** A path reference is stored at most once per protocol. */
  ghost predicate OncePerProtocol(t: WorkTree) {
    forall a, b | a in t.paths && b in t.paths && a.port in t.protocols && b.port in t.protocols
      && t.paths[a].ref == t.paths[b].ref && t.protocols[a.port] == t.protocols[b.port] :: a == b
  }

  ghost predicate NotYet(t: WorkTree, ref: PathRef, protocol: Api.Protocol) {
    forall a | a in t.paths && t.paths[a].ref == ref && a.port in t.protocols :: t.protocols[a.port] != protocol
  }

  lemma InsertPathOnce(t: WorkTree, slot: Slot, path: TreePath, protocol: Api.Protocol)
    requires OncePerProtocol(t) && NotYet(t, path.ref, protocol) && slot !in t.paths
    requires forall a | a in t.paths :: a.port in t.protocols
    requires slot.port in t.protocols ==> t.protocols[slot.port] == protocol
    ensures var u := t.(protocols := t.protocols[slot.port := protocol], paths := t.paths[slot := path]);
      && OncePerProtocol(u)
      && forall other | other != protocol && NotYet(t, path.ref, other) :: NotYet(u, path.ref, other)
  {
  }

  lemma AddPathOnce(b: Build, ing: Ingress, r: nat, p: nat, port: nat, protocol: Api.Protocol, ws: bool)
    requires r < |ing.rules| && p < ing.PathCount(r)
    requires PathsInv(b.tree) && OncePerProtocol(b.tree) && NotYet(b.tree, RefOf(ing, r, p), protocol)
    ensures OncePerProtocol(AddPath(b, ing, r, p, port, protocol, ws).build.tree)
    ensures forall other | other != protocol && NotYet(b.tree, RefOf(ing, r, p), other) ::
              NotYet(AddPath(b, ing, r, p, port, protocol, ws).build.tree, RefOf(ing, r, p), other)
  {
    var slot := SlotOf(ing, r, p, port);
    assert forall a | a in b.tree.paths :: a.port in b.tree.protocols;
    hide OncePerProtocol, NotYet, PathsInv, KeyOf;
    if AddPath(b, ing, r, p, port, protocol, ws).added {
      InsertPathOnce(b.tree, slot, TreePath(slot.key, RefOf(ing, r, p), ws), protocol);
    }
  }

  lemma AddBothOnce(b: Build, ing: Ingress, s: Settings, r: nat, p: nat)
    requires r < |ing.rules| && p < ing.PathCount(r) && PortsFit(ing, s)
    requires PathsInv(b.tree) && OncePerProtocol(b.tree) && forall protocol ::
               NotYet(b.tree, RefOf(ing, r, p), protocol)
    ensures var u := AddHttps(AddHttp(b, ing, s, r, p).build, ing, s, r, p).build.tree;
      OncePerProtocol(u) && u.pools == b.tree.pools
  {
    hide AddPath, PathsInv, OncePerProtocol, NotYet, TreeGrows, EventsGrow, Bound, SlotOf;
    if !s.httpsOnly {
      AddPathOnce(b, ing, r, p, Uint16(s.httpPort), Api.HTTP, s.webSocket);
      AddPathEffect(b, ing, r, p, Uint16(s.httpPort), Api.HTTP, s.webSocket);
    }
    var http := AddHttp(b, ing, s, r, p);
    if |ing.tls| > 0 {
      AddPathOnce(http.build, ing, r, p, Uint16(s.httpsPort), Api.HTTPS, s.webSocket);
      AddPathEffect(http.build, ing, r, p, Uint16(s.httpsPort), Api.HTTPS, s.webSocket);
    }
  }

  lemma AdmitPathOnce(ctx: Context, b: Build, ing: Ingress, s: Settings, r: nat, p: nat)
    requires r < |ing.rules| && p < ing.PathCount(r) && PortsFit(ing, s)
    requires TreeInv(ctx, b.tree) && OncePerProtocol(b.tree) && RefOf(ing, r, p) !in b.tree.pools
    ensures OncePerProtocol(AdmitPath(ctx, b, ing, s, r, p).tree)
    ensures AdmitPath(ctx, b, ing, s, r, p).tree.pools.Keys <= b.tree.pools.Keys + {RefOf(ing, r, p)}
  {
    hide TargetPoolFor, AddHttp, AddHttps, PathsInv, PathsHavePools, PoolsHavePaths, PoolsNamed, NotYet, PortsFit;
    var result := TargetPoolFor(ctx, b.tree, ing, r, p);
    var reported := b.(events := b.events + EventsFor(ing, result.kinds, r, p));
    UnseenRef(b.tree, RefOf(ing, r, p));
    AddBothOnce(reported, ing, s, r, p);
  }

  lemma UnseenRef(t: WorkTree, ref: PathRef)
    requires PathsHavePools(t) && ref !in t.pools
    ensures forall protocol :: NotYet(t, ref, protocol)
  {
  }

  /** No pool of the ingress at or after path `p` of rule `r` exists yet. */
  ghost predicate FreshFrom(t: WorkTree, ing: Ingress, r: nat, p: nat) {
    forall ref | ref in t.pools && ref.Owner() == ing.Key() :: ref.rule < r || (ref.rule == r && ref.path < p)
  }

  ghost predicate CountInv(ctx: Context, t: WorkTree) {
    TreeInv(ctx, t) && OncePerProtocol(t)
  }

  lemma {:induction false} AdmitPathsOnce(ctx: Context, b: Build, ing: Ingress, s: Settings, r: nat, n: nat)
    requires r < |ing.rules| && n <= ing.PathCount(r) && PortsFit(ing, s)
    requires CountInv(ctx, b.tree) && FreshFrom(b.tree, ing, r, 0)
    ensures var t' := AdmitPathsUpTo(ctx, b, ing, s, r, n).tree; CountInv(ctx, t') && FreshFrom(t', ing, r, n)
  {
    hide AdmitPath, TreeInv, OncePerProtocol, PortsFit;
    if n > 0 {
      var m := AdmitPathsUpTo(ctx, b, ing, s, r, n - 1);
      AdmitPathsOnce(ctx, b, ing, s, r, n - 1);
      AdmitPathOnce(ctx, m, ing, s, r, n - 1);
      AdmitPathEffect(ctx, m, ing, s, r, n - 1);
    }
  }

  lemma {:induction false} AdmitRulesOnce(ctx: Context, b: Build, ing: Ingress, s: Settings, n: nat)
    requires n <= |ing.rules| && PortsFit(ing, s) && CountInv(ctx, b.tree) && FreshFrom(b.tree, ing, 0, 0)
    ensures var t' := AdmitRulesUpTo(ctx, b, ing, s, n).tree; CountInv(ctx, t') && FreshFrom(t', ing, n, 0)
  {
    hide AdmitPathsUpTo, CountInv, PortsFit;
    if n > 0 {
      var m := AdmitRulesUpTo(ctx, b, ing, s, n - 1);
      AdmitRulesOnce(ctx, b, ing, s, n - 1);
      AdmitPathsOnce(ctx, m, ing, s, n - 1, ing.PathCount(n - 1));
    }
  }

  lemma {:induction false} AdmitTlsOnce(ctx: Context, b: Build, ing: Ingress, s: Settings, n: nat)
    requires n <= |ing.tls|
    ensures var t' := AdmitTlsUpTo(ctx, b, ing, s, n).tree;
      t'.paths == b.tree.paths && t'.protocols == b.tree.protocols && t'.pools == b.tree.pools
  {
    if n > 0 { AdmitTlsOnce(ctx, b, ing, s, n - 1); }
  }

  lemma AdmitIngressOnce(ctx: Context, b: Build, ing: Ingress)
    requires CountInv(ctx, b.tree) && FreshFrom(b.tree, ing, 0, 0)
    ensures CountInv(ctx, AdmitIngress(ctx, b, ing).tree)
  {
    hide TreeInv, Settle, AdmitTlsUpTo, AdmitRulesUpTo, PortsFit;
    var verdict := Settle(ctx.class_, ing);
    SettledPortsFit(ctx.class_, ing);
    AdmitIngressEffect(ctx, b, ing);
    if verdict.Accepted? {
      var s := verdict.settings;
      AdmitTlsOnce(ctx, b, ing, s, |ing.tls|);
      AdmitTlsUpToEffect(ctx, b, ing, s, |ing.tls|);
      if |ing.tls| > 0 || !s.httpsOnly {
        AdmitRulesOnce(ctx, AdmitTlsUpTo(ctx, b, ing, s, |ing.tls|), ing, s, |ing.rules|);
      }
    }
  }

  lemma {:induction false} AdmitAllOnce(ctx: Context, ings: seq<Ingress>)
    requires DistinctKeys(ings)
    ensures CountInv(ctx, AdmitAll(ctx, EMPTY_BUILD, ings).tree)
  {
    EmptyTreeInv(ctx);
    if ings != [] {
      hide TreeInv, CountInv, AdmitIngress, TreeGrows, FreshFrom;
      var n := |ings| - 1;
      var m := AdmitAll(ctx, EMPTY_BUILD, ings[..n]);
      AdmitAllOnce(ctx, ings[..n]);
      AdmitAllKeepsInv(ctx, EMPTY_BUILD, ings[..n]);
      LastIsFresh(m.tree, ings);
      AdmitIngressOnce(ctx, m, ings[n]);
    }
  }

  lemma LastIsFresh(t: WorkTree, ings: seq<Ingress>)
    requires ings != [] && DistinctKeys(ings) && TreeGrows(EMPTY_TREE, t, Keys(ings[..|ings| - 1]))
    ensures FreshFrom(t, ings[|ings| - 1], 0, 0)
  {
  }

  // ---- the bound ----

  ghost function SlotsOf(t: WorkTree, protocol: Api.Protocol): set<Slot> {
    set a | a in t.paths && a.port in t.protocols && t.protocols[a.port] == protocol
  }

  lemma PathsPerProtocol(t: WorkTree, protocol: Api.Protocol)
    requires OncePerProtocol(t) && PathsHavePools(t)
    ensures |SlotsOf(t, protocol)| <= |t.pools|
  {
    var refOf := (a: Slot) => if a in t.paths then t.paths[a].ref else PathRef("", "", "", 0, 0);
    InjectionSize(refOf, SlotsOf(t, protocol), t.pools.Keys);
  }

  lemma EveryPathHasAProtocol(t: WorkTree)
    requires PathsInv(t)
    ensures |t.paths| <= |SlotsOf(t, Api.HTTP)| + |SlotsOf(t, Api.HTTPS)|
  {
    assert t.paths.Keys <= SlotsOf(t, Api.HTTP) + SlotsOf(t, Api.HTTPS);
    SubsetSize(t.paths.Keys, SlotsOf(t, Api.HTTP) + SlotsOf(t, Api.HTTPS));
  }

  /** However many ingresses there are, the tree has at most twenty pools and at most two rules per pool. */
  lemma RulesAreBoundedByPools(ctx: Context, ings: seq<Ingress>)
    requires DistinctKeys(ings)
    ensures var t := AdmitAll(ctx, EMPTY_BUILD, ings).tree;
      |t.pools| <= LIMIT_TARGET_POOLS && |t.paths| <= 2 * |t.pools|
  {
    hide AdmitAll, PathsInv, OncePerProtocol, PathsHavePools, PoolsHavePaths, PoolsNamed, CertificatesInv, SlotsOf;
    var t := AdmitAll(ctx, EMPTY_BUILD, ings).tree;
    AdmitAllOnce(ctx, ings);
    PathsPerProtocol(t, Api.HTTP);
    PathsPerProtocol(t, Api.HTTPS);
    EveryPathHasAProtocol(t);
  }
}
