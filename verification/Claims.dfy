/** Who gets a slot: the first path, in the order of admission, that may have it. */
module Claims {
  import opened Options
  import opened Kube
  import opened Tree
  import opened TreeProperties
  import opened Counting
  import Api = AlbApi

  // ---- what comes later does not store this path ----

  /** `u` keeps the protocols and paths of `t`, and no new path refers to `ref`. */
  ghost predicate Later(t: WorkTree, u: WorkTree, ref: PathRef) {
    && (forall port | port in t.protocols :: port in u.protocols && u.protocols[port] == t.protocols[port])
    && (forall slot | slot in t.paths :: slot in u.paths && u.paths[slot] == t.paths[slot])
    && (forall slot | slot in u.paths && slot !in t.paths :: u.paths[slot].ref != ref)
  }

  lemma LaterTransitive(t: WorkTree, u: WorkTree, v: WorkTree, ref: PathRef)
    requires Later(t, u, ref) && Later(u, v, ref)
    ensures Later(t, v, ref)
  {
  }

  lemma AddPathLater(b: Build, ing: Ingress, r: nat, p: nat, port: nat, protocol: Api.Protocol, ws: bool, ref: PathRef)
    requires r < |ing.rules| && p < ing.PathCount(r) && ref != RefOf(ing, r, p)
    ensures Later(b.tree, AddPath(b, ing, r, p, port, protocol, ws).build.tree, ref)
  {
  }

  lemma AdmitPathLater(ctx: Context, b: Build, ing: Ingress, s: Settings, r: nat, p: nat, ref: PathRef)
    requires r < |ing.rules| && p < ing.PathCount(r) && ref != RefOf(ing, r, p)
    ensures Later(b.tree, AdmitPath(ctx, b, ing, s, r, p).tree, ref)
  {
    hide TargetPoolFor, AddPath;
    var result := TargetPoolFor(ctx, b.tree, ing, r, p);
    var reported := b.(events := b.events + EventsFor(ing, result.kinds, r, p));
    var http := AddHttp(reported, ing, s, r, p);
    AddPathLater(reported, ing, r, p, Uint16(s.httpPort), Api.HTTP, s.webSocket, ref);
    AddPathLater(http.build, ing, r, p, Uint16(s.httpsPort), Api.HTTPS, s.webSocket, ref);
  }

  lemma {:induction false} PathsLater(ctx: Context, b: Build, ing: Ingress, s: Settings, r: nat, n: nat, m: nat,
                                      ref: PathRef)
    requires r < |ing.rules| && n <= m <= ing.PathCount(r) && forall p | n <= p < m :: ref != RefOf(ing, r, p)
    ensures Later(AdmitPathsUpTo(ctx, b, ing, s, r, n).tree, AdmitPathsUpTo(ctx, b, ing, s, r, m).tree, ref)
  {
    hide AdmitPath;
    if n < m {
      PathsLater(ctx, b, ing, s, r, n, m - 1, ref);
      AdmitPathLater(ctx, AdmitPathsUpTo(ctx, b, ing, s, r, m - 1), ing, s, r, m - 1, ref);
    }
  }

  lemma {:induction false} RulesLater(ctx: Context, b: Build, ing: Ingress, s: Settings, n: nat, m: nat, ref: PathRef)
    requires n <= m <= |ing.rules| && (ref.Owner() != ing.Key() || ref.rule < n || m <= ref.rule)
    ensures Later(AdmitRulesUpTo(ctx, b, ing, s, n).tree, AdmitRulesUpTo(ctx, b, ing, s, m).tree, ref)
  {
    hide AdmitPathsUpTo;
    if n < m {
      RulesLater(ctx, b, ing, s, n, m - 1, ref);
      var before := AdmitRulesUpTo(ctx, b, ing, s, m - 1);
      PathsLater(ctx, before, ing, s, m - 1, 0, ing.PathCount(m - 1), ref);
      assert AdmitPathsUpTo(ctx, before, ing, s, m - 1, 0) == before by { NoPaths(ctx, before, ing, s, m - 1); }
    }
  }

  lemma NoPaths(ctx: Context, b: Build, ing: Ingress, s: Settings, r: nat)
    requires r < |ing.rules|
    ensures AdmitPathsUpTo(ctx, b, ing, s, r, 0) == b
  {
  }

  lemma IngressLater(ctx: Context, b: Build, ing: Ingress, ref: PathRef)
    requires ref.Owner() != ing.Key()
    ensures Later(b.tree, AdmitIngress(ctx, b, ing).tree, ref)
  {
    hide Settle, AdmitTlsUpTo;
    var verdict := Settle(ctx.class_, ing);
    if verdict.Accepted? {
      var tls := AdmitTlsUpTo(ctx, b, ing, verdict.settings, |ing.tls|);
      AdmitTlsOnce(ctx, b, ing, verdict.settings, |ing.tls|);
      RulesLater(ctx, tls, ing, verdict.settings, 0, |ing.rules|, ref);
    }
  }

  lemma {:induction false} AllLater(ctx: Context, ings: seq<Ingress>, k: nat, ref: PathRef)
    requires k <= |ings| && forall j | k <= j < |ings| :: ings[j].Key() != ref.Owner()
    ensures Later(AdmitAll(ctx, EMPTY_BUILD, ings[..k]).tree, AdmitAll(ctx, EMPTY_BUILD, ings).tree, ref)
    decreases |ings|
  {
    hide AdmitIngress;
    if k == |ings| {
      assert ings[..k] == ings;
    } else {
      var n := |ings| - 1;
      assert ings[..n][..k] == ings[..k];
      AllLater(ctx, ings[..n], k, ref);
      IngressLater(ctx, AdmitAll(ctx, EMPTY_BUILD, ings[..n]), ings[n], ref);
    }
  }

  // ---- the turn of a path ----

  /** Everything that is admitted before path (r, p) of ingress `k`. */
  function Turn(ctx: Context, ings: seq<Ingress>, s: Settings, k: nat, r: nat, p: nat): Build
    requires k < |ings| && r < |ings[k].rules| && p <= ings[k].PathCount(r)
  {
    var before := AdmitAll(ctx, EMPTY_BUILD, ings[..k]);
    var tls := AdmitTlsUpTo(ctx, before, ings[k], s, |ings[k].tls|);
    AdmitPathsUpTo(ctx, AdmitRulesUpTo(ctx, tls, ings[k], s, r), ings[k], s, r, p)
  }

  ghost predicate Unheard(t: WorkTree, ref: PathRef) {
    forall slot | slot in t.paths :: t.paths[slot].ref != ref
  }

  /** The ingress asks for this protocol. */
  predicate Wants(ing: Ingress, s: Settings, protocol: Api.Protocol) {
    if protocol == Api.HTTP then !s.httpsOnly else |ing.tls| > 0
  }

  function PortFor(s: Settings, protocol: Api.Protocol): nat {
    Uint16(if protocol == Api.HTTP then s.httpPort else s.httpsPort)
  }

  /** Nobody has the slot, and its port is not in use for the other protocol. */
  predicate Free(t: WorkTree, slot: Slot, protocol: Api.Protocol) {
    slot !in t.paths && (slot.port in t.protocols ==> t.protocols[slot.port] == protocol)
  }

  /** The path may have the slot when it is its turn: there is a pool for it, and the slot is free. HTTPS is dealt
      with after HTTP, so the path can be in its own way if both ports are the same. */
  ghost predicate MayHave(ctx: Context, b: Build, ing: Ingress, s: Settings, r: nat, p: nat, protocol: Api.Protocol)
    requires r < |ing.rules| && p < ing.PathCount(r)
  {
    && TargetPoolFor(ctx, b.tree, ing, r, p).pool.Some?
    && Free(if protocol == Api.HTTP then b.tree else AddHttp(b, ing, s, r, p).build.tree,
            SlotOf(ing, r, p, PortFor(s, protocol)), protocol)
  }

  lemma AddPathBinds(b: Build, ing: Ingress, r: nat, p: nat, port: nat, protocol: Api.Protocol, ws: bool)
    requires r < |ing.rules| && p < ing.PathCount(r) && !Bound(b.tree, ing, r, p, port, protocol, ws)
    ensures Bound(AddPath(b, ing, r, p, port, protocol, ws).build.tree, ing, r, p, port, protocol, ws)
            <==> Free(b.tree, SlotOf(ing, r, p, port), protocol)
  {
    hide KeyOf;
  }

  lemma AddPathSparesOther(b: Build, ing: Ingress, r: nat, p: nat, port: nat, protocol: Api.Protocol, ws: bool,
                           port': nat, protocol': Api.Protocol)
    requires r < |ing.rules| && p < ing.PathCount(r) && protocol' != protocol
    ensures Bound(AddPath(b, ing, r, p, port, protocol, ws).build.tree, ing, r, p, port', protocol', ws)
            <==> Bound(b.tree, ing, r, p, port', protocol', ws)
  {
    hide KeyOf;
  }

  /** Events are not looked at. */
  lemma AddPathIgnoresEvents(b: Build, c: Build, ing: Ingress, r: nat, p: nat, port: nat, protocol: Api.Protocol,
                             ws: bool)
    requires r < |ing.rules| && p < ing.PathCount(r) && b.tree == c.tree
    ensures AddPath(b, ing, r, p, port, protocol, ws).build.tree == AddPath(c, ing, r, p, port, protocol, ws).build.tree
  {
  }

  lemma TurnDecides(ctx: Context, b: Build, ing: Ingress, s: Settings, r: nat, p: nat, protocol: Api.Protocol)
    requires r < |ing.rules| && p < ing.PathCount(r) && Wants(ing, s, protocol) && Unheard(b.tree, RefOf(ing, r, p))
    ensures Bound(AdmitPath(ctx, b, ing, s, r, p).tree, ing, r, p, PortFor(s, protocol), protocol, s.webSocket)
            <==> MayHave(ctx, b, ing, s, r, p, protocol)
  {
    var http, https := PortFor(s, Api.HTTP), PortFor(s, Api.HTTPS);
    assert !Bound(b.tree, ing, r, p, http, Api.HTTP, s.webSocket);
    assert !Bound(b.tree, ing, r, p, https, Api.HTTPS, s.webSocket);
    hide TargetPoolFor, AddPath, Bound, Free, SlotOf;
    var result := TargetPoolFor(ctx, b.tree, ing, r, p);
    var reported := b.(events := b.events + EventsFor(ing, result.kinds, r, p));
    AddPathIgnoresEvents(b, reported, ing, r, p, http, Api.HTTP, s.webSocket);
    AddPathBinds(reported, ing, r, p, http, Api.HTTP, s.webSocket);
    AddPathSparesOther(reported, ing, r, p, http, Api.HTTP, s.webSocket, https, Api.HTTPS);
    var first := AddHttp(reported, ing, s, r, p).build;
    AddPathBinds(first, ing, r, p, https, Api.HTTPS, s.webSocket);
    AddPathSparesOther(first, ing, r, p, https, Api.HTTPS, s.webSocket, http, Api.HTTP);
    var second := AddHttps(first, ing, s, r, p).build;
    if result.pool.Some? {
      BoundIgnoresPools(second.tree, AddPool(second.tree, RefOf(ing, r, p), result.pool.value), ing, r, p,
                        PortFor(s, protocol), protocol, s.webSocket);
    }
  }

  lemma LaterKeepsBound(t: WorkTree, u: WorkTree, ing: Ingress, r: nat, p: nat, port: nat, protocol: Api.Protocol,
                        ws: bool)
    requires r < |ing.rules| && p < ing.PathCount(r) && Later(t, u, RefOf(ing, r, p))
    requires forall slot | slot in t.paths :: slot.port in t.protocols
    ensures Bound(u, ing, r, p, port, protocol, ws) <==> Bound(t, ing, r, p, port, protocol, ws)
  {
    hide KeyOf;
  }

  lemma RulesComplete(ctx: Context, tls: Build, ing: Ingress, s: Settings, r: nat, p: nat)
    requires r < |ing.rules| && p < ing.PathCount(r)
    ensures var before := AdmitPathsUpTo(ctx, AdmitRulesUpTo(ctx, tls, ing, s, r), ing, s, r, p);
      Later(AdmitPath(ctx, before, ing, s, r, p).tree, AdmitRulesUpTo(ctx, tls, ing, s, |ing.rules|).tree,
            RefOf(ing, r, p))
  {
    hide AdmitPath;
    var m := AdmitRulesUpTo(ctx, tls, ing, s, r);
    PathsLater(ctx, m, ing, s, r, p + 1, ing.PathCount(r), RefOf(ing, r, p));
    RulesLater(ctx, tls, ing, s, r + 1, |ing.rules|, RefOf(ing, r, p));
  }

  lemma TurnIsUnheard(ctx: Context, ings: seq<Ingress>, s: Settings, k: nat, r: nat, p: nat)
    requires DistinctKeys(ings) && k < |ings| && r < |ings[k].rules| && p < ings[k].PathCount(r)
    ensures Unheard(Turn(ctx, ings, s, k, r, p).tree, RefOf(ings[k], r, p))
  {
    hide AdmitAll, AdmitTlsUpTo, AdmitRulesUpTo, AdmitPathsUpTo;
    var ref := RefOf(ings[k], r, p);
    var before := AdmitAll(ctx, EMPTY_BUILD, ings[..k]);
    assert ings[..k][..0] == [];
    assert AdmitAll(ctx, EMPTY_BUILD, []) == EMPTY_BUILD by { NobodyAdmitted(ctx); }
    AllLater(ctx, ings[..k], 0, ref);
    UnheardInIngress(ctx, before, ings[k], s, r, p);
  }

  lemma NobodyAdmitted(ctx: Context)
    ensures AdmitAll(ctx, EMPTY_BUILD, []) == EMPTY_BUILD
  {
  }

  lemma NoRules(ctx: Context, b: Build, ing: Ingress, s: Settings)
    ensures AdmitRulesUpTo(ctx, b, ing, s, 0) == b
  {
  }

  lemma UnheardInIngress(ctx: Context, b: Build, ing: Ingress, s: Settings, r: nat, p: nat)
    requires r < |ing.rules| && p < ing.PathCount(r) && Unheard(b.tree, RefOf(ing, r, p))
    ensures var tls := AdmitTlsUpTo(ctx, b, ing, s, |ing.tls|);
      Unheard(AdmitPathsUpTo(ctx, AdmitRulesUpTo(ctx, tls, ing, s, r), ing, s, r, p).tree, RefOf(ing, r, p))
  {
    var ref := RefOf(ing, r, p);
    var tls := AdmitTlsUpTo(ctx, b, ing, s, |ing.tls|);
    var rules := AdmitRulesUpTo(ctx, tls, ing, s, r);
    AdmitTlsOnce(ctx, b, ing, s, |ing.tls|);
    NoRules(ctx, tls, ing, s);
    NoPaths(ctx, rules, ing, s, r);
    hide AdmitTlsUpTo, AdmitRulesUpTo, AdmitPathsUpTo;
    RulesLater(ctx, tls, ing, s, 0, r, ref);
    PathsLater(ctx, rules, ing, s, r, 0, p, ref);
    LaterTransitive(tls.tree, rules.tree, AdmitPathsUpTo(ctx, rules, ing, s, r, p).tree, ref);
  }

  lemma IngressFromTurn(ctx: Context, b: Build, ing: Ingress, s: Settings, r: nat, p: nat)
    requires Settle(ctx.class_, ing) == Accepted(s) && (!s.httpsOnly || |ing.tls| > 0)
    requires r < |ing.rules| && p < ing.PathCount(r)
    ensures var tls := AdmitTlsUpTo(ctx, b, ing, s, |ing.tls|);
      var before := AdmitPathsUpTo(ctx, AdmitRulesUpTo(ctx, tls, ing, s, r), ing, s, r, p);
      Later(AdmitPath(ctx, before, ing, s, r, p).tree, AdmitIngress(ctx, b, ing).tree, RefOf(ing, r, p))
  {
    hide AdmitPath, AdmitTlsUpTo, AdmitRulesUpTo, AdmitPathsUpTo, Settle;
    RulesComplete(ctx, AdmitTlsUpTo(ctx, b, ing, s, |ing.tls|), ing, s, r, p);
  }

  lemma AdmitAllSnoc(ctx: Context, ings: seq<Ingress>, k: nat)
    requires k < |ings|
    ensures AdmitAll(ctx, EMPTY_BUILD, ings[..k + 1])
            == AdmitIngress(ctx, AdmitAll(ctx, EMPTY_BUILD, ings[..k]), ings[k])
  {
    hide AdmitIngress;
    assert ings[..k + 1][..k] == ings[..k];
  }

  lemma FinalFromTurn(ctx: Context, ings: seq<Ingress>, s: Settings, k: nat, r: nat, p: nat)
    requires DistinctKeys(ings) && k < |ings| && r < |ings[k].rules| && p < ings[k].PathCount(r)
    requires Settle(ctx.class_, ings[k]) == Accepted(s) && (!s.httpsOnly || |ings[k].tls| > 0)
    ensures Later(AdmitPath(ctx, Turn(ctx, ings, s, k, r, p), ings[k], s, r, p).tree,
                  AdmitAll(ctx, EMPTY_BUILD, ings).tree, RefOf(ings[k], r, p))
  {
    var ref := RefOf(ings[k], r, p);
    var before := AdmitAll(ctx, EMPTY_BUILD, ings[..k]);
    AdmitAllSnoc(ctx, ings, k);
    assert forall j | k + 1 <= j < |ings| :: ings[j].Key() != ref.Owner();
    hide Later, DistinctKeys, AdmitPath, AdmitIngress, AdmitAll, AdmitTlsUpTo, AdmitRulesUpTo, AdmitPathsUpTo, Settle;
    IngressFromTurn(ctx, before, ings[k], s, r, p);
    AllLater(ctx, ings, k + 1, ref);
    LaterTransitive(AdmitPath(ctx, Turn(ctx, ings, s, k, r, p), ings[k], s, r, p).tree,
                    AdmitIngress(ctx, before, ings[k]).tree, AdmitAll(ctx, EMPTY_BUILD, ings).tree, ref);
  }

  /** First come, first served: whoever else there is, a path ends up in the slot it asks for if and only if it may have
      it when it is its turn. So the slot goes to the first path in the order of admission that may have it. */
  lemma FirstComeFirstServed(ctx: Context, ings: seq<Ingress>, s: Settings, k: nat, r: nat, p: nat,
                             protocol: Api.Protocol)
    requires DistinctKeys(ings) && k < |ings| && r < |ings[k].rules| && p < ings[k].PathCount(r)
    requires Settle(ctx.class_, ings[k]) == Accepted(s) && Wants(ings[k], s, protocol)
    ensures Bound(AdmitAll(ctx, EMPTY_BUILD, ings).tree, ings[k], r, p, PortFor(s, protocol), protocol, s.webSocket)
            <==> MayHave(ctx, Turn(ctx, ings, s, k, r, p), ings[k], s, r, p, protocol)
  {
    var b := Turn(ctx, ings, s, k, r, p);
    TurnIsUnheard(ctx, ings, s, k, r, p);
    FinalFromTurn(ctx, ings, s, k, r, p);
    assert forall slot | slot in AdmitPath(ctx, b, ings[k], s, r, p).tree.paths ::
             slot.port in AdmitPath(ctx, b, ings[k], s, r, p).tree.protocols by {
      PortsKnown(ctx, ings, s, k, r, p);
    }
    hide AdmitPath, AdmitAll, Turn, Settle, MayHave, Bound;
    TurnDecides(ctx, b, ings[k], s, r, p, protocol);
    LaterKeepsBound(AdmitPath(ctx, b, ings[k], s, r, p).tree, AdmitAll(ctx, EMPTY_BUILD, ings).tree, ings[k], r, p,
                    PortFor(s, protocol), protocol, s.webSocket);
  }

  lemma PortsKnown(ctx: Context, ings: seq<Ingress>, s: Settings, k: nat, r: nat, p: nat)
    requires k < |ings| && r < |ings[k].rules| && p < ings[k].PathCount(r)
    requires Settle(ctx.class_, ings[k]) == Accepted(s) && (!s.httpsOnly || |ings[k].tls| > 0)
    ensures PathsInv(AdmitPath(ctx, Turn(ctx, ings, s, k, r, p), ings[k], s, r, p).tree)
  {
    hide AdmitAll, AdmitTlsUpTo, AdmitRulesUpTo, AdmitPathsUpTo, AdmitPath, Settle, PathsInv, PoolsInv, CertificatesInv,
         TreeGrows, EventsGrow, PortsFit, Served, ServedBefore, HasCertificate;
    EmptyTreeInv(ctx);
    AdmitAllKeepsInv(ctx, EMPTY_BUILD, ings[..k]);
    SettledPortsFit(ctx.class_, ings[k]);
    var before := AdmitAll(ctx, EMPTY_BUILD, ings[..k]);
    AdmitTlsUpToEffect(ctx, before, ings[k], s, |ings[k].tls|);
    var tls := AdmitTlsUpTo(ctx, before, ings[k], s, |ings[k].tls|);
    AdmitRulesEffect(ctx, tls, ings[k], s, r);
    AdmitPathsEffect(ctx, AdmitRulesUpTo(ctx, tls, ings[k], s, r), ings[k], s, r, p);
    AdmitPathEffect(ctx, Turn(ctx, ings, s, k, r, p), ings[k], s, r, p);
  }
}
