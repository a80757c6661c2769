/** What building the work tree guarantees, for every list of ingresses. */
module TreeProperties {
  import opened Options
  import opened Kube
  import opened Tree
  import Api = AlbApi

  // ---- growth: lower precedence only ever adds ----

  /** `t'` has everything `t` has, and what is new belongs to the ingresses `owners`. */
  ghost predicate TreeGrows(t: WorkTree, t': WorkTree, owners: set<ObjectKey>) {
    && (forall port | port in t.protocols :: port in t'.protocols && t'.protocols[port] == t.protocols[port])
    && (forall slot | slot in t.paths :: slot in t'.paths && t'.paths[slot] == t.paths[slot])
    && (forall f | f in t.certificates :: f in t'.certificates && t.certificates[f].ports <= t'.certificates[f].ports)
    && (forall ref | ref in t.pools :: ref in t'.pools && (ref.Owner() !in owners ==> t'.pools[ref] == t.pools[ref]))
    && (forall ref | ref in t'.pools && ref !in t.pools :: ref.Owner() in owners)
  }

  ghost predicate EventsGrow(e: seq<ErrorEvent>, e': seq<ErrorEvent>, owners: set<ObjectKey>) {
    e <= e' && forall i | |e| <= i < |e'| :: e'[i].ingress in owners
  }

  ghost predicate Grows(b: Build, b': Build, owners: set<ObjectKey>) {
    TreeGrows(b.tree, b'.tree, owners) && EventsGrow(b.events, b'.events, owners)
  }

  lemma GrowsTransitive(a: Build, b: Build, c: Build, o: set<ObjectKey>, o': set<ObjectKey>)
    requires Grows(a, b, o) && Grows(b, c, o')
    ensures Grows(a, c, o + o')
  {
  }

  // ---- the invariant of the tree ----

  ghost predicate PortOk(port: int) { 1 <= port <= MAX_UINT16 }

  /** The map keys agree with the paths they store, and every listener holds a path. */
  ghost predicate PathsInv(t: WorkTree) {
    && (forall slot | slot in t.paths ::
          && t.paths[slot].key == slot.key
          && slot.port in t.protocols && PortOk(slot.port))
    && (forall port | port in t.protocols :: exists slot :: slot in t.paths && slot.port == port)
  }

  ghost predicate HasPath(t: WorkTree, ref: PathRef) {
    exists slot :: slot in t.paths && t.paths[slot].ref == ref
  }

  ghost predicate PathsHavePools(t: WorkTree) {
    forall slot | slot in t.paths :: t.paths[slot].ref in t.pools
  }

  ghost predicate PoolsHavePaths(t: WorkTree) {
    forall ref | ref in t.pools :: HasPath(t, ref)
  }

  ghost predicate PoolsNamed(ctx: Context, t: WorkTree) {
    forall ref | ref in t.pools :: t.pools[ref].name == Some(ref.PoolName()) && t.pools[ref].targets == ctx.targets
  }

  /** The pools are exactly those that some stored path refers to, there are at most as many as the API
      allows, and each pool is named after its path and has the targets of the class. */
  ghost predicate PoolsInv(ctx: Context, t: WorkTree) {
    PathsHavePools(t) && PoolsHavePaths(t) && PoolsNamed(ctx, t) && |t.pools| <= LIMIT_TARGET_POOLS
  }

  ghost predicate CertificatesInv(t: WorkTree) {
    forall f, port | f in t.certificates && port in t.certificates[f].ports :: PortOk(port)
  }

  ghost predicate TreeInv(ctx: Context, t: WorkTree) {
    PathsInv(t) && PoolsInv(ctx, t) && CertificatesInv(t)
  }

  // ---- one path on one listener ----

  /** Every port that the ingress is going to use survives the conversion to 16 bits. */
  ghost predicate PortsFit(ing: Ingress, s: Settings) {
    && (!s.httpsOnly ==> PortOk(Uint16(s.httpPort)) && Uint16(s.httpPort) == s.httpPort)
    && (|ing.tls| > 0 ==> PortOk(Uint16(s.httpsPort)) && Uint16(s.httpsPort) == s.httpsPort)
  }

  lemma SettledPortsFit(cls: IngressClass, ing: Ingress)
    ensures Settle(cls, ing).Accepted? ==> PortsFit(ing, Settle(cls, ing).settings)
  {
  }

  /** The path (r, p) is stored under `port` for `protocol`, with the web socket setting `ws`. */
  ghost predicate Bound(t: WorkTree, ing: Ingress, r: nat, p: nat, port: nat, protocol: Api.Protocol, ws: bool)
    requires r < |ing.rules| && p < ing.PathCount(r)
  {
    var slot := SlotOf(ing, r, p, port);
    && port in t.protocols && t.protocols[port] == protocol
    && slot in t.paths && t.paths[slot] == TreePath(slot.key, RefOf(ing, r, p), ws)
  }

  lemma InsertKeepsPathsInv(t: WorkTree, slot: Slot, path: TreePath, protocol: Api.Protocol)
    requires PathsInv(t) && path.key == slot.key && PortOk(slot.port)
    ensures PathsInv(t.(protocols := t.protocols[slot.port := protocol], paths := t.paths[slot := path]))
  {
    var t' := t.(protocols := t.protocols[slot.port := protocol], paths := t.paths[slot := path]);
    forall q | q in t'.protocols ensures exists s :: s in t'.paths && s.port == q {
      if q == slot.port {
        assert slot in t'.paths;
      } else {
        var s :| s in t.paths && s.port == q;
        assert s in t'.paths;
      }
    }
  }

  lemma AddPathEffect(b: Build, ing: Ingress, r: nat, p: nat, port: nat, protocol: Api.Protocol, ws: bool)
    requires r < |ing.rules| && p < ing.PathCount(r) && PortOk(port) && PathsInv(b.tree)
    ensures var a := AddPath(b, ing, r, p, port, protocol, ws);
      && Grows(b, a.build, {ing.Key()}) && PathsInv(a.build.tree)
      && a.build.tree.pools == b.tree.pools && a.build.tree.certificates == b.tree.certificates
      && (a.added ==> Bound(a.build.tree, ing, r, p, port, protocol, ws) && a.build.events == b.events)
      && (!a.added ==> a.build.tree == b.tree && |a.build.events| > |b.events|)
      && (forall slot | slot in a.build.tree.paths && slot !in b.tree.paths ::
            a.added && slot == SlotOf(ing, r, p, port) && a.build.tree.paths[slot].ref == RefOf(ing, r, p))
  {
    hide PathsInv;
    if AddPath(b, ing, r, p, port, protocol, ws).added {
      var slot := SlotOf(ing, r, p, port);
      InsertKeepsPathsInv(b.tree, slot, TreePath(slot.key, RefOf(ing, r, p), ws), protocol);
    }
  }

  // ---- one path on every listener it asks for ----

  /** The path is stored on every protocol its ingress asked for, with a target pool of its own. */
  ghost predicate Served(t: WorkTree, ing: Ingress, s: Settings, r: nat, p: nat)
    requires r < |ing.rules| && p < ing.PathCount(r)
  {
    && RefOf(ing, r, p) in t.pools
    && (!s.httpsOnly ==> Bound(t, ing, r, p, Uint16(s.httpPort), Api.HTTP, s.webSocket))
    && (|ing.tls| > 0 ==> Bound(t, ing, r, p, Uint16(s.httpsPort), Api.HTTPS, s.webSocket))
  }

  lemma HttpAndHttps(b: Build, ing: Ingress, s: Settings, r: nat, p: nat)
    requires r < |ing.rules| && p < ing.PathCount(r) && PortsFit(ing, s) && PathsInv(b.tree)
    ensures var http := AddHttp(b, ing, s, r, p); var https := AddHttps(http.build, ing, s, r, p);
      && Grows(b, https.build, {ing.Key()}) && PathsInv(https.build.tree)
      && https.build.tree.pools == b.tree.pools && https.build.tree.certificates == b.tree.certificates
      && (!http.added && !https.added ==> https.build.tree == b.tree)
      && (http.added || https.added ==> HasPath(https.build.tree, RefOf(ing, r, p)))
      && (https.build.events == b.events ==>
            && (!s.httpsOnly ==>
                    http.added && Bound(https.build.tree, ing, r, p, Uint16(s.httpPort), Api.HTTP, s.webSocket))
            && (|ing.tls| > 0 ==>
                    https.added && Bound(https.build.tree, ing, r, p, Uint16(s.httpsPort), Api.HTTPS, s.webSocket)))
      && (forall slot | slot in https.build.tree.paths && slot !in b.tree.paths ::
            (http.added || https.added) && https.build.tree.paths[slot].ref == RefOf(ing, r, p))
  {
    var http := AddHttp(b, ing, s, r, p);
    if !s.httpsOnly { AddPathEffect(b, ing, r, p, Uint16(s.httpPort), Api.HTTP, s.webSocket); }
    var https := AddHttps(http.build, ing, s, r, p);
    if |ing.tls| > 0 { AddPathEffect(http.build, ing, r, p, Uint16(s.httpsPort), Api.HTTPS, s.webSocket); }
    GrowsTransitive(b, http.build, https.build, {ing.Key()}, {ing.Key()});
    assert {ing.Key()} + {ing.Key()} == {ing.Key()};
    if http.added || https.added {
      var slot := SlotOf(ing, r, p, if https.added then Uint16(s.httpsPort) else Uint16(s.httpPort));
      assert slot in https.build.tree.paths && https.build.tree.paths[slot].ref == RefOf(ing, r, p);
    }
  }

  lemma PoolResultShape(ctx: Context, t: WorkTree, ing: Ingress, r: nat, p: nat)
    requires r < |ing.rules| && p < ing.PathCount(r)
    ensures var result := TargetPoolFor(ctx, t, ing, r, p);
      && (result.pool.None? ==> |result.kinds| > 0)
      && (result.pool.Some? ==>
            && (RefOf(ing, r, p) in t.pools || |t.pools| < LIMIT_TARGET_POOLS)
            && result.pool.value.name == Some(RefOf(ing, r, p).PoolName())
            && result.pool.value.targets == ctx.targets)
  {
  }

  /** `u` is `t` with some new paths that all refer to `ref`. */
  ghost predicate OnlyPathsOf(t: WorkTree, u: WorkTree, ref: PathRef) {
    && TreeGrows(t, u, {ref.Owner()})
    && u.pools == t.pools && u.certificates == t.certificates
    && HasPath(u, ref)
    && (forall slot | slot in u.paths && slot !in t.paths :: u.paths[slot].ref == ref)
  }

  lemma AddPoolKeepsPools(ctx: Context, t: WorkTree, u: WorkTree, ref: PathRef, pool: Api.TargetPool)
    requires PoolsInv(ctx, t) && OnlyPathsOf(t, u, ref)
    requires ref in t.pools || |t.pools| < LIMIT_TARGET_POOLS
    requires pool.name == Some(ref.PoolName()) && pool.targets == ctx.targets
    ensures PoolsInv(ctx, AddPool(u, ref, pool))
  {
    hide PoolsHavePaths, PathsHavePools, TreeGrows, HasPath, PathRef.PoolName;
    var v := AddPool(u, ref, pool);
    assert v.pools.Keys == t.pools.Keys + {ref};
    assert |v.pools.Keys| == |t.pools.Keys| + (if ref in t.pools then 0 else 1);
    AddPoolCoversPaths(t, u, ref, pool);
    AddPoolIsUsed(t, u, ref, pool);
  }

  lemma AddPoolCoversPaths(t: WorkTree, u: WorkTree, ref: PathRef, pool: Api.TargetPool)
    requires PathsHavePools(t) && OnlyPathsOf(t, u, ref)
    ensures PathsHavePools(AddPool(u, ref, pool))
  {
  }

  lemma AddPoolIsUsed(t: WorkTree, u: WorkTree, ref: PathRef, pool: Api.TargetPool)
    requires PoolsHavePaths(t) && OnlyPathsOf(t, u, ref)
    ensures PoolsHavePaths(AddPool(u, ref, pool))
  {
  }

  lemma SamePaths(u: WorkTree, v: WorkTree, ref: PathRef)
    requires u.paths == v.paths && HasPath(u, ref)
    ensures HasPath(v, ref)
  {
  }

  lemma AddPoolGrows(t: WorkTree, u: WorkTree, ref: PathRef, pool: Api.TargetPool)
    requires TreeGrows(t, u, {ref.Owner()}) && u.pools == t.pools
    ensures TreeGrows(t, AddPool(u, ref, pool), {ref.Owner()})
  {
  }

  lemma AddPoolKeepsInv(ctx: Context, t: WorkTree, u: WorkTree, ref: PathRef, pool: Api.TargetPool)
    requires TreeInv(ctx, t) && PathsInv(u) && OnlyPathsOf(t, u, ref)
    requires ref in t.pools || |t.pools| < LIMIT_TARGET_POOLS
    requires pool.name == Some(ref.PoolName()) && pool.targets == ctx.targets
    ensures TreeInv(ctx, AddPool(u, ref, pool)) && TreeGrows(t, AddPool(u, ref, pool), {ref.Owner()})
  {
    hide PoolsInv, TreeGrows;
    AddPoolKeepsPools(ctx, t, u, ref, pool);
    AddPoolGrows(t, u, ref, pool);
  }

  lemma BoundIgnoresPools(t: WorkTree, u: WorkTree, ing: Ingress, r: nat, p: nat, port: nat, protocol: Api.Protocol,
                          ws: bool)
    requires r < |ing.rules| && p < ing.PathCount(r) && t.protocols == u.protocols && t.paths == u.paths
    ensures Bound(t, ing, r, p, port, protocol, ws) == Bound(u, ing, r, p, port, protocol, ws)
  {
  }

  lemma TreeGrowsReflexive(t: WorkTree, owners: set<ObjectKey>)
    ensures TreeGrows(t, t, owners)
  {
  }

  lemma AdmitPathEffect(ctx: Context, b: Build, ing: Ingress, s: Settings, r: nat, p: nat)
    requires r < |ing.rules| && p < ing.PathCount(r) && PortsFit(ing, s) && TreeInv(ctx, b.tree)
    ensures var b' := AdmitPath(ctx, b, ing, s, r, p);
      && Grows(b, b', {ing.Key()}) && TreeInv(ctx, b'.tree)
      && (b'.events == b.events && (!s.httpsOnly || |ing.tls| > 0) ==> Served(b'.tree, ing, s, r, p))
  {
    var ref := RefOf(ing, r, p);
    hide TargetPoolFor, AddHttp, AddHttps, TreeGrows, PathsInv, PoolsInv, CertificatesInv, Bound, HasPath, PortsFit;
    var result := TargetPoolFor(ctx, b.tree, ing, r, p);
    var reported := b.(events := b.events + EventsFor(ing, result.kinds, r, p));
    PoolResultShape(ctx, b.tree, ing, r, p);
    TreeGrowsReflexive(b.tree, {ing.Key()});
    if result.pool.Some? {
      HttpAndHttps(reported, ing, s, r, p);
      var http := AddHttp(reported, ing, s, r, p);
      var https := AddHttps(http.build, ing, s, r, p);
      if http.added || https.added {
        AddPoolKeepsInv(ctx, b.tree, https.build.tree, ref, result.pool.value);
        var t' := AddPool(https.build.tree, ref, result.pool.value);
        BoundIgnoresPools(https.build.tree, t', ing, r, p, Uint16(s.httpPort), Api.HTTP, s.webSocket);
        BoundIgnoresPools(https.build.tree, t', ing, r, p, Uint16(s.httpsPort), Api.HTTPS, s.webSocket);
      }
    }
  }

  // ---- folding over the paths, rules and certificates of one ingress ----

  /** Every path before rule `r` is served, and so are the first `n` paths of rule `r`. */
  ghost predicate ServedBefore(t: WorkTree, ing: Ingress, s: Settings, r: nat, n: nat) {
    forall i, k | 0 <= i < |ing.rules| && 0 <= k < ing.PathCount(i) && (i < r || (i == r && k < n)) ::
      Served(t, ing, s, i, k)
  }

  lemma ServedGrows(b: Build, b': Build, owners: set<ObjectKey>, ing: Ingress, s: Settings, r: nat, n: nat)
    requires Grows(b, b', owners) && ServedBefore(b.tree, ing, s, r, n)
    ensures ServedBefore(b'.tree, ing, s, r, n)
  {
    forall i, k | 0 <= i < |ing.rules| && 0 <= k < ing.PathCount(i) && (i < r || (i == r && k < n))
      ensures Served(b'.tree, ing, s, i, k)
    {
      assert Served(b.tree, ing, s, i, k);
    }
  }

  lemma {:induction false} AdmitPathsEffect(ctx: Context, b: Build, ing: Ingress, s: Settings, r: nat, n: nat)
    requires r < |ing.rules| && n <= ing.PathCount(r) && PortsFit(ing, s) && TreeInv(ctx, b.tree)
    requires !s.httpsOnly || |ing.tls| > 0
    ensures var b' := AdmitPathsUpTo(ctx, b, ing, s, r, n);
      && Grows(b, b', {ing.Key()}) && TreeInv(ctx, b'.tree)
      && (b'.events == b.events && ServedBefore(b.tree, ing, s, r, 0) ==> ServedBefore(b'.tree, ing, s, r, n))
  {
    hide AdmitPath, TreeGrows, TreeInv, Served, PortsFit;
    TreeGrowsReflexive(b.tree, {ing.Key()});
    if n > 0 {
      var m := AdmitPathsUpTo(ctx, b, ing, s, r, n - 1);
      var b' := AdmitPathsUpTo(ctx, b, ing, s, r, n);
      AdmitPathsEffect(ctx, b, ing, s, r, n - 1);
      AdmitPathEffect(ctx, m, ing, s, r, n - 1);
      GrowsTransitive(b, m, b', {ing.Key()}, {ing.Key()});
      assert {ing.Key()} + {ing.Key()} == {ing.Key()};
      if b'.events == b.events && ServedBefore(b.tree, ing, s, r, 0) {
        assert m.events == b.events;
        ServedGrows(m, b', {ing.Key()}, ing, s, r, n - 1);
        assert Served(b'.tree, ing, s, r, n - 1);
      }
    }
  }

  lemma {:induction false} AdmitRulesEffect(ctx: Context, b: Build, ing: Ingress, s: Settings, n: nat)
    requires n <= |ing.rules| && PortsFit(ing, s) && TreeInv(ctx, b.tree)
    requires !s.httpsOnly || |ing.tls| > 0
    ensures var b' := AdmitRulesUpTo(ctx, b, ing, s, n);
      && Grows(b, b', {ing.Key()}) && TreeInv(ctx, b'.tree)
      && (b'.events == b.events ==> ServedBefore(b'.tree, ing, s, n, 0))
  {
    hide AdmitPathsUpTo, TreeGrows, TreeInv, Served, PortsFit;
    TreeGrowsReflexive(b.tree, {ing.Key()});
    if n > 0 {
      var m := AdmitRulesUpTo(ctx, b, ing, s, n - 1);
      var b' := AdmitRulesUpTo(ctx, b, ing, s, n);
      AdmitRulesEffect(ctx, b, ing, s, n - 1);
      AdmitPathsEffect(ctx, m, ing, s, n - 1, ing.PathCount(n - 1));
      GrowsTransitive(b, m, b', {ing.Key()}, {ing.Key()});
      assert {ing.Key()} + {ing.Key()} == {ing.Key()};
      if b'.events == b.events {
        assert m.events == b.events;
        assert ServedBefore(b'.tree, ing, s, n - 1, ing.PathCount(n - 1));
      }
    }
  }

  /** Some certificate is registered for `port`. */
  ghost predicate HasCertificate(t: WorkTree, port: nat) {
    exists f :: f in t.certificates && port in t.certificates[f].ports
  }

  lemma AddCertificateEffect(ctx: Context, t: WorkTree, secret: Secret, f: string, port: nat, owners: set<ObjectKey>)
    requires TreeInv(ctx, t) && PortOk(port)
    ensures var u := AddCertificate(t, secret, f, port);
      TreeInv(ctx, u) && TreeGrows(t, u, owners) && HasCertificate(u, port)
  {
    hide PathsInv, PoolsInv;
    var u := AddCertificate(t, secret, f, port);
    assert f in u.certificates && port in u.certificates[f].ports;
    InvIgnoresCertificates(ctx, t, u);
  }

  lemma InvIgnoresCertificates(ctx: Context, t: WorkTree, u: WorkTree)
    requires PathsInv(t) && PoolsInv(ctx, t)
    requires u.protocols == t.protocols && u.paths == t.paths && u.pools == t.pools
    ensures PathsInv(u) && PoolsInv(ctx, u)
  {
    hide HasPath;
    forall ref | ref in u.pools ensures HasPath(u, ref) { SamePaths(t, u, ref); }
  }

  lemma AdmitTlsEffect(ctx: Context, b: Build, ing: Ingress, s: Settings, i: nat)
    requires i < |ing.tls| && PortsFit(ing, s) && TreeInv(ctx, b.tree)
    ensures var b' := AdmitTls(ctx, b, ing, s, i);
      && Grows(b, b', {ing.Key()}) && TreeInv(ctx, b'.tree)
      && (b'.events == b.events ==> HasCertificate(b'.tree, Uint16(s.httpsPort)))
  {
    hide TreeInv, TreeGrows, HasCertificate, AddCertificate;
    TreeGrowsReflexive(b.tree, {ing.Key()});
    var key := ObjectKey(ing.namespace, ing.tls[i]);
    if key in ctx.secrets && ctx.secrets[key].isTls && ctx.secrets[key].fingerprint.Ok? {
      var f := ctx.secrets[key].fingerprint.value;
      AddCertificateEffect(ctx, b.tree, ctx.secrets[key], f, Uint16(s.httpsPort), {ing.Key()});
    }
  }

  lemma {:induction false} AdmitTlsUpToEffect(ctx: Context, b: Build, ing: Ingress, s: Settings, n: nat)
    requires n <= |ing.tls| && PortsFit(ing, s) && TreeInv(ctx, b.tree)
    ensures var b' := AdmitTlsUpTo(ctx, b, ing, s, n);
      && Grows(b, b', {ing.Key()}) && TreeInv(ctx, b'.tree)
      && (b'.events == b.events && n > 0 ==> HasCertificate(b'.tree, Uint16(s.httpsPort)))
  {
    hide AdmitTls, TreeGrows, TreeInv, HasCertificate, PortsFit;
    TreeGrowsReflexive(b.tree, {ing.Key()});
    if n > 0 {
      var m := AdmitTlsUpTo(ctx, b, ing, s, n - 1);
      AdmitTlsUpToEffect(ctx, b, ing, s, n - 1);
      AdmitTlsEffect(ctx, m, ing, s, n - 1);
      GrowsTransitive(b, m, AdmitTlsUpTo(ctx, b, ing, s, n), {ing.Key()}, {ing.Key()});
      assert {ing.Key()} + {ing.Key()} == {ing.Key()};
    }
  }

  // ---- one ingress ----

  /** Everything the ingress asked for is in the tree: its paths on all its protocols, and a certificate for TLS. */
  ghost predicate FullyServed(cls: IngressClass, t: WorkTree, ing: Ingress) {
    var verdict := Settle(cls, ing);
    && verdict.Accepted?
    && ServedBefore(t, ing, verdict.settings, |ing.rules|, 0)
    && (|ing.tls| > 0 ==> HasCertificate(t, Uint16(verdict.settings.httpsPort)))
  }

  lemma CertificateSurvives(t: WorkTree, u: WorkTree, owners: set<ObjectKey>, port: nat)
    requires TreeGrows(t, u, owners) && HasCertificate(t, port)
    ensures HasCertificate(u, port)
  {
  }

  lemma FullyServedGrows(cls: IngressClass, b: Build, b': Build, owners: set<ObjectKey>, ing: Ingress)
    requires Grows(b, b', owners) && FullyServed(cls, b.tree, ing)
    ensures FullyServed(cls, b'.tree, ing)
  {
    var s := Settle(cls, ing).settings;
    ServedGrows(b, b', owners, ing, s, |ing.rules|, 0);
    if |ing.tls| > 0 { CertificateSurvives(b.tree, b'.tree, owners, Uint16(s.httpsPort)); }
  }

  lemma AdmitIngressEffect(ctx: Context, b: Build, ing: Ingress)
    requires TreeInv(ctx, b.tree)
    ensures var b' := AdmitIngress(ctx, b, ing);
      && Grows(b, b', {ing.Key()}) && TreeInv(ctx, b'.tree)
      && (b'.events == b.events ==> FullyServed(ctx.class_, b'.tree, ing))
  {
    hide Settle, TreeInv, TreeGrows, ServedBefore, AdmitTlsUpTo, AdmitRulesUpTo, HasCertificate, PortsFit;
    TreeGrowsReflexive(b.tree, {ing.Key()});
    var verdict := Settle(ctx.class_, ing);
    SettledPortsFit(ctx.class_, ing);
    if verdict.Accepted? {
      var s := verdict.settings;
      var m := AdmitTlsUpTo(ctx, b, ing, s, |ing.tls|);
      AdmitTlsUpToEffect(ctx, b, ing, s, |ing.tls|);
      if |ing.tls| > 0 || !s.httpsOnly {
        var b' := AdmitRulesUpTo(ctx, m, ing, s, |ing.rules|);
        AdmitRulesEffect(ctx, m, ing, s, |ing.rules|);
        GrowsTransitive(b, m, b', {ing.Key()}, {ing.Key()});
        assert {ing.Key()} + {ing.Key()} == {ing.Key()};
        if b'.events == b.events && |ing.tls| > 0 {
          assert m.events == b.events;
          CertificateSurvives(m.tree, b'.tree, {ing.Key()}, Uint16(s.httpsPort));
        }
      }
    }
  }

  // ---- the whole list ----

  function Keys(ings: seq<Ingress>): set<ObjectKey> {
    set i | 0 <= i < |ings| :: ings[i].Key()
  }

  ghost predicate DistinctKeys(ings: seq<Ingress>) {
    forall i, j | 0 <= i < j < |ings| :: ings[i].Key() != ings[j].Key()
  }

  lemma KeysSnoc(ings: seq<Ingress>)
    requires ings != []
    ensures Keys(ings) == Keys(ings[..|ings| - 1]) + {ings[|ings| - 1].Key()}
  {
  }

  /** The tree invariant holds after every list of ingresses, and admitting only adds. */
  lemma {:induction false} AdmitAllKeepsInv(ctx: Context, b: Build, ings: seq<Ingress>)
    requires TreeInv(ctx, b.tree)
    ensures var b' := AdmitAll(ctx, b, ings); Grows(b, b', Keys(ings)) && TreeInv(ctx, b'.tree)
  {
    if ings != [] {
      var rest, last := ings[..|ings| - 1], ings[|ings| - 1];
      var m := AdmitAll(ctx, b, rest);
      AdmitAllKeepsInv(ctx, b, rest);
      AdmitIngressEffect(ctx, m, last);
      GrowsTransitive(b, m, AdmitIngress(ctx, m, last), Keys(rest), {last.Key()});
      KeysSnoc(ings);
    }
  }

  lemma {:induction false} AdmitAllSplits(ctx: Context, b: Build, xs: seq<Ingress>, ys: seq<Ingress>)
    ensures AdmitAll(ctx, b, xs + ys) == AdmitAll(ctx, AdmitAll(ctx, b, xs), ys)
  {
    if ys == [] {
      assert xs + ys == xs;
    } else {
      var all, n := xs + ys, |ys| - 1;
      assert all[..|all| - 1] == xs + ys[..n] && all[|all| - 1] == ys[n];
      AdmitAllSplits(ctx, b, xs, ys[..n]);
    }
  }

  lemma EmptyTreeInv(ctx: Context)
    ensures TreeInv(ctx, EMPTY_TREE)
  {
  }

  /** Precedence is monotone: ingresses that come later never evict, redirect or shrink what came earlier. */
  lemma PrecedenceIsMonotone(ctx: Context, xs: seq<Ingress>, ys: seq<Ingress>)
    requires Keys(xs) !! Keys(ys)
    ensures
      var t, t' := AdmitAll(ctx, EMPTY_BUILD, xs).tree, AdmitAll(ctx, EMPTY_BUILD, xs + ys).tree;
      && (forall port | port in t.protocols :: port in t'.protocols && t'.protocols[port] == t.protocols[port])
      && (forall slot | slot in t.paths :: slot in t'.paths && t'.paths[slot] == t.paths[slot])
      && (forall ref | ref in t.pools :: ref in t'.pools && t'.pools[ref] == t.pools[ref])
      && (forall f | f in t.certificates :: f in t'.certificates && t.certificates[f].ports <= t'.certificates[f].ports)
  {
    hide TreeInv, AdmitAll, EventsGrow;
    var b := AdmitAll(ctx, EMPTY_BUILD, xs);
    EmptyTreeInv(ctx);
    AdmitAllKeepsInv(ctx, EMPTY_BUILD, xs);
    AdmitAllSplits(ctx, EMPTY_BUILD, xs, ys);
    AdmitAllKeepsInv(ctx, b, ys);
    assert forall ref | ref in b.tree.pools :: ref.Owner() in Keys(xs);
  }

  /** No silent drop: an ingress that no event names has everything it asked for in the tree. */
  lemma {:induction false} NoSilentDrop(ctx: Context, ings: seq<Ingress>, i: nat)
    requires i < |ings|
    ensures var b := AdmitAll(ctx, EMPTY_BUILD, ings);
      || (exists e :: e in b.events && e.ingress == ings[i].Key())
      || FullyServed(ctx.class_, b.tree, ings[i])
  {
    hide FullyServed, TreeInv, TreeGrows, AdmitIngress;
    var n := |ings| - 1;
    var m := AdmitAll(ctx, EMPTY_BUILD, ings[..n]);
    var b := AdmitAll(ctx, EMPTY_BUILD, ings);
    EmptyTreeInv(ctx);
    AdmitAllKeepsInv(ctx, EMPTY_BUILD, ings[..n]);
    AdmitIngressEffect(ctx, m, ings[n]);
    if i == n {
      if b.events != m.events {
        assert b.events[|m.events|] in b.events;
      }
    } else {
      NoSilentDrop(ctx, ings[..n], i);
      if e :| e in m.events && e.ingress == ings[i].Key() {
        assert e in b.events;
      } else {
        FullyServedGrows(ctx.class_, m, b, {ings[n].Key()}, ings[i]);
      }
    }
  }
}
