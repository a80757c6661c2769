/** Nothing is in the tree that no ingress asked for, and every valid certificate that was asked for is. */
module Provenance {
  import opened Options
  import opened Kube
  import opened Tree
  import opened TreeProperties
  import opened Configuration
  import Api = AlbApi

  // ---- annotations and ports ----

  /** The backend asks for this port: by number, or by a name that is not empty. */
  lemma PortMatchesIff(port: ServicePort, number: int, name: string, service: string)
    ensures PortMatches(port, Backend(service, number, name))
            <==> port.port == number || (name != "" && port.name == name)
  {
  }

  /** Port `i` decides among the first `n`: it matches, it has a node port, and no later match has one. */
  ghost predicate IsLastMatch(ports: seq<ServicePort>, backend: Backend, n: nat, i: nat)
    requires n <= |ports|
  {
    && i < n && PortMatches(ports[i], backend) && ports[i].nodePort != 0
    && forall j | i < j < n && PortMatches(ports[j], backend) :: ports[j].nodePort == 0
  }

  /** The node port found is that of the last matching port that has one; zero means there is none. */
  lemma {:induction false} NodePortIsLastMatch(ports: seq<ServicePort>, backend: Backend, n: nat)
    requires n <= |ports|
    ensures forall i: nat | IsLastMatch(ports, backend, n, i) ::
              FindNodePort(ports, backend, n).nodePort == ports[i].nodePort
    ensures FindNodePort(ports, backend, n).nodePort == 0 || exists i: nat :: IsLastMatch(ports, backend, n, i)
  {
    if n > 0 {
      NodePortIsLastMatch(ports, backend, n - 1);
      if PortMatches(ports[n - 1], backend) && ports[n - 1].nodePort != 0 {
        assert IsLastMatch(ports, backend, n, n - 1);
      } else {
        forall i: nat | IsLastMatch(ports, backend, n, i) ensures IsLastMatch(ports, backend, n - 1, i) { }
        if FindNodePort(ports, backend, n - 1).nodePort != 0 {
          var i: nat :| IsLastMatch(ports, backend, n - 1, i);
          assert IsLastMatch(ports, backend, n, i);
        }
      }
    }
  }

  ghost predicate PortDecided(ports: seq<ServicePort>, backend: Backend, nodePort: int) {
    exists i: nat :: IsLastMatch(ports, backend, |ports|, i) && ports[i].nodePort == nodePort
  }

  ghost predicate TlsDecided(service: Service, ing: Ingress, cls: IngressClass, tls: Api.TlsConfig) {
    var s, a, c := service.annotations, ing.annotations, cls.annotations;
    && tls.enabled.Some? && Decided(false, [s.poolTlsEnabled, a.poolTlsEnabled, c.poolTlsEnabled], tls.enabled.value)
    && tls.skipCertificateValidation.Some?
    && Decided(false, [s.poolTlsSkipValidation, a.poolTlsSkipValidation, c.poolTlsSkipValidation],
               tls.skipCertificateValidation.value)
    && Decided("", [s.poolTlsCustomCa, a.poolTlsCustomCa, c.poolTlsCustomCa], tls.customCa.GetOr(""))
    && tls.customCa != Some("")
  }

  /** What a pool for the service has to look like, and what the service has to be. */
  ghost predicate PoolConfigured(ctx: Context, service: Service, ing: Ingress, ref: PathRef, backend: Backend,
                                 pool: Api.TargetPool) {
    && (service.kind == NodePort || service.kind == ServiceType.LoadBalancer) && !service.externalTrafficLocal
    && pool.name == Some(ref.PoolName()) && pool.targets == ctx.targets && pool.activeHealthCheck.None?
    && pool.targetPort.Some? && PortDecided(service.ports, backend, pool.targetPort.value)
    && pool.tlsConfig.Some? && TlsDecided(service, ing, ctx.class_, pool.tlsConfig.value)
  }

  lemma PortIsDecided(ports: seq<ServicePort>, backend: Backend, nodePort: int)
    ensures PortDecided(ports, backend, nodePort) <==> FindNodePort(ports, backend, |ports|).nodePort == nodePort != 0
  {
    hide IsLastMatch, FindNodePort;
    NodePortIsLastMatch(ports, backend, |ports|);
    forall i: nat | IsLastMatch(ports, backend, |ports|, i) ensures i < |ports| && ports[i].nodePort != 0 {
      LastMatchHasNodePort(ports, backend, i);
    }
  }

  lemma LastMatchHasNodePort(ports: seq<ServicePort>, backend: Backend, i: nat)
    requires IsLastMatch(ports, backend, |ports|, i)
    ensures i < |ports| && ports[i].nodePort != 0
  {
  }

  /** The service gets a pool exactly if its type, ports and annotations allow one, and then it is this one. */
  lemma PoolIsConfigured(ctx: Context, service: Service, ing: Ingress, ref: PathRef, backend: Backend,
                         pool: Api.TargetPool)
    ensures PoolForService(ctx, service, ing, ref, backend).pool == Some(pool)
            <==> PoolConfigured(ctx, service, ing, ref, backend, pool)
  {
    hide GetAnnotation, Decided, PortDecided, FindNodePort, PathRef.PoolName;
    var s, a, c := service.annotations, ing.annotations, ctx.class_.annotations;
    if pool.targetPort.Some? { PortIsDecided(service.ports, backend, pool.targetPort.value); }
    if pool.tlsConfig.Some? {
      var tls := pool.tlsConfig.value;
      if tls.enabled.Some? {
        AnnotationIsDecided(false, [s.poolTlsEnabled, a.poolTlsEnabled, c.poolTlsEnabled], tls.enabled.value);
      }
      if tls.skipCertificateValidation.Some? {
        AnnotationIsDecided(false, [s.poolTlsSkipValidation, a.poolTlsSkipValidation, c.poolTlsSkipValidation],
                            tls.skipCertificateValidation.value);
      }
      AnnotationIsDecided("", [s.poolTlsCustomCa, a.poolTlsCustomCa, c.poolTlsCustomCa], tls.customCa.GetOr(""));
    }
  }

  // ---- where entries come from ----

  /** The slot holds the path (r, p) of the ingress, on the port it configured for the protocol. */
  ghost predicate IsPathOf(ing: Ingress, s: Settings, r: nat, p: nat, slot: Slot, path: TreePath,
                           protocol: Api.Protocol)
    requires r < |ing.rules| && p < ing.PathCount(r)
  {
    && slot == SlotOf(ing, r, p, slot.port)
    && path == TreePath(slot.key, RefOf(ing, r, p), s.webSocket)
    && (if protocol == Api.HTTP then !s.httpsOnly && slot.port == Uint16(s.httpPort)
        else |ing.tls| > 0 && slot.port == Uint16(s.httpsPort))
  }

  ghost predicate PathFrom(ctx: Context, ing: Ingress, slot: Slot, path: TreePath, protocol: Api.Protocol) {
    var verdict := Settle(ctx.class_, ing);
    verdict.Accepted? &&
    exists r, p ::
      0 <= r < |ing.rules| && 0 <= p < ing.PathCount(r) && IsPathOf(ing, verdict.settings, r, p, slot, path, protocol)
  }

  /** The pool is the one for the service that path (r, p) names. */
  ghost predicate IsPoolOf(ctx: Context, ing: Ingress, r: nat, p: nat, ref: PathRef, pool: Api.TargetPool)
    requires r < |ing.rules| && p < ing.PathCount(r)
  {
    var backend := ing.rules[r].http.value[p].backend;
    && ref == RefOf(ing, r, p) && backend.Some?
    && var key := ObjectKey(ing.namespace, backend.value.service);
    key in ctx.services && PoolForService(ctx, ctx.services[key], ing, ref, backend.value).pool == Some(pool)
  }

  ghost predicate PoolFrom(ctx: Context, ing: Ingress, ref: PathRef, pool: Api.TargetPool) {
    exists r, p :: 0 <= r < |ing.rules| && 0 <= p < ing.PathCount(r) && IsPoolOf(ctx, ing, r, p, ref, pool)
  }

  /** One of the TLS secrets of the ingress is valid and has this fingerprint. */
  ghost predicate IsCertificateOf(ctx: Context, ing: Ingress, i: nat, f: string) {
    i < |ing.tls| && var key := ObjectKey(ing.namespace, ing.tls[i]);
    key in ctx.secrets && ctx.secrets[key].isTls && ctx.secrets[key].fingerprint == Ok(f)
  }

  ghost predicate CertificateFrom(ctx: Context, ing: Ingress, f: string, port: nat) {
    var verdict := Settle(ctx.class_, ing);
    verdict.Accepted? && port == Uint16(verdict.settings.httpsPort) && exists i: nat :: IsCertificateOf(ctx, ing, i, f)
  }

  /** What `t'` has beyond `t` comes from the ingress. */
  ghost predicate Adds(ctx: Context, t: WorkTree, t': WorkTree, ing: Ingress) {
    && (forall slot | slot in t'.paths && slot !in t.paths ::
          slot.port in t'.protocols && PathFrom(ctx, ing, slot, t'.paths[slot], t'.protocols[slot.port]))
    && (forall ref | ref in t'.pools && !(ref in t.pools && t.pools[ref] == t'.pools[ref]) ::
            PoolFrom(ctx, ing, ref, t'.pools[ref]))
    && (forall f, port | f in t'.certificates && port in t'.certificates[f].ports
            && !(f in t.certificates && port in t.certificates[f].ports) ::
          CertificateFrom(ctx, ing, f, port))
  }

  lemma AddsTransitive(ctx: Context, t: WorkTree, u: WorkTree, v: WorkTree, ing: Ingress, owners: set<ObjectKey>)
    requires Adds(ctx, t, u, ing) && Adds(ctx, u, v, ing) && TreeGrows(u, v, owners)
    ensures Adds(ctx, t, v, ing)
  {
  }

  lemma AddsReflexive(ctx: Context, t: WorkTree, ing: Ingress)
    ensures Adds(ctx, t, t, ing)
  {
  }

  lemma AddPathAdds(ctx: Context, b: Build, ing: Ingress, s: Settings, r: nat, p: nat, port: nat,
                    protocol: Api.Protocol)
    requires r < |ing.rules| && p < ing.PathCount(r) && Settle(ctx.class_, ing) == Accepted(s)
    requires if protocol == Api.HTTP then !s.httpsOnly && port == Uint16(s.httpPort)
             else |ing.tls| > 0 && port == Uint16(s.httpsPort)
    ensures Adds(ctx, b.tree, AddPath(b, ing, r, p, port, protocol, s.webSocket).build.tree, ing)
  {
    hide Settle, PoolFrom, CertificateFrom;
    var a := AddPath(b, ing, r, p, port, protocol, s.webSocket);
    if a.added {
      var slot := SlotOf(ing, r, p, port);
      assert IsPathOf(ing, s, r, p, slot, a.build.tree.paths[slot], protocol);
    }
  }

  lemma PoolForPathComesFromService(ctx: Context, t: WorkTree, ing: Ingress, r: nat, p: nat)
    requires r < |ing.rules| && p < ing.PathCount(r)
    ensures var result := TargetPoolFor(ctx, t, ing, r, p);
      result.pool.Some? ==> PoolFrom(ctx, ing, RefOf(ing, r, p), result.pool.value)
  {
    hide PoolForService;
    var result := TargetPoolFor(ctx, t, ing, r, p);
    if result.pool.Some? { assert IsPoolOf(ctx, ing, r, p, RefOf(ing, r, p), result.pool.value); }
  }

  lemma AddPoolAdds(ctx: Context, t: WorkTree, u: WorkTree, ing: Ingress, ref: PathRef, pool: Api.TargetPool)
    requires Adds(ctx, t, u, ing) && PoolFrom(ctx, ing, ref, pool)
    ensures Adds(ctx, t, AddPool(u, ref, pool), ing)
  {
  }

  lemma AdmitPathAdds(ctx: Context, b: Build, ing: Ingress, s: Settings, r: nat, p: nat)
    requires r < |ing.rules| && p < ing.PathCount(r) && Settle(ctx.class_, ing) == Accepted(s)
    requires TreeInv(ctx, b.tree)
    ensures Adds(ctx, b.tree, AdmitPath(ctx, b, ing, s, r, p).tree, ing)
  {
    hide TargetPoolFor, AddPath, Adds, PoolFrom, Settle, TreeGrows, PoolsInv, CertificatesInv, PathsInv, Bound,
         EventsGrow;
    SettledPortsFit(ctx.class_, ing);
    var result := TargetPoolFor(ctx, b.tree, ing, r, p);
    var reported := b.(events := b.events + EventsFor(ing, result.kinds, r, p));
    PoolForPathComesFromService(ctx, b.tree, ing, r, p);
    AddsReflexive(ctx, b.tree, ing);
    if result.pool.Some? {
      var http := AddHttp(reported, ing, s, r, p);
      if !s.httpsOnly {
        AddPathAdds(ctx, reported, ing, s, r, p, Uint16(s.httpPort), Api.HTTP);
        AddPathEffect(reported, ing, r, p, Uint16(s.httpPort), Api.HTTP, s.webSocket);
      }
      var https := AddHttps(http.build, ing, s, r, p);
      if |ing.tls| > 0 {
        AddPathAdds(ctx, http.build, ing, s, r, p, Uint16(s.httpsPort), Api.HTTPS);
        AddPathEffect(http.build, ing, r, p, Uint16(s.httpsPort), Api.HTTPS, s.webSocket);
        AddsTransitive(ctx, b.tree, http.build.tree, https.build.tree, ing, {ing.Key()});
      }
      AddPoolAdds(ctx, b.tree, https.build.tree, ing, RefOf(ing, r, p), result.pool.value);
    }
  }

  lemma {:induction false} AdmitPathsAdds(ctx: Context, b: Build, ing: Ingress, s: Settings, r: nat, n: nat)
    requires r < |ing.rules| && n <= ing.PathCount(r) && Settle(ctx.class_, ing) == Accepted(s) && TreeInv(ctx, b.tree)
    ensures Adds(ctx, b.tree, AdmitPathsUpTo(ctx, b, ing, s, r, n).tree, ing)
    ensures TreeInv(ctx, AdmitPathsUpTo(ctx, b, ing, s, r, n).tree)
  {
    hide AdmitPath, Adds, Settle, TreeInv, TreeGrows, PortsFit, EventsGrow, Served;
    AddsReflexive(ctx, b.tree, ing);
    if n > 0 {
      var m := AdmitPathsUpTo(ctx, b, ing, s, r, n - 1);
      AdmitPathsAdds(ctx, b, ing, s, r, n - 1);
      SettledPortsFit(ctx.class_, ing);
      AdmitPathEffect(ctx, m, ing, s, r, n - 1);
      AdmitPathAdds(ctx, m, ing, s, r, n - 1);
      AddsTransitive(ctx, b.tree, m.tree, AdmitPath(ctx, m, ing, s, r, n - 1).tree, ing, {ing.Key()});
    }
  }

  lemma {:induction false} AdmitRulesAdds(ctx: Context, b: Build, ing: Ingress, s: Settings, n: nat)
    requires n <= |ing.rules| && Settle(ctx.class_, ing) == Accepted(s) && TreeInv(ctx, b.tree)
    requires !s.httpsOnly || |ing.tls| > 0
    ensures Adds(ctx, b.tree, AdmitRulesUpTo(ctx, b, ing, s, n).tree, ing)
    ensures TreeInv(ctx, AdmitRulesUpTo(ctx, b, ing, s, n).tree)
  {
    hide AdmitPathsUpTo, Adds, Settle, TreeInv, TreeGrows, PortsFit, EventsGrow, ServedBefore;
    AddsReflexive(ctx, b.tree, ing);
    if n > 0 {
      var m, k := AdmitRulesUpTo(ctx, b, ing, s, n - 1), ing.PathCount(n - 1);
      AdmitRulesAdds(ctx, b, ing, s, n - 1);
      SettledPortsFit(ctx.class_, ing);
      AdmitPathsEffect(ctx, m, ing, s, n - 1, k);
      AdmitPathsAdds(ctx, m, ing, s, n - 1, k);
      AddsTransitive(ctx, b.tree, m.tree, AdmitPathsUpTo(ctx, m, ing, s, n - 1, k).tree, ing, {ing.Key()});
    }
  }

  lemma AdmitTlsAdds(ctx: Context, b: Build, ing: Ingress, s: Settings, i: nat)
    requires i < |ing.tls| && Settle(ctx.class_, ing) == Accepted(s)
    ensures Adds(ctx, b.tree, AdmitTls(ctx, b, ing, s, i).tree, ing)
    ensures forall f | IsCertificateOf(ctx, ing, i, f) ::
              f in AdmitTls(ctx, b, ing, s, i).tree.certificates
              && Uint16(s.httpsPort) in AdmitTls(ctx, b, ing, s, i).tree.certificates[f].ports
  {
    hide Settle, PathFrom, PoolFrom;
    var key := ObjectKey(ing.namespace, ing.tls[i]);
    if key in ctx.secrets && ctx.secrets[key].isTls && ctx.secrets[key].fingerprint.Ok? {
      assert IsCertificateOf(ctx, ing, i, ctx.secrets[key].fingerprint.value);
    }
  }

  /** The valid certificates among the first `n` TLS entries are registered for the HTTPS port. */
  ghost predicate Registered(ctx: Context, t: WorkTree, ing: Ingress, port: nat, n: nat) {
    forall i, f | 0 <= i < n && IsCertificateOf(ctx, ing, i, f) ::
      f in t.certificates && port in t.certificates[f].ports
  }

  lemma RegisteredGrows(ctx: Context, t: WorkTree, u: WorkTree, owners: set<ObjectKey>, ing: Ingress, port: nat, n: nat)
    requires Registered(ctx, t, ing, port, n) && TreeGrows(t, u, owners)
    ensures Registered(ctx, u, ing, port, n)
  {
  }

  lemma {:induction false} AdmitTlsUpToAdds(ctx: Context, b: Build, ing: Ingress, s: Settings, n: nat)
    requires n <= |ing.tls| && Settle(ctx.class_, ing) == Accepted(s) && TreeInv(ctx, b.tree)
    ensures var t' := AdmitTlsUpTo(ctx, b, ing, s, n).tree;
      Adds(ctx, b.tree, t', ing) && TreeInv(ctx, t') && Registered(ctx, t', ing, Uint16(s.httpsPort), n)
  {
    hide AdmitTls, Adds, Settle, TreeInv, TreeGrows, PortsFit, EventsGrow, HasCertificate, IsCertificateOf;
    AddsReflexive(ctx, b.tree, ing);
    if n > 0 {
      var m := AdmitTlsUpTo(ctx, b, ing, s, n - 1);
      AdmitTlsUpToAdds(ctx, b, ing, s, n - 1);
      SettledPortsFit(ctx.class_, ing);
      AdmitTlsEffect(ctx, m, ing, s, n - 1);
      AdmitTlsAdds(ctx, m, ing, s, n - 1);
      var t' := AdmitTls(ctx, m, ing, s, n - 1).tree;
      AddsTransitive(ctx, b.tree, m.tree, t', ing, {ing.Key()});
      RegisteredGrows(ctx, m.tree, t', {ing.Key()}, ing, Uint16(s.httpsPort), n - 1);
    }
  }

  /** All valid certificates of an accepted ingress are registered. */
  ghost predicate FullyRegistered(ctx: Context, t: WorkTree, ing: Ingress) {
    var verdict := Settle(ctx.class_, ing);
    verdict.Accepted? ==> Registered(ctx, t, ing, Uint16(verdict.settings.httpsPort), |ing.tls|)
  }

  lemma AdmitIngressAdds(ctx: Context, b: Build, ing: Ingress)
    requires TreeInv(ctx, b.tree)
    ensures var t' := AdmitIngress(ctx, b, ing).tree; Adds(ctx, b.tree, t', ing) && FullyRegistered(ctx, t', ing)
  {
    hide Settle, TreeInv, TreeGrows, Adds, AdmitTlsUpTo, AdmitRulesUpTo, PortsFit, Registered, EventsGrow, ServedBefore;
    AddsReflexive(ctx, b.tree, ing);
    var verdict := Settle(ctx.class_, ing);
    if verdict.Accepted? {
      var s := verdict.settings;
      var m := AdmitTlsUpTo(ctx, b, ing, s, |ing.tls|);
      AdmitTlsUpToAdds(ctx, b, ing, s, |ing.tls|);
      if |ing.tls| > 0 || !s.httpsOnly {
        var t' := AdmitRulesUpTo(ctx, m, ing, s, |ing.rules|).tree;
        SettledPortsFit(ctx.class_, ing);
        AdmitRulesEffect(ctx, m, ing, s, |ing.rules|);
        AdmitRulesAdds(ctx, m, ing, s, |ing.rules|);
        AddsTransitive(ctx, b.tree, m.tree, t', ing, {ing.Key()});
        RegisteredGrows(ctx, m.tree, t', {ing.Key()}, ing, Uint16(s.httpsPort), |ing.tls|);
      }
    }
  }

  // ---- the whole tree ----

  ghost predicate SomePathFrom(ctx: Context, ings: seq<Ingress>, slot: Slot, path: TreePath, protocol: Api.Protocol) {
    exists k :: 0 <= k < |ings| && PathFrom(ctx, ings[k], slot, path, protocol)
  }

  ghost predicate SomePoolFrom(ctx: Context, ings: seq<Ingress>, ref: PathRef, pool: Api.TargetPool) {
    exists k :: 0 <= k < |ings| && PoolFrom(ctx, ings[k], ref, pool)
  }

  ghost predicate SomeCertificateFrom(ctx: Context, ings: seq<Ingress>, f: string, port: nat) {
    exists k :: 0 <= k < |ings| && CertificateFrom(ctx, ings[k], f, port)
  }

  /** Every path, pool and certificate port was asked for by some ingress of the list. */
  ghost predicate Sound(ctx: Context, t: WorkTree, ings: seq<Ingress>) {
    && (forall slot | slot in t.paths ::
            slot.port in t.protocols && SomePathFrom(ctx, ings, slot, t.paths[slot], t.protocols[slot.port]))
    && (forall ref | ref in t.pools :: SomePoolFrom(ctx, ings, ref, t.pools[ref]))
    && (forall f, port | f in t.certificates && port in t.certificates[f].ports ::
            SomeCertificateFrom(ctx, ings, f, port))
  }

  lemma SoundSnoc(ctx: Context, t: WorkTree, u: WorkTree, ings: seq<Ingress>, last: Ingress, owners: set<ObjectKey>)
    requires Sound(ctx, t, ings) && Adds(ctx, t, u, last) && TreeGrows(t, u, owners)
    ensures Sound(ctx, u, ings + [last])
  {
    hide PathFrom, PoolFrom, CertificateFrom;
    var all := ings + [last];
    assert all[|ings|] == last && forall k | 0 <= k < |ings| :: all[k] == ings[k];
    forall slot | slot in u.paths
      ensures slot.port in u.protocols && SomePathFrom(ctx, all, slot, u.paths[slot], u.protocols[slot.port])
    {
      if slot in t.paths {
        var k :| 0 <= k < |ings| && PathFrom(ctx, ings[k], slot, t.paths[slot], t.protocols[slot.port]);
        assert PathFrom(ctx, all[k], slot, u.paths[slot], u.protocols[slot.port]);
      } else {
        assert PathFrom(ctx, all[|ings|], slot, u.paths[slot], u.protocols[slot.port]);
      }
    }
    forall ref | ref in u.pools ensures SomePoolFrom(ctx, all, ref, u.pools[ref]) {
      if ref in t.pools && t.pools[ref] == u.pools[ref] {
        var k :| 0 <= k < |ings| && PoolFrom(ctx, ings[k], ref, t.pools[ref]);
        assert PoolFrom(ctx, all[k], ref, u.pools[ref]);
      } else {
        assert PoolFrom(ctx, all[|ings|], ref, u.pools[ref]);
      }
    }
    forall f, port | f in u.certificates && port in u.certificates[f].ports
      ensures SomeCertificateFrom(ctx, all, f, port)
    {
      if f in t.certificates && port in t.certificates[f].ports {
        assert SomeCertificateFrom(ctx, ings, f, port);
        var k :| 0 <= k < |ings| && CertificateFrom(ctx, ings[k], f, port);
        assert CertificateFrom(ctx, all[k], f, port);
      } else {
        assert CertificateFrom(ctx, all[|ings|], f, port);
      }
    }
  }

  lemma NextIsSound(ctx: Context, ings: seq<Ingress>, last: Ingress, m: Build)
    requires TreeInv(ctx, m.tree) && Sound(ctx, m.tree, ings)
    ensures Sound(ctx, AdmitIngress(ctx, m, last).tree, ings + [last])
  {
    hide Sound, Adds, AdmitIngress, TreeInv, TreeGrows, FullyRegistered, FullyServed, EventsGrow;
    AdmitIngressEffect(ctx, m, last);
    AdmitIngressAdds(ctx, m, last);
    SoundSnoc(ctx, m.tree, AdmitIngress(ctx, m, last).tree, ings, last, {last.Key()});
  }

  /** Nothing is invented: every path, pool and certificate port in the tree was asked for by an accepted ingress. */
  lemma {:induction false} NothingIsInvented(ctx: Context, ings: seq<Ingress>)
    ensures Sound(ctx, AdmitAll(ctx, EMPTY_BUILD, ings).tree, ings)
  {
    if ings != [] {
      hide Sound, AdmitIngress, TreeInv, TreeGrows, EventsGrow;
      var n := |ings| - 1;
      NothingIsInvented(ctx, ings[..n]);
      EmptyTreeInv(ctx);
      AdmitAllKeepsInv(ctx, EMPTY_BUILD, ings[..n]);
      NextIsSound(ctx, ings[..n], ings[n], AdmitAll(ctx, EMPTY_BUILD, ings[..n]));
      assert ings == ings[..n] + [ings[n]];
    }
  }

  lemma FullyRegisteredGrows(ctx: Context, t: WorkTree, u: WorkTree, owners: set<ObjectKey>, ing: Ingress)
    requires FullyRegistered(ctx, t, ing) && TreeGrows(t, u, owners)
    ensures FullyRegistered(ctx, u, ing)
  {
  }

  lemma {:induction false} AllRegistered(ctx: Context, ings: seq<Ingress>, k: nat)
    requires k < |ings|
    ensures FullyRegistered(ctx, AdmitAll(ctx, EMPTY_BUILD, ings).tree, ings[k])
  {
    hide Adds, AdmitIngress, TreeInv, TreeGrows, FullyRegistered, FullyServed, EventsGrow;
    var n := |ings| - 1;
    var m := AdmitAll(ctx, EMPTY_BUILD, ings[..n]);
    EmptyTreeInv(ctx);
    AdmitAllKeepsInv(ctx, EMPTY_BUILD, ings[..n]);
    AdmitIngressEffect(ctx, m, ings[n]);
    AdmitIngressAdds(ctx, m, ings[n]);
    if k < n {
      AllRegistered(ctx, ings[..n], k);
      FullyRegisteredGrows(ctx, m.tree, AdmitIngress(ctx, m, ings[n]).tree, {ings[n].Key()}, ings[k]);
    }
  }

  /** A certificate is registered for a port exactly if an accepted ingress with that HTTPS port has it. */
  lemma CertificatesAreExact(ctx: Context, ings: seq<Ingress>, f: string, port: nat)
    ensures var t := AdmitAll(ctx, EMPTY_BUILD, ings).tree;
      (f in t.certificates && port in t.certificates[f].ports) <==> SomeCertificateFrom(ctx, ings, f, port)
  {
    hide AdmitAll, Settle, IsCertificateOf;
    NothingIsInvented(ctx, ings);
    if SomeCertificateFrom(ctx, ings, f, port) {
      var k :| 0 <= k < |ings| && CertificateFrom(ctx, ings[k], f, port);
      AllRegistered(ctx, ings, k);
      var i: nat :| IsCertificateOf(ctx, ings[k], i, f);
      assert i < |ings[k].tls| by { CertificateIndex(ctx, ings[k], i, f); }
    }
  }

  lemma CertificateIndex(ctx: Context, ing: Ingress, i: nat, f: string)
    requires IsCertificateOf(ctx, ing, i, f)
    ensures i < |ing.tls|
  {
  }

  // ---- key pairs ----

  /** The key pair is that of a valid TLS secret with this fingerprint. */
  ghost predicate IsKeyPair(ctx: Context, f: string, c: TreeCertificate) {
    exists key :: key in ctx.secrets && HasKeyPair(ctx.secrets[key], f, c)
  }

  ghost predicate HasKeyPair(secret: Secret, f: string, c: TreeCertificate) {
    secret.isTls && secret.fingerprint == Ok(f) && c.publicKey == secret.publicKey && c.privateKey == secret.privateKey
  }

  ghost predicate KeyPairsKnown(ctx: Context, t: WorkTree) {
    forall f | f in t.certificates :: IsKeyPair(ctx, f, t.certificates[f])
  }

  lemma {:induction false} TlsKeepsKeyPairs(ctx: Context, b: Build, ing: Ingress, s: Settings, n: nat)
    requires n <= |ing.tls| && KeyPairsKnown(ctx, b.tree)
    ensures KeyPairsKnown(ctx, AdmitTlsUpTo(ctx, b, ing, s, n).tree)
  {
    if n > 0 {
      TlsKeepsKeyPairs(ctx, b, ing, s, n - 1);
      var t := AdmitTlsUpTo(ctx, b, ing, s, n - 1).tree;
      var key := ObjectKey(ing.namespace, ing.tls[n - 1]);
      if key in ctx.secrets && ctx.secrets[key].isTls && ctx.secrets[key].fingerprint.Ok? {
        SecretKeepsKeyPairs(ctx, t, key, ctx.secrets[key].fingerprint.value, Uint16(s.httpsPort));
      }
    }
  }

  lemma SecretKeepsKeyPairs(ctx: Context, t: WorkTree, key: ObjectKey, f: string, port: nat)
    requires KeyPairsKnown(ctx, t) && key in ctx.secrets && ctx.secrets[key].isTls
    requires ctx.secrets[key].fingerprint == Ok(f)
    ensures KeyPairsKnown(ctx, AddCertificate(t, ctx.secrets[key], f, port))
  {
    var u := AddCertificate(t, ctx.secrets[key], f, port);
    forall g | g in u.certificates ensures IsKeyPair(ctx, g, u.certificates[g]) {
      if g in t.certificates {
        assert IsKeyPair(ctx, g, t.certificates[g]);
        var k :| k in ctx.secrets && HasKeyPair(ctx.secrets[k], g, t.certificates[g]);
        assert HasKeyPair(ctx.secrets[k], g, u.certificates[g]);
      } else {
        assert HasKeyPair(ctx.secrets[key], g, u.certificates[g]);
      }
    }
  }

  lemma AddPathKeepsCertificates(b: Build, ing: Ingress, r: nat, p: nat, port: nat, protocol: Api.Protocol, ws: bool)
    requires r < |ing.rules| && p < ing.PathCount(r)
    ensures AddPath(b, ing, r, p, port, protocol, ws).build.tree.certificates == b.tree.certificates
  {
  }

  lemma PathKeepsCertificates(ctx: Context, b: Build, ing: Ingress, s: Settings, r: nat, p: nat)
    requires r < |ing.rules| && p < ing.PathCount(r)
    ensures AdmitPath(ctx, b, ing, s, r, p).tree.certificates == b.tree.certificates
  {
    hide TargetPoolFor, AddPath;
    var result := TargetPoolFor(ctx, b.tree, ing, r, p);
    var reported := b.(events := b.events + EventsFor(ing, result.kinds, r, p));
    AddPathKeepsCertificates(reported, ing, r, p, Uint16(s.httpPort), Api.HTTP, s.webSocket);
    var http := AddHttp(reported, ing, s, r, p).build;
    AddPathKeepsCertificates(http, ing, r, p, Uint16(s.httpsPort), Api.HTTPS, s.webSocket);
  }

  lemma {:induction false} PathsKeepCertificates(ctx: Context, b: Build, ing: Ingress, s: Settings, r: nat, n: nat)
    requires r < |ing.rules| && n <= ing.PathCount(r)
    ensures AdmitPathsUpTo(ctx, b, ing, s, r, n).tree.certificates == b.tree.certificates
  {
    hide AdmitPath;
    if n > 0 {
      PathsKeepCertificates(ctx, b, ing, s, r, n - 1);
      PathKeepsCertificates(ctx, AdmitPathsUpTo(ctx, b, ing, s, r, n - 1), ing, s, r, n - 1);
    }
  }

  lemma {:induction false} RulesKeepCertificates(ctx: Context, b: Build, ing: Ingress, s: Settings, n: nat)
    requires n <= |ing.rules|
    ensures AdmitRulesUpTo(ctx, b, ing, s, n).tree.certificates == b.tree.certificates
  {
    hide AdmitPathsUpTo;
    if n > 0 {
      RulesKeepCertificates(ctx, b, ing, s, n - 1);
      PathsKeepCertificates(ctx, AdmitRulesUpTo(ctx, b, ing, s, n - 1), ing, s, n - 1, ing.PathCount(n - 1));
    }
  }

  /** Every certificate in the tree has the key pair of a valid TLS secret with its fingerprint. */
  lemma {:induction false} KeyPairsComeFromSecrets(ctx: Context, ings: seq<Ingress>)
    ensures KeyPairsKnown(ctx, AdmitAll(ctx, EMPTY_BUILD, ings).tree)
  {
    hide Settle, AdmitTlsUpTo, AdmitRulesUpTo, IsKeyPair;
    if ings != [] {
      var n := |ings| - 1;
      var m := AdmitAll(ctx, EMPTY_BUILD, ings[..n]);
      KeyPairsComeFromSecrets(ctx, ings[..n]);
      var verdict := Settle(ctx.class_, ings[n]);
      if verdict.Accepted? {
        TlsKeepsKeyPairs(ctx, m, ings[n], verdict.settings, |ings[n].tls|);
        var tls := AdmitTlsUpTo(ctx, m, ings[n], verdict.settings, |ings[n].tls|);
        RulesKeepCertificates(ctx, tls, ings[n], verdict.settings, |ings[n].rules|);
      }
    }
  }
}
