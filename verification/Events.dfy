/** What the error events mean: each is justified by the objects in the cluster and by the tree that was built. */
module Events {
  import opened Options
  import opened Kube
  import opened Cardinality
  import opened Tree
  import opened Configuration
  import opened TreeProperties
  import opened Counting
  import opened Provenance
  import opened Claims
  import Api = AlbApi

  // ---- what each kind says ----

  /** The service cannot have a pool, or lacks a node port, for this reason. */
  ghost predicate ServiceFault(ctx: Context, service: Service, ing: Ingress, backend: Backend, kind: EventKind) {
    var s, a, c := service.annotations, ing.annotations, ctx.class_.annotations;
    match kind
    case ServiceTypeUnsupported => service.kind != NodePort && service.kind != ServiceType.LoadBalancer
    case NodePortMissing =>
      exists i :: 0 <= i < |service.ports| && PortMatches(service.ports[i], backend) && service.ports[i].nodePort == 0
    case PortNotFound => forall nodePort :: !PortDecided(service.ports, backend, nodePort)
    case InvalidPoolTls => Undecidable([s.poolTlsEnabled, a.poolTlsEnabled, c.poolTlsEnabled])
    case InvalidPoolTlsSkip =>
      Undecidable([s.poolTlsSkipValidation, a.poolTlsSkipValidation, c.poolTlsSkipValidation])
    case InvalidPoolTlsCa => Undecidable([s.poolTlsCustomCa, a.poolTlsCustomCa, c.poolTlsCustomCa])
    case LocalTrafficPolicy => service.externalTrafficLocal
    case _ => false
  }

  /** Path (r, p) has no pool, or only part of what its service should have, for this reason. */
  ghost predicate PoolFault(ctx: Context, ing: Ingress, r: nat, p: nat, kind: EventKind, t: WorkTree)
    requires r < |ing.rules| && p < ing.PathCount(r)
  {
    var backend := ing.rules[r].http.value[p].backend;
    match kind
    case PoolLimitReached => |t.pools| >= 20
    case BackendNotService => backend.None?
    case ServiceMissing => backend.Some? && ObjectKey(ing.namespace, backend.value.service) !in ctx.services
    case _ =>
      && backend.Some? && ObjectKey(ing.namespace, backend.value.service) in ctx.services
      && ServiceFault(ctx, ctx.services[ObjectKey(ing.namespace, backend.value.service)], ing, backend.value, kind)
  }

  /** The TLS secret is not what it should be. */
  ghost predicate TlsFault(ctx: Context, ing: Ingress, i: nat, kind: EventKind)
    requires i < |ing.tls|
  {
    var key := ObjectKey(ing.namespace, ing.tls[i]);
    match kind
    case SecretMissing => key !in ctx.secrets
    case SecretNotTls => key in ctx.secrets && !ctx.secrets[key].isTls
    case CertificateInvalid => key in ctx.secrets && ctx.secrets[key].isTls && ctx.secrets[key].fingerprint.Err?
    case _ => false
  }

  /** The slot that the path asks for belongs to another path. */
  ghost predicate Taken(t: WorkTree, ing: Ingress, r: nat, p: nat, port: nat)
    requires r < |ing.rules| && p < ing.PathCount(r)
  {
    SlotOf(ing, r, p, port) in t.paths && t.paths[SlotOf(ing, r, p, port)].ref != RefOf(ing, r, p)
  }

  /** The port that the ingress asks for serves the other protocol. */
  ghost predicate Occupied(t: WorkTree, port: nat, protocol: Api.Protocol) {
    port in t.protocols && t.protocols[port] != protocol
  }

  /** The event tells the truth about an accepted ingress and the tree. */
  ghost predicate True(ctx: Context, ing: Ingress, s: Settings, e: ErrorEvent, t: WorkTree) {
    match e.kind
    case HttpsOnlyWithoutCertificate => s.httpsOnly && ing.tls == []
    case ProtocolConflict =>
      exists protocol: Api.Protocol :: Wants(ing, s, protocol) && Occupied(t, PortFor(s, protocol), protocol)
    case PathExists =>
      && |e.field| == 2 && e.field[0] < |ing.rules| && e.field[1] < ing.PathCount(e.field[0])
      && exists protocol: Api.Protocol ::
           Wants(ing, s, protocol) && Taken(t, ing, e.field[0], e.field[1], PortFor(s, protocol))
    case _ =>
      || (|e.field| == 1 && e.field[0] < |ing.tls| && TlsFault(ctx, ing, e.field[0], e.kind))
      || (|e.field| == 2 && e.field[0] < |ing.rules| && e.field[1] < ing.PathCount(e.field[0])
          && PoolFault(ctx, ing, e.field[0], e.field[1], e.kind, t))
  }

  /** The event names the ingress and is justified: the annotations are wrong in this way, or they give settings with
      which the event is true. */
  ghost predicate Justified(ctx: Context, ing: Ingress, e: ErrorEvent, t: WorkTree) {
    && e.ingress == ObjectKey(ing.namespace, ing.name)
    && (|| Misconfigured(ctx.class_, ing, e.kind)
        || exists s :: HasSettings(ctx.class_, ing, s) && True(ctx, ing, s, e, t))
  }

  ghost predicate AllTrue(ctx: Context, ing: Ingress, s: Settings, events: seq<ErrorEvent>, from: nat, t: WorkTree) {
    forall i | from <= i < |events| :: events[i].ingress == ing.Key() && True(ctx, ing, s, events[i], t)
  }

  // ---- events stay true ----

  lemma TrueGrows(ctx: Context, ing: Ingress, s: Settings, e: ErrorEvent, t: WorkTree, u: WorkTree,
                  owners: set<ObjectKey>)
    requires True(ctx, ing, s, e, t) && TreeGrows(t, u, owners)
    ensures True(ctx, ing, s, e, u)
  {
    hide ServiceFault, TlsFault, SlotOf;
    assert t.pools.Keys <= u.pools.Keys;
    SubsetSize(t.pools.Keys, u.pools.Keys);
    if e.kind == PathExists {
      var protocol: Api.Protocol :|
        Wants(ing, s, protocol) && Taken(t, ing, e.field[0], e.field[1], PortFor(s, protocol));
      assert Taken(u, ing, e.field[0], e.field[1], PortFor(s, protocol));
    } else if e.kind == ProtocolConflict {
      var protocol: Api.Protocol :| Wants(ing, s, protocol) && Occupied(t, PortFor(s, protocol), protocol);
      assert Occupied(u, PortFor(s, protocol), protocol);
    }
  }

  lemma AllTrueGrows(ctx: Context, ing: Ingress, s: Settings, b: Build, c: Build, from: nat, owners: set<ObjectKey>)
    requires AllTrue(ctx, ing, s, b.events, from, b.tree) && Grows(b, c, owners)
    requires AllTrue(ctx, ing, s, c.events, |b.events|, c.tree) && from <= |b.events|
    ensures AllTrue(ctx, ing, s, c.events, from, c.tree)
  {
    hide True, TreeGrows;
    forall i | from <= i < |c.events|
      ensures c.events[i].ingress == ing.Key() && True(ctx, ing, s, c.events[i], c.tree)
    {
      if i < |b.events| { TrueGrows(ctx, ing, s, c.events[i], b.tree, c.tree, owners); }
    }
  }

  // ---- one path ----

  lemma NodePortMisses(ports: seq<ServicePort>, backend: Backend, n: nat)
    requires n <= |ports| && FindNodePort(ports, backend, n).misses > 0
    ensures exists i :: 0 <= i < n && PortMatches(ports[i], backend) && ports[i].nodePort == 0
  {
    if !(PortMatches(ports[n - 1], backend) && ports[n - 1].nodePort == 0) { NodePortMisses(ports, backend, n - 1); }
  }

  lemma ServiceKindsAreFaults(ctx: Context, service: Service, ing: Ingress, ref: PathRef, backend: Backend, i: nat)
    requires i < |PoolForService(ctx, service, ing, ref, backend).kinds|
    ensures ServiceFault(ctx, service, ing, backend, PoolForService(ctx, service, ing, ref, backend).kinds[i])
  {
    hide GetAnnotation, Undecidable, FindNodePort, PortDecided, PathRef.PoolName;
    var s, a, c := service.annotations, ing.annotations, ctx.class_.annotations;
    AnnotationIsUndecidable(false, [s.poolTlsEnabled, a.poolTlsEnabled, c.poolTlsEnabled]);
    AnnotationIsUndecidable(false, [s.poolTlsSkipValidation, a.poolTlsSkipValidation, c.poolTlsSkipValidation]);
    AnnotationIsUndecidable("", [s.poolTlsCustomCa, a.poolTlsCustomCa, c.poolTlsCustomCa]);
    var search := FindNodePort(service.ports, backend, |service.ports|);
    if search.misses > 0 { NodePortMisses(service.ports, backend, |service.ports|); }
    if search.nodePort == 0 {
      forall nodePort ensures !PortDecided(service.ports, backend, nodePort) {
        PortIsDecided(service.ports, backend, nodePort);
      }
    }
  }

  lemma PoolKindsAreFaults(ctx: Context, t: WorkTree, ing: Ingress, r: nat, p: nat, i: nat)
    requires r < |ing.rules| && p < ing.PathCount(r) && i < |TargetPoolFor(ctx, t, ing, r, p).kinds|
    ensures var kind := TargetPoolFor(ctx, t, ing, r, p).kinds[i];
      PoolFault(ctx, ing, r, p, kind, t) && kind != ProtocolConflict && kind != PathExists
        && kind != HttpsOnlyWithoutCertificate
  {
    hide PoolForService;
    var path := ing.rules[r].http.value[p];
    if !(RefOf(ing, r, p) !in t.pools && |t.pools| >= LIMIT_TARGET_POOLS) && path.backend.Some?
       && ObjectKey(ing.namespace, path.backend.value.service) in ctx.services {
      ServiceKindsAreFaults(ctx, ctx.services[ObjectKey(ing.namespace, path.backend.value.service)], ing,
                            RefOf(ing, r, p), path.backend.value, i);
    }
  }

  /** Adding a path reports at most one event, and that is true. */
  lemma AddPathTells(ctx: Context, b: Build, ing: Ingress, s: Settings, r: nat, p: nat, protocol: Api.Protocol)
    requires r < |ing.rules| && p < ing.PathCount(r) && Wants(ing, s, protocol)
    requires var slot := SlotOf(ing, r, p, PortFor(s, protocol));
      slot in b.tree.paths && b.tree.protocols.Keys >= {slot.port} && b.tree.protocols[slot.port] == protocol ==>
        b.tree.paths[slot].ref != RefOf(ing, r, p)
    requires forall slot | slot in b.tree.paths :: slot.port in b.tree.protocols
    ensures var c := AddPath(b, ing, r, p, PortFor(s, protocol), protocol, s.webSocket).build;
      b.events <= c.events && AllTrue(ctx, ing, s, c.events, |b.events|, c.tree)
  {
    var port := PortFor(s, protocol);
    var c := AddPath(b, ing, r, p, port, protocol, s.webSocket).build;
    if Occupied(b.tree, port, protocol) {
      assert True(ctx, ing, s, ErrorEvent(ing.Key(), ProtocolConflict, []), c.tree);
    } else if SlotOf(ing, r, p, port) in b.tree.paths {
      assert Taken(c.tree, ing, r, p, port);
      assert True(ctx, ing, s, ErrorEvent(ing.Key(), PathExists, [r, p]), c.tree);
    }
  }

  /** HTTPS does not find the path of HTTP in its slot, unless that port serves HTTP. */
  lemma HttpSparesHttps(b: Build, ing: Ingress, s: Settings, r: nat, p: nat)
    requires r < |ing.rules| && p < ing.PathCount(r) && Unheard(b.tree, RefOf(ing, r, p)) && PathsInv(b.tree)
    ensures var t := AddHttp(b, ing, s, r, p).build.tree; var slot := SlotOf(ing, r, p, PortFor(s, Api.HTTPS));
      slot in t.paths && slot.port in t.protocols && t.protocols[slot.port] == Api.HTTPS ==>
        t.paths[slot].ref != RefOf(ing, r, p)
  {
    hide KeyOf;
  }

  lemma KindsAreTrue(ctx: Context, b: Build, ing: Ingress, s: Settings, r: nat, p: nat)
    requires r < |ing.rules| && p < ing.PathCount(r)
    ensures var kinds := TargetPoolFor(ctx, b.tree, ing, r, p).kinds;
      AllTrue(ctx, ing, s, b.events + EventsFor(ing, kinds, r, p), |b.events|, b.tree)
  {
    hide TargetPoolFor, PoolFault;
    var kinds := TargetPoolFor(ctx, b.tree, ing, r, p).kinds;
    var events := b.events + EventsFor(ing, kinds, r, p);
    forall i | |b.events| <= i < |events|
      ensures events[i].ingress == ing.Key() && True(ctx, ing, s, events[i], b.tree)
    {
      PoolKindsAreFaults(ctx, b.tree, ing, r, p, i - |b.events|);
    }
  }

  /** What one protocol adds to the events is true, and what was true stays so. */
  lemma ProtocolTells(ctx: Context, b: Build, ing: Ingress, s: Settings, r: nat, p: nat, protocol: Api.Protocol,
                      from: nat)
    requires r < |ing.rules| && p < ing.PathCount(r) && Wants(ing, s, protocol) && PortsFit(ing, s) && PathsInv(b.tree)
    requires from <= |b.events| && AllTrue(ctx, ing, s, b.events, from, b.tree)
    requires var slot := SlotOf(ing, r, p, PortFor(s, protocol));
      slot in b.tree.paths && slot.port in b.tree.protocols && b.tree.protocols[slot.port] == protocol ==>
        b.tree.paths[slot].ref != RefOf(ing, r, p)
    ensures var c := AddPath(b, ing, r, p, PortFor(s, protocol), protocol, s.webSocket).build;
      b.events <= c.events && AllTrue(ctx, ing, s, c.events, from, c.tree) && PathsInv(c.tree)
  {
    assert forall slot | slot in b.tree.paths :: slot.port in b.tree.protocols;
    hide True, AddPath, PathsInv, TreeGrows, SlotOf;
    AddPathTells(ctx, b, ing, s, r, p, protocol);
    AddPathEffect(b, ing, r, p, PortFor(s, protocol), protocol, s.webSocket);
    AllTrueGrows(ctx, ing, s, b, AddPath(b, ing, r, p, PortFor(s, protocol), protocol, s.webSocket).build, from,
                 {ing.Key()});
  }

  lemma PoolKeepsTrue(ctx: Context, ing: Ingress, s: Settings, b: Build, from: nat, ref: PathRef, pool: Api.TargetPool)
    requires AllTrue(ctx, ing, s, b.events, from, b.tree) && ref.Owner() == ing.Key()
    ensures AllTrue(ctx, ing, s, b.events, from, AddPool(b.tree, ref, pool))
  {
    hide True;
    TreeGrowsReflexive(b.tree, {ing.Key()});
    AddPoolGrows(b.tree, b.tree, ref, pool);
    hide TreeGrows;
    forall i | from <= i < |b.events| ensures True(ctx, ing, s, b.events[i], AddPool(b.tree, ref, pool)) {
      TrueGrows(ctx, ing, s, b.events[i], b.tree, AddPool(b.tree, ref, pool), {ing.Key()});
    }
  }

  lemma UnheardSlot(t: WorkTree, slot: Slot, ref: PathRef)
    requires Unheard(t, ref)
    ensures slot in t.paths ==> t.paths[slot].ref != ref
  {
  }

  lemma AdmitPathTells(ctx: Context, b: Build, ing: Ingress, s: Settings, r: nat, p: nat)
    requires r < |ing.rules| && p < ing.PathCount(r) && PortsFit(ing, s) && PathsInv(b.tree)
    requires Unheard(b.tree, RefOf(ing, r, p))
    ensures var c := AdmitPath(ctx, b, ing, s, r, p);
      b.events <= c.events && AllTrue(ctx, ing, s, c.events, |b.events|, c.tree)
  {
    hide TargetPoolFor, AddPath, PathsInv, True, PortsFit, Unheard, SlotOf, AllTrue;
    var result := TargetPoolFor(ctx, b.tree, ing, r, p);
    var reported := b.(events := b.events + EventsFor(ing, result.kinds, r, p));
    KindsAreTrue(ctx, b, ing, s, r, p);
    if result.pool.Some? {
      UnheardSlot(b.tree, SlotOf(ing, r, p, PortFor(s, Api.HTTP)), RefOf(ing, r, p));
      if !s.httpsOnly { ProtocolTells(ctx, reported, ing, s, r, p, Api.HTTP, |b.events|); }
      HttpSparesHttps(reported, ing, s, r, p);
      var http := AddHttp(reported, ing, s, r, p).build;
      if |ing.tls| > 0 { ProtocolTells(ctx, http, ing, s, r, p, Api.HTTPS, |b.events|); }
      PoolKeepsTrue(ctx, ing, s, AddHttps(http, ing, s, r, p).build, |b.events|, RefOf(ing, r, p), result.pool.value);
    }
  }

  // ---- one ingress ----

  lemma {:induction false} PathsTell(ctx: Context, b: Build, ing: Ingress, s: Settings, r: nat, n: nat)
    requires r < |ing.rules| && n <= ing.PathCount(r) && PortsFit(ing, s) && TreeInv(ctx, b.tree)
    requires !s.httpsOnly || |ing.tls| > 0
    requires forall p | 0 <= p < ing.PathCount(r) :: Unheard(b.tree, RefOf(ing, r, p))
    ensures var c := AdmitPathsUpTo(ctx, b, ing, s, r, n);
      b.events <= c.events && AllTrue(ctx, ing, s, c.events, |b.events|, c.tree)
  {
    hide True, AdmitPath, TreeInv, TreeGrows, PortsFit, ServedBefore, Served;
    if n > 0 {
      var m := AdmitPathsUpTo(ctx, b, ing, s, r, n - 1);
      PathsTell(ctx, b, ing, s, r, n - 1);
      AdmitPathsEffect(ctx, b, ing, s, r, n - 1);
      AdmitPathEffect(ctx, m, ing, s, r, n - 1);
      NoPaths(ctx, b, ing, s, r);
      PathsLater(ctx, b, ing, s, r, 0, n - 1, RefOf(ing, r, n - 1));
      StillUnheard(b.tree, m.tree, RefOf(ing, r, n - 1));
      assert PathsInv(m.tree) by { InvHasPathsInv(ctx, m.tree); }
      hide Unheard, Later, PathsInv, AllTrue;
      AdmitPathTells(ctx, m, ing, s, r, n - 1);
      AllTrueGrows(ctx, ing, s, m, AdmitPath(ctx, m, ing, s, r, n - 1), |b.events|, {ing.Key()});
    }
  }

  lemma InvHasPathsInv(ctx: Context, t: WorkTree)
    requires TreeInv(ctx, t)
    ensures PathsInv(t)
  {
  }

  lemma StillUnheard(t: WorkTree, u: WorkTree, ref: PathRef)
    requires Unheard(t, ref) && Later(t, u, ref)
    ensures Unheard(u, ref)
  {
  }

  /** No path of the ingress is in the tree yet. */
  ghost predicate New(t: WorkTree, ing: Ingress) {
    forall ref: PathRef :: ref.Owner() == ing.Key() ==> Unheard(t, ref)
  }

  lemma {:induction false} RulesTell(ctx: Context, b: Build, ing: Ingress, s: Settings, n: nat)
    requires n <= |ing.rules| && PortsFit(ing, s) && TreeInv(ctx, b.tree) && New(b.tree, ing)
    requires !s.httpsOnly || |ing.tls| > 0
    ensures var c := AdmitRulesUpTo(ctx, b, ing, s, n);
      b.events <= c.events && AllTrue(ctx, ing, s, c.events, |b.events|, c.tree)
  {
    hide True, AdmitPathsUpTo, TreeInv, TreeGrows, PortsFit, ServedBefore, Unheard, Later, AllTrue;
    if n > 0 {
      var m := AdmitRulesUpTo(ctx, b, ing, s, n - 1);
      RulesTell(ctx, b, ing, s, n - 1);
      AdmitRulesEffect(ctx, b, ing, s, n - 1);
      AdmitPathsEffect(ctx, m, ing, s, n - 1, ing.PathCount(n - 1));
      NoRules(ctx, b, ing, s);
      var r := n - 1;
      forall p | 0 <= p < ing.PathCount(r) ensures Unheard(m.tree, RefOf(ing, r, p)) {
        RulesLater(ctx, b, ing, s, 0, r, RefOf(ing, r, p));
        StillUnheard(b.tree, m.tree, RefOf(ing, r, p));
      }
      PathsTell(ctx, m, ing, s, n - 1, ing.PathCount(n - 1));
      AllTrueGrows(ctx, ing, s, m, AdmitPathsUpTo(ctx, m, ing, s, n - 1, ing.PathCount(n - 1)), |b.events|,
                   {ing.Key()});
    } else {
      NothingToTell(ctx, b, ing, s);
    }
  }

  lemma NothingToTell(ctx: Context, b: Build, ing: Ingress, s: Settings)
    ensures AllTrue(ctx, ing, s, b.events, |b.events|, b.tree)
  {
  }

  lemma {:induction false} TlsTells(ctx: Context, b: Build, ing: Ingress, s: Settings, n: nat)
    requires n <= |ing.tls| && PortsFit(ing, s) && TreeInv(ctx, b.tree)
    ensures var c := AdmitTlsUpTo(ctx, b, ing, s, n);
      b.events <= c.events && AllTrue(ctx, ing, s, c.events, |b.events|, c.tree)
  {
    hide TreeInv, TreeGrows, PortsFit, HasCertificate, AddCertificate;
    if n > 0 {
      var m := AdmitTlsUpTo(ctx, b, ing, s, n - 1);
      var c := AdmitTls(ctx, m, ing, s, n - 1);
      TlsTells(ctx, b, ing, s, n - 1);
      AdmitTlsUpToEffect(ctx, b, ing, s, n - 1);
      AdmitTlsEffect(ctx, m, ing, s, n - 1);
      assert AllTrue(ctx, ing, s, c.events, |m.events|, c.tree);
      hide True, AdmitTls;
      AllTrueGrows(ctx, ing, s, m, c, |b.events|, {ing.Key()});
    }
  }

  lemma SamePathsSameNew(t: WorkTree, u: WorkTree, ing: Ingress)
    requires New(t, ing) && u.paths == t.paths
    ensures New(u, ing)
  {
  }

  lemma HttpsOnlyTells(ctx: Context, b: Build, ing: Ingress, s: Settings, from: nat)
    requires AllTrue(ctx, ing, s, b.events, from, b.tree) && s.httpsOnly && ing.tls == []
    ensures AllTrue(ctx, ing, s, b.Report(ing, HttpsOnlyWithoutCertificate, []).events, from, b.tree)
  {
    assert True(ctx, ing, s, ErrorEvent(ing.Key(), HttpsOnlyWithoutCertificate, []), b.tree);
    hide True;
  }

  lemma AcceptedTells(ctx: Context, b: Build, ing: Ingress, s: Settings)
    requires TreeInv(ctx, b.tree) && New(b.tree, ing) && Settle(ctx.class_, ing) == Accepted(s)
    ensures var c := AdmitIngress(ctx, b, ing);
      b.events <= c.events && AllTrue(ctx, ing, s, c.events, |b.events|, c.tree)
  {
    hide AdmitTlsUpTo, AdmitRulesUpTo, Settle, PortsFit, TreeInv, TreeGrows, HasCertificate, ServedBefore, New, True;
    SettledPortsFit(ctx.class_, ing);
    var tls := AdmitTlsUpTo(ctx, b, ing, s, |ing.tls|);
    AdmitTlsOnce(ctx, b, ing, s, |ing.tls|);
    SamePathsSameNew(b.tree, tls.tree, ing);
    TlsTells(ctx, b, ing, s, |ing.tls|);
    AdmitTlsUpToEffect(ctx, b, ing, s, |ing.tls|);
    if |ing.tls| == 0 && s.httpsOnly {
      HttpsOnlyTells(ctx, tls, ing, s, |b.events|);
    } else {
      hide AllTrue;
      RulesTell(ctx, tls, ing, s, |ing.rules|);
      AdmitRulesEffect(ctx, tls, ing, s, |ing.rules|);
      AllTrueGrows(ctx, ing, s, tls, AdmitRulesUpTo(ctx, tls, ing, s, |ing.rules|), |b.events|, {ing.Key()});
    }
  }

  lemma IngressTells(ctx: Context, b: Build, ing: Ingress)
    requires TreeInv(ctx, b.tree) && New(b.tree, ing)
    ensures var c := AdmitIngress(ctx, b, ing);
      b.events <= c.events && forall i | |b.events| <= i < |c.events| :: Justified(ctx, ing, c.events[i], c.tree)
  {
    hide True, Settle, HasSettings, Misconfigured, TreeInv, New, AdmitTlsUpTo, AdmitRulesUpTo;
    var verdict := Settle(ctx.class_, ing);
    if verdict.Accepted? {
      AcceptedTells(ctx, b, ing, verdict.settings);
      SettingsIff(ctx.class_, ing, verdict.settings);
    } else {
      RejectionHasReason(ctx.class_, ing);
    }
  }

  // ---- all ingresses ----

  ghost predicate SomeoneJustifies(ctx: Context, ings: seq<Ingress>, e: ErrorEvent, t: WorkTree) {
    exists k :: 0 <= k < |ings| && Justified(ctx, ings[k], e, t)
  }

  lemma JustifiedGrows(ctx: Context, ing: Ingress, e: ErrorEvent, t: WorkTree, u: WorkTree, owners: set<ObjectKey>)
    requires Justified(ctx, ing, e, t) && TreeGrows(t, u, owners)
    ensures Justified(ctx, ing, e, u)
  {
    hide True, HasSettings, Misconfigured, TreeGrows;
    if s :| HasSettings(ctx.class_, ing, s) && True(ctx, ing, s, e, t) { TrueGrows(ctx, ing, s, e, t, u, owners); }
  }

  lemma LastIsNew(ctx: Context, ings: seq<Ingress>)
    requires ings != [] && DistinctKeys(ings)
    ensures New(AdmitAll(ctx, EMPTY_BUILD, ings[..|ings| - 1]).tree, ings[|ings| - 1])
  {
    hide AdmitAll;
    var n := |ings| - 1;
    forall ref: PathRef | ref.Owner() == ings[n].Key()
      ensures Unheard(AdmitAll(ctx, EMPTY_BUILD, ings[..n]).tree, ref)
    {
      assert ings[..n][..0] == [];
      NobodyAdmitted(ctx);
      AllLater(ctx, ings[..n], 0, ref);
    }
  }

  ghost predicate AllJustified(ctx: Context, ings: seq<Ingress>, b: Build) {
    forall i | 0 <= i < |b.events| :: SomeoneJustifies(ctx, ings, b.events[i], b.tree)
  }

  lemma AllJustifiedSnoc(ctx: Context, ings: seq<Ingress>, last: Ingress, m: Build, b: Build, owners: set<ObjectKey>)
    requires AllJustified(ctx, ings, m) && m.events <= b.events && TreeGrows(m.tree, b.tree, owners)
    requires forall i | |m.events| <= i < |b.events| :: Justified(ctx, last, b.events[i], b.tree)
    ensures AllJustified(ctx, ings + [last], b)
  {
    hide Justified, TreeGrows;
    var all := ings + [last];
    forall i | 0 <= i < |b.events| ensures SomeoneJustifies(ctx, all, b.events[i], b.tree) {
      if i < |m.events| {
        assert SomeoneJustifies(ctx, ings, m.events[i], m.tree);
        var k :| 0 <= k < |ings| && Justified(ctx, ings[k], m.events[i], m.tree);
        JustifiedGrows(ctx, ings[k], m.events[i], m.tree, b.tree, owners);
        assert Justified(ctx, all[k], b.events[i], b.tree);
      } else {
        assert Justified(ctx, all[|ings|], b.events[i], b.tree);
      }
    }
  }

  lemma NextIsJustified(ctx: Context, ings: seq<Ingress>, last: Ingress, m: Build)
    requires TreeInv(ctx, m.tree) && New(m.tree, last) && AllJustified(ctx, ings, m)
    ensures AllJustified(ctx, ings + [last], AdmitIngress(ctx, m, last))
  {
    hide AdmitIngress, TreeInv, TreeGrows, New, Justified, FullyServed, AllJustified;
    IngressTells(ctx, m, last);
    AdmitIngressEffect(ctx, m, last);
    AllJustifiedSnoc(ctx, ings, last, m, AdmitIngress(ctx, m, last), {last.Key()});
  }

  /** No false alarm: every event names an ingress of the list, which was rejected for the reason it gives, or for
      which it tells the truth about the objects in the cluster and the tree. */
  lemma {:induction false} EventsAreJustified(ctx: Context, ings: seq<Ingress>)
    requires DistinctKeys(ings)
    ensures AllJustified(ctx, ings, AdmitAll(ctx, EMPTY_BUILD, ings))
  {
    if ings != [] {
      var n := |ings| - 1;
      var m := AdmitAll(ctx, EMPTY_BUILD, ings[..n]);
      assert ings == ings[..n] + [ings[n]];
      EmptyTreeInv(ctx);
      LastIsNew(ctx, ings);
      EventsAreJustified(ctx, ings[..n]);
      hide AdmitIngress, TreeInv, TreeGrows, EventsGrow, New, AllJustified;
      AdmitAllKeepsInv(ctx, EMPTY_BUILD, ings[..n]);
      NextIsJustified(ctx, ings[..n], ings[n], m);
    } else {
      NobodyAdmitted(ctx);
    }
  }
}
