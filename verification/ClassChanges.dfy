/** Which changes of a class reach the load balancer. */
module ClassChanges {
  import opened Options
  import opened Kube
  import opened Sorting
  import opened Precedence
  import opened Targets
  import opened Tree
  import opened TreeProperties
  import opened Compiler
  import opened Payload
  import opened PayloadProperties
  import opened Diff
  import opened Protocol
  import opened Convergence
  import opened Progress
  import Api = AlbApi
  import Names

  // ---- payloads ----

  function LabelsOf(f: Frame): map<string, string> {
    MergeExtraLabels(map[LABEL_CLASS_UID := f.class_.uid], f.config.extraLabels)
  }

  ghost predicate SettingsDiffer(f: Frame, g: Frame) {
    || f.settings.sourceRanges != g.settings.sourceRanges
    || f.settings.planId != g.settings.planId
    || LabelsOf(f) != LabelsOf(g)
  }

  /** Apart from listeners and pools the comparison only sees source ranges, plan and labels. */
  lemma AssembleNoticedIff(f: Frame, g: Frame, ls: seq<Api.Listener>, ms: seq<Api.Listener>, pools: seq<Api.TargetPool>)
    ensures NormalForm(Assemble(f, ls, pools)) != NormalForm(Assemble(g, ms, pools))
            <==> SettingsDiffer(f, g) || NormListeners(ls) != NormListeners(ms)
  {
    hide NormListeners, NormPools;
  }

  /** The listeners only differ in the name of the firewall, and only if there are listeners at all. */
  lemma WafNoticedIff(c: IngressClass, d: IngressClass, t: WorkTree, ids: map<string, string>)
    ensures NormListeners(OrDummy(LiveListeners(c, t, ids))) != NormListeners(OrDummy(LiveListeners(d, t, ids)))
            <==> c.waf != d.waf && PortsOf(t, ids) != {}
  {
    var ps := SortPorts(PortsOf(t, ids));
    var ls, ms := LiveListeners(c, t, ids), LiveListeners(d, t, ids);
    SameMembers(ps, PortsOf(t, ids));
    hide PortsOf, SortPorts, NormHttp, Hosts, CertificateIds, Names.Decimal;
    assert PortsOf(t, ids) == {} <==> ps == [] by {
      if ps != [] { assert ps[0] in PortsOf(t, ids); }
    }
    if ps != [] {
      assert NormListeners(ls)[0] == NormListener(ls[0]) && NormListeners(ms)[0] == NormListener(ms[0]);
      assert ls[0] == ListenerOf(c, t, ids, ps[0]) && ms[0] == ListenerOf(d, t, ids, ps[0]);
      if c.waf == d.waf {
        forall i | 0 <= i < |ps| ensures ls[i] == ms[i] {
          assert ls[i] == ListenerOf(c, t, ids, ps[i]) && ms[i] == ListenerOf(d, t, ids, ps[i]);
        }
        assert ls == ms;
      }
    }
  }

  /** Some port can be served: it is an HTTP port, or some certificate is registered for it. */
  ghost predicate Serves(t: WorkTree) {
    exists port :: port in t.protocols && (t.protocols[port] == Api.HTTPS ==> HasCertificate(t, port))
  }

  lemma ServesIff(t: WorkTree, ids: map<string, string>)
    requires t.certificates.Keys <= ids.Keys
    ensures Serves(t) <==> PortsOf(t, ids) != {}
  {
    if Serves(t) {
      var port :| port in t.protocols && (t.protocols[port] == Api.HTTPS ==> HasCertificate(t, port));
      if t.protocols[port] == Api.HTTPS {
        var f :| f in t.certificates && port in t.certificates[f].ports;
        assert f in FingerprintsFor(t, ids, port);
      }
      assert port in PortsOf(t, ids);
    }
    if PortsOf(t, ids) != {} {
      var port :| port in PortsOf(t, ids);
      if t.protocols[port] == Api.HTTPS {
        var f :| f in FingerprintsFor(t, ids, port);
        assert HasCertificate(t, port);
      }
    }
  }

  /** What makes the comparison find a difference between two frames around one tree. */
  ghost predicate Noticed(f: Frame, g: Frame, t: WorkTree) {
    SettingsDiffer(f, g) || (f.class_.waf != g.class_.waf && Serves(t))
  }

  lemma PayloadNoticedIff(f: Frame, g: Frame, t: WorkTree, ids: map<string, string>, p: Api.Payload, q: Api.Payload)
    requires Unmistakable(t) && t.certificates.Keys <= ids.Keys
    requires IsCreatePayload(f, t, ids, p) && IsCreatePayload(g, t, ids, q)
    ensures NormalForm(p) != NormalForm(q) <==> Noticed(f, g, t)
  {
    hide NormalForm, LiveListeners, ArePools, SettingsDiffer, Serves, PortsOf, Assemble;
    PoolsAreUnique(t, p.targetPools, q.targetPools);
    ServesIff(t, ids);
    WafNoticedIff(f.class_, g.class_, t, ids);
    AssembleNoticedIff(f, g, OrDummy(LiveListeners(f.class_, t, ids)), OrDummy(LiveListeners(g.class_, t, ids)),
                       p.targetPools);
  }

  // ---- runs ----

  lemma SameAssignment(me: Me, w: World, t: WorkTree, ids: map<string, string>, ids': map<string, string>)
    requires OneEach(me, w, t, ids) && OneEach(me, w, t, ids')
    ensures forall f | f in t.certificates :: f in ids && f in ids' && ids[f] == ids'[f]
  {
    hide OwnedIds;
  }

  lemma PayloadIgnoresOtherIds(f: Frame, t: WorkTree, ids: map<string, string>, ids': map<string, string>,
                               p: Api.Payload)
    requires forall x | x in t.certificates :: x in ids && x in ids' && ids[x] == ids'[x]
    requires IsCreatePayload(f, t, ids, p)
    ensures IsCreatePayload(f, t, ids', p)
  {
    hide LiveListeners, ArePools, Assemble;
    ListenersDependOnTreeIds(f.class_, t, ids, ids');
  }

  /** At rest with one frame means at rest with the other exactly if the comparison sees no difference. */
  lemma AtRestIff(me: Me, w: World, f: Frame, g: Frame, t: WorkTree)
    requires AtRest(me, w, Plan(f, t)) && Unmistakable(t)
    ensures AtRest(me, w, Plan(g, t)) <==> !Noticed(f, g, t)
  {
    hide NormalForm, IsCreatePayload, OneEach, Noticed, Unmistakable;
    var ids, n :| SettledWith(me, w, Plan(f, t), ids, n);
    var p :| IsCreatePayload(f, t, ids, p) && NormalForm(p) == n;
    SameAssignment(me, w, t, ids, ids);
    if AtRest(me, w, Plan(g, t)) {
      var ids', n' :| SettledWith(me, w, Plan(g, t), ids', n');
      var q :| IsCreatePayload(g, t, ids', q) && NormalForm(q) == n';
      SameAssignment(me, w, t, ids', ids);
      PayloadIgnoresOtherIds(g, t, ids', ids, q);
      PayloadNoticedIff(f, g, t, ids, p, q);
    }
    if !Noticed(f, g, t) {
      var q := PayloadExists(g, t, ids);
      PayloadNoticedIff(f, g, t, ids, p, q);
      assert SettledWith(me, w, Plan(g, t), ids, n);
    }
  }

  /** A class at rest is edited. The next undisturbed reconcile makes a call exactly if the edit is noticed. */
  lemma ReconcileNoticesIff(me: Me, f: Frame, g: Frame, t: WorkTree, run: seq<State>)
    requires QuietRun(me, Plan(g, t), run) && AtRest(me, run[0].w, Plan(f, t)) && Unmistakable(t)
    ensures run[|run| - 1].w.calls != run[0].w.calls <==> Noticed(f, g, t)
  {
    assert Fingerprinted(me, run[0].w) by { RestIsFingerprinted(me, run[0].w, Plan(f, t)); }
    hide QuietRun, Settled, Noticed, Unmistakable, Fingerprinted;
    AtRestIff(me, run[0].w, f, g, t);
    QuietIffAtRest(me, Plan(g, t), run);
  }

  lemma RestIsFingerprinted(me: Me, w: World, plan: Plan)
    requires Settled(me, w, plan)
    ensures Fingerprinted(me, w)
  {
    hide Applied;
    var ids, n :| SettledWith(me, w, plan, ids, n);
  }

  // ---- the tree does not depend on what only the frame uses ----

  lemma SettleIgnores(c: IngressClass, d: IngressClass, ing: Ingress)
    requires c.annotations == d.annotations
    ensures Settle(c, ing) == Settle(d, ing)
  {
  }

  lemma {:induction false} TlsIgnores(ctx: Context, d: IngressClass, b: Build, ing: Ingress, s: Settings, n: nat)
    requires n <= |ing.tls|
    ensures AdmitTlsUpTo(ctx.(class_ := d), b, ing, s, n) == AdmitTlsUpTo(ctx, b, ing, s, n)
  {
    if n > 0 { TlsIgnores(ctx, d, b, ing, s, n - 1); }
  }

  lemma PathIgnores(ctx: Context, d: IngressClass, b: Build, ing: Ingress, s: Settings, r: nat, p: nat)
    requires r < |ing.rules| && p < ing.PathCount(r) && d.annotations == ctx.class_.annotations
    ensures AdmitPath(ctx.(class_ := d), b, ing, s, r, p) == AdmitPath(ctx, b, ing, s, r, p)
  {
    hide AddHttp, AddHttps;
    assert TargetPoolFor(ctx.(class_ := d), b.tree, ing, r, p) == TargetPoolFor(ctx, b.tree, ing, r, p);
  }

  lemma {:induction false} PathsIgnore(ctx: Context, d: IngressClass, b: Build, ing: Ingress, s: Settings, r: nat,
                                       n: nat)
    requires r < |ing.rules| && n <= ing.PathCount(r) && d.annotations == ctx.class_.annotations
    ensures AdmitPathsUpTo(ctx.(class_ := d), b, ing, s, r, n) == AdmitPathsUpTo(ctx, b, ing, s, r, n)
  {
    hide AdmitPath;
    if n > 0 {
      PathsIgnore(ctx, d, b, ing, s, r, n - 1);
      PathIgnores(ctx, d, AdmitPathsUpTo(ctx, b, ing, s, r, n - 1), ing, s, r, n - 1);
    }
  }

  lemma {:induction false} RulesIgnore(ctx: Context, d: IngressClass, b: Build, ing: Ingress, s: Settings, n: nat)
    requires n <= |ing.rules| && d.annotations == ctx.class_.annotations
    ensures AdmitRulesUpTo(ctx.(class_ := d), b, ing, s, n) == AdmitRulesUpTo(ctx, b, ing, s, n)
  {
    hide AdmitPathsUpTo;
    if n > 0 {
      RulesIgnore(ctx, d, b, ing, s, n - 1);
      PathsIgnore(ctx, d, AdmitRulesUpTo(ctx, b, ing, s, n - 1), ing, s, n - 1, ing.PathCount(n - 1));
    }
  }

  lemma {:induction false} AllIgnore(ctx: Context, d: IngressClass, b: Build, ings: seq<Ingress>)
    requires d.annotations == ctx.class_.annotations
    ensures AdmitAll(ctx.(class_ := d), b, ings) == AdmitAll(ctx, b, ings)
  {
    hide Settle, AdmitTlsUpTo, AdmitRulesUpTo;
    if ings != [] {
      var n := |ings| - 1;
      var m := AdmitAll(ctx, b, ings[..n]);
      AllIgnore(ctx, d, b, ings[..n]);
      SettleIgnores(d, ctx.class_, ings[n]);
      var verdict := Settle(d, ings[n]);
      if verdict.Accepted? {
        var tls := AdmitTlsUpTo(ctx, m, ings[n], verdict.settings, |ings[n].tls|);
        TlsIgnores(ctx, d, m, ings[n], verdict.settings, |ings[n].tls|);
        RulesIgnore(ctx, d, tls, ings[n], verdict.settings, |ings[n].rules|);
      }
    }
  }

  /** Only those annotations of the class that ingresses inherit matter to the tree. */
  lemma BuildIgnoresEdit(i: Inputs, d: IngressClass, b: Build)
    requires IsBuild(i, b) && d.annotations == i.class_.annotations
    ensures IsBuild(i.(class_ := d), b)
  {
    hide AdmitAll, IsTargets, Bounded, Sorted;
    var order, targets :| IsBuildWith(i, b, order, targets);
    AllIgnore(ContextOf(i, targets), d, EMPTY_BUILD, order);
    assert ContextOf(i.(class_ := d), targets) == ContextOf(i, targets).(class_ := d);
    assert IsBuildWith(i.(class_ := d), b, order, targets);
  }

  // ---- edits of a class ----

  /** The edit keeps uid, name and the annotations that ingresses inherit; it may change everything else. */
  ghost predicate IsEdit(c: IngressClass, d: IngressClass) {
    d.uid == c.uid && d.name == c.name && d.annotations == c.annotations
  }

  /** There is one service plan, so an edit between valid classes cannot change it. */
  lemma OnePlan(c: IngressClass)
    requires SettleClass(c).Ok?
    ensures SettleClass(c).value.planId == DEFAULT_PLAN
  {
  }

  /** When an edit of a class at rest is noticed: exactly if it changes the source ranges, or the firewall of a class
      that has listeners. The tree is the same before and after. */
  lemma ClassEditIsNoticedIff(me: Me, i: Inputs, d: IngressClass, s: ClassSettings, s': ClassSettings, config: Config,
                              b: Build, run: seq<State>)
    requires IsBuild(i, b) && DistinctUids(multiset(i.ingresses)) && IsEdit(i.class_, d)
    requires SettleClass(i.class_) == Ok(s) && SettleClass(d) == Ok(s')
    requires QuietRun(me, Plan(Frame(d, s', config), b.tree), run)
    requires AtRest(me, run[0].w, Plan(Frame(i.class_, s, config), b.tree))
    ensures IsBuild(i.(class_ := d), b)
    ensures run[|run| - 1].w.calls != run[0].w.calls
            <==> s.sourceRanges != s'.sourceRanges || (i.class_.waf != d.waf && Serves(b.tree))
  {
    hide AtRest, QuietRun, SettleClass, Serves;
    OnePlan(i.class_);
    OnePlan(d);
    BuildIgnoresEdit(i, d, b);
    BuildIsUnmistakable(i, b);
    ReconcileNoticesIff(me, Frame(i.class_, s, config), Frame(d, s', config), b.tree, run);
  }

  lemma BuildIsUnmistakable(i: Inputs, b: Build)
    requires IsBuild(i, b) && DistinctUids(multiset(i.ingresses))
    ensures Unmistakable(b.tree)
  {
    hide AdmitAll, IsTargets, Bounded, Sorted;
    var order, targets :| IsBuildWith(i, b, order, targets);
    DistinctUidsGiveDistinctNames(ContextOf(i, targets), order);
  }

  // ---- the external address ----

  /** Only the external address and the choice between public and internal differ. */
  ghost predicate OnlyAddressesDiffer(c: IngressClass, d: IngressClass) {
    d == c.(externalIP := d.externalIP, externalIPIsV4 := d.externalIPIsV4, internal := d.internal)
  }

  /** Setting, changing or removing the external address of a class at rest causes no call at all: the address
      is neither promoted nor released before something else changes. */
  lemma AddressEditIsNotNoticed(me: Me, i: Inputs, d: IngressClass, s: ClassSettings, s': ClassSettings, config: Config,
                                b: Build, run: seq<State>)
    requires IsBuild(i, b) && DistinctUids(multiset(i.ingresses)) && OnlyAddressesDiffer(i.class_, d)
    requires SettleClass(i.class_) == Ok(s) && SettleClass(d) == Ok(s')
    requires QuietRun(me, Plan(Frame(d, s', config), b.tree), run)
    requires AtRest(me, run[0].w, Plan(Frame(i.class_, s, config), b.tree))
    ensures run[|run| - 1].w == run[0].w
  {
    hide AtRest, QuietRun, Serves, IsBuild;
    ClassEditIsNoticedIff(me, i, d, s, s', config, b, run);
    assert |run| > 1 by { RunIsLong(me, Plan(Frame(d, s', config), b.tree), run); }
    NoCallsNoChange(me, Plan(Frame(d, s', config), b.tree), run, |run| - 1);
  }

  /** The payload of an internal class is without external address exactly if the class has none. */
  lemma InternalAddressIsDroppedIff(c: IngressClass, s: ClassSettings, config: Config, t: WorkTree,
                                    ids: map<string, string>, p: Api.Payload)
    requires SettleClass(c) == Ok(s) && s.internal && IsCreatePayload(Frame(c, s, config), t, ids, p)
    ensures p.externalAddress.None? <==> c.externalIP == ""
    ensures p.externalAddress.Some? ==> p.externalAddress.value == c.externalIP
  {
    hide ArePools, LiveListeners;
  }

  /** An internal class whose address is not ignored. */
  lemma InternalAddressIsSent(c: IngressClass, config: Config, t: WorkTree, ids: map<string, string>, p: Api.Payload)
    requires c.networkMode == NETWORK_MODE_NODE_PORT && c.planId == "" && c.sourceRanges == []
    requires c.internal == Given(true) && c.externalIP == "192.0.2.1" && c.externalIPIsV4
    ensures SettleClass(c).Ok? && SettleClass(c).value.internal
    ensures IsCreatePayload(Frame(c, SettleClass(c).value, config), t, ids, p) ==>
              p.externalAddress == Some("192.0.2.1")
  {
    hide ArePools, LiveListeners;
  }
}
