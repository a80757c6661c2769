/** What holds in every state of every run: certificates in use exist, and nothing outlives the class object. */
module Safety {
  import opened Options
  import opened Tree
  import opened Payload
  import opened PayloadProperties
  import opened Certificates
  import opened Diff
  import opened Protocol
  import Api = AlbApi

  // ---- the invariant ----

  /** Every certificate that the live load balancer refers to exists. */
  ghost predicate RefsExist(me: Me, w: World) {
    LiveRefs(me, w) <= OwnedIds(me, w)
  }

  ghost predicate HasFinalizer(w: World) {
    w.object_.Some? && w.object_.value.finalizer
  }

  /** As long as anything of the class exists outside the cluster, the class object cannot go away. */
  ghost predicate NoLeak(me: Me, w: World) {
    me.lbName in w.albs || OwnedIds(me, w) != {} ==> HasFinalizer(w)
  }

  /** What a copy of the object tells about the object now. */
  ghost predicate ReadBefore(w: World, o: ClassObject) {
    && (o.finalizer ==> HasFinalizer(w))
    && (w.object_.Some? ==> w.object_.value.version >= o.version)
    && (w.object_.Some? && w.object_.value.version == o.version ==> w.object_.value == o)
  }

  /** What a load balancer read earlier tells about the one that is live now. */
  ghost predicate LbReadBefore(me: Me, w: World, lb: Option<Api.LoadBalancer>) {
    && (lb.None? ==> me.lbName !in w.albs)
    && (lb.Some? && me.lbName in w.albs ==> SameConfig(lb.value.spec, w.albs[me.lbName].spec))
  }

  ghost predicate Held(me: Me, w: World, listed: seq<CertInfo>) {
    && Identified(listed)
    && forall i | 0 <= i < |listed| :: listed[i].id.value in OwnedIds(me, w)
  }

  ghost predicate PcInv(me: Me, s: State) {
    match s.pc
    case Idle => true
    case Fetched(o) => ReadBefore(s.w, o)
    case Finalized => HasFinalizer(s.w)
    case Seen(lb) => HasFinalizer(s.w) && LbReadBefore(me, s.w, lb)
    case Creating(plan, lb, listed, _) =>
      HasFinalizer(s.w) && LbReadBefore(me, s.w, lb) && Held(me, s.w, listed) && PlanFor(me, plan)
    case Cleaning(_, _, applied, rest) =>
      && HasFinalizer(s.w) && rest <= OwnedIds(me, s.w) && rest !! LiveRefs(me, s.w)
      && (me.lbName in s.w.albs ==> NormalForm(s.w.albs[me.lbName].spec) == applied)
    case TearSeen(o, lb) => ReadBefore(s.w, o) && (lb.None? ==> me.lbName !in s.w.albs)
    case TearCleaning(o, rest) =>
      ReadBefore(s.w, o) && me.lbName !in s.w.albs && rest == OwnedIds(me, s.w)
  }

  ghost predicate Inv(me: Me, s: State) {
    RefsExist(me, s.w) && NoLeak(me, s.w) && PcInv(me, s)
  }

  // ---- the environment keeps it ----

  lemma EnvKeepsInv(me: Me, s: State, s': State)
    requires Inv(me, s) && s'.pc == s.pc && EnvStep(me, s.w, s'.w)
    ensures Inv(me, s')
  {
  }

  // ---- the controller keeps it ----

  lemma StartKeepsInv(me: Me, s: State, s': State)
    requires Inv(me, s)
    requires GetClass(s, s') || SkipFinalizer(s, s') || AddFinalizer(s, s') || GetLb(me, s, s')
    ensures Inv(me, s')
  {
  }

  lemma SameStores(me: Me, w: World, w': World)
    requires w'.albs == w.albs && w'.certs == w.certs
    ensures OwnedIds(me, w') == OwnedIds(me, w) && LiveRefs(me, w') == LiveRefs(me, w)
  {
  }

  lemma ListKeepsInv(me: Me, s: State, s': State)
    requires Inv(me, s) && ListForPlan(me, s, s')
    ensures Inv(me, s')
  {
  }

  lemma CreateCertKeepsInv(me: Me, s: State, s': State)
    requires Inv(me, s) && CreateCert(me, s, s')
    ensures Inv(me, s')
  {
  }

  /** What the payload refers to is kept, and what is kept is not cleaned up. */
  lemma CleanupIsSafe(me: Me, s: State, p: Api.Payload)
    requires s.pc.Creating? && Held(me, s.w, s.pc.listed)
    requires p.listeners == OrDummy(LiveListeners(s.pc.plan.frame.class_, s.pc.plan.tree, Index(s.pc.listed).ids))
    ensures var rest := Cleanup(s.pc.plan.tree, Index(s.pc.listed));
      var refs := Api.ReferencedCertificates(p.listeners);
      refs <= OwnedIds(me, s.w) && rest <= OwnedIds(me, s.w) && rest !! refs
  {
    hide OwnedIds, LiveListeners, Index, KeptIds, Api.ReferencedCertificates, Cleanup;
    var t, x := s.pc.plan.tree, Index(s.pc.listed);
    CleanupSparesKept(t, s.pc.listed);
    PayloadRefersToKeptCertificates(s.pc.plan.frame.class_, t, x.ids);
    assert ListedIds(s.pc.listed) <= OwnedIds(me, s.w);
  }

  lemma PayloadListeners(f: Frame, t: WorkTree, ids: map<string, string>, p: Api.Payload)
    requires IsCreatePayload(f, t, ids, p) || exists e :: IsUpdatePayload(f, t, ids, e, p)
    ensures p.listeners == OrDummy(LiveListeners(f.class_, t, ids))
  {
  }

  lemma LbAppliedKeepsInv(me: Me, s: State, s': State, p: Api.Payload, lb: Api.LoadBalancer, call: Call)
    requires Inv(me, s) && NextCleaning(s, s', p) && SameConfig(p, lb.spec)
    requires p.listeners == OrDummy(LiveListeners(s.pc.plan.frame.class_, s.pc.plan.tree, Index(s.pc.listed).ids))
    requires s'.w == s.w.(albs := s.w.albs[me.lbName := lb], calls := s.w.calls + [call])
    ensures Inv(me, s')
  {
    CleanupIsSafe(me, s, p);
    SameConfigSameNormal(p, lb.spec);
    assert OwnedIds(me, s'.w) == OwnedIds(me, s.w);
    assert LiveRefs(me, s'.w) == Api.ReferencedCertificates(p.listeners);
    hide OwnedIds, LiveRefs, NormalForm, Index, Cleanup, Api.ReferencedCertificates, LiveListeners;
  }

  lemma ApplyKeepsInv(me: Me, s: State, s': State)
    requires Inv(me, s) && (CreateLb(me, s, s') || UpdateLb(me, s, s'))
    ensures Inv(me, s')
  {
    hide Inv, NextCleaning, NormalForm, LiveListeners, IsCreatePayload, IsUpdatePayload;
    if CreateLb(me, s, s') {
      var p, lb :| CreateLbWith(me, s, s', p, lb);
      assert s.pc.Creating? by { CleaningFromCreating(s, s', p); }
      PayloadListeners(s.pc.plan.frame, s.pc.plan.tree, Index(s.pc.listed).ids, p);
      LbAppliedKeepsInv(me, s, s', p, lb, CreateLoadBalancer);
    } else {
      var p, lb :| UpdateLbWith(me, s, s', p, lb);
      assert s.pc.Creating? by { CleaningFromCreating(s, s', p); }
      PayloadListeners(s.pc.plan.frame, s.pc.plan.tree, Index(s.pc.listed).ids, p);
      LbAppliedKeepsInv(me, s, s', p, lb, UpdateLoadBalancer);
    }
  }

  lemma CleaningFromCreating(s: State, s': State, p: Api.Payload)
    requires NextCleaning(s, s', p)
    ensures s.pc.Creating?
  {
  }

  /** Without an update the live load balancer refers to what the payload refers to, so the cleanup is as safe. */
  lemma KeepKeepsInv(me: Me, s: State, s': State)
    requires Inv(me, s) && KeepLb(s, s')
    ensures Inv(me, s')
  {
    hide NormalForm, LiveListeners, IsUpdatePayload, Index, Cleanup, Api.ReferencedCertificates, OwnedIds;
    var p :| KeepLbWith(s, s', p);
    PayloadListeners(s.pc.plan.frame, s.pc.plan.tree, Index(s.pc.listed).ids, p);
    CleanupIsSafe(me, s, p);
    SameNormalFormSameCertificates(s.pc.before.value.spec, p);
    if me.lbName in s.w.albs {
      SameConfigSameNormal(s.pc.before.value.spec, s.w.albs[me.lbName].spec);
    }
  }

  lemma DeleteKeepsInv(me: Me, s: State, s': State)
    requires Inv(me, s) && (DeleteCert(s, s') || TearDeleteCert(s, s'))
    ensures Inv(me, s')
  {
  }

  lemma TearKeepsInv(me: Me, s: State, s': State)
    requires Inv(me, s)
    requires TearGet(me, s, s') || TearList(me, s, s') || TearDelete(me, s, s') || RemoveFinalizer(s, s')
    ensures Inv(me, s')
  {
  }

  /** Every step of the controller and of its environment keeps the invariant. */
  lemma NextKeepsInv(me: Me, s: State, s': State)
    requires Inv(me, s) && Next(me, s, s')
    ensures Inv(me, s')
  {
    if Stop(s, s') {
    } else {
      hide Inv, EnvStep, GetClass, SkipFinalizer, AddFinalizer, GetLb, ListForPlan, CreateCert, CreateLb, UpdateLb,
           KeepLb,
           DeleteCert, TearGet, TearDelete, TearList, TearDeleteCert, RemoveFinalizer;
      if s'.pc == s.pc && EnvStep(me, s.w, s'.w) { EnvKeepsInv(me, s, s'); }
      else if GetClass(s, s') || SkipFinalizer(s, s') || AddFinalizer(s, s') || GetLb(me, s, s') {
        StartKeepsInv(me, s, s');
      }
      else if ListForPlan(me, s, s') { ListKeepsInv(me, s, s'); }
      else if CreateCert(me, s, s') { CreateCertKeepsInv(me, s, s'); }
      else if CreateLb(me, s, s') || UpdateLb(me, s, s') { ApplyKeepsInv(me, s, s'); }
      else if KeepLb(s, s') { KeepKeepsInv(me, s, s'); }
      else if DeleteCert(s, s') || TearDeleteCert(s, s') { DeleteKeepsInv(me, s, s'); }
      else { TearKeepsInv(me, s, s'); }
    }
  }

  lemma InitInv(me: Me, s: State)
    requires Init(me, s)
    ensures Inv(me, s)
  {
  }

  lemma {:induction false} RunKeepsInv(me: Me, run: seq<State>, i: nat)
    requires IsRun(me, run) && i < |run|
    ensures Inv(me, run[i])
  {
    hide Inv, Init, Next;
    if i == 0 {
      InitInv(me, run[0]);
    } else {
      RunKeepsInv(me, run, i - 1);
      NextKeepsInv(me, run[i - 1], run[i]);
    }
  }

  // ---- what that means for whole runs ----

  /** In every reachable state of every run, whatever failed and whatever else moved: the live load balancer only
      refers to certificates that exist, and as long as anything of the class exists, so does its finalizer. */
  lemma EveryReachableStateIsSafe(me: Me, run: seq<State>, i: nat)
    requires IsRun(me, run) && i < |run|
    ensures forall id | id in LiveRefs(me, run[i].w) :: id in run[i].w.certs && Owns(me, run[i].w.certs[id])
    ensures me.lbName in run[i].w.albs || OwnedIds(me, run[i].w) != {} ==>
              run[i].w.object_.Some? && run[i].w.object_.value.finalizer
  {
    hide IsRun, PcInv, LiveRefs;
    RunKeepsInv(me, run, i);
  }

  /** A certificate of the class is only ever deleted while the live load balancer does not refer to it: either
      the load balancer has the configuration this run applied or found applied, or it is gone for good. */
  lemma DeletionsAreSafe(me: Me, run: seq<State>, i: nat, id: string)
    requires IsRun(me, run) && i + 1 < |run|
    requires id in OwnedIds(me, run[i].w) && id !in OwnedIds(me, run[i + 1].w)
    ensures id !in LiveRefs(me, run[i].w)
    ensures
      || (run[i].pc.TearCleaning? && me.lbName !in run[i].w.albs)
      || (run[i].pc.Cleaning?
          && (me.lbName in run[i].w.albs ==> NormalForm(run[i].w.albs[me.lbName].spec) == run[i].pc.applied))
  {
    RunKeepsInv(me, run, i);
    var s, s' := run[i], run[i + 1];
    hide IsRun, NormalForm;
    assert Next(me, s, s') by { RunStep(me, run, i); }
    OnlyDeletesShrink(me, s, s', id);
  }

  lemma RunStep(me: Me, run: seq<State>, i: nat)
    requires IsRun(me, run) && i + 1 < |run|
    ensures Next(me, run[i], run[i + 1])
  {
  }

  lemma OnlyDeletesShrink(me: Me, s: State, s': State, id: string)
    requires Next(me, s, s') && id in OwnedIds(me, s.w) && id !in OwnedIds(me, s'.w)
    ensures DeleteCertWith(s, s', id) || TearDeleteCertWith(s, s', id)
  {
  }

  /** The finalizer only disappears once the load balancer and all certificates of the class are gone. */
  lemma FinalizerLeavesLast(me: Me, run: seq<State>, i: nat)
    requires IsRun(me, run) && i + 1 < |run|
    requires HasFinalizer(run[i].w) && !HasFinalizer(run[i + 1].w)
    ensures me.lbName !in run[i].w.albs && OwnedIds(me, run[i].w) == {} && run[i].pc.TearCleaning?
  {
    RunKeepsInv(me, run, i);
    RunKeepsInv(me, run, i + 1);
    RunStep(me, run, i);
    hide IsRun, OwnedIds, NextCleaning, IsCreatePayload, IsUpdatePayload, SameConfig, IsListing, PlanFor, Missing,
         NormalForm;
    var s, s' := run[i], run[i + 1];
    OnlyRemoveFinalizerRemoves(me, s, s');
    assert OwnedIds(me, s'.w) == OwnedIds(me, s.w) by { SameStores(me, s.w, s'.w); }
  }

  lemma OnlyRemoveFinalizerRemoves(me: Me, s: State, s': State)
    requires Next(me, s, s') && HasFinalizer(s.w) && !HasFinalizer(s'.w)
    ensures RemoveFinalizer(s, s')
  {
  }
}
