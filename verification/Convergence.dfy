/** One undisturbed reconcile brings everything in line; another one then has nothing left to do. */
module Convergence {
  import opened Options
  import opened Sorting
  import opened Tree
  import opened Payload
  import opened PayloadProperties
  import opened Certificates
  import opened Diff
  import opened Protocol
  import opened Compiler
  import opened Targets
  import Api = AlbApi
  import Kube
  import Names

  // ---- undisturbed runs ----

  /** A step of a reconcile with this plan in which no call fails and the API reports the fingerprint that the
      controller computed itself. */
  ghost predicate QuietStep(me: Me, plan: Plan, s: State, s': State) {
    || GetClass(s, s')
    || SkipFinalizer(s, s')
    || (AddFinalizer(s, s') && s'.pc == Finalized)
    || GetLb(me, s, s')
    || (ListForPlan(me, s, s') && s'.pc.plan == plan)
    || (s'.pc.Creating? && exists f, id :: CreateCertWith(me, s, s', f, id, Some(f)))
    || (s'.pc.Cleaning? && (CreateLb(me, s, s') || UpdateLb(me, s, s') || KeepLb(s, s') || DeleteCert(s, s')))
    || (s.pc.Cleaning? && s.pc.rest == {} && Stop(s, s'))
  }

  /** A complete reconcile: from fetching the class to having nothing left to clean up. */
  ghost predicate QuietRun(me: Me, plan: Plan, run: seq<State>) {
    && |run| > 1 && run[0].pc.Idle? && run[|run| - 1].pc.Idle?
    && (forall i | 0 < i < |run| - 1 :: !run[i].pc.Idle?)
    && (forall i | 0 <= i < |run| - 1 :: QuietStep(me, plan, run[i], run[i + 1]))
  }

  /** A reconcile so far: it has begun and has not come to its end. */
  ghost predicate QuietPart(me: Me, plan: Plan, run: seq<State>) {
    && run != [] && run[0].pc.Idle?
    && (forall i | 0 < i < |run| :: !run[i].pc.Idle?)
    && (forall i | 0 <= i < |run| - 1 :: QuietStep(me, plan, run[i], run[i + 1]))
  }

  lemma QuietPartSnoc(me: Me, plan: Plan, run: seq<State>, s: State)
    requires QuietPart(me, plan, run) && QuietStep(me, plan, run[|run| - 1], s)
    ensures !s.pc.Idle? ==> QuietPart(me, plan, run + [s])
    ensures s.pc.Idle? ==> QuietRun(me, plan, run + [s])
  {
    hide QuietStep;
    var all := run + [s];
    forall i | 0 <= i < |all| - 1 ensures QuietStep(me, plan, all[i], all[i + 1]) {
      if i < |run| - 1 { assert all[i] == run[i] && all[i + 1] == run[i + 1]; }
    }
  }

  /** The same for the part of a longer run that starts at `from`. */
  lemma QuietPartGrows(me: Me, plan: Plan, run: seq<State>, from: nat, s: State)
    requires from < |run| && QuietPart(me, plan, run[from..]) && QuietStep(me, plan, run[|run| - 1], s)
    ensures !s.pc.Idle? ==> QuietPart(me, plan, (run + [s])[from..])
    ensures s.pc.Idle? ==> QuietRun(me, plan, (run + [s])[from..])
  {
    hide QuietStep, QuietPart, QuietRun;
    assert (run + [s])[from..] == run[from..] + [s];
    QuietPartSnoc(me, plan, run[from..], s);
  }

  // ---- the goal ----

  /** There is exactly one certificate per fingerprint of the tree, namely `ids`. */
  ghost predicate OneEach(me: Me, w: World, t: WorkTree, ids: map<string, string>) {
    && (forall f | f in t.certificates ::
          f in ids && ids[f] in OwnedIds(me, w) && w.certs[ids[f]].fingerprint == Some(f))
    && (forall id | id in OwnedIds(me, w) :: w.certs[id].fingerprint.Some?
          && w.certs[id].fingerprint.value in t.certificates && Lookup(ids, w.certs[id].fingerprint.value) == Some(id))
  }

  /** The load balancer is what the plan asks for, as far as the comparison can tell. */
  ghost predicate Applied(me: Me, w: World, plan: Plan, ids: map<string, string>, n: Normal) {
    && me.lbName in w.albs && NormalForm(w.albs[me.lbName].spec) == n
    && exists p :: IsCreatePayload(plan.frame, plan.tree, ids, p) && NormalForm(p) == n
  }

  ghost predicate SettledWith(me: Me, w: World, plan: Plan, ids: map<string, string>, n: Normal) {
    OneEach(me, w, plan.tree, ids) && Applied(me, w, plan, ids, n)
  }

  ghost predicate Settled(me: Me, w: World, plan: Plan) {
    exists ids, n :: SettledWith(me, w, plan, ids, n)
  }

  /** A settled world in which the object already carries the finalizer. */
  ghost predicate AtRest(me: Me, w: World, plan: Plan) {
    Settled(me, w, plan) && w.object_.Some? && w.object_.value.finalizer && !w.object_.value.deleting
  }

  // ---- the way there ----

  ghost predicate Fingerprinted(me: Me, w: World) {
    forall id | id in OwnedIds(me, w) :: w.certs[id].fingerprint.Some?
  }

  /** Of the certificates, those in `rest` remain to be deleted; the others are one per fingerprint of the tree. */
  ghost predicate OneEachExcept(me: Me, w: World, t: WorkTree, ids: map<string, string>, rest: set<string>) {
    && (forall f | f in t.certificates ::
          f in ids && ids[f] in OwnedIds(me, w) && ids[f] !in rest && w.certs[ids[f]].fingerprint == Some(f))
    && (forall id | id in OwnedIds(me, w) && id !in rest :: w.certs[id].fingerprint.Some?
          && w.certs[id].fingerprint.value in t.certificates && Lookup(ids, w.certs[id].fingerprint.value) == Some(id))
  }

  /** The class is not being deleted, and from the first step on that matters it carries the finalizer. */
  ghost predicate ObjectReady(s: State) {
    && s.w.object_.Some? && !s.w.object_.value.deleting
    && (if s.pc.Fetched? then s.w.object_ == Some(s.pc.obj) else s.w.object_.value.finalizer)
  }

  ghost predicate OnTheWay(me: Me, plan: Plan, s: State) {
    && Fingerprinted(me, s.w) && ObjectReady(s)
    && match s.pc
       case Idle => Settled(me, s.w, plan)
       case Fetched(_) => true
       case Finalized => true
       case Seen(lb) => lb == MyLb(me, s.w)
       case Creating(p, lb, listed, missing) =>
         p == plan && lb == MyLb(me, s.w) && IsListing(me, s.w, listed) && missing == Missing(plan.tree, listed).Keys
       case Cleaning(p, ids, applied, rest) =>
         p == plan && OneEachExcept(me, s.w, plan.tree, ids, rest) && Applied(me, s.w, plan, ids, applied)
       case _ => false
  }

  lemma {:induction false} CreateKeepsListing(me: Me, plan: Plan, s: State, s': State, f: string, id: string)
    requires OnTheWay(me, plan, s) && s'.pc.Creating? && CreateCertWith(me, s, s', f, id, Some(f))
    ensures OnTheWay(me, plan, s')
  {
    var c := CertInfo(Some(id), Some(f));
    var listed := s.pc.listed;
    assert s'.pc.listed == listed + [c];
    assert OwnedIds(me, s'.w) == OwnedIds(me, s.w) + {id};
    assert id !in OwnedIds(me, s.w);
    hide OwnedIds;
    ListingGrows(me, s.w, s'.w, listed, c);
    hide IsListing, Identified, ListedIds;
    ListedSnoc(listed, c);
    assert s'.pc.missing == Missing(plan.tree, listed + [c]).Keys;
  }

  lemma ListingGrows(me: Me, w: World, w': World, listed: seq<CertInfo>, c: CertInfo)
    requires IsListing(me, w, listed) && c.id.Some? && c.id.value !in OwnedIds(me, w)
    requires OwnedIds(me, w') == OwnedIds(me, w) + {c.id.value}
    requires c.id.value in w'.certs && w'.certs[c.id.value].fingerprint == c.fingerprint
    requires forall id | id in OwnedIds(me, w) :: w'.certs[id] == w.certs[id]
    ensures IsListing(me, w', listed + [c])
  {
    hide OwnedIds;
    var all := listed + [c];
    forall id | id in OwnedIds(me, w') ensures id in ListedIds(all) {
      if id == c.id.value {
        assert all[|listed|].id.value == id;
      } else {
        assert id in ListedIds(listed);
        var i :| 0 <= i < |listed| && listed[i].id.Some? && listed[i].id.value == id;
        assert all[i].id.value == id;
      }
    }
  }

  lemma OwnedAreStored(me: Me, w: World)
    ensures forall id | id in OwnedIds(me, w) :: id in w.certs
  {
  }

  /** Once no certificate is missing, the index has one certificate for each fingerprint of the tree, and the
      cleanup has all the others. */
  lemma IndexedIsOneEach(me: Me, plan: Plan, s: State)
    requires OnTheWay(me, plan, s) && s.pc.Creating? && s.pc.missing == {}
    ensures OneEachExcept(me, s.w, plan.tree, Index(s.pc.listed).ids, Cleanup(plan.tree, Index(s.pc.listed)))
  {
    hide Index, OwnedIds, Cleanup, Applied;
    var listed, t := s.pc.listed, plan.tree;
    var x := Index(listed);
    var rest := Cleanup(t, x);
    CleanupSparesKept(t, listed);
    IndexSplits(listed);
    IndexForgetsNothing(listed);
    OwnedAreStored(me, s.w);
    forall f | f in t.certificates
      ensures f in x.ids && x.ids[f] in OwnedIds(me, s.w) && x.ids[f] !in rest
      ensures s.w.certs[x.ids[f]].fingerprint == Some(f)
    {
      assert f !in Missing(t, listed).Keys;
      assert f in ListedFingerprints(listed);
      var i :| 0 <= i < |listed| && listed[i].fingerprint.Some? && listed[i].fingerprint.value == f;
      assert f in x.ids;
      assert ListsId(listed, f, x.ids[f]);
      var k :| 0 <= k < |listed| && listed[k] == CertInfo(Some(x.ids[f]), Some(f));
      assert x.ids[f] in KeptIds(t, x.ids);
    }
    forall id | id in OwnedIds(me, s.w) && id !in rest
      ensures s.w.certs[id].fingerprint.Some? && s.w.certs[id].fingerprint.value in t.certificates
      ensures Lookup(x.ids, s.w.certs[id].fingerprint.value) == Some(id)
    {
      var i :| 0 <= i < |listed| && listed[i].id.Some? && listed[i].id.value == id;
      CleanupIsComplete(t, listed, i);
    }
  }

  lemma ReviseSameNormal(p: Api.Payload, lb: Api.LoadBalancer)
    ensures NormalForm(Revise(p, lb)) == NormalForm(p)
  {
  }

  lemma AppliedByCreate(me: Me, w: World, plan: Plan, ids: map<string, string>, p: Api.Payload)
    requires me.lbName in w.albs && SameConfig(p, w.albs[me.lbName].spec)
    requires IsCreatePayload(plan.frame, plan.tree, ids, p)
    ensures Applied(me, w, plan, ids, NormalForm(p))
  {
  }

  lemma AppliedByUpdate(me: Me, w: World, plan: Plan, ids: map<string, string>, p: Api.Payload, e: Api.LoadBalancer)
    requires me.lbName in w.albs && NormalForm(w.albs[me.lbName].spec) == NormalForm(p)
    requires IsUpdatePayload(plan.frame, plan.tree, ids, e, p)
    ensures Applied(me, w, plan, ids, NormalForm(p))
  {
  }

  lemma OneEachIgnoresAlbs(me: Me, w: World, w': World, t: WorkTree, ids: map<string, string>, rest: set<string>)
    requires w'.certs == w.certs && OneEachExcept(me, w, t, ids, rest) && Fingerprinted(me, w)
    ensures OneEachExcept(me, w', t, ids, rest) && Fingerprinted(me, w')
  {
  }

  lemma ApplyKeepsWay(me: Me, plan: Plan, s: State, s': State)
    requires OnTheWay(me, plan, s) && s'.pc.Cleaning? && (CreateLb(me, s, s') || UpdateLb(me, s, s') || KeepLb(s, s'))
    ensures OnTheWay(me, plan, s')
  {
    hide NormalForm, IsCreatePayload, IsUpdatePayload, Index, Cleanup, OneEachExcept, Applied, SameConfig, Missing,
         IsListing, Fingerprinted;
    if CreateLb(me, s, s') {
      var p, lb :| CreateLbWith(me, s, s', p, lb);
      AppliedByCreate(me, s'.w, plan, Index(s.pc.listed).ids, p);
    } else if UpdateLb(me, s, s') {
      var p, lb :| UpdateLbWith(me, s, s', p, lb);
      SameConfigSameNormal(p, lb.spec);
      AppliedByUpdate(me, s'.w, plan, Index(s.pc.listed).ids, p, s.pc.before.value);
    } else {
      var p :| KeepLbWith(s, s', p);
      assert me.lbName in s.w.albs && s.w.albs[me.lbName] == s.pc.before.value;
      AppliedByUpdate(me, s'.w, plan, Index(s.pc.listed).ids, p, s.pc.before.value);
    }
    var x := Index(s.pc.listed);
    IndexedIsOneEach(me, plan, s);
    OneEachIgnoresAlbs(me, s.w, s'.w, plan.tree, x.ids, Cleanup(plan.tree, x));
  }

  lemma DeleteKeepsWay(me: Me, plan: Plan, s: State, s': State)
    requires OnTheWay(me, plan, s) && s'.pc.Cleaning? && DeleteCert(s, s')
    ensures OnTheWay(me, plan, s')
  {
    hide NormalForm, IsCreatePayload;
    var id :| DeleteCertWith(s, s', id);
    assert OwnedIds(me, s'.w) == OwnedIds(me, s.w) - {id};
    hide OwnedIds;
  }

  lemma CleanedIsSettled(me: Me, plan: Plan, s: State, s': State)
    requires OnTheWay(me, plan, s) && s.pc.Cleaning? && s.pc.rest == {} && Stop(s, s')
    ensures OnTheWay(me, plan, s')
  {
    hide OwnedIds, Applied;
    assert SettledWith(me, s'.w, plan, s.pc.ids, s.pc.applied);
  }

  lemma StartKeepsWay(me: Me, plan: Plan, s: State, s': State)
    requires OnTheWay(me, plan, s) && !s.pc.Idle?
    requires SkipFinalizer(s, s') || (AddFinalizer(s, s') && s'.pc == Finalized) || GetLb(me, s, s')
             || (ListForPlan(me, s, s') && s'.pc.plan == plan)
    ensures OnTheWay(me, plan, s')
  {
  }

  lemma QuietStepKeepsWay(me: Me, plan: Plan, s: State, s': State)
    requires OnTheWay(me, plan, s) && !s.pc.Idle? && QuietStep(me, plan, s, s')
    ensures OnTheWay(me, plan, s')
  {
    hide OnTheWay, SkipFinalizer, AddFinalizer, GetLb, ListForPlan, CreateCertWith, CreateLb, UpdateLb, KeepLb,
         DeleteCert, Stop;
    if s'.pc.Creating? && exists f, id :: CreateCertWith(me, s, s', f, id, Some(f)) {
      var f, id :| CreateCertWith(me, s, s', f, id, Some(f));
      CreateKeepsListing(me, plan, s, s', f, id);
    } else if s'.pc.Cleaning? && (CreateLb(me, s, s') || UpdateLb(me, s, s') || KeepLb(s, s')) {
      ApplyKeepsWay(me, plan, s, s');
    } else if s'.pc.Cleaning? && DeleteCert(s, s') {
      DeleteKeepsWay(me, plan, s, s');
    } else if s.pc.Cleaning? && s.pc.rest == {} && Stop(s, s') {
      CleanedIsSettled(me, plan, s, s');
    } else {
      StartKeepsWay(me, plan, s, s');
    }
  }

  lemma {:induction false} QuietRunStaysOnTheWay(me: Me, plan: Plan, run: seq<State>, i: nat)
    requires QuietRun(me, plan, run) && 0 < i < |run|
    requires Fingerprinted(me, run[0].w) && run[0].w.object_.Some? && !run[0].w.object_.value.deleting
    ensures OnTheWay(me, plan, run[i])
  {
    assert QuietStep(me, plan, run[i - 1], run[i]);
    if i == 1 {
      hide ListForPlan, CreateCertWith, CreateLb, UpdateLb, KeepLb;
      assert GetClass(run[0], run[1]) by { IdleFetches(me, plan, run[0], run[1]); }
    } else {
      assert !run[i - 1].pc.Idle?;
      hide QuietRun, QuietStep, OnTheWay;
      QuietRunStaysOnTheWay(me, plan, run, i - 1);
      QuietStepKeepsWay(me, plan, run[i - 1], run[i]);
    }
  }

  lemma IdleFetches(me: Me, plan: Plan, s: State, s': State)
    requires s.pc.Idle? && QuietStep(me, plan, s, s')
    ensures GetClass(s, s')
  {
  }

  /** Convergence: whatever load balancer and certificates earlier runs left behind, one undisturbed reconcile
      leaves exactly one certificate per fingerprint of the tree and a load balancer equal to the payload. */
  lemma OneReconcileSettles(me: Me, plan: Plan, run: seq<State>)
    requires QuietRun(me, plan, run)
    requires Fingerprinted(me, run[0].w) && run[0].w.object_.Some? && !run[0].w.object_.value.deleting
    ensures AtRest(me, run[|run| - 1].w, plan)
  {
    hide Settled, QuietStep;
    QuietRunStaysOnTheWay(me, plan, run, |run| - 1);
  }

  // ---- nothing left to do ----

  /** Nothing has changed since `w`, and the local variables ask for no change either. */
  ghost predicate Untouched(me: Me, w: World, plan: Plan, s: State) {
    && s.w == w
    && match s.pc
       case Idle => true
       case Fetched(o) => w.object_ == Some(o)
       case Finalized => true
       case Seen(lb) => lb == MyLb(me, w)
       case Creating(p, lb, listed, missing) =>
         p == plan && lb == MyLb(me, w) && IsListing(me, w, listed) && missing == {}
       case Cleaning(_, _, _, rest) => rest == {}
       case _ => false
  }

  /** With one certificate per fingerprint, the index is that assignment, whatever the order of the listing. */
  lemma IndexIsAssignment(me: Me, w: World, t: WorkTree, ids: map<string, string>, listed: seq<CertInfo>)
    requires OneEach(me, w, t, ids) && IsListing(me, w, listed)
    ensures var x := Index(listed);
      && x.duplicates == [] && x.ids.Keys == t.certificates.Keys
      && forall f | f in t.certificates :: f in ids && x.ids[f] == ids[f]
  {
    OwnedAreStored(me, w);
    hide OwnedIds, Index;
    IndexSplits(listed);
    IndexForgetsNothing(listed);
    var x := Index(listed);
    forall f | f in x.ids ensures f in t.certificates && f in ids && x.ids[f] == ids[f] {
      ListedIsAssigned(me, w, t, ids, listed, f, x.ids[f]);
    }
    forall f | f in t.certificates ensures f in x.ids {
      assert ids[f] in ListedIds(listed);
      var i :| 0 <= i < |listed| && listed[i].id.Some? && listed[i].id.value == ids[f];
      assert listed[i].fingerprint == Some(f);
    }
    forall f, id | ListsId(listed, f, id) ensures f in ids && ids[f] == id {
      ListedIsAssigned(me, w, t, ids, listed, f, id);
    }
    NoDuplicates(ids, listed, x);
  }

  lemma NoDuplicates(ids: map<string, string>, listed: seq<CertInfo>, x: Indexed)
    requires IndexInv(listed, x) && forall f, id | ListsId(listed, f, id) :: f in ids && ids[f] == id
    ensures x.duplicates == []
  {
    assert |x.duplicates| > 0 ==> IsRepeat(listed, x.ids, x.duplicates[0]);
  }

  lemma ListedIsAssigned(me: Me, w: World, t: WorkTree, ids: map<string, string>, listed: seq<CertInfo>, f: string,
                         id: string)
    requires OneEach(me, w, t, ids) && IsListing(me, w, listed) && ListsId(listed, f, id)
    ensures f in t.certificates && f in ids && ids[f] == id
  {
  }

  /** The listeners only depend on the ids of certificates that the tree has. */
  lemma ListenersDependOnTreeIds(cls: Kube.IngressClass, t: WorkTree, ids: map<string, string>,
                                 ids': map<string, string>)
    requires forall f | f in t.certificates :: f in ids && f in ids' && ids[f] == ids'[f]
    ensures LiveListeners(cls, t, ids) == LiveListeners(cls, t, ids')
  {
    hide Hosts, Names.Decimal, SortStrings, SortPorts;
    forall port ensures FingerprintsFor(t, ids, port) == FingerprintsFor(t, ids', port) { }
    assert PortsOf(t, ids) == PortsOf(t, ids');
    forall port ensures CertificateIds(t, ids, port) == CertificateIds(t, ids', port) {
      var order := SortStrings(multiset(FingerprintsFor(t, ids, port)));
      SameMembers(order, FingerprintsFor(t, ids, port));
      forall i | 0 <= i < |order| ensures IdOf(ids, order[i]) == IdOf(ids', order[i]) {
        assert order[i] in FingerprintsFor(t, ids, port);
      }
      assert Map((f: string) => IdOf(ids, f), order) == Map((f: string) => IdOf(ids', f), order);
    }
    hide CertificateIds, PortsOf, FingerprintsFor;
    forall port ensures ListenerOf(cls, t, ids, port) == ListenerOf(cls, t, ids', port) { }
  }

  ghost predicate Unmistakable(t: WorkTree) {
    PoolNamesDistinct(t) && forall r | r in t.pools :: t.pools[r].name.Some?
  }

  lemma SamePayload(plan: Plan, ids: map<string, string>, ids': map<string, string>, p: Api.Payload, q: Api.Payload)
    requires Unmistakable(plan.tree)
    requires forall f | f in plan.tree.certificates :: f in ids && f in ids' && ids[f] == ids'[f]
    requires IsCreatePayload(plan.frame, plan.tree, ids, p) && IsCreatePayload(plan.frame, plan.tree, ids', q)
    ensures p == q
  {
    ListenersDependOnTreeIds(plan.frame.class_, plan.tree, ids, ids');
    hide LiveListeners, ArePools;
    PoolsAreUnique(plan.tree, p.targetPools, q.targetPools);
  }

  /** The payload computed again is what the load balancer has already. */
  lemma PayloadIsUnchanged(me: Me, w: World, plan: Plan, listed: seq<CertInfo>, lb: Api.LoadBalancer, p: Api.Payload)
    requires Settled(me, w, plan) && Unmistakable(plan.tree) && IsListing(me, w, listed) && MyLb(me, w) == Some(lb)
    requires IsUpdatePayload(plan.frame, plan.tree, Index(listed).ids, lb, p)
    ensures NormalForm(lb.spec) == NormalForm(p)
  {
    hide NormalForm, IsCreatePayload, Index, OneEach, IsListing, Revise, Unmistakable;
    var ids, n :| SettledWith(me, w, plan, ids, n);
    var q :| IsCreatePayload(plan.frame, plan.tree, ids, q) && NormalForm(q) == n;
    var create :| IsCreatePayload(plan.frame, plan.tree, Index(listed).ids, create) && p == Revise(create, lb);
    IndexIsAssignment(me, w, plan.tree, ids, listed);
    SamePayload(plan, ids, Index(listed).ids, q, create);
    ReviseSameNormal(create, lb);
  }

  lemma NothingToCleanUp(me: Me, w: World, plan: Plan, listed: seq<CertInfo>)
    requires Settled(me, w, plan) && IsListing(me, w, listed)
    ensures Cleanup(plan.tree, Index(listed)) == {}
  {
    hide OneEach, IsListing, Index, Applied;
    var ids, n :| SettledWith(me, w, plan, ids, n);
    IndexIsAssignment(me, w, plan.tree, ids, listed);
  }

  lemma ApplyTouchesNothing(me: Me, w: World, plan: Plan, s: State, s': State)
    requires AtRest(me, w, plan) && Unmistakable(plan.tree) && Untouched(me, w, plan, s)
    requires s'.pc.Cleaning? && (CreateLb(me, s, s') || UpdateLb(me, s, s') || KeepLb(s, s'))
    ensures Untouched(me, w, plan, s')
  {
    hide NormalForm, IsCreatePayload, Index, IsListing, Unmistakable, IsUpdatePayload, Cleanup, SameConfig;
    assert me.lbName in w.albs by { SettledHasLb(me, w, plan); }
    if UpdateLb(me, s, s') {
      var p, lb :| UpdateLbWith(me, s, s', p, lb);
      PayloadIsUnchanged(me, w, plan, s.pc.listed, s.pc.before.value, p);
      assert false;
    } else if KeepLb(s, s') {
      NothingToCleanUp(me, w, plan, s.pc.listed);
    }
  }

  lemma SettledHasLb(me: Me, w: World, plan: Plan)
    requires Settled(me, w, plan)
    ensures me.lbName in w.albs
  {
  }

  lemma QuietStepTouchesNothing(me: Me, w: World, plan: Plan, s: State, s': State)
    requires AtRest(me, w, plan) && Unmistakable(plan.tree) && Untouched(me, w, plan, s) && QuietStep(me, plan, s, s')
    ensures Untouched(me, w, plan, s')
  {
    hide CreateLb, UpdateLb, KeepLb, Unmistakable, Settled, IsListing, Missing, PlanFor;
    if s'.pc.Cleaning? && (CreateLb(me, s, s') || UpdateLb(me, s, s') || KeepLb(s, s')) {
      ApplyTouchesNothing(me, w, plan, s, s');
    } else if ListForPlan(me, s, s') {
      ListingMissesNothing(me, w, plan, s'.pc.listed);
    }
  }

  lemma ListingMissesNothing(me: Me, w: World, plan: Plan, listed: seq<CertInfo>)
    requires Settled(me, w, plan) && IsListing(me, w, listed)
    ensures Missing(plan.tree, listed).Keys == {}
  {
  }

  lemma {:induction false} QuietRunTouchesNothing(me: Me, plan: Plan, run: seq<State>, i: nat)
    requires QuietRun(me, plan, run) && i < |run| && AtRest(me, run[0].w, plan) && Unmistakable(plan.tree)
    ensures Untouched(me, run[0].w, plan, run[i])
  {
    if i > 0 {
      assert QuietStep(me, plan, run[i - 1], run[i]);
      hide QuietStep, QuietRun, AtRest, Unmistakable, Untouched;
      QuietRunTouchesNothing(me, plan, run, i - 1);
      QuietStepTouchesNothing(me, run[0].w, plan, run[i - 1], run[i]);
    }
  }

  /** Quiescence: on unchanged inputs a second reconcile makes no create, update or delete call at all. */
  lemma SecondReconcileIsQuiet(me: Me, plan: Plan, run: seq<State>)
    requires QuietRun(me, plan, run) && AtRest(me, run[0].w, plan) && Unmistakable(plan.tree)
    ensures run[|run| - 1].w == run[0].w && run[|run| - 1].w.calls == run[0].w.calls
  {
    QuietRunTouchesNothing(me, plan, run, |run| - 1);
  }

  lemma QuietStepCounts(me: Me, plan: Plan, s: State, s': State)
    requires QuietStep(me, plan, s, s')
    ensures s'.w == s.w || |s'.w.calls| > |s.w.calls|
  {
  }

  lemma {:induction false} NoCallsNoChange(me: Me, plan: Plan, run: seq<State>, i: nat)
    requires QuietRun(me, plan, run) && i < |run|
    ensures run[i].w == run[0].w || |run[i].w.calls| > |run[0].w.calls|
  {
    if i > 0 {
      assert QuietStep(me, plan, run[i - 1], run[i]);
      hide QuietStep, QuietRun;
      NoCallsNoChange(me, plan, run, i - 1);
      QuietStepCounts(me, plan, run[i - 1], run[i]);
    }
  }

  /** A reconcile makes a create, update or delete call exactly if the class was not at rest before it. */
  lemma QuietIffAtRest(me: Me, plan: Plan, run: seq<State>)
    requires QuietRun(me, plan, run) && Unmistakable(plan.tree)
    requires Fingerprinted(me, run[0].w) && run[0].w.object_.Some? && !run[0].w.object_.value.deleting
    ensures run[|run| - 1].w.calls == run[0].w.calls <==> AtRest(me, run[0].w, plan)
  {
    hide QuietRun, AtRest, Unmistakable;
    assert |run| > 1 by { RunIsLong(me, plan, run); }
    NoCallsNoChange(me, plan, run, |run| - 1);
    OneReconcileSettles(me, plan, run);
    if AtRest(me, run[0].w, plan) { SecondReconcileIsQuiet(me, plan, run); }
  }

  lemma RunIsLong(me: Me, plan: Plan, run: seq<State>)
    requires QuietRun(me, plan, run)
    ensures |run| > 1
  {
  }

  /** Both layers together: two undisturbed reconciles over the same objects, which the cluster may list in
      different orders. The first may have to repair anything; the second calls nothing. */
  lemma ReconcileTwice(me: Me, i: Inputs, j: Inputs, b: Build, c: Build, frame: Frame, first: seq<State>,
                       second: seq<State>)
    requires SameInputs(i, j) && Unambiguous(i) && DistinctUids(multiset(i.ingresses))
    requires IsBuild(i, b) && IsBuild(j, c)
    requires QuietRun(me, Plan(frame, b.tree), first) && QuietRun(me, Plan(frame, c.tree), second)
    requires Fingerprinted(me, first[0].w) && first[0].w.object_.Some? && !first[0].w.object_.value.deleting
    requires second[0].w == first[|first| - 1].w
    ensures Settled(me, first[|first| - 1].w, Plan(frame, b.tree))
    ensures second[|second| - 1].w == second[0].w
  {
    hide AdmitAll, IsTargets, QuietRun, Settled, Unambiguous;
    BuildIsCanonical(i, j, b, c);
    var order, targets :| IsBuildWith(i, b, order, targets);
    DistinctUidsGiveDistinctNames(ContextOf(i, targets), order);
    OneReconcileSettles(me, Plan(frame, b.tree), first);
    SecondReconcileIsQuiet(me, Plan(frame, c.tree), second);
  }
}
