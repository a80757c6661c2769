/** Exactly when there is an undisturbed reconcile that goes all the way, also without a version to update from. */
module Unversioned {
  import opened Options
  import opened Tree
  import opened Payload
  import opened Certificates
  import opened Diff
  import opened Protocol
  import opened Convergence
  import opened Progress
  import Api = AlbApi

  function NewIds(news: seq<CertInfo>): set<string> {
    ListedIds(news)
  }

  /** The entry stands for a certificate that the tree needs, the listing lacks, and the API could create. */
  ghost predicate CouldBeNew(w: World, t: WorkTree, listed: seq<CertInfo>, c: CertInfo) {
    && c.id.Some? && c.id.value !in w.certs
    && c.fingerprint.Some? && c.fingerprint.value in Missing(t, listed)
  }

  /** Some of the missing certificates, each once. */
  ghost predicate News(w: World, t: WorkTree, listed: seq<CertInfo>, news: seq<CertInfo>) {
    && (forall i | 0 <= i < |news| :: CouldBeNew(w, t, listed, news[i]))
    && (forall i, j | 0 <= i < j < |news| :: news[i].id != news[j].id && news[i].fingerprint != news[j].fingerprint)
  }

  /** With the certificates as they are listed, and new ones for those that are missing, the payload is what the load
      balancer has already, as far as the comparison can tell. */
  ghost predicate UpToDateWith(me: Me, w: World, plan: Plan, listed: seq<CertInfo>, news: seq<CertInfo>,
                               p: Api.Payload) {
    && IsListing(me, w, listed)
    && News(w, plan.tree, listed, news) && ListedFingerprints(news) == Missing(plan.tree, listed).Keys
    && me.lbName in w.albs
    && IsUpdatePayload(plan.frame, plan.tree, Index(listed + news).ids, w.albs[me.lbName], p)
    && NormalForm(w.albs[me.lbName].spec) == NormalForm(p)
  }

  ghost predicate UpToDate(me: Me, w: World, plan: Plan) {
    exists listed, news, p :: UpToDateWith(me, w, plan, listed, news, p)
  }

  lemma SnocIds(news: seq<CertInfo>, c: CertInfo)
    requires c.id.Some?
    ensures NewIds(news + [c]) == NewIds(news) + {c.id.value}
  {
    var all := news + [c];
    assert all[|news|] == c;
    forall id | id in NewIds(news) ensures id in NewIds(all) {
      var i :| 0 <= i < |news| && news[i].id.Some? && news[i].id.value == id;
      assert all[i] == news[i];
    }
  }

  // ---- up to date is enough ----

  /** The first `k` of the new certificates have been created. */
  ghost predicate Created(me: Me, w: World, plan: Plan, listed: seq<CertInfo>, news: seq<CertInfo>, k: nat, s: State) {
    && k <= |news| && s.w.albs == w.albs && s.w.certs.Keys == w.certs.Keys + NewIds(news[..k])
    && s.pc == Creating(plan, MyLb(me, w), listed + news[..k],
                        Missing(plan.tree, listed).Keys - ListedFingerprints(news[..k]))
  }

  lemma CreateNext(me: Me, w: World, plan: Plan, listed: seq<CertInfo>, news: seq<CertInfo>, p: Api.Payload, k: nat,
                   s: State)
    returns (next: State)
    requires UpToDateWith(me, w, plan, listed, news, p) && Created(me, w, plan, listed, news, k, s) && k < |news|
    ensures Created(me, w, plan, listed, news, k + 1, next) && QuietStep(me, plan, s, next)
  {
    hide IsUpdatePayload, NormalForm, Index, IsListing, Missing;
    var c, before := news[k], news[..k];
    assert news[..k + 1] == before + [c] && listed + news[..k + 1] == listed + before + [c];
    SnocIds(before, c);
    ListedSnoc(before, c);
    var id, f := c.id.value, c.fingerprint.value;
    assert id !in NewIds(before) && f !in ListedFingerprints(before);
    hide ListedIds, ListedFingerprints;
    next := State(s.w.(certs := s.w.certs[id := Certificate(Some(me.uid), Some(f))],
                       calls := s.w.calls + [CreateCertificate(f)]),
                  s.pc.(listed := s.pc.listed + [c], missing := s.pc.missing - {f}));
    assert c == CertInfo(Some(id), Some(f));
    assert CreateCertWith(me, s, next, f, id, Some(f));
  }

  lemma {:induction false} CreatedEnds(me: Me, w: World, plan: Plan, listed: seq<CertInfo>, news: seq<CertInfo>,
                                       p: Api.Payload, k: nat, s: State)
    returns (run: seq<State>)
    requires UpToDateWith(me, w, plan, listed, news, p) && Created(me, w, plan, listed, news, k, s)
    ensures Ending(me, plan, run) && run[0] == s
    decreases |news| - k
  {
    hide Ending, QuietStep;
    var next: State;
    if k < |news| {
      next := CreateNext(me, w, plan, listed, news, p, k, s);
      hide UpToDateWith;
      run := CreatedEnds(me, w, plan, listed, news, p, k + 1, next);
    } else {
      next := KeepNow(me, w, plan, listed, news, p, s);
      hide UpToDateWith;
      run := CleaningEnds(me, plan, next);
    }
    Prepend(me, plan, s, run);
    run := [s] + run;
    assert Ending(me, plan, run);
  }

  lemma KeepNow(me: Me, w: World, plan: Plan, listed: seq<CertInfo>, news: seq<CertInfo>, p: Api.Payload, s: State)
    returns (next: State)
    requires UpToDateWith(me, w, plan, listed, news, p) && Created(me, w, plan, listed, news, |news|, s)
    ensures QuietStep(me, plan, s, next) && next.pc.Cleaning?
  {
    hide IsUpdatePayload, NormalForm, Index, IsListing, Missing, Cleanup, ListedFingerprints;
    assert news[..|news|] == news;
    var x := Index(s.pc.listed);
    next := State(s.w, Cleaning(plan, x.ids, NormalForm(p), Cleanup(plan.tree, x)));
    assert KeepLbWith(s, next, p);
  }

  lemma UpToDateRuns(me: Me, plan: Plan, w: World) returns (run: seq<State>)
    requires PlanFor(me, plan) && w.object_.Some? && !w.object_.value.deleting && UpToDate(me, w, plan)
    ensures run != [] && QuietRun(me, plan, run) && run[0] == State(w, Idle)
  {
    hide PlanFor;
    var listed, news, p :| UpToDateWith(me, w, plan, listed, news, p);
    var start, fetched, next := Beginning(w);
    var v := next.w;
    var seen := State(v, Seen(MyLb(me, v)));
    var creating := State(v, Creating(plan, MyLb(me, v), listed, Missing(plan.tree, listed).Keys));
    assert IsListing(me, v, listed) by { SameListing(me, w, v, listed); }
    hide UpToDateWith, IsListing, Missing;
    assert GetLb(me, next, seen) && ListForPlan(me, seen, creating);
    assert Created(me, w, plan, listed, news, 0, creating) by { NoneCreated(me, w, plan, listed, news, creating); }
    var rest := CreatedEnds(me, w, plan, listed, news, p, 0, creating);
    Prepend(me, plan, seen, rest);
    Prepend(me, plan, next, [seen] + rest);
    Prepend(me, plan, fetched, [next] + ([seen] + rest));
    run := [start] + ([fetched] + ([next] + ([seen] + rest)));
    StartRun(me, plan, start, [fetched] + ([next] + ([seen] + rest)));
  }

  lemma NoneCreated(me: Me, w: World, plan: Plan, listed: seq<CertInfo>, news: seq<CertInfo>, s: State)
    requires s.w.albs == w.albs && s.w.certs == w.certs
    requires s.pc == Creating(plan, MyLb(me, w), listed, Missing(plan.tree, listed).Keys)
    ensures Created(me, w, plan, listed, news, 0, s)
  {
    hide Missing;
    assert news[..0] == [] && listed + [] == listed;
  }

  lemma SameListing(me: Me, w: World, v: World, listed: seq<CertInfo>)
    requires v.certs == w.certs && IsListing(me, w, listed)
    ensures IsListing(me, v, listed)
  {
  }

  // ---- and without version it is necessary ----

  /** What was listed is what was listed first and some new certificates, and these are not missing any more. */
  ghost predicate ListedSince(me: Me, w: World, plan: Plan, listed: seq<CertInfo>, news: seq<CertInfo>, s: State) {
    && s.pc.Creating? && s.pc.listed == listed + news
    && IsListing(me, w, listed) && News(w, plan.tree, listed, news)
    && s.w.certs.Keys == w.certs.Keys + NewIds(news)
    && s.pc.missing == Missing(plan.tree, listed).Keys - ListedFingerprints(news)
  }

  /** How far an undisturbed reconcile has come that began in `w`. Once it has dealt with the load balancer, this was
      up to date. */
  ghost predicate CameFrom(me: Me, w: World, plan: Plan, s: State) {
    match s.pc
    case Idle => UpToDate(me, w, plan)
    case Fetched(_) => s.w.certs == w.certs
    case Finalized => s.w.certs == w.certs
    case Seen(_) => s.w.certs == w.certs
    case Creating(p, _, _, _) => p == plan && exists listed, news :: ListedSince(me, w, plan, listed, news, s)
    case Cleaning(_, _, _, _) => UpToDate(me, w, plan)
    case _ => false
  }

  lemma ListingComesFrom(me: Me, w: World, plan: Plan, s: State, s': State)
    requires s.w.certs == w.certs && ListForPlan(me, s, s') && s'.pc.plan == plan
    ensures CameFrom(me, w, plan, s')
  {
    SameListing(me, s.w, w, s'.pc.listed);
    hide IsListing, Missing;
    var listed := s'.pc.listed;
    assert listed + [] == listed;
    assert ListedSince(me, w, plan, listed, [], s');
  }

  lemma NewsSnoc(w: World, t: WorkTree, listed: seq<CertInfo>, news: seq<CertInfo>, c: CertInfo)
    requires News(w, t, listed, news) && CouldBeNew(w, t, listed, c)
    requires c.id.value !in NewIds(news) && c.fingerprint.value !in ListedFingerprints(news)
    ensures News(w, t, listed, news + [c])
  {
    hide Missing;
  }

  lemma CreatingComesFrom(me: Me, w: World, plan: Plan, s: State, s': State, f: string, id: string)
    requires s.pc.Creating? && CameFrom(me, w, plan, s) && s'.pc.Creating? && CreateCertWith(me, s, s', f, id, Some(f))
    ensures CameFrom(me, w, plan, s')
  {
    hide IsListing, Missing, ListedIds, ListedFingerprints, News;
    var listed, news :| ListedSince(me, w, plan, listed, news, s);
    var c := CertInfo(Some(id), Some(f));
    assert listed + (news + [c]) == listed + news + [c];
    SnocIds(news, c);
    ListedSnoc(news, c);
    NewsSnoc(w, plan.tree, listed, news, c);
    assert ListedSince(me, w, plan, listed, news + [c], s');
  }

  lemma KeepingComesFrom(me: Me, w: World, plan: Plan, s: State, s': State)
    requires s.pc.Creating? && CameFrom(me, w, plan, s) && Kept(me, w, s) && me.lbName in w.albs && KeepLb(s, s')
    ensures UpToDate(me, w, plan)
  {
    hide IsListing, Missing, ListedIds, NormalForm, Index, Cleanup, IsUpdatePayload, News;
    var listed, news :| ListedSince(me, w, plan, listed, news, s);
    var p :| KeepLbWith(s, s', p);
    assert s.pc.missing == {};
    NewsAreMissing(w, plan.tree, listed, news);
    hide ListedFingerprints;
    assert UpToDateWith(me, w, plan, listed, news, p);
  }

  lemma NewsAreMissing(w: World, t: WorkTree, listed: seq<CertInfo>, news: seq<CertInfo>)
    requires News(w, t, listed, news) && Missing(t, listed).Keys - ListedFingerprints(news) == {}
    ensures ListedFingerprints(news) == Missing(t, listed).Keys
  {
    hide Missing;
    forall f | f in Missing(t, listed).Keys ensures f in ListedFingerprints(news) {
      assert f !in Missing(t, listed).Keys - ListedFingerprints(news);
    }
    forall f | f in ListedFingerprints(news) ensures f in Missing(t, listed).Keys { }
  }

  lemma StepComesFrom(me: Me, w: World, plan: Plan, s: State, s': State)
    requires !Versioned(me, w) && Kept(me, w, s) && !s.pc.Idle? && CameFrom(me, w, plan, s)
    requires QuietStep(me, plan, s, s')
    ensures CameFrom(me, w, plan, s')
  {
    hide UpToDate, ListedSince, IsListing, Missing, PlanFor, CreateCertWith, KeepLb, DeleteCert;
    if ListForPlan(me, s, s') && s'.pc.plan == plan {
      ListingComesFrom(me, w, plan, s, s');
    } else if s'.pc.Creating? && exists f, id :: CreateCertWith(me, s, s', f, id, Some(f)) {
      var f, id :| CreateCertWith(me, s, s', f, id, Some(f));
      assert s.pc.Creating? by { CreatesWhileCreating(me, s, s', f, id); }
      CreatingComesFrom(me, w, plan, s, s', f, id);
    } else if s'.pc.Cleaning? && KeepLb(s, s') {
      assert s.pc.Creating? by { KeepsAfterCreating(s, s'); }
      KeepingComesFrom(me, w, plan, s, s');
    } else {
      OtherStepComesFrom(me, w, plan, s, s');
    }
  }

  lemma CreatesWhileCreating(me: Me, s: State, s': State, f: string, id: string)
    requires CreateCertWith(me, s, s', f, id, Some(f))
    ensures s.pc.Creating?
  {
  }

  lemma KeepsAfterCreating(s: State, s': State)
    requires KeepLb(s, s')
    ensures s.pc.Creating?
  {
    hide NormalForm, IsUpdatePayload, Index, Cleanup;
  }

  lemma OtherStepComesFrom(me: Me, w: World, plan: Plan, s: State, s': State)
    requires !Versioned(me, w) && Kept(me, w, s) && !s.pc.Idle? && CameFrom(me, w, plan, s)
    requires QuietStep(me, plan, s, s')
    requires !(ListForPlan(me, s, s') && s'.pc.plan == plan)
    requires !(s'.pc.Creating? && exists f, id :: CreateCertWith(me, s, s', f, id, Some(f)))
    requires !(s'.pc.Cleaning? && KeepLb(s, s'))
    ensures CameFrom(me, w, plan, s')
  {
    hide UpToDate, ListedSince, ListForPlan, CreateCertWith, KeepLb, NormalForm, IsCreatePayload, Index, Cleanup,
         SameConfig;
  }

  lemma {:induction false} RunComesFrom(me: Me, plan: Plan, run: seq<State>, i: nat)
    requires QuietRun(me, plan, run) && 0 < i < |run| && !Versioned(me, run[0].w)
    ensures CameFrom(me, run[0].w, plan, run[i])
  {
    assert QuietStep(me, plan, run[i - 1], run[i]);
    if i == 1 {
      IdleFetches(me, plan, run[0], run[1]);
    } else {
      assert !run[i - 1].pc.Idle?;
      hide QuietRun, QuietStep, CameFrom, Kept, Versioned;
      RunComesFrom(me, plan, run, i - 1);
      UnversionedIsKept(me, plan, run, i - 1);
      StepComesFrom(me, run[0].w, plan, run[i - 1], run[i]);
    }
  }

  /** An undisturbed reconcile from a load balancer without version has found it up to date, and has kept it. */
  lemma UnversionedMustBeUpToDate(me: Me, plan: Plan, run: seq<State>)
    requires QuietRun(me, plan, run) && !Versioned(me, run[0].w)
    ensures UpToDate(me, run[0].w, plan) && run[|run| - 1].w.albs == run[0].w.albs
  {
    assert |run| > 1 && run[|run| - 1].pc.Idle?;
    hide QuietRun, UpToDate, Versioned;
    RunComesFrom(me, plan, run, |run| - 1);
    UnversionedIsKept(me, plan, run, |run| - 1);
  }

  // ---- both together ----

  ghost predicate CanRun(me: Me, plan: Plan, w: World) {
    exists run :: run != [] && QuietRun(me, plan, run) && run[0] == State(w, Idle)
  }

  /** A live class has an undisturbed reconcile that goes all the way if and only if its load balancer has a version,
      or is up to date, or there is none. */
  lemma CanRunIff(me: Me, plan: Plan, w: World)
    requires PlanFor(me, plan) && w.object_.Some? && !w.object_.value.deleting
    ensures CanRun(me, plan, w) <==> Versioned(me, w) || UpToDate(me, w, plan)
  {
    hide PlanFor, QuietRun, UpToDate, Versioned;
    if Versioned(me, w) {
      var run := QuietRunExists(me, plan, w);
    } else if UpToDate(me, w, plan) {
      var run := UpToDateRuns(me, plan, w);
    }
    if CanRun(me, plan, w) && !Versioned(me, w) {
      var run: seq<State> :| run != [] && QuietRun(me, plan, run) && run[0] == State(w, Idle);
      UnversionedMustBeUpToDate(me, plan, run);
    }
  }
}
