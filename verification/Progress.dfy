/** Nothing keeps an undisturbed reconcile from reaching its end, unless the load balancer has no version. */
module Progress {
  import opened Options
  import opened Sorting
  import opened Tree
  import opened Payload
  import opened Certificates
  import opened Diff
  import opened Protocol
  import opened Convergence
  import Api = AlbApi

  /** The API has given the load balancer a version, so that it can be updated. */
  predicate Versioned(me: Me, w: World) {
    me.lbName in w.albs ==> w.albs[me.lbName].spec.version.GetOr("") != ""
  }

  /** The rest of an undisturbed reconcile. */
  ghost predicate Ending(me: Me, plan: Plan, run: seq<State>) {
    && run != [] && run[|run| - 1].pc.Idle?
    && (forall i | 0 <= i < |run| - 1 :: !run[i].pc.Idle?)
    && (forall i | 0 <= i < |run| - 1 :: QuietStep(me, plan, run[i], run[i + 1]))
  }

  lemma Prepend(me: Me, plan: Plan, s: State, run: seq<State>)
    requires Ending(me, plan, run) && !s.pc.Idle? && QuietStep(me, plan, s, run[0])
    ensures Ending(me, plan, [s] + run)
  {
    hide QuietStep;
    var all := [s] + run;
    forall i | 0 <= i < |all| - 1 ensures !all[i].pc.Idle? && QuietStep(me, plan, all[i], all[i + 1]) {
      if i > 0 { assert all[i] == run[i - 1] && all[i + 1] == run[i]; }
    }
  }

  // ---- what the API and the sorts provide ----

  lemma {:induction false} LongerThanAll(ids: set<string>) returns (n: nat)
    ensures forall id | id in ids :: |id| < n
  {
    if ids == {} {
      n := 0;
    } else {
      var id :| id in ids;
      n := LongerThanAll(ids - {id});
      if |id| >= n { n := |id| + 1; }
    }
  }

  lemma FreshId(ids: set<string>) returns (id: string)
    ensures id !in ids
  {
    var n := LongerThanAll(ids);
    id := seq(n, _ => 'x');
  }

  lemma PayloadExists(f: Frame, t: WorkTree, ids: map<string, string>) returns (p: Api.Payload)
    ensures IsCreatePayload(f, t, ids, p)
  {
    hide LiveListeners;
    var order := Listable(multiset(t.pools.Keys));
    var mapped := Map((r: PathRef) => PoolAt(t, r), order);
    assert WeakOrder(PoolBefore, Elems(multiset(mapped))) by { StrTotal(); }
    Sortable(multiset(mapped), PoolBefore);
    var pools :| IsSortOf(pools, multiset(mapped), PoolBefore);
    assert ArePoolsVia(t, pools, order);
    p := Assemble(f, OrDummy(LiveListeners(f.class_, t, ids)), pools);
  }

  lemma ListingExists(me: Me, w: World) returns (listed: seq<CertInfo>)
    ensures IsListing(me, w, listed)
  {
    var owned := OwnedIds(me, w);
    var keys := Listable(multiset(owned));
    assert forall id | id in owned :: id in w.certs;
    hide OwnedIds;
    forall id ensures id in keys <==> id in owned { assert id in keys <==> id in multiset(keys); }
    listed := seq(|keys|, i requires 0 <= i < |keys| => CertInfo(Some(keys[i]), FingerprintAt(w, keys[i])));
    forall i, j | 0 <= i < j < |keys| ensures keys[i] != keys[j] { NoRepeat(keys, owned, i, j); }
    forall i | 0 <= i < |keys| ensures keys[i] in owned { }
    forall id | id in owned ensures id in ListedIds(listed) {
      var i :| 0 <= i < |keys| && keys[i] == id;
      assert listed[i].id.value == id;
    }
  }

  function FingerprintAt(w: World, id: string): Option<string> {
    if id in w.certs then w.certs[id].fingerprint else None
  }

  // ---- from the end to the beginning ----

  lemma {:induction false} CleaningEnds(me: Me, plan: Plan, s: State) returns (run: seq<State>)
    requires s.pc.Cleaning?
    ensures Ending(me, plan, run) && run[0] == s
    decreases |s.pc.rest|
  {
    var next: State;
    if s.pc.rest == {} {
      next := State(s.w, Idle);
      run := [next];
    } else {
      var id :| id in s.pc.rest;
      next := State(s.w.(certs := s.w.certs - {id}, calls := s.w.calls + [DeleteCertificate(id)]),
                    Cleaning(s.pc.planned, s.pc.ids, s.pc.applied, s.pc.rest - {id}));
      assert DeleteCertWith(s, next, id);
      run := CleaningEnds(me, plan, next);
    }
    Prepend(me, plan, s, run);
    run := [s] + run;
  }

  ghost predicate ReadyToCreate(me: Me, plan: Plan, s: State) {
    s.pc.Creating? && s.pc.plan == plan && s.pc.before == MyLb(me, s.w) && Versioned(me, s.w)
  }

  /** With all certificates there, the load balancer can be created, updated or kept. */
  lemma CanApply(me: Me, plan: Plan, s: State) returns (next: State)
    requires ReadyToCreate(me, plan, s) && s.pc.missing == {}
    ensures QuietStep(me, plan, s, next) && next.pc.Cleaning?
  {
    hide NormalForm, Index, Cleanup, IsCreatePayload;
    var x := Index(s.pc.listed);
    var create := PayloadExists(plan.frame, plan.tree, x.ids);
    if s.pc.before.None? {
      var lb := Api.LoadBalancer(create, None, None, []);
      next := State(s.w.(albs := s.w.albs[me.lbName := lb], calls := s.w.calls + [CreateLoadBalancer]),
                    Cleaning(plan, x.ids, NormalForm(create), Cleanup(plan.tree, x)));
      assert CreateLbWith(me, s, next, create, lb);
    } else {
      var p := Revise(create, s.pc.before.value);
      var pc := Cleaning(plan, x.ids, NormalForm(p), Cleanup(plan.tree, x));
      assert IsUpdatePayload(plan.frame, plan.tree, x.ids, s.pc.before.value, p);
      hide IsUpdatePayload;
      if NormalForm(s.pc.before.value.spec) == NormalForm(p) {
        next := State(s.w, pc);
        assert KeepLbWith(s, next, p);
      } else {
        var lb := Api.LoadBalancer(p, None, None, []);
        next := State(s.w.(albs := s.w.albs[me.lbName := lb], calls := s.w.calls + [UpdateLoadBalancer]), pc);
        assert UpdateLbWith(me, s, next, p, lb);
      }
    }
  }

  lemma {:induction false} CreatingEnds(me: Me, plan: Plan, s: State) returns (run: seq<State>)
    requires ReadyToCreate(me, plan, s)
    ensures Ending(me, plan, run) && run[0] == s
    decreases |s.pc.missing|
  {
    var next: State;
    if s.pc.missing == {} {
      next := CanApply(me, plan, s);
      run := CleaningEnds(me, plan, next);
    } else {
      var f :| f in s.pc.missing;
      var id := FreshId(s.w.certs.Keys);
      next := State(s.w.(certs := s.w.certs[id := Certificate(Some(me.uid), Some(f))],
                         calls := s.w.calls + [CreateCertificate(f)]),
                    s.pc.(listed := s.pc.listed + [CertInfo(Some(id), Some(f))], missing := s.pc.missing - {f}));
      assert CreateCertWith(me, s, next, f, id, Some(f));
      run := CreatingEnds(me, plan, next);
    }
    hide ReadyToCreate, QuietStep;
    Prepend(me, plan, s, run);
    run := [s] + run;
  }

  lemma FinalizedEnds(me: Me, plan: Plan, s: State) returns (run: seq<State>)
    requires s.pc.Finalized? && PlanFor(me, plan) && Versioned(me, s.w)
    ensures Ending(me, plan, run) && run[0] == s
  {
    hide IsListing, Missing, PlanFor;
    var listed := ListingExists(me, s.w);
    var seen := State(s.w, Seen(MyLb(me, s.w)));
    var creating := State(s.w, Creating(plan, MyLb(me, s.w), listed, Missing(plan.tree, listed).Keys));
    assert GetLb(me, s, seen) && ListForPlan(me, seen, creating);
    run := CreatingEnds(me, plan, creating);
    Prepend(me, plan, seen, run);
    Prepend(me, plan, s, [seen] + run);
    run := [s] + ([seen] + run);
  }

  /** The first steps of a reconcile: the class is fetched and has its finalizer. */
  lemma Beginning(w: World) returns (start: State, fetched: State, finalized: State)
    requires w.object_.Some? && !w.object_.value.deleting
    ensures start == State(w, Idle) && GetClass(start, fetched) && finalized.pc == Finalized
    ensures SkipFinalizer(fetched, finalized) || AddFinalizer(fetched, finalized)
    ensures finalized.w.albs == w.albs && finalized.w.certs == w.certs
  {
    var o := w.object_.value;
    var updated := Some(o.(finalizer := true, version := o.version + 1));
    start, fetched := State(w, Idle), State(w, Fetched(o));
    finalized := if o.finalizer then State(w, Finalized)
                 else State(w.(object_ := updated, calls := w.calls + [UpdateClass]), Finalized);
  }

  /** Progress: whatever certificates and whatever versioned load balancer there are, a live class has an
      undisturbed reconcile that goes all the way. */
  lemma QuietRunExists(me: Me, plan: Plan, w: World) returns (run: seq<State>)
    requires PlanFor(me, plan) && w.object_.Some? && !w.object_.value.deleting && Versioned(me, w)
    ensures run != [] && QuietRun(me, plan, run) && run[0] == State(w, Idle)
  {
    hide PlanFor;
    var start, fetched, next := Beginning(w);
    var rest := FinalizedEnds(me, plan, next);
    Prepend(me, plan, fetched, rest);
    run := [start] + ([fetched] + rest);
    StartRun(me, plan, start, [fetched] + rest);
  }

  lemma StartRun(me: Me, plan: Plan, s: State, run: seq<State>)
    requires Ending(me, plan, run) && s.pc.Idle? && QuietStep(me, plan, s, run[0])
    ensures QuietRun(me, plan, [s] + run)
  {
    hide QuietStep;
    var all := [s] + run;
    forall i | 0 <= i < |all| - 1 ensures QuietStep(me, plan, all[i], all[i + 1]) {
      if i > 0 { assert all[i] == run[i - 1] && all[i + 1] == run[i]; }
    }
    forall i | 0 < i < |all| - 1 ensures !all[i].pc.Idle? { assert all[i] == run[i - 1]; }
  }

  /** Rest can be reached from every such world. */
  lemma RestIsReachable(me: Me, plan: Plan, w: World) returns (run: seq<State>)
    requires PlanFor(me, plan) && w.object_.Some? && !w.object_.value.deleting && Versioned(me, w)
    requires Fingerprinted(me, w)
    ensures run != [] && QuietRun(me, plan, run) && run[0] == State(w, Idle)
    ensures AtRest(me, run[|run| - 1].w, plan)
  {
    hide QuietRun, Fingerprinted, AtRest, PlanFor, Versioned;
    run := QuietRunExists(me, plan, w);
    assert |run| > 1 by { RunIsLong(me, plan, run); }
    OneReconcileSettles(me, plan, run);
  }

  // ---- without a version ----

  /** The load balancer is still the one there was, and so is the copy of it. */
  ghost predicate Kept(me: Me, w: World, s: State) {
    && s.w.albs == w.albs
    && (s.pc.Seen? ==> s.pc.existing == MyLb(me, w))
    && (s.pc.Creating? ==> s.pc.before == MyLb(me, w))
    && !s.pc.TearSeen? && !s.pc.TearCleaning?
  }

  lemma QuietStepKeeps(me: Me, w: World, plan: Plan, s: State, s': State)
    requires !Versioned(me, w) && Kept(me, w, s) && QuietStep(me, plan, s, s')
    ensures Kept(me, w, s')
  {
    hide NormalForm, IsCreatePayload, IsListing, Missing, PlanFor, Index, Cleanup, SameConfig;
  }

  /** A load balancer without version is never updated: an undisturbed reconcile that goes all the way has found
      it up to date. */
  lemma {:induction false} UnversionedIsKept(me: Me, plan: Plan, run: seq<State>, i: nat)
    requires QuietRun(me, plan, run) && i < |run| && !Versioned(me, run[0].w)
    ensures Kept(me, run[0].w, run[i])
  {
    if i > 0 {
      assert QuietStep(me, plan, run[i - 1], run[i]);
      hide QuietRun, QuietStep, Kept, Versioned;
      UnversionedIsKept(me, plan, run, i - 1);
      QuietStepKeeps(me, run[0].w, plan, run[i - 1], run[i]);
    }
  }
}
