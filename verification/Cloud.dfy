/** The cluster and the cloud API as the controller meets them: any call may fail before or after it took effect,
    and the environment may move before every call. */
module Cloud {
  import opened Options
  import opened Payload
  import opened Certificates
  import opened Protocol
  import opened Convergence
  import opened Diff
  import Api = AlbApi

  datatype Answer<+T> = Found(value: T) | NotFound | Failed

  /** A certificate as the project-wide listing shows it. */
  datatype ListedCertificate = ListedCertificate(info: CertInfo, owner: Option<string>)

  /** The entries that carry the label of the class. */
  function OwnedEntries(uid: string, all: seq<ListedCertificate>): seq<CertInfo> {
    if all == [] then []
    else
      var c := all[|all| - 1];
      OwnedEntries(uid, all[..|all| - 1]) + (if c.owner == Some(uid) then [c.info] else [])
  }

  /** `all` shows `keys[i]` at position `i`; together they show every stored certificate once. */
  ghost predicate Shows(certs: map<string, Certificate>, all: seq<ListedCertificate>, keys: seq<string>) {
    && |all| == |keys|
    && (forall i | 0 <= i < |keys| :: keys[i] in certs
          && all[i] == ListedCertificate(CertInfo(Some(keys[i]), certs[keys[i]].fingerprint), certs[keys[i]].owner))
    && (forall i, j | 0 <= i < j < |keys| :: keys[i] != keys[j])
  }

  ghost predicate FromStore(me: Me, w: World, keys: seq<string>, c: CertInfo) {
    c.id.Some? && c.id.value in keys && c.id.value in OwnedIds(me, w)
      && c.fingerprint == w.certs[c.id.value].fingerprint
  }

  lemma {:induction false} OwnedEntriesSound(me: Me, w: World, all: seq<ListedCertificate>, keys: seq<string>)
    requires Shows(w.certs, all, keys)
    ensures var listed := OwnedEntries(me.uid, all);
      Identified(listed) && forall i | 0 <= i < |listed| :: FromStore(me, w, keys, listed[i])
  {
    if all != [] {
      var n := |all| - 1;
      OwnedEntriesSound(me, w, all[..n], keys[..n]);
      var before := OwnedEntries(me.uid, all[..n]);
      forall i | 0 <= i < |before| ensures FromStore(me, w, keys, before[i]) && before[i].id != Some(keys[n]) {
        assert FromStore(me, w, keys[..n], before[i]);
        var k :| 0 <= k < n && keys[..n][k] == before[i].id.value;
        assert keys[k] == before[i].id.value;
      }
      if all[n].owner == Some(me.uid) { assert FromStore(me, w, keys, all[n].info); }
    }
  }

  lemma {:induction false} OwnedEntriesComplete(me: Me, w: World, all: seq<ListedCertificate>, keys: seq<string>,
                                                i: nat)
    requires Shows(w.certs, all, keys) && i < |keys| && keys[i] in OwnedIds(me, w)
    ensures keys[i] in ListedIds(OwnedEntries(me.uid, all))
  {
    var n := |all| - 1;
    var before, listed := OwnedEntries(me.uid, all[..n]), OwnedEntries(me.uid, all);
    if i == n {
      assert listed[|before|].id == Some(keys[i]);
    } else {
      OwnedEntriesComplete(me, w, all[..n], keys[..n], i);
      var m :| 0 <= m < |before| && before[m].id.Some? && before[m].id.value == keys[i];
      assert listed[m] == before[m];
    }
  }

  lemma OwnedEntriesAreListing(me: Me, w: World, all: seq<ListedCertificate>, keys: seq<string>)
    requires Shows(w.certs, all, keys) && forall id | id in w.certs :: id in keys
    ensures IsListing(me, w, OwnedEntries(me.uid, all))
  {
    hide Shows, OwnedEntries, Identified, ListedIds;
    OwnedEntriesSound(me, w, all, keys);
    forall id | id in OwnedIds(me, w) ensures id in ListedIds(OwnedEntries(me.uid, all)) {
      var i :| 0 <= i < |keys| && keys[i] == id;
      OwnedEntriesComplete(me, w, all, keys, i);
    }
  }

  lemma RunGrows(me: Me, run: seq<State>, s': State)
    requires IsRun(me, run) && Next(me, run[|run| - 1], s')
    ensures IsRun(me, run + [s'])
  {
  }

  lemma CreateIsNext(me: Me, s: State, s': State, f: string, id: string, reported: Option<string>)
    requires CreateCertWith(me, s, s', f, id, reported)
    ensures Next(me, s, s') && (s'.pc.Creating? && reported == Some(f) ==> QuietStep(me, s.pc.plan, s, s'))
  {
  }

  lemma ApplyIsNext(me: Me, s: State, s': State, p: Api.Payload, lb: Api.LoadBalancer)
    requires CreateLbWith(me, s, s', p, lb) || UpdateLbWith(me, s, s', p, lb)
    ensures Next(me, s, s') && (s'.pc.Cleaning? ==> QuietStep(me, s.pc.plan, s, s'))
  {
    hide NextCleaning, IsCreatePayload, IsUpdatePayload, SameConfig, NormalForm, Index;
  }

  class Cloud {
    const me: Me
    // Calm weather: no call fails, nothing else moves, and the API reports the fingerprints that were computed.
    // Nobody can change that later, so what holds in calm weather cannot be avoided by spoiling it.
    const calm: bool
    var w: World
    // Where the controller run is, and the states so far.
    ghost var pc: PC
    ghost var run: seq<State>

    ghost predicate Valid()
      reads this
    {
      run != [] && IsRun(me, run) && run[|run| - 1] == State(w, pc)
    }

    ghost function Now(): State
      reads this
    {
      State(w, pc)
    }

    constructor (me: Me, calm: bool, w: World)
      requires Init(me, State(w, Idle))
      ensures Valid() && this.me == me && this.calm == calm && this.w == w && pc == Idle
    {
      this.me, this.calm, this.w := me, calm, w;
      pc, run := Idle, [State(w, Idle)];
    }

    /** Puts the current state on record as one more step. */
    ghost method Record(s: State)
      requires run != [] && IsRun(me, run) && run[|run| - 1] == s && Next(me, s, State(w, pc))
      modifies this`run
      ensures Valid() && run == old(run) + [State(w, pc)] && |run| > 1 && run[|run| - 2] == s
    {
      hide IsRun, Next;
      RunGrows(me, run, State(w, pc));
      run := run + [State(w, pc)];
    }

    /** Any number of environment steps; none in calm weather. */
    method Interfere()
      requires Valid()
      modifies this`w, this`run
      ensures Valid() && old(run) <= run && w.calls == old(w.calls)
      ensures calm ==> w == old(w) && run == old(run)
    {
    }

    /** The run ends here, because of an error or because there is nothing left to do. */
    ghost method End()
      requires Valid()
      modifies this`pc, this`run
      ensures Valid() && run == old(run) + [Now()] && pc == Idle
      ensures Stop(old(Now()), Now())
    {
      hide IsRun;
      ghost var s := Now();
      pc := Idle;
      Record(s);
    }

    method Fails() returns (fails: bool)
      ensures calm ==> !fails
    {
      var any: bool := *;
      fails := any && !calm;
    }

    method GetClass() returns (r: Answer<ClassObject>)
      requires Valid() && pc.Idle?
      modifies this
      ensures Valid() && old(run) <= run && w.calls == old(w.calls)
      ensures r.Found? ==> pc == Fetched(r.value)
      ensures !r.Found? ==> pc == Idle
      ensures calm ==> w == old(w) && r == if w.object_.Some? then Found(w.object_.value) else NotFound
      ensures calm && r.Found? ==> run == old(run) + [Now()] && GetClassStep(old(Now()), Now())
    {
      hide IsRun;
      Interfere();
      var fails := Fails();
      if fails {
        End();
        return Failed;
      }
      if w.object_.None? { return NotFound; }
      ghost var s := Now();
      pc := Fetched(w.object_.value);
      Record(s);
      return Found(w.object_.value);
    }

    ghost predicate GetClassStep(s: State, s': State) {
      Protocol.GetClass(s, s')
    }

    /** Optimistic concurrency: the update only succeeds on the object that was read. */
    method AddFinalizer(o: ClassObject) returns (ok: bool)
      requires Valid() && pc == Fetched(o) && !o.deleting && !o.finalizer
      modifies this
      ensures Valid() && old(run) <= run
      ensures ok ==> pc == Finalized && |run| > 1 && Protocol.AddFinalizer(run[|run| - 2], Now())
      ensures !ok ==> pc == Idle
      ensures calm && old(w).object_ == Some(o) ==>
                ok && run == old(run) + [Now()] && Protocol.AddFinalizer(old(Now()), Now())
    {
      hide IsRun;
      Interfere();
      var fails := Fails();
      if fails || w.object_ != Some(o) {
        End();
        return false;
      }
      ghost var s := Now();
      w := w.(object_ := Some(o.(finalizer := true, version := o.version + 1)), calls := w.calls + [UpdateClass]);
      pc := Finalized;
      var lost := Fails();
      if lost { pc := Idle; }
      Record(s);
      return !lost;
    }

    ghost method SkipFinalizer(o: ClassObject)
      requires Valid() && pc == Fetched(o) && !o.deleting && o.finalizer
      modifies this`pc, this`run
      ensures Valid() && run == old(run) + [Now()] && pc == Finalized && Protocol.SkipFinalizer(old(Now()), Now())
    {
      hide IsRun;
      ghost var s := Now();
      pc := Finalized;
      Record(s);
    }

    method GetLoadBalancer() returns (r: Answer<Api.LoadBalancer>)
      requires Valid() && (pc.Finalized? || (pc.Fetched? && pc.obj.deleting))
      modifies this
      ensures Valid() && old(run) <= run && w.calls == old(w.calls)
      ensures r.Failed? ==> pc == Idle && !calm
      ensures !r.Failed? ==> MyLb(me, w) == if r.Found? then Some(r.value) else None
      ensures !r.Failed? && old(pc).Finalized? ==> pc == Seen(MyLb(me, w))
      ensures !r.Failed? && old(pc).Fetched? ==> pc == TearSeen(old(pc).obj, MyLb(me, w))
      ensures |run| > |old(run)| && run[|run| - 1] == Now()
      ensures calm ==> w == old(w) && run == old(run) + [Now()]
      ensures calm && old(pc).Finalized? ==> GetLb(me, old(Now()), Now())
    {
      hide IsRun;
      Interfere();
      var fails := Fails();
      if fails {
        End();
        return Failed;
      }
      ghost var s := Now();
      pc := if pc.Finalized? then Seen(MyLb(me, w)) else TearSeen(pc.obj, MyLb(me, w));
      Record(s);
      if me.lbName in w.albs { return Found(w.albs[me.lbName]); }
      return NotFound;
    }

    /** All certificates of the project, in no particular order. */
    method ListCertificate() returns (r: Result<seq<ListedCertificate>>)
      requires Valid()
      modifies this
      ensures Valid() && old(run) <= run
      ensures r.Ok? ==> pc == old(pc) && IsListing(me, w, OwnedEntries(me.uid, r.value))
      ensures r.Err? ==> pc == Idle && !calm
      ensures calm ==> w == old(w) && run == old(run)
    {
      hide IsRun;
      Interfere();
      var fails := Fails();
      if fails {
        End();
        return Err;
      }
      var all := ListAll();
      return Ok(all);
    }

    method ListAll() returns (all: seq<ListedCertificate>)
      ensures IsListing(me, w, OwnedEntries(me.uid, all))
    {
      hide IsListing, OwnedEntries;
      all := [];
      ghost var keys: seq<string> := [];
      var todo := w.certs.Keys;
      while todo != {}
        invariant todo <= w.certs.Keys && Shows(w.certs, all, keys)
        invariant forall id | id in w.certs :: id in keys <==> id !in todo
        decreases |todo|
      {
        var id :| id in todo;
        all := all + [ListedCertificate(CertInfo(Some(id), w.certs[id].fingerprint), w.certs[id].owner)];
        keys := keys + [id];
        todo := todo - {id};
      }
      OwnedEntriesAreListing(me, w, all, keys);
    }

    /** The tree is built and the certificates are listed: what is missing is known. */
    ghost method PlanMade(plan: Plan, listed: seq<CertInfo>)
      requires Valid() && pc.Seen? && PlanFor(me, plan) && IsListing(me, w, listed)
      modifies this`pc, this`run
      ensures Valid() && run == old(run) + [Now()]
      ensures pc == Creating(plan, old(pc).existing, listed, Missing(plan.tree, listed).Keys)
      ensures ListForPlan(me, old(Now()), Now())
    {
      hide IsRun, IsListing, PlanFor;
      ghost var s := Now();
      pc := Creating(plan, pc.existing, listed, Missing(plan.tree, listed).Keys);
      Record(s);
    }

    /** Some id that no certificate has. */
    method PickId() returns (id: string)
      ensures id !in w.certs
    {
      var n: nat := 0;
      var todo := w.certs.Keys;
      while todo != {}
        invariant todo <= w.certs.Keys && forall id | id in w.certs && id !in todo :: |id| < n
        decreases |todo|
      {
        var other :| other in todo;
        if |other| >= n { n := |other| + 1; }
        todo := todo - {other};
      }
      id := seq(n, _ => 'x');
    }

    /** Uploads the key pair that the tree has for the fingerprint. */
    method CreateCertificate(f: string, publicKey: string, privateKey: string) returns (r: Result<CertInfo>)
      requires Valid() && pc.Creating? && f in pc.missing && f in pc.plan.tree.certificates
      requires publicKey == pc.plan.tree.certificates[f].publicKey
      requires privateKey == pc.plan.tree.certificates[f].privateKey
      modifies this
      ensures Valid() && old(run) <= run
      ensures r.Ok? ==> pc == old(pc).(listed := old(pc).listed + [r.value], missing := old(pc).missing - {f})
      ensures r.Ok? ==> |run| > 1 && r.value.id.Some?
                        && CreateCertWith(me, run[|run| - 2], Now(), f, r.value.id.value, r.value.fingerprint)
      ensures r.Err? ==> pc == Idle && !calm
      ensures calm ==> run == old(run) + [Now()] && w.albs == old(w).albs
      ensures calm ==> QuietStep(me, old(pc).plan, old(Now()), Now())
    {
      hide IsRun, Next, QuietStep;
      Interfere();
      var fails := Fails();
      if fails {
        End();
        return Err;
      }
      ghost var s := Now();
      var id := PickId();
      var dishonest := Fails();
      var reported := if dishonest then None else Some(f);
      w := w.(certs := w.certs[id := Certificate(Some(me.uid), reported)],
              calls := w.calls + [Protocol.CreateCertificate(f)]);
      pc := pc.(listed := pc.listed + [CertInfo(Some(id), reported)], missing := pc.missing - {f});
      var lost := Fails();
      if lost { pc := Idle; }
      CreateIsNext(me, s, Now(), f, id, reported);
      Record(s);
      return if lost then Err else Ok(CertInfo(Some(id), reported));
    }

    ghost function AfterApply(p: Api.Payload): PC
      reads this
      requires pc.Creating?
    {
      var x := Index(pc.listed);
      Cleaning(pc.plan, x.ids, NormalForm(p), Cleanup(pc.plan.tree, x))
    }

    /** Is accepted unless there is a load balancer already. */
    method CreateLoadBalancer(p: Api.Payload) returns (r: Result<Api.LoadBalancer>)
      requires Valid() && pc.Creating? && pc.missing == {} && pc.before.None?
      requires IsCreatePayload(pc.plan.frame, pc.plan.tree, Index(pc.listed).ids, p)
      modifies this
      ensures Valid() && old(run) <= run
      ensures r.Ok? ==> pc == old(AfterApply(p)) && |run| > |old(run)| && MyLb(me, w) == Some(r.value)
      ensures r.Ok? ==> CreateLbWith(me, run[|run| - 2], Now(), p, r.value)
      ensures r.Err? ==> pc == Idle
      ensures calm && me.lbName !in old(w).albs ==> r.Ok? && run == old(run) + [Now()]
      ensures calm && me.lbName !in old(w).albs ==> QuietStep(me, old(pc).plan, old(Now()), Now())
    {
      hide IsRun, Next, QuietStep, NormalForm, IsCreatePayload, Index, Cleanup;
      Interfere();
      var fails := Fails();
      if fails || me.lbName in w.albs {
        End();
        return Err;
      }
      ghost var s := Now();
      var lb := Api.LoadBalancer(p.(version := Some("0")), None, Some(Api.PENDING), []);
      w := w.(albs := w.albs[me.lbName := lb], calls := w.calls + [Protocol.CreateLoadBalancer]);
      pc := AfterApply(p);
      var lost := Fails();
      if lost { pc := Idle; }
      assert CreateLbWith(me, s, Now(), p, lb);
      ApplyIsNext(me, s, Now(), p, lb);
      Record(s);
      return if lost then Err else Ok(lb);
    }

    /** Is accepted if it names the current version. */
    method UpdateLoadBalancer(p: Api.Payload) returns (r: Result<Api.LoadBalancer>)
      requires Valid() && pc.Creating? && pc.missing == {} && pc.before.Some?
      requires IsUpdatePayload(pc.plan.frame, pc.plan.tree, Index(pc.listed).ids, pc.before.value, p)
      requires NormalForm(pc.before.value.spec) != NormalForm(p)
      modifies this
      ensures Valid() && old(run) <= run
      ensures r.Ok? ==> pc == old(AfterApply(p)) && |run| > |old(run)| && MyLb(me, w) == Some(r.value)
      ensures r.Ok? ==> UpdateLbWith(me, run[|run| - 2], Now(), p, r.value)
      ensures r.Err? ==> pc == Idle
      ensures calm && Updatable(old(w), p.version) ==> r.Ok? && run == old(run) + [Now()]
      ensures calm && !Updatable(old(w), p.version) ==> r.Err? && w == old(w)
      ensures calm && Updatable(old(w), p.version) ==> QuietStep(me, old(pc).plan, old(Now()), Now())
    {
      hide IsRun, Next, QuietStep, NormalForm, IsUpdatePayload, Index, Cleanup;
      Interfere();
      var fails := Fails();
      if fails || !Updatable(w, p.version) {
        End();
        return Err;
      }
      ghost var s := Now();
      var lb := Api.LoadBalancer(p.(version := Some(p.version.GetOr("") + "+1")), None, Some(Api.PENDING), []);
      w := w.(albs := w.albs[me.lbName := lb], calls := w.calls + [Protocol.UpdateLoadBalancer]);
      pc := AfterApply(p);
      var lost := Fails();
      if lost { pc := Idle; }
      assert UpdateLbWith(me, s, Now(), p, lb);
      ApplyIsNext(me, s, Now(), p, lb);
      Record(s);
      return if lost then Err else Ok(lb);
    }

    predicate Updatable(w: World, version: Option<string>) {
      me.lbName in w.albs && VersionAccepted(w.albs[me.lbName].spec.version, version)
    }

    /** The load balancer is up to date already. */
    ghost method KeepLoadBalancer(p: Api.Payload)
      requires Valid() && pc.Creating? && pc.missing == {} && pc.before.Some?
      requires IsUpdatePayload(pc.plan.frame, pc.plan.tree, Index(pc.listed).ids, pc.before.value, p)
      requires NormalForm(pc.before.value.spec) == NormalForm(p)
      modifies this`pc, this`run
      ensures Valid() && run == old(run) + [Now()] && pc == old(AfterApply(p))
      ensures QuietStep(me, old(pc).plan, old(Now()), Now())
    {
      hide IsRun, NormalForm, IsUpdatePayload, Index, Cleanup;
      ghost var s := Now();
      pc := AfterApply(p);
      assert KeepLbWith(s, Now(), p);
      Record(s);
    }

    method DeleteCertificate(id: string) returns (ok: bool)
      requires Valid() && (pc.Cleaning? || pc.TearCleaning?) && id in pc.rest
      modifies this
      ensures Valid() && old(run) <= run
      ensures ok && old(pc).Cleaning? ==>
                pc == Cleaning(old(pc).planned, old(pc).ids, old(pc).applied, old(pc).rest - {id})
      ensures ok && old(pc).TearCleaning? ==> pc == TearCleaning(old(pc).obj, old(pc).rest - {id})
      ensures ok ==> |run| > 1
      ensures ok ==> DeleteCertWith(run[|run| - 2], Now(), id) || TearDeleteCertWith(run[|run| - 2], Now(), id)
      ensures !ok ==> pc == Idle && !calm
      ensures calm ==> run == old(run) + [Now()] && w.albs == old(w).albs && w.object_ == old(w).object_
      ensures calm && old(pc).Cleaning? ==> QuietStep(me, old(pc).planned, old(Now()), Now())
    {
      hide IsRun;
      Interfere();
      var fails := Fails();
      if fails {
        End();
        return false;
      }
      ghost var s := Now();
      w := w.(certs := w.certs - {id}, calls := w.calls + [Protocol.DeleteCertificate(id)]);
      pc := if pc.Cleaning? then Cleaning(pc.planned, pc.ids, pc.applied, pc.rest - {id})
            else TearCleaning(pc.obj, pc.rest - {id});
      var lost := Fails();
      if lost { pc := Idle; }
      assert DeleteCertWith(s, Now(), id) || TearDeleteCertWith(s, Now(), id);
      Record(s);
      return !lost;
    }

    /** The API accepts the deletion of a load balancer that does not exist. */
    method DeleteLoadBalancer() returns (ok: bool)
      requires Valid() && pc.TearSeen? && pc.existing.Some? && pc.existing.value.status != Some(Api.TERMINATING)
      modifies this
      ensures Valid() && old(run) <= run && pc == Idle
      ensures ok ==> |run| > 1 && TearDelete(me, run[|run| - 2], Now())
      ensures calm ==> ok && TearDelete(me, old(Now()), Now())
    {
      hide IsRun;
      Interfere();
      var fails := Fails();
      if fails {
        End();
        return false;
      }
      ghost var s := Now();
      var slow: bool := *;
      if slow && me.lbName in w.albs {
        w := w.(albs := w.albs[me.lbName := w.albs[me.lbName].(status := Some(Api.TERMINATING))],
                calls := w.calls + [Protocol.DeleteLoadBalancer]);
      } else {
        w := w.(albs := w.albs - {me.lbName}, calls := w.calls + [Protocol.DeleteLoadBalancer]);
      }
      pc := Idle;
      Record(s);
      var lost := Fails();
      ok := !lost;
    }

    /** The load balancer is gone: every certificate of the class may go. */
    ghost method TearDownListed(listed: seq<CertInfo>)
      requires Valid() && pc.TearSeen? && pc.existing.None? && IsListing(me, w, listed)
      modifies this`pc, this`run
      ensures Valid() && old(run) <= run && pc == TearCleaning(old(pc).obj, ListedIds(listed))
    {
      hide IsRun, IsListing;
      ghost var s := Now();
      pc := TearCleaning(pc.obj, ListedIds(listed));
      Record(s);
    }

    method RemoveFinalizer(o: ClassObject) returns (ok: bool)
      requires Valid() && pc.TearCleaning? && pc.rest == {} && pc.obj == o && o.finalizer
      modifies this
      ensures Valid() && old(run) <= run && pc == Idle
      ensures ok ==> |run| > 1 && Protocol.RemoveFinalizer(run[|run| - 2], Now())
      ensures calm && old(w).object_ == Some(o) ==> ok && Protocol.RemoveFinalizer(old(Now()), Now())
      ensures calm ==> w.albs == old(w).albs
    {
      hide IsRun;
      Interfere();
      var fails := Fails();
      if fails || w.object_ != Some(o) {
        End();
        return false;
      }
      ghost var s := Now();
      w := w.(object_ := if o.foreign then Some(o.(finalizer := false, version := o.version + 1)) else None,
              calls := w.calls + [UpdateClass]);
      pc := Idle;
      Record(s);
      var lost := Fails();
      ok := !lost;
    }
  }
}
