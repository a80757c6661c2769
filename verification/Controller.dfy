/** The reconcile loop of the controller, call by call. Everything it does is a run of the protocol. */
module Controller {
  import opened Options
  import opened Kube
  import opened Tree
  import opened TreeProperties
  import opened TreeObjects
  import opened Targets
  import opened Compiler
  import opened Payload
  import opened PayloadProperties
  import opened PayloadBuilder
  import opened Certificates
  import opened Diff
  import opened Protocol
  import opened Safety
  import opened Convergence
  import opened Cloud
  import opened Progress
  import opened ClassChanges
  import Api = AlbApi
  import Names

  /** How a reconcile ends: for now, or with the wish to be called again, or with an error. */
  datatype Outcome = Done | RequeueAfter(seconds: nat) | Failure

  const READY_REQUEUE_INTERVAL := 10
  const DELETED_REQUEUE_INTERVAL := 10
  const ERROR_REQUEUE_INTERVAL := 300

  /** The tree of a build stores every path under its own key. */
  lemma BuildKeysAgree(i: Inputs, b: Build)
    requires IsBuild(i, b)
    ensures KeysAgree(b.tree)
  {
    hide AdmitAll, IsTargets, PoolsInv, CertificatesInv;
    var order, targets :| IsBuildWith(i, b, order, targets);
    EmptyTreeInv(ContextOf(i, targets));
    AdmitAllKeepsInv(ContextOf(i, targets), EMPTY_BUILD, order);
  }

  // ---- the status of the load balancer ----

  /** The address that ingresses get: the external one, or the private one of an internal load balancer. */
  function StatusAddress(lb: Api.LoadBalancer): string {
    var external, o := lb.spec.externalAddress.GetOr(""), lb.spec.options;
    if external != "" then external
    else if o.Some? && o.value.privateNetworkOnly == Some(true) then lb.privateAddress.GetOr("")
    else ""
  }

  /** A load balancer that is not ready is looked at again; one that is ready must have an address. */
  function OutcomeFor(lb: Api.LoadBalancer): Outcome {
    if lb.status == Some(Api.READY) then (if StatusAddress(lb) != "" then Done else Failure)
    else RequeueAfter(if lb.status == Some(Api.ERROR) then ERROR_REQUEUE_INTERVAL else READY_REQUEUE_INTERVAL)
  }

  /** The load balancer can be reached at this address. */
  predicate ReachableAt(lb: Api.LoadBalancer, address: string) {
    || lb.spec.externalAddress == Some(address)
    || (&& (lb.spec.externalAddress == None || lb.spec.externalAddress == Some(""))
        && lb.spec.options.Some? && lb.spec.options.value.privateNetworkOnly == Some(true)
        && lb.privateAddress == Some(address))
  }

  /** The external address counts first; the private one only for an internal load balancer without external one. */
  lemma StatusAddressIff(lb: Api.LoadBalancer, address: string)
    requires address != ""
    ensures StatusAddress(lb) == address <==> ReachableAt(lb, address)
  {
  }

  /** The class is done exactly if the load balancer is ready and has an address. Without an address that is an error,
      an error of the load balancer is looked at after five minutes, and anything else after ten seconds. */
  lemma OutcomeIsDoneIff(lb: Api.LoadBalancer)
    ensures OutcomeFor(lb) == Done
            <==> lb.status == Some(Api.READY) && exists address: string :: address != "" && ReachableAt(lb, address)
    ensures OutcomeFor(lb) == Failure
            <==> lb.status == Some(Api.READY) && forall address: string | ReachableAt(lb, address) :: address == ""
    ensures OutcomeFor(lb) == RequeueAfter(300) <==> lb.status == Some(Api.ERROR)
    ensures OutcomeFor(lb) == RequeueAfter(10) <==> lb.status != Some(Api.READY) && lb.status != Some(Api.ERROR)
  {
    hide ReachableAt, StatusAddress;
    forall address: string | address != "" { StatusAddressIff(lb, address); }
    var address := StatusAddress(lb);
    assert address != "" ==> ReachableAt(lb, address);
  }

  method CheckStatus(lb: Api.LoadBalancer) returns (requeue: Outcome)
    ensures requeue == Done <==> lb.status == Some(Api.READY)
    ensures requeue != Done ==> requeue == OutcomeFor(lb)
  {
    if lb.status == Some(Api.READY) { return Done; }
    if lb.status == Some(Api.ERROR) { return RequeueAfter(ERROR_REQUEUE_INTERVAL); }
    return RequeueAfter(READY_REQUEUE_INTERVAL);
  }

  // ---- where the reconcile is ----

  /** In calm weather the run since `from` is an undisturbed reconcile so far. */
  ghost predicate OnTrack(cloud: Cloud, plan: Plan, from: nat)
    reads cloud
  {
    from < |cloud.run| && (cloud.calm ==> QuietPart(cloud.me, plan, cloud.run[from..]))
  }

  /** In calm weather the load balancer is still the one that was read. */
  ghost predicate Unmoved(cloud: Cloud, before: Option<Api.LoadBalancer>)
    reads cloud
  {
    cloud.calm ==> before == MyLb(cloud.me, cloud.w)
  }

  /** The load balancer was live in some state since `from`. */
  ghost predicate WasLive(me: Me, run: seq<State>, from: nat, lb: Api.LoadBalancer) {
    exists k :: from <= k < |run| && MyLb(me, run[k].w) == Some(lb)
  }

  lemma WasLiveGrows(me: Me, run: seq<State>, more: seq<State>, from: nat, lb: Api.LoadBalancer)
    requires run <= more && WasLive(me, run, from, lb)
    ensures WasLive(me, more, from, lb)
  {
    var k :| from <= k < |run| && MyLb(me, run[k].w) == Some(lb);
    assert more[k] == run[k];
  }

  lemma IsLive(cloud: Cloud, from: nat, lb: Api.LoadBalancer)
    requires cloud.Valid() && from < |cloud.run| && MyLb(cloud.me, cloud.w) == Some(lb)
    ensures WasLive(cloud.me, cloud.run, from, lb)
  {
    hide IsRun;
    assert MyLb(cloud.me, cloud.run[|cloud.run| - 1].w) == Some(lb);
  }

  ghost predicate Underway(pc: PC, plan: Plan, before: Option<Api.LoadBalancer>, listed: seq<CertInfo>,
                           missing: set<string>) {
    pc == Creating(plan, before, listed, missing)
  }

  // ---- call by call ----

  /** All certificates of the class, by label. */
  method GetCertificatesForIngressClass(cloud: Cloud, uid: string) returns (r: Result<seq<CertInfo>>)
    requires cloud.Valid() && cloud.me.uid == uid
    modifies cloud
    ensures cloud.Valid() && old(cloud.run) <= cloud.run
    ensures r.Ok? ==> cloud.pc == old(cloud.pc) && IsListing(cloud.me, cloud.w, r.value)
    ensures r.Err? ==> cloud.pc == Idle && !cloud.calm
    ensures cloud.calm ==> cloud.w == old(cloud.w) && cloud.run == old(cloud.run)
  {
    hide IsListing, IsRun;
    var all := cloud.ListCertificate();
    if all.Err? { return Err; }
    var mine: seq<CertInfo> := [];
    for i := 0 to |all.value|
      invariant mine == OwnedEntries(uid, all.value[..i])
    {
      assert all.value[..i + 1][..i] == all.value[..i];
      if all.value[i].owner == Some(uid) { mine := mine + [all.value[i].info]; }
    }
    assert all.value[..|all.value|] == all.value;
    return Ok(mine);
  }

  method CreateMissing(cloud: Cloud, ghost plan: Plan, ghost from: nat, missing: map<string, TreeCertificate>,
                       before: Option<Api.LoadBalancer>, listed: seq<CertInfo>)
    returns (r: Result<seq<CertInfo>>)
    requires cloud.Valid() && Underway(cloud.pc, plan, before, listed, missing.Keys)
    requires OnTrack(cloud, plan, from) && Unmoved(cloud, before)
    requires forall f | f in missing :: f in plan.tree.certificates && missing[f] == plan.tree.certificates[f]
    modifies cloud
    ensures cloud.Valid() && old(cloud.run) <= cloud.run
    ensures r.Ok? ==> Underway(cloud.pc, plan, before, r.value, {})
    ensures r.Ok? ==> OnTrack(cloud, plan, from) && Unmoved(cloud, before)
    ensures r.Err? ==> cloud.pc == Idle && !cloud.calm
  {
    hide QuietPart, QuietStep, IsRun;
    var all := listed;
    var todo := missing.Keys;
    while todo != {}
      invariant cloud.Valid() && old(cloud.run) <= cloud.run && Underway(cloud.pc, plan, before, all, todo)
      invariant todo <= missing.Keys
      invariant OnTrack(cloud, plan, from) && Unmoved(cloud, before)
      decreases |todo|
    {
      var f :| f in todo;
      ghost var run := cloud.run;
      var response := cloud.CreateCertificate(f, missing[f].publicKey, missing[f].privateKey);
      if cloud.calm { QuietPartGrows(cloud.me, plan, run, from, cloud.Now()); }
      if response.Err? { return Err; }
      all := all + [response.value];
      todo := todo - {f};
    }
    return Ok(all);
  }

  lemma UpdateNamesVersion(f: Frame, t: WorkTree, ids: map<string, string>, existing: Api.LoadBalancer, p: Api.Payload)
    requires IsUpdatePayload(f, t, ids, existing, p)
    ensures p.version == existing.spec.version
  {
  }

  ghost predicate HasVersion(lb: Option<Api.LoadBalancer>) {
    lb.Some? ==> lb.value.spec.version.GetOr("") != ""
  }

  /** Creates the load balancer, or updates it if the comparison finds a difference. Returns the load balancer as it
      is then. */
  method ApplyLoadBalancer(cloud: Cloud, ghost plan: Plan, ghost from: nat, f: Frame, tree: TreeObject,
                           ids: map<string, string>, existing: Option<Api.LoadBalancer>, ghost listed: seq<CertInfo>)
    returns (r: Result<Api.LoadBalancer>)
    requires cloud.Valid() && Underway(cloud.pc, plan, existing, listed, {})
    requires OnTrack(cloud, plan, from) && Unmoved(cloud, existing)
    requires existing.Some? ==> WasLive(cloud.me, cloud.run, from, existing.value)
    requires tree.Valid() && KeysAgree(tree.view) && plan == Plan(f, tree.view) && ids == Index(listed).ids
    modifies cloud
    ensures cloud.Valid() && old(cloud.run) <= cloud.run
    ensures r.Ok? ==> OnTrack(cloud, plan, from) && Unmoved(cloud, Some(r.value))
    ensures r.Ok? ==> WasLive(cloud.me, cloud.run, from, r.value)
    ensures r.Ok? ==>
              cloud.pc.Cleaning? && cloud.pc.planned == plan && cloud.pc.rest == Cleanup(plan.tree, Index(listed))
    ensures r.Err? ==> cloud.pc == Idle
    ensures cloud.calm && HasVersion(existing) ==> r.Ok?
    ensures cloud.calm && !HasVersion(existing) ==> MyLb(cloud.me, cloud.w) == existing
  {
    hide QuietPart, QuietStep, IsRun, NormalForm, Index, Cleanup, Shape.Good, IsCreatePayload, IsUpdatePayload, WasLive;
    ghost var run := cloud.run;
    if existing.None? {
      var create := ToCreatePayload(f, tree, ids);
      r := cloud.CreateLoadBalancer(create);
    } else {
      var update := ToUpdatePayload(f, tree, ids, existing.value);
      UpdateNamesVersion(f, tree.view, ids, existing.value, update);
      var needed := UpdateNeeded(existing.value, update);
      if needed {
        r := cloud.UpdateLoadBalancer(update);
      } else {
        cloud.KeepLoadBalancer(update);
        r := Ok(existing.value);
        WasLiveGrows(cloud.me, run, cloud.run, from, existing.value);
      }
    }
    if r.Ok? && cloud.calm { QuietPartGrows(cloud.me, plan, run, from, cloud.Now()); }
    if r.Ok? && MyLb(cloud.me, cloud.w) == Some(r.value) { IsLive(cloud, from, r.value); }
  }

  method DeleteOne(cloud: Cloud, ghost plan: Plan, ghost from: nat, id: string) returns (ok: bool)
    requires cloud.Valid() && cloud.pc.Cleaning? && cloud.pc.planned == plan && id in cloud.pc.rest
    requires OnTrack(cloud, plan, from)
    modifies cloud
    ensures cloud.Valid() && old(cloud.run) <= cloud.run
    ensures ok ==> OnTrack(cloud, plan, from)
    ensures ok ==> cloud.pc.Cleaning? && cloud.pc.planned == plan && cloud.pc.rest == old(cloud.pc).rest - {id}
    ensures !ok ==> cloud.pc == Idle && !cloud.calm
    ensures cloud.calm ==> cloud.w.albs == old(cloud.w).albs
  {
    hide QuietPart, QuietStep, IsRun;
    ghost var run := cloud.run;
    ok := cloud.DeleteCertificate(id);
    if cloud.calm { QuietPartGrows(cloud.me, plan, run, from, cloud.Now()); }
  }

  ghost function ValuesOf(ids: map<string, string>, fs: set<string>): set<string> {
    set f | f in fs && f in ids :: ids[f]
  }

  ghost function Members(s: seq<string>): set<string> {
    set k | 0 <= k < |s| :: s[k]
  }

  lemma CleanupSplits(t: WorkTree, listed: seq<CertInfo>)
    requires Identified(listed)
    ensures var x := Index(listed); var unused := Unused(t, x.ids);
      && Cleanup(t, x) == Members(x.duplicates) + ValuesOf(x.ids, unused.Keys)
      && Members(x.duplicates) !! ValuesOf(x.ids, unused.Keys)
      && Distinct(x.duplicates)
      && (forall f, g | f in x.ids && g in x.ids && x.ids[f] == x.ids[g] :: f == g)
  {
    hide Index, ListsId;
    IndexSplits(listed);
  }

  lemma MembersSnoc(s: seq<string>, i: nat)
    requires i < |s| && Distinct(s)
    ensures Members(s[i..]) == {s[i]} + Members(s[i + 1..]) && s[i] !in Members(s[i + 1..])
  {
  }

  method DeleteDuplicates(cloud: Cloud, ghost plan: Plan, ghost from: nat, duplicates: seq<string>,
                          ghost others: set<string>)
    returns (ok: bool)
    requires cloud.Valid() && cloud.pc.Cleaning? && cloud.pc.planned == plan && OnTrack(cloud, plan, from)
    requires Distinct(duplicates) && Members(duplicates) !! others && cloud.pc.rest == Members(duplicates) + others
    modifies cloud
    ensures cloud.Valid() && old(cloud.run) <= cloud.run
    ensures ok ==> OnTrack(cloud, plan, from)
    ensures ok ==> cloud.pc.Cleaning? && cloud.pc.planned == plan && cloud.pc.rest == others
    ensures !ok ==> cloud.pc == Idle && !cloud.calm
    ensures cloud.calm ==> cloud.w.albs == old(cloud.w).albs
  {
    hide OnTrack, IsRun, Members, Distinct;
    assert duplicates[0..] == duplicates;
    for i := 0 to |duplicates|
      invariant cloud.Valid() && old(cloud.run) <= cloud.run && OnTrack(cloud, plan, from)
      invariant cloud.pc.Cleaning? && cloud.pc.planned == plan
      invariant Members(duplicates[i..]) !! others && cloud.pc.rest == Members(duplicates[i..]) + others
      invariant cloud.calm ==> cloud.w.albs == old(cloud.w).albs
    {
      MembersSnoc(duplicates, i);
      ok := DeleteOne(cloud, plan, from, duplicates[i]);
      if !ok { return; }
    }
    NoMembers();
    assert duplicates[|duplicates|..] == [];
    ok := true;
  }

  lemma NoMembers()
    ensures Members([]) == {}
  {
  }

  method DeleteUnused(cloud: Cloud, ghost plan: Plan, ghost from: nat, unused: map<string, string>,
                      ghost ids: map<string, string>)
    returns (ok: bool)
    requires cloud.Valid() && cloud.pc.Cleaning? && cloud.pc.planned == plan && OnTrack(cloud, plan, from)
    requires unused.Keys <= ids.Keys && (forall f | f in unused :: unused[f] == ids[f])
    requires forall f, g | f in ids && g in ids && ids[f] == ids[g] :: f == g
    requires cloud.pc.rest == ValuesOf(ids, unused.Keys)
    modifies cloud
    ensures cloud.Valid() && old(cloud.run) <= cloud.run
    ensures ok ==> OnTrack(cloud, plan, from)
    ensures ok ==> cloud.pc.Cleaning? && cloud.pc.planned == plan && cloud.pc.rest == {}
    ensures !ok ==> cloud.pc == Idle && !cloud.calm
    ensures cloud.calm ==> cloud.w.albs == old(cloud.w).albs
  {
    hide OnTrack, IsRun;
    var todo := unused.Keys;
    while todo != {}
      invariant todo <= unused.Keys
      invariant cloud.Valid() && old(cloud.run) <= cloud.run && OnTrack(cloud, plan, from)
      invariant cloud.pc.Cleaning? && cloud.pc.planned == plan && cloud.pc.rest == ValuesOf(ids, todo)
      invariant cloud.calm ==> cloud.w.albs == old(cloud.w).albs
      decreases |todo|
    {
      var f :| f in todo;
      assert ValuesOf(ids, todo) - {ids[f]} == ValuesOf(ids, todo - {f});
      ok := DeleteOne(cloud, plan, from, unused[f]);
      if !ok { return; }
      todo := todo - {f};
    }
    ok := true;
  }

  /** Deletes the duplicates, then the unused certificates, once the load balancer does not need them any more. */
  method CleanUp(cloud: Cloud, ghost plan: Plan, ghost from: nat, tree: TreeObject, ids: map<string, string>,
                 duplicates: seq<string>, ghost listed: seq<CertInfo>)
    returns (ok: bool)
    requires cloud.Valid() && cloud.pc.Cleaning? && cloud.pc.planned == plan && OnTrack(cloud, plan, from)
    requires tree.Valid() && plan.tree == tree.view && Identified(listed) && Index(listed) == Indexed(ids, duplicates)
    requires cloud.pc.rest == Cleanup(plan.tree, Index(listed))
    modifies cloud
    ensures cloud.Valid() && old(cloud.run) <= cloud.run && cloud.pc == Idle
    ensures !ok ==> !cloud.calm
    ensures cloud.calm ==> cloud.w.albs == old(cloud.w).albs && QuietRun(cloud.me, plan, cloud.run[from..])
  {
    hide QuietPart, QuietRun, IsRun, Index, Cleanup, Identified, Members, ValuesOf, Shape.Good;
    CleanupSplits(plan.tree, listed);
    ok := DeleteDuplicates(cloud, plan, from, duplicates, ValuesOf(ids, Unused(plan.tree, ids).Keys));
    if !ok { return; }
    var unused := GetUnusedCertificates(tree, ids);
    ok := DeleteUnused(cloud, plan, from, unused, ids);
    if !ok { return; }
    ghost var run := cloud.run;
    ghost var s := cloud.Now();
    cloud.End();
    if cloud.calm {
      assert QuietStep(cloud.me, plan, s, cloud.Now());
      hide QuietStep;
      QuietPartGrows(cloud.me, plan, run, from, cloud.Now());
    }
  }

  /** The plan that `inputs` and the class of this run lead to. */
  ghost predicate IsPlan(i: Inputs, f: Frame, plan: Plan) {
    plan.frame == f && exists b :: IsBuild(i, b) && plan.tree == b.tree
  }

  lemma MissingIsOfTree(t: WorkTree, listed: seq<CertInfo>)
    ensures forall f | f in Missing(t, listed) :: f in t.certificates && Missing(t, listed)[f] == t.certificates[f]
  {
  }

  /** Lists the certificates of the class and creates those that the tree needs and the listing does not have. */
  method ListAndCreate(cloud: Cloud, ghost plan: Plan, ghost from: nat, f: Frame, tree: TreeObject,
                       existing: Option<Api.LoadBalancer>)
    returns (r: Result<seq<CertInfo>>)
    requires cloud.Valid() && cloud.pc == Seen(existing) && PlanFor(cloud.me, plan)
    requires OnTrack(cloud, plan, from) && Unmoved(cloud, existing)
    requires tree.Valid() && plan == Plan(f, tree.view)
    modifies cloud
    ensures cloud.Valid() && old(cloud.run) <= cloud.run
    ensures r.Ok? ==> OnTrack(cloud, plan, from) && Unmoved(cloud, existing)
    ensures r.Ok? ==> Underway(cloud.pc, plan, existing, r.value, {})
    ensures r.Err? ==> cloud.pc == Idle && !cloud.calm
  {
    hide QuietPart, IsRun, Names.LoadBalancerName, Shape.Good, IsListing, Missing, ListForPlan;
    var listing := GetCertificatesForIngressClass(cloud, f.class_.uid);
    if listing.Err? { return Err; }
    ghost var run := cloud.run;
    var missing := GetMissingCertificates(tree, listing.value);
    cloud.PlanMade(plan, listing.value);
    if cloud.calm {
      assert QuietStep(cloud.me, plan, run[|run| - 1], cloud.Now());
      hide QuietStep;
      QuietPartGrows(cloud.me, plan, run, from, cloud.Now());
    }
    assert forall f | f in missing :: f in plan.tree.certificates && missing[f] == plan.tree.certificates[f] by {
      MissingIsOfTree(tree.view, listing.value);
    }
    r := CreateMissing(cloud, plan, from, missing, existing, listing.value);
  }

  /** From listing the certificates on: everything that needs the tree. */
  method ReconcileWithTree(cloud: Cloud, ghost plan: Plan, ghost from: nat, f: Frame, tree: TreeObject,
                           existing: Option<Api.LoadBalancer>)
    returns (r: Result<Api.LoadBalancer>)
    requires cloud.Valid() && cloud.pc == Seen(existing) && PlanFor(cloud.me, plan)
    requires OnTrack(cloud, plan, from) && Unmoved(cloud, existing)
    requires existing.Some? ==> WasLive(cloud.me, cloud.run, from, existing.value)
    requires tree.Valid() && KeysAgree(tree.view) && plan == Plan(f, tree.view)
    modifies cloud
    ensures cloud.Valid() && old(cloud.run) <= cloud.run && cloud.pc == Idle
    ensures r.Ok? ==> WasLive(cloud.me, cloud.run, from, r.value)
    ensures cloud.calm && HasVersion(existing) ==> r.Ok?
    ensures cloud.calm && !HasVersion(existing) ==> MyLb(cloud.me, cloud.w) == existing
    ensures cloud.calm && r.Ok? ==>
              MyLb(cloud.me, cloud.w) == Some(r.value) && QuietRun(cloud.me, plan, cloud.run[from..])
  {
    hide QuietPart, QuietRun, IsRun, Names.LoadBalancerName, Index, Cleanup, Shape.Good, KeysAgree, Identified, WasLive;
    ghost var run := cloud.run;
    var all := ListAndCreate(cloud, plan, from, f, tree, existing);
    if all.Err? { return Err; }
    if existing.Some? { WasLiveGrows(cloud.me, run, cloud.run, from, existing.value); }
    assert Identified(all.value) by { ReachedIsIdentified(cloud.me, cloud.run); }
    var ids, duplicates := IndexCertificates(all.value);
    r := ApplyLoadBalancer(cloud, plan, from, f, tree, ids, existing, all.value);
    if r.Err? { return; }
    run := cloud.run;
    var cleaned := CleanUp(cloud, plan, from, tree, ids, duplicates, all.value);
    if !cleaned { return Err; }
    WasLiveGrows(cloud.me, run, cloud.run, from, r.value);
  }

  /** The invariant of reachable states says that the listed ids are distinct. */
  lemma ReachedIsIdentified(me: Me, run: seq<State>)
    requires IsRun(me, run) && run[|run| - 1].pc.Creating?
    ensures Identified(run[|run| - 1].pc.listed)
  {
    assert run != [];
    hide IsRun;
    RunKeepsInv(me, run, |run| - 1);
  }

  /** Whatever the plan is going to be, the reconcile has been undisturbed so far. */
  ghost predicate OpenTrack(cloud: Cloud, from: nat)
    reads cloud
  {
    from < |cloud.run| && (cloud.calm ==> QuietForAny(cloud.me, cloud.run[from..]))
  }

  ghost predicate QuietForAny(me: Me, run: seq<State>) {
    forall plan :: QuietPart(me, plan, run)
  }

  /** Reconciles certificates and load balancer, and returns the load balancer as it is then. An invalid class
      yields no error, no load balancer and no change. */
  method ReconcileAlbResources(cloud: Cloud, ghost from: nat, class_: IngressClass, ingresses: array<Ingress>,
                               secrets: seq<Secret>, services: seq<Service>, nodes: array<Node>, config: Config)
    returns (r: Result<Option<Api.LoadBalancer>>)
    requires cloud.Valid() && cloud.pc.Finalized? && OpenTrack(cloud, from)
    requires class_.uid == cloud.me.uid && Names.LoadBalancerName(class_.uid, class_.name) == Some(cloud.me.lbName)
    modifies cloud, ingresses, nodes
    ensures cloud.Valid() && old(cloud.run) <= cloud.run && cloud.pc == Idle
    ensures r.Ok? ==> (r.value.None? <==> SettleClass(class_).Err?)
    ensures r == Ok(None) ==> cloud.w.calls == old(cloud.w.calls)
    ensures r.Ok? && r.value.Some? ==> WasLive(cloud.me, cloud.run, from, r.value.value)
    ensures cloud.calm && (SettleClass(class_).Err? || Versioned(cloud.me, old(cloud.w))) ==> r.Ok?
    ensures cloud.calm && !Versioned(cloud.me, old(cloud.w)) ==> MyLb(cloud.me, cloud.w) == old(MyLb(cloud.me, cloud.w))
    ensures cloud.calm && r == Ok(None) ==> cloud.w == old(cloud.w)
    ensures cloud.calm && r.Ok? && r.value.Some? ==>
              && r.value == MyLb(cloud.me, cloud.w)
              && RanFor(Inputs(class_, old(ingresses[..]), secrets, services, old(nodes[..])), config, cloud.me,
                        cloud.run[from..])
  {
    hide QuietPart, QuietRun, IsRun, IsBuild, Shape.Good, GetLb, Names.LoadBalancerName, WasLive;
    ghost var run := cloud.run;
    ghost var s := cloud.Now();
    var answer := cloud.GetLoadBalancer();
    if answer.Failed? { return Err; }
    var existing := if answer.Found? then Some(answer.value) else None;
    if existing.Some? { IsLive(cloud, from, existing.value); }
    var tree, events := BuildTree(class_, ingresses, secrets, services, nodes);
    if tree.None? {
      cloud.End();
      return Ok(None);
    }
    var settings := SettleClass(class_);
    var f := Frame(class_, settings.value, config);
    ghost var inputs := Inputs(class_, old(ingresses[..]), secrets, services, old(nodes[..]));
    BuildKeysAgree(inputs, Build(tree.value.view, events));
    ghost var plan := Plan(f, tree.value.view);
    assert IsPlan(inputs, f, plan);
    if cloud.calm {
      assert QuietStep(cloud.me, plan, s, cloud.Now());
      hide QuietStep;
      QuietPartGrows(cloud.me, plan, run, from, cloud.Now());
    }
    hide QuietStep;
    var lb := ReconcileWithTree(cloud, plan, from, f, tree.value, existing);
    if lb.Err? { return Err; }
    return Ok(Some(lb.value));
  }

  /** The states are those of an undisturbed reconcile for these inputs. */
  ghost predicate RanFor(i: Inputs, config: Config, me: Me, run: seq<State>) {
    var settings := SettleClass(i.class_);
    settings.Ok? && exists plan :: IsPlan(i, Frame(i.class_, settings.value, config), plan) && QuietRun(me, plan, run)
  }

  // ---- teardown ----

  /** Deletes the load balancer, waits until it is gone, then deletes the certificates and lets the class go. */
  method HandleIngressClassDeletion(cloud: Cloud, o: ClassObject, uid: string) returns (r: Outcome)
    requires cloud.Valid() && cloud.pc == Fetched(o) && o.deleting && cloud.me.uid == uid
    modifies cloud
    ensures cloud.Valid() && old(cloud.run) <= cloud.run && cloud.pc == Idle
    ensures r == Done ==> cloud.me.lbName !in cloud.w.albs && OwnedIds(cloud.me, cloud.w) == {}
    ensures r == Done && o.finalizer ==> !HasFinalizer(cloud.w)
    ensures r.RequeueAfter? ==> r.seconds == DELETED_REQUEUE_INTERVAL
    ensures cloud.calm && old(cloud.w).object_ == Some(o) ==>
              r == if cloud.me.lbName in old(cloud.w).albs then RequeueAfter(DELETED_REQUEUE_INTERVAL) else Done
    ensures cloud.calm && cloud.me.lbName in cloud.w.albs ==>
              cloud.w.albs[cloud.me.lbName].status == Some(Api.TERMINATING)
  {
    hide IsRun, OwnedIds, NoLeak, ListedIds;
    var answer := cloud.GetLoadBalancer();
    if answer.Failed? { return Failure; }
    if answer.Found? {
      if answer.value.status == Some(Api.TERMINATING) {
        cloud.End();
        return RequeueAfter(DELETED_REQUEUE_INTERVAL);
      }
      var deleted := cloud.DeleteLoadBalancer();
      return if deleted then RequeueAfter(DELETED_REQUEUE_INTERVAL) else Failure;
    }
    var listing := GetCertificatesForIngressClass(cloud, uid);
    if listing.Err? { return Failure; }
    cloud.TearDownListed(listing.value);
    var gone := DeleteAll(cloud, o, listing.value);
    if !gone { return Failure; }
    if !o.finalizer {
      ReachedIsTornDown(cloud.me, cloud.run);
      cloud.End();
      return Done;
    }
    var removed := cloud.RemoveFinalizer(o);
    if !removed { return Failure; }
    assert NoLeak(cloud.me, cloud.w) by { ReachedHasNoLeak(cloud.me, cloud.run); }
    UnguardedIsEmpty(cloud.me, cloud.w);
    return Done;
  }

  /** When nothing is left to delete, nothing is left. */
  lemma ReachedIsTornDown(me: Me, run: seq<State>)
    requires IsRun(me, run) && run[|run| - 1].pc.TearCleaning? && run[|run| - 1].pc.rest == {}
    ensures me.lbName !in run[|run| - 1].w.albs && OwnedIds(me, run[|run| - 1].w) == {}
  {
    assert run != [];
    hide IsRun, OwnedIds, NoLeak, RefsExist;
    RunKeepsInv(me, run, |run| - 1);
  }

  lemma ReachedHasNoLeak(me: Me, run: seq<State>)
    requires IsRun(me, run)
    ensures NoLeak(me, run[|run| - 1].w)
  {
    assert run != [];
    hide IsRun, NoLeak, PcInv;
    RunKeepsInv(me, run, |run| - 1);
  }

  lemma UnguardedIsEmpty(me: Me, w: World)
    requires NoLeak(me, w) && !HasFinalizer(w)
    ensures me.lbName !in w.albs && OwnedIds(me, w) == {}
  {
  }

  lemma ListedIdsSplit(listed: seq<CertInfo>, i: nat)
    requires Identified(listed) && i < |listed|
    ensures ListedIds(listed[i..]) == {listed[i].id.value} + ListedIds(listed[i + 1..])
    ensures listed[i].id.value !in ListedIds(listed[i + 1..])
  {
  }

  method DeleteAll(cloud: Cloud, o: ClassObject, listed: seq<CertInfo>) returns (ok: bool)
    requires cloud.Valid() && cloud.pc == TearCleaning(o, ListedIds(listed)) && Identified(listed)
    modifies cloud
    ensures cloud.Valid() && old(cloud.run) <= cloud.run
    ensures ok ==> cloud.pc == TearCleaning(o, {})
    ensures !ok ==> cloud.pc == Idle && !cloud.calm
    ensures cloud.calm ==> cloud.w.albs == old(cloud.w).albs && cloud.w.object_ == old(cloud.w).object_
  {
    hide IsRun, ListedIds;
    assert listed[0..] == listed;
    for i := 0 to |listed|
      invariant cloud.Valid() && old(cloud.run) <= cloud.run
      invariant cloud.pc == TearCleaning(o, ListedIds(listed[i..]))
      invariant cloud.calm ==> cloud.w.albs == old(cloud.w).albs && cloud.w.object_ == old(cloud.w).object_
    {
      ListedIdsSplit(listed, i);
      ok := cloud.DeleteCertificate(listed[i].id.value);
      if !ok { return; }
    }
    assert listed[|listed|..] == [];
    NothingListed();
    ok := true;
  }

  lemma NothingListed()
    ensures ListedIds([]) == {}
  {
  }

  // ---- the entry point ----

  /** The object as it is read at the beginning of a reconcile in calm weather is live. */
  ghost predicate IsLiveClass(w: World) {
    w.object_.Some? && !w.object_.value.deleting
  }

  /** Same objects, in whatever order, for which the class is at rest. */
  ghost predicate RestsFor(me: Me, w: World, i: Inputs, config: Config) {
    var settings := SettleClass(i.class_);
    settings.Ok? && exists j, plan ::
      && SameInputs(j, i) && Unambiguous(j) && DistinctUids(multiset(j.ingresses))
      && IsPlan(j, Frame(i.class_, settings.value, config), plan) && AtRest(me, w, plan)
  }

  /** The class is at rest for a plan that these inputs lead to. */
  ghost predicate Rested(me: Me, w: World, i: Inputs, config: Config) {
    var settings := SettleClass(i.class_);
    settings.Ok? && exists plan :: IsPlan(i, Frame(i.class_, settings.value, config), plan) && AtRest(me, w, plan)
  }

  lemma RunEndsRested(me: Me, i: Inputs, config: Config, run: seq<State>)
    requires run != [] && RanFor(i, config, me, run) && IsLiveClass(run[0].w) && Fingerprinted(me, run[0].w)
    ensures Rested(me, run[|run| - 1].w, i, config)
  {
    hide IsPlan, QuietRun, AtRest, Fingerprinted, SettleClass;
    var plan :| IsPlan(i, Frame(i.class_, SettleClass(i.class_).value, config), plan) && QuietRun(me, plan, run);
    OneReconcileSettles(me, plan, run);
  }

  /** Plans for the same objects, listed in different orders, are the same. */
  lemma SamePlan(i: Inputs, j: Inputs, f: Frame, plan: Plan, other: Plan)
    requires SameInputs(j, i) && Unambiguous(j) && IsPlan(j, f, plan) && IsPlan(i, f, other)
    ensures plan == other
  {
    hide IsBuild, Unambiguous;
    var b :| IsBuild(j, b) && plan.tree == b.tree;
    var c :| IsBuild(i, c) && other.tree == c.tree;
    BuildIsCanonical(j, i, b, c);
  }

  lemma PlanIsUnmistakable(i: Inputs, f: Frame, plan: Plan)
    requires IsPlan(i, f, plan) && DistinctUids(multiset(i.ingresses))
    ensures Unmistakable(plan.tree)
  {
    hide IsBuild;
    var b :| IsBuild(i, b) && plan.tree == b.tree;
    BuildIsUnmistakable(i, b);
  }

  lemma RunFromRestIsQuiet(me: Me, i: Inputs, config: Config, run: seq<State>)
    requires run != [] && RanFor(i, config, me, run) && RestsFor(me, run[0].w, i, config)
    ensures run[|run| - 1].w == run[0].w
  {
    hide IsPlan, QuietRun, AtRest, SettleClass, SameInputs, Unambiguous, Unmistakable;
    var f := Frame(i.class_, SettleClass(i.class_).value, config);
    var plan :| IsPlan(i, f, plan) && QuietRun(me, plan, run);
    var j, other :| SameInputs(j, i) && Unambiguous(j) && DistinctUids(multiset(j.ingresses)) && IsPlan(j, f, other)
                    && AtRest(me, run[0].w, other);
    SamePlan(i, j, f, other, plan);
    PlanIsUnmistakable(j, f, other);
    SecondReconcileIsQuiet(me, plan, run);
  }

  lemma RunTellsAll(me: Me, i: Inputs, config: Config, run: seq<State>, s: State, s': State)
    requires run != [] && run[0] == s && run[|run| - 1] == s' && RanFor(i, config, me, run)
    ensures IsLiveClass(s.w) && Fingerprinted(me, s.w) ==> Rested(me, s'.w, i, config)
    ensures RestsFor(me, s.w, i, config) ==> s'.w == s.w
  {
    hide RanFor, Rested, RestsFor, Fingerprinted;
    if IsLiveClass(s.w) && Fingerprinted(me, s.w) { RunEndsRested(me, i, config, run); }
    if RestsFor(me, s.w, i, config) { RunFromRestIsQuiet(me, i, config, run); }
  }

  /** One reconcile of one class. Whatever happens, it is a run of the protocol, so everything that is proved about
      runs holds. In calm weather its outcome is determined: a live class ends at rest. */
  method Reconcile(cloud: Cloud, class_: IngressClass, ingresses: array<Ingress>, secrets: seq<Secret>,
                   services: seq<Service>, nodes: array<Node>, config: Config)
    returns (r: Outcome)
    requires cloud.Valid() && cloud.pc.Idle?
    requires class_.uid == cloud.me.uid && Names.LoadBalancerName(class_.uid, class_.name) == Some(cloud.me.lbName)
    modifies cloud, ingresses, nodes
    ensures cloud.Valid() && old(cloud.run) <= cloud.run && cloud.pc == Idle
    ensures class_.controller != CONTROLLER_NAME ==> cloud.w.calls == old(cloud.w).calls
    // In calm weather: nothing to do.
    ensures cloud.calm && (old(cloud.w).object_.None? || class_.controller != CONTROLLER_NAME) ==>
              r == Done && cloud.w == old(cloud.w)
    // A class that is being deleted.
    ensures cloud.calm && class_.controller == CONTROLLER_NAME
            && old(cloud.w).object_.Some? && old(cloud.w).object_.value.deleting ==>
      && r == (if cloud.me.lbName in old(cloud.w).albs then RequeueAfter(DELETED_REQUEUE_INTERVAL) else Done)
      && (cloud.me.lbName in cloud.w.albs ==> cloud.w.albs[cloud.me.lbName].status == Some(Api.TERMINATING))
      && (r == Done ==> cloud.me.lbName !in cloud.w.albs && OwnedIds(cloud.me, cloud.w) == {})
      && (r == Done && old(cloud.w).object_.value.finalizer ==> !HasFinalizer(cloud.w))
    // A live class that is invalid only gets its finalizer.
    ensures cloud.calm && class_.controller == CONTROLLER_NAME && IsLiveClass(old(cloud.w))
            && SettleClass(class_).Err? ==>
      && r == Done && HasFinalizer(cloud.w)
      && cloud.w.albs == old(cloud.w).albs && cloud.w.certs == old(cloud.w).certs
    // A live and valid class.
    ensures cloud.calm && class_.controller == CONTROLLER_NAME && IsLiveClass(old(cloud.w))
            && SettleClass(class_).Ok? && Versioned(cloud.me, old(cloud.w)) ==>
      && cloud.me.lbName in cloud.w.albs && r == OutcomeFor(cloud.w.albs[cloud.me.lbName])
      && RanFor(Inputs(class_, old(ingresses[..]), secrets, services, old(nodes[..])), config, cloud.me,
                cloud.run[|old(cloud.run)| - 1..])
      && (Fingerprinted(cloud.me, old(cloud.w)) ==>
            Rested(cloud.me, cloud.w, Inputs(class_, old(ingresses[..]), secrets, services, old(nodes[..])), config))
      && (RestsFor(cloud.me, old(cloud.w), Inputs(class_, old(ingresses[..]), secrets, services, old(nodes[..])),
                   config) ==>
            cloud.w == old(cloud.w))
    // Without a version to update from, the load balancer stays as it is.
    ensures cloud.calm && class_.controller == CONTROLLER_NAME && IsLiveClass(old(cloud.w))
            && !Versioned(cloud.me, old(cloud.w)) ==>
      && MyLb(cloud.me, cloud.w) == old(MyLb(cloud.me, cloud.w))
      && (r == Failure || SettleClass(class_).Err? || r == OutcomeFor(cloud.w.albs[cloud.me.lbName]))
  {
    hide IsRun, Names.LoadBalancerName, OwnedIds, QuietPart, RanFor, WasLive, SettleClass, Rested, RestsFor,
         Fingerprinted;
    ghost var from := |cloud.run| - 1;
    ghost var run := cloud.run;
    ghost var s := cloud.Now();
    var answer := cloud.GetClass();
    if answer.Failed? { return Failure; }
    if answer.NotFound? { return Done; }
    var o := answer.value;
    if class_.controller != CONTROLLER_NAME {
      cloud.End();
      return Done;
    }
    if o.deleting {
      r := HandleIngressClassDeletion(cloud, o, class_.uid);
      return;
    }
    ghost var s' := cloud.Now();
    if o.finalizer {
      cloud.SkipFinalizer(o);
    } else {
      var added := cloud.AddFinalizer(o);
      if !added { return Failure; }
    }
    assert OpenTrack(cloud, from) by {
      if cloud.calm { StartsQuiet(cloud.me, run, s', cloud.Now(), cloud.run); }
    }
    var alb := ReconcileAlbResources(cloud, from, class_, ingresses, secrets, services, nodes, config);
    if alb.Err? { return Failure; }
    if alb.value.None? { return Done; }
    ghost var inputs := Inputs(class_, old(ingresses[..]), secrets, services, old(nodes[..]));
    if cloud.calm { RunTellsAll(cloud.me, inputs, config, cloud.run[from..], s, cloud.Now()); }
    var requeue := CheckStatus(alb.value.value);
    if requeue != Done { return requeue; }
    return if StatusAddress(alb.value.value) != "" then Done else Failure;
  }

  /** Fetching the class and caring for the finalizer is the beginning of an undisturbed reconcile for any plan. */
  lemma StartsQuiet(me: Me, run: seq<State>, s': State, s'': State, all: seq<State>)
    requires run != [] && run[|run| - 1].pc.Idle? && GetClass(run[|run| - 1], s') && all == run + [s'] + [s'']
    requires SkipFinalizer(s', s'') || (Protocol.AddFinalizer(s', s'') && s''.pc == Finalized)
    ensures QuietForAny(me, all[|run| - 1..])
  {
    var part := all[|run| - 1..];
    assert part == [run[|run| - 1], s', s''];
    forall plan ensures QuietPart(me, plan, part) {
      assert QuietStep(me, plan, part[0], part[1]) && QuietStep(me, plan, part[1], part[2]);
      hide QuietStep;
    }
  }
}
