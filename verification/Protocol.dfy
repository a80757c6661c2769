/** The reconcile and teardown protocol of one class as a transition system. Every API call is one step; the
    controller may stop after any of them, and the environment moves in between. */
module Protocol {
  import opened Options
  import opened Tree
  import opened Payload
  import opened Certificates
  import opened Diff
  import Api = AlbApi
  import Names

  /** The IngressClass object in the cluster. `foreign` stands for finalizers of other controllers. */
  datatype ClassObject = ClassObject(version: nat, deleting: bool, finalizer: bool, foreign: bool)

  /** A stored certificate: the value of its class label, and the fingerprint that the API reports. */
  datatype Certificate = Certificate(owner: Option<string>, fingerprint: Option<string>)

  /** The calls of the controller that change something. */
  datatype Call =
    | UpdateClass
    | CreateCertificate(fingerprint: string)
    | DeleteCertificate(id: string)
    | CreateLoadBalancer
    | UpdateLoadBalancer
    | DeleteLoadBalancer

  datatype World = World(
    object_: Option<ClassObject>,
    albs: map<string, Api.LoadBalancer>,
    certs: map<string, Certificate>,
    calls: seq<Call>)

  /** The class a controller run works for: its uid and the name of its load balancer. */
  datatype Me = Me(uid: string, lbName: string)

  /** What building the tree yields. */
  datatype Plan = Plan(frame: Frame, tree: WorkTree)

  /** Where a run of the controller is, with its local variables. */
  datatype PC =
    | Idle
    | Fetched(obj: ClassObject)
    | Finalized
    | Seen(existing: Option<Api.LoadBalancer>)
    | Creating(plan: Plan, before: Option<Api.LoadBalancer>, listed: seq<CertInfo>, missing: set<string>)
    | Cleaning(planned: Plan, ids: map<string, string>, applied: Normal, rest: set<string>)
    | TearSeen(obj: ClassObject, existing: Option<Api.LoadBalancer>)
    | TearCleaning(obj: ClassObject, rest: set<string>)

  datatype State = State(w: World, pc: PC)

  function MyLb(me: Me, w: World): Option<Api.LoadBalancer> {
    Lookup(w.albs, me.lbName)
  }

  predicate Owns(me: Me, c: Certificate) {
    c.owner == Some(me.uid)
  }

  function OwnedIds(me: Me, w: World): set<string> {
    set id | id in w.certs && Owns(me, w.certs[id])
  }

  /** The certificate ids that the live load balancer presents. */
  function LiveRefs(me: Me, w: World): set<string> {
    if me.lbName in w.albs then Api.ReferencedCertificates(w.albs[me.lbName].spec.listeners) else {}
  }

  // ---- the environment ----

  /** Apart from what the server fills in, the configuration is the same. */
  predicate SameConfig(p: Api.Payload, q: Api.Payload) {
    p.(externalAddress := None, version := None) == q.(externalAddress := None, version := None)
  }

  /** Nothing that the comparison looks at, and no reference to a certificate, differs. */
  lemma SameConfigSameNormal(p: Api.Payload, q: Api.Payload)
    requires SameConfig(p, q)
    ensures NormalForm(p) == NormalForm(q)
    ensures Api.ReferencedCertificates(p.listeners) == Api.ReferencedCertificates(q.listeners)
  {
  }

  /** Users and other controllers may touch the object, but not our finalizer; it goes away without finalizers. */
  predicate ObjectEvolves(o: Option<ClassObject>, o': Option<ClassObject>) {
    || o == o'
    || (o.Some? && o'.Some? && o'.value.version > o.value.version && o'.value.finalizer == o.value.finalizer
        && (o.value.deleting ==> o'.value.deleting))
    || (o.Some? && o'.None? && !o.value.finalizer)
  }

  /** Our load balancer changes status, and disappears some time after its deletion was requested. */
  predicate LbEvolves(a: Option<Api.LoadBalancer>, b: Option<Api.LoadBalancer>) {
    || a == b
    || (a.Some? && b.Some? && SameConfig(a.value.spec, b.value.spec))
    || (a.Some? && b.None? && a.value.status == Some(Api.TERMINATING))
  }

  ghost predicate OwnCertsSame(me: Me, w: World, w': World) {
    forall id ::
      && (id in w.certs && Owns(me, w.certs[id]) ==> id in w'.certs && w'.certs[id] == w.certs[id])
      && (id in w'.certs && Owns(me, w'.certs[id]) ==> id in w.certs && w.certs[id] == w'.certs[id])
  }

  /** Everything that is not this controller run: users, the API itself, and runs for other classes. */
  ghost predicate EnvStep(me: Me, w: World, w': World) {
    && ObjectEvolves(w.object_, w'.object_)
    && LbEvolves(MyLb(me, w), MyLb(me, w'))
    && OwnCertsSame(me, w, w')
    && w'.calls == w.calls
  }

  // ---- the controller: after an effect it goes on, or stops because an error was reported ----

  ghost predicate GoesOn(s': State, next: PC) {
    s'.pc == next || s'.pc == Idle
  }

  ghost predicate Stop(s: State, s': State) {
    s'.w == s.w && s'.pc == Idle
  }

  ghost predicate GetClass(s: State, s': State) {
    s.pc.Idle? && s.w.object_.Some? && s'.w == s.w && s'.pc == Fetched(s.w.object_.value)
  }

  ghost predicate SkipFinalizer(s: State, s': State) {
    s.pc.Fetched? && !s.pc.obj.deleting && s.pc.obj.finalizer && s'.w == s.w && s'.pc == Finalized
  }

  /** Updates are rejected unless the object is still the one that was read. */
  ghost predicate AddFinalizer(s: State, s': State) {
    && s.pc.Fetched? && !s.pc.obj.deleting && !s.pc.obj.finalizer
    && s.w.object_ == Some(s.pc.obj)
    && s'.w == s.w.(object_ := Some(s.pc.obj.(finalizer := true, version := s.pc.obj.version + 1)),
                    calls := s.w.calls + [UpdateClass])
    && GoesOn(s', Finalized)
  }

  ghost predicate GetLb(me: Me, s: State, s': State) {
    s.pc.Finalized? && s'.w == s.w && s'.pc == Seen(MyLb(me, s.w))
  }

  /** The listing has each certificate of the class once, with the fingerprint the API has for it. */
  ghost predicate IsListing(me: Me, w: World, listed: seq<CertInfo>) {
    && Identified(listed)
    && (forall i | 0 <= i < |listed| :: listed[i].id.value in OwnedIds(me, w)
          && listed[i].fingerprint == w.certs[listed[i].id.value].fingerprint)
    && OwnedIds(me, w) <= ListedIds(listed)
  }

  ghost predicate PlanFor(me: Me, plan: Plan) {
    && plan.frame.class_.uid == me.uid
    && Names.LoadBalancerName(plan.frame.class_.uid, plan.frame.class_.name) == Some(me.lbName)
  }

  ghost predicate ListForPlan(me: Me, s: State, s': State) {
    && s.pc.Seen? && s'.w == s.w && s'.pc.Creating?
    && PlanFor(me, s'.pc.plan) && s'.pc.before == s.pc.existing
    && IsListing(me, s.w, s'.pc.listed)
    && s'.pc.missing == Missing(s'.pc.plan.tree, s'.pc.listed).Keys
  }

  /** The API picks an unused id and computes the fingerprint that it is going to report. */
  ghost predicate CreateCertWith(me: Me, s: State, s': State, f: string, id: string, reported: Option<string>) {
    && s.pc.Creating? && f in s.pc.missing && id !in s.w.certs
    && s'.w == s.w.(certs := s.w.certs[id := Certificate(Some(me.uid), reported)],
                    calls := s.w.calls + [CreateCertificate(f)])
    && GoesOn(s', s.pc.(listed := s.pc.listed + [CertInfo(Some(id), reported)], missing := s.pc.missing - {f}))
  }

  ghost predicate CreateCert(me: Me, s: State, s': State) {
    exists f, id, reported :: CreateCertWith(me, s, s', f, id, reported)
  }

  /** Duplicates and unused certificates might still be presented by the load balancer until it is up to date. */
  ghost predicate NextCleaning(s: State, s': State, p: Api.Payload) {
    && s.pc.Creating? && s.pc.missing == {}
    && var x := Index(s.pc.listed);
    GoesOn(s', Cleaning(s.pc.plan, x.ids, NormalForm(p), Cleanup(s.pc.plan.tree, x)))
  }

  ghost predicate CreateLbWith(me: Me, s: State, s': State, p: Api.Payload, lb: Api.LoadBalancer) {
    && NextCleaning(s, s', p) && s.pc.before.None?
    && IsCreatePayload(s.pc.plan.frame, s.pc.plan.tree, Index(s.pc.listed).ids, p)
    && me.lbName !in s.w.albs && SameConfig(p, lb.spec)
    && s'.w == s.w.(albs := s.w.albs[me.lbName := lb], calls := s.w.calls + [CreateLoadBalancer])
  }

  ghost predicate CreateLb(me: Me, s: State, s': State) {
    exists p, lb :: CreateLbWith(me, s, s', p, lb)
  }

  /** An update names the version it is based on. */
  predicate VersionAccepted(current: Option<string>, given: Option<string>) {
    given.GetOr("") != "" && (current.None? || current == given)
  }

  ghost predicate UpdateLbWith(me: Me, s: State, s': State, p: Api.Payload, lb: Api.LoadBalancer) {
    && NextCleaning(s, s', p) && s.pc.before.Some?
    && IsUpdatePayload(s.pc.plan.frame, s.pc.plan.tree, Index(s.pc.listed).ids, s.pc.before.value, p)
    && NormalForm(s.pc.before.value.spec) != NormalForm(p)
    && me.lbName in s.w.albs && VersionAccepted(s.w.albs[me.lbName].spec.version, p.version) && SameConfig(p, lb.spec)
    && s'.w == s.w.(albs := s.w.albs[me.lbName := lb], calls := s.w.calls + [UpdateLoadBalancer])
  }

  ghost predicate UpdateLb(me: Me, s: State, s': State) {
    exists p, lb :: UpdateLbWith(me, s, s', p, lb)
  }

  ghost predicate KeepLbWith(s: State, s': State, p: Api.Payload) {
    && NextCleaning(s, s', p) && s.pc.before.Some?
    && IsUpdatePayload(s.pc.plan.frame, s.pc.plan.tree, Index(s.pc.listed).ids, s.pc.before.value, p)
    && NormalForm(s.pc.before.value.spec) == NormalForm(p)
    && s'.w == s.w
  }

  ghost predicate KeepLb(s: State, s': State) {
    exists p :: KeepLbWith(s, s', p)
  }

  ghost predicate DeleteCertWith(s: State, s': State, id: string) {
    && s.pc.Cleaning? && id in s.pc.rest
    && s'.w == s.w.(certs := s.w.certs - {id}, calls := s.w.calls + [DeleteCertificate(id)])
    && GoesOn(s', Cleaning(s.pc.planned, s.pc.ids, s.pc.applied, s.pc.rest - {id}))
  }

  ghost predicate DeleteCert(s: State, s': State) {
    exists id :: DeleteCertWith(s, s', id)
  }

  // A run that has nothing left to clean up ends like one that stops.

  ghost predicate TearGet(me: Me, s: State, s': State) {
    s.pc.Fetched? && s.pc.obj.deleting && s'.w == s.w && s'.pc == TearSeen(s.pc.obj, MyLb(me, s.w))
  }

  /** Deletion is asynchronous: the load balancer is gone at once or stays as terminating for a while. */
  ghost predicate TearDelete(me: Me, s: State, s': State) {
    && s.pc.TearSeen? && s.pc.existing.Some? && s.pc.existing.value.status != Some(Api.TERMINATING)
    && s'.pc == Idle
    && s'.w.calls == s.w.calls + [DeleteLoadBalancer]
    && s'.w.object_ == s.w.object_ && s'.w.certs == s.w.certs
    && (s'.w.albs == s.w.albs - {me.lbName}
        || (me.lbName in s.w.albs
            && s'.w.albs == s.w.albs[me.lbName := s.w.albs[me.lbName].(status := Some(Api.TERMINATING))]))
  }

  ghost predicate TearList(me: Me, s: State, s': State) {
    && s.pc.TearSeen? && s.pc.existing.None? && s'.w == s.w && s'.pc.TearCleaning? && s'.pc.obj == s.pc.obj
    && exists listed :: IsListing(me, s.w, listed) && s'.pc.rest == ListedIds(listed)
  }

  ghost predicate TearDeleteCertWith(s: State, s': State, id: string) {
    && s.pc.TearCleaning? && id in s.pc.rest
    && s'.w == s.w.(certs := s.w.certs - {id}, calls := s.w.calls + [DeleteCertificate(id)])
    && GoesOn(s', TearCleaning(s.pc.obj, s.pc.rest - {id}))
  }

  ghost predicate TearDeleteCert(s: State, s': State) {
    exists id :: TearDeleteCertWith(s, s', id)
  }

  ghost predicate RemoveFinalizer(s: State, s': State) {
    && s.pc.TearCleaning? && s.pc.rest == {} && s.pc.obj.finalizer
    && s.w.object_ == Some(s.pc.obj)
    && s'.pc == Idle
    && s'.w == s.w.(object_ := if s.pc.obj.foreign
                               then Some(s.pc.obj.(finalizer := false, version := s.pc.obj.version + 1))
                               else None,
                    calls := s.w.calls + [UpdateClass])
  }

  /** One step of the controller. `Stop` is a crash, a failed call, or simply the end of a run. */
  ghost predicate CtrlStep(me: Me, s: State, s': State) {
    || Stop(s, s')
    || GetClass(s, s') || SkipFinalizer(s, s') || AddFinalizer(s, s')
    || GetLb(me, s, s') || ListForPlan(me, s, s') || CreateCert(me, s, s')
    || CreateLb(me, s, s') || UpdateLb(me, s, s') || KeepLb(s, s') || DeleteCert(s, s')
    || TearGet(me, s, s') || TearDelete(me, s, s') || TearList(me, s, s')
    || TearDeleteCert(s, s') || RemoveFinalizer(s, s')
  }

  ghost predicate Next(me: Me, s: State, s': State) {
    (s'.pc == s.pc && EnvStep(me, s.w, s'.w)) || CtrlStep(me, s, s')
  }

  /** Before the controller has seen the class there is nothing of it. */
  ghost predicate Init(me: Me, s: State) {
    s.pc.Idle? && me.lbName !in s.w.albs && OwnedIds(me, s.w) == {}
  }

  ghost predicate IsRun(me: Me, run: seq<State>) {
    && run != [] && Init(me, run[0])
    && forall i | 0 <= i < |run| - 1 :: Next(me, run[i], run[i + 1])
  }
}
