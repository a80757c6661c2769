/** The in-memory stores do what the protocol says: every call they accept is one step of it. */
module StoreSteps {
  import opened Options
  import opened Payload
  import opened Certificates
  import opened Diff
  import opened Protocol
  import opened Convergence
  import opened Stores
  import opened Cloud
  import Api = AlbApi
  import Names
  import Tree

  // ---- one project and region of a store, as the protocol sees it ----

  function NamesIn(keys: set<ResourceKey>, project: string, region: string): set<string> {
    set key | key in keys && key.project == project && key.region == region :: key.name
  }

  function In<V>(m: map<ResourceKey, V>, project: string, region: string): map<string, V> {
    map name | name in NamesIn(m.Keys, project, region) :: m[ResourceKey(project, region, name)]
  }

  /** The class label tells whose certificate it is. */
  function CertificateOf(c: StoredCertificate): Certificate {
    Certificate(Lookup(c.labels.GetOr(map[]), LABEL_CLASS_UID), Some(c.fingerprint))
  }

  function AsCertificates(m: map<string, StoredCertificate>): map<string, Certificate> {
    map name | name in m :: CertificateOf(m[name])
  }

  function CertsIn(m: map<ResourceKey, StoredCertificate>, project: string, region: string): map<string, Certificate> {
    AsCertificates(In(m, project, region))
  }

  lemma NamesAfterWrite(keys: set<ResourceKey>, project: string, region: string, name: string)
    ensures var key := ResourceKey(project, region, name);
      && NamesIn(keys + {key}, project, region) == NamesIn(keys, project, region) + {name}
      && NamesIn(keys - {key}, project, region) == NamesIn(keys, project, region) - {name}
      && (key in keys <==> name in NamesIn(keys, project, region))
  {
    assert ResourceKey(project, region, name) in keys + {ResourceKey(project, region, name)};
  }

  lemma Written<V>(m: map<ResourceKey, V>, project: string, region: string, name: string, v: V)
    ensures In(m[ResourceKey(project, region, name) := v], project, region) == In(m, project, region)[name := v]
  {
    var key := ResourceKey(project, region, name);
    NamesAfterWrite(m.Keys, project, region, name);
    assert m[key := v].Keys == m.Keys + {key};
    hide NamesIn;
  }

  lemma Removed<V>(m: map<ResourceKey, V>, project: string, region: string, name: string)
    ensures In(m - {ResourceKey(project, region, name)}, project, region) == In(m, project, region) - {name}
  {
    var key := ResourceKey(project, region, name);
    NamesAfterWrite(m.Keys, project, region, name);
    assert (m - {key}).Keys == m.Keys - {key};
    hide NamesIn;
  }

  lemma LookedUp<V>(m: map<ResourceKey, V>, project: string, region: string, name: string)
    ensures Lookup(In(m, project, region), name) == Lookup(m, ResourceKey(project, region, name))
  {
    NamesAfterWrite(m.Keys, project, region, name);
    hide NamesIn;
  }

  // ---- load balancers ----

  /** Where an apply call leads: the cleanup is known. */
  ghost function AfterApply(pc: PC, p: Api.Payload): PC
    requires pc.Creating?
  {
    var x := Index(pc.listed);
    Cleaning(pc.plan, x.ids, NormalForm(p), Cleanup(pc.plan.tree, x))
  }

  lemma CreatePayloadIsNamed(f: Frame, t: Tree.WorkTree, ids: map<string, string>, p: Api.Payload)
    requires IsCreatePayload(f, t, ids, p)
    ensures p.name == Names.LoadBalancerName(f.class_.uid, f.class_.name) && p.version.None?
  {
    hide LiveListeners, ArePools;
  }

  method CreateLoadBalancer(alb: FakeAlb, project: string, region: string, ghost me: Me, ghost s: State, p: Api.Payload)
    returns (r: Reply<Api.LoadBalancer>, ghost s': State)
    requires s.w.albs == In(alb.loadBalancers, project, region)
    requires s.pc.Creating? && s.pc.missing == {} && s.pc.before.None? && PlanFor(me, s.pc.plan)
    requires IsCreatePayload(s.pc.plan.frame, s.pc.plan.tree, Index(s.pc.listed).ids, p)
    modifies alb
    ensures s'.w.albs == In(alb.loadBalancers, project, region)
    ensures r.Accepted? <==> me.lbName !in s.w.albs
    ensures r.Accepted? ==> CreateLbWith(me, s, s', p, r.value) && s'.pc == AfterApply(s.pc, p)
    ensures !r.Accepted? ==> s' == s
  {
    hide NormalForm, Index, Cleanup, IsCreatePayload, Materialize, SameConfig, In, Names.LoadBalancerName;
    LookedUp(alb.loadBalancers, project, region, me.lbName);
    Written(alb.loadBalancers, project, region, me.lbName, Materialize(alb.addresses, p));
    CreatePayloadIsNamed(s.pc.plan.frame, s.pc.plan.tree, Index(s.pc.listed).ids, p);
    assert p.(version := None) == p;
    r := alb.CreateLoadBalancer(project, region, p);
    s' := s;
    if r.Accepted? {
      StoringAPayloadSettlesIt(alb.addresses, p.(version := None));
      s' := State(s.w.(albs := s.w.albs[me.lbName := r.value], calls := s.w.calls + [Protocol.CreateLoadBalancer]),
                  AfterApply(s.pc, p));
    }
  }

  method UpdateLoadBalancer(alb: FakeAlb, project: string, region: string, name: string, ghost me: Me, ghost s: State,
                            p: Api.Payload)
    returns (r: Reply<Api.LoadBalancer>, ghost s': State)
    requires s.w.albs == In(alb.loadBalancers, project, region) && name == me.lbName
    requires s.pc.Creating? && s.pc.missing == {} && s.pc.before.Some?
    requires IsUpdatePayload(s.pc.plan.frame, s.pc.plan.tree, Index(s.pc.listed).ids, s.pc.before.value, p)
    requires NormalForm(s.pc.before.value.spec) != NormalForm(p)
    modifies alb
    ensures s'.w.albs == In(alb.loadBalancers, project, region)
    ensures r.Accepted? <==> name in s.w.albs && VersionAccepted(s.w.albs[name].spec.version, p.version)
    ensures r.Accepted? ==> UpdateLbWith(me, s, s', p, r.value) && s'.pc == AfterApply(s.pc, p)
    ensures !r.Accepted? ==> s' == s
  {
    hide NormalForm, Index, Cleanup, IsUpdatePayload, Materialize, SameConfig, In;
    LookedUp(alb.loadBalancers, project, region, name);
    Written(alb.loadBalancers, project, region, name, Materialize(alb.addresses, p));
    r := alb.UpdateLoadBalancer(project, region, name, p);
    s' := s;
    if r.Accepted? {
      StoringAPayloadSettlesIt(alb.addresses, p);
      s' := State(s.w.(albs := s.w.albs[name := r.value], calls := s.w.calls + [Protocol.UpdateLoadBalancer]),
                  AfterApply(s.pc, p));
    }
  }

  /** Deletion takes effect at once in the store; the protocol also allows it to take time. */
  method DeleteLoadBalancer(alb: FakeAlb, project: string, region: string, name: string, ghost me: Me, ghost s: State)
    returns (ghost s': State)
    requires s.w.albs == In(alb.loadBalancers, project, region) && name == me.lbName
    requires s.pc.TearSeen? && s.pc.existing.Some? && s.pc.existing.value.status != Some(Api.TERMINATING)
    modifies alb
    ensures s'.w.albs == In(alb.loadBalancers, project, region)
    ensures TearDelete(me, s, s') && name !in s'.w.albs
  {
    hide In;
    Removed(alb.loadBalancers, project, region, name);
    alb.DeleteLoadBalancer(project, region, name);
    s' := State(s.w.(albs := s.w.albs - {name}, calls := s.w.calls + [Protocol.DeleteLoadBalancer]), Idle);
  }

  method GetLoadBalancer(alb: FakeAlb, project: string, region: string, name: string, ghost me: Me, ghost s: State)
    returns (r: Reply<Api.LoadBalancer>, ghost s': State)
    requires s.w.albs == In(alb.loadBalancers, project, region) && name == me.lbName
    requires s.pc.Finalized? || (s.pc.Fetched? && s.pc.obj.deleting)
    modifies alb`calls
    ensures MyLb(me, s.w) == if r.Accepted? then Some(r.value) else None
    ensures if s.pc.Finalized? then Protocol.GetLb(me, s, s') else TearGet(me, s, s')
  {
    hide In;
    LookedUp(alb.loadBalancers, project, region, name);
    r := alb.GetLoadBalancer(project, region, name);
    s' := State(s.w, if s.pc.Finalized? then Seen(MyLb(me, s.w)) else TearSeen(s.pc.obj, MyLb(me, s.w)));
  }

  // ---- certificates ----

  lemma LabelTellsOwner(c: StoredCertificate, uid: string, extra: map<string, string>)
    requires c.labels == Some(MergeExtraLabels(map[LABEL_CLASS_UID := uid], extra))
    ensures CertificateOf(c) == Certificate(Some(uid), Some(c.fingerprint))
  {
  }

  /** The certificate is labelled with its class. If the API computes the fingerprint that the tree has, the call
      is accepted and reports it. */
  method CreateCertificate(certs: FakeCerts, project: string, region: string, uid: string, extra: map<string, string>,
                           publicKey: string, privateKey: string, f: string, ghost me: Me, ghost s: State)
    returns (r: Reply<StoredCertificate>, ghost s': State)
    requires certs.Valid() && s.w.certs == CertsIn(certs.certs, project, region) && uid == me.uid
    requires s.pc.Creating? && f in s.pc.missing
    modifies certs
    ensures certs.Valid() && s'.w.certs == CertsIn(certs.certs, project, region)
    ensures r.Accepted? ==> CreateCertWith(me, s, s', f, r.value.id, Some(r.value.fingerprint)) && s'.pc.Creating?
    ensures certs.fingerprint(publicKey, privateKey) == Ok(f) ==>
      r.Accepted? && r.value.fingerprint == f && QuietStep(me, s.pc.plan, s, s')
    ensures !r.Accepted? ==> s' == s
  {
    hide In, QuietStep, MergeExtraLabels, CertificateOf;
    var labels := MergeExtraLabels(map[LABEL_CLASS_UID := uid], extra);
    ghost var before := certs.certs;
    r := certs.CreateCertificate(project, region, CertificatePayload(Some(labels), publicKey, privateKey));
    s' := s;
    if r.Accepted? {
      var c := r.value;
      LookedUp(before, project, region, c.id);
      Written(before, project, region, c.id, c);
      LabelTellsOwner(c, uid, extra);
      s' := State(s.w.(certs := s.w.certs[c.id := CertificateOf(c)],
                       calls := s.w.calls + [Protocol.CreateCertificate(f)]),
                  s.pc.(listed := s.pc.listed + [CertInfo(Some(c.id), Some(c.fingerprint))],
                        missing := s.pc.missing - {f}));
      if c.fingerprint == f { HonestCreateIsQuiet(me, s, s', f, c.id); }
    }
  }

  lemma HonestCreateIsQuiet(me: Me, s: State, s': State, f: string, id: string)
    requires CreateCertWith(me, s, s', f, id, Some(f)) && s'.pc.Creating?
    ensures QuietStep(me, s.pc.plan, s, s')
  {
  }

  method DeleteCertificate(certs: FakeCerts, project: string, region: string, id: string, ghost s: State)
    returns (ghost s': State)
    requires certs.Valid() && s.w.certs == CertsIn(certs.certs, project, region)
    requires (s.pc.Cleaning? || s.pc.TearCleaning?) && id in s.pc.rest
    modifies certs
    ensures certs.Valid() && s'.w.certs == CertsIn(certs.certs, project, region)
    ensures if s.pc.Cleaning? then DeleteCertWith(s, s', id) else TearDeleteCertWith(s, s', id)
    ensures !s'.pc.Idle?
  {
    hide In;
    Removed(certs.certs, project, region, id);
    certs.DeleteCertificate(project, region, id);
    s' := State(s.w.(certs := s.w.certs - {id}, calls := s.w.calls + [Protocol.DeleteCertificate(id)]),
                if s.pc.Cleaning? then Cleaning(s.pc.planned, s.pc.ids, s.pc.applied, s.pc.rest - {id})
                else TearCleaning(s.pc.obj, s.pc.rest - {id}));
  }

  function Listed(c: StoredCertificate): ListedCertificate {
    ListedCertificate(CertInfo(Some(c.id), CertificateOf(c).fingerprint), CertificateOf(c).owner)
  }

  lemma StoredIsListed(certs: FakeCerts, project: string, region: string, items: seq<StoredCertificate>, id: string)
    requires certs.Valid() && ResourceKey(project, region, id) in certs.certs
    requires forall c ::
               c in items <==>
                 var key := ResourceKey(project, region, c.id); key in certs.certs && certs.certs[key] == c
    ensures exists i :: 0 <= i < |items| && items[i].id == id
  {
    var c := certs.certs[ResourceKey(project, region, id)];
    assert c.id == id && c in items;
    var i :| 0 <= i < |items| && items[i] == c;
  }

  /** What the store lists is a listing in the sense of the protocol, once it is filtered by label. */
  method ListCertificate(certs: FakeCerts, project: string, region: string, ghost me: Me, ghost w: World)
    returns (all: seq<ListedCertificate>)
    requires certs.Valid() && w.certs == CertsIn(certs.certs, project, region)
    modifies certs`calls
    ensures certs.Valid() && IsListing(me, w, OwnedEntries(me.uid, all))
  {
    hide IsListing, OwnedEntries, In;
    var items := certs.ListCertificate(project, region);
    all := seq(|items|, i requires 0 <= i < |items| => Listed(items[i]));
    ghost var keys := seq(|items|, i requires 0 <= i < |items| => items[i].id);
    forall i | 0 <= i < |items| ensures items[i].id in w.certs && w.certs[items[i].id] == CertificateOf(items[i]) {
      assert items[i] in items;
      LookedUp(certs.certs, project, region, items[i].id);
    }
    forall id | id in w.certs ensures id in keys {
      LookedUp(certs.certs, project, region, id);
      StoredIsListed(certs, project, region, items, id);
      var i :| 0 <= i < |items| && items[i].id == id;
      assert keys[i] == id;
    }
    OwnedEntriesAreListing(me, w, all, keys);
  }
}
