/** The in-memory stand-ins for the load balancer API and the certificate API. */
module Stores {
  import opened Options
  import opened Names
  import opened AlbApi
  import opened Diff
  import Protocol

  datatype ResourceKey = ResourceKey(project: string, region: string, name: string)

  datatype Reply<+T> = Accepted(value: T) | NotFound | Refused

  // ---- load balancers ----

  const NON_EXISTENT_IP := "127.0.0.1"

  datatype Addresses = Addresses(external: string, private: string)

  /** What the server fills in: the next version, an address, and the status that follows from it. */
  function Materialize(a: Addresses, p: Payload): LoadBalancer {
    var version := if p.version.GetOr("") == "" then "0" else p.version.value + "+1";
    var internal := p.options.Some? && p.options.value.privateNetworkOnly == Some(true);
    var external := if internal || p.externalAddress.Some? then p.externalAddress else Some(a.external);
    var bad := external == Some(NON_EXISTENT_IP);
    LoadBalancer(p.(version := Some(version), externalAddress := external),
                 if internal then Some(a.private) else None,
                 Some(if bad then ERROR else READY),
                 if bad then ["IP address " + NON_EXISTENT_IP + " not found"] else [])
  }

  datatype AlbCall =
    | GetLb(key: ResourceKey)
    | DeleteLb(key: ResourceKey)
    | CreateLb(project: string)
    | UpdateLb(key: ResourceKey)

  class FakeAlb {
    var loadBalancers: map<ResourceKey, LoadBalancer>
    var calls: seq<AlbCall>
    const addresses: Addresses

    constructor ()
      ensures loadBalancers == map[] && calls == [] && addresses == Addresses("1.2.3.4", "10.0.0.1")
    {
      loadBalancers, calls, addresses := map[], [], Addresses("1.2.3.4", "10.0.0.1");
    }

    method GetLoadBalancer(project: string, region: string, name: string) returns (r: Reply<LoadBalancer>)
      modifies this`calls
      ensures var key := ResourceKey(project, region, name);
        calls == old(calls) + [GetLb(key)]
        && r == if key in loadBalancers then Accepted(loadBalancers[key]) else NotFound
    {
      var key := ResourceKey(project, region, name);
      calls := calls + [GetLb(key)];
      return if key in loadBalancers then Accepted(loadBalancers[key]) else NotFound;
    }

    /** Deleting what does not exist is not an error. */
    method DeleteLoadBalancer(project: string, region: string, name: string)
      modifies this
      ensures var key := ResourceKey(project, region, name);
        loadBalancers == old(loadBalancers) - {key} && calls == old(calls) + [DeleteLb(key)]
    {
      var key := ResourceKey(project, region, name);
      calls := calls + [DeleteLb(key)];
      loadBalancers := loadBalancers - {key};
    }

    method CreateLoadBalancer(project: string, region: string, payload: Payload) returns (r: Reply<LoadBalancer>)
      modifies this
      ensures calls == old(calls) + [CreateLb(project)]
      ensures r.Accepted? <==> payload.name.Some? && payload.version.GetOr("") == ""
                               && ResourceKey(project, region, payload.name.value) !in old(loadBalancers)
      ensures r.Accepted? ==> r.value == Materialize(addresses, payload.(version := None))
      ensures r.Accepted? ==>
        loadBalancers == old(loadBalancers)[ResourceKey(project, region, payload.name.value) := r.value]
      ensures !r.Accepted? ==> r.Refused? && loadBalancers == old(loadBalancers)
    {
      calls := calls + [CreateLb(project)];
      if payload.name.None? { return Refused; }
      if payload.version.GetOr("") != "" { return Refused; }
      var key := ResourceKey(project, region, payload.name.value);
      if key in loadBalancers { return Refused; }
      var lb := Materialize(addresses, payload.(version := None));
      loadBalancers := loadBalancers[key := lb];
      return Accepted(lb);
    }

    method UpdateLoadBalancer(project: string, region: string, name: string, payload: Payload)
        returns (r: Reply<LoadBalancer>)
      modifies this
      ensures var key := ResourceKey(project, region, name);
        && calls == old(calls) + [UpdateLb(key)]
        && (r.Accepted? <==>
              && key in old(loadBalancers) && payload.version.Some? && payload.version.value != ""
              && (old(loadBalancers)[key].spec.version in {None, payload.version}))
        && (r.Accepted? ==>
                r.value == Materialize(addresses, payload) && loadBalancers == old(loadBalancers)[key := r.value])
        && (!r.Accepted? ==> loadBalancers == old(loadBalancers) && (r.NotFound? <==> key !in loadBalancers))
    {
      var key := ResourceKey(project, region, name);
      calls := calls + [UpdateLb(key)];
      if key !in loadBalancers { return NotFound; }
      var existing := loadBalancers[key];
      if payload.version.GetOr("") == "" { return Refused; }
      if existing.spec.version.Some? && payload.version.value != existing.spec.version.value { return Refused; }
      var lb := Materialize(addresses, payload);
      loadBalancers := loadBalancers[key := lb];
      return Accepted(lb);
    }
  }

  /** What is stored is what was sent, apart from version and address, so comparing the two finds no difference. */
  lemma StoringAPayloadSettlesIt(a: Addresses, p: Payload)
    ensures Protocol.SameConfig(p, Materialize(a, p).spec)
    ensures NormalForm(Materialize(a, p).spec) == NormalForm(p)
  {
  }

  /** No lost updates: once an update based on a version has been accepted, no other one based on it will be. */
  lemma AcceptedVersionIsUsedUp(a: Addresses, current: LoadBalancer, p: Payload, q: Payload)
    requires Protocol.VersionAccepted(current.spec.version, p.version) && q.version == p.version
    ensures !Protocol.VersionAccepted(Materialize(a, p).spec.version, q.version)
  {
  }

  // ---- certificates ----

  datatype CertificatePayload = CertificatePayload(
    labels: Option<map<string, string>>,
    publicKey: string,
    privateKey: string)

  datatype StoredCertificate = StoredCertificate(
    id: string,
    labels: Option<map<string, string>>,
    publicKey: string,
    fingerprint: string)

  /** The fingerprint function of the API; it fails on keys it cannot read. */
  type FingerprintFunction = (string, string) -> Result<string>

  function CertificateId(n: nat): string {
    "cert-" + Decimal(n)
  }

  lemma CertificateIdInjective(m: nat, n: nat)
    requires CertificateId(m) == CertificateId(n)
    ensures m == n
  {
    assert CertificateId(m)[5..] == Decimal(m) && CertificateId(n)[5..] == Decimal(n);
    DecimalInjective(m, n);
  }

  datatype CertCall =
    | CreateCert(project: string, region: string)
    | DeleteCert(key: ResourceKey)
    | ListCerts(project: string, region: string)

  /** `items` has the certificates of the project and region whose keys are not in `todo`, each once. */
  ghost predicate Lists(certs: map<ResourceKey, StoredCertificate>, items: seq<StoredCertificate>,
                        todo: set<ResourceKey>, project: string, region: string) {
    && (forall i, j | 0 <= i < j < |items| :: items[i].id != items[j].id)
    && (forall c ::
            c in items <==>
              var key := ResourceKey(project, region, c.id); key in certs && key !in todo && certs[key] == c)
  }

  lemma ListsNext(certs: map<ResourceKey, StoredCertificate>, items: seq<StoredCertificate>, todo: set<ResourceKey>,
                  project: string, region: string, key: ResourceKey)
    requires Lists(certs, items, todo, project, region) && key in todo && key in certs && certs[key].id == key.name
    ensures key.project == project && key.region == region ==>
              Lists(certs, items + [certs[key]], todo - {key}, project, region)
    ensures !(key.project == project && key.region == region) ==> Lists(certs, items, todo - {key}, project, region)
  {
    if key.project == project && key.region == region { assert certs[key] !in items; }
  }

  lemma ListsNone(certs: map<ResourceKey, StoredCertificate>, project: string, region: string)
    ensures Lists(certs, [], certs.Keys, project, region)
  {
  }

  lemma ListsAll(certs: map<ResourceKey, StoredCertificate>, items: seq<StoredCertificate>, project: string,
                 region: string)
    requires Lists(certs, items, {}, project, region)
    ensures forall i, j | 0 <= i < j < |items| :: items[i].id != items[j].id
    ensures forall c ::
              c in items <==> var key := ResourceKey(project, region, c.id); key in certs && certs[key] == c
  {
  }

  class FakeCerts {
    var certs: map<ResourceKey, StoredCertificate>
    var calls: seq<CertCall>
    var counter: nat
    const fingerprint: FingerprintFunction

    /** Every id was handed out by the counter. */
    ghost predicate Valid()
      reads this
    {
      && (forall key | key in certs :: certs[key].id == key.name)
      && (forall key | key in certs :: exists n: nat :: 0 < n <= counter && key.name == CertificateId(n))
    }

    constructor (fingerprint: FingerprintFunction)
      ensures Valid() && certs == map[] && calls == [] && this.fingerprint == fingerprint
    {
      this.fingerprint := fingerprint;
      certs, calls, counter := map[], [], 0;
    }

    lemma NextIdIsFresh(key: ResourceKey)
      requires Valid() && key in certs
      ensures key.name != CertificateId(counter + 1)
    {
      var n: nat :| 0 < n <= counter && key.name == CertificateId(n);
      if key.name == CertificateId(counter + 1) { CertificateIdInjective(n, counter + 1); }
    }

    /** Creating never overwrites: the id is new in every project and region. */
    method CreateCertificate(project: string, region: string, payload: CertificatePayload)
        returns (r: Reply<StoredCertificate>)
      requires Valid()
      modifies this
      ensures Valid() && calls == old(calls) + [CreateCert(project, region)]
      ensures r.Accepted? <==> fingerprint(payload.publicKey, payload.privateKey).Ok?
      ensures r.Accepted? ==>
        && (forall key | key in old(certs) :: key.name != r.value.id)
        && certs == old(certs)[ResourceKey(project, region, r.value.id) := r.value]
        && r.value.labels == payload.labels && r.value.publicKey == payload.publicKey
        && Ok(r.value.fingerprint) == fingerprint(payload.publicKey, payload.privateKey)
      ensures !r.Accepted? ==> certs == old(certs)
    {
      calls := calls + [CreateCert(project, region)];
      var f := fingerprint(payload.publicKey, payload.privateKey);
      if f.Err? { return Refused; }
      forall key | key in certs ensures key.name != CertificateId(counter + 1) { NextIdIsFresh(key); }
      counter := counter + 1;
      var id := CertificateId(counter);
      var c := StoredCertificate(id, payload.labels, payload.publicKey, f.value);
      certs := certs[ResourceKey(project, region, id) := c];
      return Accepted(c);
    }

    method DeleteCertificate(project: string, region: string, id: string)
      requires Valid()
      modifies this`certs, this`calls
      ensures Valid() && certs == old(certs) - {ResourceKey(project, region, id)}
      ensures calls == old(calls) + [DeleteCert(ResourceKey(project, region, id))]
    {
      calls := calls + [DeleteCert(ResourceKey(project, region, id))];
      certs := certs - {ResourceKey(project, region, id)};
    }

    /** Lists each certificate of the project and region once, in any order. */
    method ListCertificate(project: string, region: string) returns (items: seq<StoredCertificate>)
      requires Valid()
      modifies this`calls
      ensures Valid() && calls == old(calls) + [ListCerts(project, region)]
      ensures forall i, j | 0 <= i < j < |items| :: items[i].id != items[j].id
      ensures forall c ::
                c in items <==> var key := ResourceKey(project, region, c.id); key in certs && certs[key] == c
    {
      hide Lists;
      calls := calls + [ListCerts(project, region)];
      items := [];
      ListsNone(certs, project, region);
      var todo := certs.Keys;
      while todo != {}
        invariant todo <= certs.Keys && Lists(certs, items, todo, project, region)
        invariant certs == old(certs) && calls == old(calls) + [ListCerts(project, region)]
        decreases |todo|
      {
        var key :| key in todo;
        ListsNext(certs, items, todo, project, region, key);
        todo := todo - {key};
        if key.project == project && key.region == region { items := items + [certs[key]]; }
      }
      ListsAll(certs, items, project, region);
    }
  }
}
