/** Which objects a reconcile reads, and which classes are reconciled when an object changes. */
module Triggers {
  import opened Options
  import opened Kube

  datatype Cluster = Cluster(ingresses: seq<Ingress>, classes: map<string, IngressClass>)

  // ---- references of one ingress ----

  function BackendName(backend: Option<Backend>): seq<string> {
    if backend.Some? && backend.value.service != "" then [backend.value.service] else []
  }

  function PathServices(ing: Ingress, r: nat, n: nat): seq<string>
    requires r < |ing.rules| && n <= ing.PathCount(r)
  {
    if n == 0 then [] else PathServices(ing, r, n - 1) + BackendName(ing.rules[r].http.value[n - 1].backend)
  }

  function RuleServices(ing: Ingress, n: nat): seq<string>
    requires n <= |ing.rules|
  {
    if n == 0 then [] else RuleServices(ing, n - 1) + PathServices(ing, n - 1, ing.PathCount(n - 1))
  }

  /** The index entries of an ingress: the default backend first, then all paths. */
  function IndexedServices(ing: Ingress): seq<string> {
    BackendName(ing.defaultBackend) + RuleServices(ing, |ing.rules|)
  }

  method IndexServiceRefs(ing: Ingress) returns (refs: seq<string>)
    ensures refs == IndexedServices(ing)
  {
    hide PathServices;
    refs := [];
    if ing.defaultBackend.Some? && ing.defaultBackend.value.service != "" {
      refs := refs + [ing.defaultBackend.value.service];
    }
    for i := 0 to |ing.rules|
      invariant refs == BackendName(ing.defaultBackend) + RuleServices(ing, i)
    {
      refs := AppendPathRefs(ing, i, refs);
    }
  }

  method AppendPathRefs(ing: Ingress, r: nat, before: seq<string>) returns (refs: seq<string>)
    requires r < |ing.rules|
    ensures refs == before + PathServices(ing, r, ing.PathCount(r))
  {
    refs := before;
    for j := 0 to ing.PathCount(r)
      invariant refs == before + PathServices(ing, r, j)
    {
      var backend := ing.rules[r].http.value[j].backend;
      if backend.Some? && backend.value.service != "" { refs := refs + [backend.value.service]; }
    }
  }

  // ---- what a reconcile of a class reads ----

  predicate OfClass(ing: Ingress, className: string) {
    ing.className == Some(className)
  }

  /** The names a reconcile asks for, per ingress: all paths, then the default backend. */
  function ReadServices(ing: Ingress): seq<string> {
    RuleServices(ing, |ing.rules|) + BackendName(ing.defaultBackend)
  }

  /** Exactly the services that exist among those asked for. */
  ghost predicate Answers(stored: map<ObjectKey, Service>, asked: seq<ObjectKey>, services: seq<Service>) {
    forall s :: s in services <==> exists key :: key in asked && key in stored && stored[key] == s
  }

  /** Fetches every service that some path or default backend of the ingresses names and that exists. `asked` is
      the record of all keys that were looked up. */
  method GetServicesForIngresses(ingresses: seq<Ingress>, stored: map<ObjectKey, Service>)
    returns (services: seq<Service>, asked: seq<ObjectKey>)
    ensures forall key :: key in asked <==> exists i :: 0 <= i < |ingresses| && Asks(ingresses[i], key)
    ensures Answers(stored, asked, services)
  {
    services, asked := [], [];
    for i := 0 to |ingresses|
      invariant forall key :: key in asked <==> exists k :: 0 <= k < i && Asks(ingresses[k], key)
      invariant Answers(stored, asked, services)
    {
      hide Asks, Answers;
      services, asked := AskAll(stored, ingresses[i], services, asked);
    }
  }

  ghost predicate Asks(ing: Ingress, key: ObjectKey) {
    exists k :: 0 <= k < |ReadServices(ing)| && key == ObjectKey(ing.namespace, ReadServices(ing)[k])
  }

  /** Looks up all names of one ingress. */
  method AskAll(stored: map<ObjectKey, Service>, ing: Ingress, before: seq<Service>, askedBefore: seq<ObjectKey>)
    returns (services: seq<Service>, asked: seq<ObjectKey>)
    requires Answers(stored, askedBefore, before)
    ensures forall key :: key in asked <==> key in askedBefore || Asks(ing, key)
    ensures Answers(stored, asked, services)
  {
    hide Answers, ReadServices;
    var names := ReadServices(ing);
    services, asked := before, askedBefore;
    for j := 0 to |names|
      invariant forall key ::
                  key in asked <==>
                    key in askedBefore || (exists k :: 0 <= k < j && key == ObjectKey(ing.namespace, names[k]))
      invariant Answers(stored, asked, services)
    {
      services, asked := Ask(stored, services, asked, ObjectKey(ing.namespace, names[j]));
    }
  }

  method Ask(stored: map<ObjectKey, Service>, services: seq<Service>, asked: seq<ObjectKey>, key: ObjectKey)
    returns (services': seq<Service>, asked': seq<ObjectKey>)
    requires Answers(stored, asked, services)
    ensures asked' == asked + [key] && Answers(stored, asked', services')
  {
    asked' := asked + [key];
    services' := if key in stored then services + [stored[key]] else services;
    forall s ensures s in services' <==> exists k :: k in asked' && k in stored && stored[k] == s {
      if s in services {
        var k :| k in asked && k in stored && stored[k] == s;
        assert k in asked';
      } else if s in services' {
        assert key in asked' && stored[key] == s;
      }
    }
  }

  /** Reconciling the class looks up this service or secret. */
  ghost predicate ReadsService(c: Cluster, className: string, key: ObjectKey) {
    exists i :: 0 <= i < |c.ingresses| && OfClass(c.ingresses[i], className) && Asks(c.ingresses[i], key)
  }

  ghost predicate ReadsSecret(c: Cluster, className: string, key: ObjectKey) {
    exists i :: 0 <= i < |c.ingresses| && OfClass(c.ingresses[i], className)
      && c.ingresses[i].namespace == key.namespace && key.name in c.ingresses[i].tls
  }

  // ---- which classes a change enqueues ----

  datatype Field = ServiceField | SecretField

  function IndexValues(ing: Ingress, field: Field): seq<string> {
    match field case ServiceField => IndexedServices(ing) case SecretField => ing.tls
  }

  predicate Ours(c: Cluster, className: string) {
    className in c.classes && c.classes[className].controller == CONTROLLER_NAME
  }

  predicate Refers(ing: Ingress, key: ObjectKey, field: Field) {
    ing.namespace == key.namespace && key.name in IndexValues(ing, field)
  }

  /** The classes to reconcile because an object that ingresses refer to has changed. */
  method RequestsForReferencingIngresses(c: Cluster, key: ObjectKey, field: Field) returns (requests: set<string>)
    ensures forall n :: n in requests <==>
              n != "" && Ours(c, n) && exists i ::
                0 <= i < |c.ingresses| && Refers(c.ingresses[i], key, field) && OfClass(c.ingresses[i], n)
  {
    hide IndexValues;
    var classes: set<string> := {};
    for i := 0 to |c.ingresses|
      invariant forall n :: n in classes <==>
                  n != "" && exists k :: 0 <= k < i && Refers(c.ingresses[k], key, field) && OfClass(c.ingresses[k], n)
    {
      var ing := c.ingresses[i];
      if Refers(ing, key, field) && ing.className.Some? && ing.className.value != "" {
        classes := classes + {ing.className.value};
      }
    }
    requests := {};
    var todo := classes;
    while todo != {}
      invariant todo <= classes && requests == set n | n in classes && n !in todo && Ours(c, n)
      decreases |todo|
    {
      var n :| n in todo;
      todo := todo - {n};
      if n in c.classes && c.classes[n].controller == CONTROLLER_NAME { requests := requests + {n}; }
    }
  }

  lemma IndexCoversReads(ing: Ingress, key: ObjectKey)
    ensures Asks(ing, key) <==> Refers(ing, key, ServiceField)
  {
    hide RuleServices;
    var read, indexed := ReadServices(ing), IndexedServices(ing);
    assert forall n :: n in read <==> n in indexed;
    if Refers(ing, key, ServiceField) {
      var k :| 0 <= k < |read| && read[k] == key.name;
      assert key == ObjectKey(ing.namespace, read[k]);
    }
    if Asks(ing, key) {
      var k :| 0 <= k < |read| && key == ObjectKey(ing.namespace, read[k]);
      assert key.name in read;
    }
  }

  /** A service event reconciles exactly the classes of this controller whose reconcile reads the service. */
  method ServiceRequests(c: Cluster, key: ObjectKey) returns (requests: set<string>)
    ensures forall n :: n in requests <==> n != "" && Ours(c, n) && ReadsService(c, n, key)
  {
    hide IndexedServices, ReadServices, Asks, Refers, OfClass;
    requests := RequestsForReferencingIngresses(c, key, ServiceField);
    forall ing { IndexCoversReads(ing, key); }
  }

  /** A secret event does the same, for TLS secrets only. */
  method SecretRequests(c: Cluster, key: ObjectKey, isTls: bool) returns (requests: set<string>)
    ensures forall n :: n in requests <==> isTls && n != "" && Ours(c, n) && ReadsSecret(c, n, key)
  {
    if !isTls { return {}; }
    requests := RequestsForReferencingIngresses(c, key, SecretField);
  }
}
