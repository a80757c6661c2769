/** Building the work tree from the cluster's objects. */
module Compiler {
  import opened Options
  import opened Kube
  import opened Sorting
  import opened Precedence
  import opened Targets
  import opened Tree
  import opened TreeObjects
  import Api = AlbApi

  datatype Inputs = Inputs(
    class_: IngressClass,
    ingresses: seq<Ingress>,
    secrets: seq<Secret>,
    services: seq<Service>,
    nodes: seq<Node>)

  function ContextOf(i: Inputs, targets: seq<Api.Target>): Context {
    Context(i.class_, IndexSecrets(i.secrets), IndexServices(i.services), targets)
  }

  /** `order` is what sorting may leave behind, and the build is what admitting in that order gives. */
  ghost predicate IsBuildWith(i: Inputs, b: Build, order: seq<Ingress>, targets: seq<Api.Target>) {
    && multiset(order) == multiset(i.ingresses)
    && (Bounded(Elems(multiset(i.ingresses))) ==> Sorted(Precedes, order))
    && IsTargets(Candidates(i.nodes), targets)
    && b == AdmitAll(ContextOf(i, targets), EMPTY_BUILD, order)
  }

  ghost predicate IsBuild(i: Inputs, b: Build) {
    exists order, targets :: IsBuildWith(i, b, order, targets)
  }

  // ---- the algorithm ----

  method IndexServicesByKey(services: seq<Service>) returns (m: map<ObjectKey, Service>)
    ensures m == IndexServices(services)
  {
    m := map[];
    for i := 0 to |services|
      invariant m == IndexServices(services[..i])
    {
      m := m[services[i].Key() := services[i]];
      assert services[..i + 1][..i] == services[..i];
    }
    assert services[..|services|] == services;
  }

  method IndexSecretsByKey(secrets: seq<Secret>) returns (m: map<ObjectKey, Secret>)
    ensures m == IndexSecrets(secrets)
  {
    m := map[];
    for i := 0 to |secrets|
      invariant m == IndexSecrets(secrets[..i])
    {
      m := m[secrets[i].Key() := secrets[i]];
      assert secrets[..i + 1][..i] == secrets[..i];
    }
    assert secrets[..|secrets|] == secrets;
  }

  method SearchNodePort(ports: seq<ServicePort>, backend: Backend) returns (nodePort: int, kinds: seq<EventKind>)
    ensures var search := FindNodePort(ports, backend, |ports|);
      nodePort == search.nodePort && kinds == seq(search.misses, _ => NodePortMissing)
  {
    nodePort, kinds := 0, [];
    for i := 0 to |ports|
      invariant var search := FindNodePort(ports, backend, i);
        nodePort == search.nodePort && kinds == seq(search.misses, _ => NodePortMissing)
    {
      var port := ports[i];
      if PortMatches(port, backend) {
        if port.nodePort == 0 {
          kinds := kinds + [NodePortMissing];
        } else {
          nodePort := port.nodePort;
        }
      }
    }
  }

  method BuildTargetPool(ctx: Context, tree: TreeObject, ing: Ingress, r: nat, p: nat)
    returns (pool: Option<Api.TargetPool>, kinds: seq<EventKind>)
    requires tree.Valid() && r < |ing.rules| && p < ing.PathCount(r)
    ensures PoolResult(pool, kinds) == TargetPoolFor(ctx, tree.view, ing, r, p)
  {
    hide Shape.Good, FindNodePort, Names.PoolName, GetAnnotation;
    var ref := RefOf(ing, r, p);
    var path := ing.rules[r].http.value[p];
    if ref !in tree.targetPools && |tree.targetPools| >= LIMIT_TARGET_POOLS { return None, [PoolLimitReached]; }
    if path.backend.None? { return None, [BackendNotService]; }
    var key := ObjectKey(ing.namespace, path.backend.value.service);
    if key !in ctx.services { return None, [ServiceMissing]; }
    var service := ctx.services[key];
    if service.kind != NodePort && service.kind != ServiceType.LoadBalancer { return None, [ServiceTypeUnsupported]; }
    var nodePort, missing := SearchNodePort(service.ports, path.backend.value);
    if nodePort == 0 { return None, missing + [PortNotFound]; }
    var s, a, c := service.annotations, ing.annotations, ctx.class_.annotations;
    var enabled := GetAnnotation(false, [s.poolTlsEnabled, a.poolTlsEnabled, c.poolTlsEnabled]);
    if enabled.Err? { return None, missing + [InvalidPoolTls]; }
    var skip := GetAnnotation(false, [s.poolTlsSkipValidation, a.poolTlsSkipValidation, c.poolTlsSkipValidation]);
    if skip.Err? { return None, missing + [InvalidPoolTlsSkip]; }
    var ca := GetAnnotation("", [s.poolTlsCustomCa, a.poolTlsCustomCa, c.poolTlsCustomCa]);
    if ca.Err? { return None, missing + [InvalidPoolTlsCa]; }
    if service.externalTrafficLocal { return None, missing + [LocalTrafficPolicy]; }
    var tls := Api.TlsConfig(Some(enabled.value), Some(skip.value), if ca.value == "" then None else Some(ca.value));
    return Some(Api.TargetPool(Some(ref.PoolName()), Some(nodePort), ctx.targets, Some(tls), None)), missing;
  }

  method AdmitTlsSecrets(ctx: Context, tree: TreeObject, ing: Ingress, s: Settings, before: seq<ErrorEvent>)
    returns (events: seq<ErrorEvent>)
    requires tree.Valid()
    modifies tree`certificates, tree`view
    ensures tree.Valid()
    ensures Build(tree.view, events) == AdmitTlsUpTo(ctx, Build(old(tree.view), before), ing, s, |ing.tls|)
  {
    hide Shape.Good;
    events := before;
    for i := 0 to |ing.tls|
      invariant tree.Valid()
      invariant Build(tree.view, events) == AdmitTlsUpTo(ctx, Build(old(tree.view), before), ing, s, i)
    {
      var key := ObjectKey(ing.namespace, ing.tls[i]);
      if key !in ctx.secrets {
        events := events + [ErrorEvent(ing.Key(), SecretMissing, [i])];
      } else if !ctx.secrets[key].isTls {
        events := events + [ErrorEvent(ing.Key(), SecretNotTls, [i])];
      } else if ctx.secrets[key].fingerprint.Err? {
        events := events + [ErrorEvent(ing.Key(), CertificateInvalid, [i])];
      } else {
        tree.AddCertificate(ctx.secrets[key], ctx.secrets[key].fingerprint.value, Uint16(s.httpsPort));
      }
    }
  }

  /** The events of adding a path are appended to those there were before. */
  lemma AddPathAppends(t: WorkTree, before: seq<ErrorEvent>, ing: Ingress, r: nat, p: nat, port: nat,
                       protocol: Api.Protocol, ws: bool)
    requires r < |ing.rules| && p < ing.PathCount(r)
    ensures var a := AddPath(Build(t, []), ing, r, p, port, protocol, ws);
      var c := AddPath(Build(t, before), ing, r, p, port, protocol, ws);
      c.added == a.added && c.build.tree == a.build.tree && c.build.events == before + a.build.events
  {
  }

  method AdmitOnProtocols(tree: TreeObject, ing: Ingress, s: Settings, r: nat, p: nat, before: seq<ErrorEvent>)
    returns (added: bool, events: seq<ErrorEvent>)
    requires tree.Valid() && r < |ing.rules| && p < ing.PathCount(r)
    modifies tree, tree.listenerObjects, tree.hostObjects
    ensures tree.Valid() && fresh(tree.listenerObjects - old(tree.listenerObjects))
    ensures fresh(tree.hostObjects - old(tree.hostObjects))
    ensures var http := AddHttp(Build(old(tree.view), before), ing, s, r, p);
      var https := AddHttps(http.build, ing, s, r, p);
      https.build == Build(tree.view, events) && added == (http.added || https.added)
  {
    hide Shape.Good, Tree.AddPath;
    events := before;
    var httpAdded, httpsAdded, e := false, false, [];
    if !s.httpsOnly {
      AddPathAppends(tree.view, events, ing, r, p, Uint16(s.httpPort), Api.HTTP, s.webSocket);
      httpAdded, e := tree.AddPath(ing, r, p, Uint16(s.httpPort), Api.HTTP, s.webSocket);
      events := events + e;
    }
    if |ing.tls| > 0 {
      AddPathAppends(tree.view, events, ing, r, p, Uint16(s.httpsPort), Api.HTTPS, s.webSocket);
      httpsAdded, e := tree.AddPath(ing, r, p, Uint16(s.httpsPort), Api.HTTPS, s.webSocket);
      events := events + e;
    }
    added := httpAdded || httpsAdded;
  }

  method AdmitOnePath(ctx: Context, tree: TreeObject, ing: Ingress, s: Settings, r: nat, p: nat,
                      before: seq<ErrorEvent>)
    returns (events: seq<ErrorEvent>)
    requires tree.Valid() && r < |ing.rules| && p < ing.PathCount(r)
    modifies tree, tree.listenerObjects, tree.hostObjects
    ensures tree.Valid() && fresh(tree.listenerObjects - old(tree.listenerObjects))
    ensures fresh(tree.hostObjects - old(tree.hostObjects))
    ensures Build(tree.view, events) == AdmitPath(ctx, Build(old(tree.view), before), ing, s, r, p)
  {
    hide Shape.Good, TargetPoolFor, AddHttp, AddHttps, RefOf;
    var pool, kinds := BuildTargetPool(ctx, tree, ing, r, p);
    events := before + EventsFor(ing, kinds, r, p);
    if pool.None? { return; }
    var added;
    added, events := AdmitOnProtocols(tree, ing, s, r, p, events);
    // A pool is only kept if some rule refers to it.
    if added { tree.AddPool(RefOf(ing, r, p), pool.value); }
  }

  method AdmitRules(ctx: Context, tree: TreeObject, ing: Ingress, s: Settings, before: seq<ErrorEvent>)
    returns (events: seq<ErrorEvent>)
    requires tree.Valid()
    modifies tree, tree.listenerObjects, tree.hostObjects
    ensures tree.Valid() && fresh(tree.listenerObjects - old(tree.listenerObjects))
    ensures fresh(tree.hostObjects - old(tree.hostObjects))
    ensures Build(tree.view, events) == AdmitRulesUpTo(ctx, Build(old(tree.view), before), ing, s, |ing.rules|)
  {
    hide Shape.Good, AdmitPath;
    events := before;
    for r := 0 to |ing.rules|
      invariant tree.Valid() && fresh(tree.listenerObjects - old(tree.listenerObjects))
      invariant fresh(tree.hostObjects - old(tree.hostObjects))
      invariant Build(tree.view, events) == AdmitRulesUpTo(ctx, Build(old(tree.view), before), ing, s, r)
    {
      ghost var b := Build(tree.view, events);
      for p := 0 to ing.PathCount(r)
        invariant tree.Valid() && fresh(tree.listenerObjects - old(tree.listenerObjects))
        invariant fresh(tree.hostObjects - old(tree.hostObjects))
        invariant Build(tree.view, events) == AdmitPathsUpTo(ctx, b, ing, s, r, p)
      {
        events := AdmitOnePath(ctx, tree, ing, s, r, p, events);
      }
    }
  }

  method AdmitOneIngress(ctx: Context, tree: TreeObject, ing: Ingress, before: seq<ErrorEvent>)
    returns (events: seq<ErrorEvent>)
    requires tree.Valid()
    modifies tree, tree.listenerObjects, tree.hostObjects
    ensures tree.Valid() && fresh(tree.listenerObjects - old(tree.listenerObjects))
    ensures fresh(tree.hostObjects - old(tree.hostObjects))
    ensures Build(tree.view, events) == AdmitIngress(ctx, Build(old(tree.view), before), ing)
  {
    hide Shape.Good, Settle, AdmitTlsUpTo, AdmitRulesUpTo;
    var verdict := Settle(ctx.class_, ing);
    if verdict.Rejected? { return before + [ErrorEvent(ing.Key(), verdict.kind, [])]; }
    events := AdmitTlsSecrets(ctx, tree, ing, verdict.settings, before);
    if |ing.tls| == 0 && verdict.settings.httpsOnly {
      return events + [ErrorEvent(ing.Key(), HttpsOnlyWithoutCertificate, [])];
    }
    events := AdmitRules(ctx, tree, ing, verdict.settings, events);
  }

  method AdmitInOrder(ctx: Context, ingresses: array<Ingress>) returns (tree: TreeObject, events: seq<ErrorEvent>)
    ensures fresh(tree) && tree.Valid()
    ensures Build(tree.view, events) == AdmitAll(ctx, EMPTY_BUILD, ingresses[..])
  {
    hide Shape.Good, AdmitIngress;
    tree := new TreeObject();
    events := [];
    ghost var order := ingresses[..];
    for i := 0 to ingresses.Length
      invariant ingresses[..] == order
      invariant tree.Valid() && fresh(tree.listenerObjects) && fresh(tree.hostObjects)
      invariant Build(tree.view, events) == AdmitAll(ctx, EMPTY_BUILD, order[..i])
    {
      events := AdmitOneIngress(ctx, tree, ingresses[i], events);
      assert order[..i + 1][..i] == order[..i];
    }
    assert order[..|order|] == order;
  }

  /** Builds the tree of a class, or nothing if the class itself is invalid. It may reorder both arrays. */
  method BuildTree(class_: IngressClass, ingresses: array<Ingress>, secrets: seq<Secret>, services: seq<Service>,
                   nodes: array<Node>)
    returns (tree: Option<TreeObject>, events: seq<ErrorEvent>)
    modifies ingresses, nodes
    ensures tree.None? <==> SettleClass(class_).Err?
    ensures multiset(ingresses[..]) == multiset(old(ingresses[..])) && multiset(nodes[..]) == multiset(old(nodes[..]))
    ensures tree.Some? ==> tree.value.Valid()
    ensures tree.Some? ==>
      IsBuild(Inputs(class_, old(ingresses[..]), secrets, services, old(nodes[..])), Build(tree.value.view, events))
  {
    hide Shape.Good, IsTargets, Precedes, SettleClass, Sorted, Bounded;
    ghost var inputs := Inputs(class_, ingresses[..], secrets, services, nodes[..]);
    var servicesMap := IndexServicesByKey(services);
    var secretsMap := IndexSecretsByKey(secrets);
    var targets := GetTargetsOfNodes(nodes);
    if SettleClass(class_).Err? { return None, []; }
    if Bounded(Elems(multiset(inputs.ingresses))) { PrecedenceIsTotal(Elems(multiset(inputs.ingresses))); }
    SortFunc(ingresses, Precedes);
    var built;
    built, events := AdmitInOrder(Context(class_, secretsMap, servicesMap, targets), ingresses);
    assert IsBuildWith(inputs, Build(built.view, events), ingresses[..], targets);
    return Some(built), events;
  }

  // ---- the outcome does not depend on any order ----

  /** Same class, same objects, in whatever order they were listed. */
  ghost predicate SameInputs(i: Inputs, j: Inputs) {
    && i.class_ == j.class_
    && multiset(i.ingresses) == multiset(j.ingresses)
    && multiset(i.secrets) == multiset(j.secrets)
    && multiset(i.services) == multiset(j.services)
    && multiset(Candidates(i.nodes)) == multiset(Candidates(j.nodes))
  }

  /** Names identify objects, no priority difference overflows, and there are no ties between nodes that matter. */
  ghost predicate Unambiguous(i: Inputs) {
    && Bounded(Elems(multiset(i.ingresses)))
    && ValidNames(Elems(multiset(i.ingresses)))
    && Keyed(SecretKey, i.secrets) && Keyed(ServiceKey, i.services)
    && Untied(Candidates(i.nodes))
  }

  /** The tree and the events are a function of the set of objects alone. */
  lemma BuildIsCanonical(i: Inputs, j: Inputs, b: Build, c: Build)
    requires SameInputs(i, j) && Unambiguous(i) && IsBuild(i, b) && IsBuild(j, c)
    ensures b == c
  {
    hide AdmitAll, IsTargets, Untied, Precedes, Keyed, IndexBy;
    IndexIgnoresOrder(SecretKey, i.secrets, j.secrets);
    IndexIgnoresOrder(ServiceKey, i.services, j.services);
    var o, ts :| IsBuildWith(i, b, o, ts);
    var o', ts' :| IsBuildWith(j, c, o', ts');
    TargetsAreCanonical(Candidates(i.nodes), Candidates(j.nodes), ts, ts');
    var dom := Elems(multiset(i.ingresses));
    PrecedenceIsTotal(dom);
    forall k | 0 <= k < |o| ensures o[k] in dom { assert o[k] in multiset(o); }
    SortedUnique(Precedes, o, o', dom);
  }
}
