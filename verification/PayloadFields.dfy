/** What the fields of a payload are, told from the class object and the tree. */
module PayloadFields {
  import opened Options
  import opened Kube
  import opened Names
  import opened Tree
  import opened Configuration
  import opened Payload
  import opened PayloadProperties
  import Api = AlbApi

  /** The allowed source ranges are those of the class; without any there is no access control. */
  ghost predicate LimitsAccess(c: IngressClass, access: Option<Api.AccessControl>) {
    if c.sourceRanges == [] then access.None?
    else
      && access.Some? && |access.value.allowedSourceRanges| == |c.sourceRanges|
      && forall i | 0 <= i < |c.sourceRanges| :: access.value.allowedSourceRanges[i] == c.sourceRanges[i].text
  }

  /** The label of the class is there whatever the configuration says; otherwise the configured labels are. */
  ghost predicate Labelled(uid: string, extra: map<string, string>, labels: map<string, string>) {
    forall key :: Lookup(labels, key) ==
                  if key == "alb-ingress-controller-ingress-class-uid" then Some(uid) else Lookup(extra, key)
  }

  /** What the class object asks the load balancer to be. */
  ghost predicate AskedByClass(c: IngressClass, config: Config, p: Api.Payload) {
    && p.name == LoadBalancerName(c.uid, c.name) && p.planId == Some("p10") && p.region == Some(config.region)
    && p.networks == [Api.Network(Some(config.networkId), Some("ROLE_LISTENERS_AND_TARGETS"))]
    && p.labels.Some? && Labelled(c.uid, config.extraLabels, p.labels.value)
    && p.externalAddress == (if c.externalIP != "" then Some(c.externalIP) else None)
    && p.disableTargetSecurityGroupAssignment == Some(true)
    && p.options.Some? && LimitsAccess(c, p.options.value.accessControl)
    && p.options.value.privateNetworkOnly.Some? && p.options.value.ephemeralAddress.Some?
    && (p.options.value.privateNetworkOnly == Some(true) <==> c.internal == Given(true))
    && (p.options.value.ephemeralAddress == Some(true) <==> c.internal != Given(true) && c.externalIP == "")
  }

  lemma LabelsAreMerged(uid: string, extra: map<string, string>)
    ensures Labelled(uid, extra, MergeExtraLabels(map[LABEL_CLASS_UID := uid], extra))
  {
  }

  /** A new load balancer is what the class object asks for; it has no version and no log settings yet. */
  lemma CreateIsAskedByClass(c: IngressClass, s: ClassSettings, config: Config, t: WorkTree, ids: map<string, string>,
                             p: Api.Payload)
    requires SettleClass(c) == Ok(s) && IsCreatePayload(Frame(c, s, config), t, ids, p)
    ensures AskedByClass(c, config, p) && p.version.None? && p.options.value.observability.None?
  {
    hide ArePools, LiveListeners, LoadBalancerName, Labelled, MergeExtraLabels, SettleClass;
    ClassSettingsIff(c, s);
    LabelsAreMerged(c.uid, config.extraLabels);
  }

  /** The log settings of a load balancer. */
  ghost predicate HasLogs(p: Api.Payload, logs: string) {
    p.options.Some? && p.options.value.observability.Some? && p.options.value.observability.value.logs == Some(logs)
  }

  /** An update asks for the same, names the version it is based on, and keeps the log settings. */
  lemma UpdateIsAskedByClass(c: IngressClass, s: ClassSettings, config: Config, t: WorkTree, ids: map<string, string>,
                             existing: Api.LoadBalancer, p: Api.Payload)
    requires SettleClass(c) == Ok(s) && IsUpdatePayload(Frame(c, s, config), t, ids, existing, p)
    ensures AskedByClass(c, config, p) && p.version == existing.spec.version
    ensures forall logs :: HasLogs(p, logs) <==> HasLogs(existing.spec, logs)
    ensures exists create :: IsCreatePayload(Frame(c, s, config), t, ids, create)
                             && p.listeners == create.listeners && p.targetPools == create.targetPools
  {
    hide IsCreatePayload, LoadBalancerName, Labelled, SettleClass;
    var create :| IsCreatePayload(Frame(c, s, config), t, ids, create) && p == Revise(create, existing);
    CreateIsAskedByClass(c, s, config, t, ids, create);
  }

  // ---- listeners ----

  /** The listener for a port that is served. */
  ghost predicate IsListenerFor(c: IngressClass, t: WorkTree, ids: map<string, string>, port: nat, l: Api.Listener) {
    && l.port == Some(port) && l.name == Some("port-" + Decimal(port))
    && l.wafConfigName == (if c.waf != "" then Some(c.waf) else None)
    && port in t.protocols && l.protocol == Some(t.protocols[port])
    && (l.https.Some? <==> t.protocols[port] == Api.HTTPS)
  }

  /** A port is served if it is an HTTP port, or some known certificate is registered for it. */
  ghost predicate IsServed(t: WorkTree, ids: map<string, string>, port: nat) {
    && port in t.protocols
    && (t.protocols[port] == Api.HTTPS ==> exists f ::
            f in t.certificates && port in t.certificates[f].ports && f in ids)
  }

  lemma PortsOfIff(t: WorkTree, ids: map<string, string>, port: nat)
    ensures port in PortsOf(t, ids) <==> IsServed(t, ids, port)
  {
    if port in t.protocols {
      if f :| f in t.certificates && port in t.certificates[f].ports && f in ids {
        assert f in FingerprintsFor(t, ids, port);
      }
    }
  }

  /** There is a listener for each port that is served. */
  lemma ServedPortHasListener(c: IngressClass, t: WorkTree, ids: map<string, string>, port: nat) returns (i: nat)
    requires IsServed(t, ids, port)
    ensures i < |OrDummy(LiveListeners(c, t, ids))|
    ensures IsListenerFor(c, t, ids, port, OrDummy(LiveListeners(c, t, ids))[i])
  {
    PortsOfIff(t, ids, port);
    hide IsListenerFor, IsServed, ListenerOf, PortsOf, SortPorts;
    i := PortIndex(t, ids, port);
    ListenerIsForPort(c, t, ids, port);
  }

  /** There is no other listener. If no port is served, an empty HTTP listener on port 80 stands in. */
  lemma ListenerHasServedPort(c: IngressClass, t: WorkTree, ids: map<string, string>, i: nat)
    requires i < |OrDummy(LiveListeners(c, t, ids))|
    ensures var l := OrDummy(LiveListeners(c, t, ids))[i];
      if exists port: nat :: IsServed(t, ids, port)
      then exists port: nat :: IsServed(t, ids, port) && IsListenerFor(c, t, ids, port, l)
      else l.port == Some(80) && l.protocol == Some(Api.HTTP) && l.http == Some(Api.HttpOptions([])) && l.https.None?
  {
    hide IsListenerFor, IsServed, ListenerOf, PortsOf, SortPorts;
    var ps := SortPorts(PortsOf(t, ids));
    SameMembers(ps, PortsOf(t, ids));
    if ps != [] {
      assert ps[i] in PortsOf(t, ids);
      PortsOfIff(t, ids, ps[i]);
      ListenerIsForPort(c, t, ids, ps[i]);
    } else if exists port: nat :: IsServed(t, ids, port) {
      var port: nat :| IsServed(t, ids, port);
      PortsOfIff(t, ids, port);
      assert false;
    }
  }

  lemma ListenerIsForPort(c: IngressClass, t: WorkTree, ids: map<string, string>, port: nat)
    requires port in PortsOf(t, ids)
    ensures IsListenerFor(c, t, ids, port, ListenerOf(c, t, ids, port))
  {
    hide Hosts, CertificateIds, Decimal;
  }
}
