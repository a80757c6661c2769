/** The test that decides whether a load balancer has to be updated. */
module Diff {
  import opened Options
  import opened AlbApi
  import opened Comparison

  // ---- the normal form: what the comparison can see ----

  datatype NPath = NPath(prefix: string, exactMatch: string)

  datatype NRule = NRule(path: Option<NPath>, webSocket: bool, targetPool: string)

  datatype NHost = NHost(host: string, rules: seq<NRule>)

  datatype NListener = NListener(
    name: string,
    protocol: Option<Protocol>,
    port: int,
    waf: string,
    http: Option<seq<NHost>>,
    certificateIds: seq<string>)

  datatype NTls = NTls(enabled: bool, skip: bool, ca: string)

  datatype NTarget = NTarget(ip: string, displayName: string)

  datatype NHealth = NHealth(
    altPort: int, healthyThreshold: int, interval: string, intervalJitter: string, timeout: string,
    unhealthyThreshold: int, path: string, okStatuses: seq<string>, tls: NTls)

  datatype NPool = NPool(name: string, targetPort: int, targets: seq<NTarget>, tls: NTls, health: NHealth)

  datatype Normal = Normal(
    listeners: seq<NListener>,
    pools: seq<NPool>,
    sourceRanges: seq<string>,
    labels: map<string, string>,
    planId: string)

  // A nil path stays different from an empty path; every other nil reads as its zero value.
  function NormPath(p: Option<Path>): Option<NPath> {
    if p.None? then None else Some(NPath(p.value.prefix.GetOr(""), p.value.exactMatch.GetOr("")))
  }

  function NormRule(r: Rule): NRule {
    NRule(NormPath(r.path), r.webSocket.GetOr(false), r.targetPool.GetOr(""))
  }

  function NormRules(rs: seq<Rule>): seq<NRule> {
    seq(|rs|, i requires 0 <= i < |rs| => NormRule(rs[i]))
  }

  function NormHost(h: HostConfig): NHost {
    NHost(h.host.GetOr(""), NormRules(h.rules))
  }

  function NormHosts(hs: seq<HostConfig>): seq<NHost> {
    seq(|hs|, i requires 0 <= i < |hs| => NormHost(hs[i]))
  }

  // Missing HTTP options stay different from an empty host list.
  function NormHttp(h: Option<HttpOptions>): Option<seq<NHost>> {
    if h.None? then None else Some(NormHosts(h.value.hosts))
  }

  function NormListener(l: Listener): NListener {
    NListener(l.name.GetOr(""), l.protocol, l.port.GetOr(0), l.wafConfigName.GetOr(""),
              NormHttp(l.http), ListenerCertificateIds(l))
  }

  function NormListeners(ls: seq<Listener>): seq<NListener> {
    seq(|ls|, i requires 0 <= i < |ls| => NormListener(ls[i]))
  }

  function NormTls(t: Option<TlsConfig>): NTls {
    var c := t.GetOr(TlsConfig(None, None, None));
    NTls(c.enabled.GetOr(false), c.skipCertificateValidation.GetOr(false), c.customCa.GetOr(""))
  }

  function NormHealth(h: Option<ActiveHealthCheck>): NHealth {
    var c := h.GetOr(ActiveHealthCheck(None, None, None, None, None, None, None));
    var http := c.httpHealthChecks.GetOr(HttpHealthChecks(None, [], None));
    NHealth(c.altPort.GetOr(0), c.healthyThreshold.GetOr(0), c.interval.GetOr(""), c.intervalJitter.GetOr(""),
            c.timeout.GetOr(""), c.unhealthyThreshold.GetOr(0), http.path.GetOr(""), http.okStatuses, NormTls(http.tls))
  }

  function NormTarget(t: Target): NTarget {
    NTarget(t.ip.GetOr(""), t.displayName.GetOr(""))
  }

  function NormTargets(ts: seq<Target>): seq<NTarget> {
    seq(|ts|, i requires 0 <= i < |ts| => NormTarget(ts[i]))
  }

  function NormPool(p: TargetPool): NPool {
    NPool(p.name.GetOr(""), p.targetPort.GetOr(0), NormTargets(p.targets), NormTls(p.tlsConfig),
          NormHealth(p.activeHealthCheck))
  }

  function NormPools(ps: seq<TargetPool>): seq<NPool> {
    seq(|ps|, i requires 0 <= i < |ps| => NormPool(ps[i]))
  }

  function NormRanges(o: Option<LbOptions>): seq<string> {
    if o.Some? && o.value.accessControl.Some? then o.value.accessControl.value.allowedSourceRanges else []
  }

  function NormalForm(p: Payload): Normal {
    Normal(NormListeners(p.listeners), NormPools(p.targetPools), NormRanges(p.options),
           p.labels.GetOr(map[]), p.planId.GetOr(""))
  }

  // ---- the normal form is equal exactly if nothing that counts differs ----

  lemma RuleIff(x: Rule, y: Rule)
    ensures NormRule(x) == NormRule(y) <==> SameRule(x, y)
  {
  }

  lemma RulesIff(xs: seq<Rule>, ys: seq<Rule>)
    ensures NormRules(xs) == NormRules(ys) <==> |xs| == |ys| && forall i | 0 <= i < |xs| :: SameRule(xs[i], ys[i])
  {
    hide NormRule, SameRule;
    forall x, y { RuleIff(x, y); }
    assert |NormRules(xs)| == |xs| && |NormRules(ys)| == |ys|;
    if NormRules(xs) == NormRules(ys) {
      forall i | 0 <= i < |xs| ensures SameRule(xs[i], ys[i]) { assert NormRules(xs)[i] == NormRules(ys)[i]; }
    }
  }

  lemma HostIff(x: HostConfig, y: HostConfig)
    ensures NormHost(x) == NormHost(y) <==> SameHost(x, y)
  {
    hide NormRules, SameRule;
    RulesIff(x.rules, y.rules);
  }

  lemma HttpIff(x: Option<HttpOptions>, y: Option<HttpOptions>)
    ensures NormHttp(x) == NormHttp(y) <==> SameHttp(x, y)
  {
    hide NormHost, SameHost;
    forall h, g { HostIff(h, g); }
    if x.Some? && y.Some? {
      var xs, ys := x.value.hosts, y.value.hosts;
      assert |NormHosts(xs)| == |xs| && |NormHosts(ys)| == |ys|;
      if NormHosts(xs) == NormHosts(ys) {
        forall i | 0 <= i < |xs| ensures SameHost(xs[i], ys[i]) { assert NormHosts(xs)[i] == NormHosts(ys)[i]; }
      }
    }
  }

  lemma ListenerIff(x: Listener, y: Listener)
    ensures NormListener(x) == NormListener(y) <==> SameListener(x, y)
  {
    hide NormHttp, SameHttp;
    HttpIff(x.http, y.http);
  }

  lemma ListenersIff(xs: seq<Listener>, ys: seq<Listener>)
    ensures NormListeners(xs) == NormListeners(ys) <==> SameListeners(xs, ys)
  {
    hide NormListener, SameListener;
    forall x, y { ListenerIff(x, y); }
    assert |NormListeners(xs)| == |xs| && |NormListeners(ys)| == |ys|;
    if NormListeners(xs) == NormListeners(ys) {
      forall i | 0 <= i < |xs| ensures SameListener(xs[i], ys[i]) {
        assert NormListeners(xs)[i] == NormListeners(ys)[i];
      }
    }
  }

  lemma TlsIff(x: Option<TlsConfig>, y: Option<TlsConfig>)
    ensures NormTls(x) == NormTls(y) <==> SameTls(x, y)
  {
  }

  lemma HealthIff(x: Option<ActiveHealthCheck>, y: Option<ActiveHealthCheck>)
    ensures NormHealth(x) == NormHealth(y) <==> SameCheck(x, y)
  {
    hide NormTls, SameTls;
    forall s, t { TlsIff(s, t); }
  }

  lemma TargetsIff(xs: seq<Target>, ys: seq<Target>)
    ensures NormTargets(xs) == NormTargets(ys) <==> SameTargets(xs, ys)
  {
    assert |NormTargets(xs)| == |xs| && |NormTargets(ys)| == |ys|;
    if NormTargets(xs) == NormTargets(ys) {
      forall i | 0 <= i < |xs| ensures SameTarget(xs[i], ys[i]) { assert NormTargets(xs)[i] == NormTargets(ys)[i]; }
    }
  }

  lemma PoolIff(x: TargetPool, y: TargetPool)
    ensures NormPool(x) == NormPool(y) <==> SamePool(x, y)
  {
    hide NormTls, SameTls, NormHealth, SameCheck, NormTargets, SameTargets;
    TlsIff(x.tlsConfig, y.tlsConfig);
    HealthIff(x.activeHealthCheck, y.activeHealthCheck);
    TargetsIff(x.targets, y.targets);
  }

  lemma PoolsIff(xs: seq<TargetPool>, ys: seq<TargetPool>)
    ensures NormPools(xs) == NormPools(ys) <==> SamePools(xs, ys)
  {
    hide NormPool, SamePool;
    forall x, y { PoolIff(x, y); }
    assert |NormPools(xs)| == |xs| && |NormPools(ys)| == |ys|;
    if NormPools(xs) == NormPools(ys) {
      forall i | 0 <= i < |xs| ensures SamePool(xs[i], ys[i]) { assert NormPools(xs)[i] == NormPools(ys)[i]; }
    }
  }

  /** The normal form keeps exactly what counts. */
  lemma NormalFormIff(p: Payload, q: Payload)
    ensures NormalForm(p) == NormalForm(q) <==> SameConfiguration(p, q)
  {
    hide NormListeners, SameListeners, NormPools, SamePools;
    ListenersIff(p.listeners, q.listeners);
    PoolsIff(p.targetPools, q.targetPools);
  }

  // ---- the comparison itself ----

  predicate PathChanged(c: Option<Path>, d: Option<Path>)
    ensures PathChanged(c, d) <==> NormPath(c) != NormPath(d)
  {
    if c.None? && d.None? then false
    else if c.None? || d.None? then true
    else
      || c.value.prefix.GetOr("") != d.value.prefix.GetOr("")
      || c.value.exactMatch.GetOr("") != d.value.exactMatch.GetOr("")
  }

  method HttpOptionsChanged(c: Option<HttpOptions>, d: Option<HttpOptions>) returns (changed: bool)
    ensures changed <==> NormHttp(c) != NormHttp(d)
  {
    if c.None? && d.None? { return false; }
    if c.None? || d.None? || |c.value.hosts| != |d.value.hosts| {
      assert c.Some? && d.Some? ==> |NormHosts(c.value.hosts)| != |NormHosts(d.value.hosts)|;
      return true;
    }
    var ch, dh := c.value.hosts, d.value.hosts;
    for i := 0 to |ch|
      invariant forall k | 0 <= k < i :: NormHost(ch[k]) == NormHost(dh[k])
    {
      assert NormHosts(ch)[i] == NormHost(ch[i]) && NormHosts(dh)[i] == NormHost(dh[i]);
      if ch[i].host.GetOr("") != dh[i].host.GetOr("") || |ch[i].rules| != |dh[i].rules| {
        assert |NormRules(ch[i].rules)| != |NormRules(dh[i].rules)| || NormHost(ch[i]).host != NormHost(dh[i]).host;
        return true;
      }
      var cr, dr := ch[i].rules, dh[i].rules;
      for j := 0 to |cr|
        invariant forall k | 0 <= k < j :: NormRule(cr[k]) == NormRule(dr[k])
      {
        assert NormRules(cr)[j] == NormRule(cr[j]) && NormRules(dr)[j] == NormRule(dr[j]);
        if PathChanged(cr[j].path, dr[j].path) { return true; }
        if cr[j].webSocket.GetOr(false) != dr[j].webSocket.GetOr(false) ||
           cr[j].targetPool.GetOr("") != dr[j].targetPool.GetOr("") {
          return true;
        }
      }
      assert NormRules(cr) == NormRules(dr);
    }
    assert NormHosts(ch) == NormHosts(dh);
    return false;
  }

  predicate HttpsOptionsChanged(c: Option<HttpsOptions>, d: Option<HttpsOptions>) {
    var none := CertificateConfig([]);
    c.GetOr(HttpsOptions(None)).certificateConfig.GetOr(none).certificateIds
    != d.GetOr(HttpsOptions(None)).certificateConfig.GetOr(none).certificateIds
  }

  method ListenersChanged(current: seq<Listener>, desired: seq<Listener>) returns (changed: bool)
    ensures changed <==> NormListeners(current) != NormListeners(desired)
  {
    if |current| != |desired| {
      assert |NormListeners(current)| != |NormListeners(desired)|;
      return true;
    }
    for i := 0 to |current|
      invariant forall k | 0 <= k < i :: NormListener(current[k]) == NormListener(desired[k])
    {
      var c, d := current[i], desired[i];
      assert NormListeners(current)[i] == NormListener(c) && NormListeners(desired)[i] == NormListener(d);
      // An unset protocol is the zero value of a string type that has no such constant.
      if c.name.GetOr("") != d.name.GetOr("") || c.protocol != d.protocol ||
         c.port.GetOr(0) != d.port.GetOr(0) || c.wafConfigName.GetOr("") != d.wafConfigName.GetOr("") {
        return true;
      }
      var http := HttpOptionsChanged(c.http, d.http);
      if http || HttpsOptionsChanged(c.https, d.https) { return true; }
    }
    assert NormListeners(current) == NormListeners(desired);
    return false;
  }

  predicate TlsChanged(c: Option<TlsConfig>, d: Option<TlsConfig>)
    ensures TlsChanged(c, d) <==> NormTls(c) != NormTls(d)
  {
    var cTls, dTls := c.GetOr(TlsConfig(None, None, None)), d.GetOr(TlsConfig(None, None, None));
    || cTls.enabled.GetOr(false) != dTls.enabled.GetOr(false)
    || cTls.skipCertificateValidation.GetOr(false) != dTls.skipCertificateValidation.GetOr(false)
    || cTls.customCa.GetOr("") != dTls.customCa.GetOr("")
  }

  predicate HealthCheckChanged(c: Option<ActiveHealthCheck>, d: Option<ActiveHealthCheck>)
    ensures HealthCheckChanged(c, d) <==> NormHealth(c) != NormHealth(d)
  {
    var none := ActiveHealthCheck(None, None, None, None, None, None, None);
    var cHealth, dHealth := c.GetOr(none), d.GetOr(none);
    var cHttp, dHttp := cHealth.httpHealthChecks.GetOr(HttpHealthChecks(None, [], None)),
                        dHealth.httpHealthChecks.GetOr(HttpHealthChecks(None, [], None));
    || cHealth.altPort.GetOr(0) != dHealth.altPort.GetOr(0)
    || cHealth.healthyThreshold.GetOr(0) != dHealth.healthyThreshold.GetOr(0)
    || cHealth.interval.GetOr("") != dHealth.interval.GetOr("")
    || cHealth.intervalJitter.GetOr("") != dHealth.intervalJitter.GetOr("")
    || cHealth.timeout.GetOr("") != dHealth.timeout.GetOr("")
    || cHealth.unhealthyThreshold.GetOr(0) != dHealth.unhealthyThreshold.GetOr(0)
    || cHttp.path.GetOr("") != dHttp.path.GetOr("")
    || cHttp.okStatuses != dHttp.okStatuses
    || TlsChanged(cHttp.tls, dHttp.tls)
  }

  method TargetsChanged(c: seq<Target>, d: seq<Target>) returns (changed: bool)
    ensures changed <==> NormTargets(c) != NormTargets(d)
  {
    if |c| != |d| {
      assert |NormTargets(c)| != |NormTargets(d)|;
      return true;
    }
    for i := 0 to |c|
      invariant forall k | 0 <= k < i :: NormTarget(c[k]) == NormTarget(d[k])
    {
      assert NormTargets(c)[i] == NormTarget(c[i]) && NormTargets(d)[i] == NormTarget(d[i]);
      if c[i].ip.GetOr("") != d[i].ip.GetOr("") || c[i].displayName.GetOr("") != d[i].displayName.GetOr("") {
        return true;
      }
    }
    assert NormTargets(c) == NormTargets(d);
    return false;
  }

  method TargetPoolsChanged(current: seq<TargetPool>, desired: seq<TargetPool>) returns (changed: bool)
    ensures changed <==> NormPools(current) != NormPools(desired)
  {
    if |current| != |desired| {
      assert |NormPools(current)| != |NormPools(desired)|;
      return true;
    }
    for i := 0 to |current|
      invariant forall k | 0 <= k < i :: NormPool(current[k]) == NormPool(desired[k])
    {
      var c, d := current[i], desired[i];
      assert NormPools(current)[i] == NormPool(c) && NormPools(desired)[i] == NormPool(d);
      if c.name.GetOr("") != d.name.GetOr("") || c.targetPort.GetOr(0) != d.targetPort.GetOr(0) {
        return true;
      }
      var targets := TargetsChanged(c.targets, d.targets);
      if targets { return true; }
      if TlsChanged(c.tlsConfig, d.tlsConfig) { return true; }
      if HealthCheckChanged(c.activeHealthCheck, d.activeHealthCheck) { return true; }
    }
    assert NormPools(current) == NormPools(desired);
    return false;
  }

  predicate OptionsChanged(current: Option<LbOptions>, desired: Option<LbOptions>)
    ensures OptionsChanged(current, desired) <==> NormRanges(current) != NormRanges(desired)
  {
    var noOptions, noAccess := LbOptions(None, None, None, None), AccessControl([]);
    current.GetOr(noOptions).accessControl.GetOr(noAccess).allowedSourceRanges
    != desired.GetOr(noOptions).accessControl.GetOr(noAccess).allowedSourceRanges
  }

  /** No update is needed exactly when nothing that counts differs, that is, when the normal forms are the same. */
  method UpdateNeeded(alb: LoadBalancer, payload: Payload) returns (needed: bool)
    ensures needed <==> !SameConfiguration(alb.spec, payload)
    ensures needed <==> NormalForm(alb.spec) != NormalForm(payload)
  {
    hide SameConfiguration, NormListeners, NormPools;
    NormalFormIff(alb.spec, payload);
    var listeners := ListenersChanged(alb.spec.listeners, payload.listeners);
    if listeners { return true; }
    var pools := TargetPoolsChanged(alb.spec.targetPools, payload.targetPools);
    return
      || pools
      || OptionsChanged(alb.spec.options, payload.options)
      || alb.spec.labels.GetOr(map[]) != payload.labels.GetOr(map[])
      || alb.spec.planId.GetOr("") != payload.planId.GetOr("");
  }

  // ---- what the verdict means ----

  /** Equal normal forms refer to the same certificates: this is what makes deleting the others safe. */
  lemma SameNormalFormSameCertificates(a: Payload, b: Payload)
    requires NormalForm(a) == NormalForm(b)
    ensures ReferencedCertificates(a.listeners) == ReferencedCertificates(b.listeners)
  {
    SameIdsOneWay(a.listeners, b.listeners);
    SameIdsOneWay(b.listeners, a.listeners);
  }

  lemma SameIdsOneWay(a: seq<Listener>, b: seq<Listener>)
    requires NormListeners(a) == NormListeners(b)
    ensures ReferencedCertificates(a) <= ReferencedCertificates(b)
  {
    assert |a| == |NormListeners(a)| == |NormListeners(b)| == |b|;
    forall id | id in ReferencedCertificates(a) ensures id in ReferencedCertificates(b) {
      var i, k :| 0 <= i < |a| && 0 <= k < |ListenerCertificateIds(a[i])| && ListenerCertificateIds(a[i])[k] == id;
      assert NormListeners(a)[i].certificateIds == NormListeners(b)[i].certificateIds;
      assert ListenerCertificateIds(b[i])[k] == id;
    }
  }

  /** Between payloads with equal listeners and pools the comparison sees a difference exactly if source ranges,
      labels or plan differ. Addresses, networks, region, name, version and log settings do not count. */
  lemma OtherSettingsAreComparedIff(p: Payload, q: Payload)
    requires p.listeners == q.listeners && p.targetPools == q.targetPools
    ensures NormalForm(p) != NormalForm(q)
            <==> NormRanges(p.options) != NormRanges(q.options)
                 || p.labels.GetOr(map[]) != q.labels.GetOr(map[])
                 || p.planId.GetOr("") != q.planId.GetOr("")
  {
  }
}
