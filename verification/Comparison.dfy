/** What it means that two configurations need no update, field by field. */
module Comparison {
  import opened Options
  import opened AlbApi

  /** An unset value and the default count as the same. */
  predicate Same<T(==)>(x: Option<T>, y: Option<T>, default: T) {
    x == y || ((x.None? || x.value == default) && (y.None? || y.value == default))
  }

  // ---- listeners ----

  /** A missing path is different from every path. */
  predicate SamePath(x: Option<Path>, y: Option<Path>) {
    if x.None? || y.None? then x == y
    else Same(x.value.prefix, y.value.prefix, "") && Same(x.value.exactMatch, y.value.exactMatch, "")
  }

  predicate SameRule(x: Rule, y: Rule) {
    SamePath(x.path, y.path) && Same(x.webSocket, y.webSocket, false) && Same(x.targetPool, y.targetPool, "")
  }

  predicate SameHost(x: HostConfig, y: HostConfig) {
    && Same(x.host, y.host, "") && |x.rules| == |y.rules|
    && forall i | 0 <= i < |x.rules| :: SameRule(x.rules[i], y.rules[i])
  }

  /** Missing HTTP options are different from an empty list of hosts. */
  predicate SameHttp(x: Option<HttpOptions>, y: Option<HttpOptions>) {
    if x.None? || y.None? then x == y
    else
      && |x.value.hosts| == |y.value.hosts|
      && forall i | 0 <= i < |x.value.hosts| :: SameHost(x.value.hosts[i], y.value.hosts[i])
  }

  /** The listener presents these certificates, in this order. */
  predicate Presents(x: Option<HttpsOptions>, ids: seq<string>) {
    if x.Some?
      && x.value.certificateConfig.Some? then x.value.certificateConfig.value.certificateIds == ids else ids == []
  }

  predicate SameHttps(x: Option<HttpsOptions>, y: Option<HttpsOptions>) {
    if y.Some? && y.value.certificateConfig.Some? then Presents(x, y.value.certificateConfig.value.certificateIds)
    else Presents(x, [])
  }

  predicate SameListener(x: Listener, y: Listener) {
    && Same(x.name, y.name, "") && x.protocol == y.protocol && Same(x.port, y.port, 0)
    && Same(x.wafConfigName, y.wafConfigName, "")
    && SameHttp(x.http, y.http) && SameHttps(x.https, y.https)
  }

  predicate SameListeners(xs: seq<Listener>, ys: seq<Listener>) {
    |xs| == |ys| && forall i | 0 <= i < |xs| :: SameListener(xs[i], ys[i])
  }

  // ---- target pools ----

  const NO_TLS := TlsConfig(None, None, None)
  const NO_HTTP_CHECK := HttpHealthChecks(None, [], None)
  const NO_CHECK := ActiveHealthCheck(None, None, None, None, None, None, None)

  /** Without a TLS configuration everything in it is unset. */
  predicate SameTls(x: Option<TlsConfig>, y: Option<TlsConfig>) {
    var c, d := if x.Some? then x.value else NO_TLS, if y.Some? then y.value else NO_TLS;
    && Same(c.enabled, d.enabled, false)
    && Same(c.skipCertificateValidation, d.skipCertificateValidation, false)
    && Same(c.customCa, d.customCa, "")
  }

  predicate SameHttpCheck(x: Option<HttpHealthChecks>, y: Option<HttpHealthChecks>) {
    var c, d := if x.Some? then x.value else NO_HTTP_CHECK, if y.Some? then y.value else NO_HTTP_CHECK;
    Same(c.path, d.path, "") && c.okStatuses == d.okStatuses && SameTls(c.tls, d.tls)
  }

  predicate SameCheck(x: Option<ActiveHealthCheck>, y: Option<ActiveHealthCheck>) {
    var c, d := if x.Some? then x.value else NO_CHECK, if y.Some? then y.value else NO_CHECK;
    && Same(c.altPort, d.altPort, 0) && Same(c.healthyThreshold, d.healthyThreshold, 0)
    && Same(c.unhealthyThreshold, d.unhealthyThreshold, 0)
    && Same(c.interval, d.interval, "") && Same(c.intervalJitter, d.intervalJitter, "")
      && Same(c.timeout, d.timeout, "")
    && SameHttpCheck(c.httpHealthChecks, d.httpHealthChecks)
  }

  predicate SameTarget(x: Target, y: Target) {
    Same(x.ip, y.ip, "") && Same(x.displayName, y.displayName, "")
  }

  predicate SameTargets(xs: seq<Target>, ys: seq<Target>) {
    |xs| == |ys| && forall i | 0 <= i < |xs| :: SameTarget(xs[i], ys[i])
  }

  predicate SamePool(x: TargetPool, y: TargetPool) {
    && Same(x.name, y.name, "") && Same(x.targetPort, y.targetPort, 0) && SameTargets(x.targets, y.targets)
    && SameTls(x.tlsConfig, y.tlsConfig) && SameCheck(x.activeHealthCheck, y.activeHealthCheck)
  }

  predicate SamePools(xs: seq<TargetPool>, ys: seq<TargetPool>) {
    |xs| == |ys| && forall i | 0 <= i < |xs| :: SamePool(xs[i], ys[i])
  }

  // ---- the whole ----

  /** The options allow these source ranges, in this order. */
  predicate Allows(x: Option<LbOptions>, ranges: seq<string>) {
    if x.Some? && x.value.accessControl.Some? then x.value.accessControl.value.allowedSourceRanges == ranges
    else ranges == []
  }

  predicate SameAccess(x: Option<LbOptions>, y: Option<LbOptions>) {
    if y.Some? && y.value.accessControl.Some? then Allows(x, y.value.accessControl.value.allowedSourceRanges)
    else Allows(x, [])
  }

  /** No update is needed. */
  predicate SameConfiguration(p: Payload, q: Payload) {
    && SameListeners(p.listeners, q.listeners) && SamePools(p.targetPools, q.targetPools)
    && SameAccess(p.options, q.options) && Same(p.labels, q.labels, map[]) && Same(p.planId, q.planId, "")
  }
}
