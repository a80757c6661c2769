/** The work tree as a value: what the ingresses of one class ask for, merged by precedence. */
module Tree {
  import opened Options
  import opened Kube
  import opened Names
  import Api = AlbApi

  const LIMIT_TARGET_POOLS := 20
  const LIMIT_TARGETS_PER_POOL := 250
  const MAX_UINT16 := 0xFFFF

  /** Conversion to an unsigned 16 bit integer keeps the low bits only. */
  function Uint16(n: int): nat {
    n % 0x1_0000
  }

  datatype PathKey = PathKey(pathType: PathType, path: string)

  datatype PathRef = PathRef(namespace: string, name: string, uid: string, rule: nat, path: nat) {
    function PoolName(): string { Names.PoolName(uid, rule, path) }

    function Owner(): ObjectKey { ObjectKey(namespace, name) }
  }

  datatype TreePath = TreePath(key: PathKey, ref: PathRef, webSocket: bool)

  /** Where a path is stored: the nesting of listener, host and path map, flattened. */
  datatype Slot = Slot(port: nat, host: string, key: PathKey)

  datatype TreeCertificate = TreeCertificate(publicKey: string, privateKey: string, ports: set<nat>)

  datatype WorkTree = WorkTree(
    protocols: map<nat, Api.Protocol>,
    paths: map<Slot, TreePath>,
    pools: map<PathRef, Api.TargetPool>,
    certificates: map<string, TreeCertificate>)

  const EMPTY_TREE := WorkTree(map[], map[], map[], map[])

  datatype EventKind =
    | InvalidPriority | InvalidHttpsOnly | InvalidHttpPort | InvalidHttpsPort | InvalidWebSocket
    | HttpPortOutOfRange | HttpsPortOutOfRange
    | SecretMissing | SecretNotTls | CertificateInvalid | HttpsOnlyWithoutCertificate
    | PoolLimitReached | BackendNotService | ServiceMissing | ServiceTypeUnsupported
    | NodePortMissing | PortNotFound | InvalidPoolTls | InvalidPoolTlsSkip | InvalidPoolTlsCa | LocalTrafficPolicy
    | ProtocolConflict | PathExists

  datatype ErrorEvent = ErrorEvent(ingress: ObjectKey, kind: EventKind, field: seq<nat>)

  /** What the cluster provides while the tree is built. */
  datatype Context = Context(
    class_: IngressClass,
    secrets: map<ObjectKey, Secret>,
    services: map<ObjectKey, Service>,
    targets: seq<Api.Target>)

  /** The tree and the error events so far. */
  datatype Build = Build(tree: WorkTree, events: seq<ErrorEvent>) {
    function Report(ing: Ingress, kind: EventKind, field: seq<nat>): Build {
      this.(events := events + [ErrorEvent(ing.Key(), kind, field)])
    }
  }

  const EMPTY_BUILD := Build(EMPTY_TREE, [])

  // ---- the settings of one ingress ----

  datatype Settings = Settings(httpsOnly: bool, httpPort: int, httpsPort: int, webSocket: bool)

  datatype Verdict = Rejected(kind: EventKind) | Accepted(settings: Settings)

  function Settle(cls: IngressClass, ing: Ingress): Verdict {
    var a, c := ing.annotations, cls.annotations;
    var httpsOnly := GetAnnotation(false, [a.httpsOnly, c.httpsOnly]);
    var httpPort := GetAnnotation(80, [a.httpPort, c.httpPort]);
    var httpsPort := GetAnnotation(443, [a.httpsPort, c.httpsPort]);
    var webSocket := GetAnnotation(false, [a.webSocket, c.webSocket]);
    if GetAnnotation(0, [a.priority]).Err? then Rejected(InvalidPriority)
    else if httpsOnly.Err? then Rejected(InvalidHttpsOnly)
    else if httpPort.Err? then Rejected(InvalidHttpPort)
    else if httpsPort.Err? then Rejected(InvalidHttpsPort)
    else if !httpsOnly.value && (httpPort.value <= 0 || httpPort.value > MAX_UINT16) then Rejected(HttpPortOutOfRange)
    else if |ing.tls| > 0 && (httpsPort.value <= 0 || httpsPort.value > MAX_UINT16) then Rejected(HttpsPortOutOfRange)
    else if webSocket.Err? then Rejected(InvalidWebSocket)
    else Accepted(Settings(httpsOnly.value, httpPort.value, httpsPort.value, webSocket.value))
  }

  // ---- certificates ----

  function AddCertificate(t: WorkTree, secret: Secret, fingerprint: string, port: nat): WorkTree {
    var known := if fingerprint in t.certificates then t.certificates[fingerprint]
                 else TreeCertificate(secret.publicKey, secret.privateKey, {});
    t.(certificates := t.certificates[fingerprint := known.(ports := known.ports + {port})])
  }

  function AdmitTls(ctx: Context, b: Build, ing: Ingress, s: Settings, i: nat): Build
    requires i < |ing.tls|
  {
    var key := ObjectKey(ing.namespace, ing.tls[i]);
    if key !in ctx.secrets then b.Report(ing, SecretMissing, [i])
    else if !ctx.secrets[key].isTls then b.Report(ing, SecretNotTls, [i])
    else if ctx.secrets[key].fingerprint.Err? then b.Report(ing, CertificateInvalid, [i])
    else b.(tree := AddCertificate(b.tree, ctx.secrets[key], ctx.secrets[key].fingerprint.value, Uint16(s.httpsPort)))
  }

  function AdmitTlsUpTo(ctx: Context, b: Build, ing: Ingress, s: Settings, n: nat): Build
    requires n <= |ing.tls|
  {
    if n == 0 then b else AdmitTls(ctx, AdmitTlsUpTo(ctx, b, ing, s, n - 1), ing, s, n - 1)
  }

  // ---- target pools ----

  function RefOf(ing: Ingress, r: nat, p: nat): PathRef {
    PathRef(ing.namespace, ing.name, ing.uid, r, p)
  }

  predicate PortMatches(port: ServicePort, backend: Backend) {
    port.port == backend.portNumber || (port.name != "" && port.name == backend.portName)
  }

  datatype NodePortSearch = NodePortSearch(nodePort: int, misses: nat)

  /** The last matching port with a node port wins; matching ports without one are reported. */
  function FindNodePort(ports: seq<ServicePort>, backend: Backend, n: nat): NodePortSearch
    requires n <= |ports|
  {
    if n == 0 then NodePortSearch(0, 0)
    else
      var before := FindNodePort(ports, backend, n - 1);
      var port := ports[n - 1];
      if !PortMatches(port, backend) then before
      else if port.nodePort == 0 then before.(misses := before.misses + 1)
      else before.(nodePort := port.nodePort)
  }

  datatype PoolResult = PoolResult(pool: Option<Api.TargetPool>, kinds: seq<EventKind>)

  /** The pool for one path, or the reasons why there is none. It is checked against the pools the tree holds. */
  function TargetPoolFor(ctx: Context, t: WorkTree, ing: Ingress, r: nat, p: nat): PoolResult
    requires r < |ing.rules| && p < ing.PathCount(r)
  {
    var ref := RefOf(ing, r, p);
    var path := ing.rules[r].http.value[p];
    if ref !in t.pools && |t.pools| >= LIMIT_TARGET_POOLS then PoolResult(None, [PoolLimitReached])
    else if path.backend.None? then PoolResult(None, [BackendNotService])
    else
      var key := ObjectKey(ing.namespace, path.backend.value.service);
      if key !in ctx.services then PoolResult(None, [ServiceMissing])
      else PoolForService(ctx, ctx.services[key], ing, ref, path.backend.value)
  }

  function PoolForService(ctx: Context, service: Service, ing: Ingress, ref: PathRef, backend: Backend): PoolResult {
    if service.kind != NodePort && service.kind != ServiceType.LoadBalancer
    then PoolResult(None, [ServiceTypeUnsupported])
    else
      var search := FindNodePort(service.ports, backend, |service.ports|);
      var missing := seq(search.misses, _ => NodePortMissing);
      if search.nodePort == 0 then PoolResult(None, missing + [PortNotFound])
      else
        var s, a, c := service.annotations, ing.annotations, ctx.class_.annotations;
        var enabled := GetAnnotation(false, [s.poolTlsEnabled, a.poolTlsEnabled, c.poolTlsEnabled]);
        var skip := GetAnnotation(false, [s.poolTlsSkipValidation, a.poolTlsSkipValidation, c.poolTlsSkipValidation]);
        var ca := GetAnnotation("", [s.poolTlsCustomCa, a.poolTlsCustomCa, c.poolTlsCustomCa]);
        if enabled.Err? then PoolResult(None, missing + [InvalidPoolTls])
        else if skip.Err? then PoolResult(None, missing + [InvalidPoolTlsSkip])
        else if ca.Err? then PoolResult(None, missing + [InvalidPoolTlsCa])
        else if service.externalTrafficLocal then PoolResult(None, missing + [LocalTrafficPolicy])
        else
          var customCa := if ca.value == "" then None else Some(ca.value);
          var tls := Api.TlsConfig(Some(enabled.value), Some(skip.value), customCa);
          var pool := Api.TargetPool(Some(ref.PoolName()), Some(search.nodePort), ctx.targets, Some(tls), None);
          PoolResult(Some(pool), missing)
  }

  // ---- paths ----

  function KeyOf(path: HttpPath): PathKey {
    PathKey(path.pathType.GetOr(Exact), path.path)
  }

  function SlotOf(ing: Ingress, r: nat, p: nat, port: nat): Slot
    requires r < |ing.rules| && p < ing.PathCount(r)
  {
    Slot(port, ing.rules[r].host, KeyOf(ing.rules[r].http.value[p]))
  }

  datatype Added = Added(build: Build, added: bool)

  function AddPath(b: Build, ing: Ingress, r: nat, p: nat, port: nat, protocol: Api.Protocol, webSocket: bool): Added
    requires r < |ing.rules| && p < ing.PathCount(r)
  {
    var t := b.tree;
    var slot := SlotOf(ing, r, p, port);
    if port in t.protocols && t.protocols[port] != protocol then Added(b.Report(ing, ProtocolConflict, []), false)
    else if slot in t.paths then Added(b.Report(ing, PathExists, [r, p]), false)
    else
      var path := TreePath(slot.key, RefOf(ing, r, p), webSocket);
      Added(b.(tree := t.(protocols := t.protocols[port := protocol], paths := t.paths[slot := path])), true)
  }

  function EventsFor(ing: Ingress, kinds: seq<EventKind>, r: nat, p: nat): seq<ErrorEvent> {
    seq(|kinds|, i requires 0 <= i < |kinds| => ErrorEvent(ing.Key(), kinds[i], [r, p]))
  }

  function AddHttp(b: Build, ing: Ingress, s: Settings, r: nat, p: nat): Added
    requires r < |ing.rules| && p < ing.PathCount(r)
  {
    if s.httpsOnly then Added(b, false) else AddPath(b, ing, r, p, Uint16(s.httpPort), Api.HTTP, s.webSocket)
  }

  function AddHttps(b: Build, ing: Ingress, s: Settings, r: nat, p: nat): Added
    requires r < |ing.rules| && p < ing.PathCount(r)
  {
    if |ing.tls| == 0 then Added(b, false) else AddPath(b, ing, r, p, Uint16(s.httpsPort), Api.HTTPS, s.webSocket)
  }

  function AddPool(t: WorkTree, ref: PathRef, pool: Api.TargetPool): WorkTree {
    t.(pools := t.pools[ref := pool])
  }

  function AdmitPath(ctx: Context, b: Build, ing: Ingress, s: Settings, r: nat, p: nat): Build
    requires r < |ing.rules| && p < ing.PathCount(r)
  {
    var result := TargetPoolFor(ctx, b.tree, ing, r, p);
    var reported := b.(events := b.events + EventsFor(ing, result.kinds, r, p));
    if result.pool.None? then reported
    else
      var http := AddHttp(reported, ing, s, r, p);
      var https := AddHttps(http.build, ing, s, r, p);
      if http.added || https.added
      then https.build.(tree := AddPool(https.build.tree, RefOf(ing, r, p), result.pool.value))
      else https.build
  }

  function AdmitPathsUpTo(ctx: Context, b: Build, ing: Ingress, s: Settings, r: nat, n: nat): Build
    requires r < |ing.rules| && n <= ing.PathCount(r)
  {
    if n == 0 then b else AdmitPath(ctx, AdmitPathsUpTo(ctx, b, ing, s, r, n - 1), ing, s, r, n - 1)
  }

  function AdmitRulesUpTo(ctx: Context, b: Build, ing: Ingress, s: Settings, n: nat): Build
    requires n <= |ing.rules|
  {
    if n == 0 then b
    else AdmitPathsUpTo(ctx, AdmitRulesUpTo(ctx, b, ing, s, n - 1), ing, s, n - 1, ing.PathCount(n - 1))
  }

  function AdmitIngress(ctx: Context, b: Build, ing: Ingress): Build {
    var verdict := Settle(ctx.class_, ing);
    if verdict.Rejected? then b.Report(ing, verdict.kind, [])
    else
      var s := verdict.settings;
      var withTls := AdmitTlsUpTo(ctx, b, ing, s, |ing.tls|);
      if |ing.tls| == 0 && s.httpsOnly then withTls.Report(ing, HttpsOnlyWithoutCertificate, [])
      else AdmitRulesUpTo(ctx, withTls, ing, s, |ing.rules|)
  }

  /** Admits ingresses in the given order, first come first served. */
  function AdmitAll(ctx: Context, b: Build, ings: seq<Ingress>): Build {
    if ings == [] then b
    else AdmitIngress(ctx, AdmitAll(ctx, b, ings[..|ings| - 1]), ings[|ings| - 1])
  }

  // ---- the class itself ----

  const NETWORK_MODE_NODE_PORT := "NodePort"
  const DEFAULT_PLAN := "p10"
  const SERVICE_PLANS := ["p10"]

  datatype ClassSettings = ClassSettings(externalIP: string, planId: string, internal: bool, sourceRanges: seq<string>)

  predicate RangesValid(ranges: seq<SourceRange>) {
    && (forall i | 0 <= i < |ranges| :: ranges[i].isCidr)
    && (forall i, k | 0 <= k < i < |ranges| :: ranges[k].text != ranges[i].text)
  }

  /** An invalid class yields no tree at all. */
  function SettleClass(cls: IngressClass): Result<ClassSettings> {
    var internal := GetAnnotation(false, [cls.internal]);
    var plan := if cls.planId == "" then DEFAULT_PLAN else cls.planId;
    if cls.networkMode != NETWORK_MODE_NODE_PORT then Err
    else if cls.externalIP != "" && !cls.externalIPIsV4 then Err
    else if plan !in SERVICE_PLANS then Err
    else if internal.Err? then Err
    else if !RangesValid(cls.sourceRanges) then Err
    else Ok(ClassSettings(cls.externalIP, plan, internal.value,
                          seq(|cls.sourceRanges|, i requires 0 <= i < |cls.sourceRanges| => cls.sourceRanges[i].text)))
  }
}
