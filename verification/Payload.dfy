/** The payload that a work tree stands for: all its maps laid out as sorted lists. */
module Payload {
  import opened Options
  import opened Kube
  import opened Names
  import opened Sorting
  import opened Tree
  import Api = AlbApi

  const LABEL_CLASS_UID := "alb-ingress-controller-ingress-class-uid"
  const ROLE_LISTENERS_AND_TARGETS := "ROLE_LISTENERS_AND_TARGETS"

  datatype Config = Config(networkId: string, region: string, extraLabels: map<string, string>)

  /** What `ToCreatePayload` is called with, apart from the tree and the certificate ids. */
  datatype Frame = Frame(class_: IngressClass, settings: ClassSettings, config: Config)

  // ---- the order of the rules of a host ----

  function Rank(t: PathType): int {
    match t case Exact => 1 case ImplementationSpecific => 2 case Prefix => 3
  }

  predicate KeyBefore(a: PathKey, b: PathKey) {
    if Rank(a.pathType) != Rank(b.pathType) then Rank(a.pathType) < Rank(b.pathType)
    else if |a.path| != |b.path| then |a.path| > |b.path|
    else StrLess(a.path, b.path)
  }

  lemma KeyBeforeTotal()
    ensures TotalOrder(KeyBefore)
  {
    StrTotal();
    forall a, b, c | !KeyBefore(a, b) && !KeyBefore(b, c) ensures !KeyBefore(a, c) {
      assert !StrLess(a.path, b.path) && !StrLess(b.path, c.path) ==> !StrLess(a.path, c.path);
    }
  }

  predicate PortBefore(a: nat, b: nat) { a < b }

  predicate PoolBefore(a: Api.TargetPool, b: Api.TargetPool) { StrLess(a.name.GetOr(""), b.name.GetOr("")) }

  ghost function SortStrings(m: multiset<string>): (s: seq<string>)
    ensures multiset(s) == m
  {
    StrTotal();
    SortOf(m, StrLess)
  }

  ghost function SortKeys(keys: set<PathKey>): (s: seq<PathKey>)
    ensures multiset(s) == multiset(keys)
  {
    KeyBeforeTotal();
    SortOf(multiset(keys), KeyBefore)
  }

  ghost function SortPorts(ports: set<nat>): (s: seq<nat>)
    ensures multiset(s) == multiset(ports)
  {
    SortOf(multiset(ports), PortBefore)
  }

  // ---- hosts and rules ----

  function KeysAt(t: WorkTree, port: nat, host: string): set<PathKey> {
    set slot | slot in t.paths && slot.port == port && slot.host == host :: slot.key
  }

  function HostNames(t: WorkTree, port: nat): set<string> {
    set slot | slot in t.paths && slot.port == port :: slot.host
  }

  function RuleOf(path: TreePath): Api.Rule {
    var matcher := if path.key.pathType == Prefix then Api.Path(Some(path.key.path), None)
                   else Api.Path(None, Some(path.key.path));
    Api.Rule(Some(matcher), Some(path.ref.PoolName()), Some(path.webSocket))
  }

  /** The path stored at a slot; the default only makes the function total. */
  function PathAt(t: WorkTree, slot: Slot): TreePath {
    if slot in t.paths then t.paths[slot] else TreePath(slot.key, PathRef("", "", "", 0, 0), false)
  }

  ghost function Rules(t: WorkTree, port: nat, host: string): seq<Api.Rule> {
    Map((k: PathKey) => RuleOf(PathAt(t, Slot(port, host, k))), SortKeys(KeysAt(t, port, host)))
  }

  ghost function HostOf(t: WorkTree, port: nat, host: string): Api.HostConfig {
    Api.HostConfig(Some(host), Rules(t, port, host))
  }

  ghost function Hosts(t: WorkTree, port: nat): seq<Api.HostConfig> {
    Map((h: string) => HostOf(t, port, h), SortStrings(multiset(HostNames(t, port))))
  }

  // ---- certificates ----

  /** The certificates that the listener on `port` can present: registered for it, and known to the API. */
  function FingerprintsFor(t: WorkTree, ids: map<string, string>, port: nat): set<string> {
    set f | f in t.certificates && port in t.certificates[f].ports && f in ids
  }

  function IdOf(ids: map<string, string>, f: string): string {
    if f in ids then ids[f] else ""
  }

  ghost function CertificateIds(t: WorkTree, ids: map<string, string>, port: nat): seq<string> {
    SortStrings(multiset(Map((f: string) => IdOf(ids, f), SortStrings(multiset(FingerprintsFor(t, ids, port))))))
  }

  // ---- listeners ----

  function PortsOf(t: WorkTree, ids: map<string, string>): set<nat> {
    set port | port in t.protocols && (t.protocols[port] == Api.HTTPS ==> FingerprintsFor(t, ids, port) != {})
  }

  function ProtocolAt(t: WorkTree, port: nat): Api.Protocol {
    if port in t.protocols then t.protocols[port] else Api.HTTP
  }

  function WafOf(cls: IngressClass): Option<string> {
    if cls.waf != "" then Some(cls.waf) else None
  }

  function HttpsOf(protocol: Api.Protocol, certificateIds: seq<string>): Option<Api.HttpsOptions> {
    if protocol == Api.HTTPS then Some(Api.HttpsOptions(Some(Api.CertificateConfig(certificateIds)))) else None
  }

  function MakeListener(cls: IngressClass, port: nat, protocol: Api.Protocol, hosts: seq<Api.HostConfig>,
                        certificateIds: seq<string>): Api.Listener {
    Api.Listener(Some("port-" + Decimal(port)), WafOf(cls), Some(protocol), Some(port),
                 Some(Api.HttpOptions(hosts)), HttpsOf(protocol, certificateIds))
  }

  ghost function ListenerOf(cls: IngressClass, t: WorkTree, ids: map<string, string>, port: nat): Api.Listener {
    MakeListener(cls, port, ProtocolAt(t, port), Hosts(t, port), CertificateIds(t, ids, port))
  }

  ghost function LiveListeners(cls: IngressClass, t: WorkTree, ids: map<string, string>): seq<Api.Listener> {
    Map((p: nat) => ListenerOf(cls, t, ids, p), SortPorts(PortsOf(t, ids)))
  }

  // The API does not accept a load balancer without listener.
  const DUMMY_LISTENER :=
    Api.Listener(Some("dummy-port-80"), None, Some(Api.HTTP), Some(80), Some(Api.HttpOptions([])), None)

  function OrDummy(listeners: seq<Api.Listener>): seq<Api.Listener> {
    if listeners == [] then [DUMMY_LISTENER] else listeners
  }

  // ---- target pools ----

  function PoolAt(t: WorkTree, ref: PathRef): Api.TargetPool {
    if ref in t.pools then t.pools[ref] else Api.TargetPool(None, None, [], None, None)
  }

  ghost predicate ArePoolsVia(t: WorkTree, pools: seq<Api.TargetPool>, order: seq<PathRef>) {
    multiset(order) == multiset(t.pools.Keys) && multiset(pools) == multiset(Map((r: PathRef) => PoolAt(t, r), order))
  }

  /** All pools of the tree, sorted by name. Equal names could come in either order. */
  ghost predicate ArePools(t: WorkTree, pools: seq<Api.TargetPool>) {
    Sorted(PoolBefore, pools) && exists order :: ArePoolsVia(t, pools, order)
  }

  // ---- the payload ----

  function MergeExtraLabels(labels: map<string, string>, extra: map<string, string>): map<string, string> {
    extra + labels
  }

  function Assemble(f: Frame, listeners: seq<Api.Listener>, pools: seq<Api.TargetPool>): Api.Payload {
    var s := f.settings;
    Api.Payload(
      Some(true),
      if s.externalIP != "" then Some(s.externalIP) else None,
      Some(MergeExtraLabels(map[LABEL_CLASS_UID := f.class_.uid], f.config.extraLabels)),
      listeners,
      LoadBalancerName(f.class_.uid, f.class_.name),
      [Api.Network(Some(f.config.networkId), Some(ROLE_LISTENERS_AND_TARGETS))],
      Some(Api.LbOptions(
        Some(s.externalIP == "" && !s.internal),
        if s.sourceRanges == [] then None else Some(Api.AccessControl(s.sourceRanges)),
        Some(s.internal),
        None)),
      Some(s.planId),
      Some(f.config.region),
      pools,
      None)
  }

  /** `p` is what creating the load balancer from `t` may send. */
  ghost predicate IsCreatePayload(f: Frame, t: WorkTree, ids: map<string, string>, p: Api.Payload) {
    && ArePools(t, p.targetPools)
    && p == Assemble(f, OrDummy(LiveListeners(f.class_, t, ids)), p.targetPools)
  }

  /** Log settings and version are taken over from the load balancer that exists. */
  function Revise(create: Api.Payload, existing: Api.LoadBalancer): Api.Payload {
    var o := existing.spec.options;
    var logs := if o.Some? && o.value.observability.Some? then o.value.observability.value.logs else None;
    var options := if logs.Some? && create.options.Some?
                   then Some(create.options.value.(observability := Some(Api.Observability(logs))))
                   else create.options;
    create.(options := options, version := existing.spec.version)
  }

  ghost predicate IsUpdatePayload(f: Frame, t: WorkTree, ids: map<string, string>, existing: Api.LoadBalancer,
                                  p: Api.Payload) {
    exists create :: IsCreatePayload(f, t, ids, create) && p == Revise(create, existing)
  }
}
