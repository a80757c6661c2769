/** The load balancer API types. Every Go pointer is an Option. */
module AlbApi {
  import opened Options

  datatype Protocol = HTTP | HTTPS

  datatype Path = Path(prefix: Option<string>, exactMatch: Option<string>)

  datatype Rule = Rule(path: Option<Path>, targetPool: Option<string>, webSocket: Option<bool>)

  datatype HostConfig = HostConfig(host: Option<string>, rules: seq<Rule>)

  datatype HttpOptions = HttpOptions(hosts: seq<HostConfig>)

  datatype CertificateConfig = CertificateConfig(certificateIds: seq<string>)

  datatype HttpsOptions = HttpsOptions(certificateConfig: Option<CertificateConfig>)

  datatype Listener = Listener(
    name: Option<string>,
    wafConfigName: Option<string>,
    protocol: Option<Protocol>,
    port: Option<int>,
    http: Option<HttpOptions>,
    https: Option<HttpsOptions>)

  datatype Target = Target(displayName: Option<string>, ip: Option<string>)

  datatype TlsConfig = TlsConfig(
    enabled: Option<bool>,
    skipCertificateValidation: Option<bool>,
    customCa: Option<string>)

  datatype HttpHealthChecks = HttpHealthChecks(
    path: Option<string>,
    okStatuses: seq<string>,
    tls: Option<TlsConfig>)

  datatype ActiveHealthCheck = ActiveHealthCheck(
    altPort: Option<int>,
    healthyThreshold: Option<int>,
    interval: Option<string>,
    intervalJitter: Option<string>,
    timeout: Option<string>,
    unhealthyThreshold: Option<int>,
    httpHealthChecks: Option<HttpHealthChecks>)

  datatype TargetPool = TargetPool(
    name: Option<string>,
    targetPort: Option<int>,
    targets: seq<Target>,
    tlsConfig: Option<TlsConfig>,
    activeHealthCheck: Option<ActiveHealthCheck>)

  datatype AccessControl = AccessControl(allowedSourceRanges: seq<string>)

  datatype Observability = Observability(logs: Option<string>)

  datatype LbOptions = LbOptions(
    ephemeralAddress: Option<bool>,
    accessControl: Option<AccessControl>,
    privateNetworkOnly: Option<bool>,
    observability: Option<Observability>)

  datatype Network = Network(networkId: Option<string>, role: Option<string>)

  /** The create and the update payload carry the same fields; only the update sets a version. */
  datatype Payload = Payload(
    disableTargetSecurityGroupAssignment: Option<bool>,
    externalAddress: Option<string>,
    labels: Option<map<string, string>>,
    listeners: seq<Listener>,
    name: Option<string>,
    networks: seq<Network>,
    options: Option<LbOptions>,
    planId: Option<string>,
    region: Option<string>,
    targetPools: seq<TargetPool>,
    version: Option<string>)

  datatype Status = PENDING | READY | ERROR | TERMINATING

  /** A load balancer is the configuration it was given and what the API adds on the server side. */
  datatype LoadBalancer = LoadBalancer(
    spec: Payload,
    privateAddress: Option<string>,
    status: Option<Status>,
    errors: seq<string>)

  /** The certificate ids that a listener presents. */
  function ListenerCertificateIds(l: Listener): seq<string> {
    if l.https.Some? && l.https.value.certificateConfig.Some?
    then l.https.value.certificateConfig.value.certificateIds
    else []
  }

  /** Every certificate id that a list of listeners refers to. */
  function ReferencedCertificates(listeners: seq<Listener>): set<string> {
    set i, k | 0 <= i < |listeners| && 0 <= k < |ListenerCertificateIds(listeners[i])|
      :: ListenerCertificateIds(listeners[i])[k]
  }
}
