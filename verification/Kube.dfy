/** The Kubernetes objects the controller reads, with annotations and certificates already parsed. */
module Kube {
  import opened Options

  /** The `spec.controller` value of the ingress classes this controller serves. */
  const CONTROLLER_NAME := "stackit.cloud/alb-ingress"

  /** An annotation on one object: not there, there but not parseable, or a parsed value. */
  datatype Annotation<+T> = Absent | Unparsable | Given(value: T)

  /** The first object that carries the annotation decides; only its value is parsed. */
  function GetAnnotation<T>(default: T, sources: seq<Annotation<T>>): Result<T> {
    if sources == [] then Ok(default)
    else match sources[0]
      case Absent => GetAnnotation(default, sources[1..])
      case Unparsable => Err
      case Given(v) => Ok(v)
  }

  datatype Annotations = Annotations(
    priority: Annotation<int>,
    httpsOnly: Annotation<bool>,
    httpPort: Annotation<int>,
    httpsPort: Annotation<int>,
    webSocket: Annotation<bool>,
    poolTlsEnabled: Annotation<bool>,
    poolTlsSkipValidation: Annotation<bool>,
    // Unparsable stands for a non-empty value that is not a PEM encoded certificate authority.
    poolTlsCustomCa: Annotation<string>)

  datatype ObjectKey = ObjectKey(namespace: string, name: string)

  datatype PathType = Exact | ImplementationSpecific | Prefix

  datatype Backend = Backend(service: string, portNumber: int, portName: string)

  datatype HttpPath = HttpPath(pathType: Option<PathType>, path: string, backend: Option<Backend>)

  datatype IngressRule = IngressRule(host: string, http: Option<seq<HttpPath>>)

  datatype Ingress = Ingress(
    namespace: string,
    name: string,
    uid: string,
    created: int,
    className: Option<string>,
    tls: seq<string>,
    rules: seq<IngressRule>,
    defaultBackend: Option<Backend>,
    annotations: Annotations)
  {
    function Key(): ObjectKey { ObjectKey(namespace, name) }

    /** The number of paths of rule `r`; a rule without HTTP part has none. */
    function PathCount(r: nat): nat
      requires r < |rules|
    {
      if rules[r].http.Some? then |rules[r].http.value| else 0
    }
  }

  datatype ServiceType = ClusterIP | NodePort | LoadBalancer | ExternalName

  datatype ServicePort = ServicePort(port: int, name: string, nodePort: int)

  datatype Service = Service(
    namespace: string,
    name: string,
    kind: ServiceType,
    ports: seq<ServicePort>,
    externalTrafficLocal: bool,
    annotations: Annotations)
  {
    function Key(): ObjectKey { ObjectKey(namespace, name) }
  }

  /** `fingerprint` is the outcome of validating the key pair and hashing the certificate. */
  datatype Secret = Secret(
    namespace: string,
    name: string,
    isTls: bool,
    publicKey: string,
    privateKey: string,
    fingerprint: Result<string>)
  {
    function Key(): ObjectKey { ObjectKey(namespace, name) }
  }

  datatype Taint = Taint(key: string, value: string, effect: string)

  datatype Condition = Condition(kind: string, status: string, reason: string)

  datatype Address = Address(kind: string, address: string)

  datatype Node = Node(
    name: string,
    created: int,
    taints: seq<Taint>,
    conditions: seq<Condition>,
    addresses: seq<Address>)

  /** One entry of the comma separated list of allowed source ranges. */
  datatype SourceRange = SourceRange(text: string, isCidr: bool)

  datatype IngressClass = IngressClass(
    name: string,
    uid: string,
    controller: string,
    networkMode: string,
    externalIP: string,
    externalIPIsV4: bool,
    planId: string,
    internal: Annotation<bool>,
    waf: string,
    sourceRanges: seq<SourceRange>,
    annotations: Annotations)

  /** A later object with the same key replaces an earlier one. */
  function IndexBy<T>(key: T -> ObjectKey, objects: seq<T>): map<ObjectKey, T> {
    if objects == [] then map[]
    else
      var last := objects[|objects| - 1];
      IndexBy(key, objects[..|objects| - 1])[key(last) := last]
  }

  function ServiceKey(s: Service): ObjectKey { s.Key() }

  function SecretKey(s: Secret): ObjectKey { s.Key() }

  function IndexServices(services: seq<Service>): map<ObjectKey, Service> { IndexBy(ServiceKey, services) }

  function IndexSecrets(secrets: seq<Secret>): map<ObjectKey, Secret> { IndexBy(SecretKey, secrets) }

  /** Objects in the list that have the same key are the same. */
  ghost predicate Keyed<T(!new)>(key: T -> ObjectKey, objects: seq<T>) {
    forall x, y | x in objects && y in objects && key(x) == key(y) :: x == y
  }

  /** Every entry of the index comes from the list. */
  lemma {:induction false} IndexIsSound<T(!new)>(key: T -> ObjectKey, objects: seq<T>)
    ensures forall k | k in IndexBy(key, objects) ::
              IndexBy(key, objects)[k] in objects && key(IndexBy(key, objects)[k]) == k
  {
    if objects != [] {
      var n := |objects| - 1;
      IndexIsSound(key, objects[..n]);
      assert forall x | x in objects[..n] :: x in objects;
    }
  }

  /** Every key of the list has an entry. */
  lemma {:induction false} IndexIsComplete<T(!new)>(key: T -> ObjectKey, objects: seq<T>)
    ensures forall x | x in objects :: key(x) in IndexBy(key, objects)
  {
    if objects != [] {
      var n := |objects| - 1;
      IndexIsComplete(key, objects[..n]);
      forall x | x in objects ensures key(x) in IndexBy(key, objects) {
        var i :| 0 <= i < |objects| && objects[i] == x;
        if i < n { assert objects[..n][i] == x; }
      }
    }
  }

  /** The index does not depend on the order of the list. */
  lemma IndexIgnoresOrder<T(!new)>(key: T -> ObjectKey, objects: seq<T>, others: seq<T>)
    requires multiset(objects) == multiset(others) && Keyed(key, objects)
    ensures IndexBy(key, objects) == IndexBy(key, others)
  {
    forall x ensures x in objects <==> x in others { assert x in multiset(objects) <==> x in multiset(others); }
    IndexIsSound(key, objects);
    IndexIsSound(key, others);
    IndexIsComplete(key, objects);
    IndexIsComplete(key, others);
    var m, n := IndexBy(key, objects), IndexBy(key, others);
    forall k ensures k in m <==> k in n {
      if k in m { assert m[k] in others; }
      if k in n { assert n[k] in objects; }
    }
    forall k | k in m ensures m[k] == n[k] { assert m[k] in objects && n[k] in objects; }
  }
}
