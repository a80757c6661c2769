# Verified model of the application load balancer ingress controller

The controller turns Kubernetes ingresses into one application load balancer per
ingress class. This project models the part of it that decides anything, and proves
what it promises. It has two layers.

**The compiler.** `BuildTree` sorts the ingresses of a class by precedence and admits
their paths, one by one, into a work tree: port, listener, host, path, with target
pools, certificates and error events on the side. `ToCreatePayload` and
`ToUpdatePayload` flatten that tree, which consists of maps without an order, into the
sorted lists that the load balancer API takes.
- `TreeObjects` has the tree as it is built: listener and host objects that are linked
  and updated in place. Its methods keep `Valid()`, which ties the objects to a flat
  value, the `view`.
- `Tree` has that value and the admission rules as functions. `Compiler` and
  `PayloadBuilder` hold the loops of the controller, each proved against them.
- `TreeProperties`, `Counting`, `Claims`, `Events`, `Provenance`, `Routing`,
  `PayloadProperties` and `EndToEnd` prove what tree, events and payload mean.
- `Precedence`, `Targets`, `Names` and `Sorting` are about the order of ingresses, the
  choice of nodes, the generated names and sorting. `Diff` is the test that decides
  whether an update is needed, `Comparison` what that means field by field.
- `Configuration`, `PayloadFields`, `Requests` and `Addresses` say what annotations,
  payload fields, requests and addresses mean, without naming the code that computes
  them.

**The reconcile protocol.** One reconcile fetches the class, adds the finalizer, reads
the load balancer, lists the certificates, creates the missing ones, creates or updates
the load balancer if the comparison says so, and then deletes duplicates and unused
certificates. Deleting the class tears everything down in the opposite order.
- `Protocol` is a transition system: every API call is one step, the controller may
  stop after any of them, whether or not the call took effect, and the environment
  (users, other controllers, the API itself, runs for other classes) moves in between.
  The plan of a run is arbitrary, so every change of ingresses, secrets, services and
  nodes between two runs is covered.
- `Safety` proves invariants of all its runs, `Convergence` what an undisturbed run
  achieves, `Progress` and `Unversioned` when there is one, `ClassChanges` which edits of
  a class it notices, `Updates` that changes of the cluster reach the load balancer,
  `System` that classes do not get in each other's way.
- `Cloud` is the API with its failures; it records the run. `Controller` is the
  reconcile loop, call by call, over that API: whatever it does is a run of the protocol.
- `Kube` and `AlbApi` hold the objects of the cluster and of the API, `Certificates` the
  matching of the two kinds of certificates.
- `Stores` models the in-memory stand-ins of both APIs; `StoreSteps` shows that each call
  they accept is a step of the protocol. `Triggers` has the indexes and event handlers,
  and `Reads` proves that what they do not watch does not matter.

The layers meet in `PayloadRefersToKeptCertificates` and `SameNormalFormSameCertificates`:
the payload only names certificates that the cleanup spares, and "no update needed"
means that the live load balancer names the same ones. That is why
`EveryReachableStateIsSafe` holds, and `ReconcileTwice` needs both layers in full.

## Assumptions

- One reconcile at a time for each class; runs of different classes interleave.
- Nobody but the controller edits the load balancer and the labelled certificates of a
  class, or its finalizer. Status changes, and disappearing after TERMINATING, are free.
- A listing shows every certificate once, with an id.
- Calm weather: no call fails, nothing else moves, and the API reports the fingerprint
  the controller computed. It is a constant of `Cloud`, so no method can spoil it. A
  reconcile of the protocol that such weather allows is called undisturbed. Convergence
  is about these, and about certificates that all have a fingerprint; safety is about all.

## Where the code and its documentation differ

- `pkg/controller/ingress/spec/annotations.go:17-22` says that setting the external
  address later promotes the ephemeral address. The comparison that triggers updates
  looks at no address, so this edit of a class at rest causes no call
  (`ClassChanges.AddressEditIsNotNoticed`). Which edits do is
  `ClassChanges.ClassEditIsNoticedIff`.
- `pkg/controller/ingress/spec/annotations.go:19` says that the external address is
  ignored for an internal load balancer. The payload carries it all the same
  (`ClassChanges.InternalAddressIsSent`); it does not exactly if the class has none
  (`ClassChanges.InternalAddressIsDroppedIff`). What the API does with it is not part of
  this model.
- `docs/user.md:87` promises that a higher priority comes first. The comparator
  subtracts 64 bit integers. It agrees with the documented order exactly if no difference
  of two priorities overflows (`Precedence.AsDocumentedIffBounded`,
  `Precedence.OverflowInvertsPriorities`). With an overflow sorting promises nothing; the
  outcome may or may not be the documented order.
- Nothing says that `LoadBalancerName` needs more than distinct uids, but it does: two
  uids can share a name exactly if one of them, followed by a dash, starts the other
  (`Names.CollisionIff`). Cluster uids have one length, so theirs do not. The name is
  defined only if the uid leaves room (`Names.LoadBalancerNameDefined`); otherwise the
  slice expression panics.
- An update names the version it is based on. A load balancer to which the API never
  gave a version can therefore be reconciled only as long as it is up to date
  (`Unversioned.CanRunIff`).

## Model

| member | source | states |
|---|---|---|
| `TreeObjects.TreeObject.AddPath` | pkg/controller/ingress/spec/worktree.go:388-442 | storing a path through shared listener and host objects changes the tree exactly like the insertion into the flat map, refuses a port of the other protocol and an occupied path, and keeps objects unshared and non-empty |
| `TreeObjects.TreeObject.AddPool` | pkg/controller/ingress/spec/worktree.go:315-318 | the pool map changes at one reference, nothing else does |
| `TreeObjects.TreeObject.AddCertificate` | pkg/controller/ingress/spec/worktree.go:267-274 | the first secret with a fingerprint provides the key pair, every later one only adds its port |
| `TreeObjects.AssignUnshared` | pkg/controller/ingress/spec/worktree.go:434-440 | re-assigning listener and host pointers never makes two ports or two hosts share an object |
| `TreeObjects.AssignShows` | pkg/controller/ingress/spec/worktree.go:396-440 | the flat map of slots and the linked objects stay two views of one content |
| `Compiler.BuildTargetPool` | pkg/controller/ingress/spec/worktree.go:449-565 | the loops and early returns yield the pool, or the reasons for none, that the specification gives; the limit is checked against the pools in the tree |
| `Compiler.SearchNodePort` | pkg/controller/ingress/spec/worktree.go:493-507 | the loop over the service ports finds the last match with a node port and reports each match without one |
| `Compiler.AdmitTlsSecrets` | pkg/controller/ingress/spec/worktree.go:238-275 | invalid secrets are reported and skipped, valid ones registered for the HTTPS port |
| `Compiler.AdmitOnePath` | pkg/controller/ingress/spec/worktree.go:291-319 | a path goes to HTTP and HTTPS as asked for, and its pool is kept only if one of them took it |
| `Compiler.AdmitOneIngress` | pkg/controller/ingress/spec/worktree.go:180-320 | one pass of the ingress loop, with every way to skip an ingress |
| `Compiler.BuildTree` | pkg/controller/ingress/spec/worktree.go:109-324 | for every cluster the linked tree and the events are those of admitting the ingresses in precedence order; there is no tree exactly if the class is invalid |
| `Compiler.BuildIsCanonical` | pkg/controller/ingress/spec/worktree.go:109-324 | tree and events are the same for every order in which ingresses, nodes, secrets and services are listed, given that names identify objects, priorities are close enough and nodes are not tied |
| `Kube.IndexIgnoresOrder` | pkg/controller/ingress/spec/worktree.go:119-126 | indexing objects by namespace and name does not depend on their order, if equal names mean equal objects |
| `TreeProperties.AdmitAllKeepsInv` | pkg/controller/ingress/spec/worktree.go:303-318 | after any list of ingresses: pools are exactly those some stored path owns, at most twenty, each with its name; paths sit under their own key; every port in use has a protocol and a path; admitting only adds |
| `TreeProperties.AddPathEffect` | pkg/controller/ingress/spec/worktree.go:388-442 | adding a path keeps these invariants and everything stored, and either binds the path or reports why not |
| `TreeProperties.AdmitPathEffect` | pkg/controller/ingress/spec/worktree.go:291-319 | a path without event is bound on every protocol it asked for, and its pool is in the tree |
| `TreeProperties.PrecedenceIsMonotone` | pkg/controller/ingress/spec/worktree.go:180-321 | ingresses of lower precedence never evict or redirect a path, a pool or a protocol, and only add ports to certificates |
| `TreeProperties.NoSilentDrop` | pkg/controller/ingress/spec/worktree.go:180-321 | every ingress has all its paths on all its protocols and a certificate for TLS, or some event names it |
| `Claims.FirstComeFirstServed` | pkg/controller/ingress/spec/worktree.go:180-321 | for ingresses with distinct names: a path ends up in the slot it asks for if and only if, when it is its turn, there is a pool for it and the slot is free; so a slot goes to the first path in the order of admission that may have it |
| `Events.EventsAreJustified` | pkg/controller/ingress/spec/worktree.go:180-321 | every event names an ingress that was rejected for this reason, or tells the truth about secrets, services, annotations and the tree: the pool limit is reached, the slot belongs to another path, the port serves the other protocol |
| `TreeProperties.SettledPortsFit` | pkg/controller/ingress/spec/worktree.go:215-228 | after the range checks no conversion to 16 bits loses anything |
| `Counting.RulesAreBoundedByPools` | pkg/controller/ingress/spec/limits.go:3-9 | for distinct ingresses there are at most twenty pools and at most two rules for each |
| `Counting.AdmitAllOnce` | pkg/controller/ingress/spec/worktree.go:303-318 | a path reference is stored at most once on HTTP and once on HTTPS |
| `Configuration.AnnotationIsDecided` | pkg/controller/ingress/spec/annotations.go:71-117 | the value is that of the first object that has the annotation, the default if none has it |
| `Configuration.AnnotationIsUndecidable` | pkg/controller/ingress/spec/annotations.go:71-117 | reading fails exactly if the first object that has the annotation has a value that cannot be parsed |
| `Configuration.SettingsIff` | pkg/controller/ingress/spec/worktree.go:183-231 | an ingress is admitted with settings s if and only if its priority can be parsed, s is what the annotations of ingress and class decide with the defaults 80, 443 and false, and the ports it is going to use are in 1..65535 |
| `Configuration.RejectionHasReason` | pkg/controller/ingress/spec/worktree.go:183-236 | the reason given for a rejection is true of the annotations |
| `Configuration.MisconfiguredHasNoSettings` | pkg/controller/ingress/spec/worktree.go:183-236 | an ingress with such a reason is not admitted with any settings |
| `Configuration.ClassSettingsIff` | pkg/controller/ingress/spec/worktree.go:128-164 | a class is valid with settings s if and only if mode, address, plan, internal annotation and source ranges are what they must be, and s is what they say |
| `Provenance.PortMatchesIff` | pkg/controller/ingress/spec/worktree.go:495-497 | a backend asks for a service port by number, or by a name that is not empty |
| `Provenance.NodePortIsLastMatch` | pkg/controller/ingress/spec/worktree.go:493-507 | the port found is that of the last matching service port that has a node port |
| `Provenance.PoolIsConfigured` | pkg/controller/ingress/spec/worktree.go:449-565 | a service gets a pool exactly if type, ports, annotations and traffic policy allow it, and then with this name, port, targets and TLS settings |
| `Provenance.NothingIsInvented` | pkg/controller/ingress/spec/worktree.go:180-321 | every path, pool and certificate port in the tree was asked for by an accepted ingress of the list |
| `Provenance.CertificatesAreExact` | pkg/controller/ingress/spec/worktree.go:238-275 | a certificate is registered for a port if and only if an accepted ingress with that HTTPS port has it in a valid secret |
| `Provenance.KeyPairsComeFromSecrets` | pkg/controller/ingress/spec/worktree.go:267-273 | every certificate in the tree has the public and the private key of a valid TLS secret with its fingerprint |
| `Precedence.SubtractionOrdersIff` | pkg/controller/ingress/spec/worktree.go:171-173 | the wrapping subtraction orders two priorities correctly exactly if the difference fits |
| `Precedence.ComparatorIsDocumentedIff` | pkg/controller/ingress/spec/worktree.go:166-179 | two ingresses are compared as documented exactly if neither difference overflows |
| `Precedence.AsDocumentedIffBounded` | docs/user.md:87 | the comparator agrees with the documented order on all pairs of a set exactly if no difference of two priorities in it overflows |
| `Precedence.SmallPrioritiesAreBounded` | pkg/controller/ingress/spec/worktree.go:171-173 | priorities below 2^62 in magnitude never overflow |
| `Precedence.PrecedenceIsTotal` | pkg/controller/ingress/spec/worktree.go:166-179 | the comparator is a strict weak order, and has no ties on ingresses with distinct names |
| `Precedence.FullNameInjective` | pkg/controller/ingress/spec/worktree.go:177-178 | joining namespace and name with a slash is injective |
| `Precedence.PriorityIs` | pkg/controller/ingress/spec/worktree.go:167-170 | the priority that counts is the annotated one, zero if that cannot be parsed or is missing |
| `Precedence.OverflowInvertsPriorities` | pkg/controller/ingress/spec/worktree.go:171-173 | the lowest priority precedes priority 1 |
| `Targets.GetTargetsOfNodes` | pkg/controller/ingress/spec/worktree.go:603-632 | the loop with its limit computes a selection: eligible nodes, youngest first, listed by address |
| `Targets.TargetsAreTheYoungest` | pkg/controller/ingress/spec/worktree.go:603-632 | as many eligible nodes as the limit allows, each once, and nobody omitted is strictly younger than somebody chosen |
| `Targets.TargetsWithinLimit` | pkg/controller/ingress/spec/worktree.go:609-625 | at most 250 targets, all with an address |
| `Targets.TargetsAreNodes` | pkg/controller/ingress/spec/worktree.go:608-624 | every target is a node that does not terminate, under its name and its first internal address |
| `Targets.TargetsAreSorted` | pkg/controller/ingress/spec/worktree.go:628-630 | targets are listed by address in ascending order |
| `Targets.CandidateIff` | pkg/controller/ingress/spec/worktree.go:850-858 | a node qualifies with an address if and only if it lacks the taint of the autoscaler, its first termination condition is not true, and this is its first internal address |
| `Targets.TargetsAreCanonical` | pkg/controller/ingress/spec/worktree.go:603-632 | without ties the targets do not depend on the order of the nodes |
| `Targets.IgnoredNodeUpdateKeepsTargets` | pkg/controller/ingress/setup.go:190-216 | a node update that the predicate filters out leaves the possible targets of the whole cluster as they are |
| `Targets.UpdateIsIgnoredIff` | pkg/controller/ingress/setup.go:190-216 | an update is ignored if and only if addresses, autoscaler taint and termination condition stay the same |
| `Names.DecimalRoundTrip` | pkg/controller/ingress/spec/worktree.go:76-80 | printing a number and reading it back is the identity |
| `Names.ParsePoolNameInvertsPoolName` | pkg/controller/ingress/spec/worktree.go:76-80 | uid, rule and path can be read back from a pool name, even if the uid has dashes |
| `Names.PoolNameReads` | pkg/controller/ingress/spec/worktree.go:76-80 | uid, rule and path in this order, joined by dashes, in decimal |
| `Names.PoolNameInjective` | pkg/controller/ingress/spec/worktree.go:76-80 | different paths have different pool names |
| `Names.LoadBalancerNameShape` | pkg/controller/ingress/spec/name.go:12-25 | at most 63 characters, no trailing dash, and the whole uid survives truncation |
| `Names.LoadBalancerNameIs` | pkg/controller/ingress/spec/name.go:12-25 | prefix, uid and class name joined by dashes if that fits, else its first 63 characters without the dashes at the end |
| `Names.LoadBalancerNameSeparates` | pkg/controller/ingress/spec/name.go:12-25 | distinct uids of one length, as clusters assign them, never share a name, whatever the class names |
| `Names.CollisionIff` | pkg/controller/ingress/spec/name.go:12-25 | two uids can get one name, with some class names, if and only if one of them followed by a dash starts the other |
| `Names.DifferentLengthsCanCollide` | pkg/controller/ingress/spec/name.go:12-25 | two classes whose names run into their uids and get one load balancer name |
| `Names.LoadBalancerNameDefined` | pkg/controller/ingress/spec/name.go:12-25 | the name exists exactly if the uid fits |
| `Sorting.SortFunc` | pkg/controller/ingress/spec/worktree.go:166-179 | the array is permuted, and sorted if the comparison is a strict weak order on it |
| `Sorting.SortedUnique` | pkg/controller/ingress/spec/worktree.go:867-895 | without ties there is one sorted order, whatever order the map was enumerated in |
| `Sorting.StrLessIff` | pkg/controller/ingress/spec/worktree.go:867-895 | strings are compared at the first character in which they differ, a proper beginning comes first |
| `PayloadBuilder.BuildRules` | pkg/controller/ingress/spec/worktree.go:678-703 | enumerating a path map in any order and sorting gives the canonical rule list of the host |
| `PayloadBuilder.BuildHosts` | pkg/controller/ingress/spec/worktree.go:678-710 | the same for the host map of a listener |
| `PayloadBuilder.BuildCertificateIds` | pkg/controller/ingress/spec/worktree.go:712-728 | the sorted ids of the known certificates registered for the port, whatever order the certificate map has |
| `PayloadBuilder.BuildListener` | pkg/controller/ingress/spec/worktree.go:704-755 | a listener is left out exactly if it is HTTPS and has no certificate |
| `PayloadBuilder.BuildListeners` | pkg/controller/ingress/spec/worktree.go:678-763 | the canonical listener list, for every enumeration order of the listener map |
| `PayloadBuilder.BuildPools` | pkg/controller/ingress/spec/worktree.go:765-769 | all pools of the tree, each once, sorted by name |
| `PayloadBuilder.ToCreatePayload` | pkg/controller/ingress/spec/worktree.go:672-804 | the payload is the one that the tree stands for, for every enumeration order of all five maps |
| `PayloadBuilder.ToUpdatePayload` | pkg/controller/ingress/spec/worktree.go:815-841 | the same payload, with version and log settings of the existing load balancer |
| `PayloadFields.CreateIsAskedByClass` | pkg/controller/ingress/spec/worktree.go:771-804 | from the class object: name, plan, region, network, labels with the class label winning, external address, source ranges, private if and only if the internal annotation is true, ephemeral if and only if it is public without an address of its own |
| `PayloadFields.UpdateIsAskedByClass` | pkg/controller/ingress/spec/worktree.go:815-841 | an update asks for the same, names the existing version and keeps exactly the log settings there are |
| `PayloadFields.ServedPortHasListener` | pkg/controller/ingress/spec/worktree.go:704-750 | every HTTP port, and every HTTPS port with a known certificate, has its listener with name, protocol and firewall |
| `PayloadFields.ListenerHasServedPort` | pkg/controller/ingress/spec/worktree.go:712-763 | there is no other listener; if no port is served an empty one on port 80 stands in |
| `Routing.RoutingIsMostSpecific` | pkg/controller/ingress/spec/worktree.go:860-877 | the first match in the sorted rules is the exact entry, else the implementation specific one, else the longest prefix |
| `Routing.MostSpecificComesFirst` | docs/user.md:89-92 | the rule order puts the most specific matching key before every other matching key |
| `Requests.KeyIsTypeAndText` | pkg/controller/ingress/spec/worktree.go:393 | a path is stored under its text and type, a missing type counts as exact |
| `Requests.RequestReachesPath` | pkg/controller/ingress/spec/worktree.go:860-877 | a request that a stored path asks for reaches its pool, unless something more specific is stored for the host |
| `Requests.RequestsReachPools` | docs/user.md:89-94 | end to end: if no event names the ingress, each request that one of its paths asks for reaches the pool of that path in the payload, on every protocol asked for, unless something more specific is stored for the host |
| `Requests.RulesAreInDocumentedOrder` | docs/user.md:89-92 | rules are listed by type, longest first, then in lexical order |
| `PayloadProperties.PayloadRefersToKeptCertificates` | pkg/controller/ingress/spec/worktree.go:712-728 | every certificate id in a payload belongs to a certificate of the tree |
| `PayloadProperties.ListenersAreWellFormed` | pkg/controller/ingress/spec/worktree.go:704-763 | listeners exist, ports are in range and strictly increasing, HTTPS has certificates and each is registered for the port |
| `PayloadProperties.PoolsAreWellFormed` | pkg/controller/ingress/spec/worktree.go:765-769 | at most twenty pools with at most 250 targets, and every pool of the tree is there |
| `PayloadProperties.RulesReferToPools` | pkg/controller/ingress/spec/worktree.go:682-703 | every rule of every host names a pool of the payload |
| `PayloadProperties.NoSilentDropEndToEnd` | pkg/controller/ingress/spec/worktree.go:180-321 | for every cluster and every ingress: its annotations give settings with which all its paths are in the payload on all its protocols, each with matcher, web socket flag and own pool, or an event names it |
| `PayloadProperties.RuleOfServes` | pkg/controller/ingress/spec/worktree.go:686-700 | a prefix path becomes a prefix matcher with its text, every other path an exact matcher, with the pool uid-rule-path and the web socket flag of the ingress |
| `PayloadProperties.PayloadIsUnique` | pkg/controller/ingress/spec/worktree.go:672-804 | a tree with distinct pool names has one payload |
| `PayloadProperties.PayloadIsCanonical` | pkg/controller/ingress/spec/worktree.go:672-804 | two builds over the same objects, listed in any orders, have the same tree, events and payload |
| `PayloadProperties.DistinctUidsGiveDistinctNames` | pkg/controller/ingress/spec/worktree.go:885-889 | with distinct ingress uids the pool names of the tree are pairwise distinct |
| `EndToEnd.PayloadIsWellFormed` | pkg/controller/ingress/spec/worktree.go:672-804 | for every cluster and id map all references of the payload are in order, and there are at most 20 pools with at most 250 targets each |
| `EndToEnd.PoolsAreSorted` | pkg/controller/ingress/spec/worktree.go:885-889 | pools are listed by name |
| `EndToEnd.HostsAreSorted` | pkg/controller/ingress/spec/worktree.go:891-895 | hosts of a listener are listed by name, each once |
| `EndToEnd.CertificateIdsAreSorted` | pkg/controller/ingress/spec/worktree.go:729 | certificate ids of a listener are listed in ascending order |
| `EndToEnd.NoRuleIsInvented` | pkg/controller/ingress/spec/worktree.go:682-703 | every rule of the payload was asked for by an ingress of the cluster: its annotations give the port, protocol and web socket flag, its rule the host, its path the matcher, and the rule leads to the pool uid-rule-path |
| `EndToEnd.NoPoolIsInvented` | pkg/controller/ingress/spec/worktree.go:449-565 | every pool of the payload is what the service of some path, the annotations and the nodes call for |
| `EndToEnd.CertificatesComeFromIngresses` | pkg/controller/ingress/spec/worktree.go:712-728 | an HTTPS listener presents exactly the known certificates that accepted ingresses with its port have in valid secrets |
| `EndToEnd.NoFalseAlarm` | pkg/controller/ingress/spec/worktree.go:180-321 | the same for every build over objects in any order: each event names an ingress of the cluster and gives a true reason |
| `Diff.PathChanged` | pkg/controller/ingress/diff/diff.go:74-82 | differs exactly if the normalised paths do; a missing path is not an empty one |
| `Diff.HttpOptionsChanged` | pkg/controller/ingress/diff/diff.go:46-72 | the nested loops with early return compare the normalised host lists |
| `Diff.ListenersChanged` | pkg/controller/ingress/diff/diff.go:25-44 | the loop compares the normalised listener lists, in order |
| `Diff.TlsChanged` | pkg/controller/ingress/diff/diff.go:115-124 | differs exactly if the TLS settings with defaults do |
| `Diff.HealthCheckChanged` | pkg/controller/ingress/diff/diff.go:126-151 | differs exactly if the health checks with defaults do |
| `Diff.TargetsChanged` | pkg/controller/ingress/diff/diff.go:153-157 | differs exactly if the normalised target lists do |
| `Diff.TargetPoolsChanged` | pkg/controller/ingress/diff/diff.go:91-113 | differs exactly if the normalised pool lists do |
| `Diff.OptionsChanged` | pkg/controller/ingress/diff/diff.go:159-164 | only the allowed source ranges count |
| `Diff.UpdateNeeded` | pkg/controller/ingress/diff/diff.go:13-19 | an update is needed exactly if, field by field under the defaults and position by position, something that counts differs; it is the kernel of one normal form, so "not needed" is an equivalence |
| `Diff.NormalFormIff` | pkg/controller/ingress/diff/diff.go:13-164 | the normal form keeps exactly what counts: names, protocol, port, firewall, hosts, rules with matcher, web socket and pool, certificate ids, target ports, targets, TLS, health checks, source ranges, labels and plan |
| `Diff.PoolIff` | pkg/controller/ingress/diff/diff.go:91-113 | two pools count as the same exactly if name, target port, targets, TLS settings and health check do |
| `Diff.ListenerIff` | pkg/controller/ingress/diff/diff.go:25-44 | the same for listeners; missing HTTP options are not an empty host list |
| `Updates.DifferenceIsUpdated` | pkg/controller/ingress/ingressclass_controller.go:361-378 | a class is at rest and its tree changes visibly (a pool, a target port, the targets, a rule, a host, a port): the next undisturbed reconcile calls UpdateLoadBalancer |
| `Updates.NodePortChangeIsUpdated` | pkg/controller/ingress/ingressclass_controller.go:361-378 | from the cluster: the service of an admitted path gets another node port, or the path another backend with another node port, and the load balancer is updated |
| `Updates.EmptyPathsLookSameIff` | pkg/controller/ingress/diff/diff.go:74-82 | the comparison tells a prefix rule from an exact one exactly if their text is not empty |
| `Diff.SameNormalFormSameCertificates` | pkg/controller/ingress/diff/diff.go:84-89 | without a need for an update both sides name the same certificates |
| `Diff.OtherSettingsAreComparedIff` | pkg/controller/ingress/diff/diff.go:13-19 | between payloads with equal listeners and pools a difference is seen exactly if source ranges, labels or plan differ |
| `ClassChanges.AssembleNoticedIff` | pkg/controller/ingress/diff/diff.go:13-19 | payloads of two frames differ for the comparison exactly if listeners, source ranges, plan or labels do |
| `ClassChanges.WafNoticedIff` | pkg/controller/ingress/spec/worktree.go:736-742 | a change of the firewall is seen exactly if some listener is served |
| `ClassChanges.BuildIgnoresEdit` | pkg/controller/ingress/spec/worktree.go:109-324 | of the class, the tree depends only on the annotations that ingresses inherit |
| `ClassChanges.ReconcileNoticesIff` | pkg/controller/ingress/ingressclass_controller.go:361-378 | a class at rest is edited: the next undisturbed reconcile makes a call if and only if the comparison sees the edit |
| `ClassChanges.ClassEditIsNoticedIff` | pkg/controller/ingress/ingressclass_controller.go:361-378 | the same from the class object: between valid classes a call is made if and only if the source ranges change, or the firewall of a class that serves a port; there is one plan, so that cannot change |
| `ClassChanges.AddressEditIsNotNoticed` | pkg/controller/ingress/spec/annotations.go:17-22 | setting, changing or removing the external address, or switching between public and internal, causes no call at rest |
| `ClassChanges.InternalAddressIsDroppedIff` | pkg/controller/ingress/spec/worktree.go:771-774 | the payload of an internal class has no external address if and only if the class has none |
| `ClassChanges.InternalAddressIsSent` | pkg/controller/ingress/spec/annotations.go:17-22 | a valid internal class whose external address is in its payload |
| `Certificates.GetMissingCertificates` | pkg/controller/ingress/spec/worktree.go:638-656 | the certificates of the tree that no listed entry has the fingerprint of |
| `Certificates.GetUnusedCertificates` | pkg/controller/ingress/spec/worktree.go:658-664 | the known certificates that the tree does not have |
| `Certificates.IndexCertificates` | pkg/controller/ingress/ingressclass_controller.go:335-349 | the loop splits the listing into originals and duplicates, first come first kept |
| `Certificates.IndexSplits` | pkg/controller/ingress/ingressclass_controller.go:335-349 | originals and duplicates are disjoint, all listed, and a duplicate has the fingerprint of an original |
| `Certificates.IndexForgetsNothing` | pkg/controller/ingress/ingressclass_controller.go:335-349 | whatever is listed with id and fingerprint is one or the other |
| `Certificates.FirstIsOriginal` | pkg/controller/ingress/ingressclass_controller.go:335-349 | of the certificates with one fingerprint the one listed first is the original |
| `Certificates.CleanupSparesKept` | pkg/controller/ingress/ingressclass_controller.go:380-395 | no certificate that a payload may name is deleted, and only listed ones are |
| `Certificates.CleanupIsComplete` | pkg/controller/ingress/ingressclass_controller.go:380-395 | a listed certificate is deleted or it is the original for a fingerprint of the tree |
| `Safety.NextKeepsInv` | pkg/controller/ingress/ingressclass_controller.go:50-398 | every step of controller and environment keeps the invariant |
| `Safety.CleanupIsSafe` | pkg/controller/ingress/ingressclass_controller.go:351-395 | what is going to be deleted is not named by the payload that was applied or found applied |
| `Safety.EveryReachableStateIsSafe` | pkg/controller/ingress/ingressclass_controller.go:187-216 | in every state of every run: the certificates that the live load balancer names exist, and as long as the load balancer or a certificate exists so does the finalizer |
| `Safety.DeletionsAreSafe` | pkg/controller/ingress/ingressclass_controller.go:335-395 | a certificate is deleted only after the update or the verdict that none is needed, or once the load balancer is gone, and never while in use |
| `Safety.FinalizerLeavesLast` | pkg/controller/ingress/ingressclass_controller.go:218-227 | the finalizer is removed only when load balancer and certificates are gone |
| `Convergence.OneReconcileSettles` | pkg/controller/ingress/ingressclass_controller.go:308-395 | whatever earlier runs left behind, an undisturbed reconcile leaves one certificate for each fingerprint and a load balancer equal to the payload |
| `Convergence.IndexedIsOneEach` | pkg/controller/ingress/ingressclass_controller.go:313-349 | once nothing is missing, originals and cleanup split the certificates of the class as the tree needs it |
| `Convergence.SecondReconcileIsQuiet` | pkg/controller/ingress/ingressclass_controller.go:308-395 | from there a reconcile on the same inputs makes no create, update or delete call |
| `Convergence.QuietIffAtRest` | pkg/controller/ingress/ingressclass_controller.go:308-395 | an undisturbed reconcile makes no such call if and only if the class was at rest |
| `Progress.QuietRunExists` | pkg/controller/ingress/ingressclass_controller.go:50-102 | whatever certificates and whatever versioned load balancer there are, a live class has an undisturbed reconcile that goes all the way |
| `Progress.RestIsReachable` | pkg/controller/ingress/ingressclass_controller.go:308-395 | such a reconcile ends at rest |
| `Progress.UnversionedIsKept` | pkg/controller/ingress/ingressclass_controller.go:369-378 | a load balancer without version is never updated by an undisturbed reconcile |
| `Unversioned.UnversionedMustBeUpToDate` | pkg/controller/ingress/ingressclass_controller.go:361-378 | an undisturbed reconcile from a load balancer without version has found it up to date |
| `Unversioned.CanRunIff` | pkg/controller/ingress/ingressclass_controller.go:361-378 | a live class has an undisturbed reconcile that goes all the way if and only if there is no load balancer, or it has a version, or it is up to date |
| `Convergence.PayloadIsUnchanged` | pkg/controller/ingress/ingressclass_controller.go:361-378 | at rest the payload computed again equals the live load balancer, in whatever order the certificates are listed |
| `Convergence.ReconcileTwice` | pkg/controller/ingress/ingressclass_controller.go:257-398 | both layers: build and reconcile twice over the same objects in different orders; the second run changes nothing |
| `System.ControllerTouchesOnlyItsOwn` | pkg/controller/ingress/ingressclass_controller.go:476-492 | a step for one class changes no other load balancer and no certificate without its label |
| `System.ClassesDoNotCollide` | pkg/controller/ingress/spec/name.go:12-25 | valid classes have different load balancers |
| `System.EveryClassIsSafe` | pkg/controller/ingress/ingressclass_controller.go:50-102 | with any number of classes interleaving, every one of them is safe in every state |
| `System.ClassesAreIsolated` | pkg/controller/ingress/ingressclass_controller.go:476-492 | whatever the controller does for one class leaves load balancer and certificates of the others as they are |
| `Cloud.OwnedEntriesAreListing` | pkg/controller/ingress/ingressclass_controller.go:476-492 | filtering the project-wide listing by label gives each certificate of the class once |
| `Cloud.Cloud.AddFinalizer` | pkg/controller/ingress/ingressclass_controller.go:74-83 | succeeds only on the object that was read, as one protocol step, and in calm weather always on that; otherwise it may take effect and still report an error |
| `Cloud.Cloud.CreateCertificate` | pkg/controller/ingress/ingressclass_controller.go:313-333 | takes the key pair that the tree has for the fingerprint and no other; success is one protocol step with a new id; in calm weather it succeeds and reports the fingerprint of the tree |
| `Cloud.Cloud.CreateLoadBalancer` | pkg/controller/ingress/ingressclass_controller.go:352-361 | is called only with what the tree and the index stand for; success is one protocol step; in calm weather it succeeds if there is no load balancer |
| `Cloud.Cloud.UpdateLoadBalancer` | pkg/controller/ingress/ingressclass_controller.go:362-378 | is called only if the normal forms differ; success is one protocol step, so the version was the current one; in calm weather that is enough for success |
| `Cloud.Cloud.DeleteCertificate` | pkg/controller/ingress/ingressclass_controller.go:380-395 | may be called only for what remains to be cleaned up; success is one protocol step, and certain in calm weather |
| `Cloud.Cloud.RemoveFinalizer` | pkg/controller/ingress/ingressclass_controller.go:218-224 | may be called only when no certificate remains; success needs the object that was read, and in calm weather nothing else |
| `Controller.GetCertificatesForIngressClass` | pkg/controller/ingress/ingressclass_controller.go:476-492 | the loop returns a listing of the certificates of the class |
| `Controller.ApplyLoadBalancer` | pkg/controller/ingress/ingressclass_controller.go:351-378 | creates, updates or keeps the load balancer and returns it as it is then; in calm weather it only fails if an update is due and there is no version to base it on |
| `Controller.CleanUp` | pkg/controller/ingress/ingressclass_controller.go:380-395 | deletes duplicates, then unused certificates; in calm weather this completes an undisturbed reconcile |
| `Controller.ReconcileAlbResources` | pkg/controller/ingress/ingressclass_controller.go:257-398 | returns a load balancer that was live during the call, or nothing for an invalid class, which changes nothing; in calm weather it succeeds if there is a version to update from, is a complete undisturbed reconcile for the given objects, and returns the load balancer that is live at the end |
| `Controller.CheckStatus` | pkg/controller/ingress/ingressclass_controller.go:104-124 | asks to be called again exactly if the load balancer is not ready, later if it is in error |
| `Controller.StatusAddressIff` | pkg/controller/ingress/ingressclass_controller.go:127-139 | ingresses get the external address, or the private one if there is none and the load balancer is internal |
| `Controller.OutcomeIsDoneIff` | pkg/controller/ingress/ingressclass_controller.go:86-124 | done if and only if the load balancer is ready and has an address, an error if and only if it is ready without one, again after 300 seconds if and only if it is in error, after 10 seconds otherwise |
| `Controller.HandleIngressClassDeletion` | pkg/controller/ingress/ingressclass_controller.go:179-227 | done means that load balancer, certificates and finalizer are gone, in any weather; in calm weather it asks to be called again exactly as long as there is a load balancer, and that is terminating |
| `Controller.Reconcile` | pkg/controller/ingress/ingressclass_controller.go:50-102 | every reconcile is a run of the protocol. In calm weather, which is fixed from the outside: a live valid class is at rest for the given objects afterwards, nothing is called if it was before, and the outcome is done if the load balancer is ready and has an address, an error if it is ready without one, and otherwise to be called again; a live invalid class only gets its finalizer; a deleted class waits for its load balancer or ends with nothing left |
| `Stores.FakeAlb.CreateLoadBalancer` | pkg/stackit/fake/alb.go:129-161 | accepted exactly for a named payload without version under a free name, and stored |
| `Stores.FakeAlb.UpdateLoadBalancer` | pkg/stackit/fake/alb.go:163-200 | accepted exactly if it exists and the version matches; other load balancers stay |
| `Stores.StoringAPayloadSettlesIt` | pkg/stackit/fake/alb.go:204-229 | after storing a payload the comparison with it finds no difference |
| `Stores.AcceptedVersionIsUsedUp` | pkg/stackit/fake/alb.go:163-200 | of two updates based on one version only one is accepted |
| `Addresses.MaterializeFills` | pkg/stackit/fake/alb.go:204-229 | version, addresses and status that the server fills in |
| `Addresses.ClassGetsItsAddress` | pkg/stackit/fake/alb.go:204-229 | from the class object to the ingresses: they get the address the class gives, else the private one of an internal class, else the external one of the server; the class is done unless the address does not exist |
| `Stores.CertificateIdInjective` | pkg/stackit/fake/cert.go:123-157 | different counters give different ids |
| `Stores.FakeCerts.CreateCertificate` | pkg/stackit/fake/cert.go:123-157 | the id is new in every project and region, the fingerprint is that of the key pair, a bad key pair changes nothing |
| `Stores.FakeCerts.ListCertificate` | pkg/stackit/fake/cert.go:159-171 | exactly the certificates of the project and region, each once |
| `Stores.FakeCerts.DeleteCertificate` | pkg/stackit/fake/cert.go:115-121 | removes one entry and no other |
| `StoreSteps.CreateLoadBalancer` | pkg/stackit/fake/alb.go:129-161 | a create the controller may make is accepted exactly if there is no load balancer, and then it is one protocol step |
| `StoreSteps.UpdateLoadBalancer` | pkg/stackit/fake/alb.go:163-200 | an update is accepted exactly if the load balancer exists and the version is current, and then it is one protocol step |
| `StoreSteps.DeleteLoadBalancer` | pkg/stackit/fake/alb.go:119-127 | deleting is the protocol step in which the load balancer is gone at once |
| `StoreSteps.GetLoadBalancer` | pkg/stackit/fake/alb.go:107-117 | reading is the protocol step, on the way up and in teardown |
| `StoreSteps.CreateCertificate` | pkg/stackit/fake/cert.go:123-157 | an accepted certificate is a protocol step with a new id and the label of the class; with the fingerprint of the tree it is an undisturbed one |
| `StoreSteps.DeleteCertificate` | pkg/stackit/fake/cert.go:115-121 | deleting is a protocol step of cleanup or teardown |
| `StoreSteps.ListCertificate` | pkg/stackit/fake/cert.go:159-171 | the listing, filtered by label, has every certificate of the class once |
| `Triggers.IndexServiceRefs` | pkg/controller/ingress/setup.go:44-64 | the nested loops collect the default backend and the services of all paths |
| `Triggers.GetServicesForIngresses` | pkg/controller/ingress/ingressclass_controller.go:403-450 | looks up exactly the services that paths and default backends name, and returns those that exist |
| `Triggers.RequestsForReferencingIngresses` | pkg/controller/ingress/setup.go:118-143 | enqueues exactly the classes of this controller with an ingress that refers to the object |
| `Triggers.IndexCoversReads` | pkg/controller/ingress/setup.go:44-64 | the index has a service for an ingress exactly if reconciling looks it up |
| `Reads.AsksIff` | pkg/controller/ingress/ingressclass_controller.go:403-450 | a reconcile looks up a service if and only if a path or the default backend of the ingress names it, in its namespace |
| `Reads.UnreadServiceDoesNotMatter` | pkg/controller/ingress/setup.go:105-143 | a service that no ingress of the class asks for can change, come or go without any effect on tree and events |
| `Reads.UnreadSecretDoesNotMatter` | pkg/controller/ingress/setup.go:93-143 | the same for a secret that no ingress of the class names |
| `Reads.PathCountIs` | pkg/controller/ingress/spec/worktree.go:286-291 | the paths of a rule are those of its HTTP part, none without it |
| `Reads.ServiceIsFound` | pkg/controller/ingress/spec/worktree.go:119-122 | a service is found under its namespace and name |
| `Reads.SecretIsFound` | pkg/controller/ingress/spec/worktree.go:123-126 | a secret is found under its namespace and name |
| `Reads.LastOneCounts` | pkg/controller/ingress/spec/worktree.go:119-126 | of objects with one key the last one counts |
| `Triggers.ServiceRequests` | pkg/controller/ingress/setup.go:105-113 | a service event enqueues exactly the classes whose reconcile reads the service |
| `Triggers.SecretRequests` | pkg/controller/ingress/setup.go:93-102 | a secret event enqueues exactly the classes whose ingresses name it, for TLS secrets only |

## Left out

- X.509 and PEM parsing, SHA-256, CIDR and IP parsing, reading numbers and booleans from annotations: the outcomes are inputs (`Annotation`, `Secret.fingerprint`, `SourceRange.isCidr`, `externalIPIsV4`).
- Real HTTP clients, error wrapping, metrics, logging, event texts, configuration files and the program entry point.
- The patches of `updateStatus` and `wipeIngressStatus` to the status of ingresses. The address and the outcome that the load balancer leads to are modelled, the texts of events are not.
- Paging of the certificate listing: one listing is one snapshot. Entries without id are covered by the index loop only.
- Cache staleness, watch delivery and leader election; also calls that take effect after they timed out and the next run began.
- Reading the cluster: ingresses, secrets, services and nodes are arguments of `Controller.Reconcile`; how services are looked up is in `Triggers`.
- The handlers of node, ingress and class events, and `ingressClassPredicate`: one-line conditions.
- Serving `defaultBackend`: the controller looks the service up but does not route to it either.
- Path types other than the three known ones. Matchers within a host are not claimed to be distinct: `Exact` and `ImplementationSpecific` on one path compile to the same matcher.
- WAF, access control and observability contents, which pass through; the name of a certificate and of a target stay as they are.
- A protocol string other than HTTP and HTTPS; an unset protocol is kept distinct from both.
- Sorting.SortFunc: an insertion sort stands for the library sort. Everything relies on its contract only, which promises neither stability nor an order for comparisons that are not strict weak orders.
- Cloud.Cloud.Interfere: its contract allows every environment; its body does nothing. The protocol, not this body, is what the theorems quantify over.
- Load balancer deletion takes time in the protocol, as the controller expects, although it is immediate in the in-memory store.
- Mutexes, deep copies and panics of the in-memory stores, their read-only accessors, and `GetCertificate`, which the controller does not call.
- The time a reconcile takes: `Controller.Reconcile` terminates, but nothing bounds how often it is called.
