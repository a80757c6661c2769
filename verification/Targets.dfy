/** Which nodes become targets, and when a node update may be ignored. */
module Targets {
  import opened Options
  import opened Kube
  import opened Sorting
  import opened Tree
  import Api = AlbApi

  const TAINT_TO_BE_DELETED := "ToBeDeletedByClusterAutoscaler"
  const CONDITION_TERMINATING := "Terminating"
  const CONDITION_TRUE := "True"
  const INTERNAL_IP := "InternalIP"

  function GetTaint(taints: seq<Taint>, key: string): Option<Taint> {
    if taints == [] then None
    else if taints[0].key == key then Some(taints[0])
    else GetTaint(taints[1..], key)
  }

  function GetCondition(conditions: seq<Condition>, kind: string): Option<Condition> {
    if conditions == [] then None
    else if conditions[0].kind == kind then Some(conditions[0])
    else GetCondition(conditions[1..], kind)
  }

  predicate IsTerminating(node: Node) {
    var condition := GetCondition(node.conditions, CONDITION_TERMINATING);
    || GetTaint(node.taints, TAINT_TO_BE_DELETED).Some?
    || (condition.Some? && condition.value.status == CONDITION_TRUE)
  }

  function FirstInternalIP(addresses: seq<Address>): Option<string> {
    if addresses == [] then None
    else if addresses[0].kind == INTERNAL_IP then Some(addresses[0].address)
    else FirstInternalIP(addresses[1..])
  }

  /** What the selection can see of a node: `ip` is the address it would be reached at, if it qualifies. */
  datatype Candidate = Candidate(name: string, created: int, ip: Option<string>)

  function CandidateOf(node: Node): Candidate {
    Candidate(node.name, node.created, if IsTerminating(node) then None else FirstInternalIP(node.addresses))
  }

  function Candidates(nodes: seq<Node>): seq<Candidate> {
    Map(CandidateOf, nodes)
  }

  function TargetOf(c: Candidate): Api.Target {
    Api.Target(Some(c.name), c.ip)
  }

  predicate Younger(a: Candidate, b: Candidate) { a.created > b.created }

  predicate YoungerNode(a: Node, b: Node) { a.created > b.created }

  predicate LowerIp(a: Api.Target, b: Api.Target) { StrLess(a.ip.GetOr(""), b.ip.GetOr("")) }

  /** The qualifying candidates, in order. */
  function Eligible(cs: seq<Candidate>): (r: seq<Candidate>)
    ensures forall i | 0 <= i < |r| :: r[i].ip.Some?
  {
    if cs == [] then []
    else if cs[0].ip.Some? then [cs[0]] + Eligible(cs[1..])
    else Eligible(cs[1..])
  }

  function Chosen(order: seq<Candidate>): seq<Candidate> {
    var all := Eligible(order);
    if |all| <= LIMIT_TARGETS_PER_POOL then all else all[..LIMIT_TARGETS_PER_POOL]
  }

  ghost predicate IsSelection(cs: seq<Candidate>, order: seq<Candidate>, targets: seq<Api.Target>) {
    && multiset(order) == multiset(cs) && Sorted(Younger, order)
    && multiset(targets) == multiset(Map(TargetOf, Chosen(order))) && Sorted(LowerIp, targets)
  }

  /** `targets` is a possible outcome for these candidates; ties may be broken either way. */
  ghost predicate IsTargets(cs: seq<Candidate>, targets: seq<Api.Target>) {
    exists order :: IsSelection(cs, order, targets)
  }

  // ---- the algorithm ----

  lemma {:induction false} EligibleSplits(xs: seq<Candidate>, ys: seq<Candidate>)
    ensures Eligible(xs + ys) == Eligible(xs) + Eligible(ys)
  {
    if xs == [] {
      assert xs + ys == ys;
    } else {
      assert (xs + ys)[1..] == xs[1..] + ys;
      EligibleSplits(xs[1..], ys);
    }
  }

  lemma EligibleSnoc(order: seq<Candidate>, i: nat)
    requires i < |order|
    ensures Eligible(order[..i + 1]) == Eligible(order[..i]) + (if order[i].ip.Some? then [order[i]] else [])
  {
    assert order[..i + 1] == order[..i] + [order[i]];
    EligibleSplits(order[..i], [order[i]]);
    assert Eligible([order[i]][1..]) == [];
  }

  lemma EmptyEligible()
    ensures Eligible([]) == []
  {
  }

  lemma NextTarget(order: seq<Candidate>, i: nat)
    requires i < |order|
    ensures Map(TargetOf, Eligible(order[..i + 1]))
            == Map(TargetOf, Eligible(order[..i])) + (if order[i].ip.Some? then [TargetOf(order[i])] else [])
  {
    EligibleSnoc(order, i);
  }

  lemma ChosenFromPrefix(order: seq<Candidate>, i: nat)
    requires i <= |order| && (i == |order| || |Eligible(order[..i])| >= LIMIT_TARGETS_PER_POOL)
    requires |Eligible(order[..i])| <= LIMIT_TARGETS_PER_POOL
    ensures Chosen(order) == Eligible(order[..i])
  {
    assert order == order[..i] + order[i..];
    EligibleSplits(order[..i], order[i..]);
    if i == |order| { assert order[..i] == order; }
  }

  lemma YoungerIsWeak(dom: set<Node>, targets: set<Api.Target>)
    ensures WeakOrder(YoungerNode, dom) && WeakOrder(LowerIp, targets)
  {
    StrTotal();
  }

  method GetTargetsOfNodes(nodes: array<Node>) returns (targets: seq<Api.Target>)
    modifies nodes
    ensures multiset(nodes[..]) == multiset(old(nodes[..]))
    ensures IsTargets(Candidates(old(nodes[..])), targets)
  {
    hide Eligible, IsTargets, GetTaint, GetCondition, FirstInternalIP, Sorted, WeakOrder, Chosen;
    ghost var given := nodes[..];
    SortFunc(nodes, YoungerNode);
    ghost var sorted := nodes[..];
    ghost var order := Candidates(sorted);
    assert order[..0] == [] && Eligible([]) == [] by { EmptyEligible(); }
    targets := [];
    var i := 0;
    while i < nodes.Length && |targets| < LIMIT_TARGETS_PER_POOL
      invariant 0 <= i <= nodes.Length && |targets| <= LIMIT_TARGETS_PER_POOL
      invariant nodes[..] == sorted
      invariant targets == Map(TargetOf, Eligible(order[..i]))
    {
      var node := nodes[i];
      NextTarget(order, i);
      assert order[i] == CandidateOf(sorted[i]) == CandidateOf(node);
      if !IsTerminating(node) {
        var address := FirstInternalIP(node.addresses);
        if address.Some? {
          targets := targets + [Api.Target(Some(node.name), address)];
        }
      }
      i := i + 1;
    }
    ChosenFromPrefix(order, i);
    assert targets == Map(TargetOf, Chosen(order));
    ghost var unsorted := targets;
    targets := SortSlice(targets, LowerIp);
    SelectionFound(given, sorted, unsorted, targets);
  }

  lemma SelectionFound(given: seq<Node>, sorted: seq<Node>, unsorted: seq<Api.Target>, targets: seq<Api.Target>)
    requires multiset(sorted) == multiset(given)
    requires WeakOrder(YoungerNode, Elems(multiset(given))) ==> Sorted(YoungerNode, sorted)
    requires unsorted == Map(TargetOf, Chosen(Candidates(sorted))) && multiset(targets) == multiset(unsorted)
    requires WeakOrder(LowerIp, Elems(multiset(unsorted))) ==> Sorted(LowerIp, targets)
    ensures IsTargets(Candidates(given), targets)
  {
    YoungerIsWeak(Elems(multiset(given)), Elems(multiset(unsorted)));
    MapPermutes(CandidateOf, sorted, given);
    assert IsSelection(Candidates(given), Candidates(sorted), targets);
  }

  // ---- what a selection is ----

  /** How often a candidate occurs among the eligible ones. */
  lemma {:induction false} EligibleCount(cs: seq<Candidate>, c: Candidate)
    ensures multiset(Eligible(cs))[c] == if c.ip.Some? then multiset(cs)[c] else 0
  {
    if cs != [] {
      assert cs == [cs[0]] + cs[1..];
      assert multiset(cs) == multiset{cs[0]} + multiset(cs[1..]);
      EligibleCount(cs[1..], c);
      assert cs[0].ip.Some? ==> multiset(Eligible(cs)) == multiset{cs[0]} + multiset(Eligible(cs[1..]));
    }
  }

  lemma EligiblePermutes(xs: seq<Candidate>, ys: seq<Candidate>)
    requires multiset(xs) == multiset(ys)
    ensures multiset(Eligible(xs)) == multiset(Eligible(ys)) && |Eligible(xs)| == |Eligible(ys)|
  {
    forall c ensures multiset(Eligible(xs))[c] == multiset(Eligible(ys))[c] {
      EligibleCount(xs, c);
      EligibleCount(ys, c);
    }
    assert multiset(Eligible(xs)) == multiset(Eligible(ys));
    assert |multiset(Eligible(xs))| == |Eligible(xs)| && |multiset(Eligible(ys))| == |Eligible(ys)|;
  }

  lemma {:induction false} EligibleBelow(order: seq<Candidate>, lo: int)
    requires forall k | 0 <= k < |order| :: order[k].created <= lo
    ensures forall i | 0 <= i < |Eligible(order)| :: Eligible(order)[i].created <= lo
  {
    if order != [] { EligibleBelow(order[1..], lo); }
  }

  lemma {:induction false} EligibleSorted(order: seq<Candidate>)
    requires Sorted(Younger, order)
    ensures Sorted(Younger, Eligible(order))
  {
    if order != [] {
      EligibleSorted(order[1..]);
      forall k | 0 <= k < |order[1..]| ensures order[1..][k].created <= order[0].created {
        assert !Younger(order[k + 1], order[0]);
      }
      EligibleBelow(order[1..], order[0].created);
    }
  }

  /** The chosen candidates are as many of the eligible ones as the limit allows, each used once, and nobody
      left out is strictly younger than somebody chosen; the targets list them by address. */
  ghost predicate YoungestFirst(cs: seq<Candidate>, chosen: seq<Candidate>, omitted: seq<Candidate>,
                                targets: seq<Api.Target>) {
    && multiset(chosen) + multiset(omitted) == multiset(Eligible(cs))
    && |chosen| == (if |Eligible(cs)| <= 250 then |Eligible(cs)| else 250)
    && (forall i, k | 0 <= i < |chosen| && 0 <= k < |omitted| :: omitted[k].created <= chosen[i].created)
    && multiset(targets) == multiset(Map(TargetOf, chosen)) && Sorted(LowerIp, targets)
  }

  lemma TargetsAreTheYoungest(cs: seq<Candidate>, targets: seq<Api.Target>)
    requires IsTargets(cs, targets)
    ensures exists chosen, omitted :: YoungestFirst(cs, chosen, omitted, targets)
  {
    var order :| IsSelection(cs, order, targets);
    EligiblePermutes(order, cs);
    EligibleSorted(order);
    var all, chosen := Eligible(order), Chosen(order);
    var omitted := all[|chosen|..];
    assert all == chosen + omitted;
    forall i, k | 0 <= i < |chosen| && 0 <= k < |omitted| ensures omitted[k].created <= chosen[i].created {
      assert !Younger(all[|chosen| + k], all[i]);
    }
    assert multiset(chosen) + multiset(omitted) == multiset(Eligible(cs));
    assert YoungestFirst(cs, chosen, omitted, targets);
  }

  lemma TargetsWithinLimit(cs: seq<Candidate>, targets: seq<Api.Target>)
    requires IsTargets(cs, targets)
    ensures |targets| <= LIMIT_TARGETS_PER_POOL
    ensures forall t | t in targets :: t.ip.Some?
  {
    var order :| IsSelection(cs, order, targets);
    var picked := Map(TargetOf, Chosen(order));
    assert |targets| == |multiset(targets)| == |multiset(picked)| == |picked|;
    forall t | t in targets ensures t.ip.Some? {
      assert t in multiset(picked);
      var i :| 0 <= i < |picked| && picked[i] == t;
    }
  }

  // ---- when the outcome is unique ----

  /** No two eligible candidates share an address, and beyond the limit no two share a creation time. */
  ghost predicate Untied(cs: seq<Candidate>) {
    && (forall x, y | x in Eligible(cs) && y in Eligible(cs) && x != y :: x.ip != y.ip)
    && (|Eligible(cs)| > LIMIT_TARGETS_PER_POOL ==>
          forall x, y | x in Eligible(cs) && y in Eligible(cs) && x != y :: x.created != y.created)
  }

  lemma SameChosen(cs: seq<Candidate>, o: seq<Candidate>, o': seq<Candidate>)
    requires multiset(o) == multiset(cs) == multiset(o') && Sorted(Younger, o) && Sorted(Younger, o') && Untied(cs)
    ensures multiset(Chosen(o)) == multiset(Chosen(o'))
  {
    EligiblePermutes(o, cs);
    EligiblePermutes(o', cs);
    if |Eligible(cs)| > LIMIT_TARGETS_PER_POOL {
      EligibleSorted(o);
      EligibleSorted(o');
      var dom := set x | x in Eligible(cs);
      forall i | 0 <= i < |Eligible(o)| ensures Eligible(o)[i] in dom {
        assert Eligible(o)[i] in multiset(Eligible(o));
      }
      SortedUnique(Younger, Eligible(o), Eligible(o'), dom);
    }
  }

  /** Neither the order in which nodes are listed nor how sorting breaks ties can change the targets. */
  lemma TargetsAreCanonical(cs: seq<Candidate>, cs': seq<Candidate>, ts: seq<Api.Target>, ts': seq<Api.Target>)
    requires multiset(cs) == multiset(cs') && Untied(cs) && IsTargets(cs, ts) && IsTargets(cs', ts')
    ensures ts == ts'
  {
    var o :| IsSelection(cs, o, ts);
    var o' :| IsSelection(cs', o', ts');
    SameChosen(cs, o, o');
    MapPermutes(TargetOf, Chosen(o), Chosen(o'));
    var dom := set t | t in Map(TargetOf, Chosen(o));
    forall i | 0 <= i < |ts| ensures ts[i] in dom {
      assert ts[i] in multiset(ts);
    }
    DistinctIps(cs, o);
    SortedUnique(LowerIp, ts, ts', dom);
  }

  lemma DistinctIps(cs: seq<Candidate>, o: seq<Candidate>)
    requires multiset(o) == multiset(cs) && Untied(cs)
    ensures NoTies(LowerIp, set t | t in Map(TargetOf, Chosen(o)))
  {
    StrTotal();
    EligiblePermutes(o, cs);
    var picked := Map(TargetOf, Chosen(o));
    forall t, u | t in picked && u in picked && t != u ensures LowerIp(t, u) || LowerIp(u, t) {
      var i :| 0 <= i < |picked| && picked[i] == t;
      var k :| 0 <= k < |picked| && picked[k] == u;
      var x, y := Chosen(o)[i], Chosen(o)[k];
      assert x in Eligible(o) && y in Eligible(o);
      assert x in multiset(Eligible(cs)) && y in multiset(Eligible(cs));
      assert x.ip != y.ip;
    }
  }

  // ---- the filter on node events ----

  /** The update of a node is worth a reconcile. */
  predicate NodeUpdateMatters(old_: Node, new_: Node) {
    || old_.addresses != new_.addresses
    || GetTaint(old_.taints, TAINT_TO_BE_DELETED) != GetTaint(new_.taints, TAINT_TO_BE_DELETED)
    || GetCondition(old_.conditions, CONDITION_TERMINATING) != GetCondition(new_.conditions, CONDITION_TERMINATING)
  }

  /** Ignoring a filtered update is sound: the possible targets of the whole cluster stay exactly the same. */
  lemma IgnoredNodeUpdateKeepsTargets(nodes: seq<Node>, i: nat, updated: Node, targets: seq<Api.Target>)
    requires i < |nodes| && !NodeUpdateMatters(nodes[i], updated)
    requires updated.name == nodes[i].name && updated.created == nodes[i].created
    ensures IsTargets(Candidates(nodes), targets) <==> IsTargets(Candidates(nodes[i := updated]), targets)
  {
    assert CandidateOf(nodes[i]) == CandidateOf(updated);
    assert Candidates(nodes) == Candidates(nodes[i := updated]);
  }

  // ---- nodes ----

  /** Entry `i` is the first with this property. */
  ghost predicate IsFirst<T(!new)>(s: seq<T>, has: T -> bool, i: nat) {
    i < |s| && has(s[i]) && forall j | 0 <= j < i :: !has(s[j])
  }

  predicate SaysTerminating(c: Condition) { c.kind == "Terminating" }

  predicate IsInternal(a: Address) { a.kind == "InternalIP" }

  /** The autoscaler is about to delete the node, or its first condition of that type says that it terminates. */
  ghost predicate Leaves(node: Node) {
    || (exists i :: 0 <= i < |node.taints| && node.taints[i].key == "ToBeDeletedByClusterAutoscaler")
    || (exists i: nat :: IsFirst(node.conditions, SaysTerminating, i)
                         && node.conditions[i].status == "True")
  }

  /** The node is reached at its first internal address. */
  ghost predicate HasInternalIP(node: Node, ip: string) {
    exists i: nat ::
      IsFirst(node.addresses, IsInternal, i) && node.addresses[i].address == ip
  }

  lemma IsFirstTail<T(!new)>(s: seq<T>, has: T -> bool, i: nat)
    requires s != [] && !has(s[0])
    ensures IsFirst(s, has, i + 1) <==> IsFirst(s[1..], has, i)
    ensures !IsFirst(s, has, 0)
  {
    assert forall j | 0 <= j < |s| - 1 :: s[1..][j] == s[j + 1];
    if IsFirst(s[1..], has, i) {
      forall j | 0 <= j < i + 1 ensures !has(s[j]) { assert j > 0 ==> s[j] == s[1..][j - 1]; }
    }
  }

  lemma {:induction false} TaintIff(taints: seq<Taint>, key: string)
    ensures GetTaint(taints, key).Some? <==> exists i :: 0 <= i < |taints| && taints[i].key == key
  {
    if taints != [] {
      TaintIff(taints[1..], key);
      assert forall i | 0 < i < |taints| :: taints[i] == taints[1..][i - 1];
    }
  }

  lemma {:induction false} ConditionIff(conditions: seq<Condition>, c: Condition)
    ensures GetCondition(conditions, "Terminating") == Some(c)
            <==> exists i: nat :: IsFirst(conditions, SaysTerminating, i) && conditions[i] == c
  {
    var has := SaysTerminating;
    if conditions != [] {
      if has(conditions[0]) {
        assert IsFirst(conditions, has, 0);
      } else {
        ConditionIff(conditions[1..], c);
        forall i: nat { IsFirstTail(conditions, has, i); }
        if i: nat :| IsFirst(conditions, has, i) && conditions[i] == c {
          assert i > 0 && conditions[i] == conditions[1..][i - 1] && IsFirst(conditions[1..], has, i - 1);
        }
        if i: nat :| IsFirst(conditions[1..], has, i) && conditions[1..][i] == c {
          assert conditions[i + 1] == c && IsFirst(conditions, has, i + 1);
        }
      }
    }
  }

  lemma {:induction false} InternalIPIff(addresses: seq<Address>, ip: string)
    ensures FirstInternalIP(addresses) == Some(ip)
      <==> exists i: nat :: IsFirst(addresses, IsInternal, i) && addresses[i].address == ip
  {
    var has := IsInternal;
    if addresses != [] {
      if has(addresses[0]) {
        assert IsFirst(addresses, has, 0);
      } else {
        InternalIPIff(addresses[1..], ip);
        forall i: nat { IsFirstTail(addresses, has, i); }
        if i: nat :| IsFirst(addresses, has, i) && addresses[i].address == ip {
          assert i > 0 && addresses[i] == addresses[1..][i - 1] && IsFirst(addresses[1..], has, i - 1);
        }
        if i: nat :| IsFirst(addresses[1..], has, i) && addresses[1..][i].address == ip {
          assert addresses[i + 1].address == ip && IsFirst(addresses, has, i + 1);
        }
      }
    }
  }

  lemma TerminatingIff(node: Node)
    ensures IsTerminating(node) <==> Leaves(node)
  {
    hide GetTaint, GetCondition;
    TaintIff(node.taints, "ToBeDeletedByClusterAutoscaler");
    var conditions, condition := node.conditions, GetCondition(node.conditions, "Terminating");
    if condition.Some? { ConditionIff(conditions, condition.value); }
    if i: nat :| IsFirst(conditions, SaysTerminating, i) && conditions[i].status == "True" {
      ConditionIff(conditions, conditions[i]);
    }
  }

  /** A node is a candidate under its name and age, and it qualifies with an address exactly if it stays and this is its
      first internal address. */
  lemma CandidateIff(node: Node, ip: string)
    ensures CandidateOf(node).name == node.name && CandidateOf(node).created == node.created
    ensures CandidateOf(node).ip == Some(ip) <==> !Leaves(node) && HasInternalIP(node, ip)
  {
    hide IsTerminating, FirstInternalIP, IsFirst, Leaves;
    TerminatingIff(node);
    InternalIPIff(node.addresses, ip);
  }

  /** Every target is a node that stays, under its name and first internal address. */
  lemma TargetsAreNodes(nodes: seq<Node>, targets: seq<Api.Target>, t: Api.Target)
    requires IsTargets(Candidates(nodes), targets) && t in targets
    ensures exists node, ip :: node in nodes && !Leaves(node) && HasInternalIP(node, ip)
                               && t == Api.Target(Some(node.name), Some(ip))
  {
    hide Eligible, Leaves, HasInternalIP, IsTerminating, FirstInternalIP;
    var order :| IsSelection(Candidates(nodes), order, targets);
    var picked := Map(TargetOf, Chosen(order));
    assert t in multiset(picked);
    var i :| 0 <= i < |picked| && picked[i] == t;
    var c := Chosen(order)[i];
    EligibleCount(order, c);
    assert c in multiset(Eligible(order));
    assert c in multiset(Candidates(nodes));
    var k :| 0 <= k < |nodes| && Candidates(nodes)[k] == c;
    CandidateIff(nodes[k], c.ip.value);
  }

  /** Targets are listed by address, in ascending order. */
  lemma TargetsAreSorted(cs: seq<Candidate>, targets: seq<Api.Target>, i: nat, j: nat)
    requires IsTargets(cs, targets) && i < j < |targets|
    ensures targets[i].ip.Some? && targets[j].ip.Some? && !StrLess(targets[j].ip.value, targets[i].ip.value)
  {
    TargetsWithinLimit(cs, targets);
    assert targets[i] in targets && targets[j] in targets;
    var order :| IsSelection(cs, order, targets);
    assert !LowerIp(targets[j], targets[i]);
  }

  /** A node update is ignored exactly if addresses, the taint of the autoscaler and the termination condition are the
      same; everything else about a node may change. */
  lemma UpdateIsIgnoredIff(before: Node, after: Node)
    ensures !NodeUpdateMatters(before, after)
            <==> && before.addresses == after.addresses
                 && GetTaint(before.taints, "ToBeDeletedByClusterAutoscaler")
                    == GetTaint(after.taints, "ToBeDeletedByClusterAutoscaler")
                 && GetCondition(before.conditions, "Terminating") == GetCondition(after.conditions, "Terminating")
  {
  }
}
