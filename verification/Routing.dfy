/** First match over the sorted rules of a host is a lookup of the most specific path. */
module Routing {
  import opened Options
  import opened Kube
  import opened Sorting
  import opened Tree
  import opened TreeProperties
  import opened Payload
  import Api = AlbApi

  // ---- how the load balancer reads its rules ----

  predicate RuleMatches(rule: Api.Rule, request: string) {
    rule.path.Some? &&
    (rule.path.value.exactMatch == Some(request)
     || (rule.path.value.prefix.Some? && rule.path.value.prefix.value <= request))
  }

  function FirstMatch(rules: seq<Api.Rule>, request: string): Option<string> {
    if rules == [] then None
    else if RuleMatches(rules[0], request) then rules[0].targetPool
    else FirstMatch(rules[1..], request)
  }

  // ---- the lookup that users are promised ----

  /** The longest prefix of the request, of at most `n` characters, that is a key. */
  function LongestPrefix(keys: set<PathKey>, request: string, n: nat): Option<PathKey>
    requires n <= |request|
  {
    if PathKey(Prefix, request[..n]) in keys then Some(PathKey(Prefix, request[..n]))
    else if n == 0 then None
    else LongestPrefix(keys, request, n - 1)
  }

  function MostSpecific(keys: set<PathKey>, request: string): Option<PathKey> {
    if PathKey(Exact, request) in keys then Some(PathKey(Exact, request))
    else if PathKey(ImplementationSpecific, request) in keys then Some(PathKey(ImplementationSpecific, request))
    else LongestPrefix(keys, request, |request|)
  }

  /** The pool of the most specific path stored for the port and host. */
  function LookupPool(t: WorkTree, port: nat, host: string, request: string): Option<string> {
    var best := MostSpecific(KeysAt(t, port, host), request);
    if best.None? then None else Some(PathAt(t, Slot(port, host, best.value)).ref.PoolName())
  }

  // ---- they agree ----

  predicate KeyMatches(k: PathKey, request: string) {
    if k.pathType == Prefix then k.path <= request else k.path == request
  }

  lemma {:induction false} LongestPrefixIsLongest(keys: set<PathKey>, request: string, n: nat)
    requires n <= |request|
    ensures var best := LongestPrefix(keys, request, n);
      && (best.Some? ==> best.value in keys && best.value.pathType == Prefix && best.value.path <= request)
      && (forall k | k in keys && k.pathType == Prefix && k.path <= request && |k.path| <= n ::
            best.Some? && |k.path| <= |best.value.path|)
  {
    if PathKey(Prefix, request[..n]) !in keys {
      forall k | k in keys && k.pathType == Prefix && k.path <= request && |k.path| <= n
        ensures n > 0 && |k.path| <= n - 1
      {
        assert k.path == request[..|k.path|];
      }
      if n > 0 { LongestPrefixIsLongest(keys, request, n - 1); }
    }
  }

  /** The most specific key matches, and comes before every other key that matches. */
  lemma MostSpecificComesFirst(keys: set<PathKey>, request: string)
    ensures var best := MostSpecific(keys, request);
      && (best.Some? ==> best.value in keys && KeyMatches(best.value, request))
      && (forall k | k in keys && KeyMatches(k, request) :: best.Some? && (k == best.value || KeyBefore(best.value, k)))
  {
    LongestPrefixIsLongest(keys, request, |request|);
    forall k | k in keys && KeyMatches(k, request)
      ensures var best := MostSpecific(keys, request); best.Some? && (k == best.value || KeyBefore(best.value, k))
    {
      if k.pathType == Prefix {
        assert |k.path| <= |request| && k.path == request[..|k.path|];
      } else {
        assert k == PathKey(k.pathType, request);
      }
    }
  }

  ghost predicate IsFirstMatch(ks: seq<PathKey>, request: string, i: nat) {
    i < |ks| && KeyMatches(ks[i], request) && forall j | 0 <= j < i :: !KeyMatches(ks[j], request)
  }

  ghost predicate NoMatch(ks: seq<PathKey>, request: string) {
    forall i | 0 <= i < |ks| :: !KeyMatches(ks[i], request)
  }

  /** Key `i` is the first that matches, and the rules made from the keys lead to its pool. */
  ghost predicate FoundAt(t: WorkTree, port: nat, host: string, request: string, ks: seq<PathKey>, i: nat) {
    && IsFirstMatch(ks, request, i)
    && FirstMatch(Map((k: PathKey) => RuleOf(PathAt(t, Slot(port, host, k))), ks), request)
       == Some(PathAt(t, Slot(port, host, ks[i])).ref.PoolName())
  }

  lemma MatchLater(ks: seq<PathKey>, request: string)
    requires ks != [] && !KeyMatches(ks[0], request)
    ensures NoMatch(ks[1..], request) ==> NoMatch(ks, request)
    ensures forall i: nat | IsFirstMatch(ks[1..], request, i) :: IsFirstMatch(ks, request, i + 1)
  {
    hide KeyMatches;
    assert ks == [ks[0]] + ks[1..];
  }

  lemma {:induction false} FirstMatchInOrder(t: WorkTree, port: nat, host: string, request: string, ks: seq<PathKey>)
    requires forall i | 0 <= i < |ks| ::
               Slot(port, host, ks[i]) in t.paths && t.paths[Slot(port, host, ks[i])].key == ks[i]
    ensures var rules := Map((k: PathKey) => RuleOf(PathAt(t, Slot(port, host, k))), ks);
      || (FirstMatch(rules, request) == None && NoMatch(ks, request))
      || exists i: nat :: FoundAt(t, port, host, request, ks, i)
  {
    hide Names.PoolName;
    var f := (k: PathKey) => RuleOf(PathAt(t, Slot(port, host, k)));
    var rules := Map(f, ks);
    if ks != [] {
      assert RuleMatches(rules[0], request) <==> KeyMatches(ks[0], request);
      assert rules[1..] == Map(f, ks[1..]);
      FirstMatchInOrder(t, port, host, request, ks[1..]);
      hide RuleMatches, KeyMatches, IsFirstMatch, NoMatch;
      if KeyMatches(ks[0], request) {
        assert FoundAt(t, port, host, request, ks, 0) by { StartsWithMatch(ks, request); }
      } else {
        MatchLater(ks, request);
        if !NoMatch(ks[1..], request) || FirstMatch(rules[1..], request) != None {
          var i: nat :| FoundAt(t, port, host, request, ks[1..], i);
          assert FoundAt(t, port, host, request, ks, i + 1);
        }
      }
    }
  }

  lemma StartsWithMatch(ks: seq<PathKey>, request: string)
    requires ks != [] && KeyMatches(ks[0], request)
    ensures IsFirstMatch(ks, request, 0)
  {
  }

  /** Evaluating the sorted rules top to bottom finds exactly the most specific path of the tree. */
  lemma RoutingIsMostSpecific(t: WorkTree, port: nat, host: string, request: string)
    requires PathsInv(t)
    ensures FirstMatch(Rules(t, port, host), request) == LookupPool(t, port, host, request)
  {
    var keys := KeysAt(t, port, host);
    var ks := SortKeys(keys);
    KeyBeforeTotal();
    SortOfSet(keys, KeyBefore);
    forall i | 0 <= i < |ks|
      ensures Slot(port, host, ks[i]) in t.paths && t.paths[Slot(port, host, ks[i])].key == ks[i]
    {
      assert ks[i] in keys;
      var slot :| slot in t.paths && slot.port == port && slot.host == host && slot.key == ks[i];
      assert slot == Slot(port, host, ks[i]);
    }
    FirstMatchInOrder(t, port, host, request, ks);
    MostSpecificComesFirst(keys, request);
    FirstIsBest(keys, ks, request, MostSpecific(keys, request));
  }

  lemma FirstIsBest(keys: set<PathKey>, ks: seq<PathKey>, request: string, best: Option<PathKey>)
    requires forall x :: x in ks <==> x in keys
    requires forall i, j | 0 <= i < j < |ks| :: KeyBefore(ks[i], ks[j])
    requires best.Some? ==> best.value in keys && KeyMatches(best.value, request)
    requires forall k | k in keys && KeyMatches(k, request) ::
               best.Some? && (k == best.value || KeyBefore(best.value, k))
    ensures best.None? ==> NoMatch(ks, request)
    ensures forall i: nat | IsFirstMatch(ks, request, i) :: best == Some(ks[i])
  {
    KeyBeforeTotal();
    forall i: nat | IsFirstMatch(ks, request, i) ensures best == Some(ks[i]) {
      assert ks[i] in keys && best.value in ks;
      var j :| 0 <= j < |ks| && ks[j] == best.value;
    }
  }
}
