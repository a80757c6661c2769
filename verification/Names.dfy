/** The names the controller gives to load balancers and target pools. */
module Names {

  import opened Options

  // ---- decimal numbers, as printed by the %d verb ----

  function Decimal(n: nat): (s: string)
    ensures |s| > 0 && forall i | 0 <= i < |s| :: '0' <= s[i] <= '9'
  {
    var last := '0' + (n % 10) as char;
    if n < 10 then [last] else Decimal(n / 10) + [last]
  }

  function FromDecimal(s: string): nat {
    if s == [] then 0
    else
      var d := s[|s| - 1];
      10 * FromDecimal(s[..|s| - 1]) + (if '0' <= d <= '9' then d as int - '0' as int else 0)
  }

  lemma {:induction false} DecimalRoundTrip(n: nat)
    ensures FromDecimal(Decimal(n)) == n
  {
    var s := Decimal(n);
    var d := s[|s| - 1];
    assert d as int == '0' as int + n % 10;
    if n >= 10 {
      assert s[..|s| - 1] == Decimal(n / 10);
      DecimalRoundTrip(n / 10);
    } else {
      assert s[..|s| - 1] == [];
    }
  }

  lemma DecimalInjective(m: nat, n: nat)
    requires Decimal(m) == Decimal(n)
    ensures m == n
  {
    DecimalRoundTrip(m);
    DecimalRoundTrip(n);
  }

  // ---- target pool names: <uid>-<rule>-<path> ----

  function PoolName(uid: string, rule: nat, path: nat): string {
    uid + "-" + Decimal(rule) + "-" + Decimal(path)
  }

  /** The position of the last dash, or |s| when there is none. */
  function LastDash(s: string): (k: nat)
    ensures k <= |s|
    ensures k < |s| ==> s[k] == '-' && forall i | k < i < |s| :: s[i] != '-'
    ensures k == |s| ==> '-' !in s
  {
    if s == [] then 0
    else if s[|s| - 1] == '-' then |s| - 1
    else
      var k := LastDash(s[..|s| - 1]);
      if k == |s| - 1 then |s| else k
  }

  datatype PoolNameParts = PoolNameParts(uid: string, rule: nat, path: nat)

  /** Reads a pool name from the right, so that dashes inside the uid do not matter. */
  function ParsePoolName(s: string): Option<PoolNameParts> {
    var k := LastDash(s);
    if k == |s| then None
    else
      var j := LastDash(s[..k]);
      if j == k then None
      else Some(PoolNameParts(s[..j], FromDecimal(s[j + 1..k]), FromDecimal(s[k + 1..])))
  }

  lemma {:induction false} LastDashOf(a: string, d: string)
    requires '-' !in d
    ensures LastDash(a + "-" + d) == |a|
  {
    var s := a + "-" + d;
    if d != [] {
      var shorter := d[..|d| - 1];
      assert s[..|s| - 1] == a + "-" + shorter && s[|s| - 1] == d[|d| - 1];
      LastDashOf(a, shorter);
    }
  }

  lemma SplitAtLastDash(s: string, a: string, d: string)
    requires s == a + "-" + d && '-' !in d
    ensures LastDash(s) == |a| < |s| && s[..|a|] == a && s[|a| + 1..] == d
  {
    LastDashOf(a, d);
  }

  lemma ParsePoolNameInvertsPoolName(uid: string, rule: nat, path: nat)
    ensures ParsePoolName(PoolName(uid, rule, path)) == Some(PoolNameParts(uid, rule, path))
  {
    var left := uid + "-" + Decimal(rule);
    SplitAtLastDash(PoolName(uid, rule, path), left, Decimal(path));
    SplitAtLastDash(left, uid, Decimal(rule));
    var s := PoolName(uid, rule, path);
    assert s[|uid| + 1..|left|] == left[|uid| + 1..] && s[..|uid|] == left[..|uid|];
    DecimalRoundTrip(rule);
    DecimalRoundTrip(path);
  }

  /** Uid first, then the rule, then the path, in decimal. */
  lemma PoolNameReads()
    ensures PoolName("a-b", 3, 12) == "a-b-3-12"
  {
    assert Decimal(3) == "3" && Decimal(12) == "12" && PoolName("a-b", 3, 12) == "a-b" + "-" + "3" + "-" + "12";
  }

  /** Pool names identify (uid, rule, path), whatever characters the uids contain. */
  lemma PoolNameInjective(u: string, r: nat, p: nat, u': string, r': nat, p': nat)
    requires PoolName(u, r, p) == PoolName(u', r', p')
    ensures u == u' && r == r' && p == p'
  {
    ParsePoolNameInvertsPoolName(u, r, p);
    ParsePoolNameInvertsPoolName(u', r', p');
  }

  // ---- load balancer names ----

  const NAME_PREFIX := "k8s-ingress-"
  const NAME_LIMIT := 63

  function TrimRightDashes(s: string): (r: string)
    ensures r <= s
    ensures r == [] || r[|r| - 1] != '-'
    ensures forall i | |r| <= i < |s| :: s[i] == '-'
  {
    if s == [] || s[|s| - 1] != '-' then s else TrimRightDashes(s[..|s| - 1])
  }

  /** None stands for the panic that slicing with a negative bound causes when the uid leaves no room at all. */
  function LoadBalancerName(uid: string, className: string): Option<string> {
    var name := NAME_PREFIX + uid + "-";
    var avail := NAME_LIMIT - |name|;
    if |className| <= avail then Some(name + className)
    else if avail < 0 then None
    else Some(TrimRightDashes(name + className[..avail]))
  }

  predicate ValidClassName(s: string) {
    s != [] && s[|s| - 1] != '-'
  }

  predicate ValidUid(s: string) {
    0 < |s| <= NAME_LIMIT - |NAME_PREFIX| - 1 && s[|s| - 1] != '-'
  }

  /** The name exists exactly when the uid fits. */
  lemma LoadBalancerNameDefined(uid: string, className: string)
    ensures LoadBalancerName(uid, className).Some? <==> |NAME_PREFIX| + |uid| + 1 <= NAME_LIMIT
  {
  }

  /** A load balancer name is a legal DNS label length, has no trailing dash, and still contains the whole uid. */
  lemma LoadBalancerNameShape(uid: string, className: string)
    requires ValidUid(uid) && ValidClassName(className)
    ensures var n := LoadBalancerName(uid, className);
      && n.Some? && 0 < |n.value| <= NAME_LIMIT
      && n.value[|n.value| - 1] != '-'
      && NAME_PREFIX + uid <= n.value
  {
    var stem := NAME_PREFIX + uid;
    var avail := NAME_LIMIT - |stem| - 1;
    if |className| > avail {
      var cut := stem + "-" + className[..avail];
      var r := TrimRightDashes(cut);
      assert cut[|stem| - 1] == uid[|uid| - 1];
      assert |r| >= |stem|;
      assert stem <= r;
    }
  }

  /** Class names are not empty and do not end in a dash, and with them the two uids give one name. */
  ghost predicate CollideWith(u: string, c: string, v: string, d: string) {
    ValidClassName(c) && ValidClassName(d) && LoadBalancerName(u, c) == LoadBalancerName(v, d)
  }

  ghost predicate CanCollide(u: string, v: string) {
    exists c, d :: CollideWith(u, c, v, d)
  }

  /** The name is the whole text if that fits. Otherwise it is the first 63 characters without the dashes at the end. */
  lemma LoadBalancerNameIs(uid: string, className: string)
    requires |uid| <= 50
    ensures var text, n := "k8s-ingress-" + uid + "-" + className, LoadBalancerName(uid, className).GetOr("");
      if |text| <= 63 then n == text
      else n <= text[..63] && (n == "" || n[|n| - 1] != '-') && forall i | |n| <= i < 63 :: text[i] == '-'
  {
    var stem := NAME_PREFIX + uid + "-";
    var avail := NAME_LIMIT - |stem|;
    assert stem + className == "k8s-ingress-" + uid + "-" + className;
    if |className| > avail { assert stem + className[..avail] == (stem + className)[..63]; }
  }

  /** After the uid, a name goes on with a dash or ends. */
  lemma LoadBalancerNameGoesOn(uid: string, className: string)
    requires ValidUid(uid) && ValidClassName(className)
    ensures var n := LoadBalancerName(uid, className).value;
      |n| > |NAME_PREFIX + uid| ==> n[|NAME_PREFIX + uid|] == '-'
  {
    LoadBalancerNameShape(uid, className);
  }

  /** Two uids that share a name: the shorter one, followed by a dash, starts the longer one. */
  lemma CollisionMeansPrefix(u: string, c: string, v: string, d: string)
    requires ValidUid(u) && ValidUid(v) && u != v && |u| <= |v| && CollideWith(u, c, v, d)
    ensures u + "-" <= v
  {
    LoadBalancerNameShape(u, c);
    LoadBalancerNameShape(v, d);
    LoadBalancerNameGoesOn(u, c);
    var n, k := LoadBalancerName(u, c).value, |NAME_PREFIX|;
    assert n[k..k + |u|] == u && n[k..k + |v|] == v;
    assert v[..|u|] == n[k..k + |v|][..|u|] == u;
    if |u| < |v| { assert v[|u|] == n[k + |u|] == '-'; }
  }

  /** The part of the longer uid that follows can be the beginning of a class name. */
  lemma PrefixMeansCollision(u: string, v: string)
    requires ValidUid(u) && ValidUid(v) && u + "-" <= v
    ensures CanCollide(u, v) && CanCollide(v, u)
  {
    var rest := v[|u| + 1..];
    var c := rest + "-x";
    assert v == u + "-" + rest;
    assert NAME_PREFIX + u + "-" + c == NAME_PREFIX + v + "-" + "x";
    SameTextSameName(u, c, v, "x");
    assert CollideWith(u, c, v, "x") && CollideWith(v, "x", u, c);
  }

  /** A name only depends on the text that is going to be cut. */
  lemma SameTextSameName(u: string, c: string, v: string, d: string)
    requires ValidUid(u) && ValidUid(v)
    requires NAME_PREFIX + u + "-" + c == NAME_PREFIX + v + "-" + d
    ensures LoadBalancerName(u, c) == LoadBalancerName(v, d)
  {
    var s, t, avail := NAME_PREFIX + u + "-", NAME_PREFIX + v + "-", NAME_LIMIT - |NAME_PREFIX + u + "-"|;
    if |c| > avail {
      assert s + c[..avail] == (s + c)[..NAME_LIMIT];
      assert t + d[..NAME_LIMIT - |t|] == (t + d)[..NAME_LIMIT];
    }
  }

  /** Exactly when two uids can get one load balancer name: one of them, followed by a dash, starts the other. */
  lemma CollisionIff(u: string, v: string)
    requires ValidUid(u) && ValidUid(v) && u != v
    ensures CanCollide(u, v) <==> u + "-" <= v || v + "-" <= u
  {
    if u + "-" <= v { PrefixMeansCollision(u, v); }
    if v + "-" <= u { PrefixMeansCollision(v, u); }
    if CanCollide(u, v) {
      var c, d :| CollideWith(u, c, v, d);
      if |u| <= |v| { CollisionMeansPrefix(u, c, v, d); } else { CollisionMeansPrefix(v, d, u, c); }
    }
  }

  /** Uids of one length, as clusters assign them, never share a load balancer name, despite truncation. */
  lemma LoadBalancerNameSeparates(u: string, c: string, v: string, d: string)
    requires ValidUid(u) && ValidUid(v) && |u| == |v| && u != v
    requires ValidClassName(c) && ValidClassName(d)
    ensures LoadBalancerName(u, c) != LoadBalancerName(v, d)
  {
    CollisionIff(u, v);
    if LoadBalancerName(u, c) == LoadBalancerName(v, d) { assert CollideWith(u, c, v, d); }
  }

  /** Uids of different lengths: uid and class name can run into each other. */
  lemma DifferentLengthsCanCollide()
    ensures LoadBalancerName("a", "b-c") == LoadBalancerName("a-b", "c") && "a" != "a-b"
  {
    assert NAME_PREFIX + "a" + "-" + "b-c" == NAME_PREFIX + "a-b" + "-" + "c";
  }
}
