/** The order in which ingresses are admitted. */
module Precedence {
  import opened Options
  import opened Kube
  import opened Sorting

  const TWO_63 := 0x8000_0000_0000_0000
  const TWO_62 := 0x4000_0000_0000_0000

  /** Two's complement wrap-around of a 64 bit integer. */
  function Wrap64(n: int): int {
    (n + TWO_63) % (2 * TWO_63) - TWO_63
  }

  predicate IsInt64(n: int) { -TWO_63 <= n < TWO_63 }

  /** An unparseable priority sorts as zero; the ingress is rejected later. */
  function Priority(ing: Ingress): int {
    var p := GetAnnotation(0, [ing.annotations.priority]);
    if p.Ok? then p.value else 0
  }

  lemma PriorityIs(ing: Ingress)
    ensures ing.annotations.priority == Given(Priority(ing)) || (!ing.annotations.priority.Given? && Priority(ing) == 0)
  {
    var sources := [ing.annotations.priority];
    assert sources[1..] == [] && GetAnnotation(0, sources[1..]) == Ok(0);
  }

  function FullName(ing: Ingress): string {
    ing.namespace + "/" + ing.name
  }

  function Compare(a: Ingress, b: Ingress): int {
    var diff := Wrap64(Priority(b) - Priority(a));
    if diff != 0 then diff
    else if a.created != b.created then (if a.created < b.created then -1 else 1)
    else if StrLess(FullName(a), FullName(b)) then -1
    else if StrLess(FullName(b), FullName(a)) then 1
    else 0
  }

  predicate Precedes(a: Ingress, b: Ingress) { Compare(a, b) < 0 }

  /** What the documentation promises: higher priority first, then older, then by name. */
  predicate DocumentedOrder(a: Ingress, b: Ingress) {
    || Priority(a) > Priority(b)
    || (Priority(a) == Priority(b) && a.created < b.created)
    || (Priority(a) == Priority(b) && a.created == b.created
        && StrLess(a.namespace + "/" + a.name, b.namespace + "/" + b.name))
  }

  /** The 64 bit subtraction orders two priorities correctly exactly when their difference fits. */
  lemma SubtractionOrdersIff(p: int, q: int)
    requires IsInt64(p) && IsInt64(q)
    ensures (Wrap64(q - p) < 0 <==> p > q) && (Wrap64(q - p) == 0 <==> p == q) <==> IsInt64(q - p)
  {
  }

  /** The comparator is the documented order exactly when no priority difference overflows. */
  lemma ComparatorIsDocumentedIff(a: Ingress, b: Ingress)
    requires IsInt64(Priority(a)) && IsInt64(Priority(b))
    ensures (Precedes(a, b) <==> DocumentedOrder(a, b)) && (Precedes(b, a) <==> DocumentedOrder(b, a))
            <==> IsInt64(Priority(b) - Priority(a)) && IsInt64(Priority(a) - Priority(b))
  {
    SubtractionOrdersIff(Priority(a), Priority(b));
    SubtractionOrdersIff(Priority(b), Priority(a));
    StrTotal();
  }

  /** No difference between two priorities overflows. */
  ghost predicate Bounded(dom: set<Ingress>) {
    forall a, b | a in dom && b in dom :: IsInt64(Priority(b) - Priority(a))
  }

  /** Priorities below 2^62 in magnitude are enough for that. */
  lemma SmallPrioritiesAreBounded(dom: set<Ingress>)
    requires forall a | a in dom :: -TWO_62 < Priority(a) < TWO_62
    ensures Bounded(dom)
  {
  }

  ghost predicate ValidNames(dom: set<Ingress>) {
    && (forall a | a in dom :: '/' !in a.namespace)
    && (forall a, b | a in dom && b in dom && a != b :: a.Key() != b.Key())
  }

  ghost predicate AsDocumented(dom: set<Ingress>) {
    forall a, b | a in dom && b in dom :: Precedes(a, b) <==> DocumentedOrder(a, b)
  }

  /** Ingresses are admitted in the documented order exactly when no priority difference overflows. */
  lemma AsDocumentedIffBounded(dom: set<Ingress>)
    requires forall a | a in dom :: IsInt64(Priority(a))
    ensures AsDocumented(dom) <==> Bounded(dom)
  {
    hide Priority, Precedes, DocumentedOrder;
    forall a, b | a in dom && b in dom
      ensures (Precedes(a, b) <==> DocumentedOrder(a, b)) && (Precedes(b, a) <==> DocumentedOrder(b, a))
              <==> IsInt64(Priority(b) - Priority(a)) && IsInt64(Priority(a) - Priority(b))
    {
      ComparatorIsDocumentedIff(a, b);
    }
  }

  lemma BoundedIsDocumented(dom: set<Ingress>)
    requires Bounded(dom)
    ensures AsDocumented(dom)
  {
  }

  lemma DocumentedIsWeak(a: Ingress, b: Ingress, c: Ingress)
    ensures DocumentedOrder(a, b) ==> !DocumentedOrder(b, a)
    ensures !DocumentedOrder(a, b) && !DocumentedOrder(b, c) ==> !DocumentedOrder(a, c)
  {
    StrTotal();
    var x, y, z := FullName(a), FullName(b), FullName(c);
    assert StrLess(x, y) ==> !StrLess(y, x);
    assert !StrLess(x, y) && !StrLess(y, z) ==> !StrLess(x, z);
  }

  lemma FullNameInjective(a: Ingress, b: Ingress)
    requires '/' !in a.namespace && '/' !in b.namespace && FullName(a) == FullName(b)
    ensures a.Key() == b.Key()
  {
    var s, m, n := FullName(a), |a.namespace|, |b.namespace|;
    assert s[m] == '/' && s[n] == '/';
    assert a.namespace == s[..m] && b.namespace == s[..n];
    assert a.name == s[m + 1..] && b.name == s[n + 1..];
  }

  /** With bounded priorities the comparator is a strict weak order, and on distinct valid names a total one. */
  lemma PrecedenceIsTotal(dom: set<Ingress>)
    requires Bounded(dom)
    ensures WeakOrder(Precedes, dom)
    ensures ValidNames(dom) ==> NoTies(Precedes, dom)
  {
    BoundedIsDocumented(dom);
    forall a, b, c | a in dom && b in dom && c in dom
      ensures Precedes(a, b) ==> !Precedes(b, a)
      ensures !Precedes(a, b) && !Precedes(b, c) ==> !Precedes(a, c)
    {
      DocumentedIsWeak(a, b, c);
    }
    if ValidNames(dom) {
      forall a, b | a in dom && b in dom && a != b ensures Precedes(a, b) || Precedes(b, a) {
        StrTotal();
        if FullName(a) == FullName(b) { FullNameInjective(a, b); }
      }
    }
  }

  /** Beyond the bound the lowest priority there is comes before priority 1. */
  lemma OverflowInvertsPriorities(a: Ingress, b: Ingress)
    requires a.annotations.priority == Given(-TWO_63) && b.annotations.priority == Given(1)
    ensures Precedes(a, b) && !Precedes(b, a) && DocumentedOrder(b, a)
  {
  }
}
