/** Sorting as the controller uses it: `slices.SortFunc` over an arbitrary comparison, which is not stable,
    and the canonical order that a list with no ties is forced into. */
module Sorting {

  /** No later element precedes an earlier one. */
  ghost predicate Sorted<T(!new)>(less: (T, T) -> bool, s: seq<T>) {
    forall i, j | 0 <= i < j < |s| :: !less(s[j], s[i])
  }

  /** The comparison is a strict weak order on `dom`. */
  ghost predicate WeakOrder<T(!new)>(less: (T, T) -> bool, dom: set<T>) {
    && (forall x, y | x in dom && y in dom :: less(x, y) ==> !less(y, x))
    && (forall x, y, z | x in dom && y in dom && z in dom && !less(x, y) && !less(y, z) :: !less(x, z))
  }

  /** Any two different elements of `dom` are ordered. */
  ghost predicate NoTies<T(!new)>(less: (T, T) -> bool, dom: set<T>) {
    forall x, y | x in dom && y in dom && x != y :: less(x, y) || less(y, x)
  }

  ghost predicate Within<T>(s: seq<T>, dom: set<T>) {
    forall i | 0 <= i < |s| :: s[i] in dom
  }

  ghost function Elems<T>(m: multiset<T>): set<T> {
    set x | x in m
  }

  /** A strict total order on the whole type. */
  ghost predicate TotalOrder<T(!new)>(less: (T, T) -> bool) {
    && (forall x, y | less(x, y) :: !less(y, x))
    && (forall x, y, z | !less(x, y) && !less(y, z) :: !less(x, z))
    && (forall x, y | x != y :: less(x, y) || less(y, x))
  }

  function Insert<T>(x: T, q: seq<T>, less: (T, T) -> bool): (r: seq<T>)
    ensures multiset(r) == multiset(q) + multiset{x}
  {
    if q == [] || less(x, q[0]) then [x] + q
    else
      assert q == [q[0]] + q[1..];
      [q[0]] + Insert(x, q[1..], less)
  }

  function InsertionSort<T>(s: seq<T>, less: (T, T) -> bool): (r: seq<T>)
    ensures multiset(r) == multiset(s)
  {
    if s == [] then []
    else
      assert s == [s[0]] + s[1..];
      Insert(s[0], InsertionSort(s[1..], less), less)
  }

  lemma {:induction false} InsertWithin<T>(x: T, q: seq<T>, less: (T, T) -> bool, dom: set<T>)
    requires x in dom && Within(q, dom)
    ensures Within(Insert(x, q, less), dom)
  {
    if q != [] && !less(x, q[0]) { InsertWithin(x, q[1..], less, dom); }
  }

  lemma {:induction false} InsertAbove<T(!new)>(x: T, q: seq<T>, less: (T, T) -> bool, lo: T)
    requires !less(x, lo) && forall i | 0 <= i < |q| :: !less(q[i], lo)
    ensures forall i | 0 <= i < |Insert(x, q, less)| :: !less(Insert(x, q, less)[i], lo)
  {
    var r := Insert(x, q, less);
    if q == [] || less(x, q[0]) {
      assert forall i | 0 < i < |r| :: r[i] == q[i - 1];
    } else {
      InsertAbove(x, q[1..], less, lo);
      assert forall i | 0 < i < |r| :: r[i] == Insert(x, q[1..], less)[i - 1];
    }
  }

  lemma {:induction false} InsertSorted<T(!new)>(x: T, q: seq<T>, less: (T, T) -> bool, dom: set<T>)
    requires WeakOrder(less, dom) && x in dom && Within(q, dom) && Sorted(less, q)
    ensures Sorted(less, Insert(x, q, less))
  {
    if q == [] {
    } else if less(x, q[0]) {
      forall k | 0 <= k < |q| ensures !less(q[k], x) {
        assert !less(q[0], x) && (k > 0 ==> !less(q[k], q[0]));
      }
    } else {
      var rest := Insert(x, q[1..], less);
      InsertSorted(x, q[1..], less, dom);
      InsertAbove(x, q[1..], less, q[0]);
      var r := Insert(x, q, less);
      assert r == [q[0]] + rest;
      forall i, j | 0 <= i < j < |r| ensures !less(r[j], r[i]) {
        assert r[j] == rest[j - 1];
        if i == 0 { assert !less(rest[j - 1], q[0]); } else { assert r[i] == rest[i - 1]; }
      }
    }
  }

  lemma {:induction false} InsertionSortSorts<T(!new)>(s: seq<T>, less: (T, T) -> bool, dom: set<T>)
    requires WeakOrder(less, dom) && Within(s, dom)
    ensures Sorted(less, InsertionSort(s, less)) && Within(InsertionSort(s, less), dom)
  {
    if s != [] {
      InsertionSortSorts(s[1..], less, dom);
      InsertSorted(s[0], InsertionSort(s[1..], less), less, dom);
      InsertWithin(s[0], InsertionSort(s[1..], less), less, dom);
    }
  }

  /** In-place sort. It always permutes; it sorts when the comparison is a strict weak order on the elements. */
  method SortFunc<T(!new)>(a: array<T>, less: (T, T) -> bool)
    modifies a
    ensures multiset(a[..]) == multiset(old(a[..]))
    ensures WeakOrder(less, Elems(multiset(old(a[..])))) ==> Sorted(less, a[..])
  {
    var r := SortSlice(a[..], less);
    assert |r| == |multiset(r)| == |multiset(a[..])| == a.Length;
    forall i | 0 <= i < a.Length { a[i] := r[i]; }
    assert a[..] == r;
  }

  /** The same sort for a list that was built by appending. */
  method SortSlice<T(!new)>(s: seq<T>, less: (T, T) -> bool) returns (r: seq<T>)
    ensures multiset(r) == multiset(s)
    ensures WeakOrder(less, Elems(multiset(s))) ==> Sorted(less, r)
  {
    r := InsertionSort(s, less);
    ghost var dom := Elems(multiset(s));
    if WeakOrder(less, dom) {
      assert forall i | 0 <= i < |s| :: s[i] in multiset(s);
      InsertionSortSorts(s, less, dom);
    }
  }

  /** Without ties the sorted order of a collection is unique, whatever order it was enumerated in. */
  lemma {:induction false} SortedUnique<T(!new)>(less: (T, T) -> bool, a: seq<T>, b: seq<T>, dom: set<T>)
    requires multiset(a) == multiset(b) && NoTies(less, dom) && Within(a, dom)
    requires Sorted(less, a) && Sorted(less, b)
    ensures a == b
  {
    assert |a| == |multiset(a)| == |multiset(b)| == |b|;
    if a != [] {
      SameHead(less, a, b, dom);
      TailOf(less, a);
      TailOf(less, b);
      hide Sorted, NoTies;
      SortedUnique(less, a[1..], b[1..], dom);
    }
  }

  lemma TailOf<T(!new)>(less: (T, T) -> bool, a: seq<T>)
    requires a != []
    ensures multiset(a[1..]) == multiset(a) - multiset{a[0]}
    ensures Sorted(less, a) ==> Sorted(less, a[1..])
  {
    assert a == [a[0]] + a[1..];
  }

  lemma SameHead<T(!new)>(less: (T, T) -> bool, a: seq<T>, b: seq<T>, dom: set<T>)
    requires a != [] && b != [] && multiset(a) == multiset(b) && NoTies(less, dom) && Within(a, dom)
    requires Sorted(less, a) && Sorted(less, b)
    ensures a[0] == b[0]
  {
    assert a[0] in multiset(b) && b[0] in multiset(a);
    var i :| 0 <= i < |b| && b[i] == a[0];
    var j :| 0 <= j < |a| && a[j] == b[0];
  }

  lemma {:induction false} Listable<T>(m: multiset<T>) returns (s: seq<T>)
    ensures multiset(s) == m
    decreases |m|
  {
    if m == multiset{} {
      s := [];
    } else {
      var x :| x in m;
      s := Listable(m - multiset{x});
      s := s + [x];
    }
  }

  ghost predicate IsSortOf<T(!new)>(s: seq<T>, m: multiset<T>, less: (T, T) -> bool) {
    multiset(s) == m && Sorted(less, s)
  }

  lemma Sortable<T(!new)>(m: multiset<T>, less: (T, T) -> bool)
    requires WeakOrder(less, Elems(m))
    ensures exists s :: IsSortOf(s, m, less)
  {
    var q := Listable(m);
    assert forall i | 0 <= i < |q| :: q[i] in multiset(q);
    InsertionSortSorts(q, less, Elems(m));
    assert IsSortOf(InsertionSort(q, less), m, less);
  }

  /** The canonical enumeration of a finite collection. */
  ghost function SortOf<T(!new)>(m: multiset<T>, less: (T, T) -> bool): (s: seq<T>)
    requires WeakOrder(less, Elems(m))
    ensures multiset(s) == m && Sorted(less, s)
  {
    Sortable(m, less);
    var s :| IsSortOf(s, m, less);
    s
  }

  /** Any way of sorting a collection without ties yields its canonical enumeration. */
  lemma SortOfUnique<T(!new)>(s: seq<T>, m: multiset<T>, less: (T, T) -> bool)
    requires WeakOrder(less, Elems(m)) && NoTies(less, Elems(m)) && multiset(s) == m && Sorted(less, s)
    ensures s == SortOf(m, less)
  {
    assert forall i | 0 <= i < |s| :: s[i] in multiset(s);
    SortedUnique(less, s, SortOf(m, less), Elems(m));
  }

  /** The canonical enumeration of a set has each member exactly once. */
  lemma SortOfSet<T(!new)>(t: set<T>, less: (T, T) -> bool)
    requires TotalOrder(less)
    ensures WeakOrder(less, Elems(multiset(t)))
    ensures var s := SortOf(multiset(t), less);
      && |s| == |t|
      && (forall x :: x in s <==> x in t)
      && (forall i, j | 0 <= i < j < |s| :: less(s[i], s[j]))
  {
    var s := SortOf(multiset(t), less);
    assert |s| == |multiset(s)|;
    forall x ensures x in s <==> x in t {
      assert x in s <==> x in multiset(s);
    }
    forall i, j | 0 <= i < j < |s| ensures less(s[i], s[j]) {
      NoRepeat(s, t, i, j);
    }
  }

  lemma NoRepeat<T>(s: seq<T>, t: set<T>, i: nat, j: nat)
    requires multiset(s) == multiset(t) && i < j < |s|
    ensures s[i] != s[j]
  {
    var front, back := s[..j], s[j + 1..];
    assert s == front + [s[j]] + back;
    assert front[i] in multiset(front);
    assert multiset(s)[s[j]] == multiset(front)[s[j]] + 1 + multiset(back)[s[j]];
  }

  function Map<A, B>(f: A -> B, s: seq<A>): (r: seq<B>)
    ensures |r| == |s| && forall i | 0 <= i < |s| :: r[i] == f(s[i])
  {
    seq(|s|, i requires 0 <= i < |s| => f(s[i]))
  }

  /** Reordering the input of an elementwise map only reorders its output. */
  lemma {:induction false} MapPermutes<A, B>(f: A -> B, a: seq<A>, b: seq<A>)
    requires multiset(a) == multiset(b)
    ensures multiset(Map(f, a)) == multiset(Map(f, b))
    decreases |a|
  {
    if a == [] {
      assert |multiset(b)| == |b|;
    } else {
      assert a == [] + [a[0]] + a[1..] && [] + a[1..] == a[1..];
      assert a[0] in multiset(b);
      var front, back := Locate(a[0], b);
      DropOne(a[0], [], a[1..], front, back);
      MapPermutes(f, a[1..], front + back);
      MapInsert(f, a[0], front, back);
      MapInsert(f, a[0], [], a[1..]);
    }
  }

  lemma Locate<A>(x: A, s: seq<A>) returns (front: seq<A>, back: seq<A>)
    requires x in s
    ensures s == front + [x] + back
  {
    var k :| 0 <= k < |s| && s[k] == x;
    front, back := s[..k], s[k + 1..];
  }

  lemma DropOne<A>(x: A, front': seq<A>, back': seq<A>, front: seq<A>, back: seq<A>)
    requires multiset(front' + [x] + back') == multiset(front + [x] + back)
    ensures multiset(front' + back') == multiset(front + back)
  {
    assert multiset(front' + back') == multiset(front' + [x] + back') - multiset{x};
    assert multiset(front + back) == multiset(front + [x] + back) - multiset{x};
  }

  lemma MapInsert<A, B>(f: A -> B, x: A, front: seq<A>, back: seq<A>)
    ensures multiset(Map(f, front + [x] + back)) == multiset(Map(f, front + back)) + multiset{f(x)}
  {
    assert Map(f, front + [x] + back) == Map(f, front) + [f(x)] + Map(f, back);
    assert Map(f, front + back) == Map(f, front) + Map(f, back);
  }

  /** Byte-wise string comparison, as `cmp.Compare` orders strings. */
  predicate StrLess(a: string, b: string) {
    |b| > 0 && (|a| == 0 || a[0] < b[0] || (a[0] == b[0] && StrLess(a[1..], b[1..])))
  }

  /** The strings agree on the first `n` characters, and then `b` has the greater one, or has more. */
  ghost predicate DiffersAt(a: string, b: string, n: nat) {
    && n <= |a| && n < |b| && (forall i | 0 <= i < n :: a[i] == b[i])
    && (n == |a| || a[n] < b[n])
  }

  lemma {:induction false} StrLessIff(a: string, b: string)
    ensures StrLess(a, b) <==> exists n: nat :: DiffersAt(a, b, n)
  {
    if |a| > 0 && |b| > 0 && a[0] == b[0] {
      StrLessIff(a[1..], b[1..]);
      if n: nat :| DiffersAt(a[1..], b[1..], n) {
        forall i | 0 <= i < n + 1 ensures a[i] == b[i] {
          assert i > 0 ==> a[i] == a[1..][i - 1] == b[1..][i - 1] == b[i];
        }
        assert DiffersAt(a, b, n + 1);
      }
      if n: nat :| DiffersAt(a, b, n) {
        assert n > 0;
        forall i | 0 <= i < n - 1 ensures a[1..][i] == b[1..][i] { assert a[i + 1] == b[i + 1]; }
        assert DiffersAt(a[1..], b[1..], n - 1);
      }
    } else if StrLess(a, b) {
      assert DiffersAt(a, b, 0);
    }
  }

  lemma {:induction false} StrAsymmetric(a: string, b: string)
    requires StrLess(a, b)
    ensures !StrLess(b, a)
  {
    if |a| > 0 && a[0] == b[0] { StrAsymmetric(a[1..], b[1..]); }
  }

  lemma {:induction false} StrConnected(a: string, b: string)
    requires a != b
    ensures StrLess(a, b) || StrLess(b, a)
  {
    if |a| > 0 && |b| > 0 && a[0] == b[0] {
      assert a == [a[0]] + a[1..] && b == [b[0]] + b[1..];
      StrConnected(a[1..], b[1..]);
    }
  }

  lemma {:induction false} StrTransitive(a: string, b: string, c: string)
    requires !StrLess(a, b) && !StrLess(b, c)
    ensures !StrLess(a, c)
  {
    if |a| > 0 && |b| > 0 && |c| > 0 && a[0] == b[0] == c[0] { StrTransitive(a[1..], b[1..], c[1..]); }
  }

  lemma StrTotal()
    ensures TotalOrder(StrLess)
  {
    forall a, b | StrLess(a, b) ensures !StrLess(b, a) { StrAsymmetric(a, b); }
    forall a, b | a != b ensures StrLess(a, b) || StrLess(b, a) { StrConnected(a, b); }
    forall a, b, c | !StrLess(a, b) && !StrLess(b, c) ensures !StrLess(a, c) { StrTransitive(a, b, c); }
  }
}
