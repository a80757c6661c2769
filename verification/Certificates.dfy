/** Matching the certificates that exist in the API with those that the tree needs. */
module Certificates {
  import opened Options
  import opened Tree
  import opened TreeObjects
  import opened PayloadProperties

  /** One entry of a certificate listing, or the answer to a create call. */
  datatype CertInfo = CertInfo(id: Option<string>, fingerprint: Option<string>)

  // ---- certificates still to be created ----

  function ListedFingerprints(listed: seq<CertInfo>): set<string> {
    set i | 0 <= i < |listed| && listed[i].fingerprint.Some? :: listed[i].fingerprint.value
  }

  function Missing(t: WorkTree, listed: seq<CertInfo>): map<string, TreeCertificate> {
    t.certificates - ListedFingerprints(listed)
  }

  method GetMissingCertificates(tree: TreeObject, listed: seq<CertInfo>) returns (missing: map<string, TreeCertificate>)
    requires tree.Valid()
    ensures missing == Missing(tree.view, listed)
  {
    hide Shape.Good;
    var existing: set<string> := {};
    for i := 0 to |listed|
      invariant existing == ListedFingerprints(listed[..i])
    {
      assert listed[..i + 1] == listed[..i] + [listed[i]];
      ListedSnoc(listed[..i], listed[i]);
      if listed[i].fingerprint.Some? { existing := existing + {listed[i].fingerprint.value}; }
    }
    assert listed[..|listed|] == listed;
    missing := map[];
    var todo := tree.certificates.Keys;
    while todo != {}
      invariant todo <= tree.certificates.Keys
      invariant missing == map f | f in tree.certificates && f !in todo && f !in existing :: tree.certificates[f]
      decreases |todo|
    {
      var f :| f in todo;
      todo := todo - {f};
      if f !in existing { missing := missing[f := tree.certificates[f]]; }
    }
  }

  lemma ListedSnoc(listed: seq<CertInfo>, c: CertInfo)
    ensures ListedFingerprints(listed + [c])
            == ListedFingerprints(listed) + (if c.fingerprint.Some? then {c.fingerprint.value} else {})
  {
    var all := listed + [c];
    forall f | f in ListedFingerprints(listed) ensures f in ListedFingerprints(all) {
      var i :| 0 <= i < |listed| && listed[i].fingerprint.Some? && listed[i].fingerprint.value == f;
      assert all[i] == listed[i];
    }
    if c.fingerprint.Some? {
      assert all[|listed|] == c;
    }
  }

  // ---- originals and duplicates ----

  datatype Indexed = Indexed(ids: map<string, string>, duplicates: seq<string>)

  function Record(before: Indexed, c: CertInfo): Indexed {
    if c.id.None? || c.fingerprint.None? then before
    else if c.fingerprint.value in before.ids then before.(duplicates := before.duplicates + [c.id.value])
    else before.(ids := before.ids[c.fingerprint.value := c.id.value])
  }

  /** The first certificate with a fingerprint is the original, later ones are duplicates. */
  function Index(listed: seq<CertInfo>): Indexed {
    if listed == [] then Indexed(map[], [])
    else Record(Index(listed[..|listed| - 1]), listed[|listed| - 1])
  }

  method IndexCertificates(listed: seq<CertInfo>) returns (ids: map<string, string>, duplicates: seq<string>)
    ensures Index(listed) == Indexed(ids, duplicates)
  {
    ids, duplicates := map[], [];
    for i := 0 to |listed|
      invariant Index(listed[..i]) == Indexed(ids, duplicates)
    {
      assert listed[..i + 1][..i] == listed[..i];
      var c := listed[i];
      if c.id.Some? && c.fingerprint.Some? {
        if c.fingerprint.value in ids {
          duplicates := duplicates + [c.id.value];
        } else {
          ids := ids[c.fingerprint.value := c.id.value];
        }
      }
    }
    assert listed[..|listed|] == listed;
  }

  ghost predicate Distinct<T(!new)>(s: seq<T>) {
    forall i, j | 0 <= i < j < |s| :: s[i] != s[j]
  }

  /** Every entry has an id, and no two have the same. */
  ghost predicate Identified(listed: seq<CertInfo>) {
    && (forall i | 0 <= i < |listed| :: listed[i].id.Some?)
    && (forall i, j | 0 <= i < j < |listed| :: listed[i].id != listed[j].id)
  }

  ghost predicate ListsId(listed: seq<CertInfo>, f: string, id: string) {
    exists i :: 0 <= i < |listed| && listed[i] == CertInfo(Some(id), Some(f))
  }

  /** `id` is listed with a fingerprint that is indexed already. */
  ghost predicate IsRepeat(listed: seq<CertInfo>, ids: map<string, string>, id: string) {
    exists f :: f in ids && ListsId(listed, f, id)
  }

  /** The index splits the listed ids into originals, one per fingerprint, and duplicates. */
  ghost predicate IndexInv(listed: seq<CertInfo>, x: Indexed) {
    && (forall f | f in x.ids :: ListsId(listed, f, x.ids[f]))
    && (forall k | 0 <= k < |x.duplicates| :: IsRepeat(listed, x.ids, x.duplicates[k]))
    && (forall f, g | f in x.ids && g in x.ids && x.ids[f] == x.ids[g] :: f == g)
    && (forall f, k | f in x.ids && 0 <= k < |x.duplicates| :: x.ids[f] != x.duplicates[k])
    && Distinct(x.duplicates)
  }

  /** Nothing listed with id and fingerprint is forgotten. */
  ghost predicate IndexComplete(listed: seq<CertInfo>, x: Indexed) {
    forall i | 0 <= i < |listed| && listed[i].id.Some? && listed[i].fingerprint.Some? ::
      && listed[i].fingerprint.value in x.ids
      && (x.ids[listed[i].fingerprint.value] == listed[i].id.value || listed[i].id.value in x.duplicates)
  }

  lemma ListsMore(listed: seq<CertInfo>, c: CertInfo, f: string, id: string)
    requires ListsId(listed, f, id)
    ensures ListsId(listed + [c], f, id)
  {
    var i :| 0 <= i < |listed| && listed[i] == CertInfo(Some(id), Some(f));
    assert (listed + [c])[i] == listed[i];
  }

  /** The id of a new entry is not among the ids listed before it. */
  lemma NewIdIsNew(listed: seq<CertInfo>, c: CertInfo, f: string, id: string)
    requires Identified(listed + [c]) && ListsId(listed, f, id)
    ensures c.id != Some(id)
  {
    var i :| 0 <= i < |listed| && listed[i] == CertInfo(Some(id), Some(f));
    assert (listed + [c])[i] == listed[i] && (listed + [c])[|listed|] == c;
  }

  lemma RecordKeepsInv(listed: seq<CertInfo>, x: Indexed, c: CertInfo)
    requires IndexInv(listed, x) && Identified(listed + [c])
    ensures IndexInv(listed + [c], Record(x, c))
  {
    hide ListsId, Identified;
    var all, y := listed + [c], Record(x, c);
    forall f | f in x.ids ensures ListsId(all, f, x.ids[f]) && c.id != Some(x.ids[f]) {
      ListsMore(listed, c, f, x.ids[f]);
      NewIdIsNew(listed, c, f, x.ids[f]);
    }
    forall k | 0 <= k < |x.duplicates|
      ensures IsRepeat(all, y.ids, x.duplicates[k]) && c.id != Some(x.duplicates[k])
    {
      assert IsRepeat(listed, x.ids, x.duplicates[k]);
      var f :| f in x.ids && ListsId(listed, f, x.duplicates[k]);
      ListsMore(listed, c, f, x.duplicates[k]);
      NewIdIsNew(listed, c, f, x.duplicates[k]);
      assert f in y.ids;
    }
    forall k | 0 <= k < |y.duplicates| ensures IsRepeat(all, y.ids, y.duplicates[k]) {
      if k == |x.duplicates| {
        LastIsListed(listed, c);
        assert c.fingerprint.value in y.ids;
      }
    }
    if c.id.Some? && c.fingerprint.Some? { LastIsListed(listed, c); }
  }

  lemma LastIsListed(listed: seq<CertInfo>, c: CertInfo)
    requires c.id.Some? && c.fingerprint.Some?
    ensures ListsId(listed + [c], c.fingerprint.value, c.id.value)
  {
    assert (listed + [c])[|listed|] == c;
  }

  lemma {:induction false} IndexSplits(listed: seq<CertInfo>)
    requires Identified(listed)
    ensures IndexInv(listed, Index(listed))
  {
    if listed != [] {
      var n := |listed| - 1;
      assert listed == listed[..n] + [listed[n]];
      IndexSplits(listed[..n]);
      RecordKeepsInv(listed[..n], Index(listed[..n]), listed[n]);
    }
  }

  lemma {:induction false} IndexForgetsNothing(listed: seq<CertInfo>)
    ensures IndexComplete(listed, Index(listed))
  {
    if listed != [] {
      var n := |listed| - 1;
      var x, y := Index(listed[..n]), Index(listed);
      IndexForgetsNothing(listed[..n]);
      forall i | 0 <= i < |listed| && listed[i].id.Some? && listed[i].fingerprint.Some?
        ensures listed[i].fingerprint.value in y.ids
        ensures y.ids[listed[i].fingerprint.value] == listed[i].id.value || listed[i].id.value in y.duplicates
      {
        if i < n {
          assert listed[..n][i] == listed[i];
        } else if listed[n].fingerprint.value in x.ids {
          assert y.duplicates[|x.duplicates|] == listed[n].id.value;
        }
      }
    }
  }

  /** Entry `i` is the first in the listing with id and this fingerprint. */
  ghost predicate IsFirstWith(listed: seq<CertInfo>, f: string, i: nat) {
    && i < |listed| && listed[i].id.Some? && listed[i].fingerprint == Some(f)
    && forall j | 0 <= j < i :: !(listed[j].id.Some? && listed[j].fingerprint == Some(f))
  }

  /** First come, first kept: of the certificates with one fingerprint, the one listed first is the original. */
  lemma {:induction false} FirstIsOriginal(listed: seq<CertInfo>, f: string, i: nat)
    requires IsFirstWith(listed, f, i)
    ensures Lookup(Index(listed).ids, f) == listed[i].id
  {
    var n := |listed| - 1;
    if i < n {
      FirstIsOriginal(listed[..n], f, i);
    } else {
      NoneIsIndexed(listed[..n], f);
    }
  }

  lemma {:induction false} NoneIsIndexed(listed: seq<CertInfo>, f: string)
    requires forall j | 0 <= j < |listed| :: !(listed[j].id.Some? && listed[j].fingerprint == Some(f))
    ensures f !in Index(listed).ids
  {
    if listed != [] { NoneIsIndexed(listed[..|listed| - 1], f); }
  }

  // ---- certificates nobody needs ----

  function Unused(t: WorkTree, ids: map<string, string>): map<string, string> {
    ids - t.certificates.Keys
  }

  method GetUnusedCertificates(tree: TreeObject, ids: map<string, string>) returns (unused: map<string, string>)
    requires tree.Valid()
    ensures unused == Unused(tree.view, ids)
  {
    hide Shape.Good;
    unused := ids;
    var todo := tree.certificates.Keys;
    while todo != {}
      invariant todo <= tree.certificates.Keys
      invariant unused == ids - (tree.certificates.Keys - todo)
      decreases |todo|
    {
      var f :| f in todo;
      unused := unused - {f};
      todo := todo - {f};
    }
  }

  /** What reconciling deletes: the duplicates and the unused certificates. */
  function Cleanup(t: WorkTree, x: Indexed): set<string> {
    (set k | 0 <= k < |x.duplicates| :: x.duplicates[k]) + (set f | f in Unused(t, x.ids) :: x.ids[f])
  }

  function ListedIds(listed: seq<CertInfo>): set<string> {
    set i | 0 <= i < |listed| && listed[i].id.Some? :: listed[i].id.value
  }

  lemma ListsIdIsListed(listed: seq<CertInfo>, f: string, id: string)
    requires ListsId(listed, f, id)
    ensures id in ListedIds(listed)
  {
  }

  /** The cleanup never touches a certificate that the payload may refer to. */
  lemma CleanupSparesKept(t: WorkTree, listed: seq<CertInfo>)
    requires Identified(listed)
    ensures Cleanup(t, Index(listed)) !! KeptIds(t, Index(listed).ids)
    ensures Cleanup(t, Index(listed)) <= ListedIds(listed) && KeptIds(t, Index(listed).ids) <= ListedIds(listed)
  {
    hide ListsId, Index, Identified, ListedIds;
    IndexSplits(listed);
    var x := Index(listed);
    forall id | id in Cleanup(t, x) ensures id in ListedIds(listed) && id !in KeptIds(t, x.ids) {
      if k :| 0 <= k < |x.duplicates| && x.duplicates[k] == id {
        assert IsRepeat(listed, x.ids, x.duplicates[k]);
        var f :| f in x.ids && ListsId(listed, f, x.duplicates[k]);
        ListsIdIsListed(listed, f, id);
      } else {
        var f :| f in Unused(t, x.ids) && x.ids[f] == id;
        ListsIdIsListed(listed, f, id);
      }
    }
    forall id | id in KeptIds(t, x.ids) ensures id in ListedIds(listed) {
      var f :| f in t.certificates && f in x.ids && x.ids[f] == id;
      ListsIdIsListed(listed, f, id);
    }
  }

  /** Conversely every listed certificate with id and fingerprint is either kept or cleaned up. */
  lemma CleanupIsComplete(t: WorkTree, listed: seq<CertInfo>, i: nat)
    requires i < |listed| && listed[i].id.Some? && listed[i].fingerprint.Some?
    ensures listed[i].id.value in Cleanup(t, Index(listed))
            || (listed[i].fingerprint.value in t.certificates
                && Lookup(Index(listed).ids, listed[i].fingerprint.value) == Some(listed[i].id.value))
  {
    hide Index;
    IndexForgetsNothing(listed);
    var x := Index(listed);
    var f, id := listed[i].fingerprint.value, listed[i].id.value;
    if id !in x.duplicates && f !in t.certificates {
      assert f in Unused(t, x.ids) && x.ids[f] == id;
    }
  }
}
