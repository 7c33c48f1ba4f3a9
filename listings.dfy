/**
 * The IPO listing record shared by the predictor and the admin panel, the
 * lookup by id (`Array.prototype.find`) and an order-preserving filter
 * (`Array.prototype.filter`).
 */
module Listings {

  datatype Option<T> = None | Some(value: T)

  /** One listing; `kind` is the record's `type` field. */
  datatype Ipo = Ipo(
    id: string,
    name: string,
    nameNP: string,
    sector: string,
    kind: string,
    category: string,
    issuedUnits: real,
    price: real,
    openDate: string,
    closeDate: string)

  /** The first listing whose id is `id`, if any. */
  function Find(ipos: seq<Ipo>, id: string): (r: Option<Ipo>)
    ensures r.None? <==> forall i :: 0 <= i < |ipos| ==> ipos[i].id != id
    ensures r.Some? ==> r.value in ipos && r.value.id == id
    ensures r.Some? ==> exists i :: 0 <= i < |ipos| && ipos[i] == r.value &&
                                    forall j :: 0 <= j < i ==> ipos[j].id != id
  {
    if ipos == [] then None
    else if ipos[0].id == id then Some(ipos[0])
    else
      var r := Find(ipos[1..], id);
      if r.Some? then
        ghost var i :| 0 <= i < |ipos[1..]| && ipos[1..][i] == r.value &&
                       forall j :: 0 <= j < i ==> ipos[1..][j].id != id;
        assert ipos[i + 1] == r.value;
        r
      else
        assert forall i :: 1 <= i < |ipos| ==> ipos[i] == ipos[1..][i - 1];
        r
  }

  /** `a` is `b` with some elements dropped and the rest in their order. */
  ghost predicate IsSubsequence(a: seq<Ipo>, b: seq<Ipo>)
    decreases |b|
  {
    if a == [] then true
    else if b == [] then false
    else (a[0] == b[0] && IsSubsequence(a[1..], b[1..])) || IsSubsequence(a, b[1..])
  }

  /** The elements of `s` that satisfy `keep`, in their order. */
  function Keep(s: seq<Ipo>, keep: Ipo -> bool): (r: seq<Ipo>)
    ensures IsSubsequence(r, s)
    ensures forall x :: multiset(r)[x] == if keep(x) then multiset(s)[x] else 0
    ensures |r| <= |s|
  {
    if s == [] then []
    else
      var rest := Keep(s[1..], keep);
      assert s == [s[0]] + s[1..];
      if keep(s[0]) then
        assert ([s[0]] + rest)[1..] == rest;
        [s[0]] + rest
      else
        rest
  }

  /** A filter that keeps every element returns its input. */
  lemma {:induction false} KeepAll(s: seq<Ipo>, keep: Ipo -> bool)
    requires forall i :: 0 <= i < |s| ==> keep(s[i])
    ensures Keep(s, keep) == s
  {
    if s != [] {
      KeepAll(s[1..], keep);
      assert s == [s[0]] + s[1..];
    }
  }
}
