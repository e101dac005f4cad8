/** A plain JavaScript object used as a dictionary keyed by date string
    (`salesByDate`, `customersByDate`): its entries in insertion order, with
    no key twice. Date strings are day numbers here. */
module DateDict {
  import opened Common

  type Dict<V> = seq<(Day, V)>

  ghost predicate DistinctKeys<V>(m: Dict<V>)
  {
    forall i, j :: 0 <= i < |m| && 0 <= j < |m| && m[i].0 == m[j].0 ==> i == j
  }

  /** Position of the entry for `d`, if there is one. */
  function IndexOf<V>(m: Dict<V>, d: Day): (r: Option<nat>)
    ensures r.Some? ==> r.value < |m| && m[r.value].0 == d
    ensures r.Some? ==> forall j :: 0 <= j < r.value ==> m[j].0 != d
    ensures r.None? ==> forall i :: 0 <= i < |m| ==> m[i].0 != d
  {
    if m == [] then None
    else match IndexOf(m[..|m| - 1], d)
      case Some(i) => Some(i)
      case None => if m[|m| - 1].0 == d then Some(|m| - 1) else None
  }

  /** `obj[d] !== undefined` */
  predicate Has<V>(m: Dict<V>, d: Day)
  {
    IndexOf(m, d).Some?
  }

  /** `obj[d]` */
  function Get<V>(m: Dict<V>, d: Day): V
    requires Has(m, d)
  {
    m[IndexOf(m, d).value].1
  }

  /** `obj[d] = v`: overwrites the entry in place, or appends a new one. */
  function Put<V>(m: Dict<V>, d: Day, v: V): (r: Dict<V>)
    requires DistinctKeys(m)
    ensures DistinctKeys(r)
    ensures |r| == if Has(m, d) then |m| else |m| + 1
    ensures forall e :: Has(r, e) <==> Has(m, e) || e == d
    ensures Has(r, d) && Get(r, d) == v
    ensures forall e :: e != d && Has(m, e) ==> Get(r, e) == Get(m, e)
  {
    match IndexOf(m, d)
    case Some(i) =>
      var r := m[i := (d, v)];
      assert forall j :: 0 <= j < |r| ==> r[j].0 == m[j].0;
      KeysAgree(m, r);
      r
    case None =>
      var r := m + [(d, v)];
      assert forall j :: 0 <= j < |m| ==> r[j] == m[j];
      assert r[..|m|] == m;
      assert IndexOf(r, d) == Some(|m|);
      r
  }

  /** `obj[d]` is defined exactly when some entry has date `d`, and then it is
      that entry's value: the first one's, the only one's when dates are unique. */
  lemma LookupIsEntry<V>(m: Dict<V>, d: Day)
    ensures Has(m, d) <==> exists i :: 0 <= i < |m| && m[i].0 == d
    ensures Has(m, d) ==> exists i :: 0 <= i < |m| && m[i] == (d, Get(m, d))
    ensures Has(m, d) && DistinctKeys(m) ==> forall i :: 0 <= i < |m| && m[i].0 == d ==> m[i].1 == Get(m, d)
  {
    if Has(m, d) {
      var i := IndexOf(m, d).value;
      assert m[i] == (d, Get(m, d));
    }
  }

  /** Two dictionaries with the same keys at the same positions look keys up alike. */
  lemma {:induction false} KeysAgree<V>(m: Dict<V>, r: Dict<V>)
    requires |m| == |r|
    requires forall j :: 0 <= j < |m| ==> r[j].0 == m[j].0
    ensures forall e :: IndexOf(r, e) == IndexOf(m, e)
  {
    if m != [] {
      KeysAgree(m[..|m| - 1], r[..|r| - 1]);
    }
  }

  function Keys<V>(m: Dict<V>): (ks: seq<Day>)
    ensures |ks| == |m| && forall i :: 0 <= i < |m| ==> ks[i] == m[i].0
    ensures forall d :: d in ks <==> Has(m, d)
    ensures DistinctKeys(m) ==> forall i, j :: 0 <= i < j < |ks| ==> ks[i] != ks[j]
  {
    seq(|m|, i requires 0 <= i < |m| => m[i].0)
  }

  function Values<V>(m: Dict<V>): (vs: seq<V>)
    ensures |vs| == |m| && forall i :: 0 <= i < |m| ==> vs[i] == m[i].1
    ensures DistinctKeys(m) ==> forall i :: 0 <= i < |m| ==> Has(m, m[i].0) && vs[i] == Get(m, m[i].0)
  {
    seq(|m|, i requires 0 <= i < |m| => m[i].1)
  }

  /** In a dictionary without repeated keys, every entry is what its key looks up. */
  lemma EntryIsLookup<V>(m: Dict<V>, i: nat)
    requires DistinctKeys(m) && i < |m|
    ensures Has(m, m[i].0) && Get(m, m[i].0) == m[i].1
  {
  }
}
