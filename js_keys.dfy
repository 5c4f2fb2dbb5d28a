/**
 * The order in which `Object.keys` lists the own properties of a plain object:
 * first the keys that are array indices, in ascending numeric order, then every
 * other key in the order it was first added.
 */
module JsKeys {
  import opened JsText

  /** 2^32 - 1: array indices are the integers below it. */
  const IndexLimit: nat := 4294967295

  /** `s` is an array index: the canonical decimal numeral of an integer below 2^32 - 1. */
  predicate IsIndexKey(s: string)
  {
    Canonical(s) && DigitsValue(s) < IndexLimit
  }

  function Rank(s: string): nat
    requires IsIndexKey(s)
  {
    DigitsValue(s)
  }

  predicate AllIndexKeys(ks: seq<string>)
  {
    forall i :: 0 <= i < |ks| ==> IsIndexKey(ks[i])
  }

  predicate SortedByRank(ks: seq<string>)
    requires AllIndexKeys(ks)
  {
    forall i, j :: 0 <= i < j < |ks| ==> Rank(ks[i]) <= Rank(ks[j])
  }

  function IndexKeys(ks: seq<string>): (r: seq<string>)
    ensures AllIndexKeys(r)
  {
    if ks == [] then []
    else (if IsIndexKey(ks[0]) then [ks[0]] else []) + IndexKeys(ks[1..])
  }

  function OtherKeys(ks: seq<string>): (r: seq<string>)
    ensures forall i :: 0 <= i < |r| ==> !IsIndexKey(r[i])
  {
    if ks == [] then []
    else (if IsIndexKey(ks[0]) then [] else [ks[0]]) + OtherKeys(ks[1..])
  }

  lemma {:induction false} SplitKeys(ks: seq<string>)
    ensures multiset(IndexKeys(ks)) + multiset(OtherKeys(ks)) == multiset(ks)
  {
    if ks != [] {
      SplitKeys(ks[1..]);
      assert ks == [ks[0]] + ks[1..];
    }
  }

  function InsertByRank(k: string, sorted: seq<string>): (r: seq<string>)
    requires IsIndexKey(k) && AllIndexKeys(sorted)
    ensures AllIndexKeys(r)
    ensures multiset(r) == multiset(sorted) + multiset{k}
  {
    if sorted == [] then [k]
    else if Rank(k) <= Rank(sorted[0]) then [k] + sorted
    else
      assert sorted == [sorted[0]] + sorted[1..];
      [sorted[0]] + InsertByRank(k, sorted[1..])
  }

  /** Inserting by rank into a sorted list keeps it sorted. */
  lemma {:induction false} InsertByRankSorted(k: string, sorted: seq<string>)
    requires IsIndexKey(k) && AllIndexKeys(sorted) && SortedByRank(sorted)
    ensures SortedByRank(InsertByRank(k, sorted))
    ensures sorted != [] ==> Rank(InsertByRank(k, sorted)[0]) == Min(Rank(k), Rank(sorted[0]))
  {
    if sorted != [] && Rank(k) > Rank(sorted[0]) {
      var tail := sorted[1..];
      InsertByRankSorted(k, tail);
      var r := InsertByRank(k, sorted);
      var t := InsertByRank(k, tail);
      assert r == [sorted[0]] + t;
      InsertByRankBound(k, tail, Rank(sorted[0]));
    }
  }

  /** A lower bound on the ranks of the key and of the list bounds the result. */
  lemma {:induction false} InsertByRankBound(k: string, sorted: seq<string>, b: nat)
    requires IsIndexKey(k) && AllIndexKeys(sorted)
    requires b <= Rank(k) && forall m :: 0 <= m < |sorted| ==> b <= Rank(sorted[m])
    ensures forall j :: 0 <= j < |InsertByRank(k, sorted)| ==> b <= Rank(InsertByRank(k, sorted)[j])
  {
    if sorted != [] && Rank(k) > Rank(sorted[0]) {
      InsertByRankBound(k, sorted[1..], b);
    }
  }

  function Min(a: nat, b: nat): nat
  {
    if a <= b then a else b
  }

  function SortByRank(ks: seq<string>): (r: seq<string>)
    requires AllIndexKeys(ks)
    ensures AllIndexKeys(r)
    ensures multiset(r) == multiset(ks)
  {
    if ks == [] then []
    else
      assert ks == [ks[0]] + ks[1..];
      InsertByRank(ks[0], SortByRank(ks[1..]))
  }

  lemma {:induction false} SortByRankSorted(ks: seq<string>)
    requires AllIndexKeys(ks)
    ensures SortedByRank(SortByRank(ks))
  {
    if ks != [] {
      SortByRankSorted(ks[1..]);
      InsertByRankSorted(ks[0], SortByRank(ks[1..]));
    }
  }

  /** `Object.keys(o)` for an object whose properties were added in the order `insertion`. */
  function OwnKeys(insertion: seq<string>): (r: seq<string>)
    ensures multiset(r) == multiset(insertion)
  {
    SplitKeys(insertion);
    SortByRank(IndexKeys(insertion)) + OtherKeys(insertion)
  }

  /**
   * The order of `Object.keys`: the array-index keys come first, in ascending
   * numeric order, and the other keys follow in insertion order.
   */
  lemma OwnKeysOrder(insertion: seq<string>)
    ensures var r := OwnKeys(insertion); var n := |IndexKeys(insertion)|;
      && n <= |r|
      && (forall i :: 0 <= i < |r| ==> (IsIndexKey(r[i]) <==> i < n))
      && (forall i, j :: 0 <= i < j < n ==> Rank(r[i]) <= Rank(r[j]))
      && r[n..] == OtherKeys(insertion)
  {
    var s := SortByRank(IndexKeys(insertion));
    SortByRankSorted(IndexKeys(insertion));
    assert |s| == |IndexKeys(insertion)| by {
      assert |multiset(s)| == |multiset(IndexKeys(insertion))|;
    }
  }

  /** Keys that were added once each are listed once each. */
  lemma OwnKeysDistinct(insertion: seq<string>)
    requires forall i, j :: 0 <= i < j < |insertion| ==> insertion[i] != insertion[j]
    ensures var r := OwnKeys(insertion);
      && |r| == |insertion|
      && (forall i, j :: 0 <= i < j < |r| ==> r[i] != r[j])
      && (forall k :: k in r <==> k in insertion)
  {
    var r := OwnKeys(insertion);
    assert |r| == |insertion| by {
      assert |multiset(r)| == |multiset(insertion)|;
    }
    forall k ensures k in r <==> k in insertion {
      assert k in r <==> k in multiset(r);
      assert k in insertion <==> k in multiset(insertion);
    }
    forall i, j | 0 <= i < j < |r| ensures r[i] != r[j] {
      if r[i] == r[j] {
        MultiplicityAtLeastTwo(r, i, j);
        DistinctMultiplicity(insertion, r[i]);
        assert false;
      }
    }
  }

  lemma MultiplicityAtLeastTwo(s: seq<string>, i: nat, j: nat)
    requires i < j < |s| && s[i] == s[j]
    ensures multiset(s)[s[i]] >= 2
  {
    assert s == s[..i] + [s[i]] + s[i + 1..j] + [s[j]] + s[j + 1..];
  }

  lemma {:induction false} DistinctMultiplicity(s: seq<string>, k: string)
    requires forall i, j :: 0 <= i < j < |s| ==> s[i] != s[j]
    ensures multiset(s)[k] <= 1
  {
    if s != [] {
      DistinctMultiplicity(s[1..], k);
      assert s == [s[0]] + s[1..];
      if s[0] == k {
        assert k !in s[1..];
      }
    }
  }
}
