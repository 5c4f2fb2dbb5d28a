/**
 * The list arithmetic both pipelines share: `concat` of a list of lists, the sum of
 * a list of counts, and the element-wise sum of two loss totals.
 */
module Lists {

  /** The parts one after the other, as repeated `concat` builds them. */
  function Flatten<T>(parts: seq<seq<T>>): seq<T>
  {
    if parts == [] then [] else Flatten(parts[..|parts| - 1]) + parts[|parts| - 1]
  }

  function Total(ns: seq<nat>): nat
  {
    if ns == [] then 0 else Total(ns[..|ns| - 1]) + ns[|ns| - 1]
  }

  function Lengths<T>(ss: seq<seq<T>>): (ns: seq<nat>)
    ensures |ns| == |ss|
    ensures forall i :: 0 <= i < |ss| ==> ns[i] == |ss[i]|
  {
    seq(|ss|, i requires 0 <= i < |ss| => |ss[i]|)
  }

  /** `a[k] + b[k]` for every position `k`. */
  function AddTotals(a: seq<real>, b: seq<real>): (r: seq<real>)
    requires |a| == |b|
    ensures |r| == |a|
    ensures forall k :: 0 <= k < |a| ==> r[k] == a[k] + b[k]
  {
    seq(|a|, k requires 0 <= k < |a| => a[k] + b[k])
  }

  /** The flattened list is as long as its parts together. */
  lemma {:induction false} FlattenLength<T>(ss: seq<seq<T>>)
    ensures |Flatten(ss)| == Total(Lengths(ss))
  {
    if ss != [] {
      var init := ss[..|ss| - 1];
      FlattenLength(init);
      assert Lengths(ss)[..|ss| - 1] == Lengths(init);
    }
  }

  /** Flattening two lists of parts one after the other gives their elements one after the other. */
  lemma {:induction false} FlattenAppend<T>(a: seq<seq<T>>, b: seq<seq<T>>)
    ensures Flatten(a + b) == Flatten(a) + Flatten(b)
  {
    if b != [] {
      var init := b[..|b| - 1];
      FlattenAppend(a, init);
      assert (a + b)[..|a + b| - 1] == a + init;
      assert (a + b)[|a + b| - 1] == b[|b| - 1];
    } else {
      assert a + b == a;
    }
  }

  /** An element is in the flattened list exactly when some part holds it. */
  lemma {:induction false} FlattenMembers<T>(parts: seq<seq<T>>, y: T)
    ensures y in Flatten(parts) <==> exists i :: 0 <= i < |parts| && y in parts[i]
  {
    if parts != [] {
      var init := parts[..|parts| - 1];
      FlattenMembers(init, y);
      if exists i :: 0 <= i < |init| && y in init[i] {
        var i :| 0 <= i < |init| && y in init[i];
        assert parts[i] == init[i];
      }
      if exists i :: 0 <= i < |parts| && y in parts[i] {
        var i :| 0 <= i < |parts| && y in parts[i];
        if i < |init| {
          assert parts[i] == init[i];
        }
      }
    }
  }
}
