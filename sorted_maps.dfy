/**
 * `std::map<std::string, std::string>`: entries kept in ascending key order under the
 * lexicographic comparison `std::string::operator<`, one entry per key. Iteration visits the
 * entries in that order, which `buildResponse` makes observable.
 */
module SortedMaps {
  import opened Wrappers

  /** `a < b` for strings: the first differing character decides, and a proper prefix is smaller. */
  predicate Less(a: string, b: string)
    decreases |a|
  {
    if a == [] then b != []
    else b != [] && (a[0] < b[0] || (a[0] == b[0] && Less(a[1..], b[1..])))
  }

  lemma {:induction false} LessIrreflexive(a: string)
    ensures !Less(a, a)
    decreases |a|
  {
    if a != [] {
      LessIrreflexive(a[1..]);
    }
  }

  lemma {:induction false} LessTransitive(a: string, b: string, c: string)
    requires Less(a, b) && Less(b, c)
    ensures Less(a, c)
    decreases |a|
  {
    if a != [] && a[0] == b[0] && b[0] == c[0] {
      LessTransitive(a[1..], b[1..], c[1..]);
    }
  }

  /** Any two different strings are ordered one way or the other. */
  lemma {:induction false} LessTotal(a: string, b: string)
    requires a != b
    ensures Less(a, b) || Less(b, a)
    decreases |a|
  {
    if a != [] && b != [] && a[0] == b[0] {
      assert a == [a[0]] + a[1..] && b == [b[0]] + b[1..];
      LessTotal(a[1..], b[1..]);
    }
  }

  type Entries = seq<(string, string)>

  /** Keys strictly ascend, so no key occurs twice. */
  predicate Sorted(e: Entries) {
    forall i, j :: 0 <= i < j < |e| ==> Less(e[i].0, e[j].0)
  }

  /** The keys, in iteration order. */
  function Keys(e: Entries): (r: seq<string>)
    ensures |r| == |e| && forall i :: 0 <= i < |e| ==> r[i] == e[i].0
  {
    if e == [] then [] else [e[0].0] + Keys(e[1..])
  }

  /** `find`: the value stored under `k`. */
  function Get(e: Entries, k: string): (r: Option<string>)
    ensures r.Some? <==> exists i :: 0 <= i < |e| && e[i].0 == k
    ensures r.Some? ==> exists i :: 0 <= i < |e| && e[i] == (k, r.value)
  {
    if e == [] then None
    else if e[0].0 == k then Some(e[0].1)
    else
      var r := Get(e[1..], k);
      if r.Some? then
        assert exists i :: 0 <= i < |e[1..]| && e[1..][i] == (k, r.value);
        var i :| 0 <= i < |e[1..]| && e[1..][i] == (k, r.value);
        assert e[i + 1] == (k, r.value);
        r
      else
        r
  }

  /** `m[k] = v`: replace the entry for `k`, or insert one where the order puts it. */
  function Put(e: Entries, k: string, v: string): Entries {
    if e == [] then [(k, v)]
    else if e[0].0 == k then [(k, v)] + e[1..]
    else if Less(k, e[0].0) then [(k, v)] + e
    else [e[0]] + Put(e[1..], k, v)
  }

  /** The keys of `Put` are those of `e` plus `k`. */
  lemma {:induction false} PutKeys(e: Entries, k: string, v: string)
    ensures forall x :: x in Keys(Put(e, k, v)) <==> x == k || x in Keys(e)
    decreases |e|
  {
    if e != [] && e[0].0 != k && !Less(k, e[0].0) {
      PutKeys(e[1..], k, v);
      assert Keys(Put(e, k, v)) == [e[0].0] + Keys(Put(e[1..], k, v));
      assert Keys(e) == [e[0].0] + Keys(e[1..]);
    } else if e != [] && e[0].0 == k {
      assert Keys(e) == [e[0].0] + Keys(e[1..]);
      assert Keys(Put(e, k, v)) == [k] + Keys(e[1..]);
    } else if e != [] {
      assert Keys(Put(e, k, v)) == [k] + Keys(e);
    }
  }

  /** A sorted list holds each key at most once. */
  lemma SortedKeysUnique(e: Entries, i: nat, j: nat)
    requires Sorted(e) && i < j < |e|
    ensures e[i].0 != e[j].0
  {
    LessIrreflexive(e[i].0);
  }

  /** Insertion keeps the keys ascending. */
  lemma {:induction false} PutSorted(e: Entries, k: string, v: string)
    requires Sorted(e)
    ensures Sorted(Put(e, k, v))
    decreases |e|
  {
    if e != [] && e[0].0 != k {
      if Less(k, e[0].0) {
        forall j | 0 < j < |e| + 1 ensures Less(k, ([(k, v)] + e)[j].0) {
          if j > 1 {
            LessTransitive(k, e[0].0, e[j - 1].0);
          }
        }
      } else {
        var rest := Put(e[1..], k, v);
        PutSorted(e[1..], k, v);
        LessTotal(k, e[0].0);
        PutKeys(e[1..], k, v);
        forall j | 0 <= j < |rest| ensures Less(e[0].0, rest[j].0) {
          var x := rest[j].0;
          assert Keys(rest)[j] == x;
          if x != k {
            assert x in Keys(e[1..]);
            var i :| 0 <= i < |e[1..]| && Keys(e[1..])[i] == x;
            assert e[i + 1].0 == x;
          }
        }
      }
    }
  }

  /** Reading back the key just written gives the value just written. */
  lemma {:induction false} PutGet(e: Entries, k: string, v: string)
    ensures Get(Put(e, k, v), k) == Some(v)
    decreases |e|
  {
    if e != [] && e[0].0 != k && !Less(k, e[0].0) {
      PutGet(e[1..], k, v);
    }
  }

  /** Writing one key leaves every other key as it was. */
  lemma {:induction false} PutGetOther(e: Entries, k: string, v: string, x: string)
    requires x != k
    ensures Get(Put(e, k, v), x) == Get(e, x)
    decreases |e|
  {
    if e != [] && e[0].0 != k && !Less(k, e[0].0) {
      PutGetOther(e[1..], k, v, x);
    }
  }

  /** `getHeader`-style lookup: the stored value, or "" when the key is absent. */
  function Lookup(e: Entries, k: string): string {
    match Get(e, k)
    case Some(v) => v
    case None => []
  }
}
