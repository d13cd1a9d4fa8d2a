/**
 * Counting occurrences in first-seen order: lodash's `countBy(...).pairs()`
 * (colour fallback in index.js) and the `types[key] = (types[key] || 0) + 1`
 * dictionaries of verify_complete.js, and the pick of a most frequent key.
 */
module Tallies {

  /** Number of occurrences of `x` in `s`. */
  function Occ<T(==)>(s: seq<T>, x: T): nat {
    if s == [] then 0 else Occ(s[..|s| - 1], x) + (if s[|s| - 1] == x then 1 else 0)
  }

  predicate NoDup<T(==)>(s: seq<T>) {
    forall i, j :: 0 <= i < j < |s| ==> s[i] != s[j]
  }

  /** The distinct elements of `s` in order of first occurrence (the insertion order of a dictionary). */
  function Distinct<T(==)>(s: seq<T>): (d: seq<T>)
    ensures NoDup(d)
    ensures forall i :: 0 <= i < |d| ==> d[i] in s
    ensures forall i :: 0 <= i < |s| ==> s[i] in d
  {
    if s == [] then []
    else
      var d := Distinct(s[..|s| - 1]);
      assert forall i :: 0 <= i < |s| - 1 ==> s[i] == s[..|s| - 1][i];
      if s[|s| - 1] in d then d else d + [s[|s| - 1]]
  }

  /** `(key, count)` pairs in first-seen order. */
  function Tally<T(==)>(s: seq<T>): (t: seq<(T, nat)>)
    ensures |t| == |Distinct(s)|
    ensures forall i :: 0 <= i < |t| ==> t[i] == (Distinct(s)[i], Occ(s, Distinct(s)[i]))
  {
    var d := Distinct(s);
    seq(|d|, i requires 0 <= i < |d| => (d[i], Occ(s, d[i])))
  }

  function SumCounts<T>(t: seq<(T, nat)>): nat {
    if t == [] then 0 else SumCounts(t[..|t| - 1]) + t[|t| - 1].1
  }

  /** Sum of the occurrence counts of `keys` in `s`. */
  function SumOcc<T(==)>(keys: seq<T>, s: seq<T>): nat {
    if keys == [] then 0 else SumOcc(keys[..|keys| - 1], s) + Occ(s, keys[|keys| - 1])
  }

  lemma {:induction false} OccZero<T>(s: seq<T>, x: T)
    ensures Occ(s, x) == 0 <==> x !in s
  {
    if s != [] {
      OccZero(s[..|s| - 1], x);
      assert x in s <==> x in s[..|s| - 1] || x == s[|s| - 1];
    }
  }

  lemma OccSnoc<T>(s: seq<T>, x: T, y: T)
    ensures Occ(s + [x], y) == Occ(s, y) + (if x == y then 1 else 0)
  {
    assert (s + [x])[..|s|] == s;
  }

  /** Appending `x` to `s` adds one to the sum exactly when `x` is one of the (distinct) keys. */
  lemma {:induction false} SumOccSnoc<T>(keys: seq<T>, s: seq<T>, x: T)
    requires NoDup(keys)
    ensures SumOcc(keys, s + [x]) == SumOcc(keys, s) + (if x in keys then 1 else 0)
  {
    if keys != [] {
      var init := keys[..|keys| - 1];
      assert NoDup(init);
      SumOccSnoc(init, s, x);
      OccSnoc(s, x, keys[|keys| - 1]);
      assert x in keys <==> x in init || x == keys[|keys| - 1];
    }
  }

  lemma {:induction false} SumCountsOfPairs<T>(t: seq<(T, nat)>, keys: seq<T>, s: seq<T>)
    requires |t| == |keys|
    requires forall i :: 0 <= i < |t| ==> t[i] == (keys[i], Occ(s, keys[i]))
    ensures SumCounts(t) == SumOcc(keys, s)
  {
    if t != [] {
      SumCountsOfPairs(t[..|t| - 1], keys[..|keys| - 1], s);
    }
  }

  lemma {:induction false} SumOccDistinct<T>(s: seq<T>)
    ensures SumOcc(Distinct(s), s) == |s|
  {
    if s != [] {
      var init, x := s[..|s| - 1], s[|s| - 1];
      assert s == init + [x];
      SumOccDistinct(init);
      var d := Distinct(init);
      SumOccSnoc(d, init, x);
      if x !in d {
        OccZero(init, x);
        OccSnoc(init, x, x);
        assert (d + [x])[..|d|] == d;
      }
    }
  }

  /** The counts of a tally add up to the length of the counted sequence. */
  lemma TallySum<T>(s: seq<T>)
    ensures SumCounts(Tally(s)) == |s|
  {
    SumCountsOfPairs(Tally(s), Distinct(s), s);
    SumOccDistinct(s);
  }

  /** Every key of a tally occurs at least once, and every element of `s` is a key. */
  lemma TallyPositive<T>(s: seq<T>)
    ensures forall i :: 0 <= i < |Tally(s)| ==> Tally(s)[i].1 >= 1
    ensures forall x :: x in s ==> exists i :: 0 <= i < |Tally(s)| && Tally(s)[i].0 == x
  {
    var t := Tally(s);
    forall i | 0 <= i < |t| ensures t[i].1 >= 1 {
      OccZero(s, Distinct(s)[i]);
    }
    forall x | x in s ensures exists i :: 0 <= i < |t| && t[i].0 == x {
      var i :| 0 <= i < |Distinct(s)| && Distinct(s)[i] == x;
      assert t[i].0 == x;
    }
  }

  /** Index of the first pair with the largest count (an earlier pair wins a tie). */
  function FirstMaxIndex<T>(t: seq<(T, nat)>): (k: nat)
    requires |t| > 0
    ensures k < |t|
    ensures forall j :: 0 <= j < |t| ==> t[j].1 <= t[k].1
    ensures forall j :: 0 <= j < k ==> t[j].1 < t[k].1
  {
    if |t| == 1 then 0
    else
      var k := FirstMaxIndex(t[..|t| - 1]);
      if t[|t| - 1].1 > t[k].1 then |t| - 1 else k
  }

  /** The most frequent element of a non-empty `s`; of several, the one seen first. */
  function MostFrequent<T(==)>(s: seq<T>): (x: T)
    requires |s| > 0
    ensures x in s
    ensures forall y :: y in s ==> Occ(s, y) <= Occ(s, x)
  {
    var t := Tally(s);
    TallyPositive(s);
    assert exists i :: 0 <= i < |t| && t[i].0 == s[0];
    var k := FirstMaxIndex(t);
    assert t[k].0 == Distinct(s)[k];
    forall y | y in s ensures Occ(s, y) <= Occ(s, t[k].0) {
      var i :| 0 <= i < |t| && t[i].0 == y;
    }
    t[k].0
  }

  /** Of the elements with the largest count, `MostFrequent` is the one that occurs first. */
  lemma MostFrequentSeenFirst<T>(s: seq<T>, y: T)
    requires |s| > 0 && y in s && Occ(s, y) == Occ(s, MostFrequent(s)) && y != MostFrequent(s)
    ensures exists i, j :: 0 <= i < j < |Distinct(s)| && Distinct(s)[i] == MostFrequent(s) && Distinct(s)[j] == y
  {
    var t := Tally(s);
    var k := FirstMaxIndex(t);
    TallyPositive(s);
    var j :| 0 <= j < |t| && t[j].0 == y;
    assert Distinct(s)[k] == MostFrequent(s);
    assert j != k;
    assert !(j < k);
  }

  /** `s.filter(p)`: the elements satisfying `p`, in order. */
  function Filter<T>(s: seq<T>, p: T -> bool): (r: seq<T>)
    ensures |r| <= |s|
    ensures forall i :: 0 <= i < |r| ==> p(r[i])
  {
    if s == [] then []
    else
      var r := Filter(s[..|s| - 1], p);
      if p(s[|s| - 1]) then r + [s[|s| - 1]] else r
  }

  lemma FilterSnoc<T>(s: seq<T>, x: T, p: T -> bool)
    ensures Filter(s + [x], p) == if p(x) then Filter(s, p) + [x] else Filter(s, p)
  {
    assert (s + [x])[..|s|] == s;
  }

  /** The negation of a predicate, as in `filter(c => !c.name)` beside `filter(c => c.name)`. */
  function Not<T>(p: T -> bool): T -> bool {
    x => !p(x)
  }

  /** The elements satisfying `p` and those failing it together account for all of `s`. */
  lemma {:induction false} FilterComplement<T>(s: seq<T>, p: T -> bool)
    ensures |Filter(s, p)| + |Filter(s, Not(p))| == |s|
  {
    if s != [] {
      FilterComplement(s[..|s| - 1], p);
    }
  }

  /** A filter keeps the relative order of the elements it keeps: it is a subsequence via increasing indices. */
  lemma {:induction false} FilterInOrder<T>(s: seq<T>, p: T -> bool) returns (idx: seq<nat>)
    ensures |idx| == |Filter(s, p)|
    ensures forall k :: 0 <= k < |idx| ==> idx[k] < |s| && Filter(s, p)[k] == s[idx[k]]
    ensures forall j, k :: 0 <= j < k < |idx| ==> idx[j] < idx[k]
    ensures forall i :: 0 <= i < |s| && p(s[i]) ==> i in idx
  {
    if s == [] {
      idx := [];
    } else {
      var n := |s|;
      var init, x := s[..n - 1], s[n - 1];
      var r := Filter(init, p);
      var prev := FilterInOrder(init, p);
      if p(x) {
        assert Filter(s, p) == r + [x];
        idx := prev + [n - 1];
        forall k | 0 <= k < |idx| ensures idx[k] < n && Filter(s, p)[k] == s[idx[k]] {
          if k < |prev| {
            assert Filter(s, p)[k] == r[k] == init[prev[k]];
          }
        }
        forall i | 0 <= i < n && p(s[i]) ensures i in idx {
          if i < n - 1 {
            assert s[i] == init[i];
            assert i in prev;
          }
        }
      } else {
        assert Filter(s, p) == r;
        idx := prev;
        forall k | 0 <= k < |idx| ensures idx[k] < n && Filter(s, p)[k] == s[idx[k]] {
          assert Filter(s, p)[k] == r[k] == init[prev[k]];
        }
        forall i | 0 <= i < n && p(s[i]) ensures i in idx {
          assert s[i] == init[i];
        }
      }
    }
  }

  /** `new Set(s).size` is at most `|s|`, and equals it exactly when `s` has no repeated element. */
  lemma {:induction false} DistinctLength<T>(s: seq<T>)
    ensures |Distinct(s)| <= |s|
    ensures |Distinct(s)| == |s| <==> NoDup(s)
  {
    if s != [] {
      var init, x := s[..|s| - 1], s[|s| - 1];
      DistinctLength(init);
      assert s == init + [x];
      if x in init {
        var i :| 0 <= i < |init| && init[i] == x;
        assert s[i] == s[|s| - 1];
        assert !NoDup(s);
      } else {
        assert NoDup(s) <==> NoDup(init);
      }
    }
  }

  /** Where `x` is in a tally, or `|t|` when it is not: the lookup `types[key]`. */
  function KeyIndex<T(==)>(t: seq<(T, nat)>, x: T): (j: nat)
    ensures j <= |t|
    ensures j < |t| ==> t[j].0 == x
    ensures forall i :: 0 <= i < j ==> t[i].0 != x
  {
    if t == [] then 0
    else if t[0].0 == x then 0
    else 1 + KeyIndex(t[1..], x)
  }

  lemma OccSnocAll<T>(s: seq<T>, x: T)
    ensures forall y :: Occ(s + [x], y) == Occ(s, y) + (if x == y then 1 else 0)
  {
    forall y ensures Occ(s + [x], y) == Occ(s, y) + (if x == y then 1 else 0) {
      OccSnoc(s, x, y);
    }
  }

  /** Counting a key already seen increments its entry and leaves the rest. */
  lemma TallySnocSeen<T>(s: seq<T>, x: T, j: nat)
    requires j < |Tally(s)| && Tally(s)[j].0 == x
    ensures Tally(s + [x]) == Tally(s)[j := (x, Tally(s)[j].1 + 1)]
  {
    var t := Tally(s);
    var d := Distinct(s);
    assert (s + [x])[..|s|] == s;
    assert d[j] == x;
    assert Distinct(s + [x]) == d;
    OccSnocAll(s, x);
    var u := Tally(s + [x]);
    var e: (T, nat) := (x, t[j].1 + 1);
    var w := t[j := e];
    forall i | 0 <= i < |t| ensures u[i] == w[i] {
      if i != j {
        assert d[i] != x;
      }
    }
  }

  /** Counting a new key appends it with count one. */
  lemma TallySnocNew<T>(s: seq<T>, x: T)
    requires forall i :: 0 <= i < |Tally(s)| ==> Tally(s)[i].0 != x
    ensures Tally(s + [x]) == Tally(s) + [(x, 1)]
  {
    var t := Tally(s);
    var d := Distinct(s);
    assert forall i :: 0 <= i < |d| ==> d[i] == t[i].0;
    assert x !in d;
    forall i | 0 <= i <= |d| ensures Tally(s + [x])[i] == (t + [(x, 1)])[i] {
      TallySnocNewAt(s, x, i);
    }
  }

  lemma TallySnocNewAt<T>(s: seq<T>, x: T, i: nat)
    requires x !in Distinct(s) && i <= |Distinct(s)|
    ensures |Tally(s + [x])| == |Tally(s)| + 1
    ensures Tally(s + [x])[i] == (Tally(s) + [(x, 1)])[i]
  {
    DistinctSnocNew(s, x);
    if i < |Distinct(s)| {
      OccSnoc(s, x, Distinct(s)[i]);
    } else {
      OccOfNew(s, x);
    }
  }

  lemma DistinctSnocNew<T>(s: seq<T>, x: T)
    requires x !in Distinct(s)
    ensures Distinct(s + [x]) == Distinct(s) + [x]
  {
    assert (s + [x])[..|s|] == s;
  }

  lemma OccOfNew<T>(s: seq<T>, x: T)
    requires x !in Distinct(s)
    ensures Occ(s + [x], x) == 1
  {
    OccZero(s, x);
    OccSnoc(s, x, x);
  }

  /** Counting one more element: an existing key's count goes up by one, a new key is appended with count one. */
  lemma TallySnoc<T>(s: seq<T>, x: T)
    ensures var t := Tally(s); var j := KeyIndex(t, x);
      (j < |t| ==> Tally(s + [x]) == t[j := (x, t[j].1 + 1)])
      && (j == |t| ==> Tally(s + [x]) == t + [(x, 1)])
  {
    var t := Tally(s);
    var j := KeyIndex(t, x);
    if j < |t| {
      TallySnocSeen(s, x, j);
    } else {
      TallySnocNew(s, x);
    }
  }
}
