/**
 * The progress-saving cadence of the detail loops in scrape_cards.js and
 * scrape_from_urls.js: after item `i` of `n`, the whole array built so far
 * is written out when `i + 1` is a multiple of ten or `i` is the last index.
 */
module Checkpoints {

  /** Cards between two saves. */
  const Interval: nat := 10

  /** `(i + 1) % 10 === 0 || i === n - 1`. */
  predicate FlushAfter(i: nat, n: nat) {
    (i + 1) % Interval == 0 || i + 1 == n
  }

  /** The contents of each save, in order, while the first `|out|` of `n` entries were produced. */
  function Snapshots<T>(out: seq<T>, n: nat): seq<seq<T>> {
    if out == [] then []
    else Snapshots(out[..|out| - 1], n) + (if FlushAfter(|out| - 1, n) then [out] else [])
  }

  /** Producing one more entry adds the save of the array so far exactly when the cadence says so. */
  lemma SnapshotsSnoc<T>(out: seq<T>, x: T, n: nat)
    ensures Snapshots(out + [x], n) == Snapshots(out, n) + (if FlushAfter(|out|, n) then [out + [x]] else [])
  {
    assert (out + [x])[..|out|] == out;
  }

  /** Every save holds a prefix of the entries, so a later save never loses an entry an earlier one held. */
  lemma {:induction false} SnapshotsArePrefixes<T>(out: seq<T>, n: nat)
    ensures forall j :: 0 <= j < |Snapshots(out, n)| ==> Snapshots(out, n)[j] <= out
    ensures forall j, k :: 0 <= j < k < |Snapshots(out, n)| ==> Snapshots(out, n)[j] < Snapshots(out, n)[k]
  {
    if out != [] {
      var init := out[..|out| - 1];
      SnapshotsArePrefixes(init, n);
      SnapshotsShorter(init, n);
      assert init < out;
    }
  }

  lemma {:induction false} SnapshotsShorter<T>(out: seq<T>, n: nat)
    ensures forall j :: 0 <= j < |Snapshots(out, n)| ==> |Snapshots(out, n)[j]| <= |out|
  {
    if out != [] {
      SnapshotsShorter(out[..|out| - 1], n);
    }
  }

  /** Once all `n` entries exist, the last save is the whole array. */
  lemma LastSnapshotIsWhole<T>(out: seq<T>)
    requires |out| > 0
    ensures |Snapshots(out, |out|)| > 0
    ensures Snapshots(out, |out|)[|Snapshots(out, |out|)| - 1] == out
  {
  }

  /**
   * Save `j` holds the first `10 * (j + 1)` entries, the last one of a
   * complete run all `n`: one save per ten entries, plus one for a final
   * partial group.
   */
  lemma {:induction false} SnapshotLengths<T>(out: seq<T>, n: nat)
    requires |out| <= n
    ensures |Snapshots(out, n)| == |out| / 10 + (if |out| == n && n % 10 != 0 then 1 else 0)
    ensures forall j :: 0 <= j < |Snapshots(out, n)| ==>
      |Snapshots(out, n)[j]| == (if 10 * (j + 1) <= n then 10 * (j + 1) else n)
  {
    if out != [] {
      var k := |out|;
      SnapshotLengths(out[..k - 1], n);
      assert |Snapshots(out[..k - 1], n)| == (k - 1) / 10;
      if FlushAfter(k - 1, n) {
        var q := (k - 1) / 10;
        assert k - 1 == 10 * q + (k - 1) % 10;
        assert |Snapshots(out, n)[q]| == k;
      }
    }
  }
}
