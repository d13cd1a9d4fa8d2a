/**
 * scripts/merge_results.js: fill the failed (nameless) entries of a results
 * file with the successful entries of a retry run, matched by card id, and
 * save the merged list and, when some entries are still nameless, those
 * entries on their own. The files on disk are a map from path to the card
 * list they hold.
 */
module MergeResults {
  import opened Wrappers
  import opened Text
  import opened Cards
  import opened Tallies

  const DefaultOutputFile: string := "results/merged_cards.json"
  const UsageMessage: string := "Usage: node merge_results.js <original_file> <retry_file> [output_file]"
  const StillFailedSuffix: string := "_still_failed.json"

  /** A retry entry that goes into the map: `card.id && card.name`. */
  predicate Eligible(c: Card) {
    Truthy(c.id) && Truthy(c.name)
  }

  /** `retryMap` after the `forEach`: each eligible entry set under its id, a later one replacing an earlier. */
  function RetryMap(retry: seq<Card>): map<string, Card> {
    if retry == [] then map[]
    else
      var m := RetryMap(retry[..|retry| - 1]);
      var c := retry[|retry| - 1];
      if Eligible(c) then m[c.id.value := c] else m
  }

  /** The `forEach` filling `retryMap`. */
  method BuildRetryMap(retry: seq<Card>) returns (m: map<string, Card>)
    ensures m == RetryMap(retry)
  {
    m := map[];
    var i := 0;
    while i < |retry|
      invariant 0 <= i <= |retry|
      invariant m == RetryMap(retry[..i])
    {
      assert retry[..i + 1][..i] == retry[..i];
      var card := retry[i];
      if Truthy(card.id) && Truthy(card.name) {
        m := m[card.id.value := card];
      }
      i := i + 1;
    }
    assert retry[..i] == retry;
  }

  /** One element of `original.map(...)`: a nameless card whose id has a retry result is replaced by it. */
  function MergedEntry(card: Card, m: map<string, Card>): Card {
    if !HasName(card) && card.id.Some? && card.id.value in m then m[card.id.value] else card
  }

  function Merge(original: seq<Card>, m: map<string, Card>): (r: seq<Card>)
    ensures |r| == |original|
    ensures forall i :: 0 <= i < |original| ==> r[i] == MergedEntry(original[i], m)
  {
    seq(|original|, i requires 0 <= i < |original| => MergedEntry(original[i], m))
  }

  /** `outputFile.replace('.json', '_still_failed.json')`: only the first occurrence is replaced, and none leaves the name as it is. */
  function StillFailedName(outputFile: string): string {
    var j := IndexOf(outputFile, ".json");
    if j <= |outputFile| then outputFile[..j] + StillFailedSuffix + outputFile[j + 5..] else outputFile
  }

  /** `args[2] || 'results/merged_cards.json'`. */
  function OutputFile(args: seq<string>): string {
    if |args| > 2 && args[2] != "" then args[2] else DefaultOutputFile
  }

  /** The outcome of a merge: the files afterwards and the two counts reported. */
  datatype Merged = Merged(files: map<string, seq<Card>>, merged: seq<Card>, successful: nat, failed: nat)

  /** The script for the command line `args` over the files `files`. */
  function MergeSpec(args: seq<string>, files: map<string, seq<Card>>): Result<Merged> {
    if |args| < 2 then Err(UsageMessage)
    else if args[0] !in files then Err(NotFound(args[0]))
    else if args[1] !in files then Err(NotFound(args[1]))
    else
      var merged := Merge(files[args[0]], RetryMap(files[args[1]]));
      var successful := |Filter(merged, Named())|;
      var failed := |Filter(merged, Not(Named()))|;
      var out := OutputFile(args);
      var after := files[out := merged];
      Ok(Merged(if failed > 0 then after[StillFailedName(out) := Filter(merged, Not(Named()))] else after,
                merged, successful, failed))
  }

  /** The script: read both files, build the map, merge, count and save. */
  method MergeFiles(args: seq<string>, files: map<string, seq<Card>>) returns (r: Result<Merged>)
    ensures r == MergeSpec(args, files)
  {
    if |args| < 2 {
      return Err(UsageMessage);
    }
    var originalFile, retryFile := args[0], args[1];
    var outputFile := OutputFile(args);
    if originalFile !in files {
      return Err(NotFound(originalFile));
    }
    var original := files[originalFile];
    if retryFile !in files {
      return Err(NotFound(retryFile));
    }
    var retryMap := BuildRetryMap(files[retryFile]);
    var merged := Merge(original, retryMap);
    var successful := |Filter(merged, Named())|;
    var failed := |Filter(merged, Not(Named()))|;
    var written := files[outputFile := merged];
    if failed > 0 {
      var stillFailed := Filter(merged, Not(Named()));
      written := written[StillFailedName(outputFile) := stillFailed];
    }
    return Ok(Merged(written, merged, successful, failed));
  }

  // ---------------------------------------------------------------------
  // Properties

  /** Every map entry is an eligible retry entry stored under its own id. */
  lemma {:induction false} RetryMapEntries(retry: seq<Card>)
    ensures forall k :: k in RetryMap(retry) ==>
      Eligible(RetryMap(retry)[k]) && RetryMap(retry)[k].id == Some(k) && RetryMap(retry)[k] in retry
  {
    if retry != [] {
      var init := retry[..|retry| - 1];
      RetryMapEntries(init);
      forall k | k in RetryMap(init) ensures RetryMap(init)[k] in retry {
        var i :| 0 <= i < |init| && init[i] == RetryMap(init)[k];
        assert retry[i] == init[i];
      }
    }
  }

  /** Every eligible retry entry's id is a key. */
  lemma {:induction false} RetryMapComplete(retry: seq<Card>)
    ensures forall i :: 0 <= i < |retry| && Eligible(retry[i]) ==> retry[i].id.value in RetryMap(retry)
  {
    if retry != [] {
      var init := retry[..|retry| - 1];
      RetryMapComplete(init);
      assert forall i :: 0 <= i < |init| ==> retry[i] == init[i];
    }
  }

  /** For a repeated id the last eligible entry wins. */
  lemma {:induction false} RetryMapLaterWins(retry: seq<Card>, i: nat)
    requires i < |retry| && Eligible(retry[i])
    requires forall j :: i < j < |retry| && Eligible(retry[j]) ==> retry[j].id != retry[i].id
    ensures retry[i].id.value in RetryMap(retry)
    ensures RetryMap(retry)[retry[i].id.value] == retry[i]
  {
    if i < |retry| - 1 {
      var init := retry[..|retry| - 1];
      assert init[i] == retry[i];
      RetryMapLaterWins(init, i);
    }
  }

  /**
   * A named entry is never replaced; a nameless one is replaced exactly when
   * the map has its id, and then by a named entry with the same id.
   */
  lemma MergeReplacesOnlyFailures(original: seq<Card>, retry: seq<Card>)
    ensures var m := RetryMap(retry); var merged := Merge(original, m);
      |merged| == |original|
      && (forall i :: 0 <= i < |original| && HasName(original[i]) ==> merged[i] == original[i])
      && (forall i :: 0 <= i < |original| && !HasName(original[i]) ==>
            (merged[i] != original[i] <==> original[i].id.Some? && original[i].id.value in m))
      && (forall i :: 0 <= i < |original| && merged[i] != original[i] ==>
            HasName(merged[i]) && merged[i].id == original[i].id && merged[i] in retry)
      && (forall i :: 0 <= i < |original| ==> merged[i].url == original[i].url || merged[i] in retry)
  {
    RetryMapEntries(retry);
  }

  /** An entry stays nameless exactly when it was nameless and no retry entry with its id succeeded. */
  lemma StillFailedIffNoRetry(original: seq<Card>, retry: seq<Card>)
    ensures forall i :: 0 <= i < |original| ==>
      (!HasName(Merge(original, RetryMap(retry))[i]) <==>
       !HasName(original[i]) && !(exists j :: 0 <= j < |retry| && Eligible(retry[j]) && retry[j].id == original[i].id))
  {
    var m := RetryMap(retry);
    RetryMapEntries(retry);
    RetryMapComplete(retry);
    forall i | 0 <= i < |original| && !HasName(original[i]) && (exists j :: 0 <= j < |retry| && Eligible(retry[j]) && retry[j].id == original[i].id)
      ensures HasName(Merge(original, m)[i])
    {
      var j :| 0 <= j < |retry| && Eligible(retry[j]) && retry[j].id == original[i].id;
      assert original[i].id.value in m;
    }
    forall i | 0 <= i < |original| && !HasName(original[i]) && original[i].id.Some? && original[i].id.value in m
      ensures exists j :: 0 <= j < |retry| && Eligible(retry[j]) && retry[j].id == original[i].id
    {
      var k := original[i].id.value;
      var j :| 0 <= j < |retry| && retry[j] == m[k];
    }
  }

  /** Merging again with the same retry results changes nothing. */
  lemma MergeIdempotent(original: seq<Card>, retry: seq<Card>)
    ensures Merge(Merge(original, RetryMap(retry)), RetryMap(retry)) == Merge(original, RetryMap(retry))
  {
    var m := RetryMap(retry);
    RetryMapEntries(retry);
    var once := Merge(original, m);
    var twice := Merge(once, m);
    forall i | 0 <= i < |original| ensures twice[i] == once[i] {
      if !HasName(original[i]) && original[i].id.Some? && original[i].id.value in m {
        assert HasName(once[i]);
      }
    }
  }

  /** A merge never loses a named entry: the named count can only grow. */
  lemma {:induction false} MergeNeverLosesNames(original: seq<Card>, m: map<string, Card>)
    requires forall k :: k in m ==> HasName(m[k])
    ensures |Filter(Merge(original, m), Named())| >= |Filter(original, Named())|
  {
    if original != [] {
      var init, c := original[..|original| - 1], original[|original| - 1];
      assert original == init + [c];
      MergeNeverLosesNames(init, m);
      assert Merge(original, m) == Merge(init, m) + [MergedEntry(c, m)];
      FilterSnoc(init, c, Named());
      FilterSnoc(Merge(init, m), MergedEntry(c, m), Named());
    }
  }

  /**
   * The counts cover the merged list; the output file holds the merged list
   * unless the still-failed list, exactly its nameless entries in order, is
   * saved over it; no other file is created or changed.
   */
  lemma MergeCounts(args: seq<string>, files: map<string, seq<Card>>)
    requires MergeSpec(args, files).Ok?
    ensures var r := MergeSpec(args, files).value;
      var out := OutputFile(args);
      var stillFailed := StillFailedName(out);
      |r.merged| == |files[args[0]]|
      && r.successful + r.failed == |r.merged|
      && r.successful >= |Filter(files[args[0]], Named())|
      && (r.failed == 0 ==> r.files == files[out := r.merged])
      && (r.failed > 0 ==>
            (stillFailed in r.files
             && r.files[stillFailed] == Filter(r.merged, Not(Named()))
             && |r.files[stillFailed]| == r.failed))
      && (r.failed == 0 || stillFailed != out ==> out in r.files && r.files[out] == r.merged)
      && r.files.Keys == files.Keys + {out} + (if r.failed > 0 then {stillFailed} else {})
      && (forall p :: p in files && p != out && (r.failed == 0 || p != stillFailed) ==> r.files[p] == files[p])
  {
    var m := RetryMap(files[args[1]]);
    RetryMapEntries(files[args[1]]);
    var merged := Merge(files[args[0]], m);
    FilterComplement(merged, Named());
    MergeNeverLosesNames(files[args[0]], m);
  }

  /** Without ".json" in the output name the still-failed list is saved over the merged list itself. */
  lemma StillFailedOverwritesOutput(args: seq<string>, files: map<string, seq<Card>>)
    requires MergeSpec(args, files).Ok? && MergeSpec(args, files).value.failed > 0
    requires forall k :: !OccursAt(OutputFile(args), ".json", k)
    ensures StillFailedName(OutputFile(args)) == OutputFile(args)
    ensures MergeSpec(args, files).value.files[OutputFile(args)] == Filter(MergeSpec(args, files).value.merged, Not(Named()))
  {
  }

  /** A name ending in its only ".json" gets the suffix in its place. */
  lemma StillFailedNameOfJson(base: string)
    requires forall k :: !OccursAt(base, ".json", k)
    ensures StillFailedName(base + ".json") == base + StillFailedSuffix
  {
    var s := base + ".json";
    var n := |base|;
    assert OccursAt(s, ".json", n) by { assert s[n..n + 5] == ".json"; }
    forall k | 0 <= k < n ensures !OccursAt(s, ".json", k) {
      if k + 5 <= n {
        assert s[k..k + 5] == base[k..k + 5];
        assert !OccursAt(base, ".json", k);
      } else {
        var d := n - k;
        assert s[k..k + 5][d] == s[n] == '.';
        assert ".json"[d] != '.';
      }
    }
    assert IndexOf(s, ".json") == n;
    assert s[..n] == base;
  }

  /** A missing argument or file stops the script before anything is written. */
  lemma MergeFailures(args: seq<string>, files: map<string, seq<Card>>)
    ensures MergeSpec(args, files).Err? <==> |args| < 2 || args[0] !in files || args[1] !in files
    ensures |args| >= 2 && args[0] !in files ==> MergeSpec(args, files) == Err(NotFound(args[0]))
  {
  }
}
