/**
 * verify_complete.js: statistics over a results file — how many cards have
 * each field, how many ids repeat, a per-type and a per-set count listed
 * from the most to the least frequent, and the ids of the cards missing a
 * name, an image or a type.
 */
module VerifyComplete {
  import opened Wrappers
  import opened Cards
  import opened Tallies

  const DefaultFile: string := "results/trainer_cards_complete.json"

  function Imaged(): Card -> bool { (c: Card) => Truthy(c.image) }
  function Texted(): Card -> bool { (c: Card) => Truthy(c.text) }

  /** The breakdown keys: `c.type`, and `c.set.name` when there is a set. */
  function TypeKey(c: Card): Option<string> { c.cardType }
  function SetKey(c: Card): Option<string> { if c.cardSet.Some? then Some(c.cardSet.value.name) else None }

  /** The cards whose key is truthy: `c.type`, or `c.set && c.set.name`. */
  function Keyed(key: Card -> Option<string>): Card -> bool { (c: Card) => Truthy(key(c)) }

  /** The truthy keys of the cards, in card order: what the `forEach` counts. */
  function KeysOf(cards: seq<Card>, key: Card -> Option<string>): seq<string> {
    if cards == [] then []
    else
      var k := key(cards[|cards| - 1]);
      KeysOf(cards[..|cards| - 1], key) + (if Truthy(k) then [k.value] else [])
  }

  /** `cards.forEach(c => { if (key) dict[key] = (dict[key] || 0) + 1 })`, the dictionary as its entries in insertion order. */
  method CountBy(cards: seq<Card>, key: Card -> Option<string>) returns (t: seq<(string, nat)>)
    ensures t == Tally(KeysOf(cards, key))
  {
    t := [];
    var i := 0;
    while i < |cards|
      invariant 0 <= i <= |cards|
      invariant t == Tally(KeysOf(cards[..i], key))
    {
      ghost var before := KeysOf(cards[..i], key);
      KeysOfSnoc(cards, i, key);
      var k := key(cards[i]);
      if Truthy(k) {
        t := CountOne(t, before, k.value);
      } else {
        assert before + [] == before;
      }
      i := i + 1;
    }
    assert cards[..i] == cards;
  }

  /** `dict[k] = (dict[k] || 0) + 1` on the entries of the counts so far. */
  method CountOne(t: seq<(string, nat)>, ghost keys: seq<string>, k: string) returns (t': seq<(string, nat)>)
    requires t == Tally(keys)
    ensures t' == Tally(keys + [k])
  {
    TallySnoc(keys, k);
    var j := KeyIndex(t, k);
    if j < |t| {
      t' := t[j := (k, t[j].1 + 1)];
    } else {
      t' := t + [(k, 1)];
    }
  }

  lemma KeysOfSnoc(cards: seq<Card>, i: nat, key: Card -> Option<string>)
    requires i < |cards|
    ensures KeysOf(cards[..i + 1], key) == KeysOf(cards[..i], key) + (if Truthy(key(cards[i])) then [key(cards[i]).value] else [])
  {
    assert cards[..i + 1][..i] == cards[..i];
  }

  /** An entry goes before the first one whose count is not larger, so entries of equal count keep their order. */
  function InsertByCount(p: (string, nat), s: seq<(string, nat)>): seq<(string, nat)> {
    if s == [] || p.1 >= s[0].1 then [p] + s else [s[0]] + InsertByCount(p, s[1..])
  }

  /** `.sort((a, b) => b[1] - a[1])`: the entries by count, largest first. */
  function SortByCount(t: seq<(string, nat)>): seq<(string, nat)> {
    if t == [] then [] else InsertByCount(t[0], SortByCount(t[1..]))
  }

  predicate ByCountDescending(r: seq<(string, nat)>) {
    forall i, j :: 0 <= i < j < |r| ==> r[i].1 >= r[j].1
  }

  /** A breakdown as listed: the counts of the truthy keys, by count. */
  function Breakdown(cards: seq<Card>, key: Card -> Option<string>): seq<(string, nat)> {
    SortByCount(Tally(KeysOf(cards, key)))
  }

  /** The ids of `cards.filter(c => !p(c))`, in card order. */
  function IdsOf(cards: seq<Card>): (ids: seq<Option<string>>)
    ensures |ids| == |cards|
    ensures forall k :: 0 <= k < |cards| ==> ids[k] == cards[k].id
  {
    seq(|cards|, k requires 0 <= k < |cards| => cards[k].id)
  }

  datatype Report = Report(
    total: nat, withNames: nat, withoutNames: nat, withImages: nat, withText: nat, withType: nat, withSet: nat,
    totalIds: nat, uniqueIds: nat, duplicates: int,
    types: seq<(string, nat)>, sets: seq<(string, nat)>,
    missingName: seq<Option<string>>, missingImage: seq<Option<string>>, missingType: seq<Option<string>>)

  /** `process.argv[2] || 'results/trainer_cards_complete.json'`. */
  function FileOf(args: seq<string>): string {
    if |args| > 0 && args[0] != "" then args[0] else DefaultFile
  }

  /** The report for the command line `args` over the files `files`. */
  function VerifySpec(args: seq<string>, files: map<string, seq<Card>>): Result<Report> {
    var file := FileOf(args);
    if file !in files then Err(NotFound(file))
    else
      var cards := files[file];
      var ids := IdsOf(cards);
      Ok(Report(|cards|, |Filter(cards, Named())|, |Filter(cards, Not(Named()))|, |Filter(cards, Imaged())|,
                |Filter(cards, Texted())|, |Filter(cards, Keyed(TypeKey))|, |Filter(cards, Keyed(SetKey))|,
                |ids|, |Distinct(ids)|, |ids| - |Distinct(ids)|,
                Breakdown(cards, TypeKey), Breakdown(cards, SetKey),
                IdsOf(Filter(cards, Not(Named()))), IdsOf(Filter(cards, Not(Imaged()))), IdsOf(Filter(cards, Not(Keyed(TypeKey))))))
  }

  /** The script: read the file, count, tally the types and the sets, sort the tallies, list the gaps. */
  method Verify(args: seq<string>, files: map<string, seq<Card>>) returns (r: Result<Report>)
    ensures r == VerifySpec(args, files)
  {
    var file := FileOf(args);
    if file !in files {
      return Err(NotFound(file));
    }
    var cards := files[file];
    var ids := IdsOf(cards);
    var types := CountBy(cards, TypeKey);
    var sets := CountBy(cards, SetKey);
    return Ok(Report(|cards|, |Filter(cards, Named())|, |Filter(cards, Not(Named()))|, |Filter(cards, Imaged())|,
                     |Filter(cards, Texted())|, |Filter(cards, Keyed(TypeKey))|, |Filter(cards, Keyed(SetKey))|,
                     |ids|, |Distinct(ids)|, |ids| - |Distinct(ids)|,
                     SortByCount(types), SortByCount(sets),
                     IdsOf(Filter(cards, Not(Named()))), IdsOf(Filter(cards, Not(Imaged()))), IdsOf(Filter(cards, Not(Keyed(TypeKey))))));
  }

  // ---------------------------------------------------------------------
  // Properties

  lemma {:induction false} InsertByCountPermutes(p: (string, nat), s: seq<(string, nat)>)
    ensures multiset(InsertByCount(p, s)) == multiset(s) + multiset{p}
    ensures |InsertByCount(p, s)| == |s| + 1
  {
    if s != [] && p.1 < s[0].1 {
      InsertByCountPermutes(p, s[1..]);
      assert s == [s[0]] + s[1..];
    }
  }

  /** An entry no smaller than every entry of a descending list can go in front of it. */
  lemma ConsDescending(x: (string, nat), rest: seq<(string, nat)>)
    requires ByCountDescending(rest)
    requires forall k :: 0 <= k < |rest| ==> rest[k].1 <= x.1
    ensures ByCountDescending([x] + rest)
  {
    var r := [x] + rest;
    forall i, j | 0 <= i < j < |r| ensures r[i].1 >= r[j].1 {
      assert r[j] == rest[j - 1];
      if i > 0 {
        assert r[i] == rest[i - 1];
      }
    }
  }

  lemma TailDescending(s: seq<(string, nat)>)
    requires s != [] && ByCountDescending(s)
    ensures ByCountDescending(s[1..])
    ensures forall k :: 0 <= k < |s[1..]| ==> s[1..][k].1 <= s[0].1
  {
    var tail := s[1..];
    forall i, j | 0 <= i < j < |tail| ensures tail[i].1 >= tail[j].1 {
      assert tail[i] == s[i + 1] && tail[j] == s[j + 1];
    }
    forall k | 0 <= k < |tail| ensures tail[k].1 <= s[0].1 {
      assert tail[k] == s[k + 1];
    }
  }

  /** Every entry of a permutation of `s` plus `p` is bounded by a bound of both. */
  lemma BoundedPermutation(rest: seq<(string, nat)>, s: seq<(string, nat)>, p: (string, nat), bound: nat)
    requires multiset(rest) == multiset(s) + multiset{p}
    requires p.1 <= bound && forall k :: 0 <= k < |s| ==> s[k].1 <= bound
    ensures forall k :: 0 <= k < |rest| ==> rest[k].1 <= bound
  {
    forall k | 0 <= k < |rest| ensures rest[k].1 <= bound {
      assert rest[k] in multiset(rest);
      if rest[k] != p {
        assert rest[k] in multiset(s);
        var m :| 0 <= m < |s| && s[m] == rest[k];
      }
    }
  }

  lemma {:induction false} InsertByCountSorted(p: (string, nat), s: seq<(string, nat)>)
    requires ByCountDescending(s)
    ensures ByCountDescending(InsertByCount(p, s))
    ensures multiset(InsertByCount(p, s)) == multiset(s) + multiset{p}
    ensures |InsertByCount(p, s)| == |s| + 1
  {
    InsertByCountPermutes(p, s);
    if s == [] || p.1 >= s[0].1 {
      if s != [] {
        forall k | 0 <= k < |s| ensures s[k].1 <= p.1 {
          assert s[0].1 >= s[k].1;
        }
      }
      ConsDescending(p, s);
    } else {
      TailDescending(s);
      InsertByCountSorted(p, s[1..]);
      BoundedPermutation(InsertByCount(p, s[1..]), s[1..], p, s[0].1);
      ConsDescending(s[0], InsertByCount(p, s[1..]));
    }
  }

  /** The sort leaves the entries as they were, ordered by count with the largest first. */
  lemma {:induction false} SortByCountSorted(t: seq<(string, nat)>)
    ensures ByCountDescending(SortByCount(t))
    ensures multiset(SortByCount(t)) == multiset(t)
  {
    if t != [] {
      SortByCountSorted(t[1..]);
      InsertByCountSorted(t[0], SortByCount(t[1..]));
      assert t == [t[0]] + t[1..];
    }
  }

  lemma {:induction false} SumCountsCons(p: (string, nat), s: seq<(string, nat)>)
    ensures SumCounts([p] + s) == p.1 + SumCounts(s)
  {
    if s != [] {
      SumCountsCons(p, s[..|s| - 1]);
      assert ([p] + s)[..|s|] == [p] + s[..|s| - 1];
    }
  }

  lemma {:induction false} SumCountsInsert(p: (string, nat), s: seq<(string, nat)>)
    ensures SumCounts(InsertByCount(p, s)) == p.1 + SumCounts(s)
  {
    SumCountsCons(p, s);
    if s != [] && p.1 < s[0].1 {
      SumCountsInsert(p, s[1..]);
      SumCountsCons(s[0], s[1..]);
      SumCountsCons(s[0], InsertByCount(p, s[1..]));
      assert s == [s[0]] + s[1..];
    }
  }

  /** Sorting does not change the total of the counts. */
  lemma {:induction false} SumCountsSort(t: seq<(string, nat)>)
    ensures SumCounts(SortByCount(t)) == SumCounts(t)
  {
    if t != [] {
      SumCountsSort(t[1..]);
      SumCountsInsert(t[0], SortByCount(t[1..]));
      SumCountsCons(t[0], t[1..]);
      assert t == [t[0]] + t[1..];
    }
  }

  /** One key per card whose key is truthy. */
  lemma {:induction false} KeysOfCount(cards: seq<Card>, key: Card -> Option<string>)
    ensures |KeysOf(cards, key)| == |Filter(cards, Keyed(key))|
  {
    if cards != [] {
      KeysOfCount(cards[..|cards| - 1], key);
    }
  }

  /**
   * A breakdown lists every truthy key once with its number of cards, at
   * least one, from the most to the least frequent; the counts add up to the
   * number of cards with a truthy key.
   */
  lemma BreakdownFacts(cards: seq<Card>, key: Card -> Option<string>)
    ensures var r := Breakdown(cards, key); var ks := KeysOf(cards, key);
      ByCountDescending(r)
      && SumCounts(r) == |ks| == |Filter(cards, Keyed(key))|
      && (forall i :: 0 <= i < |r| ==> r[i].0 in ks && r[i].1 == Occ(ks, r[i].0) && r[i].1 >= 1)
      && (forall k :: k in ks ==> exists i :: 0 <= i < |r| && r[i].0 == k)
  {
    var ks := KeysOf(cards, key);
    var t := Tally(ks);
    var r := SortByCount(t);
    SortByCountSorted(t);
    SumCountsSort(t);
    TallySum(ks);
    TallyPositive(ks);
    KeysOfCount(cards, key);
    PermutedTally(r, ks);
  }

  /** A reordering of the counts of `ks` lists every key of `ks`, each with its own positive count. */
  lemma PermutedTally(r: seq<(string, nat)>, ks: seq<string>)
    requires multiset(r) == multiset(Tally(ks))
    ensures forall i :: 0 <= i < |r| ==> r[i].0 in ks && r[i].1 == Occ(ks, r[i].0) && r[i].1 >= 1
    ensures forall k :: k in ks ==> exists i :: 0 <= i < |r| && r[i].0 == k
  {
    var t := Tally(ks);
    TallyPositive(ks);
    forall i | 0 <= i < |r| ensures r[i].0 in ks && r[i].1 == Occ(ks, r[i].0) && r[i].1 >= 1 {
      assert r[i] in multiset(t);
      var j :| 0 <= j < |t| && t[j] == r[i];
    }
    forall k | k in ks ensures exists i :: 0 <= i < |r| && r[i].0 == k {
      var j :| 0 <= j < |t| && t[j].0 == k;
      assert t[j] in multiset(r);
      assert t[j] in r;
      var i :| 0 <= i < |r| && r[i] == t[j];
    }
  }

  /** The name partition covers the file, and the duplicate count is never negative and is zero exactly when no id repeats. */
  lemma ReportCounts(args: seq<string>, files: map<string, seq<Card>>)
    requires VerifySpec(args, files).Ok?
    ensures var r := VerifySpec(args, files).value;
      r.withNames + r.withoutNames == r.total
      && r.totalIds == r.total
      && 0 <= r.duplicates
      && (r.duplicates == 0 <==> NoDup(IdsOf(files[FileOf(args)])))
      && |r.missingName| == r.withoutNames
  {
    var cards := files[FileOf(args)];
    FilterComplement(cards, Named());
    DistinctLength(IdsOf(cards));
  }

  /** `missingName` holds the ids of exactly the nameless cards, in card order. */
  lemma MissingNamesInOrder(cards: seq<Card>) returns (idx: seq<nat>)
    ensures |idx| == |IdsOf(Filter(cards, Not(Named())))|
    ensures forall k :: 0 <= k < |idx| ==>
      idx[k] < |cards| && !HasName(cards[idx[k]]) && IdsOf(Filter(cards, Not(Named())))[k] == cards[idx[k]].id
    ensures forall j, k :: 0 <= j < k < |idx| ==> idx[j] < idx[k]
    ensures forall i :: 0 <= i < |cards| && !HasName(cards[i]) ==> i in idx
  {
    idx := FilterInOrder(cards, Not(Named()));
  }
}
