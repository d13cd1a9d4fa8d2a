/**
 * download_images.js: the download list prepared from a results file, the
 * batched downloader and `downloadImage`'s effect on the output directory.
 * The filesystem is the set of paths that exist; the network is the oracle
 * `respond`, giving the outcome of a request for a URL; `path.join` is the
 * oracle `join`.
 */
module Downloads {
  import opened Wrappers
  import opened Text
  import opened Cards
  import opened CardUrl

  const ImagesDir: string := "./images"
  /** Images downloaded at a time. */
  const MaxConcurrent: nat := 5
  const ErrorLogName: string := "download_errors.json"
  const UsageMessage: string := "Usage: node download_images.js <json_file> [output_dir]"

  /**
   * What a request gives: a URL that `http(s).get` refuses by throwing at once
   * (an invalid protocol or URL, such as a `data:` placeholder), a request
   * `error` event, or a status code and, for a piped body, a possible write error.
   */
  datatype Response = Refused(message: string) | RequestFailed(message: string) | Responded(status: nat, writeError: Option<string>)

  datatype DownloadItem = DownloadItem(card: Card, url: string, filepath: string, cardNum: nat)

  /** An entry of the error log: `{card, url, error}`. */
  datatype TransferError = TransferError(card: Option<string>, url: string, error: string)

  datatype Results = Results(success: nat, failed: nat, skipped: nat, errors: seq<TransferError>)

  /** The files that exist and the counters so far. */
  datatype Progress = Progress(fs: set<string>, results: Results)

  const NoResults: Results := Results(0, 0, 0, [])

  function Min(a: int, b: int): int {
    if a <= b then a else b
  }

  // ---------------------------------------------------------------------
  // downloadImage

  /**
   * `downloadImage(url, filepath)`: the destination is created before the
   * request is made; a request or write error unlinks it again, a status other
   * than 200 rejects with `HTTP <status>` and leaves the created file behind,
   * and so does a refused URL, whose throw rejects the promise before any
   * handler is attached.
   * Returns the new filesystem and the rejection message, if any.
   */
  function DownloadImage(fs: set<string>, url: string, filepath: string, respond: string -> Response): (r: (set<string>, Option<string>))
    ensures r.0 - {filepath} == fs - {filepath}
    ensures filepath in r.0 <==> respond(url).Refused? || (respond(url).Responded? && (respond(url).status != 200 || respond(url).writeError.None?))
    ensures r.1.None? <==> respond(url) == Responded(200, None)
    ensures respond(url).Refused? || respond(url).RequestFailed? ==> r.1 == Some(respond(url).message)
    ensures respond(url).Responded? && respond(url).status != 200 ==> r.1 == Some("HTTP " + ShowNat(respond(url).status))
    ensures respond(url).Responded? && respond(url).status == 200 ==> r.1 == respond(url).writeError
  {
    var created := fs + {filepath};
    match respond(url)
    case Refused(m) => (created, Some(m))
    case RequestFailed(m) => (created - {filepath}, Some(m))
    case Responded(status, writeError) =>
      if status != 200 then (created, Some("HTTP " + ShowNat(status)))
      else if writeError.Some? then (created - {filepath}, Some(writeError.value))
      else (created, None)
  }

  // ---------------------------------------------------------------------
  // downloadInBatches

  /**
   * One item of a batch. Whether the destination exists is decided against
   * `atStart`, the files at the start of the batch: every item of a batch
   * checks before any of them has opened its file.
   */
  function ItemStep(p: Progress, item: DownloadItem, atStart: set<string>, respond: string -> Response): Progress {
    var res := p.results;
    if item.filepath in atStart then Progress(p.fs, res.(skipped := res.skipped + 1))
    else
      var (fs', err) := DownloadImage(p.fs, item.url, item.filepath, respond);
      match err
      case None => Progress(fs', res.(success := res.success + 1))
      case Some(m) => Progress(fs', res.(failed := res.failed + 1, errors := res.errors + [TransferError(item.card.id, item.url, m)]))
  }

  /** The items of one batch, in order, after the existence checks of the batch. */
  function BatchRun(p: Progress, batch: seq<DownloadItem>, atStart: set<string>, respond: string -> Response): Progress {
    if batch == [] then p
    else ItemStep(BatchRun(p, batch[..|batch| - 1], atStart, respond), batch[|batch| - 1], atStart, respond)
  }

  /** `downloads.slice(i, i + batchSize)` for i = 0, batchSize, 2 * batchSize, ... */
  function Batches<T>(items: seq<T>, n: nat): seq<seq<T>>
    requires n > 0
    decreases |items|
  {
    if items == [] then [] else [items[..Min(n, |items|)]] + Batches(items[Min(n, |items|)..], n)
  }

  function Flatten<T>(bs: seq<seq<T>>): seq<T> {
    if bs == [] then [] else bs[0] + Flatten(bs[1..])
  }

  /** The batches one after the other, each starting from the files its predecessor left. */
  function RunBatches(p: Progress, bs: seq<seq<DownloadItem>>, respond: string -> Response): Progress
    decreases |bs|
  {
    if bs == [] then p else RunBatches(BatchRun(p, bs[0], p.fs, respond), bs[1..], respond)
  }

  /** `downloadInBatches(downloads, batchSize)` on filesystem `fs`. */
  function DownloadInBatchesSpec(fs: set<string>, downloads: seq<DownloadItem>, batchSize: nat, respond: string -> Response): Progress
    requires batchSize > 0
  {
    RunBatches(Progress(fs, NoResults), Batches(downloads, batchSize), respond)
  }

  lemma BatchesStep<T>(items: seq<T>, i: nat, n: nat)
    requires n > 0 && i < |items|
    ensures Batches(items[i..], n) == [items[i..Min(i + n, |items|)]] + Batches(items[Min(i + n, |items|)..], n)
  {
    assert items[i..][..Min(n, |items| - i)] == items[i..Min(i + n, |items|)];
    assert items[i..][Min(n, |items| - i)..] == items[Min(i + n, |items|)..];
  }

  /** One batch: every item checks for its destination against `files` as they were when the batch began. */
  method RunBatch(batch: seq<DownloadItem>, files: set<string>, results: Results, respond: string -> Response)
    returns (results': Results, files': set<string>)
    ensures Progress(files', results') == BatchRun(Progress(files, results), batch, files, respond)
  {
    results', files' := results, files;
    var k := 0;
    while k < |batch|
      invariant 0 <= k <= |batch|
      invariant Progress(files', results') == BatchRun(Progress(files, results), batch[..k], files, respond)
    {
      var item := batch[k];
      assert batch[..k + 1][..k] == batch[..k];
      if item.filepath in files {
        results' := results'.(skipped := results'.skipped + 1);
      } else {
        var (fs', err) := DownloadImage(files', item.url, item.filepath, respond);
        files' := fs';
        if err.None? {
          results' := results'.(success := results'.success + 1);
        } else {
          results' := results'.(failed := results'.failed + 1, errors := results'.errors + [TransferError(item.card.id, item.url, err.value)]);
        }
      }
      k := k + 1;
    }
    assert batch[..k] == batch;
  }

  /** `downloadInBatches`: the batches in sequence, each awaited before the next begins. */
  method DownloadInBatches(downloads: seq<DownloadItem>, batchSize: nat, fs: set<string>, respond: string -> Response)
    returns (results: Results, files: set<string>)
    requires batchSize > 0
    ensures Progress(files, results) == DownloadInBatchesSpec(fs, downloads, batchSize, respond)
  {
    results, files := NoResults, fs;
    var i := 0;
    BatchesFromStart(downloads, batchSize);
    while i < |downloads|
      invariant 0 <= i
      invariant RunBatches(Progress(files, results), BatchesFrom(downloads, i, batchSize), respond)
        == DownloadInBatchesSpec(fs, downloads, batchSize, respond)
    {
      var batch := downloads[i..Min(i + batchSize, |downloads|)];
      RunBatchesCons(Progress(files, results), batch, BatchesFrom(downloads, i + batchSize, batchSize), respond);
      results, files := RunBatch(batch, files, results, respond);
      i := i + batchSize;
    }
  }

  /** The batches from offset `i` on: the slice at `i`, then those from `i + n`. */
  ghost function BatchesFrom<T>(items: seq<T>, i: nat, n: nat): seq<seq<T>>
    requires n > 0
    decreases |items| - i
  {
    if i >= |items| then [] else [items[i..Min(i + n, |items|)]] + BatchesFrom(items, i + n, n)
  }

  lemma {:induction false} BatchesFromIs<T>(items: seq<T>, i: nat, n: nat)
    requires n > 0
    ensures BatchesFrom(items, i, n) == Batches(items[Min(i, |items|)..], n)
    decreases |items| - i
  {
    if i < |items| {
      BatchesFromIs(items, i + n, n);
      BatchesStep(items, i, n);
      assert items[Min(i, |items|)..] == items[i..];
    } else {
      assert items[Min(i, |items|)..] == [];
    }
  }

  lemma BatchesFromStart<T>(items: seq<T>, n: nat)
    requires n > 0
    ensures BatchesFrom(items, 0, n) == Batches(items, n)
  {
    BatchesFromIs(items, 0, n);
    assert items[Min(0, |items|)..] == items;
  }

  lemma RunBatchesCons(p: Progress, b: seq<DownloadItem>, bs: seq<seq<DownloadItem>>, respond: string -> Response)
    ensures RunBatches(p, [b] + bs, respond) == RunBatches(BatchRun(p, b, p.fs, respond), bs, respond)
  {
    assert ([b] + bs)[0] == b && ([b] + bs)[1..] == bs;
  }

  // ---------------------------------------------------------------------
  // Properties of the batches

  /** The batches, concatenated, are the items. */
  lemma {:induction false} BatchesFlatten<T>(items: seq<T>, n: nat)
    requires n > 0
    ensures Flatten(Batches(items, n)) == items
    decreases |items|
  {
    if items != [] {
      var k := Min(n, |items|);
      BatchesFlatten(items[k..], n);
      assert items == items[..k] + items[k..];
    }
  }

  /**
   * Every batch has `n` items except the last, which has the remaining
   * 1..n; so there are as many batches as it takes to hold the items `n` at a time.
   */
  lemma {:induction false} BatchesShape<T>(items: seq<T>, n: nat)
    requires n > 0
    ensures forall j :: 0 <= j < |Batches(items, n)| - 1 ==> |Batches(items, n)[j]| == n
    ensures items == [] <==> Batches(items, n) == []
    ensures Batches(items, n) != [] ==>
      var last := |Batches(items, n)| - 1;
      1 <= |Batches(items, n)[last]| <= n && |Batches(items, n)[last]| == |items| - last * n
    decreases |items|
  {
    if items != [] {
      var k := Min(n, |items|);
      BatchesShape(items[k..], n);
      var rest := Batches(items[k..], n);
      assert Batches(items, n) == [items[..k]] + rest;
      if rest != [] {
        assert |items| > n;
        assert (|rest| - 1) * n + n == |rest| * n;
      }
    }
  }

  /** There are ceil(|items| / n) batches: the fewest that hold the items `n` at a time. */
  lemma BatchesCount<T>(items: seq<T>, n: nat)
    requires n > 0
    ensures |Batches(items, n)| * n - n < |items| <= |Batches(items, n)| * n
  {
    BatchesShape(items, n);
    var c := |Batches(items, n)|;
    if c > 0 {
      assert (c - 1) * n + n == c * n;
    }
  }

  /** 23 downloads at 5 at a time take 5 batches, the last of 3. */
  lemma TwentyThreeInFives<T>(items: seq<T>)
    requires |items| == 23
    ensures |Batches(items, 5)| == 5
    ensures |Batches(items, 5)[4]| == 3
  {
    BatchesCount(items, 5);
    BatchesShape(items, 5);
  }

  // ---------------------------------------------------------------------
  // Properties of the counters

  /** Items accounted for, and the invariant that each error entry stands for one failure. */
  function Accounted(r: Results): nat {
    r.success + r.failed + r.skipped
  }

  /**
   * An item is counted exactly once: as skipped when its destination existed
   * at the start of its batch (then nothing is requested and no file changes),
   * else as a success, or as a failure with one error entry `{card: id, url, error}`.
   */
  lemma ItemStepEffect(p: Progress, item: DownloadItem, atStart: set<string>, respond: string -> Response)
    ensures var q := ItemStep(p, item, atStart, respond);
      Accounted(q.results) == Accounted(p.results) + 1 && q.results.failed >= p.results.failed
      && (q.results.failed == p.results.failed ==> q.results.errors == p.results.errors)
      && (q.results.failed > p.results.failed ==>
            q.results.failed == p.results.failed + 1
            && exists m :: q.results.errors == p.results.errors + [TransferError(item.card.id, item.url, m)])
    ensures item.filepath in atStart ==>
      ItemStep(p, item, atStart, respond) == Progress(p.fs, p.results.(skipped := p.results.skipped + 1))
  {
  }

  /** A skipped item does not depend on the network at all. */
  lemma SkipMakesNoRequest(p: Progress, item: DownloadItem, atStart: set<string>, respond: string -> Response, respond': string -> Response)
    requires item.filepath in atStart
    ensures ItemStep(p, item, atStart, respond) == ItemStep(p, item, atStart, respond')
  {
  }

  predicate Balanced(r: Results) {
    |r.errors| == r.failed
  }

  lemma {:induction false} BatchRunCounts(p: Progress, batch: seq<DownloadItem>, atStart: set<string>, respond: string -> Response)
    ensures var q := BatchRun(p, batch, atStart, respond);
      Accounted(q.results) == Accounted(p.results) + |batch| && q.results.failed >= p.results.failed
      && (Balanced(p.results) ==> Balanced(q.results))
  {
    if batch != [] {
      BatchRunCounts(p, batch[..|batch| - 1], atStart, respond);
      ItemStepEffect(BatchRun(p, batch[..|batch| - 1], atStart, respond), batch[|batch| - 1], atStart, respond);
    }
  }

  lemma {:induction false} RunBatchesCounts(p: Progress, bs: seq<seq<DownloadItem>>, respond: string -> Response)
    ensures var q := RunBatches(p, bs, respond);
      Accounted(q.results) == Accounted(p.results) + |Flatten(bs)| && q.results.failed >= p.results.failed
      && (Balanced(p.results) ==> Balanced(q.results))
    decreases |bs|
  {
    if bs != [] {
      BatchRunCounts(p, bs[0], p.fs, respond);
      RunBatchesCounts(BatchRun(p, bs[0], p.fs, respond), bs[1..], respond);
    }
  }

  /** success + failed + skipped is the number of downloads, and there is one error entry per failure. */
  lemma DownloadCounts(fs: set<string>, downloads: seq<DownloadItem>, batchSize: nat, respond: string -> Response)
    requires batchSize > 0
    ensures var r := DownloadInBatchesSpec(fs, downloads, batchSize, respond).results;
      r.success + r.failed + r.skipped == |downloads| && |r.errors| == r.failed
  {
    RunBatchesCounts(Progress(fs, NoResults), Batches(downloads, batchSize), respond);
    BatchesFlatten(downloads, batchSize);
  }

  // ---------------------------------------------------------------------
  // Re-running the downloader

  /** A batch without failures removes no file and leaves every one of its destinations in place. */
  lemma {:induction false} BatchRunNoFailureKeepsFiles(p: Progress, batch: seq<DownloadItem>, atStart: set<string>, respond: string -> Response)
    requires atStart <= p.fs
    requires BatchRun(p, batch, atStart, respond).results.failed == p.results.failed
    ensures p.fs <= BatchRun(p, batch, atStart, respond).fs
    ensures forall it :: it in batch ==> it.filepath in BatchRun(p, batch, atStart, respond).fs
  {
    if batch != [] {
      var init := batch[..|batch| - 1];
      var mid := BatchRun(p, init, atStart, respond);
      BatchRunCounts(p, init, atStart, respond);
      ItemStepEffect(mid, batch[|batch| - 1], atStart, respond);
      BatchRunNoFailureKeepsFiles(p, init, atStart, respond);
      assert forall it :: it in batch ==> it in init || it == batch[|batch| - 1];
    }
  }

  lemma {:induction false} RunBatchesNoFailureKeepsFiles(p: Progress, bs: seq<seq<DownloadItem>>, respond: string -> Response)
    requires RunBatches(p, bs, respond).results.failed == p.results.failed
    ensures p.fs <= RunBatches(p, bs, respond).fs
    ensures forall it :: it in Flatten(bs) ==> it.filepath in RunBatches(p, bs, respond).fs
    decreases |bs|
  {
    if bs != [] {
      var mid := BatchRun(p, bs[0], p.fs, respond);
      BatchRunCounts(p, bs[0], p.fs, respond);
      RunBatchesCounts(mid, bs[1..], respond);
      BatchRunNoFailureKeepsFiles(p, bs[0], p.fs, respond);
      RunBatchesNoFailureKeepsFiles(mid, bs[1..], respond);
      assert forall it :: it in Flatten(bs) ==> it in bs[0] || it in Flatten(bs[1..]);
    }
  }

  /** When every destination already exists, each item of a batch is skipped and nothing changes on disk. */
  lemma {:induction false} BatchRunAllPresent(p: Progress, batch: seq<DownloadItem>, respond: string -> Response)
    requires forall it :: it in batch ==> it.filepath in p.fs
    ensures BatchRun(p, batch, p.fs, respond) == Progress(p.fs, p.results.(skipped := p.results.skipped + |batch|))
  {
    if batch != [] {
      BatchRunAllPresent(p, batch[..|batch| - 1], respond);
    }
  }

  lemma {:induction false} RunBatchesAllPresent(p: Progress, bs: seq<seq<DownloadItem>>, respond: string -> Response)
    requires forall it :: it in Flatten(bs) ==> it.filepath in p.fs
    ensures RunBatches(p, bs, respond) == Progress(p.fs, p.results.(skipped := p.results.skipped + |Flatten(bs)|))
    decreases |bs|
  {
    if bs != [] {
      assert forall it :: it in bs[0] ==> it in Flatten(bs);
      assert forall it :: it in Flatten(bs[1..]) ==> it in Flatten(bs);
      BatchRunAllPresent(p, bs[0], respond);
      RunBatchesAllPresent(BatchRun(p, bs[0], p.fs, respond), bs[1..], respond);
    }
  }

  /** Re-running after a run without failures downloads nothing: every item is skipped and the directory is unchanged. */
  lemma RerunAfterCleanRun(fs: set<string>, downloads: seq<DownloadItem>, batchSize: nat, respond: string -> Response, respond': string -> Response)
    requires batchSize > 0
    requires DownloadInBatchesSpec(fs, downloads, batchSize, respond).results.failed == 0
    ensures var first := DownloadInBatchesSpec(fs, downloads, batchSize, respond);
      var again := DownloadInBatchesSpec(first.fs, downloads, batchSize, respond');
      again.results.success == 0 && again.results.skipped == |downloads| && again.fs == first.fs
  {
    var bs := Batches(downloads, batchSize);
    RunBatchesNoFailureKeepsFiles(Progress(fs, NoResults), bs, respond);
    var first := DownloadInBatchesSpec(fs, downloads, batchSize, respond);
    RunBatchesAllPresent(Progress(first.fs, NoResults), bs, respond');
    BatchesFlatten(downloads, batchSize);
  }

  /**
   * A download answered with a status other than 200, or refused at once by
   * `http(s).get`, fails but leaves its (empty) destination behind, so the
   * next run skips it and never retries it.
   */
  lemma HttpFailureIsNeverRetried(p: Progress, item: DownloadItem, respond: string -> Response, respond': string -> Response)
    requires item.filepath !in p.fs
    requires respond(item.url).Refused? || (respond(item.url).Responded? && respond(item.url).status != 200)
    ensures var q := ItemStep(p, item, p.fs, respond);
      var m := if respond(item.url).Refused? then respond(item.url).message else "HTTP " + ShowNat(respond(item.url).status);
      q.results.failed == p.results.failed + 1 && item.filepath in q.fs
      && q.results.errors == p.results.errors + [TransferError(item.card.id, item.url, m)]
      && ItemStep(q, item, q.fs, respond').results.skipped == q.results.skipped + 1
  {
  }

  /**
   * A request or write error fails with that error's own message and removes
   * the destination, so the next run tries again.
   */
  lemma TransferFailureIsRetried(p: Progress, item: DownloadItem, respond: string -> Response)
    requires item.filepath !in p.fs
    requires respond(item.url).RequestFailed? || (respond(item.url).Responded? && respond(item.url).status == 200 && respond(item.url).writeError.Some?)
    ensures var q := ItemStep(p, item, p.fs, respond);
      var m := if respond(item.url).RequestFailed? then respond(item.url).message else respond(item.url).writeError.value;
      item.filepath !in q.fs
      && q.results.failed == p.results.failed + 1
      && q.results.errors == p.results.errors + [TransferError(item.card.id, item.url, m)]
  {
  }

  // ---------------------------------------------------------------------
  // The download list

  /** `[a-zA-Z0-9_-]`. */
  predicate IsSafeChar(c: char) {
    IsWordChar(c) || c == '-'
  }

  /** `.replace(/[^a-zA-Z0-9_-]/g, '_')`. */
  function Sanitize(s: string): (r: string)
    ensures |r| == |s|
    ensures forall i :: 0 <= i < |r| ==> IsSafeChar(r[i])
    ensures forall i :: 0 <= i < |s| ==> (IsSafeChar(s[i]) <==> r[i] == s[i])
  {
    seq(|s|, i requires 0 <= i < |s| => if IsSafeChar(s[i]) then s[i] else '_')
  }

  /** The safe file stem of the card at index `i`: its id, or `card_<i+1>`, sanitised. */
  function SafeId(card: Card, i: nat): (r: string)
    ensures forall k :: 0 <= k < |r| ==> IsSafeChar(r[k])
    ensures |r| == |OrElse(card.id, "card_" + ShowNat(i + 1))|
  {
    Sanitize(OrElse(card.id, "card_" + ShowNat(i + 1)))
  }

  /** One of the extensions `/\.(png|jpg|jpeg|gif)$/i` accepts, in any case. */
  predicate IsImageExtension(e: string) {
    EqualsIgnoreCase(e, ".png") || EqualsIgnoreCase(e, ".jpg") || EqualsIgnoreCase(e, ".jpeg") || EqualsIgnoreCase(e, ".gif")
  }

  /** The image URL ends in an accepted extension. */
  predicate HasImageExtension(url: string) {
    (|url| >= 4 && IsImageExtension(url[|url| - 4..])) || (|url| >= 5 && IsImageExtension(url[|url| - 5..]))
  }

  /** The URL's own extension, case preserved, when it is an accepted one; `.png` otherwise. */
  function Extension(url: string): (r: string)
    ensures HasImageExtension(url) ==> IsImageExtension(r) && EndsWith(url, r)
    ensures !HasImageExtension(url) ==> r == ".png"
  {
    if |url| >= 5 && IsImageExtension(url[|url| - 5..]) then url[|url| - 5..]
    else if |url| >= 4 && IsImageExtension(url[|url| - 4..]) then url[|url| - 4..]
    else ".png"
  }

  /** A URL ending in an accepted extension keeps it exactly. */
  lemma ExtensionOf(stem: string, e: string)
    requires IsImageExtension(e)
    ensures Extension(stem + e) == e
  {
    var u := stem + e;
    assert u[|u| - |e|..] == e;
    if |e| == 4 && |u| >= 5 {
      var f := u[|u| - 5..];
      assert f[1..] == e;
      assert f[1] == '.';
      assert !IsImageExtension(f);
    }
  }

  /** The download of the card at index `i`, which has an image. */
  function ItemOf(card: Card, i: nat, outputDir: string, join: (string, string) -> string): DownloadItem
    requires Truthy(card.image)
  {
    DownloadItem(card, card.image.value, join(outputDir, SafeId(card, i) + Extension(card.image.value)), i + 1)
  }

  /** The downloads of the cards that have an image, in input order. */
  function DownloadList(cards: seq<Card>, outputDir: string, join: (string, string) -> string): (d: seq<DownloadItem>)
    ensures forall k :: 0 <= k < |d| ==>
      1 <= d[k].cardNum <= |cards| && d[k].card == cards[d[k].cardNum - 1] && Truthy(cards[d[k].cardNum - 1].image)
      && d[k] == ItemOf(cards[d[k].cardNum - 1], d[k].cardNum - 1, outputDir, join)
    ensures forall k, l :: 0 <= k < l < |d| ==> d[k].cardNum < d[l].cardNum
  {
    if cards == [] then []
    else
      var i := |cards| - 1;
      var init := DownloadList(cards[..i], outputDir, join);
      assert forall k :: 0 <= k < i ==> cards[..i][k] == cards[k];
      if Truthy(cards[i].image) then init + [ItemOf(cards[i], i, outputDir, join)] else init
  }

  /** The labels of the cards without an image: the id, or `card <i+1>`. */
  function MissingList(cards: seq<Card>): seq<string> {
    if cards == [] then []
    else
      var i := |cards| - 1;
      var init := MissingList(cards[..i]);
      if Truthy(cards[i].image) then init else init + [OrElse(cards[i].id, "card " + ShowNat(i + 1))]
  }

  /** Every card goes to exactly one of the two lists. */
  lemma {:induction false} ListsPartition(cards: seq<Card>, outputDir: string, join: (string, string) -> string)
    ensures |DownloadList(cards, outputDir, join)| + |MissingList(cards)| == |cards|
  {
    if cards != [] {
      ListsPartition(cards[..|cards| - 1], outputDir, join);
    }
  }

  /** Every card with an image has a download: the `k`-th download is card `i`'s. */
  lemma {:induction false} DownloadListComplete(cards: seq<Card>, i: nat, outputDir: string, join: (string, string) -> string) returns (k: nat)
    requires i < |cards| && Truthy(cards[i].image)
    ensures k < |DownloadList(cards, outputDir, join)| && DownloadList(cards, outputDir, join)[k].cardNum == i + 1
  {
    var n := |cards| - 1;
    var init := DownloadList(cards[..n], outputDir, join);
    var tail := DownloadListTail(cards, outputDir, join);
    if i == n {
      k := |init|;
    } else {
      assert cards[..n][i] == cards[i];
      k := DownloadListComplete(cards[..n], i, outputDir, join);
    }
  }

  /** The last card adds its download, if it has an image, after those of the cards before it. */
  lemma DownloadListTail(cards: seq<Card>, outputDir: string, join: (string, string) -> string) returns (tail: seq<DownloadItem>)
    requires cards != []
    ensures DownloadList(cards, outputDir, join) == DownloadList(cards[..|cards| - 1], outputDir, join) + tail
    ensures Truthy(cards[|cards| - 1].image) ==> |tail| == 1 && tail[0].cardNum == |cards|
    ensures !Truthy(cards[|cards| - 1].image) ==> tail == []
  {
    var n := |cards| - 1;
    if Truthy(cards[n].image) {
      tail := [ItemOf(cards[n], n, outputDir, join)];
    } else {
      tail := [];
    }
  }

  /** The indices of the cards without an image, in increasing order. */
  ghost function ImagelessIndices(cards: seq<Card>): (idx: seq<nat>)
    ensures forall k :: 0 <= k < |idx| ==> idx[k] < |cards| && !Truthy(cards[idx[k]].image)
    ensures forall j, k :: 0 <= j < k < |idx| ==> idx[j] < idx[k]
  {
    if cards == [] then []
    else
      var n := |cards| - 1;
      var r := ImagelessIndices(cards[..n]);
      assert forall k :: 0 <= k < |r| ==> cards[..n][r[k]] == cards[r[k]];
      if Truthy(cards[n].image) then r else r + [n]
  }

  /** Every card without an image has its index listed. */
  lemma {:induction false} ImagelessComplete(cards: seq<Card>, i: nat) returns (k: nat)
    requires i < |cards| && !Truthy(cards[i].image)
    ensures k < |ImagelessIndices(cards)| && ImagelessIndices(cards)[k] == i
  {
    var n := |cards| - 1;
    if i == n {
      k := |ImagelessIndices(cards[..n])|;
    } else {
      assert cards[..n][i] == cards[i];
      k := ImagelessComplete(cards[..n], i);
    }
  }

  /** Entry k of the missing-image list is the label of the k-th card without an image. */
  lemma {:induction false} MissingListAt(cards: seq<Card>, k: nat)
    requires k < |ImagelessIndices(cards)|
    ensures |MissingList(cards)| == |ImagelessIndices(cards)|
    ensures MissingList(cards)[k] == OrElse(cards[ImagelessIndices(cards)[k]].id, "card " + ShowNat(ImagelessIndices(cards)[k] + 1))
  {
    var n := |cards| - 1;
    var init := cards[..n];
    var m, r := MissingList(init), ImagelessIndices(init);
    if k < |r| {
      MissingListAt(init, k);
      assert MissingList(cards)[k] == m[k] && ImagelessIndices(cards)[k] == r[k];
      assert init[r[k]] == cards[r[k]];
    } else {
      MissingListLength(init);
    }
  }

  lemma {:induction false} MissingListLength(cards: seq<Card>)
    ensures |MissingList(cards)| == |ImagelessIndices(cards)|
  {
    if cards != [] {
      MissingListLength(cards[..|cards| - 1]);
    }
  }

  /**
   * The missing-image list labels exactly the cards without an image, in card
   * order: entry k is the label of card `idx[k]`, the indices increase, and
   * every imageless card has one.
   */
  lemma MissingListInOrder(cards: seq<Card>) returns (idx: seq<nat>)
    ensures |idx| == |MissingList(cards)|
    ensures forall k :: 0 <= k < |idx| ==>
      idx[k] < |cards| && !Truthy(cards[idx[k]].image)
      && MissingList(cards)[k] == OrElse(cards[idx[k]].id, "card " + ShowNat(idx[k] + 1))
    ensures forall j, k :: 0 <= j < k < |idx| ==> idx[j] < idx[k]
    ensures forall i :: 0 <= i < |cards| && !Truthy(cards[i].image) ==> i in idx
  {
    idx := ImagelessIndices(cards);
    MissingListLength(cards);
    forall k | 0 <= k < |idx| ensures MissingList(cards)[k] == OrElse(cards[idx[k]].id, "card " + ShowNat(idx[k] + 1)) {
      MissingListAt(cards, k);
    }
    forall i | 0 <= i < |cards| && !Truthy(cards[i].image) ensures i in idx {
      var k := ImagelessComplete(cards, i);
    }
  }

  /** The preparation loop over the cards. */
  method PrepareDownloads(cards: seq<Card>, outputDir: string, join: (string, string) -> string)
    returns (downloads: seq<DownloadItem>, missingImages: seq<string>)
    ensures downloads == DownloadList(cards, outputDir, join)
    ensures missingImages == MissingList(cards)
  {
    downloads, missingImages := [], [];
    var i := 0;
    while i < |cards|
      invariant 0 <= i <= |cards|
      invariant downloads == DownloadList(cards[..i], outputDir, join)
      invariant missingImages == MissingList(cards[..i])
    {
      var card := cards[i];
      assert cards[..i + 1][..i] == cards[..i];
      if !Truthy(card.image) {
        missingImages := missingImages + [OrElse(card.id, "card " + ShowNat(i + 1))];
      } else {
        var safeId := Sanitize(OrElse(card.id, "card_" + ShowNat(i + 1)));
        var extension := Extension(card.image.value);
        var filepath := join(outputDir, safeId + extension);
        downloads := downloads + [DownloadItem(card, card.image.value, filepath, i + 1)];
      }
      i := i + 1;
    }
    assert cards[..|cards|] == cards;
  }

  // ---------------------------------------------------------------------
  // The program

  /** What a run reports: the counters, the list sizes and the error log written, if any. */
  datatype Report = Report(results: Results, withImages: nat, missingImages: seq<string>, errorLog: Option<string>, files: set<string>)

  /** `args[1] || IMAGES_DIR`. */
  function OutputDir(args: seq<string>): string {
    if |args| > 1 && args[1] != "" then args[1] else ImagesDir
  }

  /**
   * `downloadAllImages` for the command line `args`; `input` is the parsed
   * results file, none when it does not exist.
   */
  function DownloadAllSpec(args: seq<string>, input: Option<seq<Card>>, fs: set<string>, respond: string -> Response,
                           join: (string, string) -> string): Result<Report> {
    if args == [] || args[0] == "" then Err(UsageMessage)
    else if input.None? then Err("File not found: " + args[0])
    else
      var dir := OutputDir(args);
      var downloads := DownloadList(input.value, dir, join);
      var run := DownloadInBatchesSpec(fs, downloads, MaxConcurrent, respond);
      var log := if |run.results.errors| > 0 then Some(join(dir, ErrorLogName)) else None;
      Ok(Report(run.results, |downloads|, MissingList(input.value), log,
                if log.Some? then run.fs + {log.value} else run.fs))
  }

  method DownloadAllImages(args: seq<string>, input: Option<seq<Card>>, fs: set<string>, respond: string -> Response,
                           join: (string, string) -> string) returns (r: Result<Report>)
    ensures r == DownloadAllSpec(args, input, fs, respond, join)
  {
    if args == [] || args[0] == "" {
      return Err(UsageMessage);
    }
    var inputFile := args[0];
    if input.None? {
      return Err("File not found: " + inputFile);
    }
    var outputDir := OutputDir(args);
    var downloads, missingImages := PrepareDownloads(input.value, outputDir, join);
    var results, files := DownloadInBatches(downloads, MaxConcurrent, fs, respond);
    var errorLog: Option<string> := None;
    if |results.errors| > 0 {
      errorLog := Some(join(outputDir, ErrorLogName));
      files := files + {errorLog.value};
    }
    return Ok(Report(results, |downloads|, missingImages, errorLog, files));
  }

  /** The error log is written exactly when some download failed, and the totals add up to the cards read. */
  lemma DownloadAllReport(args: seq<string>, input: Option<seq<Card>>, fs: set<string>, respond: string -> Response,
                          join: (string, string) -> string)
    requires DownloadAllSpec(args, input, fs, respond, join).Ok?
    ensures var rep := DownloadAllSpec(args, input, fs, respond, join).value;
      (rep.errorLog.Some? <==> rep.results.failed > 0)
      && rep.withImages + |rep.missingImages| == |input.value|
      && rep.results.success + rep.results.failed + rep.results.skipped == rep.withImages
  {
    var dir := OutputDir(args);
    ListsPartition(input.value, dir, join);
    DownloadCounts(fs, DownloadList(input.value, dir, join), MaxConcurrent, respond);
  }
}
