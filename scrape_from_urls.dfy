/**
 * scrape_from_urls.js: scrape the detail page of every card in a saved
 * list, saving progress every ten cards and once more at the end, and save
 * a summary. A failed card is kept as a placeholder marked `scrapeFailed`,
 * so the output can be fed back in (after merge_results.js) for a retry.
 * The clock readings are parameters; `join` is `path.join`.
 *
 * The detail loop has the shape of scrape_cards.js's, and the model keeps the
 * two copies apart as the source does: the entry pushed for a failure differs
 * (here it also carries `scrapeFailed: true`), and each program's contracts
 * then speak of its own entries.
 */
module ScrapeFromUrls {
  import opened Wrappers
  import opened Cards
  import opened Tallies
  import opened CardDetail
  import opened Checkpoints

  const ResultsDir: string := "./results"
  const DefaultOutputName: string := "scraped_details"
  const UsageMessage: string := "Usage: node scrape_from_urls.js <urls_file.json> [output_name]"

  /** The summary file (its `duration` is left out). */
  datatype Summary = Summary(sourceFile: string, totalCards: nat, successCount: nat, failCount: nat,
                             timestamp: string, outputFile: string)

  /** Each save of the details file in order (the last is the final save), the final array, the counters and the summary. */
  datatype Outcome = Outcome(detailsPath: string, detailSaves: seq<seq<Card>>, detailed: seq<Card>,
                             successCount: nat, failCount: nat, summaryPath: string, summary: Summary)

  /** `scrapeCard(card.url)` resolves for this card. */
  predicate Succeeded(card: Card, fetchDetail: Option<string> -> Result<DetailDocument>, resolve: (string, string) -> string) {
    ScrapeCardSpec(card.url, fetchDetail(card.url), resolve).Ok?
  }

  function Scraped(fetchDetail: Option<string> -> Result<DetailDocument>, resolve: (string, string) -> string): Card -> bool {
    c => Succeeded(c, fetchDetail, resolve)
  }

  /** An entry marked as a failed scrape. */
  predicate MarkedFailed(c: Card) {
    c.scrapeFailed == Some(true)
  }

  /** The entry pushed for one card: its detail record, or the card with `error` and `scrapeFailed: true` added. */
  function DetailEntry(card: Card, fetchDetail: Option<string> -> Result<DetailDocument>, resolve: (string, string) -> string): Card {
    match ScrapeCardSpec(card.url, fetchDetail(card.url), resolve)
    case Ok(details) => details
    case Err(e) => card.(error := Some(e), scrapeFailed := Some(true))
  }

  function DetailEntries(cards: seq<Card>, fetchDetail: Option<string> -> Result<DetailDocument>, resolve: (string, string) -> string): (r: seq<Card>)
    ensures |r| == |cards|
    ensures forall k :: 0 <= k < |cards| ==> r[k] == DetailEntry(cards[k], fetchDetail, resolve)
  {
    seq(|cards|, k requires 0 <= k < |cards| => DetailEntry(cards[k], fetchDetail, resolve))
  }

  lemma DetailEntriesSnoc(cards: seq<Card>, c: Card, fetchDetail: Option<string> -> Result<DetailDocument>, resolve: (string, string) -> string)
    ensures DetailEntries(cards + [c], fetchDetail, resolve) == DetailEntries(cards, fetchDetail, resolve) + [DetailEntry(c, fetchDetail, resolve)]
  {
  }

  /** `args[1] || 'scraped_details'`. */
  function OutputName(args: seq<string>): string {
    if |args| > 1 && args[1] != "" then args[1] else DefaultOutputName
  }

  /**
   * The run for the command line `args`; `input` is the parsed list file,
   * none when it does not exist. `stamp` names the files and `now` is the
   * summary's timestamp.
   */
  function FromUrlsSpec(args: seq<string>, input: Option<seq<Card>>, stamp: string, now: string,
                        fetchDetail: Option<string> -> Result<DetailDocument>,
                        resolve: (string, string) -> string, join: (string, string) -> string): Result<Outcome> {
    if args == [] || args[0] == "" then Err(UsageMessage)
    else if input.None? then Err("File not found: " + args[0])
    else
      var cards := input.value;
      var base := OutputName(args) + "_" + stamp;
      var detailed := DetailEntries(cards, fetchDetail, resolve);
      var ok := |Filter(cards, Scraped(fetchDetail, resolve))|;
      var failed := |Filter(cards, Not(Scraped(fetchDetail, resolve)))|;
      Ok(Outcome(join(ResultsDir, base + "_details.json"), Snapshots(detailed, |cards|) + [detailed], detailed,
                 ok, failed, join(ResultsDir, base + "_summary.json"),
                 Summary(args[0], |cards|, ok, failed, now, base + "_details.json")))
  }

  /** What one more card adds to the entries and to the two counters. */
  lemma DetailStep(cards: seq<Card>, i: nat, fetchDetail: Option<string> -> Result<DetailDocument>, resolve: (string, string) -> string)
    requires i < |cards|
    ensures DetailEntries(cards[..i + 1], fetchDetail, resolve) == DetailEntries(cards[..i], fetchDetail, resolve) + [DetailEntry(cards[i], fetchDetail, resolve)]
    ensures |Filter(cards[..i + 1], Scraped(fetchDetail, resolve))|
      == |Filter(cards[..i], Scraped(fetchDetail, resolve))| + (if Succeeded(cards[i], fetchDetail, resolve) then 1 else 0)
    ensures |Filter(cards[..i + 1], Not(Scraped(fetchDetail, resolve)))|
      == |Filter(cards[..i], Not(Scraped(fetchDetail, resolve)))| + (if Succeeded(cards[i], fetchDetail, resolve) then 0 else 1)
  {
    assert cards[..i + 1] == cards[..i] + [cards[i]];
    FilterSnoc(cards[..i], cards[i], Scraped(fetchDetail, resolve));
    FilterSnoc(cards[..i], cards[i], Not(Scraped(fetchDetail, resolve)));
    DetailEntriesSnoc(cards[..i], cards[i], fetchDetail, resolve);
  }

  /** One iteration's `try`/`catch`: the entry pushed, and whether `scrapeCard` resolved. */
  method ScrapeOne(card: Card, fetchDetail: Option<string> -> Result<DetailDocument>, resolve: (string, string) -> string)
    returns (entry: Card, scraped: bool)
    ensures entry == DetailEntry(card, fetchDetail, resolve)
    ensures scraped == Succeeded(card, fetchDetail, resolve)
  {
    var details := ScrapeCard(card.url, fetchDetail(card.url), resolve);
    if details.Ok? {
      entry, scraped := details.value, true;
    } else {
      entry, scraped := card.(error := Some(details.message), scrapeFailed := Some(true)), false;
    }
  }

  /** The loop of `scrapeFromUrlsFile`: one entry per card in order, the counters, and the progress saves. */
  method DetailLoop(cards: seq<Card>, fetchDetail: Option<string> -> Result<DetailDocument>, resolve: (string, string) -> string)
    returns (detailed: seq<Card>, successCount: nat, failCount: nat, saves: seq<seq<Card>>)
    ensures detailed == DetailEntries(cards, fetchDetail, resolve)
    ensures successCount == |Filter(cards, Scraped(fetchDetail, resolve))|
    ensures failCount == |Filter(cards, Not(Scraped(fetchDetail, resolve)))|
    ensures saves == Snapshots(detailed, |cards|)
  {
    ghost var ok := Scraped(fetchDetail, resolve);
    detailed, successCount, failCount, saves := [], 0, 0, [];
    var i := 0;
    while i < |cards|
      invariant 0 <= i <= |cards| && |detailed| == i
      invariant detailed == DetailEntries(cards[..i], fetchDetail, resolve)
      invariant successCount == |Filter(cards[..i], ok)|
      invariant failCount == |Filter(cards[..i], Not(ok))|
      invariant saves == Snapshots(detailed, |cards|)
    {
      DetailStep(cards, i, fetchDetail, resolve);
      var entry, scraped := ScrapeOne(cards[i], fetchDetail, resolve);
      if scraped {
        successCount := successCount + 1;
      } else {
        failCount := failCount + 1;
      }
      SnapshotsSnoc(detailed, entry, |cards|);
      detailed := detailed + [entry];
      if (i + 1) % Interval == 0 || i == |cards| - 1 {
        saves := saves + [detailed];
      }
      i := i + 1;
    }
    assert cards[..i] == cards;
  }

  /** `scrapeFromUrlsFile()` up to the saved summary. */
  method ScrapeFromUrlsFile(args: seq<string>, input: Option<seq<Card>>, stamp: string, now: string,
                            fetchDetail: Option<string> -> Result<DetailDocument>,
                            resolve: (string, string) -> string, join: (string, string) -> string)
    returns (r: Result<Outcome>)
    ensures r == FromUrlsSpec(args, input, stamp, now, fetchDetail, resolve, join)
  {
    if args == [] || args[0] == "" {
      return Err(UsageMessage);
    }
    var urlsFile := args[0];
    if input.None? {
      return Err("File not found: " + urlsFile);
    }
    var cards := input.value;
    var base := OutputName(args) + "_" + stamp;
    var detailed, successCount, failCount, saves := DetailLoop(cards, fetchDetail, resolve);
    var detailsFile := join(ResultsDir, base + "_details.json");
    saves := saves + [detailed];
    var summary := Summary(urlsFile, |cards|, successCount, failCount, now, base + "_details.json");
    return Ok(Outcome(detailsFile, saves, detailed, successCount, failCount, join(ResultsDir, base + "_summary.json"), summary));
  }

  // ---------------------------------------------------------------------
  // Properties

  /** Without an input file name nothing runs, and a missing file fails before any card is scraped. */
  lemma FromUrlsFailures(args: seq<string>, input: Option<seq<Card>>, stamp: string, now: string,
                         fetchDetail: Option<string> -> Result<DetailDocument>,
                         resolve: (string, string) -> string, join: (string, string) -> string)
    ensures FromUrlsSpec(args, input, stamp, now, fetchDetail, resolve, join).Err? <==> args == [] || args[0] == "" || input.None?
    ensures args != [] && args[0] != "" && input.None? ==>
      FromUrlsSpec(args, input, stamp, now, fetchDetail, resolve, join) == Err("File not found: " + args[0])
  {
  }

  /**
   * The entries marked `scrapeFailed` are exactly the failures, whatever the
   * input cards carried: a detail record has no such field, and a failed
   * card keeps everything else it had.
   */
  lemma {:induction false} MarkedExactlyFailures(cards: seq<Card>, fetchDetail: Option<string> -> Result<DetailDocument>, resolve: (string, string) -> string)
    ensures forall k :: 0 <= k < |cards| ==>
      (MarkedFailed(DetailEntries(cards, fetchDetail, resolve)[k]) <==> !Succeeded(cards[k], fetchDetail, resolve))
    ensures forall k :: 0 <= k < |cards| && !Succeeded(cards[k], fetchDetail, resolve) ==>
      DetailEntries(cards, fetchDetail, resolve)[k].(error := cards[k].error, scrapeFailed := cards[k].scrapeFailed) == cards[k]
    ensures |Filter(DetailEntries(cards, fetchDetail, resolve), MarkedFailed)| == |Filter(cards, Not(Scraped(fetchDetail, resolve)))|
  {
    var ok := Scraped(fetchDetail, resolve);
    if cards != [] {
      var init, c := cards[..|cards| - 1], cards[|cards| - 1];
      assert cards == init + [c];
      MarkedExactlyFailures(init, fetchDetail, resolve);
      DetailEntriesSnoc(init, c, fetchDetail, resolve);
      FilterSnoc(init, c, Not(ok));
      FilterSnoc(DetailEntries(init, fetchDetail, resolve), DetailEntry(c, fetchDetail, resolve), MarkedFailed);
      forall k | 0 <= k < |cards| ensures (MarkedFailed(DetailEntries(cards, fetchDetail, resolve)[k]) <==> !Succeeded(cards[k], fetchDetail, resolve)) {
        if Succeeded(cards[k], fetchDetail, resolve) {
          SuccessHasNoError(cards[k].url, fetchDetail(cards[k].url), resolve);
        }
      }
    }
  }

  /**
   * A completed run: one entry per input card, the summary's counters add up
   * to the number of cards, every save is a prefix of the final array, and
   * the final save (like the checkpoint after the last card) holds all of it.
   */
  lemma FromUrlsShape(args: seq<string>, input: Option<seq<Card>>, stamp: string, now: string,
                      fetchDetail: Option<string> -> Result<DetailDocument>,
                      resolve: (string, string) -> string, join: (string, string) -> string)
    requires FromUrlsSpec(args, input, stamp, now, fetchDetail, resolve, join).Ok?
    ensures var o := FromUrlsSpec(args, input, stamp, now, fetchDetail, resolve, join).value;
      |o.detailed| == |input.value| == o.summary.totalCards
      && o.summary.successCount + o.summary.failCount == o.summary.totalCards
      && o.summary.failCount == |Filter(o.detailed, MarkedFailed)|
      && (forall j :: 0 <= j < |o.detailSaves| ==> o.detailSaves[j] <= o.detailed)
      && o.detailSaves[|o.detailSaves| - 1] == o.detailed
      && (|input.value| > 0 ==> |o.detailSaves| >= 2 && o.detailSaves[|o.detailSaves| - 2] == o.detailed)
  {
    var cards := input.value;
    var detailed := DetailEntries(cards, fetchDetail, resolve);
    FilterComplement(cards, Scraped(fetchDetail, resolve));
    MarkedExactlyFailures(cards, fetchDetail, resolve);
    SnapshotsArePrefixes(detailed, |cards|);
    if cards != [] {
      LastSnapshotIsWhole(detailed);
    }
  }
}
