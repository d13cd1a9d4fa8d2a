/**
 * scrape_cards.js: read a configuration, collect every card of its query
 * with `scrapeAll(query, false)`, save the stubs, scrape the detail page of
 * a chosen prefix of them (saving progress as it goes) and save a summary.
 * The clock readings are parameters; `join` is `path.join`.
 */
module ScrapeCards {
  import opened Wrappers
  import opened Cards
  import opened Tallies
  import opened CardDetail
  import opened Checkpoints
  import Paginator
  import SearchPage

  const ResultsDir: string := "./results"
  const DefaultSampleSize: int := 10
  const ConfigError: string := "Config must have \"name\" and \"query\" fields"

  /**
   * The configuration file's fields; `None` is a field left out. `query` is
   * the query object in the serialised form `makeUrl` puts in the address.
   */
  datatype Config = Config(name: Option<string>, description: Option<string>, query: Option<string>,
                           scrapeDetails: Option<bool>, sampleSize: Option<int>, scrapeAll: Option<bool>)

  /** A validated configuration with its defaults filled in. */
  datatype Settings = Settings(name: string, description: string, query: string,
                               scrapeDetails: bool, sampleSize: int, scrapeAll: bool)

  /** The summary file: `files.details` is null when no detail was scraped. */
  datatype Summary = Summary(name: string, description: string, query: string, timestamp: string,
                             totalCards: nat, detailedCards: nat, urlsFile: string, detailsFile: Option<string>)

  /**
   * What a run leaves behind: the stubs saved to `urlsPath`, each save of the
   * details file in order (with the final array in memory), the counters and
   * the summary saved to `summaryPath`.
   */
  datatype Outcome = Outcome(urlsPath: string, urls: seq<Card>, detailsPath: string, detailSaves: seq<seq<Card>>,
                             detailed: seq<Card>, successCount: nat, failCount: nat,
                             summaryPath: string, summary: Summary)

  /** The check that `name` and `query` are present and truthy, then the destructuring defaults. */
  function Validate(config: Config): (r: Result<Settings>)
    ensures r.Err? <==> !Truthy(config.name) || config.query.None?
    ensures r.Err? ==> r.message == ConfigError
    ensures r.Ok? ==> r.value.name == config.name.value && r.value.query == config.query.value
    ensures r.Ok? && config.sampleSize.None? ==> r.value.sampleSize == DefaultSampleSize
    ensures r.Ok? && config.scrapeAll.None? ==> !r.value.scrapeAll
    ensures r.Ok? && config.scrapeDetails.None? ==> !r.value.scrapeDetails
    ensures r.Ok? && config.description.None? ==> r.value.description == ""
  {
    if !Truthy(config.name) || config.query.None? then Err(ConfigError)
    else Ok(Settings(config.name.value, GetOr(config.description, ""), config.query.value,
                     GetOr(config.scrapeDetails, false), GetOr(config.sampleSize, DefaultSampleSize),
                     GetOr(config.scrapeAll, false)))
  }

  /** `s.slice(0, end)`: a negative `end` counts back from the length, and `end` is clamped to `[0, |s|]`. */
  function SliceTo<T>(s: seq<T>, end: int): (r: seq<T>)
    ensures r <= s
    ensures 0 <= end <= |s| ==> |r| == end
    ensures end > |s| ==> r == s
    ensures end < 0 ==> |r| == (if |s| + end >= 0 then |s| + end else 0)
  {
    var k := if end < 0 then (if |s| + end >= 0 then |s| + end else 0) else (if end <= |s| then end else |s|);
    s[..k]
  }

  /** `cardsToScrape`: every card, the first `sampleSize`, or none. */
  function CardsToScrape(cards: seq<Card>, s: Settings): seq<Card> {
    if s.scrapeAll then cards
    else if s.scrapeDetails || s.sampleSize > 0 then SliceTo(cards, s.sampleSize)
    else []
  }

  /** `scrapeCard(card.url)` resolves for this card. */
  predicate Succeeded(card: Card, fetchDetail: Option<string> -> Result<DetailDocument>, resolve: (string, string) -> string) {
    ScrapeCardSpec(card.url, fetchDetail(card.url), resolve).Ok?
  }

  function Scraped(fetchDetail: Option<string> -> Result<DetailDocument>, resolve: (string, string) -> string): Card -> bool {
    c => Succeeded(c, fetchDetail, resolve)
  }

  /** The entry pushed for one card: its detail record, or the card with the error message added. */
  function DetailEntry(card: Card, fetchDetail: Option<string> -> Result<DetailDocument>, resolve: (string, string) -> string): Card {
    match ScrapeCardSpec(card.url, fetchDetail(card.url), resolve)
    case Ok(details) => details
    case Err(e) => card.(error := Some(e))
  }

  function DetailEntries(cards: seq<Card>, fetchDetail: Option<string> -> Result<DetailDocument>, resolve: (string, string) -> string): (r: seq<Card>)
    ensures |r| == |cards|
    ensures forall k :: 0 <= k < |cards| ==> r[k] == DetailEntry(cards[k], fetchDetail, resolve)
  {
    seq(|cards|, k requires 0 <= k < |cards| => DetailEntry(cards[k], fetchDetail, resolve))
  }

  lemma DetailEntriesSnoc(cards: seq<Card>, c: Card, fetchDetail: Option<string> -> Result<DetailDocument>, resolve: (string, string) -> string)
    ensures DetailEntries(cards + [c], fetchDetail, resolve) == DetailEntries(cards, fetchDetail, resolve) + [DetailEntry(c, fetchDetail, resolve)]
  {
  }

  /** The file names derived from `${name}_${timestamp}`. */
  function UrlsName(base: string): string { base + "_urls.json" }
  function DetailsName(base: string): string { base + "_details.json" }
  function SummaryName(base: string): string { base + "_summary.json" }

  /** The whole run for `config`; `stamp` names the files and `now` is the summary's timestamp. */
  function RunSpec(config: Config, stamp: string, now: string,
                   fetchSearch: string -> Result<SearchPage.SearchDocument>,
                   fetchDetail: Option<string> -> Result<DetailDocument>,
                   resolve: (string, string) -> string, join: (string, string) -> string): Result<Outcome> {
    match Validate(config)
    case Err(e) => Err(e)
    case Ok(s) =>
      match Paginator.ScrapeAllSpec(s.query, Some(false), fetchSearch, fetchDetail, resolve)
      case Err(e) => Err(e)
      case Ok(cards) =>
        var base := s.name + "_" + stamp;
        var toScrape := CardsToScrape(cards, s);
        var detailed := DetailEntries(toScrape, fetchDetail, resolve);
        Ok(Outcome(join(ResultsDir, UrlsName(base)), cards, join(ResultsDir, DetailsName(base)),
                   Snapshots(detailed, |toScrape|), detailed,
                   |Filter(toScrape, Scraped(fetchDetail, resolve))|,
                   |Filter(toScrape, Not(Scraped(fetchDetail, resolve)))|,
                   join(ResultsDir, SummaryName(base)),
                   Summary(s.name, s.description, s.query, now, |cards|, |toScrape|, UrlsName(base),
                           if |toScrape| > 0 then Some(DetailsName(base)) else None)))
  }

  /** The detail loop: one entry per card in order, the two counters, and a save after every tenth card and the last. */
  method DetailLoop(toScrape: seq<Card>, fetchDetail: Option<string> -> Result<DetailDocument>, resolve: (string, string) -> string)
    returns (detailed: seq<Card>, successCount: nat, failCount: nat, saves: seq<seq<Card>>)
    ensures detailed == DetailEntries(toScrape, fetchDetail, resolve)
    ensures successCount == |Filter(toScrape, Scraped(fetchDetail, resolve))|
    ensures failCount == |Filter(toScrape, Not(Scraped(fetchDetail, resolve)))|
    ensures saves == Snapshots(detailed, |toScrape|)
  {
    ghost var ok := Scraped(fetchDetail, resolve);
    detailed, successCount, failCount, saves := [], 0, 0, [];
    var i := 0;
    while i < |toScrape|
      invariant 0 <= i <= |toScrape| && |detailed| == i
      invariant detailed == DetailEntries(toScrape[..i], fetchDetail, resolve)
      invariant successCount == |Filter(toScrape[..i], ok)|
      invariant failCount == |Filter(toScrape[..i], Not(ok))|
      invariant saves == Snapshots(detailed, |toScrape|)
    {
      DetailStep(toScrape, i, fetchDetail, resolve);
      var entry, scraped := ScrapeOne(toScrape[i], fetchDetail, resolve);
      if scraped {
        successCount := successCount + 1;
      } else {
        failCount := failCount + 1;
      }
      SnapshotsSnoc(detailed, entry, |toScrape|);
      detailed := detailed + [entry];
      if (i + 1) % Interval == 0 || i == |toScrape| - 1 {
        saves := saves + [detailed];
      }
      i := i + 1;
    }
    assert toScrape[..i] == toScrape;
  }

  /** What one more card adds to the entries and to the two counters. */
  lemma DetailStep(cards: seq<Card>, i: nat, fetchDetail: Option<string> -> Result<DetailDocument>, resolve: (string, string) -> string)
    requires i < |cards|
    ensures DetailEntries(cards[..i + 1], fetchDetail, resolve) == DetailEntries(cards[..i], fetchDetail, resolve) + [DetailEntry(cards[i], fetchDetail, resolve)]
    ensures |Filter(cards[..i + 1], Scraped(fetchDetail, resolve))|
      == |Filter(cards[..i], Scraped(fetchDetail, resolve))| + (if Succeeded(cards[i], fetchDetail, resolve) then 1 else 0)
    ensures |Filter(cards[..i + 1], Not(Scraped(fetchDetail, resolve)))|
      == |Filter(cards[..i], Not(Scraped(fetchDetail, resolve)))| + (if Succeeded(cards[i], fetchDetail, resolve) then 0 else 1)
  {
    assert cards[..i + 1] == cards[..i] + [cards[i]];
    FilterSnoc(cards[..i], cards[i], Scraped(fetchDetail, resolve));
    FilterSnoc(cards[..i], cards[i], Not(Scraped(fetchDetail, resolve)));
    DetailEntriesSnoc(cards[..i], cards[i], fetchDetail, resolve);
  }

  /** One iteration's `try`/`catch`: the entry pushed, and whether `scrapeCard` resolved. */
  method ScrapeOne(card: Card, fetchDetail: Option<string> -> Result<DetailDocument>, resolve: (string, string) -> string)
    returns (entry: Card, scraped: bool)
    ensures entry == DetailEntry(card, fetchDetail, resolve)
    ensures scraped == Succeeded(card, fetchDetail, resolve)
  {
    var details := ScrapeCard(card.url, fetchDetail(card.url), resolve);
    if details.Ok? {
      entry, scraped := details.value, true;
    } else {
      entry, scraped := card.(error := Some(details.message)), false;
    }
  }

  /** `scrapeCards()`: validation, the search, the sample, the detail loop and the summary. */
  method Run(config: Config, stamp: string, now: string,
             fetchSearch: string -> Result<SearchPage.SearchDocument>,
             fetchDetail: Option<string> -> Result<DetailDocument>,
             resolve: (string, string) -> string, join: (string, string) -> string)
    returns (r: Result<Outcome>)
    ensures r == RunSpec(config, stamp, now, fetchSearch, fetchDetail, resolve, join)
  {
    var settings := Validate(config);
    if settings.Err? {
      return Err(settings.message);
    }
    var s := settings.value;
    var base := s.name + "_" + stamp;
    var cards := Paginator.ScrapeAll(s.query, Some(false), fetchSearch, fetchDetail, resolve);
    if cards.Err? {
      return Err(cards.message);
    }
    var urlsPath := join(ResultsDir, UrlsName(base));
    var toScrape := CardsToScrape(cards.value, s);
    var detailed: seq<Card> := [];
    var successCount, failCount := 0, 0;
    var saves: seq<seq<Card>> := [];
    if |toScrape| > 0 {
      detailed, successCount, failCount, saves := DetailLoop(toScrape, fetchDetail, resolve);
    }
    var detailsFile: Option<string> := if |toScrape| > 0 then Some(DetailsName(base)) else None;
    var summary := Summary(s.name, s.description, s.query, now, |cards.value|, |toScrape|, UrlsName(base), detailsFile);
    return Ok(Outcome(urlsPath, cards.value, join(ResultsDir, DetailsName(base)), saves, detailed,
                      successCount, failCount, join(ResultsDir, SummaryName(base)), summary));
  }

  // ---------------------------------------------------------------------
  // Properties

  /** Which cards get their details scraped. */
  lemma SampleSelection(cards: seq<Card>, s: Settings)
    ensures CardsToScrape(cards, s) <= cards
    ensures s.scrapeAll ==> CardsToScrape(cards, s) == cards
    ensures !s.scrapeAll && s.sampleSize > 0 ==>
      |CardsToScrape(cards, s)| == (if s.sampleSize <= |cards| then s.sampleSize else |cards|)
    ensures !s.scrapeAll && s.sampleSize == 0 ==> CardsToScrape(cards, s) == []
    ensures !s.scrapeAll && !s.scrapeDetails && s.sampleSize <= 0 ==> CardsToScrape(cards, s) == []
  {
  }

  /** With no options beyond `name` and `query`, the first ten cards (or all of fewer) are scraped. */
  lemma DefaultSample(cards: seq<Card>, name: string, query: string)
    requires name != ""
    ensures var s := Validate(Config(Some(name), None, Some(query), None, None, None));
      s.Ok? && CardsToScrape(cards, s.value) == cards[..if |cards| < 10 then |cards| else 10]
  {
  }

  /**
   * A failure entry is the card with only `error` set to the message; a
   * success entry is the detail record, which has no `error`. So for stubs
   * without an error the entries carrying one are exactly the failures.
   */
  lemma EntriesMarkFailures(cards: seq<Card>, fetchDetail: Option<string> -> Result<DetailDocument>, resolve: (string, string) -> string)
    ensures forall k :: 0 <= k < |cards| && !Succeeded(cards[k], fetchDetail, resolve) ==>
      DetailEntries(cards, fetchDetail, resolve)[k].(error := cards[k].error) == cards[k]
      && DetailEntries(cards, fetchDetail, resolve)[k].error == Some(ScrapeCardSpec(cards[k].url, fetchDetail(cards[k].url), resolve).message)
    ensures (forall k :: 0 <= k < |cards| ==> cards[k].error.None?) ==>
      forall k :: 0 <= k < |cards| ==> (DetailEntries(cards, fetchDetail, resolve)[k].error.Some? <==> !Succeeded(cards[k], fetchDetail, resolve))
  {
    forall k | 0 <= k < |cards| && Succeeded(cards[k], fetchDetail, resolve)
      ensures DetailEntries(cards, fetchDetail, resolve)[k].error.None?
    {
      SuccessHasNoError(cards[k].url, fetchDetail(cards[k].url), resolve);
    }
  }

  /** A bad configuration stops the run before any page is fetched, and a search failure ends it. */
  lemma RunFailures(config: Config, stamp: string, now: string,
                    fetchSearch: string -> Result<SearchPage.SearchDocument>,
                    fetchDetail: Option<string> -> Result<DetailDocument>,
                    resolve: (string, string) -> string, join: (string, string) -> string)
    ensures !Truthy(config.name) || config.query.None? ==>
      RunSpec(config, stamp, now, fetchSearch, fetchDetail, resolve, join) == Err(ConfigError)
    ensures Truthy(config.name) && config.query.Some? ==>
      (RunSpec(config, stamp, now, fetchSearch, fetchDetail, resolve, join).Err?
       <==> Paginator.ScrapeAllSpec(config.query.value, Some(false), fetchSearch, fetchDetail, resolve).Err?)
  {
  }

  /**
   * A completed run: one detail entry per sampled card, the counters add up
   * to that number, every save is a prefix of the final array and the last
   * is all of it, and the summary names a details file exactly when a detail
   * was scraped.
   */
  lemma RunShape(config: Config, stamp: string, now: string,
                 fetchSearch: string -> Result<SearchPage.SearchDocument>,
                 fetchDetail: Option<string> -> Result<DetailDocument>,
                 resolve: (string, string) -> string, join: (string, string) -> string)
    requires RunSpec(config, stamp, now, fetchSearch, fetchDetail, resolve, join).Ok?
    ensures var o := RunSpec(config, stamp, now, fetchSearch, fetchDetail, resolve, join).value;
      o.summary.totalCards == |o.urls|
      && o.summary.detailedCards == |o.detailed| <= |o.urls|
      && o.successCount + o.failCount == |o.detailed|
      && (o.summary.detailsFile.None? <==> o.detailed == [])
      && (o.detailed == [] <==> o.detailSaves == [])
      && (forall j :: 0 <= j < |o.detailSaves| ==> o.detailSaves[j] <= o.detailed)
      && (o.detailed != [] ==> o.detailSaves[|o.detailSaves| - 1] == o.detailed)
  {
    var s := Validate(config).value;
    var cards := Paginator.ScrapeAllSpec(s.query, Some(false), fetchSearch, fetchDetail, resolve).value;
    var toScrape := CardsToScrape(cards, s);
    var detailed := DetailEntries(toScrape, fetchDetail, resolve);
    SampleSelection(cards, s);
    FilterComplement(toScrape, Scraped(fetchDetail, resolve));
    SnapshotsArePrefixes(detailed, |toScrape|);
    if detailed != [] {
      LastSnapshotIsWhole(detailed);
    }
  }
}
