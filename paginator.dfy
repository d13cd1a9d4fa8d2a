/**
 * `scrapeAll` (index.js): the first search page, then pages 2..numPages in
 * order, concatenated; then, in detail mode, every card merged in place with
 * its detail record. The browser is the oracle `fetchSearch` (search pages)
 * and `fetchDetail` (detail pages, given the card's possibly missing URL).
 */
module Paginator {
  import opened Wrappers
  import opened Cards
  import opened CardUrl
  import opened SearchPage
  import opened CardDetail

  /** A search page fetched from `url` and scraped. */
  function PageAt(url: string, fetchSearch: string -> Result<SearchDocument>, resolve: (string, string) -> string): Result<SearchResult> {
    ScrapeSearchPage(fetchSearch(url), resolve)
  }

  /** Result page `p` of the query, fetched from its own address. */
  function Pages(query: string, fetchSearch: string -> Result<SearchDocument>, resolve: (string, string) -> string): nat -> Result<SearchResult> {
    (p: nat) => PageAt(PageUrl(p, query), fetchSearch, resolve)
  }

  /** The stubs of pages 2..last, in page order, or the failure of the first page that fails. */
  function LaterPages(pages: nat -> Result<SearchResult>, last: nat): Result<seq<Card>> {
    if last < 2 then Ok([])
    else match LaterPages(pages, last - 1)
      case Err(e) => Err(e)
      case Ok(cards) =>
        match pages(last)
        case Err(e) => Err(e)
        case Ok(page) => Ok(cards + page.cards)
  }

  /** A card after the detail step: the detail record assigned over it, or the card unchanged when scraping it throws. */
  function Enrich(c: Card, fetchDetail: Option<string> -> Result<DetailDocument>, resolve: (string, string) -> string): Card {
    match ScrapeCardSpec(c.url, fetchDetail(c.url), resolve)
    case Ok(details) => AssignDetails(c, details)
    case Err(_) => c
  }

  /** The detail step over all cards. */
  function DetailPass(cards: seq<Card>, fetchDetail: Option<string> -> Result<DetailDocument>, resolve: (string, string) -> string): (r: seq<Card>)
    ensures |r| == |cards|
    ensures forall i :: 0 <= i < |cards| ==> r[i] == Enrich(cards[i], fetchDetail, resolve)
  {
    seq(|cards|, i requires 0 <= i < |cards| => Enrich(cards[i], fetchDetail, resolve))
  }

  /** `scrapeDetails = true`: the default applies only when the argument is left out. */
  function DetailsWanted(scrapeDetails: Option<bool>): bool {
    if scrapeDetails.None? then true else scrapeDetails.value
  }

  /** What `scrapeAll(query, scrapeDetails)` resolves to, or the error it rejects with. */
  function ScrapeAllSpec(query: string, scrapeDetails: Option<bool>, fetchSearch: string -> Result<SearchDocument>,
                         fetchDetail: Option<string> -> Result<DetailDocument>, resolve: (string, string) -> string): Result<seq<Card>> {
    match PageAt(FirstPageUrl(query), fetchSearch, resolve)
    case Err(e) => Err(e)
    case Ok(first) =>
      match LaterPages(Pages(query, fetchSearch, resolve), first.numPages)
      case Err(e) => Err(e)
      case Ok(later) =>
        var cards := first.cards + later;
        Ok(if DetailsWanted(scrapeDetails) then DetailPass(cards, fetchDetail, resolve) else cards)
  }

  /** A failure on some page is the result of every longer run. */
  lemma {:induction false} LaterPagesErrPersists(pages: nat -> Result<SearchResult>, i: nat, n: nat)
    requires i <= n && LaterPages(pages, i).Err?
    ensures LaterPages(pages, n) == LaterPages(pages, i)
    decreases n - i
  {
    if i < n {
      LaterPagesErrPersists(pages, i, n - 1);
    }
  }

  /** The loop over pages 2..numPages, concatenating their stubs; the first failing page aborts it. */
  method ScrapeLaterPages(query: string, numPages: nat, fetchSearch: string -> Result<SearchDocument>, resolve: (string, string) -> string)
    returns (r: Result<seq<Card>>)
    ensures r == LaterPages(Pages(query, fetchSearch, resolve), numPages)
  {
    ghost var pages := Pages(query, fetchSearch, resolve);
    var cards: seq<Card> := [];
    var i := 2;
    while i <= numPages
      invariant 2 <= i && (i <= numPages + 1 || i == 2)
      invariant LaterPages(pages, i - 1) == Ok(cards)
    {
      var results := PageAt(PageUrl(i, query), fetchSearch, resolve);
      assert results == pages(i);
      if results.Err? {
        LaterPagesErrPersists(pages, i, numPages);
        return Err(results.message);
      }
      cards := cards + results.value.cards;
      i := i + 1;
    }
    assert LaterPages(pages, numPages) == LaterPages(pages, i - 1);
    return Ok(cards);
  }

  /** The detail loop: each card that scrapes successfully has its detail record assigned over it, in place. */
  method ScrapeDetails(stubs: seq<Card>, fetchDetail: Option<string> -> Result<DetailDocument>, resolve: (string, string) -> string)
    returns (cards: seq<Card>)
    ensures cards == DetailPass(stubs, fetchDetail, resolve)
  {
    cards := stubs;
    var j := 0;
    while j < |cards|
      invariant 0 <= j <= |cards| == |stubs|
      invariant forall k :: 0 <= k < j ==> cards[k] == Enrich(stubs[k], fetchDetail, resolve)
      invariant forall k :: j <= k < |cards| ==> cards[k] == stubs[k]
    {
      var card := EnrichOne(cards[j], fetchDetail, resolve);
      cards := cards[j := card];
      j := j + 1;
    }
  }

  /** One step of the detail loop: `Object.assign(card, details)` when `scrapeCard` succeeds, nothing when it throws. */
  method EnrichOne(stub: Card, fetchDetail: Option<string> -> Result<DetailDocument>, resolve: (string, string) -> string)
    returns (card: Card)
    ensures card == Enrich(stub, fetchDetail, resolve)
  {
    card := stub;
    var details := ScrapeCard(stub.url, fetchDetail(stub.url), resolve);
    if details.Ok? {
      card := AssignDetails(card, details.value);
    }
  }

  /** `scrapeAll`: the first page, the later pages, then the detail step when it is wanted. */
  method ScrapeAll(query: string, scrapeDetails: Option<bool>, fetchSearch: string -> Result<SearchDocument>,
                   fetchDetail: Option<string> -> Result<DetailDocument>, resolve: (string, string) -> string)
    returns (r: Result<seq<Card>>)
    ensures r == ScrapeAllSpec(query, scrapeDetails, fetchSearch, fetchDetail, resolve)
  {
    var search := PageAt(FirstPageUrl(query), fetchSearch, resolve);
    if search.Err? {
      return Err(search.message);
    }
    var later := ScrapeLaterPages(query, search.value.numPages, fetchSearch, resolve);
    if later.Err? {
      return Err(later.message);
    }
    var cards := search.value.cards + later.value;
    if DetailsWanted(scrapeDetails) {
      cards := ScrapeDetails(cards, fetchDetail, resolve);
    }
    return Ok(cards);
  }

  // ---------------------------------------------------------------------
  // Properties

  /** The later pages fail exactly when one of them does. */
  lemma {:induction false} LaterPagesAbort(pages: nat -> Result<SearchResult>, last: nat)
    ensures LaterPages(pages, last).Err? <==> exists p :: 2 <= p <= last && pages(p).Err?
  {
    if last >= 2 {
      LaterPagesAbort(pages, last - 1);
      if LaterPages(pages, last - 1).Err? {
        var p :| 2 <= p <= last - 1 && pages(p).Err?;
        assert 2 <= p <= last;
      }
    }
  }

  /** The rejection is that of the first page that fails. */
  lemma {:induction false} LaterPagesFirstError(pages: nat -> Result<SearchResult>, last: nat, p: nat)
    requires 2 <= p <= last && pages(p).Err?
    requires forall q :: 2 <= q < p ==> pages(q).Ok?
    ensures LaterPages(pages, last) == Err(pages(p).message)
  {
    LaterPagesAbort(pages, p - 1);
    LaterPagesErrPersists(pages, p, last);
  }

  /** When nothing fails, the stubs of pages 2..a are a prefix of those of pages 2..b: pages keep their order. */
  lemma {:induction false} LaterPagesPrefix(pages: nat -> Result<SearchResult>, a: nat, b: nat)
    requires a <= b && LaterPages(pages, b).Ok?
    ensures LaterPages(pages, a).Ok?
    ensures LaterPages(pages, a).value <= LaterPages(pages, b).value
    decreases b - a
  {
    if a < b {
      LaterPagesPrefix(pages, a, b - 1);
    }
  }

  /** The stubs of page `p` directly follow those of pages 2..p-1, so the lengths add up page by page. */
  lemma LaterPagesStep(pages: nat -> Result<SearchResult>, p: nat)
    requires p >= 2 && LaterPages(pages, p).Ok?
    ensures pages(p).Ok? && LaterPages(pages, p - 1).Ok?
    ensures LaterPages(pages, p).value == LaterPages(pages, p - 1).value + pages(p).value.cards
    ensures |LaterPages(pages, p).value| == |LaterPages(pages, p - 1).value| + |pages(p).value.cards|
  {
  }

  /** `scrapeAll` rejects exactly when the first page or one of pages 2..numPages fails. */
  lemma ScrapeAllAborts(query: string, scrapeDetails: Option<bool>, fetchSearch: string -> Result<SearchDocument>,
                        fetchDetail: Option<string> -> Result<DetailDocument>, resolve: (string, string) -> string)
    ensures var first := PageAt(FirstPageUrl(query), fetchSearch, resolve);
      ScrapeAllSpec(query, scrapeDetails, fetchSearch, fetchDetail, resolve).Err? <==>
        first.Err? || exists p :: 2 <= p <= first.value.numPages && PageAt(PageUrl(p, query), fetchSearch, resolve).Err?
  {
    var first := PageAt(FirstPageUrl(query), fetchSearch, resolve);
    if first.Ok? {
      var pages := Pages(query, fetchSearch, resolve);
      LaterPagesAbort(pages, first.value.numPages);
      assert forall p :: pages(p) == PageAt(PageUrl(p, query), fetchSearch, resolve);
    }
  }

  /** Without details the result is the first page's stubs followed by the later pages' ones; with details it has the same length. */
  lemma ScrapeAllShape(query: string, scrapeDetails: Option<bool>, fetchSearch: string -> Result<SearchDocument>,
                       fetchDetail: Option<string> -> Result<DetailDocument>, resolve: (string, string) -> string)
    requires ScrapeAllSpec(query, scrapeDetails, fetchSearch, fetchDetail, resolve).Ok?
    ensures var first := PageAt(FirstPageUrl(query), fetchSearch, resolve).value;
      var later := LaterPages(Pages(query, fetchSearch, resolve), first.numPages).value;
      var r := ScrapeAllSpec(query, scrapeDetails, fetchSearch, fetchDetail, resolve).value;
      |r| == |first.cards| + |later| && (!DetailsWanted(scrapeDetails) ==> r == first.cards + later)
  {
  }

  /** The detail step never changes a card's URL (the detail record has none), and leaves a card whose scrape throws unchanged. */
  lemma EnrichKeepsUrl(c: Card, fetchDetail: Option<string> -> Result<DetailDocument>, resolve: (string, string) -> string)
    ensures Enrich(c, fetchDetail, resolve).url == c.url
    ensures ScrapeCardSpec(c.url, fetchDetail(c.url), resolve).Err? ==> Enrich(c, fetchDetail, resolve) == c
    ensures ScrapeCardSpec(c.url, fetchDetail(c.url), resolve).Ok? ==>
      Enrich(c, fetchDetail, resolve).name == ScrapeCardSpec(c.url, fetchDetail(c.url), resolve).value.name
  {
    var r := ScrapeCardSpec(c.url, fetchDetail(c.url), resolve);
    if r.Ok? {
      var doc := fetchDetail(c.url).value;
      var head := Header(c.url.value, doc, resolve);
      assert head.url.None?;
      assert r.value.url.None?;
    }
  }

  /** A stub without a URL is never enriched: its scrape throws whatever the fetch returns. */
  lemma MissingUrlUnchanged(c: Card, fetchDetail: Option<string> -> Result<DetailDocument>, resolve: (string, string) -> string)
    requires c.url.None?
    ensures Enrich(c, fetchDetail, resolve) == c
  {
  }
}
