/**
 * The decision logic of `scrapeSearchPage` (index.js): rejection of a
 * bot-interstitial, the selector fallback chain for result tiles, the
 * tile-to-stub extraction and the page-count heuristic. The rendered page
 * is abstracted to what the selectors return.
 */
module SearchPage {
  import opened Wrappers
  import opened Text
  import opened Cards
  import opened CardUrl

  /** The marker text of the bot-detection interstitial. */
  const BotMarker: string := "Pardon Our Interruption"
  const BotError: string := "Bot detection triggered despite using browser."
  /** A search page shorter than this is taken for an interstitial. */
  const MinSearchPageLength: nat := 10000

  /** A result tile: the `href` of its first anchor and the image attributes of its first `img`. */
  datatype Tile = Tile(href: Option<string>, src: Option<string>, dataSrc: Option<string>, dataLazySrc: Option<string>)

  /**
   * A rendered search page: its HTML, the tiles each selector of the fallback
   * chain matches (`#cardResults li`, `.card-item`, `[data-card-id]`,
   * `.card, .pokemon-card, .tcg-card`, in that order), and the text of the
   * `#cards-load-more>div>span` and pagination containers.
   */
  datatype SearchDocument = SearchDocument(html: string, selectorMatches: seq<seq<Tile>>, loadMoreText: string, paginationText: string)

  datatype SearchResult = SearchResult(numPages: nat, cards: seq<Card>)

  /** The page is an interstitial: it shows the marker or is implausibly short. */
  predicate IsBlocked(html: string, minLength: nat) {
    Contains(html, BotMarker) || |html| < minLength
  }

  // ---------------------------------------------------------------------
  // Selector fallback chain

  /** Index of the first selector that matched any tile, or `|m|` if none did. */
  function FirstNonEmpty(m: seq<seq<Tile>>): (k: nat)
    ensures k <= |m|
    ensures forall j :: 0 <= j < k ==> m[j] == []
    ensures k < |m| ==> m[k] != []
  {
    if m == [] || m[0] != [] then 0 else 1 + FirstNonEmpty(m[1..])
  }

  /** The tiles of the first selector that matched anything; none if no selector did. */
  function SelectTiles(m: seq<seq<Tile>>): seq<Tile> {
    var k := FirstNonEmpty(m);
    if k < |m| then m[k] else []
  }

  /** Once a selector has matched, the selectors after it are never consulted. */
  lemma LaterSelectorsIgnored(m: seq<seq<Tile>>, later: seq<seq<Tile>>)
    requires SelectTiles(m) != []
    ensures SelectTiles(m + later) == SelectTiles(m)
  {
    var k := FirstNonEmpty(m);
    var k' := FirstNonEmpty(m + later);
    assert (m + later)[k] == m[k];
  }

  /** Tiles are taken from the first selector that matched, and every earlier selector matched nothing. */
  lemma SelectTilesIsFirstMatch(m: seq<seq<Tile>>)
    ensures SelectTiles(m) == [] <==> forall j :: 0 <= j < |m| ==> m[j] == []
    ensures SelectTiles(m) != [] ==>
      exists k :: 0 <= k < |m| && SelectTiles(m) == m[k] && forall j :: 0 <= j < k ==> m[j] == []
  {
  }

  // ---------------------------------------------------------------------
  // Tiles to stubs

  /** `src || data-src || data-lazy-src` of the tile's image. */
  function ImageSource(t: Tile): (r: Option<string>)
    ensures Truthy(r) <==> Truthy(t.src) || Truthy(t.dataSrc) || Truthy(t.dataLazySrc)
    ensures Truthy(t.src) ==> r == t.src
    ensures !Truthy(t.src) && Truthy(t.dataSrc) ==> r == t.dataSrc
    ensures !Truthy(t.src) && !Truthy(t.dataSrc) ==> r == t.dataLazySrc
  {
    StrOr(StrOr(t.src, t.dataSrc), t.dataLazySrc)
  }

  /** The stub of a tile that has a link; `resolve` is `Url.resolve`. */
  function StubOf(t: Tile, resolve: (string, string) -> string): (c: Card)
    requires Truthy(t.href)
  {
    var url := resolve(ScrapeUrl, t.href.value);
    var img := ImageSource(t);
    Stub(url, if Truthy(img) then Some(resolve(ScrapeUrl, img.value)) else None, CardIdFromUrl(url))
  }

  /** `tiles.map(...).filter(card => card !== null)`. */
  function ExtractStubs(tiles: seq<Tile>, resolve: (string, string) -> string): seq<Card> {
    if tiles == [] then []
    else
      var rest := ExtractStubs(tiles[1..], resolve);
      if Truthy(tiles[0].href) then [StubOf(tiles[0], resolve)] + rest else rest
  }

  /** The tiles that have a link, in order. */
  function WithLink(tiles: seq<Tile>): (r: seq<Tile>)
    ensures forall i :: 0 <= i < |r| ==> Truthy(r[i].href) && r[i] in tiles
  {
    if tiles == [] then []
    else if Truthy(tiles[0].href) then [tiles[0]] + WithLink(tiles[1..])
    else WithLink(tiles[1..])
  }

  /**
   * Tiles without a link are dropped and each remaining tile yields its stub,
   * in tile order: the n-th stub is the stub of the n-th tile that has a link.
   */
  lemma {:induction false} ExtractStubsKeepsLinkedTiles(tiles: seq<Tile>, resolve: (string, string) -> string)
    ensures |ExtractStubs(tiles, resolve)| == |WithLink(tiles)|
    ensures forall i :: 0 <= i < |WithLink(tiles)| ==>
      ExtractStubs(tiles, resolve)[i] == StubOf(WithLink(tiles)[i], resolve)
  {
    if tiles != [] {
      ExtractStubsKeepsLinkedTiles(tiles[1..], resolve);
    }
  }

  /** A stub's image is the first truthy image attribute resolved, else null, and its id comes from its URL. */
  lemma StubFields(t: Tile, resolve: (string, string) -> string)
    requires Truthy(t.href)
    ensures StubOf(t, resolve).url == Some(resolve(ScrapeUrl, t.href.value))
    ensures StubOf(t, resolve).id == CardIdFromUrl(resolve(ScrapeUrl, t.href.value))
    ensures Truthy(t.src) ==> StubOf(t, resolve).image == Some(resolve(ScrapeUrl, t.src.value))
    ensures !Truthy(t.src) && Truthy(t.dataSrc) ==> StubOf(t, resolve).image == Some(resolve(ScrapeUrl, t.dataSrc.value))
    ensures !Truthy(t.src) && !Truthy(t.dataSrc) && Truthy(t.dataLazySrc) ==>
      StubOf(t, resolve).image == Some(resolve(ScrapeUrl, t.dataLazySrc.value))
    ensures !Truthy(t.src) && !Truthy(t.dataSrc) && !Truthy(t.dataLazySrc) ==> StubOf(t, resolve).image.None?
  {
  }

  // ---------------------------------------------------------------------
  // Page count

  predicate IsO(c: char) { c == 'o' || c == 'O' }
  predicate IsF(c: char) { c == 'f' || c == 'F' }

  /** ` of N` after the first number: whitespace, `of` in any case, whitespace, digits; N's value. */
  function OfTail(u: string): Option<nat> {
    var w1 := SpaceRunLength(u);
    if w1 == 0 || |u| < w1 + 2 || !IsO(u[w1]) || !IsF(u[w1 + 1]) then None
    else
      var v := u[w1 + 2..];
      var w2 := SpaceRunLength(v);
      var d2 := DigitRunLength(v[w2..]);
      if w2 == 0 || d2 == 0 then None else Some(ParseDigits(v[w2..][..d2]))
  }

  /**
   * `/(\d+)\s+of\s+(\d+)/i` anchored at the front of `t`: the value of the
   * second number. Each part is followed by a character its neighbour cannot
   * match, so the greedy runs are the only way to match.
   */
  function OfMatch(t: string): Option<nat> {
    var d1 := DigitRunLength(t);
    if d1 == 0 then None else OfTail(t[d1..])
  }

  /** `t` starts with `page` in any case. */
  predicate StartsWithPage(t: string)
    requires |t| >= 4
  {
    (t[0] == 'p' || t[0] == 'P') && (t[1] == 'a' || t[1] == 'A') && (t[2] == 'g' || t[2] == 'G') && (t[3] == 'e' || t[3] == 'E')
  }

  /** `/page\s+\d+\s+of\s+(\d+)/i` anchored at the front of `t`. */
  function PageOfMatch(t: string): Option<nat> {
    if |t| < 4 || !StartsWithPage(t) then None
    else
      var w := SpaceRunLength(t[4..]);
      if w == 0 then None else OfMatch(t[4 + w..])
  }

  /** Offset of the leftmost match of `/(\d+)\s+of\s+(\d+)/i` at or after `i`, or `|s| + 1` when there is none. */
  function FindOf(s: string, i: nat): (j: nat)
    requires i <= |s|
    ensures i <= j <= |s| + 1
    ensures forall k :: i <= k < j && k <= |s| ==> OfMatch(s[k..]).None?
    ensures j <= |s| ==> OfMatch(s[j..]).Some?
    decreases |s| - i
  {
    if OfMatch(s[i..]).Some? then i
    else if i == |s| then |s| + 1
    else FindOf(s, i + 1)
  }

  /** Offset of the leftmost match of `/page\s+\d+\s+of\s+(\d+)/i` at or after `i`, or `|s| + 1`. */
  function FindPageOf(s: string, i: nat): (j: nat)
    requires i <= |s|
    ensures i <= j <= |s| + 1
    ensures j <= |s| ==> PageOfMatch(s[j..]).Some?
    decreases |s| - i
  {
    if PageOfMatch(s[i..]).Some? then i
    else if i == |s| then |s| + 1
    else FindPageOf(s, i + 1)
  }

  /** The load-more text, or the pagination text when the former is empty. */
  function CountText(loadMoreText: string, paginationText: string): (t: string)
    ensures loadMoreText != "" ==> t == loadMoreText
    ensures loadMoreText == "" ==> t == paginationText
  {
    if loadMoreText != "" then loadMoreText else paginationText
  }

  /**
   * The page count: 1 unless the load-more text (or, when that is empty, the
   * pagination text) holds an `N of M` pattern, in which case it is M, the
   * last group the matching regular expression captured.
   */
  function PageCount(loadMoreText: string, paginationText: string): nat {
    var text := CountText(loadMoreText, paginationText);
    if text == "" then 1
    else
      var j := FindOf(text, 0);
      if j <= |text| then OfMatch(text[j..]).value
      else
        var k := FindPageOf(text, 0);
        if k <= |text| then PageOfMatch(text[k..]).value else 1
  }

  /** The `page N of M` alternative reads its count with the `N of M` pattern after the word `page`. */
  lemma PageOfIsOfAfterPage(t: string)
    requires PageOfMatch(t).Some?
    ensures OfMatch(t[4 + SpaceRunLength(t[4..])..]) == PageOfMatch(t)
  {
  }

  /** Offset, after `page` and its whitespace, at which the `page N of M` alternative reads `N of M`. */
  function AfterPageWord(s: string, k: nat): nat
    requires k + 4 <= |s|
  {
    k + 4 + SpaceRunLength(s[k + 4..])
  }

  /** Wherever the `page N of M` alternative matches, the `N of M` one matches a little further on. */
  lemma PageOfImpliesOf(s: string, k: nat)
    requires k <= |s| && PageOfMatch(s[k..]).Some?
    ensures k + 4 <= |s| && k < AfterPageWord(s, k) <= |s|
    ensures OfMatch(s[AfterPageWord(s, k)..]) == PageOfMatch(s[k..])
  {
    var t := s[k..];
    assert |t| >= 4;
    assert t[4..] == s[k + 4..];
    var w := SpaceRunLength(t[4..]);
    assert w <= |t| - 4;
    assert AfterPageWord(s, k) == k + 4 + w;
    assert t[4 + w..] == s[k + 4 + w..];
    PageOfIsOfAfterPage(t);
  }

  /** The fallback regular expression never decides the page count: the first one matches whenever it does. */
  lemma PageOfRedundant(s: string)
    ensures FindOf(s, 0) > |s| ==> FindPageOf(s, 0) > |s|
  {
    var k := FindPageOf(s, 0);
    if k <= |s| {
      PageOfImpliesOf(s, k);
      var j := AfterPageWord(s, k);
      assert OfMatch(s[j..]).Some?;
    }
  }

  /** A match with no match before it is the one `FindOf` finds. */
  lemma FindOfLeftmost(s: string, j: nat)
    requires j <= |s| && OfMatch(s[j..]).Some?
    requires forall k :: 0 <= k < j ==> OfMatch(s[k..]).None?
    ensures FindOf(s, 0) == j
  {
  }

  /** The page count is 1 when no `N of M` pattern is found, and M of the leftmost one otherwise. */
  lemma PageCountIsLeftmost(loadMoreText: string, paginationText: string)
    ensures var text := CountText(loadMoreText, paginationText);
      (forall j :: 0 <= j <= |text| ==> OfMatch(text[j..]).None?) ==> PageCount(loadMoreText, paginationText) == 1
    ensures var text := CountText(loadMoreText, paginationText);
      forall j :: 0 <= j <= |text| && OfMatch(text[j..]).Some? && (forall k :: 0 <= k < j ==> OfMatch(text[k..]).None?) ==>
        PageCount(loadMoreText, paginationText) == OfMatch(text[j..]).value
  {
    var text := CountText(loadMoreText, paginationText);
    PageOfRedundant(text);
    forall j | 0 <= j <= |text| && OfMatch(text[j..]).Some? && (forall k :: 0 <= k < j ==> OfMatch(text[k..]).None?)
      ensures PageCount(loadMoreText, paginationText) == OfMatch(text[j..]).value
    {
      FindOfLeftmost(text, j);
    }
  }

  /** An empty text, or one without digits, gives a single page. */
  lemma NoDigitsOnePage(loadMoreText: string, paginationText: string)
    requires forall i :: 0 <= i < |CountText(loadMoreText, paginationText)| ==> !IsDigit(CountText(loadMoreText, paginationText)[i])
    ensures PageCount(loadMoreText, paginationText) == 1
  {
    var text := CountText(loadMoreText, paginationText);
    forall j | 0 <= j <= |text| ensures OfMatch(text[j..]).None? {
      assert j < |text| ==> text[j..][0] == text[j];
    }
    PageCountIsLeftmost(loadMoreText, paginationText);
  }

  // ---------------------------------------------------------------------
  // The whole page

  /**
   * `scrapeSearchPage` after the fetch: a failed fetch or an interstitial
   * throws; otherwise the stubs of the selected tiles and the page count.
   */
  function ScrapeSearchPage(fetched: Result<SearchDocument>, resolve: (string, string) -> string): (r: Result<SearchResult>)
    ensures r.Err? <==> fetched.Err? || IsBlocked(fetched.value.html, MinSearchPageLength)
    ensures fetched.Err? ==> r == Err(fetched.message)
    ensures fetched.Ok? && IsBlocked(fetched.value.html, MinSearchPageLength) ==> r == Err(BotError)
    ensures r.Ok? ==> |r.value.cards| <= |SelectTiles(fetched.value.selectorMatches)|
  {
    match fetched
    case Err(e) => Err(e)
    case Ok(doc) =>
      if IsBlocked(doc.html, MinSearchPageLength) then Err(BotError)
      else
        var tiles := SelectTiles(doc.selectorMatches);
        ExtractStubsKeepsLinkedTiles(tiles, resolve);
        WithLinkShorter(tiles);
        Ok(SearchResult(PageCount(doc.loadMoreText, doc.paginationText), ExtractStubs(tiles, resolve)))
  }

  lemma {:induction false} WithLinkShorter(tiles: seq<Tile>)
    ensures |WithLink(tiles)| <= |tiles|
  {
    if tiles != [] {
      WithLinkShorter(tiles[1..]);
    }
  }
}
