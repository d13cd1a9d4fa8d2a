/**
 * URLs of index.js: the card id derived from a card's URL path
 * (`cardIdFromUrl`), `makeUrl`, and the URLs of the search result pages.
 */
module CardUrl {
  import opened Wrappers
  import opened Text

  /** The search root every page and relative link is resolved against. */
  const ScrapeUrl: string := "https://www.pokemon.com/us/pokemon-tcg/pokemon-cards/"

  /** `\w`: an ASCII letter, digit or underscore. */
  predicate IsWordChar(c: char) {
    ('a' <= c <= 'z') || ('A' <= c <= 'Z') || IsDigit(c) || c == '_'
  }

  predicate AllWord(s: string) {
    forall i :: 0 <= i < |s| ==> IsWordChar(s[i])
  }

  predicate EndsWith(s: string, t: string) {
    |t| <= |s| && s[|s| - |t|..] == t
  }

  /** Number of occurrences of `c` in `s`. */
  function CountChar(s: string, c: char): nat {
    if s == [] then 0 else CountChar(s[..|s| - 1], c) + (if s[|s| - 1] == c then 1 else 0)
  }

  /** Length of the run of word characters at the end of `s`. */
  function TrailingWordLength(s: string): (k: nat)
    ensures k <= |s| && AllWord(s[|s| - k..])
    ensures k < |s| ==> !IsWordChar(s[|s| - k - 1])
  {
    if s != [] && IsWordChar(s[|s| - 1]) then
      var k := 1 + TrailingWordLength(s[..|s| - 1]);
      assert s[|s| - k..] == s[..|s| - 1][|s| - k..] + [s[|s| - 1]];
      k
    else 0
  }

  /**
   * `url.match(/\/(\w+\/\w+)\/$/)`: the URL ends in `/A/B/` with A and B
   * non-empty runs of word characters, and the id is `A/B`.
   */
  ghost predicate CardPath(url: string, a: string, b: string) {
    a != [] && b != [] && AllWord(a) && AllWord(b) && EndsWith(url, "/" + a + "/" + b + "/")
  }

  /**
   * Splits `s` into `x + "/" + w` where `w` is the non-empty run of word
   * characters at its end; fails when that run is empty or not preceded by `/`.
   */
  function SplitLastSegment(s: string): (r: Option<(string, string)>)
    ensures r.Some? ==> s == r.value.0 + "/" + r.value.1 && r.value.1 != [] && AllWord(r.value.1)
  {
    var k := TrailingWordLength(s);
    if k == 0 || k == |s| || s[|s| - k - 1] != '/' then None
    else
      assert s == s[..|s| - k - 1] + "/" + s[|s| - k..];
      Some((s[..|s| - k - 1], s[|s| - k..]))
  }

  /** `cardIdFromUrl`: the last two word segments of a URL ending in `/`, joined by `/`; null otherwise. */
  function CardIdFromUrl(url: string): (r: Option<string>)
  {
    if |url| == 0 || url[|url| - 1] != '/' then None
    else match SplitLastSegment(url[..|url| - 1])
      case None => None
      case Some((rest, b)) =>
        match SplitLastSegment(rest)
        case None => None
        case Some((_, a)) => Some(a + "/" + b)
  }

  /** The trailing word run is determined by the character before it. */
  lemma TrailingWordLengthIs(s: string, k: nat)
    requires k < |s| && AllWord(s[|s| - k..]) && !IsWordChar(s[|s| - k - 1])
    ensures TrailingWordLength(s) == k
  {
  }

  /** `x + "/" + w` with a word `w` splits back into `x` and `w`. */
  lemma SplitLastSegmentOf(x: string, w: string)
    requires w != [] && AllWord(w)
    ensures SplitLastSegment(x + "/" + w) == Some((x, w))
  {
    var s := x + "/" + w;
    assert s[|s| - |w|..] == w;
    TrailingWordLengthIs(s, |w|);
    assert s[..|s| - |w| - 1] == x;
  }

  /** Every id `cardIdFromUrl` returns comes from a `/A/B/` ending of the URL. */
  lemma CardIdSound(url: string)
    requires CardIdFromUrl(url).Some?
    ensures exists a, b :: CardPath(url, a, b) && CardIdFromUrl(url).value == a + "/" + b
  {
    var body := url[..|url| - 1];
    var (rest, b) := SplitLastSegment(body).value;
    var (pre, a) := SplitLastSegment(rest).value;
    var tail := "/" + a + "/" + b + "/";
    assert url == body + "/";
    assert url == pre + "/" + a + "/" + b + "/";
    PathAssoc(pre, a, b);
    assert url[|url| - |tail|..] == tail;
    assert CardPath(url, a, b);
  }

  lemma PathAssoc(pre: string, a: string, b: string)
    ensures pre + "/" + a + "/" + b + "/" == pre + ("/" + a + "/" + b + "/")
  {
  }

  /** A URL ending in `/A/B/` yields the id `A/B`. */
  lemma CardIdComplete(url: string, a: string, b: string)
    requires CardPath(url, a, b)
    ensures CardIdFromUrl(url) == Some(a + "/" + b)
  {
    var tail := "/" + a + "/" + b + "/";
    var pre := url[..|url| - |tail|];
    assert url == pre + tail;
    var rest := pre + "/" + a;
    var body := rest + "/" + b;
    assert url == body + "/";
    assert url[|url| - 1] == '/' && url[..|url| - 1] == body;
    SplitLastSegmentOf(rest, b);
    SplitLastSegmentOf(pre, a);
  }

  lemma {:induction false} CountCharAppend(s: string, t: string, c: char)
    ensures CountChar(s + t, c) == CountChar(s, c) + CountChar(t, c)
    decreases |t|
  {
    if t == [] {
      assert s + t == s;
    } else {
      assert (s + t)[..|s + t| - 1] == s + t[..|t| - 1];
      CountCharAppend(s, t[..|t| - 1], c);
    }
  }

  lemma {:induction false} NoCountInWord(s: string)
    requires AllWord(s)
    ensures CountChar(s, '/') == 0
  {
    if s != [] {
      NoCountInWord(s[..|s| - 1]);
    }
  }

  /** A card id holds exactly one `/`. */
  lemma CardIdHasOneSlash(url: string)
    requires CardIdFromUrl(url).Some?
    ensures CountChar(CardIdFromUrl(url).value, '/') == 1
  {
    CardIdSound(url);
    var a, b :| CardPath(url, a, b) && CardIdFromUrl(url).value == a + "/" + b;
    NoCountInWord(a);
    NoCountInWord(b);
    CountCharAppend(a + "/", b, '/');
    CountCharAppend(a, "/", '/');
  }

  /** `makeUrl`: the URL, a `?` and the serialised query. */
  function MakeUrl(url: string, query: string): (r: string)
    ensures |r| == |url| + 1 + |query| && r[|url|] == '?'
    ensures r[..|url|] == url && r[|url| + 1..] == query
  {
    url + "?" + query
  }

  /** The URL of result page `page`: `Url.resolve(SCRAPE_URL, page.toString())` with the query appended. */
  function PageUrl(page: nat, query: string): (r: string)
    ensures r == ScrapeUrl + ShowNat(page) + "?" + query
  {
    MakeUrl(ScrapeUrl + ShowNat(page), query)
  }

  /** The first page is fetched from the search root itself. */
  function FirstPageUrl(query: string): string {
    MakeUrl(ScrapeUrl, query)
  }

  /** Distinct pages are fetched from distinct URLs, and none of them is the first page's. */
  lemma PageUrlsDistinct(i: nat, j: nat, query: string)
    ensures PageUrl(i, query) == PageUrl(j, query) ==> i == j
    ensures PageUrl(i, query) != FirstPageUrl(query)
  {
    var n := |ScrapeUrl|;
    var si, sj := ShowNat(i), ShowNat(j);
    if PageUrl(i, query) == PageUrl(j, query) {
      var u, v := PageUrl(i, query), PageUrl(j, query);
      assert u[n..] == si + "?" + query;
      assert v[n..] == sj + "?" + query;
      if |si| == |sj| {
        assert si == u[n..n + |si|] == v[n..n + |sj|] == sj;
        ShowNatInjective(i, j);
      }
    }
    assert PageUrl(i, query)[n] == si[0];
    assert FirstPageUrl(query)[n] == '?';
  }
}
