/**
 * `scrapeCard` (index.js): the record built from a card's detail page. The
 * rendered page is abstracted to what each selector yields; `Details` is the
 * specification of the record and the method `ScrapeCard` builds it field by
 * field with the loops of the source.
 */
module CardDetail {
  import opened Wrappers
  import opened Text
  import opened Cards
  import opened CardUrl
  import opened Tallies
  import SearchPage

  /** A detail page shorter than this is taken for an interstitial. */
  const MinDetailPageLength: nat := 5000
  /** What `cardIdFromUrl(undefined)` throws. */
  const UndefinedUrlError: string := "Cannot read properties of undefined (reading 'match')"

  /** An `li` of an energy list: its `title` attribute and its text. */
  datatype EnergyIcon = EnergyIcon(title: Option<string>, text: string)

  /**
   * One `.pokemon-abilities .ability` block: the text of its `h4.left` heading
   * (none when it has no such heading), the `title`s of its `ul.left li` cost
   * icons, the `span.right.plus` damage, the direct `p` text and the block's whole text.
   */
  datatype AbilityBlock = AbilityBlock(heading: Option<string>, costTitles: seq<Option<string>>, damage: string, paragraph: string, fullText: string)

  /** The `.pokemon-abilities h3` heading when its next sibling is a `p`: the heading's last `div` text and the `p` text. */
  datatype PassiveNode = PassiveNode(name: string, nextText: string)

  /**
   * A rendered detail page, as its selectors see it. `evolvesFrom` is the link
   * text of the `.card-type h4` when there is one; `colourKeys` are the query
   * keys of the `.right>a` colour link (none when the link has no `href`).
   */
  datatype DetailDocument = DetailDocument(
    html: string,
    heading: string,
    imageSrc: Option<string>,
    imageDataSrc: Option<string>,
    typeLabel: string,
    setHeading: string,
    setHref: Option<string>,
    abilitiesText: string,
    evolvesFrom: Option<string>,
    hpText: string,
    passive: Option<PassiveNode>,
    blocks: seq<AbilityBlock>,
    colourKeys: Option<seq<string>>,
    weaknessIcons: seq<EnergyIcon>,
    resistanceIcons: seq<EnergyIcon>,
    retreatIcons: nat)

  // ---------------------------------------------------------------------
  // Field derivations

  /** The super type named in the type label; `Trainer` is looked for first, then `Energy`, then `Pokémon`. */
  function Classify(typeLabel: string): (t: Option<SuperType>)
    ensures t == Some(Trainer) <==> Contains(typeLabel, "Trainer")
    ensures t == Some(Energy) <==> !Contains(typeLabel, "Trainer") && Contains(typeLabel, "Energy")
    ensures t == Some(Pokemon) <==> !Contains(typeLabel, "Trainer") && !Contains(typeLabel, "Energy") && Contains(typeLabel, "Pokémon")
    ensures t.None? <==> !Contains(typeLabel, "Trainer") && !Contains(typeLabel, "Energy") && !Contains(typeLabel, "Pokémon")
  {
    if Contains(typeLabel, "Trainer") then Some(Trainer)
    else if Contains(typeLabel, "Energy") then Some(Energy)
    else if Contains(typeLabel, "Pokémon") then Some(Pokemon)
    else None
  }

  /** `hp`: the first run of digits in the HP label, or 0 when it has none. */
  function HpOf(text: string): nat {
    match FirstDigitRun(text)
    case Some(d) => ParseDigits(d)
    case None => 0
  }

  /** The titles of the cost icons that have one, in icon order. */
  function Costs(icons: seq<Option<string>>): (r: seq<string>)
    ensures |r| <= |icons|
    ensures forall k :: 0 <= k < |r| ==> r[k] != "" && Some(r[k]) in icons
  {
    if icons == [] then []
    else
      var init := Costs(icons[..|icons| - 1]);
      var last := icons[|icons| - 1];
      assert forall k :: 0 <= k < |icons| - 1 ==> icons[..|icons| - 1][k] == icons[k];
      if Truthy(last) then init + [last.value] else init
  }

  function AbilityOf(b: AbilityBlock): Ability
    requires b.heading.Some?
  {
    Ability(b.heading.value, Costs(b.costTitles), b.damage, FormatText(b.paragraph))
  }

  /** The blocks that have a name heading become abilities, in block order. */
  function Abilities(blocks: seq<AbilityBlock>): seq<Ability> {
    if blocks == [] then []
    else
      var init := Abilities(blocks[..|blocks| - 1]);
      var last := blocks[|blocks| - 1];
      if last.heading.Some? then init + [AbilityOf(last)] else init
  }

  /** The blocks without a name heading become rules: their formatted text, in block order. */
  function Rules(blocks: seq<AbilityBlock>): seq<string> {
    if blocks == [] then []
    else
      var init := Rules(blocks[..|blocks| - 1]);
      var last := blocks[|blocks| - 1];
      if last.heading.None? then init + [FormatText(last.fullText)] else init
  }

  /** A block with a name heading: it becomes an ability, and a block without one a rule. */
  predicate Named(b: AbilityBlock) {
    b.heading.Some?
  }

  /** `scrapeEnergies` with the weakness/resistance callback: an entry per titled icon, its text trimmed. */
  function Energies(icons: seq<EnergyIcon>): seq<EnergyValue> {
    if icons == [] then []
    else
      var init := Energies(icons[..|icons| - 1]);
      var last := icons[|icons| - 1];
      if Truthy(last.title) then init + [EnergyValue(last.title.value, Trim(last.text))] else init
  }

  /** All energy costs of all abilities, in order: `map("cost").flatten()`. */
  function AllCosts(abilities: seq<Ability>): seq<string> {
    if abilities == [] then [] else AllCosts(abilities[..|abilities| - 1]) + abilities[|abilities| - 1].cost
  }

  /** The `capitalize` package: the first letter upper case, the rest lower case. */
  function Capitalize(s: string): (r: string)
    ensures |r| == |s|
    ensures s != [] ==> r[0] == ToUpper(ToLower(s[0]))
    ensures forall i :: 0 < i < |s| ==> r[i] == ToLower(s[i])
  {
    if s == [] then [] else [ToUpper(ToLower(s[0]))] + seq(|s| - 1, i requires 0 <= i < |s| - 1 => ToLower(s[i + 1]))
  }

  /**
   * The colour named by the link: for the first query key, `/card-(.*)/`
   * captures what follows its leftmost `card-` up to a line terminator,
   * capitalised. None when there is no link, no key, an empty key or no `card-`.
   */
  function LinkColour(keys: Option<seq<string>>): Option<string> {
    if keys.None? || keys.value == [] || keys.value[0] == "" then None
    else
      var key := keys.value[0];
      var j := IndexOf(key, "card-");
      if j > |key| then None
      else
        var rest := key[j + 5..];
        Some(Capitalize(rest[..LineLength(rest)]))
  }

  /**
   * `card.color`: the link's colour when that is non-empty; failing that the
   * most frequent energy among all costs (the first counted on a tie); when
   * there are no costs either, whatever the link gave.
   */
  function Colour(keys: Option<seq<string>>, abilities: seq<Ability>): Option<string> {
    var c := LinkColour(keys);
    if Truthy(c) then c
    else
      var costs := AllCosts(abilities);
      if costs != [] then Some(MostFrequent(costs)) else c
  }

  /** The fields every record has: id, name, image, type, super type and set. */
  function Header(url: string, doc: DetailDocument, resolve: (string, string) -> string): Card {
    var img := StrOr(doc.imageSrc, doc.imageDataSrc);
    Empty.(
      id := CardIdFromUrl(url),
      name := Some(doc.heading),
      image := if Truthy(img) then Some(resolve(url, img.value)) else None,
      cardType := Some(doc.typeLabel),
      superType := Classify(doc.typeLabel),
      cardSet := Some(SetInfo(FormatText(doc.setHeading), resolve(ScrapeUrl, OrElse(doc.setHref, "")))))
  }

  /** The record `scrapeCard` returns for a page that was fetched and not blocked. */
  function Details(url: string, doc: DetailDocument, resolve: (string, string) -> string): Card {
    var head := Header(url, doc, resolve);
    if head.superType == Some(Trainer) || head.superType == Some(Energy) then
      head.(text := Some(FormatText(doc.abilitiesText)))
    else
      WithCombatFields(head, doc)
  }

  /** The combat fields added to a header: evolution, hit points, passive, abilities and rules, colour, weaknesses, resistances, retreat cost. */
  function WithCombatFields(head: Card, doc: DetailDocument): Card {
    var abilities := Abilities(doc.blocks);
    head.(
      evolvesFrom := if doc.evolvesFrom.Some? then Some(Trim(doc.evolvesFrom.value)) else head.evolvesFrom,
      hp := Some(HpOf(doc.hpText)),
      passive := if doc.passive.Some? then Some(Passive(doc.passive.value.name, FormatText(doc.passive.value.nextText))) else head.passive,
      abilities := Some(abilities),
      rules := Some(Rules(doc.blocks)),
      color := Colour(doc.colourKeys, abilities),
      weaknesses := Some(Energies(doc.weaknessIcons)),
      resistances := Some(Energies(doc.resistanceIcons)),
      retreatCost := Some(doc.retreatIcons))
  }

  /** `scrapeCard(url)`: the fetch's failure, the interstitial, an undefined URL, or the record. */
  function ScrapeCardSpec(url: Option<string>, fetched: Result<DetailDocument>, resolve: (string, string) -> string): (r: Result<Card>)
    ensures r.Err? <==> fetched.Err? || SearchPage.IsBlocked(fetched.value.html, MinDetailPageLength) || url.None?
    ensures fetched.Err? ==> r == Err(fetched.message)
    ensures fetched.Ok? && SearchPage.IsBlocked(fetched.value.html, MinDetailPageLength) ==> r == Err(SearchPage.BotError)
    ensures fetched.Ok? && !SearchPage.IsBlocked(fetched.value.html, MinDetailPageLength) && url.None? ==> r == Err(UndefinedUrlError)
  {
    match fetched
    case Err(e) => Err(e)
    case Ok(doc) =>
      if SearchPage.IsBlocked(doc.html, MinDetailPageLength) then Err(SearchPage.BotError)
      else if url.None? then Err(UndefinedUrlError)
      else Ok(Details(url.value, doc, resolve))
  }

  // ---------------------------------------------------------------------
  // The imperative scraper

  /** `scrapeEnergies` collecting `{type, value}` entries. */
  method CollectEnergies(icons: seq<EnergyIcon>) returns (r: seq<EnergyValue>)
    ensures r == Energies(icons)
  {
    r := [];
    var i := 0;
    while i < |icons|
      invariant 0 <= i <= |icons|
      invariant r == Energies(icons[..i])
    {
      var icon := icons[i];
      if Truthy(icon.title) {
        r := r + [EnergyValue(icon.title.value, Trim(icon.text))];
      }
      assert icons[..i + 1][..i] == icons[..i];
      i := i + 1;
    }
    assert icons[..|icons|] == icons;
  }

  /** The abilities and rules loop over the ability blocks, with the inner loop over cost icons. */
  method CollectBlocks(blocks: seq<AbilityBlock>) returns (abilities: seq<Ability>, rules: seq<string>)
    ensures abilities == Abilities(blocks) && rules == Rules(blocks)
  {
    abilities, rules := [], [];
    var i := 0;
    while i < |blocks|
      invariant 0 <= i <= |blocks|
      invariant abilities == Abilities(blocks[..i]) && rules == Rules(blocks[..i])
    {
      var b := blocks[i];
      assert blocks[..i + 1][..i] == blocks[..i];
      if b.heading.None? {
        rules := rules + [FormatText(b.fullText)];
      } else {
        var cost: seq<string> := [];
        var j := 0;
        while j < |b.costTitles|
          invariant 0 <= j <= |b.costTitles|
          invariant cost == Costs(b.costTitles[..j])
        {
          if Truthy(b.costTitles[j]) {
            cost := cost + [b.costTitles[j].value];
          }
          assert b.costTitles[..j + 1][..j] == b.costTitles[..j];
          j := j + 1;
        }
        assert b.costTitles[..j] == b.costTitles;
        abilities := abilities + [Ability(b.heading.value, cost, b.damage, FormatText(b.paragraph))];
      }
      i := i + 1;
    }
    assert blocks[..|blocks|] == blocks;
  }

  /** The fields set before the early return of trainers and energies. */
  method BuildHeader(url: string, doc: DetailDocument, resolve: (string, string) -> string) returns (card: Card)
    ensures card == Header(url, doc, resolve)
  {
    card := Empty.(id := CardIdFromUrl(url));
    card := card.(name := Some(doc.heading));
    var img := StrOr(doc.imageSrc, doc.imageDataSrc);
    if Truthy(img) {
      card := card.(image := Some(resolve(url, img.value)));
    }
    card := card.(cardType := Some(doc.typeLabel));
    if Contains(doc.typeLabel, "Trainer") {
      card := card.(superType := Some(Trainer));
    } else if Contains(doc.typeLabel, "Energy") {
      card := card.(superType := Some(Energy));
    } else if Contains(doc.typeLabel, "Pokémon") {
      card := card.(superType := Some(Pokemon));
    }
    card := card.(cardSet := Some(SetInfo(FormatText(doc.setHeading), resolve(ScrapeUrl, OrElse(doc.setHref, "")))));
  }

  /** The fields of a card that is neither a trainer nor an energy, added to its header. */
  method AddCombatFields(head: Card, doc: DetailDocument) returns (card: Card)
    ensures card == WithCombatFields(head, doc)
  {
    card := head;
    if doc.evolvesFrom.Some? {
      card := card.(evolvesFrom := Some(Trim(doc.evolvesFrom.value)));
    }
    card := card.(hp := Some(HpOf(doc.hpText)));
    if doc.passive.Some? {
      card := card.(passive := Some(Passive(doc.passive.value.name, FormatText(doc.passive.value.nextText))));
    }
    var abilities, rules := CollectBlocks(doc.blocks);
    card := card.(abilities := Some(abilities), rules := Some(rules));
    var colour := ChooseColour(doc.colourKeys, abilities);
    card := card.(color := colour);
    var weaknesses := CollectEnergies(doc.weaknessIcons);
    card := card.(weaknesses := Some(weaknesses));
    var resistances := CollectEnergies(doc.resistanceIcons);
    card := card.(resistances := Some(resistances));
    card := card.(retreatCost := Some(doc.retreatIcons));
  }

  /** The colour steps on a card whose colour is still unset: the link first, then the most frequent cost. */
  method ChooseColour(keys: Option<seq<string>>, abilities: seq<Ability>) returns (colour: Option<string>)
    ensures colour == Colour(keys, abilities)
  {
    colour := None;
    var link := LinkColour(keys);
    if link.Some? {
      colour := link;
    }
    if !Truthy(colour) {
      var costs := AllCosts(abilities);
      if costs != [] {
        colour := Some(MostFrequent(costs));
      }
    }
  }

  /** `scrapeCard`: builds the record field by field, returning early for trainers and energies. */
  method ScrapeCard(url: Option<string>, fetched: Result<DetailDocument>, resolve: (string, string) -> string) returns (r: Result<Card>)
    ensures r == ScrapeCardSpec(url, fetched, resolve)
  {
    if fetched.Err? {
      return Err(fetched.message);
    }
    var doc := fetched.value;
    if SearchPage.IsBlocked(doc.html, MinDetailPageLength) {
      return Err(SearchPage.BotError);
    }
    if url.None? {
      return Err(UndefinedUrlError);
    }
    var card := BuildHeader(url.value, doc, resolve);
    if card.superType == Some(Trainer) || card.superType == Some(Energy) {
      card := card.(text := Some(FormatText(doc.abilitiesText)));
      return Ok(card);
    }
    card := AddCombatFields(card, doc);
    return Ok(card);
  }

  // ---------------------------------------------------------------------
  // Properties of the record

  /** Trainer and energy records stop after the set: they carry text and none of the combat fields. */
  lemma TrainerEnergyShape(url: string, doc: DetailDocument, resolve: (string, string) -> string)
    requires Contains(doc.typeLabel, "Trainer") || Contains(doc.typeLabel, "Energy")
    ensures var c := Details(url, doc, resolve);
      NoCombatFields(c) && c.text == Some(FormatText(doc.abilitiesText))
      && c.id == CardIdFromUrl(url) && c.name == Some(doc.heading) && c.cardType == Some(doc.typeLabel)
      && c.cardSet.Some? && c.error.None? && c.url.None?
    ensures Details(url, doc, resolve).superType == (if Contains(doc.typeLabel, "Trainer") then Some(Trainer) else Some(Energy))
  {
  }

  /** Every other record has no text and has each combat field except possibly evolvesFrom, passive and colour. */
  lemma CombatShape(url: string, doc: DetailDocument, resolve: (string, string) -> string)
    requires !Contains(doc.typeLabel, "Trainer") && !Contains(doc.typeLabel, "Energy")
    ensures var c := Details(url, doc, resolve);
      c.text.None? && c.hp.Some? && c.abilities.Some? && c.rules.Some? && c.weaknesses.Some?
      && c.resistances.Some? && c.retreatCost == Some(doc.retreatIcons)
      && (c.evolvesFrom.Some? <==> doc.evolvesFrom.Some?) && (c.passive.Some? <==> doc.passive.Some?)
    ensures Details(url, doc, resolve).superType == (if Contains(doc.typeLabel, "Pokémon") then Some(Pokemon) else None)
  {
  }

  /** A detail record never carries `error` or `scrapeFailed`. */
  lemma SuccessHasNoError(url: Option<string>, fetched: Result<DetailDocument>, resolve: (string, string) -> string)
    requires ScrapeCardSpec(url, fetched, resolve).Ok?
    ensures ScrapeCardSpec(url, fetched, resolve).value.error.None?
    ensures ScrapeCardSpec(url, fetched, resolve).value.scrapeFailed.None?
  {
  }

  /**
   * Each block becomes exactly one ability or one rule: the abilities are the
   * named blocks and the rules the formatted text of the others, each in
   * block order (a filter keeps order, Tallies.FilterInOrder).
   */
  lemma {:induction false} BlocksSplit(blocks: seq<AbilityBlock>)
    ensures |Abilities(blocks)| + |Rules(blocks)| == |blocks|
    ensures |Abilities(blocks)| == |Filter(blocks, Named)|
    ensures forall k :: 0 <= k < |Filter(blocks, Named)| ==> Abilities(blocks)[k] == AbilityOf(Filter(blocks, Named)[k])
    ensures |Rules(blocks)| == |Filter(blocks, Not(Named))|
    ensures forall k :: 0 <= k < |Rules(blocks)| ==> Rules(blocks)[k] == FormatText(Filter(blocks, Not(Named))[k].fullText)
  {
    if blocks != [] {
      var init, last := blocks[..|blocks| - 1], blocks[|blocks| - 1];
      assert blocks == init + [last];
      BlocksSplit(init);
      FilterSnoc(init, last, Named);
      FilterSnoc(init, last, Not(Named));
      FilterComplement(blocks, Named);
    }
  }

  /** With no unnamed block there are no rules, and with no named block no abilities. */
  lemma {:induction false} AllNamedNoRules(blocks: seq<AbilityBlock>)
    ensures (forall k :: 0 <= k < |blocks| ==> blocks[k].heading.Some?) ==> Rules(blocks) == []
    ensures (forall k :: 0 <= k < |blocks| ==> blocks[k].heading.None?) ==> Abilities(blocks) == []
  {
    if blocks != [] {
      AllNamedNoRules(blocks[..|blocks| - 1]);
    }
  }

  /** Icons without a title add nothing to a cost; when every icon has one, the cost is their titles. */
  lemma {:induction false} CostsOfTitles(icons: seq<Option<string>>)
    ensures (forall k :: 0 <= k < |icons| ==> !Truthy(icons[k])) ==> Costs(icons) == []
    ensures (forall k :: 0 <= k < |icons| ==> Truthy(icons[k])) ==>
      |Costs(icons)| == |icons| && forall k :: 0 <= k < |icons| ==> Costs(icons)[k] == icons[k].value
  {
    if icons != [] {
      CostsOfTitles(icons[..|icons| - 1]);
    }
  }

  lemma FirstDigitIndexAfter(p: string, s: string)
    requires AllNonDigits(p) && s != [] && IsDigit(s[0])
    ensures FirstDigitIndex(p + s) == |p|
  {
    var i := FirstDigitIndex(p + s);
    assert (p + s)[|p|] == s[0];
  }

  predicate AllNonDigits(p: string) {
    forall i :: 0 <= i < |p| ==> !IsDigit(p[i])
  }

  lemma DigitRunOf(d: string, q: string)
    requires AllDigits(d) && (q == [] || !IsDigit(q[0]))
    ensures DigitRunLength(d + q) == |d|
  {
    var s := d + q;
    assert forall i :: 0 <= i < |d| ==> s[i] == d[i];
    assert q != [] ==> s[|d|] == q[0];
  }

  /** A label whose first number is `n` gives `n` hit points, e.g. "HP 120" gives 120. */
  lemma HpOfLabel(p: string, n: nat, q: string)
    requires AllNonDigits(p) && (q == [] || !IsDigit(q[0]))
    ensures HpOf(p + ShowNat(n) + q) == n
  {
    var d := ShowNat(n);
    var s := p + d + q;
    assert s == p + (d + q);
    FirstDigitIndexAfter(p, d + q);
    assert s[|p|..] == d + q;
    DigitRunOf(d, q);
    assert s[|p|..|p| + |d|] == d;
    ParseShowNat(n);
  }

  /** A label without digits gives 0 hit points. */
  lemma HpWithoutDigits(text: string)
    requires AllNonDigits(text)
    ensures HpOf(text) == 0
  {
  }

  /** A first query key `card-X`, with X non-empty and on one line, names the colour X, capitalised. */
  lemma LinkColourOfKey(keys: seq<string>, x: string)
    requires keys != [] && keys[0] == "card-" + x && x != []
    requires forall i :: 0 <= i < |x| ==> !IsLineTerminator(x[i])
    ensures LinkColour(Some(keys)) == Some(Capitalize(x))
    ensures Truthy(LinkColour(Some(keys)))
  {
    var key := keys[0];
    assert OccursAt(key, "card-", 0);
    assert IndexOf(key, "card-") == 0;
    assert key[5..] == x;
    assert LineLength(x) == |x|;
    assert x[..|x|] == x;
  }

  /** Without a colour link the colour is the most frequent cost energy, and there is none when there are no costs. */
  lemma ColourFallback(abilities: seq<Ability>)
    ensures AllCosts(abilities) == [] ==> Colour(None, abilities).None?
    ensures AllCosts(abilities) != [] ==>
      var c := Colour(None, abilities).value;
      c in AllCosts(abilities) && forall e :: e in AllCosts(abilities) ==> Occ(AllCosts(abilities), e) <= Occ(AllCosts(abilities), c)
  {
  }

  /** A non-empty link colour wins over the costs. */
  lemma LinkColourWins(keys: Option<seq<string>>, abilities: seq<Ability>)
    requires Truthy(LinkColour(keys))
    ensures Colour(keys, abilities) == LinkColour(keys)
  {
  }
}
