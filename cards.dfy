/**
 * The card record that flows through the whole pipeline: a search-result
 * stub ({url, image, id}), a detail record built by scrapeCard, a
 * placeholder for a failed scrape, or an entry read back from a results
 * file. Every field is optional because every stage may leave it out.
 */
module Cards {
  import opened Wrappers

  /** `card.superType`; an unrecognised type label leaves the field unset. */
  datatype SuperType = Trainer | Energy | Pokemon

  datatype SetInfo = SetInfo(name: string, url: string)

  datatype Passive = Passive(name: string, text: string)

  /** One attack: its name, the energy cost in icon order, the damage label and its text. */
  datatype Ability = Ability(name: string, cost: seq<string>, damage: string, text: string)

  /** One weakness or resistance entry: `{type, value}`. */
  datatype EnergyValue = EnergyValue(energy: string, value: string)

  datatype Card = Card(
    id: Option<string>,
    url: Option<string>,
    image: Option<string>,
    name: Option<string>,
    cardType: Option<string>,
    superType: Option<SuperType>,
    cardSet: Option<SetInfo>,
    text: Option<string>,
    evolvesFrom: Option<string>,
    hp: Option<nat>,
    passive: Option<Passive>,
    abilities: Option<seq<Ability>>,
    rules: Option<seq<string>>,
    color: Option<string>,
    weaknesses: Option<seq<EnergyValue>>,
    resistances: Option<seq<EnergyValue>>,
    retreatCost: Option<nat>,
    error: Option<string>,
    scrapeFailed: Option<bool>)

  /** `{}`: a record with no field set. */
  const Empty: Card := Card(None, None, None, None, None, None, None, None, None, None,
                            None, None, None, None, None, None, None, None, None)

  /** The stub a search result tile yields: `{url, image, id}`. */
  function Stub(url: string, image: Option<string>, id: Option<string>): Card {
    Empty.(url := Some(url), image := image, id := id)
  }

  /** `card.name` is truthy: the record holds scraped data. */
  predicate HasName(c: Card) {
    Truthy(c.name)
  }

  /** `HasName` as a filter: `c => c.name`. */
  function Named(): Card -> bool {
    c => HasName(c)
  }

  /** The combat-only fields are all absent. */
  predicate NoCombatFields(c: Card) {
    c.evolvesFrom.None? && c.hp.None? && c.passive.None? && c.abilities.None? && c.rules.None?
    && c.color.None? && c.weaknesses.None? && c.resistances.None? && c.retreatCost.None?
  }

  /**
   * `Object.assign(target, details)` for a record built by scrapeCard, which
   * always sets `id` (possibly to null) and sets every other field or leaves it out.
   */
  function AssignDetails(target: Card, details: Card): (r: Card)
    ensures r.id == details.id
    ensures r.url == Override(target.url, details.url) && r.image == Override(target.image, details.image)
    ensures r.name == Override(target.name, details.name)
  {
    Card(
      details.id,
      Override(target.url, details.url),
      Override(target.image, details.image),
      Override(target.name, details.name),
      Override(target.cardType, details.cardType),
      Override(target.superType, details.superType),
      Override(target.cardSet, details.cardSet),
      Override(target.text, details.text),
      Override(target.evolvesFrom, details.evolvesFrom),
      Override(target.hp, details.hp),
      Override(target.passive, details.passive),
      Override(target.abilities, details.abilities),
      Override(target.rules, details.rules),
      Override(target.color, details.color),
      Override(target.weaknesses, details.weaknesses),
      Override(target.resistances, details.resistances),
      Override(target.retreatCost, details.retreatCost),
      Override(target.error, details.error),
      Override(target.scrapeFailed, details.scrapeFailed))
  }
}
