/**
 * Cards (game/card.py): a card's stats with their defaults, whether a player may play it, its
 * energy cost, and the plain unit record it describes.
 */
module Cards {
  import opened Wrappers
  import opened Tiles
  import opened Players

  /** A card entry of the `cards` table: each key may be absent (None). */
  datatype CardData = CardData(
    cardType: Option<string>,
    cost: Option<int>,
    damage: Option<int>,
    hp: Option<int>,
    range: Option<int>,
    speed: Option<int>,
    special: Option<string>,
    emoji: Option<string>,
    image: Option<string>)

  /** The empty dict, which `Card.__init__` refuses. */
  const NoData := CardData(None, None, None, None, None, None, None, None, None)

  const DefaultHp := 50
  const DefaultEmoji := "\U{1F93A}"

  /** A built card: the category stays optional (`data.get("type")`), everything else has a value. */
  datatype Card = Card(
    name: string,
    cardType: Option<string>,
    cost: int,
    damage: int,
    hp: int,
    range: int,
    speed: int,
    special: string,
    emoji: string,
    image: Option<string>)

  /**
   * `Card(name, data)`: None stands for the ValueError raised on empty data; otherwise every key
   * the entry gives is copied and every missing one takes its default.
   */
  function NewCard(name: string, data: CardData): (r: Option<Card>)
    ensures r.None? <==> data == NoData
    ensures r.Some? ==> r.value.name == name && r.value.cardType == data.cardType && r.value.image == data.image
    ensures r.Some? ==> r.value.cost == (if data.cost.Some? then data.cost.value else 0)
    ensures r.Some? ==> r.value.damage == (if data.damage.Some? then data.damage.value else 0)
    ensures r.Some? ==> r.value.hp == (if data.hp.Some? then data.hp.value else DefaultHp)
    ensures r.Some? ==> r.value.range == (if data.range.Some? then data.range.value else 1)
    ensures r.Some? ==> r.value.speed == (if data.speed.Some? then data.speed.value else 1)
    ensures r.Some? ==> r.value.special == (if data.special.Some? then data.special.value else "")
    ensures r.Some? ==> r.value.emoji == (if data.emoji.Some? then data.emoji.value else DefaultEmoji)
  {
    if data == NoData then None
    else Some(Card(name, data.cardType, data.cost.GetOr(0), data.damage.GetOr(0), data.hp.GetOr(DefaultHp),
                   data.range.GetOr(1), data.speed.GetOr(1), data.special.GetOr(""),
                   data.emoji.GetOr(DefaultEmoji), data.image))
  }

  /** `can_play`: refused when the cost exceeds the energy, and refused while the card cools down. */
  function CanPlay(card: Card, player: Player): (r: bool)
    reads player
    ensures card.cost > player.energy ==> !r
    ensures card.name in player.cooldowns ==> !r
    ensures card.cost <= player.energy && card.name !in player.cooldowns ==> r
  {
    if card.cost > player.energy then false
    else if card.name in player.cooldowns then false
    else true
  }

  /** `apply_cost`: the cost comes off the energy exactly, with no clamp at zero. */
  method ApplyCost(card: Card, player: Player)
    modifies player`energy
    ensures player.energy == old(player.energy) - card.cost
    ensures old(CanPlay(card, player)) ==> player.energy >= 0
  {
    player.energy := player.energy - card.cost;
  }

  /**
   * `create_unit`: the card's stats and name under the given owner. The card category goes into
   * the `"type"` key and there is no `"kind"` key.
   */
  function CreateUnit(card: Card, ownerId: int): (d: UnitData)
    ensures d.tileType == card.cardType && d.kind.None?
    ensures d.name == Some(card.name) && d.owner == Some(ownerId)
    ensures d.hp == Some(card.hp) && d.damage == Some(card.damage)
    ensures d.range == Some(card.range) && d.speed == Some(card.speed)
    ensures d.special == Some(card.special) && d.emoji == Some(card.emoji)
  {
    UnitData(card.cardType, None, Some(card.name), Some(ownerId), Some(card.hp), Some(card.damage),
             Some(card.range), Some(card.speed), Some(card.special), Some(card.emoji))
  }

  /** A slice of the `cards` table: the default and starter cards, with their exact entries. */
  const Catalog: map<string, CardData> := map[
    "knight" := CardData(Some("troop"), Some(3), Some(10), Some(120), None, None, None, Some("\U{1F93A}"), None),
    "archer" := CardData(Some("troop"), Some(3), Some(8), Some(60), Some(3), None, None, Some("\U{1F3F9}"), None),
    "giant" := CardData(Some("troop"), Some(5), Some(20), Some(200), None, None, None, Some("\U{1F9F1}"), None),
    "valkyrie" := CardData(Some("troop"), Some(4), Some(15), Some(150), None, None, Some("splash"), Some("\U{1FA93}"), None),
    "musketeer" := CardData(Some("troop"), Some(4), Some(18), Some(80), Some(4), None, None, Some("\U{1F52B}"), None),
    "mini_pekka" := CardData(Some("troop"), Some(4), Some(30), Some(90), None, None, None, Some("\U{1F916}"), None),
    "baby_dragon" := CardData(Some("troop"), Some(4), Some(20), Some(100), None, None, Some("flying splash"), Some("\U{1F409}"), None),
    "cannon" := CardData(Some("building"), Some(3), Some(15), Some(120), Some(3), None, None, Some("\U{1F3F0}"), None),
    "fireball" := CardData(Some("spell"), Some(4), Some(25), None, None, None, Some("3x3"), Some("\U{1F4A5}"), None),
    "zap" := CardData(Some("spell"), Some(2), Some(15), None, None, None, Some("stun"), Some("\U{26A1}"), None)]

  /** The catalog's keys in the table's order. */
  const CatalogNames: seq<string> :=
    ["knight", "archer", "giant", "valkyrie", "musketeer", "mini_pekka", "baby_dragon", "cannon", "fireball", "zap"]
}
