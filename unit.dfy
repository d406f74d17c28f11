/**
 * Grid tile helpers (game/unit.py): the `"type"` marker that tells unit tiles from tower tiles,
 * the card-to-unit conversion, and the building/troop category tests.
 */
module Spawn {
  import opened Wrappers
  import opened Tiles
  import opened Cards

  const TileUnit := "unit"
  const TileTower := "tower"

  /** The `"type"` key of a tile dict; an empty cell is not a dict and has none. */
  function TypeOf(t: Cell): Option<string> {
    match t
    case None => None
    case Some(UnitCell(u)) => u.tileType
    case Some(TowerCell(_, _, _)) => Some(TileTower)
  }

  /** `unit.is_unit`: a dict whose type is "unit". */
  function IsUnitTile(t: Cell): (r: bool)
    ensures r ==> HoldsUnit(t) && t.value.unit.tileType == Some(TileUnit)
    ensures HoldsUnit(t) && t.value.unit.tileType == Some(TileUnit) ==> r
  {
    TypeOf(t) == Some(TileUnit)
  }

  /** `unit.is_tower`: a dict whose type is "tower" (every tower marker, and a unit so typed). */
  function IsTowerTile(t: Cell): (r: bool)
    ensures HoldsTower(t) ==> r
    ensures HoldsUnit(t) && t.value.unit.tileType == Some(TileTower) ==> r
    ensures r ==> HoldsTower(t) || (HoldsUnit(t) && t.value.unit.tileType == Some(TileTower))
    ensures r ==> !IsUnitTile(t)
  {
    TypeOf(t) == Some(TileTower)
  }

  /**
   * `make_unit_from_card`: None stands for the ValueError raised for spells. Otherwise the tile
   * is typed "unit", its card category goes into `"kind"`, and name, owner and stats are the card's.
   */
  function MakeUnitFromCard(card: Card, ownerId: int): (r: Option<UnitData>)
    ensures r.None? <==> card.cardType == Some("spell")
    ensures r.Some? ==> r.value.tileType == Some(TileUnit) && r.value.kind == card.cardType
    ensures r.Some? ==> r.value.name == Some(card.name) && r.value.owner == Some(ownerId)
    ensures r.Some? ==> r.value.hp == Some(card.hp) && r.value.damage == Some(card.damage)
    ensures r.Some? ==> r.value.range == Some(card.range) && r.value.speed == Some(card.speed)
    ensures r.Some? ==> r.value.special == Some(card.special) && r.value.emoji == Some(card.emoji)
  {
    if card.cardType == Some("spell") then None
    else Some(UnitData(Some(TileUnit), card.cardType, Some(card.name), Some(ownerId), Some(card.hp),
                       Some(card.damage), Some(card.range), Some(card.speed), Some(card.special),
                       Some(card.emoji)))
  }

  /** `unit_is_building` */
  function UnitIsBuilding(u: Unit): (r: bool)
    ensures r <==> u.kind == Some("building")
  {
    u.kind == Some("building")
  }

  /** `unit_is_troop` */
  function UnitIsTroop(u: Unit): (r: bool)
    ensures r <==> u.kind == Some("troop")
  {
    u.kind == Some("troop")
  }

  /**
   * A unit object built from `make_unit_from_card`'s record is a unit tile, never a tower tile,
   * and it is a building or a troop exactly when the card is one.
   */
  lemma MadeUnitIsUnitTile(card: Card, ownerId: int, u: Unit)
    requires MakeUnitFromCard(card, ownerId).Some?
    requires u.tileType == MakeUnitFromCard(card, ownerId).value.tileType
    requires u.kind == MakeUnitFromCard(card, ownerId).value.kind
    ensures IsUnitTile(Some(UnitCell(u))) && !IsTowerTile(Some(UnitCell(u)))
    ensures UnitIsBuilding(u) <==> card.cardType == Some("building")
    ensures UnitIsTroop(u) <==> card.cardType == Some("troop")
    ensures !(UnitIsBuilding(u) && UnitIsTroop(u))
  {
  }

  /**
   * The two conversions agree on everything but the markers: `create_unit` puts the category in
   * `"type"`, so for a troop or building card its record is not a unit tile for `is_unit`.
   */
  lemma ConversionsAgree(card: Card, ownerId: int)
    requires card.cardType != Some("spell")
    ensures var m := MakeUnitFromCard(card, ownerId).value; var c := CreateUnit(card, ownerId);
      m.name == c.name && m.owner == c.owner && m.hp == c.hp && m.damage == c.damage
      && m.range == c.range && m.speed == c.speed && m.special == c.special && m.emoji == c.emoji
    ensures var c := CreateUnit(card, ownerId);
      c.kind.None? && (card.cardType != Some(TileUnit) ==> c.tileType != Some(TileUnit))
  {
  }
}
