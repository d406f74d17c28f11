/**
 * What a grid cell holds. A unit is a mutable record shared by reference (the source keeps
 * units as dicts and mutates them in place); a tower marker is an immutable value derived from
 * the arena's tower table.
 */
module Tiles {
  import opened Wrappers

  /** The three tower slots of each owner, in the tower table's iteration order. */
  datatype Slot = Left | Right | King

  const Slots: seq<Slot> := [Left, Right, King]

  /**
   * The keys of a unit dict as built by `Card.create_unit` or `make_unit_from_card`
   * (None for a key the dict does not have).
   */
  datatype UnitData = UnitData(
    tileType: Option<string>,
    kind: Option<string>,
    name: Option<string>,
    owner: Option<int>,
    hp: Option<int>,
    damage: Option<int>,
    range: Option<int>,
    speed: Option<int>,
    special: Option<string>,
    emoji: Option<string>)

  /** A unit dict on the grid: one object, possibly referenced from several grids. */
  class Unit {
    const tileType: Option<string>
    const kind: Option<string>
    const name: Option<string>
    const special: Option<string>
    var owner: Option<int>
    var hp: Option<int>
    var damage: Option<int>
    var range: Option<int>
    var speed: Option<int>
    var emoji: Option<string>

    constructor (d: UnitData)
      ensures Data() == d
    {
      tileType, kind, name, special := d.tileType, d.kind, d.name, d.special;
      owner, hp, damage, range, speed, emoji := d.owner, d.hp, d.damage, d.range, d.speed, d.emoji;
    }

    /** The dict's current contents. */
    function Data(): UnitData
      reads this
    {
      UnitData(tileType, kind, name, owner, hp, damage, range, speed, special, emoji)
    }

    /** `int(tile.get("hp", 0) or 0)` */
    function Hp(): int
      reads this
    {
      hp.GetOr(0)
    }

    /** `int(tile.get("damage", 0) or 0)` */
    function Damage(): int
      reads this
    {
      damage.GetOr(0)
    }
  }

  /** A grid cell's content: a unit, or a tower marker {"type": "tower", "owner", "emoji", "name"}. */
  datatype Tile = UnitCell(unit: Unit) | TowerCell(owner: int, name: Slot, emoji: string)

  type Cell = Option<Tile>

  type Grid = seq<seq<Cell>>

  /** `height` rows of `width` cells each. */
  predicate Shaped(g: Grid, height: nat, width: nat) {
    |g| == height && forall r :: 0 <= r < |g| ==> |g[r]| == width
  }

  /** A height x width grid of empty cells. */
  function EmptyGrid(height: nat, width: nat): (g: Grid)
    ensures Shaped(g, height, width)
    ensures forall r, c :: 0 <= r < height && 0 <= c < width ==> g[r][c].None?
  {
    seq(height, _ => seq(width, _ => None))
  }

  predicate HoldsTower(t: Cell) { t.Some? && t.value.TowerCell? }

  predicate HoldsUnit(t: Cell) { t.Some? && t.value.UnitCell? }

  /** The grid with cell (r, c) replaced by `v`. */
  function Write(g: Grid, r: int, c: int, v: Cell): (g': Grid)
    requires 0 <= r < |g| && 0 <= c < |g[r]|
    ensures |g'| == |g| && forall i :: 0 <= i < |g| ==> |g'[i]| == |g[i]|
    ensures g'[r][c] == v
    ensures forall i, j :: 0 <= i < |g| && 0 <= j < |g[i]| && (i, j) != (r, c) ==> g'[i][j] == g[i][j]
  {
    g[r := g[r][c := v]]
  }

  /** The set of unit objects that a grid references. */
  function Units(g: Grid): set<Unit> {
    set r, c | 0 <= r < |g| && 0 <= c < |g[r]| && HoldsUnit(g[r][c]) :: g[r][c].value.unit
  }

  /** The hp of each unit of us, read as `Hp()` reads it. */
  function HpOf(us: set<Unit>): (m: map<Unit, int>)
    reads us`hp
    ensures m.Keys == us && forall u :: u in us ==> m[u] == u.hp.GetOr(0)
  {
    map u | u in us :: u.hp.GetOr(0)
  }

  /** No unit of us has more hp than the table m records for it. */
  predicate HpBelow(us: set<Unit>, m: map<Unit, int>)
    reads us`hp
  {
    forall u :: u in us && u in m ==> u.hp.GetOr(0) <= m[u]
  }

  lemma UnitInUnits(g: Grid, r: int, c: int)
    requires 0 <= r < |g| && 0 <= c < |g[r]| && HoldsUnit(g[r][c])
    ensures g[r][c].value.unit in Units(g)
  {
  }

  /** g' has g's shape, and each of its cells is g's or has been emptied. */
  predicate Erased(g: Grid, g': Grid) {
    |g'| == |g| && (forall r :: 0 <= r < |g| ==> |g'[r]| == |g[r]|)
    && forall r, c :: 0 <= r < |g| && 0 <= c < |g[r]| ==> g'[r][c] == g[r][c] || g'[r][c].None?
  }

  /** Emptying cells never brings a new unit onto the grid. */
  lemma ErasedUnits(g: Grid, g': Grid)
    requires Erased(g, g')
    ensures Units(g') <= Units(g)
  {
    forall u | u in Units(g') ensures u in Units(g) {
      var r, c :| 0 <= r < |g'| && 0 <= c < |g'[r]| && HoldsUnit(g'[r][c]) && g'[r][c].value.unit == u;
      assert g[r][c] == g'[r][c];
    }
  }

  /** g' is g with some unit cells emptied: markers and empty cells stay as they are. */
  predicate OnlyUnitsRemoved(g: Grid, g': Grid) {
    Erased(g, g')
    && forall r, c :: 0 <= r < |g| && 0 <= c < |g[r]| && !HoldsUnit(g[r][c]) ==> g'[r][c] == g[r][c]
  }

  /** Every unit cell of g that g' has emptied holds a unit whose hp is now at most 0. */
  predicate Killed(g: Grid, g': Grid)
    reads Units(g)`hp
  {
    |g'| == |g| && (forall r :: 0 <= r < |g| ==> |g'[r]| == |g[r]|)
    && forall r, c :: 0 <= r < |g| && 0 <= c < |g[r]| && HoldsUnit(g[r][c]) && g'[r][c].None? ==>
         g[r][c].value.unit.hp.GetOr(0) <= 0
  }

  /** Killed, with each unit's hp read from the table hp instead of the heap. */
  predicate KilledIn(g: Grid, g': Grid, hp: map<Unit, int>) {
    |g'| == |g| && (forall r :: 0 <= r < |g| ==> |g'[r]| == |g[r]|)
    && forall r, c :: 0 <= r < |g| && 0 <= c < |g[r]| && HoldsUnit(g[r][c]) && g'[r][c].None? ==>
         g[r][c].value.unit in hp && hp[g[r][c].value.unit] <= 0
  }

  /** Killed, recorded in a table of the current hp. */
  lemma KilledSnapshot(g: Grid, g': Grid)
    requires Killed(g, g')
    ensures KilledIn(g, g', HpOf(Units(g)))
  {
    forall r, c | 0 <= r < |g| && 0 <= c < |g[r]| && HoldsUnit(g[r][c]) && g'[r][c].None?
      ensures g[r][c].value.unit in HpOf(Units(g))
    {
      UnitInUnits(g, r, c);
    }
  }

  /**
   * Killed composes: cells emptied from g0 to g1 held units at hp <= 0 (as the table hp1 records,
   * and no hp has risen since), and those emptied from g1 to g2 hold units at hp <= 0 now.
   */
  lemma KilledTrans(g0: Grid, g1: Grid, g2: Grid, hp1: map<Unit, int>)
    requires Erased(g0, g1) && Erased(g1, g2)
    requires KilledIn(g0, g1, hp1) && HpBelow(Units(g0), hp1) && Killed(g1, g2)
    ensures Killed(g0, g2)
  {
    forall r, c | 0 <= r < |g0| && 0 <= c < |g0[r]| && HoldsUnit(g0[r][c]) && g2[r][c].None?
      ensures g0[r][c].value.unit.hp.GetOr(0) <= 0
    {
      UnitInUnits(g0, r, c);
    }
  }

  lemma OnlyUnitsRemovedTrans(g0: Grid, g1: Grid, g2: Grid)
    requires OnlyUnitsRemoved(g0, g1) && OnlyUnitsRemoved(g1, g2)
    ensures OnlyUnitsRemoved(g0, g2)
  {
    forall r, c | 0 <= r < |g0| && 0 <= c < |g0[r]|
      ensures g2[r][c] == g0[r][c] || g2[r][c].None?
      ensures !HoldsUnit(g0[r][c]) ==> g2[r][c] == g0[r][c]
    {
      assert g1[r][c] == g0[r][c] || g1[r][c].None?;
    }
  }

  /**
   * Writes `v` into the cells of `cells` that lie inside a height x width grid, in order
   * (the source's `for (r, c) in t["cells"]: if self.in_bounds(r, c): ...`).
   */
  function WriteCells(g: Grid, height: nat, width: nat, cells: seq<(int, int)>, v: Cell): (g': Grid)
    requires Shaped(g, height, width)
    ensures Shaped(g', height, width)
    decreases |cells|
  {
    if |cells| == 0 then g
    else
      var g0 := WriteCells(g, height, width, cells[..|cells| - 1], v);
      var (r, c) := cells[|cells| - 1];
      if 0 <= r < height && 0 <= c < width then Write(g0, r, c, v) else g0
  }

  /** Cell by cell: the cells listed (and in bounds) hold `v`, every other cell is unchanged. */
  lemma {:induction false} WriteCellsAt(g: Grid, height: nat, width: nat, cells: seq<(int, int)>, v: Cell, r: int, c: int)
    requires Shaped(g, height, width) && 0 <= r < height && 0 <= c < width
    ensures WriteCells(g, height, width, cells, v)[r][c] == if (r, c) in cells then v else g[r][c]
    decreases |cells|
  {
    if |cells| > 0 {
      var init := cells[..|cells| - 1];
      WriteCellsAt(g, height, width, init, v, r, c);
      assert cells == init + [cells[|cells| - 1]];
      assert (r, c) in cells <==> (r, c) in init || cells[|cells| - 1] == (r, c);
    }
  }
}
