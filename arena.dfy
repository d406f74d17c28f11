/**
 * The battlefield (game/arena.py): the cell grid, which holds unit tiles and tower MARKERS only,
 * the two river columns, and the tower table, the single source of truth for tower hit points
 * and the king's `active` flag.
 */
module Arenas {
  import opened Wrappers
  import opened Tiles

  /** One tower record: {"hp", "cells", "emoji", "active"}. */
  datatype Tower = Tower(hp: int, cells: seq<(int, int)>, emoji: string, active: bool)

  type TowerSet = map<Slot, Tower>

  /** owner id -> slot -> tower record. */
  type TowerTable = map<int, TowerSet>

  const FlankHp := 1500
  const KingHp := 3000
  const CastleEmoji := "\U{1F3F0}"
  const CrownEmoji := "\U{1F451}"

  /** The first player's towers: C4, J4 and the king on F2+G2. */
  const P1Layout: TowerSet := map[
    Left := Tower(FlankHp, [(2, 3)], CastleEmoji, true),
    Right := Tower(FlankHp, [(9, 3)], CastleEmoji, true),
    King := Tower(KingHp, [(5, 1), (6, 1)], CrownEmoji, false)]

  /** The second player's towers: C13, J13 and the king on F15+G15. */
  const P2Layout: TowerSet := map[
    Left := Tower(FlankHp, [(2, 12)], CastleEmoji, true),
    Right := Tower(FlankHp, [(9, 12)], CastleEmoji, true),
    King := Tower(KingHp, [(5, 14), (6, 14)], CrownEmoji, false)]

  predicate Complete(ts: TowerSet) { Left in ts && Right in ts && King in ts && forall s: Slot :: s in ts }

  /** Every slot is one of the three listed in `Slots`. */
  lemma SlotListed(s: Slot)
    ensures s in Slots
  {
    match s
    case Left => assert Slots[0] == s;
    case Right => assert Slots[1] == s;
    case King => assert Slots[2] == s;
  }

  lemma LayoutsComplete()
    ensures Complete(P1Layout) && Complete(P2Layout)
  {
    forall s: Slot ensures s in P1Layout && s in P2Layout {
      match s
      case Left =>
      case Right =>
      case King =>
    }
  }

  /** `order` lists the table's owners in insertion order, and every owner has all three slots. */
  predicate TableComplete(table: TowerTable, order: seq<int>) {
    (forall o :: o in order ==> o in table)
    && (forall i :: 0 <= i < |order| ==> order[i] in table)
    && (forall o :: o in table ==> o in order && Complete(table[o]))
  }

  /** The cell marker the source writes for tower `slot` of `owner`. */
  function Marker(owner: int, slot: Slot, t: Tower): Cell {
    Some(TowerCell(owner, slot, t.emoji))
  }

  // ---------------------------------------------------------------------------
  // The tower-marker projection
  // ---------------------------------------------------------------------------

  /** `clear_towers_from_grid` as a value: every tower marker becomes an empty cell. */
  function ClearTowers(g: Grid): (g': Grid)
    ensures |g'| == |g| && forall r :: 0 <= r < |g| ==> |g'[r]| == |g[r]|
    ensures forall r, c :: 0 <= r < |g| && 0 <= c < |g[r]| ==>
      g'[r][c] == if HoldsTower(g[r][c]) then None else g[r][c]
  {
    seq(|g|, r requires 0 <= r < |g| =>
      seq(|g[r]|, c requires 0 <= c < |g[r]| => if HoldsTower(g[r][c]) then None else g[r][c]))
  }

  /** Markers of one tower, written only while it is alive. */
  function WriteTower(g: Grid, height: nat, width: nat, owner: int, slot: Slot, t: Tower): (g': Grid)
    requires Shaped(g, height, width)
    ensures Shaped(g', height, width)
  {
    if t.hp <= 0 then g else WriteCells(g, height, width, t.cells, Marker(owner, slot, t))
  }

  /** Markers of the given slots of one owner, in order. */
  function WriteSlots(g: Grid, height: nat, width: nat, owner: int, ts: TowerSet, slots: seq<Slot>): (g': Grid)
    requires Shaped(g, height, width) && Complete(ts)
    ensures Shaped(g', height, width)
    decreases |slots|
  {
    if |slots| == 0 then g
    else
      var s := slots[|slots| - 1];
      WriteTower(WriteSlots(g, height, width, owner, ts, slots[..|slots| - 1]), height, width, owner, s, ts[s])
  }

  /** Markers of every tower of the given owners, in order. */
  function WriteOwners(g: Grid, height: nat, width: nat, table: TowerTable, owners: seq<int>): (g': Grid)
    requires Shaped(g, height, width)
    requires forall o :: o in owners ==> o in table && Complete(table[o])
    ensures Shaped(g', height, width)
    decreases |owners|
  {
    if |owners| == 0 then g
    else
      var o := owners[|owners| - 1];
      WriteSlots(WriteOwners(g, height, width, table, owners[..|owners| - 1]), height, width, o, table[o], Slots)
  }

  /** The grid after `place_towers_on_grid`. */
  function Synced(g: Grid, height: nat, width: nat, table: TowerTable, order: seq<int>): (g': Grid)
    requires Shaped(g, height, width) && TableComplete(table, order)
    ensures Shaped(g', height, width)
  {
    if table == map[] then g else WriteOwners(ClearTowers(g), height, width, table, order)
  }

  /** The marker that the last write of the sync leaves at (r, c) for these slots, if any. */
  function SlotsMarker(owner: int, ts: TowerSet, slots: seq<Slot>, r: int, c: int): Cell
    requires Complete(ts)
    decreases |slots|
  {
    if |slots| == 0 then None
    else
      var s := slots[|slots| - 1];
      if ts[s].hp > 0 && (r, c) in ts[s].cells then Marker(owner, s, ts[s])
      else SlotsMarker(owner, ts, slots[..|slots| - 1], r, c)
  }

  /** The marker that the last write of the sync leaves at (r, c), if any. */
  function OwnersMarker(table: TowerTable, owners: seq<int>, r: int, c: int): Cell
    requires forall o :: o in owners ==> o in table && Complete(table[o])
    decreases |owners|
  {
    if |owners| == 0 then None
    else
      var o := owners[|owners| - 1];
      var m := SlotsMarker(o, table[o], Slots, r, c);
      if m.Some? then m else OwnersMarker(table, owners[..|owners| - 1], r, c)
  }

  /** Some tower with hp > 0 lists (r, c) among its cells. */
  predicate LivingTowerCell(table: TowerTable, r: int, c: int) {
    exists o, s | o in table && s in table[o] :: table[o][s].hp > 0 && (r, c) in table[o][s].cells
  }

  lemma {:induction false} SlotsMarkerSound(owner: int, ts: TowerSet, slots: seq<Slot>, r: int, c: int)
    requires Complete(ts)
    ensures var m := SlotsMarker(owner, ts, slots, r, c);
      m.Some? ==>
        (m.value.TowerCell? && m.value.owner == owner && m.value.name in slots
         && ts[m.value.name].hp > 0 && (r, c) in ts[m.value.name].cells)
    ensures SlotsMarker(owner, ts, slots, r, c).None? ==>
      forall s :: s in slots ==> !(ts[s].hp > 0 && (r, c) in ts[s].cells)
    decreases |slots|
  {
    if |slots| > 0 {
      SlotsMarkerSound(owner, ts, slots[..|slots| - 1], r, c);
      assert slots == slots[..|slots| - 1] + [slots[|slots| - 1]];
    }
  }

  lemma {:induction false} OwnersMarkerSound(table: TowerTable, owners: seq<int>, r: int, c: int)
    requires forall o :: o in owners ==> o in table && Complete(table[o])
    ensures OwnersMarker(table, owners, r, c).Some? <==>
      exists o, s | o in owners && s in Slots :: table[o][s].hp > 0 && (r, c) in table[o][s].cells
    ensures var m := OwnersMarker(table, owners, r, c);
      m.Some? ==> m.value.TowerCell? && m.value.owner in owners
    decreases |owners|
  {
    if |owners| > 0 {
      var o := owners[|owners| - 1];
      var init := owners[..|owners| - 1];
      OwnersMarkerSound(table, init, r, c);
      SlotsMarkerSound(o, table[o], Slots, r, c);
      assert owners == init + [o];
      var m := SlotsMarker(o, table[o], Slots, r, c);
      if m.Some? {
        var s := m.value.name;
        assert table[o][s].hp > 0 && (r, c) in table[o][s].cells;
      } else if OwnersMarker(table, owners, r, c).None? {
        forall o', s | o' in owners && s in Slots
          ensures !(table[o'][s].hp > 0 && (r, c) in table[o'][s].cells)
        {
          if o' != o { assert o' in init; }
        }
      }
    }
  }

  lemma {:induction false} WriteSlotsAt(g: Grid, height: nat, width: nat, owner: int, ts: TowerSet, slots: seq<Slot>, r: int, c: int)
    requires Shaped(g, height, width) && Complete(ts) && 0 <= r < height && 0 <= c < width
    ensures WriteSlots(g, height, width, owner, ts, slots)[r][c] ==
      var m := SlotsMarker(owner, ts, slots, r, c); if m.Some? then m else g[r][c]
    decreases |slots|
  {
    if |slots| > 0 {
      var s := slots[|slots| - 1];
      var g0 := WriteSlots(g, height, width, owner, ts, slots[..|slots| - 1]);
      WriteSlotsAt(g, height, width, owner, ts, slots[..|slots| - 1], r, c);
      if ts[s].hp > 0 {
        WriteCellsAt(g0, height, width, ts[s].cells, Marker(owner, s, ts[s]), r, c);
      }
    }
  }

  lemma {:induction false} WriteOwnersAt(g: Grid, height: nat, width: nat, table: TowerTable, owners: seq<int>, r: int, c: int)
    requires Shaped(g, height, width) && 0 <= r < height && 0 <= c < width
    requires forall o :: o in owners ==> o in table && Complete(table[o])
    ensures WriteOwners(g, height, width, table, owners)[r][c] ==
      var m := OwnersMarker(table, owners, r, c); if m.Some? then m else g[r][c]
    decreases |owners|
  {
    if |owners| > 0 {
      var o := owners[|owners| - 1];
      var init := owners[..|owners| - 1];
      WriteOwnersAt(g, height, width, table, init, r, c);
      WriteSlotsAt(WriteOwners(g, height, width, table, init), height, width, o, table[o], Slots, r, c);
    }
  }

  /** Cell by cell: the sync leaves the last living tower's marker, or the cell with markers removed. */
  lemma SyncedAt(g: Grid, height: nat, width: nat, table: TowerTable, order: seq<int>, r: int, c: int)
    requires Shaped(g, height, width) && TableComplete(table, order) && table != map[]
    requires 0 <= r < height && 0 <= c < width
    ensures Synced(g, height, width, table, order)[r][c] ==
      var m := OwnersMarker(table, order, r, c);
      if m.Some? then m else if HoldsTower(g[r][c]) then None else g[r][c]
  {
    WriteOwnersAt(ClearTowers(g), height, width, table, order, r, c);
  }

  /**
   * After a sync, a cell holds a tower marker iff it is a cell of a tower with hp > 0; every other
   * cell keeps its unit or stays empty.
   */
  lemma SyncedMarkers(g: Grid, height: nat, width: nat, table: TowerTable, order: seq<int>, r: int, c: int)
    requires Shaped(g, height, width) && TableComplete(table, order) && table != map[]
    requires 0 <= r < height && 0 <= c < width
    ensures HoldsTower(Synced(g, height, width, table, order)[r][c]) <==> LivingTowerCell(table, r, c)
    ensures !LivingTowerCell(table, r, c) ==>
      Synced(g, height, width, table, order)[r][c] == if HoldsTower(g[r][c]) then None else g[r][c]
  {
    SyncedAt(g, height, width, table, order, r, c);
    OwnersMarkerSound(table, order, r, c);
    if LivingTowerCell(table, r, c) {
      var o, s :| o in table && s in table[o] && table[o][s].hp > 0 && (r, c) in table[o][s].cells;
      assert o in order;
      SlotListed(s);
    }
  }

  /** Syncing twice is the same as syncing once. */
  lemma SyncedIdempotent(g: Grid, height: nat, width: nat, table: TowerTable, order: seq<int>)
    requires Shaped(g, height, width) && TableComplete(table, order)
    ensures Synced(Synced(g, height, width, table, order), height, width, table, order)
         == Synced(g, height, width, table, order)
  {
    if table != map[] {
      var g1 := Synced(g, height, width, table, order);
      var g2 := Synced(g1, height, width, table, order);
      forall r | 0 <= r < height ensures g2[r] == g1[r] {
        forall c | 0 <= c < width ensures g2[r][c] == g1[r][c] {
          SyncedAt(g, height, width, table, order, r, c);
          SyncedAt(g1, height, width, table, order, r, c);
        }
      }
    }
  }

  // ---------------------------------------------------------------------------
  // Tower damage
  // ---------------------------------------------------------------------------

  /**
   * The tower table after `damage_tower(owner, slot, dmg)`. Nothing happens to a dead tower.
   * A hit on a king activates it; hp is floored at 0; a flank tower reaching 0 activates its
   * owner's king.
   */
  function DamagedTable(table: TowerTable, owner: int, slot: Slot, dmg: int): (r: TowerTable)
    requires owner in table ==> Complete(table[owner])
    ensures r.Keys == table.Keys
    ensures forall o :: o in r ==> r[o].Keys == table[o].Keys
    ensures forall o, s :: o in table && s in table[o] ==>
      r[o][s].cells == table[o][s].cells && r[o][s].emoji == table[o][s].emoji
    // a dead tower stays as it is
    ensures owner in table && table[owner][slot].hp <= 0 ==> r == table
    // only the hit tower's hp changes: it never rises (dmg >= 0) and is floored at 0
    ensures forall o, s :: o in table && s in table[o] && (o, s) != (owner, slot) ==> r[o][s].hp == table[o][s].hp
    ensures owner in table && table[owner][slot].hp > 0 ==>
      r[owner][slot].hp == (if table[owner][slot].hp - dmg <= 0 then 0 else table[owner][slot].hp - dmg)
    ensures owner in table && dmg >= 0 ==> r[owner][slot].hp <= table[owner][slot].hp
    ensures owner in table && table[owner][slot].hp >= 0 ==> r[owner][slot].hp >= 0
    // `active` is never reset
    ensures forall o, s :: o in table && s in table[o] && table[o][s].active ==> r[o][s].active
    // any hit on a living king activates it
    ensures owner in table && slot == King && table[owner][King].hp > 0 ==> r[owner][King].active
    // a flank tower reaching 0 activates its owner's king
    ensures owner in table && slot != King && table[owner][slot].hp > 0 && r[owner][slot].hp == 0 ==>
      r[owner][King].active
    // nothing else becomes active
    ensures forall o, s :: o in table && s in table[o] && !table[o][s].active && r[o][s].active ==>
      o == owner && s == King
  {
    if owner !in table then table
    else
      var t := table[owner][slot];
      if t.hp <= 0 then table
      else
        var hp := if t.hp - dmg <= 0 then 0 else t.hp - dmg;
        var ts := table[owner][slot := t.(hp := hp, active := if slot == King then true else t.active)];
        var ts' := if hp == 0 && slot != King then ts[King := ts[King].(active := true)] else ts;
        table[owner := ts']
  }

  /**
   * How the tower table may evolve over a match: same owners, slots, cells and emoji; `active`
   * is never reset; a tower at hp <= 0 keeps its hp.
   */
  predicate Progress(t0: TowerTable, t1: TowerTable) {
    t1.Keys == t0.Keys
    && (forall o :: o in t0 ==> t1[o].Keys == t0[o].Keys)
    && (forall o, s :: o in t0 && s in t0[o] ==>
         t1[o][s].cells == t0[o][s].cells && t1[o][s].emoji == t0[o][s].emoji
         && (t0[o][s].active ==> t1[o][s].active)
         && (t0[o][s].hp <= 0 ==> t1[o][s].hp == t0[o][s].hp))
  }

  lemma ProgressTrans(t0: TowerTable, t1: TowerTable, t2: TowerTable)
    requires Progress(t0, t1) && Progress(t1, t2)
    ensures Progress(t0, t2)
  {
  }

  lemma DamagedTableProgress(table: TowerTable, owner: int, slot: Slot, dmg: int)
    requires owner in table ==> Complete(table[owner])
    ensures Progress(table, DamagedTable(table, owner, slot, dmg))
  {
  }

  /** Every tower marker of g names an owner that the table knows. */
  predicate MarkersKnown(g: Grid, table: TowerTable) {
    forall r, c :: 0 <= r < |g| && 0 <= c < |g[r]| && HoldsTower(g[r][c]) ==> g[r][c].value.owner in table
  }

  /** Emptying cells keeps every remaining marker's owner in the table. */
  lemma ErasedKnown(g: Grid, g': Grid, table: TowerTable)
    requires Erased(g, g') && MarkersKnown(g, table)
    ensures MarkersKnown(g', table)
  {
    forall r, c | 0 <= r < |g'| && 0 <= c < |g'[r]| && HoldsTower(g'[r][c])
      ensures g'[r][c].value.owner in table
    {
      assert g'[r][c] == g[r][c];
    }
  }

  /** Writing a unit tile into a cell creates no marker. */
  lemma WrittenUnitKnown(g: Grid, row: int, col: int, u: Unit, table: TowerTable)
    requires 0 <= row < |g| && 0 <= col < |g[row]| && MarkersKnown(g, table)
    ensures MarkersKnown(Write(g, row, col, Some(UnitCell(u))), table)
  {
  }

  /** A sync writes only markers of owners in the table, so it keeps `MarkersKnown`. */
  lemma SyncedKnown(g: Grid, height: nat, width: nat, table: TowerTable, order: seq<int>)
    requires Shaped(g, height, width) && TableComplete(table, order) && MarkersKnown(g, table)
    ensures MarkersKnown(Synced(g, height, width, table, order), table)
  {
    if table != map[] {
      var g' := Synced(g, height, width, table, order);
      forall r, c | 0 <= r < |g'| && 0 <= c < |g'[r]| && HoldsTower(g'[r][c])
        ensures g'[r][c].value.owner in table
      {
        SyncedAt(g, height, width, table, order, r, c);
        OwnersMarkerSound(table, order, r, c);
      }
    }
  }

  /** The grid after `damage_tower`: a tower that reaches 0 has its in-bounds cells emptied. */
  function DamagedGrid(g: Grid, height: nat, width: nat, table: TowerTable, owner: int, slot: Slot, dmg: int): (g': Grid)
    requires Shaped(g, height, width)
    requires owner in table ==> Complete(table[owner])
    ensures Shaped(g', height, width)
    ensures forall r, c :: 0 <= r < height && 0 <= c < width ==>
      g'[r][c] == if owner in table && table[owner][slot].hp > 0 && table[owner][slot].hp - dmg <= 0
                    && (r, c) in table[owner][slot].cells then None else g[r][c]
  {
    forall r, c | 0 <= r < height && 0 <= c < width
      ensures owner in table && table[owner][slot].hp > 0 && table[owner][slot].hp - dmg <= 0 ==>
        WriteCells(g, height, width, table[owner][slot].cells, None)[r][c]
          == if (r, c) in table[owner][slot].cells then None else g[r][c]
    {
      if owner in table { WriteCellsAt(g, height, width, table[owner][slot].cells, None, r, c); }
    }
    if owner in table && table[owner][slot].hp > 0 && table[owner][slot].hp - dmg <= 0
    then WriteCells(g, height, width, table[owner][slot].cells, None)
    else g
  }

  /** g' differs from g only on cells of towers that have hp > 0 in the table. */
  predicate Cleared(g: Grid, g': Grid, table: TowerTable) {
    |g'| == |g| && (forall r :: 0 <= r < |g| ==> |g'[r]| == |g[r]|)
    && forall r, c :: 0 <= r < |g| && 0 <= c < |g[r]| && g'[r][c] != g[r][c] ==> LivingTowerCell(table, r, c)
  }

  /** `damage_tower` empties only cells of the tower it kills, which was alive before the hit. */
  lemma DamagedGridCleared(g: Grid, height: nat, width: nat, table: TowerTable, owner: int, slot: Slot, dmg: int)
    requires Shaped(g, height, width)
    requires owner in table ==> Complete(table[owner])
    ensures Cleared(g, DamagedGrid(g, height, width, table, owner, slot, dmg), table)
  {
    var g' := DamagedGrid(g, height, width, table, owner, slot, dmg);
    forall r, c | 0 <= r < |g| && 0 <= c < |g[r]| && g'[r][c] != g[r][c]
      ensures LivingTowerCell(table, r, c)
    {
      assert owner in table && slot in table[owner];
    }
  }

  /** Every in-bounds cell of a tower with hp > 0 holds a marker, so no unit stands on one. */
  predicate TowerCellsMarked(g: Grid, table: TowerTable) {
    forall r, c :: 0 <= r < |g| && 0 <= c < |g[r]| && LivingTowerCell(table, r, c) ==> HoldsTower(g[r][c])
  }

  /** The owner at or after index i of `order` whose king is dead, first one first. */
  function FirstDeadKing(table: TowerTable, order: seq<int>, i: nat): (r: Option<nat>)
    requires forall j :: 0 <= j < |order| ==> var o := order[j]; o in table && King in table[o]
    requires i <= |order|
    ensures r.Some? ==> i <= r.value < |order| && table[order[r.value]][King].hp <= 0
    ensures r.Some? ==> forall j :: i <= j < r.value ==> table[order[j]][King].hp > 0
    ensures r.None? ==> forall j :: i <= j < |order| ==> table[order[j]][King].hp > 0
    decreases |order| - i
  {
    if i == |order| then None
    else if table[order[i]][King].hp <= 0 then Some(i)
    else FirstDeadKing(table, order, i + 1)
  }

  class Arena {
    const width: nat
    const height: nat
    const p1Id: Option<int>
    const p2Id: Option<int>
    /** The river: the two middle columns. */
    const riverCols: seq<int> := [width / 2 - 1, width / 2]
    var grid: Grid
    var towers: TowerTable
    /** The tower table's keys in insertion order. */
    var towerOrder: seq<int>

    ghost predicate Valid()
      reads this
    {
      Shaped(grid, height, width) && TableComplete(towers, towerOrder)
    }

    /**
     * Arena(width, height, p1_id, p2_id): an empty grid; with both ids, the two tower sets and
     * their markers.
     */
    constructor (width: nat, height: nat, p1Id: Option<int>, p2Id: Option<int>)
      ensures Valid()
      ensures this.width == width && this.height == height && this.p1Id == p1Id && this.p2Id == p2Id
      ensures p1Id.None? || p2Id.None? ==> towers == map[] && towerOrder == [] && grid == EmptyGrid(height, width)
      ensures p1Id.Some? && p2Id.Some? ==>
        towers == map[p1Id.value := P1Layout][p2Id.value := P2Layout]
        && towerOrder == (if p1Id == p2Id then [p1Id.value] else [p1Id.value, p2Id.value])
        && grid == Synced(EmptyGrid(height, width), height, width, towers, towerOrder)
    {
      this.width := width;
      this.height := height;
      this.p1Id := p1Id;
      this.p2Id := p2Id;
      grid := EmptyGrid(height, width);
      towers := map[];
      towerOrder := [];
      new;
      if p1Id.Some? && p2Id.Some? {
        InitTowers(p1Id.value, p2Id.value);
        PlaceTowersOnGrid();
      }
    }

    /** `_init_towers`: a dict literal, so when both ids are equal the second layout wins. */
    method InitTowers(p1: int, p2: int)
      requires Shaped(grid, height, width)
      modifies this`towers, this`towerOrder
      ensures Valid()
      ensures towers == map[p1 := P1Layout][p2 := P2Layout]
      ensures towerOrder == if p1 == p2 then [p1] else [p1, p2]
    {
      LayoutsComplete();
      towers := map[p1 := P1Layout][p2 := P2Layout];
      towerOrder := if p1 == p2 then [p1] else [p1, p2];
    }

    /** `in_bounds`. */
    predicate InBounds(row: int, col: int) {
      0 <= row < height && 0 <= col < width
    }

    /** The in-bounds positions are exactly the indices of the grid's rows and cells. */
    lemma InBoundsCells(row: int, col: int)
      requires Valid()
      ensures InBounds(row, col) <==> 0 <= row < |grid| && 0 <= col < |grid[row]|
    {
    }

    /** `get`: None outside the grid. */
    function Get(row: int, col: int): (t: Cell)
      reads this
      requires Valid()
      ensures !InBounds(row, col) ==> t.None?
      ensures InBounds(row, col) ==> t == grid[row][col]
    {
      if InBounds(row, col) then grid[row][col] else None
    }

    /** `set`: `ok` is false where the source raises ValueError, and then nothing changes. */
    method Set(row: int, col: int, value: Cell) returns (ok: bool)
      requires Valid()
      modifies this`grid
      ensures Valid()
      ensures ok == InBounds(row, col)
      ensures grid == if ok then Write(old(grid), row, col, value) else old(grid)
    {
      if !InBounds(row, col) {
        return false;
      }
      grid := Write(grid, row, col, value);
      return true;
    }

    /** `is_empty`: an in-bounds cell holding nothing; off the grid nothing is empty. */
    predicate IsEmpty(row: int, col: int)
      reads this
      requires Valid()
      ensures IsEmpty(row, col) <==> InBounds(row, col) && Get(row, col).None?
    {
      InBounds(row, col) && grid[row][col].None?
    }

    /** `place`: writes only into an in-bounds empty cell. */
    method Place(row: int, col: int, obj: Tile) returns (ok: bool)
      requires Valid()
      modifies this`grid
      ensures Valid()
      ensures ok == old(IsEmpty(row, col))
      ensures grid == if ok then Write(old(grid), row, col, Some(obj)) else old(grid)
    {
      if !IsEmpty(row, col) {
        return false;
      }
      grid := Write(grid, row, col, Some(obj));
      return true;
    }

    /** `is_river_column`: one of the two middle columns. */
    predicate IsRiverColumn(col: int)
      ensures IsRiverColumn(col) <==> col == width / 2 - 1 || col == width / 2
    {
      col in riverCols
    }

    /** `is_tower_cell`: the cell holds a tower marker. */
    predicate IsTowerCell(row: int, col: int)
      reads this
      requires Valid()
    {
      HoldsTower(Get(row, col))
    }

    /** A tower cell is an in-bounds cell holding a marker, so it is never empty. */
    lemma TowerCellMarked(row: int, col: int)
      requires Valid()
      ensures IsTowerCell(row, col) <==>
        InBounds(row, col) && grid[row][col].Some? && grid[row][col].value.TowerCell?
      ensures IsTowerCell(row, col) ==> !IsEmpty(row, col)
    {
    }

    /** `tower_at`: the marker's (owner, name), or None. */
    function TowerAt(row: int, col: int): (r: Option<(int, Slot)>)
      reads this
      requires Valid()
      ensures r.Some? <==> IsTowerCell(row, col)
      ensures r.Some? ==> grid[row][col].value.owner == r.value.0 && grid[row][col].value.name == r.value.1
    {
      var t := Get(row, col);
      if HoldsTower(t) then Some((t.value.owner, t.value.name)) else None
    }

    /** `clear_towers_from_grid` */
    method ClearTowersFromGrid()
      requires Valid()
      modifies this`grid
      ensures Valid()
      ensures grid == ClearTowers(old(grid))
    {
      ghost var g0 := grid;
      for r := 0 to height
        invariant Shaped(grid, height, width)
        invariant forall i, j :: 0 <= i < height && 0 <= j < width ==>
          grid[i][j] == if i < r && HoldsTower(g0[i][j]) then None else g0[i][j]
      {
        for c := 0 to width
          invariant Shaped(grid, height, width)
          invariant forall i, j :: 0 <= i < height && 0 <= j < width ==>
            grid[i][j] == if (i < r || (i == r && j < c)) && HoldsTower(g0[i][j]) then None else g0[i][j]
        {
          if HoldsTower(grid[r][c]) {
            grid := Write(grid, r, c, None);
          }
        }
      }
      assert forall i | 0 <= i < height :: grid[i] == ClearTowers(g0)[i];
    }

    /** `place_towers_on_grid`: regenerates the markers from the tower table. */
    method PlaceTowersOnGrid()
      requires Valid()
      modifies this`grid
      ensures Valid()
      ensures grid == Synced(old(grid), height, width, towers, towerOrder)
    {
      if towers == map[] {
        return;
      }
      ClearTowersFromGrid();
      ghost var cleared := grid;
      for i := 0 to |towerOrder|
        invariant Shaped(grid, height, width)
        invariant grid == WriteOwners(cleared, height, width, towers, towerOrder[..i])
      {
        PlaceOwnerMarkers(towerOrder[i]);
        assert towerOrder[..i + 1][..i] == towerOrder[..i];
      }
      assert towerOrder[..|towerOrder|] == towerOrder;
    }

    /** The markers of one owner's living towers, slot by slot. */
    method PlaceOwnerMarkers(o: int)
      requires Shaped(grid, height, width) && o in towers && Complete(towers[o])
      modifies this`grid
      ensures Shaped(grid, height, width)
      ensures grid == WriteSlots(old(grid), height, width, o, towers[o], Slots)
    {
      for k := 0 to |Slots|
        invariant Shaped(grid, height, width)
        invariant grid == WriteSlots(old(grid), height, width, o, towers[o], Slots[..k])
      {
        var s := Slots[k];
        var t := towers[o][s];
        assert Slots[..k + 1][..k] == Slots[..k];
        if t.hp > 0 {
          Fill(t.cells, Marker(o, s, t));
        }
      }
      assert Slots[..|Slots|] == Slots;
    }

    /** Writes `v` into every in-bounds cell of `cells`, in order. */
    method Fill(cells: seq<(int, int)>, v: Cell)
      requires Shaped(grid, height, width)
      modifies this`grid
      ensures Shaped(grid, height, width)
      ensures grid == WriteCells(old(grid), height, width, cells, v)
    {
      for k := 0 to |cells|
        invariant Shaped(grid, height, width)
        invariant grid == WriteCells(old(grid), height, width, cells[..k], v)
      {
        assert cells[..k + 1][..k] == cells[..k];
        var (r, c) := cells[k];
        if InBounds(r, c) {
          grid := Write(grid, r, c, v);
        }
      }
      assert cells[..|cells|] == cells;
    }

    /** `damage_tower`: `ok` is false where the source raises KeyError (unknown owner). */
    method DamageTower(owner: int, slot: Slot, dmg: int) returns (ok: bool)
      requires Valid()
      modifies this`towers, this`grid
      ensures Valid()
      ensures ok == (owner in old(towers))
      ensures towers == DamagedTable(old(towers), owner, slot, dmg)
      ensures grid == DamagedGrid(old(grid), height, width, old(towers), owner, slot, dmg)
    {
      if owner !in towers {
        return false;
      }
      ok := true;
      var t := towers[owner][slot];
      if t.hp <= 0 {
        return;
      }
      if slot == King {
        t := t.(active := true);
      }
      t := t.(hp := t.hp - dmg);
      if t.hp <= 0 {
        t := t.(hp := 0);
        Fill(t.cells, None);
      }
      var ts := towers[owner][slot := t];
      if t.hp == 0 && slot != King {
        ts := ts[King := ts[King].(active := true)];
      }
      towers := towers[owner := ts];
    }

    /** `any_king_dead`: the first owner, in table order, whose king has hp <= 0. */
    function AnyKingDead(): (r: Option<int>)
      reads this
      requires Valid()
      ensures r.None? <==> forall o :: o in towers ==> towers[o][King].hp > 0
      ensures r.Some? ==> var o := r.value; o in towers && towers[o][King].hp <= 0
      ensures r.Some? ==> exists i :: 0 <= i < |towerOrder| && towerOrder[i] == r.value &&
                                     forall j :: 0 <= j < i ==> var o := towerOrder[j]; towers[o][King].hp > 0
    {
      var k := FirstDeadKing(towers, towerOrder, 0);
      if k.Some? then Some(towerOrder[k.value]) else None
    }
  }
}
