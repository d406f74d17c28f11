/**
 * The movement stepper (game/movement.py). One tick builds a fresh next grid: tower markers are
 * copied first, then the old grid is scanned row by row and every owned unit advances one column
 * towards the enemy, attacks what blocks it, or holds.
 */
module Movement {
  import opened Wrappers
  import opened Tiles
  import opened Arenas
  import opened Rules
  import opened Combat

  /** What the scan does with one old-grid cell. */
  datatype Step =
    | Skip     // not a unit, or a unit without owner
    | Hold     // off the edge ahead, or a friend ahead
    | Advance  // the cell ahead is empty in both grids
    | Siege    // a tower marker ahead: attack it and hold
    | Fight    // another owner's (or an ownerless) unit ahead: attack it and hold

  /** The first player's units walk right (+1), everybody else's left (-1). */
  function Heading(owner: Option<int>, p1Id: Option<int>): int {
    if owner == p1Id then 1 else -1
  }

  /** `new_grid[nr][nc] or old_grid[nr][nc]` */
  function Front(g: Grid, ng: Grid, r: int, c: int): (t: Cell)
    requires 0 <= r < |g| && 0 <= c < |g[r]| && 0 <= r < |ng| && 0 <= c < |ng[r]|
    ensures t.None? <==> g[r][c].None? && ng[r][c].None?
    ensures t.Some? ==> t == ng[r][c] || (ng[r][c].None? && t == g[r][c])
  {
    if ng[r][c].Some? then ng[r][c] else g[r][c]
  }

  /** `_stay`: the unit takes its own cell of the next grid only if that cell is still free. */
  function Stay(ng: Grid, r: int, c: int, u: Unit): (ng': Grid)
    requires 0 <= r < |ng| && 0 <= c < |ng[r]|
    ensures |ng'| == |ng| && forall i :: 0 <= i < |ng| ==> |ng'[i]| == |ng[i]|
    ensures ng[r][c].Some? ==> ng' == ng
    ensures ng'[r][c] == if ng[r][c].None? then Some(UnitCell(u)) else ng[r][c]
    ensures forall i, j :: 0 <= i < |ng| && 0 <= j < |ng[i]| && (i, j) != (r, c) ==> ng'[i][j] == ng[i][j]
  {
    if ng[r][c].None? then Write(ng, r, c, Some(UnitCell(u))) else ng
  }

  /** The decision `step_movement` takes for cell (r, c) of the old grid g, given the next grid ng. */
  function Plan(g: Grid, ng: Grid, height: nat, width: nat, p1Id: Option<int>, r: int, c: int): (s: Step)
    requires Shaped(g, height, width) && Shaped(ng, height, width) && 0 <= r < height && 0 <= c < width
    reads Units(g)`owner, Units(ng)`owner
    ensures s == Skip <==> !HoldsUnit(g[r][c]) || g[r][c].value.unit.owner.None?
    ensures s != Skip ==>
      var u := g[r][c].value.unit;
      var nc := c + Heading(u.owner, p1Id);
      (s == Advance <==> 0 <= nc < width && g[r][nc].None? && ng[r][nc].None?)
      && (s == Siege <==> 0 <= nc < width && HoldsTower(Front(g, ng, r, nc)))
      && (s == Fight <==> 0 <= nc < width && HoldsUnit(Front(g, ng, r, nc))
                           && Front(g, ng, r, nc).value.unit.owner != u.owner)
      && (s == Hold <==> !(0 <= nc < width) || (HoldsUnit(Front(g, ng, r, nc))
                           && Front(g, ng, r, nc).value.unit.owner == u.owner))
  {
    if !HoldsUnit(g[r][c]) then Skip
    else
      var u := g[r][c].value.unit;
      assert u in Units(g);
      if u.owner.None? then Skip
      else
        var nc := c + Heading(u.owner, p1Id);
        if !(0 <= nc < width) then Hold
        else
          var front := Front(g, ng, r, nc);
          if front.None? then Advance
          else if front.value.TowerCell? then Siege
          else
            assert front.value.unit in Units(g) + Units(ng) by {
              if ng[r][nc].Some? { UnitInUnits(ng, r, nc); } else { UnitInUnits(g, r, nc); }
            }
            if front.value.unit.owner != u.owner then Fight else Hold
  }

  /** A unit at (r, c) of the next grid stood at (r, c) of g, or one column behind in its heading. */
  predicate CameFrom(g: Grid, p1Id: Option<int>, r: int, c: int, u: Unit)
    reads u`owner
  {
    0 <= r < |g|
    && ((0 <= c < |g[r]| && g[r][c] == Some(UnitCell(u)))
        || (u.owner.Some? && u.owner == p1Id && 0 <= c - 1 < |g[r]| && g[r][c - 1] == Some(UnitCell(u)))
        || (u.owner.Some? && u.owner != p1Id && 0 <= c + 1 < |g[r]| && g[r][c + 1] == Some(UnitCell(u))))
  }

  /** The next grid ng, built from g, has g's markers at their cells, and each unit came from g. */
  predicate Traced(g: Grid, ng: Grid, p1Id: Option<int>)
    reads Units(ng)`owner
  {
    |ng| == |g| && (forall r :: 0 <= r < |g| ==> |ng[r]| == |g[r]|)
    && (forall r, c :: 0 <= r < |g| && 0 <= c < |g[r]| && HoldsTower(ng[r][c]) ==> ng[r][c] == g[r][c])
    && (forall r, c :: 0 <= r < |g| && 0 <= c < |g[r]| && HoldsUnit(ng[r][c]) ==>
         ng[r][c].value.unit in Units(g) && CameFrom(g, p1Id, r, c, ng[r][c].value.unit))
  }

  /** ng' has exactly ng's tower markers. */
  predicate SameMarkers(ng: Grid, ng': Grid) {
    |ng'| == |ng| && (forall r :: 0 <= r < |ng| ==> |ng'[r]| == |ng[r]|)
    && forall r, c :: 0 <= r < |ng| && 0 <= c < |ng[r]| && (HoldsTower(ng[r][c]) || HoldsTower(ng'[r][c])) ==>
         ng'[r][c] == ng[r][c]
  }

  /** Step 1 of `step_movement`: the next grid starts with only the old grid's tower markers. */
  function TowersOnly(g: Grid): (ng: Grid)
    ensures |ng| == |g| && forall r :: 0 <= r < |g| ==> |ng[r]| == |g[r]|
    ensures forall r, c :: 0 <= r < |g| && 0 <= c < |g[r]| ==>
      ng[r][c] == if HoldsTower(g[r][c]) then g[r][c] else None
  {
    seq(|g|, r requires 0 <= r < |g| =>
      seq(|g[r]|, c requires 0 <= c < |g[r]| => if HoldsTower(g[r][c]) then g[r][c] else None))
  }

  /**
   * ng' extends the next grid ng during the scan of g: the same markers, and every unit written
   * since ng stands where CameFrom allows.
   */
  predicate Grows(g: Grid, ng: Grid, ng': Grid, p1Id: Option<int>)
    reads Units(ng')`owner
  {
    |ng| == |g| && (forall r :: 0 <= r < |g| ==> |ng[r]| == |g[r]|) && SameMarkers(ng, ng')
    && forall i, j :: 0 <= i < |ng| && 0 <= j < |ng[i]| && HoldsUnit(ng'[i][j]) && ng'[i][j] != ng[i][j] ==>
         ng'[i][j].value.unit in Units(g) && CameFrom(g, p1Id, i, j, ng'[i][j].value.unit)
  }

  lemma StayGrows(g: Grid, ng: Grid, p1Id: Option<int>, r: int, c: int)
    requires |ng| == |g| && (forall i :: 0 <= i < |g| ==> |ng[i]| == |g[i]|)
    requires 0 <= r < |g| && 0 <= c < |g[r]| && HoldsUnit(g[r][c])
    ensures Grows(g, ng, Stay(ng, r, c, g[r][c].value.unit), p1Id)
  {
    UnitInUnits(g, r, c);
  }

  lemma AdvanceGrows(g: Grid, ng: Grid, p1Id: Option<int>, r: int, c: int, nc: int)
    requires |ng| == |g| && (forall i :: 0 <= i < |g| ==> |ng[i]| == |g[i]|)
    requires 0 <= r < |g| && 0 <= c < |g[r]| && HoldsUnit(g[r][c]) && g[r][c].value.unit.owner.Some?
    requires nc == c + Heading(g[r][c].value.unit.owner, p1Id) && 0 <= nc < |g[r]| && ng[r][nc].None?
    ensures Grows(g, ng, Write(ng, r, nc, g[r][c]), p1Id)
  {
    UnitInUnits(g, r, c);
  }

  /** A stay fills at most the unit's own cell, with the unit, and leaves it there or keeps what was there. */
  lemma StayKept(g: Grid, ng: Grid, p1Id: Option<int>, r: int, c: int)
    requires |ng| == |g| && (forall i :: 0 <= i < |g| ==> |ng[i]| == |g[i]|)
    requires 0 <= r < |g| && 0 <= c < |g[r]| && HoldsUnit(g[r][c])
    ensures var ng' := Stay(ng, r, c, g[r][c].value.unit);
      Kept(ng, ng') && Fills(g, ng, ng') && Arrival(g, ng, ng', p1Id, r, c)
  {
  }

  /** An advance fills the cell ahead, empty in both grids, with the unit. */
  lemma AdvanceKept(g: Grid, ng: Grid, p1Id: Option<int>, r: int, c: int, nc: int)
    requires |ng| == |g| && (forall i :: 0 <= i < |g| ==> |ng[i]| == |g[i]|)
    requires 0 <= r < |g| && 0 <= c < |g[r]| && HoldsUnit(g[r][c])
    requires nc == c + Heading(g[r][c].value.unit.owner, p1Id) && 0 <= nc < |g[r]|
    requires g[r][nc].None? && ng[r][nc].None?
    ensures var ng' := Write(ng, r, nc, g[r][c]);
      Kept(ng, ng') && Fills(g, ng, ng') && Arrival(g, ng, ng', p1Id, r, c)
  {
  }

  /** A tower marker blocks unit u at (r, c): `attack_tower`, then hold if nothing was raised. */
  method SiegeStep(arena: Arena, ng: Grid, r: int, c: int, nc: int) returns (ok: bool, ng': Grid)
    requires arena.Valid() && Shaped(ng, arena.height, arena.width) && arena.InBounds(r, c) && arena.InBounds(r, nc)
    requires HoldsUnit(arena.grid[r][c]) && HoldsTower(Front(arena.grid, ng, r, nc))
    modifies arena`grid, arena`towers
    ensures arena.Valid() && Shaped(ng', arena.height, arena.width)
    ensures Besieged(arena, old(arena.grid), old(arena.towers), ng, r, c, nc, ok, ng')
    ensures ng' == if ok then Stay(ng, r, c, old(arena.grid)[r][c].value.unit) else ng
    ensures Cleared(old(arena.grid), arena.grid, old(arena.towers))
    ensures Progress(old(arena.towers), arena.towers)
    ensures Erased(old(arena.grid), arena.grid)
    ensures Grows(old(arena.grid), ng, ng', arena.p1Id)
    ensures MarkersKnown(old(arena.grid), old(arena.towers)) && MarkersKnown(ng, old(arena.towers)) ==> ok
  {
    ghost var g := arena.grid;
    var u := arena.grid[r][c].value.unit;
    var t := Front(arena.grid, ng, r, nc).value;
    ghost var hit := CanAttack(u, t);
    ok := AttackTower(arena, u, t);
    assert hit == CanAttack(u, t);
    ng' := if ok then Stay(ng, r, c, u) else ng;
    if ok {
      StayGrows(g, ng, arena.p1Id, r, c);
    }
  }

  /**
   * Another owner's unit (or an ownerless one) blocks unit u at (r, c): it is copied into the next
   * grid if absent there, `attack_unit` strikes it in the next grid, and u holds.
   */
  method FightStep(ng: Grid, r: int, c: int, nc: int, u: Unit, front: Cell) returns (ng': Grid)
    requires 0 <= r < |ng| && 0 <= c < |ng[r]| && 0 <= nc < |ng[r]| && c != nc
    requires HoldsUnit(front) && (ng[r][nc].Some? ==> front == ng[r][nc])
    modifies UnitsAt(front)`hp
    ensures |ng'| == |ng| && forall i :: 0 <= i < |ng| ==> |ng'[i]| == |ng[i]|
    ensures SameMarkers(ng, ng')
    ensures forall i, j :: 0 <= i < |ng| && 0 <= j < |ng[i]| ==>
      ng'[i][j] == ng[i][j] || ng'[i][j].None? || ((i, j) == (r, nc) && ng'[i][j] == front)
      || ((i, j) == (r, c) && ng'[i][j] == Some(UnitCell(u)))
    ensures var v := front.value.unit;
      var g1 := if ng[r][nc].None? then Write(ng, r, nc, front) else ng;
      var hit := old(CanAttack(u, front.value));
      var dmg := old(u.Damage());
      && v.hp == (if hit then Some(old(v.Hp()) - dmg) else old(v.hp))
      && ng' == Stay(if hit && old(v.Hp()) - dmg <= 0 then Write(g1, r, nc, None) else g1, r, c, u)
  {
    var g1 := ng;
    if ng[r][nc].None? {
      g1 := Write(ng, r, nc, front);
    }
    var g2 := AttackUnit(u, r, nc, g1);
    ng' := Stay(g2, r, c, u);
  }

  lemma FightGrows(g: Grid, ng: Grid, ng': Grid, p1Id: Option<int>, r: int, c: int, nc: int)
    requires |ng| == |g| && (forall i :: 0 <= i < |g| ==> |ng[i]| == |g[i]|)
    requires 0 <= r < |g| && 0 <= c < |g[r]| && 0 <= nc < |g[r]| && HoldsUnit(g[r][c])
    requires HoldsUnit(Front(g, ng, r, nc)) && SameMarkers(ng, ng')
    requires forall i, j :: 0 <= i < |ng| && 0 <= j < |ng[i]| ==>
      ng'[i][j] == ng[i][j] || ng'[i][j].None? || ((i, j) == (r, nc) && ng'[i][j] == Front(g, ng, r, nc))
      || ((i, j) == (r, c) && ng'[i][j] == g[r][c])
    ensures Grows(g, ng, ng', p1Id)
  {
    forall i, j | 0 <= i < |ng| && 0 <= j < |ng[i]| && HoldsUnit(ng'[i][j]) && ng'[i][j] != ng[i][j]
      ensures ng'[i][j].value.unit in Units(g) && CameFrom(g, p1Id, i, j, ng'[i][j].value.unit)
    {
      if (i, j) == (r, nc) && ng'[i][j] == Front(g, ng, r, nc) {
        UnitInUnits(g, r, nc);
      } else {
        UnitInUnits(g, r, c);
      }
    }
  }

  /**
   * The outcome `Fought` describes keeps every occupied cell of the next grid except the struck
   * unit's, which it empties only once that unit's hp is at most 0; it fills only the struck unit's
   * cell and the attacker's; and the attacker ends at its own cell unless ng already held it.
   */
  lemma FoughtKept(g: Grid, ng: Grid, ng': Grid, p1Id: Option<int>, r: int, c: int, nc: int, hit: bool, h0: int, dmg: int)
    requires |ng| == |g| && (forall i :: 0 <= i < |g| ==> |ng[i]| == |g[i]|)
    requires 0 <= r < |g| && 0 <= c < |g[r]| && 0 <= nc < |g[r]| && HoldsUnit(g[r][c])
    requires nc == c + Heading(g[r][c].value.unit.owner, p1Id) && HoldsUnit(Front(g, ng, r, nc))
    requires var g1 := if ng[r][nc].None? then Write(ng, r, nc, Front(g, ng, r, nc)) else ng;
      ng' == Stay(if hit && h0 - dmg <= 0 then Write(g1, r, nc, None) else g1, r, c, g[r][c].value.unit)
    requires hit ==> Front(g, ng, r, nc).value.unit.hp == Some(h0 - dmg)
    ensures Kept(ng, ng') && Fills(g, ng, ng') && Arrival(g, ng, ng', p1Id, r, c)
  {
  }

  /**
   * Another owner's unit (or an ownerless one) blocks the unit at (r, c) of the old grid: the
   * Fight case of `step_movement`, on the arena.
   */
  method ClashStep(arena: Arena, ng: Grid, r: int, c: int, nc: int) returns (ng': Grid)
    requires arena.Valid() && Shaped(ng, arena.height, arena.width) && arena.InBounds(r, c) && arena.InBounds(r, nc)
    requires HoldsUnit(arena.grid[r][c]) && nc == c + Heading(arena.grid[r][c].value.unit.owner, arena.p1Id)
    requires HoldsUnit(Front(arena.grid, ng, r, nc))
    requires Front(arena.grid, ng, r, nc).value.unit.owner != arena.grid[r][c].value.unit.owner
    modifies Units(arena.grid)`hp, Units(ng)`hp
    ensures Shaped(ng', arena.height, arena.width)
    ensures Grows(arena.grid, ng, ng', arena.p1Id)
    ensures Fought(arena, arena.grid, arena.towers, ng, r, c, nc, ng')
  {
    var u := arena.grid[r][c].value.unit;
    var front := Front(arena.grid, ng, r, nc);
    if ng[r][nc].Some? { UnitInUnits(ng, r, nc); } else { UnitInUnits(arena.grid, r, nc); }
    ng' := FightStep(ng, r, c, nc, u, front);
    FightGrows(arena.grid, ng, ng', arena.p1Id, r, c, nc);
  }

  /** The Fight case with what it keeps of the next grid and of hp. */
  method FightCase(arena: Arena, ng: Grid, r: int, c: int, nc: int) returns (ng': Grid)
    requires arena.Valid() && Shaped(ng, arena.height, arena.width) && arena.InBounds(r, c) && arena.InBounds(r, nc)
    requires HoldsUnit(arena.grid[r][c]) && nc == c + Heading(arena.grid[r][c].value.unit.owner, arena.p1Id)
    requires HoldsUnit(Front(arena.grid, ng, r, nc))
    requires Front(arena.grid, ng, r, nc).value.unit.owner != arena.grid[r][c].value.unit.owner
    modifies Units(arena.grid)`hp, Units(ng)`hp
    ensures Shaped(ng', arena.height, arena.width)
    ensures Grows(arena.grid, ng, ng', arena.p1Id)
    ensures Fought(arena, arena.grid, arena.towers, ng, r, c, nc, ng')
    ensures Kept(ng, ng') && Fills(arena.grid, ng, ng') && Arrival(arena.grid, ng, ng', arena.p1Id, r, c)
    ensures arena.grid[r][c].value.unit.Damage() >= 0 ==>
      forall w :: w in Units(arena.grid) + Units(ng) ==> w.Hp() <= old(w.Hp())
  {
    var front := Front(arena.grid, ng, r, nc);
    ghost var hit := CanAttack(arena.grid[r][c].value.unit, front.value);
    ghost var h0, dmg := front.value.unit.Hp(), arena.grid[r][c].value.unit.Damage();
    ng' := ClashStep(arena, ng, r, c, nc);
    FoughtKept(arena.grid, ng, ng', arena.p1Id, r, c, nc, hit, h0, dmg);
  }

  /**
   * From ng to ng' the next grid only fills empty cells and removes units whose hp is at most 0:
   * the only cell `step_movement` ever empties is that of a unit `attack_unit` has just killed.
   */
  predicate Kept(ng: Grid, ng': Grid)
    reads Units(ng)`hp
  {
    |ng'| == |ng| && (forall r :: 0 <= r < |ng| ==> |ng'[r]| == |ng[r]|)
    && forall r, c :: 0 <= r < |ng| && 0 <= c < |ng[r]| ==>
         ng'[r][c] == ng[r][c] || ng[r][c].None?
         || (HoldsUnit(ng[r][c]) && ng'[r][c].None? && ng[r][c].value.unit.hp.GetOr(0) <= 0)
  }

  /** Every cell that changed from ng to ng' and holds something took g's tile of that cell, or g's cell was empty. */
  predicate Fills(g: Grid, ng: Grid, ng': Grid) {
    |ng'| == |ng| && |g| == |ng| && (forall r :: 0 <= r < |ng| ==> |ng'[r]| == |ng[r]| && |g[r]| == |ng[r]|)
    && forall r, c :: 0 <= r < |ng| && 0 <= c < |ng[r]| && ng'[r][c] != ng[r][c] && ng'[r][c].Some? ==>
         ng'[r][c] == g[r][c] || g[r][c].None?
  }

  /**
   * The unit at (r, c) of g is, after its step, at (r, c) of ng' or one column ahead in its
   * heading, or (r, c) of ng' keeps what ng already had there.
   */
  predicate Arrival(g: Grid, ng: Grid, ng': Grid, p1Id: Option<int>, r: int, c: int)
    requires 0 <= r < |g| && 0 <= c < |g[r]| && HoldsUnit(g[r][c])
    requires |ng| == |g| && |ng'| == |g| && |ng[r]| == |g[r]| && |ng'[r]| == |g[r]|
    reads g[r][c].value.unit`owner
  {
    var nc := c + Heading(g[r][c].value.unit.owner, p1Id);
    ng'[r][c] == g[r][c] || (ng[r][c].Some? && ng'[r][c] == ng[r][c])
    || (0 <= nc < |g[r]| && ng'[r][nc] == g[r][c])
  }

  /** The scan changed neither the towers, nor the grid g, nor any hp. */
  twostate predicate Untouched(arena: Arena, g: Grid, t: TowerTable, ng: Grid)
    reads arena, Units(g), Units(ng)
  {
    arena.towers == t && arena.grid == g && forall v :: v in Units(g) + Units(ng) ==> v.hp == old(v.hp)
  }

  /**
   * A tower marker blocks the unit at (r, c) of the grid g (tower table t): `attack_tower`, which
   * does nothing to an ally's tower and raises KeyError (`ok` false) for an owner without
   * towers, then a stay; no unit's hp changes.
   */
  twostate predicate Besieged(arena: Arena, g: Grid, t: TowerTable, ng: Grid, r: int, c: int, nc: int, ok: bool, new ng': Grid)
    requires Shaped(g, arena.height, arena.width) && Shaped(ng, arena.height, arena.width)
    requires arena.InBounds(r, c) && arena.InBounds(r, nc) && HoldsUnit(g[r][c]) && HoldsTower(Front(g, ng, r, nc))
    requires forall o :: o in t ==> Complete(t[o])
    reads arena, Units(g), Units(ng)
  {
    var u := g[r][c].value.unit;
    var tw := Front(g, ng, r, nc).value;
    var hit := old(CanAttack(u, tw));
    var dmg := old(u.Damage());
    && ok == (!hit || tw.owner in t)
    && arena.towers == (if hit then DamagedTable(t, tw.owner, tw.name, dmg) else t)
    && arena.grid == (if hit then DamagedGrid(g, arena.height, arena.width, t, tw.owner, tw.name, dmg) else g)
    && ng' == (if ok then Stay(ng, r, c, u) else ng)
    && forall v :: v in Units(g) + Units(ng) ==> v.hp == old(v.hp)
  }

  /**
   * Another owner's unit v blocks the unit u at (r, c) of the grid g: v is copied into the next
   * grid if absent there, loses u's damage if u may attack it and leaves the next grid at
   * hp <= 0; then u stays. Nothing else changes.
   */
  twostate predicate Fought(arena: Arena, g: Grid, t: TowerTable, ng: Grid, r: int, c: int, nc: int, new ng': Grid)
    requires Shaped(g, arena.height, arena.width) && Shaped(ng, arena.height, arena.width)
    requires arena.InBounds(r, c) && arena.InBounds(r, nc) && HoldsUnit(g[r][c]) && HoldsUnit(Front(g, ng, r, nc))
    reads arena, Units(g), Units(ng)
  {
    var u := g[r][c].value.unit;
    var front := Front(g, ng, r, nc);
    var v := front.value.unit;
    var g1 := if ng[r][nc].None? then Write(ng, r, nc, front) else ng;
    var hit := old(CanAttack(u, front.value));
    var dmg := old(u.Damage());
    && arena.towers == t && arena.grid == g
    && (forall w :: w in Units(g) + Units(ng) ==>
          w.hp == if w == v && hit then Some(old(v.Hp()) - dmg) else old(w.hp))
    && ng' == Stay(if hit && old(v.Hp()) - dmg <= 0 then Write(g1, r, nc, None) else g1, r, c, u)
  }

  /**
   * What the scan of cell (r, c) of the grid g (tower table t) does, for each kind of Step: ng is
   * the next grid before and ng' after. Skipping, holding and advancing touch neither hp nor
   * towers; a siege and a fight are as `Besieged` and `Fought` say.
   */
  twostate predicate Stepped(arena: Arena, g: Grid, t: TowerTable, ng: Grid, r: int, c: int, ok: bool, new ng': Grid)
    requires Shaped(g, arena.height, arena.width) && Shaped(ng, arena.height, arena.width) && arena.InBounds(r, c)
    requires forall o :: o in t ==> Complete(t[o])
    reads arena, Units(g), Units(ng)
  {
    var s := old(Plan(g, ng, arena.height, arena.width, arena.p1Id, r, c));
    if s == Skip then ok && ng' == ng && Untouched(arena, g, t, ng)
    else
      var u := g[r][c].value.unit;
      var nc := c + Heading(old(u.owner), arena.p1Id);
      match s
      case Hold => ok && ng' == Stay(ng, r, c, u) && Untouched(arena, g, t, ng)
      case Advance => ok && ng' == Write(ng, r, nc, Some(UnitCell(u))) && Untouched(arena, g, t, ng)
      case Siege => Besieged(arena, g, t, ng, r, c, nc, ok, ng')
      case Fight => ok && Fought(arena, g, t, ng, r, c, nc, ng')
  }

  /** The scan of one owned unit at (r, c): every case but Skip. */
  method OwnedStep(arena: Arena, ng: Grid, r: int, c: int) returns (ok: bool, ng': Grid)
    requires arena.Valid() && Shaped(ng, arena.height, arena.width) && arena.InBounds(r, c)
    requires HoldsUnit(arena.grid[r][c]) && arena.grid[r][c].value.unit.owner.Some?
    modifies arena`grid, arena`towers, Units(arena.grid)`hp, Units(ng)`hp
    ensures arena.Valid() && Shaped(ng', arena.height, arena.width)
    ensures Progress(old(arena.towers), arena.towers)
    ensures Erased(old(arena.grid), arena.grid)
    ensures Grows(old(arena.grid), ng, ng', arena.p1Id)
    ensures MarkersKnown(old(arena.grid), old(arena.towers)) && MarkersKnown(ng, old(arena.towers)) ==> ok
    ensures Stepped(arena, old(arena.grid), old(arena.towers), ng, r, c, ok, ng')
    ensures Kept(ng, ng') && Fills(old(arena.grid), ng, ng')
    ensures Cleared(old(arena.grid), arena.grid, old(arena.towers))
    ensures ok ==> Arrival(old(arena.grid), ng, ng', arena.p1Id, r, c)
    ensures old(arena.grid[r][c].value.unit.Damage()) >= 0 ==>
      forall v :: v in Units(old(arena.grid)) + Units(ng) ==> v.Hp() <= old(v.Hp())
  {
    ok, ng' := true, ng;
    ghost var s := Plan(arena.grid, ng, arena.height, arena.width, arena.p1Id, r, c);
    var tile := arena.grid[r][c];
    var u := tile.value.unit;
    var nc := c + Heading(u.owner, arena.p1Id);
    if !arena.InBounds(r, nc) {
      assert s == Hold;
      ng' := Stay(ng, r, c, u);
      StayGrows(arena.grid, ng, arena.p1Id, r, c);
      StayKept(arena.grid, ng, arena.p1Id, r, c);
      return;
    }
    var front := Front(arena.grid, ng, r, nc);
    if front.None? {
      assert s == Advance;
      ng' := Write(ng, r, nc, tile);
      AdvanceGrows(arena.grid, ng, arena.p1Id, r, c, nc);
      AdvanceKept(arena.grid, ng, arena.p1Id, r, c, nc);
    } else if front.value.TowerCell? {
      assert s == Siege;
      ghost var g := arena.grid;
      ok, ng' := SiegeStep(arena, ng, r, c, nc);
      StayKept(g, ng, arena.p1Id, r, c);
    } else if front.value.unit.owner != u.owner {
      assert s == Fight;
      ng' := FightCase(arena, ng, r, c, nc);
    } else {
      assert s == Hold;
      ng' := Stay(ng, r, c, u);
      StayGrows(arena.grid, ng, arena.p1Id, r, c);
      StayKept(arena.grid, ng, arena.p1Id, r, c);
    }
  }

  /**
   * One cell of the scan of `step_movement`, reading the old grid through `arena.grid` (which
   * `damage_tower` may clear cells of) and building the next grid `ng`. `ok` is false where
   * `damage_tower` raises KeyError.
   */
  method StepUnit(arena: Arena, ng: Grid, r: int, c: int) returns (ok: bool, ng': Grid)
    requires arena.Valid() && Shaped(ng, arena.height, arena.width) && arena.InBounds(r, c)
    modifies arena`grid, arena`towers, Units(arena.grid)`hp, Units(ng)`hp
    ensures arena.Valid() && Shaped(ng', arena.height, arena.width)
    ensures Progress(old(arena.towers), arena.towers)
    ensures Erased(old(arena.grid), arena.grid)
    ensures Grows(old(arena.grid), ng, ng', arena.p1Id)
    ensures MarkersKnown(old(arena.grid), old(arena.towers)) && MarkersKnown(ng, old(arena.towers)) ==> ok
    ensures Stepped(arena, old(arena.grid), old(arena.towers), ng, r, c, ok, ng')
    ensures Kept(ng, ng') && Fills(old(arena.grid), ng, ng')
    ensures Cleared(old(arena.grid), arena.grid, old(arena.towers))
    ensures ok && HoldsUnit(old(arena.grid)[r][c]) && old(arena.grid)[r][c].value.unit.owner.Some? ==>
      Arrival(old(arena.grid), ng, ng', arena.p1Id, r, c)
    ensures (HoldsUnit(old(arena.grid)[r][c]) ==> old(arena.grid[r][c].value.unit.Damage()) >= 0) ==>
      forall v :: v in Units(old(arena.grid)) + Units(ng) ==> v.Hp() <= old(v.Hp())
    ensures (HoldsUnit(old(arena.grid)[r][c]) ==> old(arena.grid[r][c].value.unit.Damage()) >= 0) ==>
      HpBelow(Units(old(arena.grid)) + Units(ng), old(HpOf(Units(arena.grid) + Units(ng))))
  {
    ok, ng' := true, ng;
    var tile := arena.grid[r][c];
    if !HoldsUnit(tile) || tile.value.unit.owner.None? {
      return;
    }
    ok, ng' := OwnedStep(arena, ng, r, c);
  }

  /** Emptying cells of g keeps every origin that g' still shows. */
  lemma CameFromErased(g: Grid, g': Grid, p1Id: Option<int>, r: int, c: int, u: Unit)
    requires Erased(g, g') && CameFrom(g', p1Id, r, c, u)
    ensures CameFrom(g, p1Id, r, c, u)
  {
  }

  /** Step 1 of `step_movement`: copy the tower markers into an empty next grid. */
  method CopyTowers(arena: Arena) returns (ng: Grid)
    requires arena.Valid()
    ensures ng == TowersOnly(arena.grid)
  {
    ghost var g0 := arena.grid;
    ng := EmptyGrid(arena.height, arena.width);
    for r := 0 to arena.height
      invariant Shaped(ng, arena.height, arena.width)
      invariant forall i, j :: arena.InBounds(i, j) ==> ng[i][j] == if i < r && HoldsTower(g0[i][j]) then g0[i][j] else None
    {
      for c := 0 to arena.width
        invariant Shaped(ng, arena.height, arena.width)
        invariant forall i, j :: arena.InBounds(i, j) ==>
          ng[i][j] == if (i < r || (i == r && j < c)) && HoldsTower(g0[i][j]) then g0[i][j] else None
      {
        var tile := arena.grid[r][c];
        if HoldsTower(tile) {
          ng := Write(ng, r, c, tile);
        }
      }
    }
    assert forall i | 0 <= i < arena.height :: ng[i] == TowersOnly(g0)[i];
  }

  /**
   * The state of the scan in `step_movement` after some cells of the old grid g0 (tower table t0
   * at the start), with g and t the arena's grid and tower table now: `damage_tower` has only
   * cleared cells of g0 and advanced the tower table, the next grid ng is traced back to g0 and
   * keeps all of g0's markers.
   */
  ghost predicate ScanState(g0: Grid, t0: TowerTable, g: Grid, t: TowerTable, ng: Grid, height: nat, width: nat, p1Id: Option<int>)
    reads Units(ng)`owner
  {
    Shaped(ng, height, width)
    && Erased(g0, g)
    && Progress(t0, t)
    && Traced(g0, ng, p1Id)
    && (forall i, j :: 0 <= i < height && 0 <= j < width && HoldsTower(g0[i][j]) ==> ng[i][j] == g0[i][j])
    && (MarkersKnown(g0, t0) ==> MarkersKnown(g, t) && MarkersKnown(ng, t))
  }

  /** The scan state, on the arena. */
  ghost predicate Scanning(arena: Arena, g0: Grid, t0: TowerTable, ng: Grid)
    reads arena, Units(ng)`owner
  {
    arena.Valid() && ScanState(g0, t0, arena.grid, arena.towers, ng, arena.height, arena.width, arena.p1Id)
  }

  /** Every unit of a next grid traced back to g is a unit of g. */
  lemma TracedUnits(g: Grid, ng: Grid, p1Id: Option<int>)
    requires Traced(g, ng, p1Id)
    ensures Units(ng) <= Units(g)
  {
    forall u | u in Units(ng) ensures u in Units(g) {
      var r, c :| 0 <= r < |ng| && 0 <= c < |ng[r]| && ng[r][c] == Some(UnitCell(u));
    }
  }

  /**
   * One scanned cell keeps the scan state: the step (from grid g1, towers t1 and next grid ng to
   * g2, t2 and ng') only emptied cells, progressed the towers and grew ng.
   */
  lemma ScanningKept(g0: Grid, t0: TowerTable, g1: Grid, t1: TowerTable, g2: Grid, t2: TowerTable,
                     ng: Grid, ng': Grid, height: nat, width: nat, p1Id: Option<int>)
    requires ScanState(g0, t0, g1, t1, ng, height, width, p1Id)
    requires Shaped(g1, height, width) && Shaped(ng', height, width)
    requires Progress(t1, t2) && Erased(g1, g2) && Grows(g1, ng, ng', p1Id)
    ensures ScanState(g0, t0, g2, t2, ng', height, width, p1Id)
  {
    ErasedUnits(g0, g1);
    TracedUnits(g0, ng, p1Id);
    ProgressTrans(t0, t1, t2);
    forall i, j | 0 <= i < height && 0 <= j < width && HoldsUnit(ng'[i][j])
      ensures ng'[i][j].value.unit in Units(g0) && CameFrom(g0, p1Id, i, j, ng'[i][j].value.unit)
    {
      if ng'[i][j] != ng[i][j] {
        CameFromErased(g0, g1, p1Id, i, j, ng'[i][j].value.unit);
      }
    }
    if MarkersKnown(g0, t0) {
      ErasedKnown(g1, g2, t1);
    }
  }

  /** No unit of g carries a negative damage, so an attack never raises hp. */
  predicate NonNegDamage(g: Grid)
    reads Units(g)`damage
  {
    forall u :: u in Units(g) ==> u.damage.GetOr(0) >= 0
  }

  /** Every unit cell of g0 is, in g, as it was. */
  predicate UnitCellsIntact(g0: Grid, g: Grid) {
    |g| == |g0| && (forall r :: 0 <= r < |g0| ==> |g[r]| == |g0[r]|)
    && forall r, c :: 0 <= r < |g0| && 0 <= c < |g0[r]| && HoldsUnit(g0[r][c]) ==> g[r][c] == g0[r][c]
  }

  /** A grid that keeps g0's unit cells keeps all of g0's units. */
  lemma IntactUnits(g0: Grid, g: Grid)
    requires UnitCellsIntact(g0, g)
    ensures Units(g0) <= Units(g)
  {
    forall u | u in Units(g0) ensures u in Units(g) {
      var r, c :| 0 <= r < |g0| && 0 <= c < |g0[r]| && HoldsUnit(g0[r][c]) && g0[r][c].value.unit == u;
      UnitInUnits(g, r, c);
    }
  }

  /** At every unit cell of g0, the next grid is still empty or holds that cell's own unit. */
  predicate OwnCells(g0: Grid, ng: Grid) {
    |ng| == |g0| && (forall r :: 0 <= r < |g0| ==> |ng[r]| == |g0[r]|)
    && forall r, c :: 0 <= r < |g0| && 0 <= c < |g0[r]| && HoldsUnit(g0[r][c]) ==> ng[r][c].None? || ng[r][c] == g0[r][c]
  }

  /** The unit at (r, c) of g0 stands in ng at (r, c) or one column ahead in its heading. */
  predicate Placed(g0: Grid, ng: Grid, p1Id: Option<int>, r: int, c: int)
    requires 0 <= r < |g0| && 0 <= c < |g0[r]| && HoldsUnit(g0[r][c])
    requires |ng| == |g0| && |ng[r]| == |g0[r]|
    reads g0[r][c].value.unit`owner
  {
    var nc := c + Heading(g0[r][c].value.unit.owner, p1Id);
    ng[r][c] == g0[r][c] || (0 <= nc < |g0[r]| && ng[r][nc] == g0[r][c])
  }

  /**
   * Every owned unit of g0 that the scan has passed (cells before (r0, c0), row by row) is placed
   * in ng, or its hp in the table hp is at most 0.
   */
  predicate Settled(g0: Grid, ng: Grid, p1Id: Option<int>, hp: map<Unit, int>, r0: int, c0: int)
    reads Units(g0)`owner
  {
    |ng| == |g0| && (forall r :: 0 <= r < |g0| ==> |ng[r]| == |g0[r]|)
    && forall r, c ::
         0 <= r < |g0| && 0 <= c < |g0[r]| && (r < r0 || (r == r0 && c < c0))
         && HoldsUnit(g0[r][c]) && g0[r][c].value.unit.owner.Some? ==>
         Placed(g0, ng, p1Id, r, c) || (g0[r][c].value.unit in hp && hp[g0[r][c].value.unit] <= 0)
  }

  /** A tower alive after some progress was alive before it. */
  lemma LivingBefore(t0: TowerTable, t1: TowerTable, r: int, c: int)
    requires Progress(t0, t1) && LivingTowerCell(t1, r, c)
    ensures LivingTowerCell(t0, r, c)
  {
    var o, s :| o in t1 && s in t1[o] && t1[o][s].hp > 0 && (r, c) in t1[o][s].cells;
    assert o in t0 && s in t0[o];
  }

  /**
   * One scanned cell (r, c) keeps the placement facts: from grid g1, next grid ng and hp table hp1
   * to g2, ng' and hp2, units only lost hp, ng' kept ng's units but the dead, filled cells from g1
   * only, and damage_tower cleared only living tower cells.
   */
  lemma PlacingKept(arena: Arena, g0: Grid, t0: TowerTable, t1: TowerTable, g1: Grid, ng: Grid, ng': Grid,
                    hp1: map<Unit, int>, r: int, c: int, ok: bool)
    requires UnitCellsIntact(g0, g1) && OwnCells(g0, ng) && Settled(g0, ng, arena.p1Id, hp1, r, c)
    requires 0 <= r < |g0| && 0 <= c < |g0[r]|
    requires TowerCellsMarked(g0, t0) && Progress(t0, t1) && Cleared(g1, arena.grid, t1)
    requires Units(ng) <= Units(g0)
    requires hp1.Keys == Units(g0) && HpBelow(Units(g0), hp1)
    requires Kept(ng, ng') && Fills(g1, ng, ng')
    requires ok && HoldsUnit(g1[r][c]) && g1[r][c].value.unit.owner.Some? ==> Arrival(g1, ng, ng', arena.p1Id, r, c)
    ensures UnitCellsIntact(g0, arena.grid) && OwnCells(g0, ng')
    ensures ok ==> Placing(arena, g0, ng', r, c + 1)
  {
    forall i, j | 0 <= i < |g0| && 0 <= j < |g0[i]| && HoldsUnit(g0[i][j])
      ensures arena.grid[i][j] == g0[i][j]
    {
      if arena.grid[i][j] != g1[i][j] {
        LivingBefore(t0, t1, i, j);
      }
    }
    forall i, j | 0 <= i < |g0| && 0 <= j < |g0[i]| && (i < r || (i == r && j < c + 1))
      && HoldsUnit(g0[i][j]) && g0[i][j].value.unit.owner.Some? && ok
      ensures Placed(g0, ng', arena.p1Id, i, j) || (g0[i][j].value.unit in HpOf(Units(g0)) && HpOf(Units(g0))[g0[i][j].value.unit] <= 0)
    {
      var u := g0[i][j].value.unit;
      UnitInUnits(g0, i, j);
      if (i, j) != (r, c) {
        var nj := j + Heading(u.owner, arena.p1Id);
        if ng[i][j] == g0[i][j] {
          UnitInUnits(ng, i, j);
        } else if 0 <= nj < |g0[i]| && ng[i][nj] == g0[i][j] {
          UnitInUnits(ng, i, nj);
        }
      }
    }
  }

  /** Before the scan, the next grid holds only tower markers and no unit has been passed. */
  lemma SettledStart(g0: Grid, p1Id: Option<int>, hp: map<Unit, int>)
    ensures UnitCellsIntact(g0, g0) && OwnCells(g0, TowersOnly(g0))
    ensures Settled(g0, TowersOnly(g0), p1Id, hp, 0, 0)
  {
  }

  /** The scan starts from the arena as it is and the next grid holding only its markers. */
  lemma ScanStart(arena: Arena, ng: Grid)
    requires arena.Valid() && ng == TowersOnly(arena.grid)
    ensures Scanning(arena, arena.grid, arena.towers, ng)
    ensures Placeable(arena.grid, arena.towers) ==> Placing(arena, arena.grid, ng, 0, 0)
  {
    SettledStart(arena.grid, arena.p1Id, HpOf(Units(arena.grid)));
  }

  /** Once every row is passed, each owned unit of g0 is placed or out of hp. */
  lemma SettledAll(g0: Grid, ng: Grid, p1Id: Option<int>, height: nat)
    requires |g0| == height && Settled(g0, ng, p1Id, HpOf(Units(g0)), height, 0)
    ensures forall r, c :: 0 <= r < |g0| && 0 <= c < |g0[r]| && HoldsUnit(g0[r][c]) && g0[r][c].value.unit.owner.Some? ==>
      Placed(g0, ng, p1Id, r, c) || g0[r][c].value.unit.Hp() <= 0
  {
    forall r, c | 0 <= r < |g0| && 0 <= c < |g0[r]| && HoldsUnit(g0[r][c]) && g0[r][c].value.unit.owner.Some?
      ensures Placed(g0, ng, p1Id, r, c) || g0[r][c].value.unit.Hp() <= 0
    {
      UnitInUnits(g0, r, c);
    }
  }

  /** Passing the end of row r is starting row r + 1. */
  lemma SettledRow(g0: Grid, ng: Grid, p1Id: Option<int>, hp: map<Unit, int>, r: int, width: nat)
    requires forall i :: 0 <= i < |g0| ==> |g0[i]| == width
    requires Settled(g0, ng, p1Id, hp, r, width)
    ensures Settled(g0, ng, p1Id, hp, r + 1, 0)
  {
  }

  /**
   * What placement rests on: every living tower cell of the old grid g0 holds a marker (so no
   * unit stands there and damage_tower never clears a unit's cell), and no damage is negative.
   */
  ghost predicate Placeable(g0: Grid, t0: TowerTable)
    reads Units(g0)`damage
  {
    TowerCellsMarked(g0, t0) && NonNegDamage(g0)
  }

  /** The placement facts of the scan before cell (r, c), with the current hp of g0's units. */
  ghost predicate Placing(arena: Arena, g0: Grid, ng: Grid, r: int, c: int)
    reads arena, Units(g0)`owner, Units(g0)`hp
  {
    UnitCellsIntact(g0, arena.grid) && OwnCells(g0, ng) && Settled(g0, ng, arena.p1Id, HpOf(Units(g0)), r, c)
  }

  /** StepUnit, with only what the scan needs of it. */
  method StepCell(arena: Arena, ng: Grid, r: int, c: int) returns (ok: bool, ng': Grid)
    requires arena.Valid() && Shaped(ng, arena.height, arena.width) && arena.InBounds(r, c)
    modifies arena`grid, arena`towers, Units(arena.grid)`hp, Units(ng)`hp
    ensures arena.Valid() && Shaped(ng', arena.height, arena.width)
    ensures Progress(old(arena.towers), arena.towers)
    ensures Erased(old(arena.grid), arena.grid)
    ensures Grows(old(arena.grid), ng, ng', arena.p1Id)
    ensures MarkersKnown(old(arena.grid), old(arena.towers)) && MarkersKnown(ng, old(arena.towers)) ==> ok
    ensures Kept(ng, ng') && Fills(old(arena.grid), ng, ng')
    ensures Cleared(old(arena.grid), arena.grid, old(arena.towers))
    ensures ok && HoldsUnit(old(arena.grid)[r][c]) && old(arena.grid)[r][c].value.unit.owner.Some? ==>
      Arrival(old(arena.grid), ng, ng', arena.p1Id, r, c)
    ensures (HoldsUnit(old(arena.grid)[r][c]) ==> old(arena.grid[r][c].value.unit.Damage()) >= 0) ==>
      HpBelow(Units(old(arena.grid)) + Units(ng), old(HpOf(Units(arena.grid) + Units(ng))))
  {
    ok, ng' := StepUnit(arena, ng, r, c);
  }

  /** StepUnit at (r, c), with the placement facts carried over. */
  method PlaceCell(arena: Arena, ng: Grid, r: int, c: int, ghost g0: Grid, ghost t0: TowerTable, ghost placeable: bool)
      returns (ok: bool, ng': Grid)
    requires arena.Valid() && Shaped(ng, arena.height, arena.width) && arena.InBounds(r, c)
    requires Units(arena.grid) <= Units(g0) && Units(ng) <= Units(g0) && Progress(t0, arena.towers)
    requires placeable ==> Placeable(g0, t0) && Placing(arena, g0, ng, r, c)
    modifies arena`grid, arena`towers, Units(g0)`hp
    ensures arena.Valid() && Shaped(ng', arena.height, arena.width)
    ensures Progress(old(arena.towers), arena.towers)
    ensures Erased(old(arena.grid), arena.grid)
    ensures Grows(old(arena.grid), ng, ng', arena.p1Id)
    ensures MarkersKnown(old(arena.grid), old(arena.towers)) && MarkersKnown(ng, old(arena.towers)) ==> ok
    ensures placeable ==> Placeable(g0, t0) && UnitCellsIntact(g0, arena.grid) && OwnCells(g0, ng')
    ensures placeable && ok ==> Placing(arena, g0, ng', r, c + 1)
  {
    ghost var g1, t1 := arena.grid, arena.towers;
    ghost var hp1 := HpOf(Units(g0));
    if placeable {
      IntactUnits(g0, g1);
      assert Units(g1) + Units(ng) == Units(g0);
      if HoldsUnit(g1[r][c]) {
        UnitInUnits(g1, r, c);
      }
    }
    ok, ng' := StepCell(arena, ng, r, c);
    assert forall u :: u in Units(g0) ==> u.owner == old(u.owner) && u.damage == old(u.damage);
    if placeable {
      PlacingKept(arena, g0, t0, t1, g1, ng, ng', hp1, r, c, ok);
    }
  }

  /** The scan of cell (r, c): StepUnit, with the scan state and the placement facts carried over. */
  method ScanCell(arena: Arena, ng: Grid, r: int, c: int, ghost g0: Grid, ghost t0: TowerTable, ghost placeable: bool)
      returns (ok: bool, ng': Grid)
    requires Scanning(arena, g0, t0, ng) && arena.InBounds(r, c)
    requires placeable ==> Placeable(g0, t0) && Placing(arena, g0, ng, r, c)
    modifies arena`grid, arena`towers, Units(g0)`hp
    ensures Scanning(arena, g0, t0, ng')
    ensures MarkersKnown(g0, t0) ==> ok
    ensures placeable ==> Placeable(g0, t0) && (ok ==> Placing(arena, g0, ng', r, c + 1))
  {
    ErasedUnits(g0, arena.grid);
    TracedUnits(g0, ng, arena.p1Id);
    ghost var g1, t1 := arena.grid, arena.towers;
    ok, ng' := PlaceCell(arena, ng, r, c, g0, t0, placeable);
    ScanningKept(g0, t0, g1, t1, arena.grid, arena.towers, ng, ng', arena.height, arena.width, arena.p1Id);
  }

  /** The scan of row r, from column 0 up; stops at the first cell that raises. */
  method ScanRow(arena: Arena, ng: Grid, r: int, ghost g0: Grid, ghost t0: TowerTable, ghost placeable: bool)
      returns (ok: bool, ng': Grid)
    requires Scanning(arena, g0, t0, ng) && 0 <= r < arena.height
    requires placeable ==> Placeable(g0, t0) && Placing(arena, g0, ng, r, 0)
    modifies arena`grid, arena`towers, Units(g0)`hp
    ensures Scanning(arena, g0, t0, ng')
    ensures MarkersKnown(g0, t0) ==> ok
    ensures placeable ==> Placeable(g0, t0) && (ok ==> Placing(arena, g0, ng', r + 1, 0))
  {
    ok, ng' := true, ng;
    for c := 0 to arena.width
      invariant Scanning(arena, g0, t0, ng')
      invariant MarkersKnown(g0, t0) ==> ok
      invariant placeable ==> Placeable(g0, t0) && Placing(arena, g0, ng', r, c)
    {
      ok, ng' := ScanCell(arena, ng', r, c, g0, t0, placeable);
      if !ok {
        return;
      }
    }
    if placeable {
      SettledRow(g0, ng', arena.p1Id, HpOf(Units(g0)), r, arena.width);
    }
  }

  /** The scan of every row, from row 0 down; stops at the first cell that raises. */
  method ScanGrid(arena: Arena, ng: Grid, ghost g0: Grid, ghost t0: TowerTable, ghost placeable: bool)
      returns (ok: bool)
    requires Scanning(arena, g0, t0, ng) && |g0| == arena.height
    requires placeable ==> Placeable(g0, t0) && Placing(arena, g0, ng, 0, 0)
    modifies arena`grid, arena`towers, Units(g0)`hp
    ensures arena.Valid()
    ensures Progress(t0, arena.towers)
    ensures MarkersKnown(g0, t0) ==> ok && MarkersKnown(arena.grid, arena.towers)
    ensures ok ==> Traced(g0, arena.grid, arena.p1Id)
    ensures ok ==> forall r, c :: arena.InBounds(r, c) && HoldsTower(g0[r][c]) ==> arena.grid[r][c] == g0[r][c]
    ensures !ok ==> Erased(g0, arena.grid)
    ensures ok && placeable ==>
      forall r, c :: arena.InBounds(r, c) && HoldsUnit(g0[r][c]) && g0[r][c].value.unit.owner.Some? ==>
        Placed(g0, arena.grid, arena.p1Id, r, c) || g0[r][c].value.unit.Hp() <= 0
  {
    ok := true;
    var ng', r := ng, 0;
    while ok && r < arena.height
      invariant 0 <= r <= arena.height
      invariant Scanning(arena, g0, t0, ng')
      invariant MarkersKnown(g0, t0) ==> ok
      invariant placeable && ok ==> Placeable(g0, t0) && Placing(arena, g0, ng', r, 0)
    {
      ok, ng' := ScanRow(arena, ng', r, g0, t0, placeable);
      r := r + 1;
    }
    if ok {
      if placeable {
        SettledAll(g0, ng', arena.p1Id, arena.height);
      }
      arena.grid := ng';
    }
  }

  /**
   * `step_movement`. With `ok` (nothing raised), the new grid has the old grid's tower markers at
   * the same cells and no others, and each unit on it stood at the same cell of the old grid,
   * or one column behind in its heading. The tower table only progresses. Without `ok` the
   * grid is the old one with the cells cleared by `damage_tower` before the exception; that
   * cannot happen when every marker's owner is in the table. Conversely, with `ok`, when every
   * living tower cell held a marker and no damage is negative, each owned unit of the old grid
   * stands on the new grid at its own cell or one column ahead in its heading, unless its hp
   * has fallen to 0 or below.
   */
  method StepMovement(arena: Arena) returns (ok: bool)
    requires arena.Valid()
    modifies arena`grid, arena`towers, Units(arena.grid)`hp
    ensures arena.Valid()
    ensures Progress(old(arena.towers), arena.towers)
    ensures MarkersKnown(old(arena.grid), old(arena.towers)) ==> ok && MarkersKnown(arena.grid, arena.towers)
    ensures ok ==> Traced(old(arena.grid), arena.grid, arena.p1Id)
    ensures ok ==> forall r, c :: arena.InBounds(r, c) && HoldsTower(old(arena.grid)[r][c]) ==>
      arena.grid[r][c] == old(arena.grid)[r][c]
    ensures !ok ==> Erased(old(arena.grid), arena.grid)
    ensures ok && old(Placeable(arena.grid, arena.towers)) ==>
      forall r, c :: arena.InBounds(r, c) && HoldsUnit(old(arena.grid)[r][c]) && old(arena.grid)[r][c].value.unit.owner.Some? ==>
        Placed(old(arena.grid), arena.grid, arena.p1Id, r, c) || old(arena.grid)[r][c].value.unit.Hp() <= 0
  {
    ghost var g0 := arena.grid;
    ghost var t0 := arena.towers;
    ghost var placeable := Placeable(g0, t0);
    var ng := CopyTowers(arena);
    ScanStart(arena, ng);
    ok := ScanGrid(arena, ng, g0, t0, placeable);
  }
}
