/**
 * Combat (game/combat.py): the friendly-fire guard, unit-on-unit and unit-on-tower damage, and
 * tower fire at the nearest enemy unit.
 */
module Combat {
  import opened Wrappers
  import opened Tiles
  import opened Arenas
  import opened Rules

  /** `combat.is_tower` */
  function IsTower(t: Cell): (r: bool)
    ensures r ==> t.Some? && !IsUnit(t)
  {
    t.Some? && t.value.TowerCell?
  }

  /** `combat.is_unit`: any tile that is not a tower. */
  function IsUnit(t: Cell): (r: bool)
    ensures r ==> t.Some?
    ensures t.Some? ==> (r <==> !(t.Some? && t.value.TowerCell?))
  {
    t.Some? && !t.value.TowerCell?
  }

  /** The units a cell references (for frames). */
  function UnitsAt(t: Cell): set<Unit> {
    if HoldsUnit(t) then {t.value.unit} else {}
  }

  /** `tile.get("owner")`: a tower marker always names its owner; a unit's owner may be missing. */
  function Owner(t: Tile): (o: Option<int>)
    reads UnitsAt(Some(t))`owner
    ensures t.TowerCell? ==> o == Some(t.owner)
    ensures t.UnitCell? ==> o == t.unit.owner
  {
    match t
    case UnitCell(u) => u.owner
    case TowerCell(o, _, _) => Some(o)
  }

  /** `can_attack`: the friendly-fire guard; nobody attacks an ally, itself, or anything ownerless. */
  function CanAttack(attacker: Unit, target: Tile): (r: bool)
    reads attacker`owner, UnitsAt(Some(target))`owner
    ensures r <==> IsEnemy(attacker.owner, Owner(target))
    ensures r ==> attacker.owner.Some? && Owner(target).Some? && attacker.owner != Owner(target)
    ensures target == UnitCell(attacker) ==> !r
  {
    IsEnemy(attacker.owner, Owner(target))
  }

  /**
   * `attack_unit(attacker, r, c, grid)`: a unit target that `can_attack` allows loses exactly the
   * attacker's damage and leaves the grid once its hp is <= 0; anything else is left alone.
   */
  method AttackUnit(attacker: Unit, tr: int, tc: int, g: Grid) returns (g': Grid)
    requires 0 <= tr < |g| && 0 <= tc < |g[tr]|
    modifies UnitsAt(g[tr][tc])`hp
    ensures |g'| == |g| && forall i :: 0 <= i < |g| ==> |g'[i]| == |g[i]|
    ensures !(HoldsUnit(g[tr][tc]) && CanAttack(attacker, g[tr][tc].value)) ==> g' == g
    ensures HoldsUnit(g[tr][tc]) && CanAttack(attacker, g[tr][tc].value) ==>
      var target := g[tr][tc].value.unit;
      target.hp == Some(old(target.Hp()) - attacker.Damage())
      && g' == if target.Hp() <= 0 then Write(g, tr, tc, None) else g
    ensures HoldsUnit(g[tr][tc]) && !CanAttack(attacker, g[tr][tc].value) ==>
      g[tr][tc].value.unit.hp == old(g[tr][tc].value.unit.hp)
  {
    g' := g;
    var t := g[tr][tc];
    if t.None? || IsTower(t) {
      return;
    }
    var target := t.value.unit;
    if !CanAttack(attacker, t.value) {
      return;
    }
    var dmg := attacker.Damage();
    target.hp := Some(target.Hp() - dmg);
    if target.Hp() <= 0 {
      g' := Write(g, tr, tc, None);
    }
  }

  /** `attack_tower`: an enemy tower marker is damaged through the arena's tower table. */
  method AttackTower(arena: Arena, attacker: Unit, tile: Tile) returns (ok: bool)
    requires arena.Valid()
    modifies arena`towers, arena`grid
    ensures arena.Valid()
    ensures !(tile.TowerCell? && CanAttack(attacker, tile)) ==>
      ok && arena.towers == old(arena.towers) && arena.grid == old(arena.grid)
    // `ok` is false where `damage_tower` raises KeyError: a marker whose owner has no table entry
    ensures tile.TowerCell? && CanAttack(attacker, tile) ==>
      ok == (tile.owner in old(arena.towers))
      && arena.towers == DamagedTable(old(arena.towers), tile.owner, tile.name, attacker.Damage())
      && arena.grid == DamagedGrid(old(arena.grid), arena.height, arena.width, old(arena.towers),
                                   tile.owner, tile.name, attacker.Damage())
    ensures Progress(old(arena.towers), arena.towers)
    ensures Cleared(old(arena.grid), arena.grid, old(arena.towers))
    ensures Erased(old(arena.grid), arena.grid)
  {
    if !tile.TowerCell? {
      return true;
    }
    if !CanAttack(attacker, tile) {
      return true;
    }
    DamagedTableProgress(arena.towers, tile.owner, tile.name, attacker.Damage());
    DamagedGridCleared(arena.grid, arena.height, arena.width, arena.towers, tile.owner, tile.name, attacker.Damage());
    ok := arena.DamageTower(tile.owner, tile.name, attacker.Damage());
  }

  // ---------------------------------------------------------------------------
  // Tower fire
  // ---------------------------------------------------------------------------

  /** `best_dist`'s initial value, 10**9. */
  const BigDist := 1_000_000_000

  function TowerDamage(slot: Slot): int { if slot == King then 120 else 90 }

  function TowerRange(slot: Slot): int { if slot == King then 7 else 6 }

  function Abs(x: int): nat { if x < 0 then -x else x }

  /** Manhattan distance. */
  function Dist(a: (int, int), b: (int, int)): nat { Abs(a.0 - b.0) + Abs(a.1 - b.1) }

  /** A tower shoots only while alive, a king only once active, and only from a non-empty cell list. */
  predicate Fires(t: Tower, slot: Slot) {
    t.hp > 0 && !(slot == King && !t.active) && |t.cells| > 0
  }

  /** The cell holds a unit that the tower of `owner` scans as an enemy (any other owner, or none). */
  predicate EnemyOf(t: Cell, owner: int)
    reads UnitsAt(t)
  {
    HoldsUnit(t) && t.value.unit.owner != Some(owner)
  }

  /** The enemy-unit cells of row r among its first c columns, left to right. */
  function RowEnemies(g: Grid, owner: int, r: nat, c: nat): (s: seq<(int, int)>)
    requires r < |g| && c <= |g[r]|
    reads Units(g)
    ensures forall p :: p in s <==> p.0 == r && 0 <= p.1 < c && EnemyOf(g[r][p.1], owner)
    decreases c
  {
    if c == 0 then []
    else
      assert UnitsAt(g[r][c - 1]) <= Units(g);
      RowEnemies(g, owner, r, c - 1) + (if EnemyOf(g[r][c - 1], owner) then [(r as int, c - 1)] else [])
  }

  /** The enemy-unit cells of the first `rows` rows, in row-major order (the source's pre-scan). */
  function GridEnemies(g: Grid, owner: int, rows: nat): (s: seq<(int, int)>)
    requires rows <= |g|
    reads Units(g)
    ensures forall p :: p in s <==> 0 <= p.0 < rows && 0 <= p.1 < |g[p.0]| && EnemyOf(g[p.0][p.1], owner)
    decreases rows
  {
    if rows == 0 then []
    else GridEnemies(g, owner, rows - 1) + RowEnemies(g, owner, rows - 1, |g[rows - 1]|)
  }

  function EnemyCells(g: Grid, owner: int): seq<(int, int)>
    reads Units(g)
  {
    GridEnemies(g, owner, |g|)
  }

  /** A (tower cell, enemy) pair that `tower_attacks` considers: in-bounds cell, within range. */
  predicate Candidate(cells: seq<(int, int)>, enemies: seq<(int, int)>, rng: int, height: int, width: int, i: int, j: int) {
    0 <= i < |cells| && 0 <= j < |enemies| && 0 <= cells[i].0 < height && 0 <= cells[i].1 < width
    && Dist(cells[i], enemies[j]) <= rng && Dist(cells[i], enemies[j]) < BigDist
  }

  /** Iteration order of the pair scan: cells outside, enemies inside. */
  predicate Before(i: int, j: int, i': int, j': int) { i < i' || (i == i' && j < j') }

  /**
   * `best` is the enemy of the first pair, in scan order, whose distance is the least of all
   * candidate pairs; None iff there is no candidate pair.
   */
  ghost predicate IsNearest(cells: seq<(int, int)>, enemies: seq<(int, int)>, rng: int, height: int, width: int,
                            best: Option<(int, int)>) {
    if best.None? then forall i, j :: !Candidate(cells, enemies, rng, height, width, i, j)
    else exists i, j :: (Candidate(cells, enemies, rng, height, width, i, j) && enemies[j] == best.value
                         && FirstClosest(cells, enemies, rng, height, width, i, j))
  }

  ghost predicate FirstClosest(cells: seq<(int, int)>, enemies: seq<(int, int)>, rng: int, height: int, width: int,
                               i: int, j: int)
    requires 0 <= i < |cells| && 0 <= j < |enemies|
  {
    (forall i', j' :: Candidate(cells, enemies, rng, height, width, i', j') ==>
      Dist(cells[i'], enemies[j']) >= Dist(cells[i], enemies[j]))
    && (forall i', j' :: Candidate(cells, enemies, rng, height, width, i', j') && Before(i', j', i, j) ==>
      Dist(cells[i'], enemies[j']) > Dist(cells[i], enemies[j]))
  }

  /** At most one pair is the first closest one, so the target is determined. */
  lemma NearestUnique(cells: seq<(int, int)>, enemies: seq<(int, int)>, rng: int, height: int, width: int,
                      p: Option<(int, int)>, q: Option<(int, int)>)
    requires IsNearest(cells, enemies, rng, height, width, p)
    requires IsNearest(cells, enemies, rng, height, width, q)
    ensures p == q
  {
    if p.Some? && q.Some? {
      var i, j :| Candidate(cells, enemies, rng, height, width, i, j) && enemies[j] == p.value
        && FirstClosest(cells, enemies, rng, height, width, i, j);
      var i', j' :| Candidate(cells, enemies, rng, height, width, i', j') && enemies[j'] == q.value
        && FirstClosest(cells, enemies, rng, height, width, i', j');
      assert !Before(i, j, i', j') && !Before(i', j', i, j);
    }
  }

  /**
   * The pair scan has visited every pair before (i, j): `best` is the enemy of the first closest
   * candidate pair so far, (bi, bj), at distance `bestDist`; None (with the sentinel distance)
   * when no pair so far is a candidate.
   */
  ghost predicate Scanned(cells: seq<(int, int)>, enemies: seq<(int, int)>, rng: int, height: int, width: int,
                          i: int, j: int, best: Option<(int, int)>, bestDist: int, bi: int, bj: int) {
    if best.None? then
      bestDist == BigDist
      && forall i', j' :: Candidate(cells, enemies, rng, height, width, i', j') ==> !Before(i', j', i, j)
    else
      Candidate(cells, enemies, rng, height, width, bi, bj) && Before(bi, bj, i, j)
      && best.value == enemies[bj] && bestDist == Dist(cells[bi], enemies[bj])
      && (forall i', j' :: Candidate(cells, enemies, rng, height, width, i', j') && Before(i', j', i, j) ==>
            Dist(cells[i'], enemies[j']) >= bestDist)
      && (forall i', j' :: Candidate(cells, enemies, rng, height, width, i', j') && Before(i', j', bi, bj) ==>
            Dist(cells[i'], enemies[j']) > bestDist)
  }

  /** The inner loop of the pair scan: tower cell i against every enemy. */
  method ScanCellPairs(cells: seq<(int, int)>, enemies: seq<(int, int)>, rng: int, height: int, width: int, i: int,
                       best: Option<(int, int)>, bestDist: int, ghost bi: int, ghost bj: int)
    returns (best': Option<(int, int)>, bestDist': int, ghost bi': int, ghost bj': int)
    requires 0 <= i < |cells| && 0 <= cells[i].0 < height && 0 <= cells[i].1 < width
    requires Scanned(cells, enemies, rng, height, width, i, 0, best, bestDist, bi, bj)
    ensures Scanned(cells, enemies, rng, height, width, i + 1, 0, best', bestDist', bi', bj')
  {
    best', bestDist', bi', bj' := best, bestDist, bi, bj;
    var (tr, tc) := cells[i];
    for j := 0 to |enemies|
      invariant Scanned(cells, enemies, rng, height, width, i, j, best', bestDist', bi', bj')
    {
      var (er, ec) := enemies[j];
      var dist := Abs(er - tr) + Abs(ec - tc);
      if dist <= rng && dist < bestDist' {
        bestDist' := dist;
        best' := Some((er, ec));
        bi', bj' := i, j;
      }
    }
  }

  /** The `best_dist` / `best_target` scan of `tower_attacks`. */
  method NearestEnemy(cells: seq<(int, int)>, enemies: seq<(int, int)>, rng: int, height: int, width: int)
    returns (best: Option<(int, int)>)
    ensures IsNearest(cells, enemies, rng, height, width, best)
  {
    var bestDist := BigDist;
    best := None;
    ghost var bi, bj := 0, 0;
    for i := 0 to |cells|
      invariant Scanned(cells, enemies, rng, height, width, i, 0, best, bestDist, bi, bj)
    {
      var (tr, tc) := cells[i];
      if !(0 <= tr < height && 0 <= tc < width) {
        continue;
      }
      best, bestDist, bi, bj := ScanCellPairs(cells, enemies, rng, height, width, i, best, bestDist, bi, bj);
    }
    if best.Some? {
      assert FirstClosest(cells, enemies, rng, height, width, bi, bj);
    }
  }

  /** The pre-scan of `tower_attacks`: every enemy-unit cell of the arena, row by row. */
  method ScanEnemies(arena: Arena, owner: int) returns (enemies: seq<(int, int)>)
    requires arena.Valid()
    ensures enemies == EnemyCells(arena.grid, owner) && enemies == old(EnemyCells(arena.grid, owner))
    ensures forall p :: p in enemies <==> arena.InBounds(p.0, p.1) && EnemyOf(arena.grid[p.0][p.1], owner)
  {
    enemies := [];
    for r := 0 to arena.height
      invariant enemies == GridEnemies(arena.grid, owner, r)
    {
      for c := 0 to arena.width
        invariant enemies == GridEnemies(arena.grid, owner, r) + RowEnemies(arena.grid, owner, r, c)
      {
        var tile := arena.grid[r][c];  // `arena.get(r, c)` on an in-bounds cell
        assert UnitsAt(tile) <= Units(arena.grid);
        if EnemyOf(tile, owner) {
          enemies := enemies + [(r, c)];
        }
      }
    }
  }

  /**
   * The aiming part of a tower's turn in `tower_attacks`, for a tower that fires: the enemy scan
   * and the nearest-pair scan. `target` is None when no enemy is in range, otherwise a cell
   * holding a unit of another owner (or none).
   */
  method TakeAim(arena: Arena, owner: int, slot: Slot) returns (target: Option<(int, int)>)
    requires arena.Valid() && owner in arena.towers && Fires(arena.towers[owner][slot], slot)
    ensures IsNearest(arena.towers[owner][slot].cells, old(EnemyCells(arena.grid, owner)), TowerRange(slot),
                      arena.height, arena.width, target)
    ensures target.Some? ==>
      var (r, c) := target.value;
      arena.InBounds(r, c) && HoldsUnit(arena.grid[r][c]) && arena.grid[r][c].value.unit.owner != Some(owner)
  {
    var t := arena.towers[owner][slot];
    var enemies := ScanEnemies(arena, owner);
    if |enemies| == 0 {
      return None;
    }
    target := NearestEnemy(t.cells, enemies, TowerRange(slot), arena.height, arena.width);
    if target.Some? {
      var (r, c) := target.value;
      assert (r, c) in enemies;
    }
  }

  /**
   * One tower's turn in `tower_attacks`. `target` is the chosen cell (None when the tower does not
   * fire or no enemy is in range). The target loses the tower's damage and leaves the grid once
   * its hp is <= 0, unless it is ownerless (the final `is_enemy` guard).
   */
  method FireTower(arena: Arena, owner: int, slot: Slot) returns (target: Option<(int, int)>)
    requires arena.Valid() && owner in arena.towers
    modifies arena`grid, Units(arena.grid)`hp
    ensures arena.Valid()
    ensures OnlyUnitsRemoved(old(arena.grid), arena.grid) && Killed(old(arena.grid), arena.grid)
    ensures forall u :: u in Units(old(arena.grid)) ==> u.Hp() <= old(u.Hp())
    ensures !Fires(arena.towers[owner][slot], slot) ==> target.None?
    ensures Fires(arena.towers[owner][slot], slot) ==>
      IsNearest(arena.towers[owner][slot].cells, old(EnemyCells(arena.grid, owner)), TowerRange(slot),
                arena.height, arena.width, target)
    ensures target.None? ==>
      arena.grid == old(arena.grid) && forall u :: u in Units(old(arena.grid)) ==> u.hp == old(u.hp)
    ensures target.Some? ==>
      var (r, c) := target.value;
      var g0 := old(arena.grid);
      arena.InBounds(r, c) && HoldsUnit(g0[r][c]) && old(g0[r][c].value.unit.owner) != Some(owner)
      && (forall u :: u in Units(g0) && u != g0[r][c].value.unit ==> u.hp == old(u.hp))
    ensures target.Some? ==>
      var (r, c) := target.value;
      var g0 := old(arena.grid);
      var u := g0[r][c].value.unit;
      if IsEnemy(Some(owner), u.owner) then
        u.hp == Some(old(u.Hp()) - TowerDamage(slot))
        && arena.grid == (if u.Hp() <= 0 then Write(g0, r, c, None) else g0)
      else
        u.hp == old(u.hp) && arena.grid == g0
  {
    target := None;
    if Fires(arena.towers[owner][slot], slot) {
      target := TakeAim(arena, owner, slot);
      if target.Some? {
        var (r, c) := target.value;
        Strike(arena, owner, r, c, TowerDamage(slot));
      }
    }
  }

  /** The end of a tower's turn: the chosen unit is hit unless the owner guard says otherwise. */
  method Strike(arena: Arena, owner: int, r: int, c: int, dmg: int)
    requires arena.Valid() && arena.InBounds(r, c) && HoldsUnit(arena.grid[r][c])
    modifies arena`grid, UnitsAt(arena.grid[r][c])`hp
    ensures arena.Valid()
    ensures OnlyUnitsRemoved(old(arena.grid), arena.grid) && Killed(old(arena.grid), arena.grid)
    ensures dmg >= 0 ==> forall v :: v in Units(old(arena.grid)) ==> v.Hp() <= old(v.Hp())
    ensures forall v :: v in Units(old(arena.grid)) && v != old(arena.grid)[r][c].value.unit ==> v.hp == old(v.hp)
    ensures var g0 := old(arena.grid);
      var u := g0[r][c].value.unit;
      if IsEnemy(Some(owner), u.owner) then
        u.hp == Some(old(u.Hp()) - dmg)
        && arena.grid == (if u.Hp() <= 0 then Write(g0, r, c, None) else g0)
      else
        u.hp == old(u.hp) && arena.grid == g0
  {
    var u := arena.Get(r, c).value.unit;
    if IsEnemy(Some(owner), u.owner) {
      u.hp := Some(u.Hp() - dmg);
      if u.Hp() <= 0 {
        var _ := arena.Set(r, c, None);
      }
    }
  }

  /** FireTower, with only what a sequence of tower turns needs of it. */
  method TowerTurn(arena: Arena, owner: int, slot: Slot)
    requires arena.Valid() && owner in arena.towers
    modifies arena`grid, Units(arena.grid)`hp
    ensures arena.Valid()
    ensures OnlyUnitsRemoved(old(arena.grid), arena.grid) && Killed(old(arena.grid), arena.grid)
    ensures forall u :: u in Units(old(arena.grid)) ==> u.Hp() <= old(u.Hp())
  {
    var _ := FireTower(arena, owner, slot);
  }

  /** The three towers of one owner, left, right, king, each take one turn. */
  method OwnerTowersFire(arena: Arena, owner: int)
    requires arena.Valid() && owner in arena.towers
    modifies arena`grid, Units(arena.grid)`hp
    ensures arena.Valid()
    ensures OnlyUnitsRemoved(old(arena.grid), arena.grid) && Killed(old(arena.grid), arena.grid)
    ensures forall u :: u in Units(old(arena.grid)) ==> u.Hp() <= old(u.Hp())
  {
    for k := 0 to |Slots|
      invariant arena.Valid()
      invariant OnlyUnitsRemoved(old(arena.grid), arena.grid) && Killed(old(arena.grid), arena.grid)
      invariant forall u :: u in Units(old(arena.grid)) ==> u.Hp() <= old(u.Hp())
    {
      ErasedUnits(old(arena.grid), arena.grid);
      ghost var g1 := arena.grid;
      KilledSnapshot(old(arena.grid), g1);
      ghost var hp1 := HpOf(Units(old(arena.grid)));
      TowerTurn(arena, owner, Slots[k]);
      KilledTrans(old(arena.grid), g1, arena.grid, hp1);
      OnlyUnitsRemovedTrans(old(arena.grid), g1, arena.grid);
    }
  }

  /**
   * `tower_attacks`: every tower, in table order (owners, then left, right, king), takes one turn
   * against the current grid. Units only lose hp, and leave the grid only at hp <= 0; markers and the tower table
   * stay as they are.
   */
  method TowerAttacks(arena: Arena)
    requires arena.Valid()
    modifies arena`grid, Units(arena.grid)`hp
    ensures arena.Valid()
    ensures OnlyUnitsRemoved(old(arena.grid), arena.grid) && Killed(old(arena.grid), arena.grid)
    ensures forall u :: u in Units(old(arena.grid)) ==> u.Hp() <= old(u.Hp())
  {
    if arena.towers == map[] {
      return;
    }
    for i := 0 to |arena.towerOrder|
      invariant arena.Valid()
      invariant OnlyUnitsRemoved(old(arena.grid), arena.grid) && Killed(old(arena.grid), arena.grid)
      invariant forall u :: u in Units(old(arena.grid)) ==> u.Hp() <= old(u.Hp())
    {
      ErasedUnits(old(arena.grid), arena.grid);
      ghost var g1 := arena.grid;
      KilledSnapshot(old(arena.grid), g1);
      ghost var hp1 := HpOf(Units(old(arena.grid)));
      OwnerTowersFire(arena, arena.towerOrder[i]);
      KilledTrans(old(arena.grid), g1, arena.grid, hp1);
      OnlyUnitsRemovedTrans(old(arena.grid), g1, arena.grid);
    }
  }
}
