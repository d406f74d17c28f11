/** Ownership and deploy rules (game/rules.py): pure predicates over arena queries. */
module Rules {
  import opened Wrappers
  import opened Tiles
  import opened Arenas

  /** `is_enemy`: two known, different owners. Unknown owners are never enemies. */
  function IsEnemy(a: Option<int>, b: Option<int>): (r: bool)
    ensures r ==> a.Some? && b.Some? && a != b
    ensures a.Some? && b.Some? && a != b ==> r
  {
    if a.None? || b.None? then false else a.value != b.value
  }

  /** `is_player1` */
  predicate IsPlayer1(arena: Arena, ownerId: int) {
    Some(ownerId) == arena.p1Id
  }

  /** `is_player2` */
  predicate IsPlayer2(arena: Arena, ownerId: int) {
    Some(ownerId) == arena.p2Id
  }

  /** `river_cols`: (min, max) of the arena's river columns. */
  function RiverCols(arena: Arena): (r: (int, int))
    ensures r.0 == arena.width / 2 - 1 && r.1 == arena.width / 2
    ensures r.0 + 1 == r.1
  {
    var cols := arena.riverCols;
    (if cols[0] <= cols[1] then cols[0] else cols[1], if cols[0] <= cols[1] then cols[1] else cols[0])
  }

  /** `rules.is_river_column`: agrees with the arena's own membership test. */
  function IsRiverColumn(arena: Arena, col: int): (r: bool)
    ensures r <==> arena.IsRiverColumn(col)
    ensures r <==> col == arena.width / 2 - 1 || col == arena.width / 2
  {
    var (left, right) := RiverCols(arena);
    col == left || col == right
  }

  /**
   * `is_on_owner_side`: the first player owns the columns left of the river, the second player
   * the columns right of it, anybody else nothing. When both ids are equal the first test wins.
   */
  function IsOnOwnerSide(arena: Arena, ownerId: int, col: int): (r: bool)
    ensures IsPlayer1(arena, ownerId) ==> (r <==> col < arena.width / 2 - 1)
    ensures !IsPlayer1(arena, ownerId) && IsPlayer2(arena, ownerId) ==>
      (r <==> col > arena.width / 2)
    ensures !IsPlayer1(arena, ownerId) && !IsPlayer2(arena, ownerId) ==> !r
    ensures r ==> !IsRiverColumn(arena, col)
  {
    var (left, right) := RiverCols(arena);
    if IsPlayer1(arena, ownerId) then col < left
    else if IsPlayer2(arena, ownerId) then col > right
    else false
  }

  /**
   * `is_valid_deploy`: in bounds, empty, off the river, not a tower cell and on the owner's side.
   * So a deploy is never legal on the river, on a tower marker, or on the opponent's half.
   */
  function IsValidDeploy(arena: Arena, ownerId: int, row: int, col: int): (ok: bool)
    reads arena
    requires arena.Valid()
    ensures ok <==>
      arena.InBounds(row, col) && arena.grid[row][col].None? && !arena.IsRiverColumn(col)
      && !arena.IsTowerCell(row, col) && IsOnOwnerSide(arena, ownerId, col)
    ensures ok ==> arena.IsEmpty(row, col)
    ensures ok && IsPlayer1(arena, ownerId) ==> col < arena.width / 2 - 1
    ensures ok && !IsPlayer1(arena, ownerId) ==>
      IsPlayer2(arena, ownerId) && col > arena.width / 2
  {
    if !arena.InBounds(row, col) then false
    else if arena.Get(row, col).Some? then false
    else if arena.IsRiverColumn(col) then false
    else if arena.IsTowerCell(row, col) then false
    else IsOnOwnerSide(arena, ownerId, col)
  }
}
