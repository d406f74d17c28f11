/**
 * A match (game/match.py): two participants, an active flag, the legacy turn index, and the
 * arena. It validates placements, runs one simulation step (movement, then tower fire), decides
 * the winner once a king tower falls, and ends at most once.
 */
module Matches {
  import opened Wrappers
  import opened Tiles
  import opened Arenas
  import opened Rules
  import opened Combat
  import opened Movement
  import opened Players

  const ArenaWidth := 16
  const ArenaHeight := 10

  /** The stats `place_unit_for_player` fills in when a unit record lacks them. */
  const DefaultUnitHp := 100
  const DefaultUnitDamage := 50
  const DefaultUnitRange := 1
  const DefaultUnitSpeed := 1
  const DefaultUnitEmoji := "\U{1F93A}"

  /** The tower table's insertion order for the two participants' ids. */
  function TowerOrder(id1: int, id2: int): (order: seq<int>)
    ensures id1 in order && id2 in order
    ensures id1 == id2 <==> |order| == 1
  {
    if id1 == id2 then [id1] else [id1, id2]
  }

  /** `setdefault` on one optional key. */
  function WithDefault<T>(v: Option<T>, default: T): (r: Option<T>)
    ensures r.Some?
    ensures v.Some? ==> r == v
  {
    if v.Some? then v else Some(default)
  }

  class Match {
    const p1: Player
    const p2: Player
    const arena: Arena
    var active: bool
    var turnIndex: int

    /**
     * The arena is the 16x10 board built for the two participants' ids, keeps their tower order
     * and names only owners of the tower table on its markers; the turn index is 0 or 1.
     */
    ghost predicate Valid()
      reads this, arena
    {
      Board() && 0 <= turnIndex <= 1
    }

    /** The board part of Valid, which does not depend on the match's own mutable fields. */
    ghost predicate Board()
      reads arena
    {
      arena.Valid()
      && arena.width == ArenaWidth && arena.height == ArenaHeight
      && arena.p1Id == Some(p1.userId) && arena.p2Id == Some(p2.userId)
      && arena.towerOrder == TowerOrder(p1.userId, p2.userId)
      && MarkersKnown(arena.grid, arena.towers)
    }

    constructor (p1: Player, p2: Player)
      ensures Valid() && fresh(arena)
      ensures this.p1 == p1 && this.p2 == p2 && active && turnIndex == 0
      ensures arena.towers == map[p1.userId := P1Layout][p2.userId := P2Layout]
      ensures arena.grid == Synced(EmptyGrid(ArenaHeight, ArenaWidth), ArenaHeight, ArenaWidth,
                                   arena.towers, arena.towerOrder)
    {
      this.p1 := p1;
      this.p2 := p2;
      active := true;
      turnIndex := 0;
      var a := new Arena(ArenaWidth, ArenaHeight, Some(p1.userId), Some(p2.userId));
      SyncedKnown(EmptyGrid(ArenaHeight, ArenaWidth), ArenaHeight, ArenaWidth, a.towers, a.towerOrder);
      arena := a;
    }

    /** `current_player` */
    function CurrentPlayer(): (p: Player)
      reads this
      requires 0 <= turnIndex <= 1
      ensures p == (if turnIndex == 0 then p1 else p2)
    {
      [p1, p2][turnIndex]
    }

    /** `opponent`: the participant whose turn it is not. */
    function Opponent(): (p: Player)
      reads this
      requires 0 <= turnIndex <= 1
      ensures p == (if turnIndex == 0 then p2 else p1)
    {
      [p1, p2][1 - turnIndex]
    }

    /** `get_player_by_id`: the first participant with this id, None for an outsider. */
    function GetPlayerById(userId: int): (r: Option<Player>)
      ensures r.None? <==> userId != p1.userId && userId != p2.userId
      ensures r.Some? ==> r.value.userId == userId && (r.value == p1 || r.value == p2)
      ensures userId == p1.userId ==> r == Some(p1)
    {
      if p1.userId == userId then Some(p1)
      else if p2.userId == userId then Some(p2)
      else None
    }

    /** `opponent_id`: the other participant's id (player 1 is checked first), None for an outsider. */
    function OpponentId(userId: int): (r: Option<int>)
      ensures r.None? <==> userId != p1.userId && userId != p2.userId
      ensures userId == p1.userId ==> r == Some(p2.userId)
      ensures userId != p1.userId && userId == p2.userId ==> r == Some(p1.userId)
    {
      if p1.userId == userId then Some(p2.userId)
      else if p2.userId == userId then Some(p1.userId)
      else None
    }

    /** `next_turn`: toggles the turn index between 0 and 1. */
    method NextTurn()
      modifies this`turnIndex
      ensures turnIndex == 1 - old(turnIndex)
      ensures 0 <= old(turnIndex) <= 1 ==> 0 <= turnIndex <= 1 && turnIndex != old(turnIndex)
    {
      turnIndex := 1 - turnIndex;
    }

    /**
     * `place_unit_for_player`: an invalid deployment changes nothing and returns false. A valid
     * one forces the owner, fills in the missing stats and writes the unit into the cell. No energy
     * and no cooldown is touched.
     */
    method PlaceUnitForPlayer(ownerId: int, row: int, col: int, unit: Unit) returns (ok: bool)
      requires Valid()
      modifies arena`grid, unit`owner, unit`hp, unit`damage, unit`range, unit`speed, unit`emoji
      ensures Valid()
      ensures ok == old(IsValidDeploy(arena, ownerId, row, col))
      ensures !ok ==> arena.grid == old(arena.grid) && unit.Data() == old(unit.Data())
      ensures ok ==> arena.grid == Write(old(arena.grid), row, col, Some(UnitCell(unit)))
      ensures ok ==> unit.owner == Some(ownerId)
                     && unit.hp == WithDefault(old(unit.hp), DefaultUnitHp)
                     && unit.damage == WithDefault(old(unit.damage), DefaultUnitDamage)
                     && unit.range == WithDefault(old(unit.range), DefaultUnitRange)
                     && unit.speed == WithDefault(old(unit.speed), DefaultUnitSpeed)
                     && unit.emoji == WithDefault(old(unit.emoji), DefaultUnitEmoji)
    {
      if !IsValidDeploy(arena, ownerId, row, col) {
        return false;
      }
      unit.owner := Some(ownerId);
      unit.hp := WithDefault(unit.hp, DefaultUnitHp);
      unit.damage := WithDefault(unit.damage, DefaultUnitDamage);
      unit.range := WithDefault(unit.range, DefaultUnitRange);
      unit.speed := WithDefault(unit.speed, DefaultUnitSpeed);
      unit.emoji := WithDefault(unit.emoji, DefaultUnitEmoji);
      WrittenUnitKnown(arena.grid, row, col, unit, arena.towers);
      ok := arena.Set(row, col, Some(UnitCell(unit)));
    }

    /**
     * `step_turn`: nothing happens in a finished match. Otherwise units move first and towers
     * fire second, on the grid the movement left (`moved`). `ok` would be false if movement stopped
     * on a marker whose owner has no towers (a KeyError); in a match every marker's owner is in the
     * table (`Board`), so that never happens.
     */
    method StepTurn() returns (ok: bool, ghost moved: Grid)
      requires Valid()
      modifies arena`grid, arena`towers, Units(arena.grid)`hp
      ensures Valid()
      ensures !old(active) ==> ok && arena.grid == old(arena.grid) && arena.towers == old(arena.towers)
      ensures !old(active) ==> forall u :: u in Units(old(arena.grid)) ==> u.hp == old(u.hp)
      ensures Progress(old(arena.towers), arena.towers)
      ensures ok
      ensures old(active) ==> TurnTrace(old(arena.grid), moved, arena.grid, arena.p1Id)
    {
      moved := arena.grid;
      if !active {
        return true, moved;
      }
      ghost var g0 := arena.grid;
      ok := StepMovement(arena);
      moved := arena.grid;
      TracedUnits(g0, moved, arena.p1Id);
      TowerAttacks(arena);
      ErasedKnown(moved, arena.grid, arena.towers);
    }

    /**
     * `check_win`: no winner while every king stands; otherwise the participant other than the
     * owner of the first fallen king in tower order.
     */
    function CheckWin(): (r: Option<Player>)
      reads arena
      requires Board()
      ensures r.Some? ==> r.value == p1 || r.value == p2
      ensures p1.userId != p2.userId && r == Some(p1) ==>
        arena.towers[p2.userId][King].hp <= 0 && arena.towers[p1.userId][King].hp > 0
      ensures p1.userId != p2.userId && r == Some(p2) ==> arena.towers[p1.userId][King].hp <= 0
    {
      var dead := arena.AnyKingDead();
      if dead.None? then None
      else
        var winnerId := OpponentId(dead.value);
        if winnerId.None? then None
        else GetPlayerById(winnerId.value)
    }

    /** The active-flag part of `end_match_channel`: only an active match ends, and it ends once. */
    method EndMatch() returns (ended: bool)
      modifies this`active
      ensures ended == old(active)
      ensures !active
    {
      if !active {
        return false;
      }
      active := false;
      ended := true;
    }

    /**
     * The locked part of one realtime loop pass, with the clock reduced to `elixirDue`: energy
     * and cooldowns for both participants when due, then `Advance`.
     */
    method Tick(elixirDue: bool) returns (ok: bool, winner: Option<Player>, ghost moved: Grid)
      requires Valid()
      modifies p1`energy, p1`cooldowns, p2`energy, p2`cooldowns, this`active
      modifies arena`grid, arena`towers, Units(arena.grid)`hp
      ensures Valid()
      ensures elixirDue && p1 != p2 ==> Refreshed(p1, old(p1.energy), old(p1.cooldowns))
                                        && Refreshed(p2, old(p2.energy), old(p2.cooldowns))
      ensures !elixirDue ==> p1.energy == old(p1.energy) && p1.cooldowns == old(p1.cooldowns)
                             && p2.energy == old(p2.energy) && p2.cooldowns == old(p2.cooldowns)
      ensures ok && winner == CheckWin()
      ensures winner.Some? ==> !active
      ensures winner.None? ==> active == old(active)
      ensures Progress(old(arena.towers), arena.towers)
      ensures old(active) ==> TurnTrace(old(arena.grid), moved, arena.grid, arena.p1Id)
    {
      if elixirDue {
        Refresh(p1);
        Refresh(p2);
      }
      ok, winner, moved := Advance();
    }

    /**
     * A simulation step, then the win check; a winner ends the match. The step never stops on a
     * KeyError here, so `ok` always holds.
     */
    method Advance() returns (ok: bool, winner: Option<Player>, ghost moved: Grid)
      requires Valid()
      modifies this`active, arena`grid, arena`towers, Units(arena.grid)`hp
      ensures Valid()
      ensures ok && winner == CheckWin()
      ensures winner.Some? ==> !active
      ensures winner.None? ==> active == old(active)
      ensures Progress(old(arena.towers), arena.towers)
      ensures old(active) ==> TurnTrace(old(arena.grid), moved, arena.grid, arena.p1Id)
    {
      ok, moved := StepTurn();
      winner := Conclude();
    }

    /** The end of `step`: `check_win`, and `end_match` once there is a winner. */
    method Conclude() returns (winner: Option<Player>)
      requires Valid()
      modifies this`active
      ensures Valid()
      ensures winner == CheckWin()
      ensures winner.Some? ==> !active
      ensures winner.None? ==> active == old(active)
    {
      winner := CheckWin();
      if winner.Some? {
        var _ := EndMatch();
      }
    }
  }

  /** The elixir timer's work for one participant: `regen_energy`, then `tick_cooldowns`. */
  method Refresh(p: Player)
    modifies p`energy, p`cooldowns
    ensures Refreshed(p, old(p.energy), old(p.cooldowns))
  {
    p.RegenEnergy();
    p.TickCooldowns();
  }

  /**
   * One simulation step's effect on the grid: `moved` is g0 after movement, and from `moved`
   * to g tower fire emptied only unit cells, each holding a unit whose hp is now at most 0.
   */
  ghost predicate TurnTrace(g0: Grid, moved: Grid, g: Grid, p1Id: Option<int>)
    reads Units(moved)`owner, Units(moved)`hp
  {
    Traced(g0, moved, p1Id) && OnlyUnitsRemoved(moved, g) && Killed(moved, g)
  }

  /** p's energy and cooldowns are those `Refresh` makes of `energy` and `cooldowns`. */
  ghost predicate Refreshed(p: Player, energy: int, cooldowns: map<string, int>)
    reads p
  {
    p.energy == Min(p.maxEnergy, energy + p.energyRegen) && p.cooldowns == Ticked(cooldowns)
  }

  /** `opponent_id` is its own inverse on the participants when their ids differ. */
  lemma OpponentInvolution(m: Match, userId: int)
    requires m.p1.userId != m.p2.userId
    requires userId == m.p1.userId || userId == m.p2.userId
    ensures m.OpponentId(userId).Some? && m.OpponentId(m.OpponentId(userId).value) == Some(userId)
    ensures m.OpponentId(userId) != Some(userId)
  {
  }

  /** There is a winner exactly when some participant's king tower has fallen. */
  lemma WinnerIffKingFallen(m: Match)
    requires m.Board()
    ensures m.CheckWin().None? <==> forall o :: o in m.arena.towers ==> m.arena.towers[o][King].hp > 0
  {
    var dead := m.arena.AnyKingDead();
    if dead.Some? {
      assert m.OpponentId(dead.value).Some?;
    }
  }

  /** The winner is never the owner of a fallen king that decided the match: when both kings have fallen, player 2 wins. */
  lemma WinnerSurvives(m: Match)
    requires m.Board() && m.p1.userId != m.p2.userId
    requires m.CheckWin().Some?
    ensures var w := m.CheckWin().value;
      m.arena.towers[m.OpponentId(w.userId).value][King].hp <= 0
    ensures m.arena.towers[m.p1.userId][King].hp <= 0 && m.arena.towers[m.p2.userId][King].hp <= 0 ==>
      m.CheckWin() == Some(m.p2)
  {
  }
}
