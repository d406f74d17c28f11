# clash-royal match engine, modelled in Dafny

This project models the match engine of the clash-royal grid card battler. The match is played on a
16 x 10 grid for two participants. Each participant owns three towers: a left flank, a right flank
and a king. A river of two columns runs down the middle of the grid.

The model covers these parts of the engine:

- **Placement.** A unit may be placed on an empty, non-river, non-tower cell on its owner's side.
- **Movement.** Each tick, every owned unit is scanned from the old grid. It then either advances
  one column toward the enemy, stays put, attacks an enemy unit in front of it, or attacks the
  tower in front of it.
- **Tower fire.** Every living tower, and a king only once it is active, strikes the enemy unit
  nearest to its cells within its range. The first of several equally near enemies, in scan order,
  is the one struck.
- **Towers and the win.** Tower hp is clamped at 0. Losing a flank activates the king. The first
  participant whose king falls loses.
- **The players.** Each player has energy with a cap and a regeneration step, and card cooldowns
  counted down once per tick.
- **Cards.** A card has default stats. It can be played when affordable and not cooling down. It
  converts to a unit record.
- **Effects.** The legacy special-effect table.
- **Save files.** The card lists of a save file are sanitised.

Each participant is a `class` (`Players.Player`), and so are the arena (`Arenas.Arena`), a match
(`Matches.Match`) and every unit tile (`Tiles.Unit`). The source mutates unit dicts in place, and
the same dict is reachable from both the old and the new grid of a movement step, so a unit must
be an object. Tower markers on the grid are values, because they are never mutated. The tower
table is a map from owner id to a map from slot to tower. Its `towerOrder` field records the
table's insertion order, which decides the order of iteration.

### Behaviour of the code as written

The model follows the code, including these behaviours:

- A unit that kills a tower during movement does not clear that tower's marker. `damage_tower`
  empties the cells of the old grid, but the new grid already holds a copy of the marker, and the
  new grid then replaces the old one.
- A unit that attacks a tower marker whose owner has no tower entry stops the movement step with
  a KeyError. `StepMovement` reports this as `ok == false`. In a match every marker's owner is in
  the table (`Matches.Match.Board`), so `StepTurn` always ends with `ok`.
- When both kings are dead, player 2 wins. Player 1's king is checked first, so player 1 is the
  loser.
- Tiles written by `Card.create_unit` carry the card category in `"type"`. Such a tile is not a
  unit for `unit.is_unit`, unlike a tile written by `make_unit_from_card`.

## Model

| member | source | states |
|---|---|---|
| Coords.CoordToRc | game/coords.py:2-15 | parses exactly the trimmed, case-folded texts of a letter followed by digits; row is the letter's offset from 'A' (0..25), column is the number minus one, with no range check |
| Coords.RcToCoord | game/coords.py:18-19 | a letter 'A'+row followed by the decimal of col+1; None (ValueError of chr) exactly when 'A'+row is no code point |
| Coords.RoundTrip | game/coords.py:2-19 | parsing the text formatted from (row, col), row 0..25 and col >= -1, gives (row, col) back |
| Coords.DecimalRoundTrip | game/coords.py:14 | reading back the decimal digits of n gives n |
| Coords.StripPadded | game/coords.py:3 | spaces around a coordinate text are ignored |
| Coords.ParseExample | game/coords.py:2-15 | " c4 " parses to (2, 3) |
| Coords.NoRangeCheck | game/coords.py:2-15 | "A0" parses to column -1: bounds are left to the caller |
| Rules.IsEnemy | game/rules.py:10-13 | two owners are enemies exactly when both are known and they differ |
| Rules.RiverCols | game/rules.py:28-32 | the river is the two adjacent columns width/2-1 and width/2 |
| Rules.IsRiverColumn | game/rules.py:35-37 | a column is river exactly when it is one of those two, agreeing with the arena's own test |
| Rules.IsOnOwnerSide | game/rules.py:44-59 | player 1 owns the columns left of the river, player 2 those right of it, an outsider none; the owner's side never includes the river |
| Rules.IsValidDeploy | game/rules.py:62-91 | a deployment is valid exactly when the cell is in bounds, empty, not river, not a tower and on the owner's side |
| Arenas.LayoutsComplete | game/arena.py:63-79 | both tower layouts give a left, a right and a king tower |
| Arenas.Arena.constructor | game/arena.py:33-58 | the grid is empty with both participants' towers synced onto it; the table has p1's then p2's layout, and no towers without two ids |
| Arenas.Arena.InitTowers | game/arena.py:63-79 | the table maps p1 and p2 to their layouts, in that order, p2 winning when the ids coincide |
| Arenas.Arena.InBoundsCells | game/arena.py:84-85 | the in-bounds positions are exactly the row and cell indices of the grid |
| Arenas.Arena.Get | game/arena.py:87-90 | the cell's content, None outside the grid |
| Arenas.Arena.Set | game/arena.py:92-95 | an in-bounds write replaces exactly that cell; out of bounds nothing changes and ok is false (the ValueError) |
| Arenas.Arena.IsRiverColumn | game/arena.py:129-130 | a column is river exactly when it is one of the two middle columns width/2-1 and width/2 |
| Arenas.Arena.TowerCellMarked | game/arena.py:135-137 | a tower cell is exactly an in-bounds cell holding a marker, and it is never empty |
| Arenas.Arena.IsEmpty | game/arena.py:97-98 | a cell is empty exactly when it is in bounds and `get` returns nothing |
| Arenas.Arena.Place | game/arena.py:100-105 | places the object exactly when the cell is empty, otherwise changes nothing |
| Arenas.Arena.TowerAt | game/arena.py:139-147 | the owner and slot of the marker at the cell, None exactly when the cell holds no marker |
| Arenas.ClearTowers | game/arena.py:153-159 | every tower marker becomes empty; every other cell is kept |
| Arenas.Arena.ClearTowersFromGrid | game/arena.py:153-159 | the grid becomes ClearTowers of the old grid |
| Arenas.Arena.PlaceTowersOnGrid | game/arena.py:161-182 | the grid becomes the synced grid of the old grid and the tower table |
| Arenas.SyncedMarkers | game/arena.py:161-182 | after syncing, a cell holds a marker exactly when some living tower covers it; other cells keep their non-marker content |
| Arenas.SyncedAt | game/arena.py:161-182 | the synced cell is the marker of the last covering living tower written (the last owner in table order, then the last of left, right and king), otherwise the old cell with markers cleared |
| Arenas.SyncedIdempotent | game/arena.py:161-182 | syncing twice is syncing once |
| Arenas.Arena.PlaceOwnerMarkers | game/arena.py:171-182 | writes one owner's tower markers slot by slot |
| Arenas.Arena.Fill | game/arena.py:175-182 | writes one value into every in-bounds cell of a list |
| Arenas.DamagedTable | game/arena.py:184-208 | only the hit tower's hp changes, clamped at 0; a dead tower takes no damage; a fallen flank activates its king; no tower is ever deactivated |
| Arenas.DamagedGrid | game/arena.py:197-204 | the cells of a tower that this hit kills are emptied; nothing else changes |
| Arenas.DamagedTableProgress | game/arena.py:184-208 | damage keeps the table's owners, slots, cells and emojis, keeps dead towers dead and active kings active |
| Arenas.ProgressTrans | game/arena.py:184-208 | those guarantees compose over several hits |
| Arenas.DamagedGridCleared | game/arena.py:197-204 | the grid after a hit differs from the grid before only on cells of a tower that was alive before the hit |
| Arenas.ErasedKnown | game/arena.py:197-204 | emptying cells keeps every remaining marker's owner in the table |
| Arenas.SyncedKnown | game/arena.py:161-182 | syncing writes only markers of owners in the table |
| Arenas.Arena.DamageTower | game/arena.py:184-208 | applies DamagedTable and DamagedGrid; ok is false (the KeyError) exactly when the owner has no towers |
| Arenas.FirstDeadKing | game/arena.py:210-217 | the first index in table order whose king has fallen, every king before it standing |
| Arenas.Arena.AnyKingDead | game/arena.py:210-217 | None exactly when every king stands; otherwise the first owner in table order whose king has fallen |
| Tiles.ErasedUnits | game/combat.py:44-46 | emptying cells never brings a unit onto the grid |
| Tiles.OnlyUnitsRemovedTrans | game/combat.py:135-148 | emptying only unit cells twice is emptying only unit cells |
| Tiles.KilledSnapshot | game/combat.py:135-148 | the emptied cells' units at hp <= 0, recorded in a table of the current hp |
| Tiles.KilledTrans | game/combat.py:135-148 | "a unit leaves the grid only at hp <= 0" composes over two steps when no hp rises in between |
| Tiles.WriteCellsAt | game/arena.py:175-182 | a cell written by the list of cells holds the value; a cell outside the list is unchanged |
| Combat.IsTower | game/combat.py:12-13 | a tower tile is never a unit tile |
| Combat.IsUnit | game/combat.py:16-17 | a tile is a unit exactly when it is a dict that is not a tower marker |
| Combat.Owner | game/combat.py:24 | a tower marker's owner is its owner field; a unit's owner is its optional owner field |
| Combat.CanAttack | game/combat.py:20-24 | an attack needs two known, different owners; a unit never attacks itself |
| Combat.AttackUnit | game/combat.py:31-46 | a valid target loses the attacker's damage and is removed from the grid at hp <= 0; anything else changes nothing |
| Combat.AttackTower | game/combat.py:49-63 | a hostile attack on a tower damages it as DamageTower does; anything else changes nothing; either way the table only progresses and only cells of a living tower are emptied |
| Combat.RowEnemies | game/combat.py:102-113 | lists exactly the enemy-unit cells of one row prefix |
| Combat.GridEnemies | game/combat.py:102-113 | lists exactly the enemy-unit cells of the first rows |
| Combat.ScanEnemies | game/combat.py:102-113 | returns exactly the in-bounds cells holding a unit not owned by the tower's owner |
| Combat.NearestUnique | game/combat.py:118-130 | at most one target answers "first of the nearest in scan order" |
| Combat.ScanCellPairs | game/combat.py:118-130 | one tower cell's pass keeps the best-so-far invariant of the pair scan |
| Combat.NearestEnemy | game/combat.py:118-130 | returns the enemy of the first pair, in scan order, at the least distance within range; None exactly when no pair is in range |
| Combat.TakeAim | game/combat.py:87-130 | a firing tower aims at the nearest enemy by that rule, always an in-bounds unit of another owner |
| Combat.Strike | game/combat.py:135-148 | an enemy target loses the damage and is removed at hp <= 0; no other unit's hp changes |
| Combat.FireTower | game/combat.py:80-148 | a tower that cannot fire (dead, an inactive king, no cells) does nothing; otherwise it strikes the nearest enemy for 120 (king) or 90 (flank), with only that unit touched |
| Combat.TowerTurn | game/combat.py:80-148 | one tower's turn: only unit cells are emptied, each only once its unit's hp is at most 0, and no hp rises |
| Combat.OwnerTowersFire | game/combat.py:80-148 | one owner's three towers fire in turn: only unit cells are emptied, a unit leaves the grid only once its hp is at most 0, and no hp rises |
| Combat.TowerAttacks | game/combat.py:70-148 | all towers fire: markers and empty cells are kept, a unit leaves the grid only once its hp is at most 0, no unit's hp rises |
| Movement.Front | game/movement.py:48 | the cell ahead as seen by the scan: the new grid's content, else the old grid's |
| Movement.Stay | game/movement.py:81-84 | a staying unit is written back only when its cell of the new grid is still empty |
| Movement.Plan | game/movement.py:26-76 | an ownerless or non-unit tile is skipped; otherwise the unit advances into a free cell, besieges a tower ahead, fights an enemy unit ahead, or holds at the edge or behind a friend |
| Movement.TowersOnly | game/movement.py:18-23 | the next grid starts with only the old grid's tower markers |
| Movement.StayGrows | game/movement.py:81-84 | staying keeps the new grid traceable to the old one |
| Movement.AdvanceGrows | game/movement.py:50-56 | advancing one column toward the enemy keeps it traceable |
| Movement.FightGrows | game/movement.py:64-73 | the fight writes keep it traceable |
| Movement.StayKept | game/movement.py:81-84 | a stay fills at most the unit's own cell, with that unit, and empties nothing |
| Movement.AdvanceKept | game/movement.py:50-56 | an advance fills only the cell ahead, with the unit, and empties nothing |
| Movement.SiegeStep | game/movement.py:58-62 | a hostile unit damages the tower ahead as DamageTower does and stays, no hp changes; the table only progresses and only living tower cells are emptied; the KeyError of an unknown owner ends the step, and cannot happen when every marker's owner is known |
| Movement.FightStep | game/movement.py:64-73 | a hostile unit ahead loses the attacker's damage and is removed at hp <= 0; the attacker stays |
| Movement.ClashStep | game/movement.py:64-73 | the fight on the arena: grid and towers unchanged; the unit ahead is copied in if absent, loses the attacker's damage exactly when the attacker may attack it, and leaves the next grid at hp <= 0; no other hp changes; the attacker stays |
| Movement.FoughtKept | game/movement.py:64-73 | the fight empties only the struck unit's cell and only once its hp is at most 0, fills only that cell and the attacker's with old-grid tiles, and leaves the attacker at its own cell unless the next grid already held that cell |
| Movement.FightCase | game/movement.py:64-73 | the fight as ClashStep states it, with what FoughtKept states of the next grid, and no hp rising when the attacker's damage is not negative |
| Movement.OwnedStep | game/movement.py:34-76 | one owned unit's step, case by case as Plan chooses: holding and advancing change no hp, no tower and not the old grid; a siege and a fight as SiegeStep and ClashStep state; the next grid only fills cells with old-grid tiles and loses only units at hp <= 0; without a KeyError the unit ends at its cell or the cell ahead, unless its own cell was already taken; with non-negative damage no hp rises |
| Movement.StepUnit | game/movement.py:26-76 | one cell of the scan: skipped tiles (no dict, a marker, no owner) change nothing; an owned unit steps as OwnedStep states; no hp rises above its value before the cell when the unit's damage is not negative |
| Movement.StepCell | game/movement.py:26-76 | StepUnit with the per-case outcome left out: the same progress, emptying, growth, fill, arrival and hp guarantees |
| Movement.CameFromErased | game/movement.py:58-62 | a unit traced to a grid whose cells were then emptied is traced to the grid before |
| Movement.CopyTowers | game/movement.py:18-23 | the copy loop builds TowersOnly of the grid |
| Movement.TracedUnits | game/movement.py:26-78 | a step creates no unit: every unit after it was on the grid before |
| Movement.ScanningKept | game/movement.py:26-76 | a cell that only empties the old grid, progresses the towers and grows the next grid keeps the scan invariant |
| Movement.IntactUnits | game/movement.py:26-76 | a grid that keeps the old grid's unit cells keeps all of its units |
| Movement.LivingBefore | game/arena.py:184-208 | a tower alive after some hits was alive before them |
| Movement.PlacingKept | game/movement.py:26-76 | one scanned cell keeps the placement facts: the old grid's unit cells intact, the next grid holding at each of them nothing or that cell's unit, and every owned unit passed so far placed at its cell or the cell ahead, or at hp <= 0 |
| Movement.SettledStart | game/movement.py:18-25 | before the scan the placement facts hold for the next grid of tower markers |
| Movement.ScanStart | game/movement.py:18-25 | the scan starts in its invariant, with the placement facts when every living tower cell holds a marker and no damage is negative |
| Movement.SettledRow | game/movement.py:26-27 | passing the end of a row is starting the next |
| Movement.SettledAll | game/movement.py:26-76 | after every row each owned unit of the old grid is placed at its cell or the cell ahead, or at hp <= 0 |
| Movement.PlaceCell | game/movement.py:26-76 | StepCell at one cell, carrying the placement facts to the next cell when nothing raised |
| Movement.ScanCell | game/movement.py:26-76 | the scan invariant survives one cell; with every marker's owner known it does not fail |
| Movement.ScanRow | game/movement.py:26-76 | the scan invariant survives one row |
| Movement.ScanGrid | game/movement.py:26-78 | the scan of every row, ending with the new grid in place when nothing raised; the StepMovement guarantees on the old grid and table it was given |
| Movement.StepMovement | game/movement.py:7-78 | keeps the tower table's progress guarantees and every tower marker; each unit afterwards stood at its cell or one column behind in its heading; conversely, when every living tower cell holds a marker and no damage is negative, each owned unit of the old grid ends at its cell or one column ahead, or at hp <= 0; it fails only on an unknown marker owner, leaving the old grid only emptied |
| Players.Min | game/player.py:46 | the smaller of two integers |
| Players.Ticked | game/player.py:56-61 | each timer goes down by one; a timer is kept exactly when it was above one |
| Players.Player.constructor | game/player.py:7-29 | a new player has 5 of 10 energy, regeneration 1, no cooldowns, and the starter cards as unlocked cards and deck |
| Players.Player.Elixir | game/player.py:35-38 | the elixir is the energy |
| Players.Player.MaxElixir | game/player.py:40-42 | the maximum elixir is the energy cap |
| Players.Player.RegenEnergy | game/player.py:44-46 | energy grows by the regeneration rate and never past the cap; a player below the cap never loses energy, and one at the cap keeps it |
| Players.Player.AddCooldown | game/player.py:52-54 | sets this card's timer and no other |
| Players.Player.TickCooldowns | game/player.py:56-61 | the table becomes Ticked of the old table |
| Players.Player.HasCard | game/player.py:67-68 | true exactly when the card is in the active deck |
| Players.Registry.GetPlayer | game/player.py:75-88 | a known user gets its player, with the registry unchanged; a new user gets a fresh player with the starter cards as cards and deck, registered under its id, with the initial energy, no cooldowns, no tower hp, no coins, wins or trophies, and arena 1 |
| Players.TickedPositive | game/player.py:56-61 | after n ticks every remaining timer was there before, is n lower, and is positive |
| Players.CooldownLasts | game/player.py:52-61 | a card given a t-turn cooldown stays blocked for exactly t-1 ticks and is free after t |
| Cards.NewCard | game/card.py:10-23 | refuses empty data (ValueError); otherwise copies every given key and defaults cost 0, damage 0, hp 50, range 1, speed 1, no special and the knight emoji |
| Cards.CanPlay | game/card.py:29-35 | playable exactly when the cost is within the energy and the card is not cooling down |
| Cards.ApplyCost | game/card.py:37-39 | the cost comes off the energy exactly; a card that could be played leaves the energy non-negative |
| Cards.CreateUnit | game/card.py:45-61 | the unit record has the card's name, stats and the owner, with the category under "type" |
| Spawn.IsUnitTile | game/unit.py:13-14 | a unit tile is exactly a unit dict typed "unit" |
| Spawn.IsTowerTile | game/unit.py:17-18 | a tile is a tower tile exactly when it holds a tower marker or a unit typed "tower"; no tile is both a unit tile and a tower tile |
| Spawn.MakeUnitFromCard | game/unit.py:21-43 | refuses spells (ValueError); otherwise a "unit"-typed record with the category under "kind" and the card's name, owner and stats |
| Spawn.UnitIsBuilding | game/unit.py:50-51 | true exactly for kind "building" |
| Spawn.UnitIsTroop | game/unit.py:54-55 | true exactly for kind "troop" |
| Spawn.MadeUnitIsUnitTile | game/unit.py:13-55 | a unit made from a card is a unit tile, never a tower tile, and a building or troop exactly when the card is one |
| Spawn.ConversionsAgree | game/card.py:45-61 | create_unit and make_unit_from_card agree on name, owner and stats; create_unit's record is no unit tile unless the category is "unit" |
| Matches.TowerOrder | game/arena.py:68-79 | both participants have a tower entry; a single entry exactly when their ids coincide |
| Matches.WithDefault | game/match.py:88-92 | a present key is kept, a missing one gets the default |
| Matches.Match.constructor | game/match.py:38-48 | an active match at turn 0 on a 16 x 10 arena with both tower layouts synced onto the empty grid |
| Matches.Match.CurrentPlayer | game/match.py:53-54 | player 1 on turn 0, player 2 on turn 1 |
| Matches.Match.Opponent | game/match.py:56-57 | the participant whose turn it is not |
| Matches.Match.GetPlayerById | game/match.py:59-63 | the participant with that id, player 1 first; None exactly for an outsider |
| Matches.Match.OpponentId | game/match.py:65-70 | the other participant's id; None exactly for an outsider |
| Matches.OpponentInvolution | game/match.py:65-70 | with distinct ids, the opponent's opponent is oneself, and no one is their own opponent |
| Matches.Match.NextTurn | game/match.py:72-73 | the turn index toggles between 0 and 1 |
| Matches.Match.PlaceUnitForPlayer | game/match.py:78-95 | succeeds exactly when the deployment is valid; then the unit is written with its owner forced and missing stats defaulted; otherwise nothing changes; no energy or cooldown is spent |
| Matches.Match.StepTurn | game/match.py:103-110 | a finished match does not change; otherwise movement then tower fire: tower progress is kept, no unit is created, and a unit leaves the moved grid only once its hp is at most 0 |
| Matches.Match.CheckWin | game/match.py:112-121 | the winner is a participant; with distinct ids, player 1 wins only over a fallen king of player 2 with its own king standing |
| Matches.WinnerIffKingFallen | game/match.py:112-121 | there is a winner exactly when some king has fallen |
| Matches.WinnerSurvives | game/match.py:112-121 | the winner's opponent has a fallen king; with both kings fallen, player 2 wins |
| Matches.Match.EndMatch | game/match.py:128-131 | an active match ends and reports it; a finished one reports nothing |
| Matches.Refresh | game/match.py:161-163 | energy regenerates, then the cooldowns tick |
| Matches.Match.Advance | game/match.py:165-174 | a step, then the win check; a winner ends the match and no winner leaves it as it was; tower progress is kept, and in an active match no unit is created and a unit leaves the moved grid only once its hp is at most 0 |
| Matches.Match.Conclude | game/match.py:169-174 | the win check of a loop pass; a winner ends the match, no winner leaves the active flag as it was, and the board is unchanged |
| Matches.Match.Tick | game/match.py:157-174 | energy and cooldowns refresh when due and are untouched otherwise; then the step and the win check, with tower progress kept and, in an active match, no unit created and a unit leaving the moved grid only once its hp is at most 0 |
| Storage.Keep | game/storage.py:27-31 | keeps exactly the catalog members of the list |
| Storage.FilterValidCardList | game/storage.py:27-31 | a value that is not a list gives the empty list; a list keeps exactly its catalog members |
| Storage.KeepAppend | game/storage.py:27-31 | filtering keeps the order: filtering a concatenation concatenates the filtered parts |
| Storage.KeepAll | game/storage.py:27-31 | a list of catalog cards passes the filter unchanged |
| Storage.Dedup | game/storage.py:38-45 | the first occurrences, without duplicates and with the same members |
| Storage.DedupNoDup | game/storage.py:38-45 | deduplicating a duplicate-free list changes nothing |
| Storage.DedupCards | game/storage.py:38-45 | the seen-set loop computes Dedup |
| Storage.FillDeck | game/storage.py:47-60 | the loop computes Filled: each candidate, in order, that is a catalog card missing from the deck is appended until there are five; the deck stays a prefix, every appended card is a candidate, no duplicates, never more than five, and a deck left short holds every catalog candidate |
| Storage.DefaultsFirst | game/storage.py:47-60 | the last-resort fill adds a non-default card only once every default catalog card is in the deck |
| Storage.EnsureMinDeck | game/storage.py:34-62 | the deduplicated valid deck, filled first from the default deck in order and then from the catalog in order, to five cards (or the whole catalog when smaller); a non-default card beyond the loaded deck appears only when every default catalog card is present; no duplicates and only catalog cards |
| Storage.EnsureUnlockedCards | game/storage.py:65-79 | the valid unlocks, then each missing deck card and each missing default catalog card once, so the result covers the deck and the catalog's default unlocks |
| Effects.Specials | game/effects.py:9-14 | an empty special runs no tag; one tag runs alone; a list runs in order |
| Effects.Apply | game/effects.py:16-43 | a tag fails (AttributeError) exactly when it needs a tower hp the side lacks; when both sides are one player, both see the change |
| Effects.TagEffects | game/effects.py:16-43 | freeze, stun and shield set a one-turn marker on the opponent; rage adds 3 energy up to 10; swarm and death damage take 5 and 10 off the opponent's tower hp; heal adds 10 up to 100 |
| Effects.UnknownTagNoChange | game/effects.py:16-43 | a tag outside the table changes nothing |
| Effects.RunAppend | game/effects.py:16 | tags apply one after another: a longer list continues where the shorter left off, and stops at a failure |
| Effects.ApplyTag | game/effects.py:16-43 | one tag on the two player objects agrees with Apply, and a failure changes nothing |
| Effects.ApplyEffect | game/effects.py:3-48 | the players end as running the tags in order leaves them; ok is false exactly when a tag failed, with the earlier tags kept |

## Left out

- Discord I/O, `asyncio`, the per-match lock, the clock and frame timers (`time.monotonic`), rendering, `channel.send` and every `print`: these are I/O and concurrency. The clock of the realtime loop becomes the `elixirDue` parameter of `Matches.Match.Tick`.
- `Matches.Match.Tick`: covers one locked pass of the loop body (game/match.py:157-174). Loser selection and the end message are not modelled. `Refreshed` is stated for both participants only when they are two distinct objects.
- `Matches.Match.StepTurn`: the KeyError case of `Movement.StepMovement` cannot arise in a match, so `ok` always holds. The placement converse of `Movement.StepMovement` is not carried over to the grid after tower fire.
- `Movement.StepMovement`: the converse (each owned unit is placed or at hp <= 0) is stated only when every living tower cell holds a marker and no unit's damage is negative. Without the first, `damage_tower` may empty an old-grid cell that still holds a unit; without the second, a later attack could raise hp again. `Matches.Match.Board` does not carry that condition.
- `Movement.StepMovement`, `Combat.TowerAttacks` and `Combat.OwnerTowersFire`: these are summary contracts. Their exact per-unit hp changes are stated on the step members (`Movement.SiegeStep`, `Movement.ClashStep`, `Combat.FireTower`, `Combat.Strike`) rather than composed over the whole scan.
- `Combat.AttackUnit`: requires the target cell to be in bounds, which every caller in the source guarantees.
- `Combat.IsTower`, `Combat.IsUnit` and `Matches.Match.PlaceUnitForPlayer`: a unit dict whose `"type"` is `"tower"` is treated as a unit. The source treats such a dict as a tower: `clear_towers_from_grid` erases it, `is_tower_cell` and `tower_at` report it, and movement skips it. No path in the core builds such a unit, but `PlaceUnitForPlayer` does not exclude one.
- `Cards.NewCard`: a card entry key that is present with the value None is treated like a missing key. In the source, an entry such as `{"type": None}` is non-empty, so it builds a card instead of raising, and `{"cost": None}` gives cost None instead of 0. An entry whose keys are all unknown, such as `{"rarity": "common"}`, is also non-empty: the source builds an all-default card from it, while the model sees `NoData` and refuses it.
- `Coords.CoordToRc`: letters, digits and case folding are ASCII only. `str.upper` and `str.isdigit` also accept other Unicode letters and digits.
- `Coords.RcToCoord`: `chr` of a surrogate code point is refused, because Dafny 4 `char` excludes surrogates.
- Arena sizes are natural numbers. The source would accept negative sizes.
- `Storage.FilterValidCardList`: a list with non-string items, and a key present with a value of None, are not modelled. A loaded value is either a list of names or not a list.
- `all_positions`, `iter_units`, `river_left_col`, `river_right_col` and `tower_state` (game/arena.py:107-151): these are iteration and lookup helpers that the core does not depend on.
- `unit_owner` (game/unit.py:46-47): this is the same `tile.get("owner")` lookup as `Combat.Owner`.
- `Card.__str__`, the `ARENAS` table and the cards beyond the ten in `Cards.Catalog`: display text and static configuration.
- `Players.Registry` stands for the global `players` dict. `load_players` and `save_players` are JSON file I/O.
- The `tower_hp` attribute that the effect table reads is modelled as `Players.Player.towerHp`. The Player class never defines that attribute, so reading it raises AttributeError; the model encodes the missing attribute as `None` and reports that failure as `ok == false`.
- Matches.WithDefault: `setdefault` keeps a unit key that is present with the value None. A unit field is an `Option`, which cannot tell that case from a missing key, so the model gives such a field its default.
- game/ai.py, game/visuals.py, game/commands and bot.py are not part of this model.
