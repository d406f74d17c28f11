/**
 * A participant's match resources and progression (game/player.py): energy (elixir) with a cap
 * and a regeneration step, a cooldown table counted down once per tick, and the card lists.
 */
module Players {
  import opened Wrappers

  /** `min` on integers. */
  function Min(a: int, b: int): (m: int)
    ensures m <= a && m <= b && (m == a || m == b)
  {
    if a <= b then a else b
  }

  /** One `tick_cooldowns` pass: every timer goes down by one, and those that reach 0 are dropped. */
  function Ticked(cd: map<string, int>): (cd': map<string, int>)
    ensures cd'.Keys <= cd.Keys
    ensures forall k :: k in cd' ==> cd'[k] == cd[k] - 1 && cd'[k] > 0
    ensures forall k :: k in cd ==> (k in cd' <==> cd[k] > 1)
  {
    map k | k in cd && cd[k] - 1 > 0 :: cd[k] - 1
  }

  /** The table part-way through `tick_cooldowns`: keys in `rest` have not been visited yet. */
  function PartlyTicked(cd: map<string, int>, rest: set<string>): map<string, int> {
    map k | k in cd && (k in rest || cd[k] - 1 > 0) :: if k in rest then cd[k] else cd[k] - 1
  }

  /** The eight cards `get_player` gives a newcomer. */
  const Starter: seq<string> :=
    ["knight", "archer", "giant", "fireball", "valkyrie", "musketeer", "mini_pekka", "baby_dragon"]

  /**
   * Player(user, starter_cards, is_ai). The Discord user is reduced to its id and display name.
   * `towerHp` stands for an optional `tower_hp` attribute: the class never defines one (None),
   * but the effect table reads and writes it.
   */
  class Player {
    const userId: int
    const displayName: string
    const isAi: bool
    var energy: int
    var maxEnergy: int
    var energyRegen: int
    var cooldowns: map<string, int>
    var cards: seq<string>
    var deck: seq<string>
    var coins: int
    var wins: int
    var trophies: int
    var arena: int
    var towerHp: Option<int>

    constructor (userId: int, displayName: string, starterCards: seq<string>, isAi: bool)
      ensures this.userId == userId && this.displayName == displayName && this.isAi == isAi
      ensures energy == 5 && maxEnergy == 10 && energyRegen == 1 && cooldowns == map[]
      ensures cards == starterCards && deck == starterCards
      ensures coins == 0 && wins == 0 && trophies == 0 && arena == 1 && towerHp.None?
    {
      this.userId := userId;
      this.displayName := displayName;
      this.isAi := isAi;
      energy, maxEnergy, energyRegen := 5, 10, 1;
      cooldowns := map[];
      cards, deck := starterCards, starterCards;
      coins, wins, trophies, arena := 0, 0, 0, 1;
      towerHp := None;
    }

    /** The `elixir` property: the UI name of `energy`. */
    function Elixir(): (e: int)
      reads this
      ensures e == energy
    {
      energy
    }

    /** The `max_elixir` property. */
    function MaxElixir(): (e: int)
      reads this
      ensures e == maxEnergy
    {
      maxEnergy
    }

    /**
     * `regen_energy`: energy grows by the regeneration rate but never past the cap; a player
     * already at the cap keeps the energy it has.
     */
    method RegenEnergy()
      modifies this`energy
      ensures energy == Min(maxEnergy, old(energy) + energyRegen)
      ensures energy <= maxEnergy
      ensures energyRegen >= 0 && old(energy) <= maxEnergy ==> old(energy) <= energy
      ensures energyRegen >= 0 && old(energy) == maxEnergy ==> energy == old(energy)
    {
      energy := Min(maxEnergy, energy + energyRegen);
    }

    /** `add_cooldown` (default 2 turns): sets or overwrites this card's timer only. */
    method AddCooldown(cardName: string, turns: int := 2)
      modifies this`cooldowns
      ensures cooldowns == old(cooldowns)[cardName := turns]
    {
      cooldowns := cooldowns[cardName := turns];
    }

    /**
     * `tick_cooldowns`: visits every key once (the order does not matter, each key is updated
     * on its own), decrementing it and deleting it once it is <= 0.
     */
    method TickCooldowns()
      modifies this`cooldowns
      ensures cooldowns == Ticked(old(cooldowns))
    {
      ghost var cd0 := cooldowns;
      var rest := cooldowns.Keys;
      while rest != {}
        invariant rest <= cd0.Keys
        invariant cooldowns == PartlyTicked(cd0, rest)
        decreases |rest|
      {
        var name :| name in rest;
        rest := rest - {name};
        cooldowns := cooldowns[name := cooldowns[name] - 1];
        if cooldowns[name] <= 0 {
          cooldowns := cooldowns - {name};
        }
      }
      assert PartlyTicked(cd0, {}) == Ticked(cd0);
    }

    /** `has_card`: membership in the active deck (not in the unlocked cards). */
    function HasCard(cardName: string): (r: bool)
      reads this
      ensures r <==> exists i :: 0 <= i < |deck| && deck[i] == cardName
    {
      cardName in deck
    }
  }

  /** The `players` registry dict that `get_player` reads and fills, keyed by user id. */
  class Registry {
    var players: map<int, Player>

    constructor ()
      ensures players == map[]
    {
      players := map[];
    }

    /**
     * `get_player`: the registered player of this user, unchanged; or a new player with the
     * starter cards as both unlocked cards and deck, registered under the user's id.
     */
    method GetPlayer(userId: int, displayName: string) returns (p: Player)
      modifies this
      ensures userId in old(players) ==> p == old(players)[userId] && players == old(players)
      ensures userId !in old(players) ==>
        fresh(p) && players == old(players)[userId := p]
        && p.userId == userId && p.displayName == displayName && !p.isAi
        && p.cards == Starter && p.deck == Starter
        && p.energy == 5 && p.maxEnergy == 10 && p.energyRegen == 1 && p.cooldowns == map[]
        && p.towerHp.None? && p.coins == 0 && p.wins == 0 && p.trophies == 0 && p.arena == 1
    {
      if userId !in players {
        var starter := Starter;
        p := new Player(userId, displayName, starter, false);
        p.deck := starter;
        players := players[userId := p];
      }
      p := players[userId];
    }
  }

  /** After any number of ticks started from valid timers, each remaining timer is positive. */
  lemma {:induction false} TickedPositive(cd: map<string, int>, n: nat)
    ensures forall k :: k in Iterate(cd, n) ==> Iterate(cd, n)[k] > 0 || (n == 0 && k in cd)
    ensures forall k :: k in Iterate(cd, n) ==> k in cd
    ensures forall k :: k in Iterate(cd, n) ==> Iterate(cd, n)[k] == cd[k] - n
  {
    if n > 0 {
      TickedPositive(cd, n - 1);
    }
  }

  /** `n` consecutive `tick_cooldowns` passes. */
  function Iterate(cd: map<string, int>, n: nat): map<string, int> {
    if n == 0 then cd else Ticked(Iterate(cd, n - 1))
  }

  /** A timer set by `add_cooldown` (t >= 1) blocks exactly the next t - 1 ticks and is gone after t. */
  lemma {:induction false} CooldownLasts(cd: map<string, int>, name: string, t: int, n: nat)
    requires name in cd && cd[name] == t && t >= 1
    ensures name in Iterate(cd, n) <==> n < t
  {
    if n > 0 {
      CooldownLasts(cd, name, t, n - 1);
      TickedPositive(cd, n - 1);
      var prev := Iterate(cd, n - 1);
      assert Iterate(cd, n) == Ticked(prev);
      if name in prev {
        assert prev[name] == t - (n - 1);
        assert name in Ticked(prev) <==> prev[name] > 1;
      }
    }
  }
}
