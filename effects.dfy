/**
 * The legacy effect table (game/effects.py): each tag of a card's `special` changes the playing
 * participant or the opponent. The tower-hp branches use a `tower_hp` attribute that players do
 * not have unless something sets one; reading it when missing raises AttributeError, which ends
 * the effect with the earlier tags already applied.
 */
module Effects {
  import opened Wrappers
  import opened Players

  /** A card's `special`: one tag, or a list of tags. */
  datatype Special = Tag(tag: string) | Tags(tags: seq<string>)

  /** The tags `apply_effect` runs: none for an empty special, else the list or the single tag. */
  function Specials(special: Special): (tags: seq<string>)
    ensures special == Tag("") || special == Tags([]) ==> tags == []
    ensures special.Tag? && special.tag != "" ==> tags == [special.tag]
    ensures special.Tags? ==> tags == special.tags
  {
    match special
    case Tag(s) => if s == "" then [] else [s]
    case Tags(l) => l
  }

  /** What an effect can change about one participant. */
  datatype Side = Side(energy: int, cooldowns: map<string, int>, towerHp: Option<int>)

  function SideOf(p: Player): Side
    reads p
  {
    Side(p.energy, p.cooldowns, p.towerHp)
  }

  const MaxRageEnergy := 10
  const MaxTowerHp := 100

  /** A change to the opponent's side, seen from both sides. */
  function ToOpponent(me: Side, t: Side, same: bool): (Side, Side) {
    (if same then t else me, t)
  }

  /** A change to the player's side, seen from both sides. */
  function ToPlayer(m: Side, them: Side, same: bool): (Side, Side) {
    (m, if same then m else them)
  }

  /**
   * One tag on (player, opponent); `same` says they are one object, so a change to one is a change
   * to both. None is the AttributeError of a missing `tower_hp`.
   */
  function Apply(tag: string, me: Side, them: Side, same: bool): (r: Option<(Side, Side)>)
    requires same ==> me == them
    ensures r.Some? && same ==> r.value.0 == r.value.1
    ensures r.None? <==> ((tag == "swarm" || tag == "death damage") && them.towerHp.None?)
                         || (tag == "heal" && me.towerHp.None?)
  {
    if tag == "freeze" then Some(ToOpponent(me, them.(cooldowns := them.cooldowns["frozen" := 1]), same))
    else if tag == "stun" then Some(ToOpponent(me, them.(cooldowns := them.cooldowns["stunned" := 1]), same))
    else if tag == "rage" then Some(ToPlayer(me.(energy := Min(MaxRageEnergy, me.energy + 3)), them, same))
    else if tag == "swarm" then
      if them.towerHp.None? then None else Some(ToOpponent(me, them.(towerHp := Some(them.towerHp.value - 5)), same))
    else if tag == "death damage" then
      if them.towerHp.None? then None else Some(ToOpponent(me, them.(towerHp := Some(them.towerHp.value - 10)), same))
    else if tag == "heal" then
      if me.towerHp.None? then None else Some(ToPlayer(me.(towerHp := Some(Min(MaxTowerHp, me.towerHp.value + 10))), them, same))
    else if tag == "shield" then Some(ToOpponent(me, them.(cooldowns := them.cooldowns["shielded" := 1]), same))
    else Some((me, them))
  }

  /** The sides after some tags, and whether one of them raised. */
  datatype Outcome = Outcome(me: Side, them: Side, raised: bool)

  /** The tags applied in order, stopping at the first one that raises. */
  function Run(tags: seq<string>, me: Side, them: Side, same: bool): (r: Outcome)
    requires same ==> me == them
    ensures same ==> r.me == r.them
  {
    if tags == [] then Outcome(me, them, false)
    else
      var o := Run(tags[..|tags| - 1], me, them, same);
      if o.raised then o
      else
        match Apply(tags[|tags| - 1], o.me, o.them, same)
        case None => Outcome(o.me, o.them, true)
        case Some((m, t)) => Outcome(m, t, false)
  }

  /** The tags of ys applied to where xs left off. */
  function Continue(o: Outcome, ys: seq<string>, same: bool): (r: Outcome)
    requires same ==> o.me == o.them
  {
    if o.raised then o else Run(ys, o.me, o.them, same)
  }

  /** A list is applied element by element: running xs + ys is running ys after xs. */
  lemma {:induction false} RunAppend(xs: seq<string>, ys: seq<string>, me: Side, them: Side, same: bool)
    requires same ==> me == them
    ensures Run(xs + ys, me, them, same) == Continue(Run(xs, me, them, same), ys, same)
  {
    if ys == [] {
      assert xs + ys == xs;
    } else {
      var ys' := ys[..|ys| - 1];
      assert (xs + ys)[..|xs + ys| - 1] == xs + ys';
      assert (xs + ys)[|xs + ys| - 1] == ys[|ys| - 1];
      RunAppend(xs, ys', me, them, same);
    }
  }

  /** The tags the table knows; any other tag changes nothing. */
  const KnownTags := {"freeze", "stun", "rage", "swarm", "death damage", "heal", "shield"}

  lemma UnknownTagNoChange(tags: seq<string>, tag: string, me: Side, them: Side, same: bool)
    requires same ==> me == them
    requires tag !in KnownTags
    ensures Run(tags + [tag], me, them, same) == Run(tags, me, them, same)
  {
    assert (tags + [tag])[..|tags + [tag]| - 1] == tags;
  }

  /**
   * What each known tag does: freeze, stun and shield set a one-turn marker in the opponent's
   * cooldowns; rage raises energy by 3 up to 10; swarm and death damage take 5 and 10 off the
   * opponent's tower hp; heal adds 10 to the player's tower hp up to 100.
   */
  lemma TagEffects(tag: string, me: Side, them: Side)
    ensures tag == "freeze" ==> Apply(tag, me, them, false) == Some((me, them.(cooldowns := them.cooldowns["frozen" := 1])))
    ensures tag == "stun" ==> Apply(tag, me, them, false) == Some((me, them.(cooldowns := them.cooldowns["stunned" := 1])))
    ensures tag == "shield" ==> Apply(tag, me, them, false) == Some((me, them.(cooldowns := them.cooldowns["shielded" := 1])))
    ensures tag == "rage" ==> var r := Apply(tag, me, them, false).value;
      r.1 == them && r.0.cooldowns == me.cooldowns && r.0.towerHp == me.towerHp
      && r.0.energy == Min(MaxRageEnergy, me.energy + 3)
      && r.0.energy <= MaxRageEnergy && (me.energy + 3 <= MaxRageEnergy ==> r.0.energy == me.energy + 3)
    ensures (tag == "swarm" || tag == "death damage") && them.towerHp.Some? ==>
      var r := Apply(tag, me, them, false).value;
      r.0 == me && r.1.towerHp == Some(them.towerHp.value - (if tag == "swarm" then 5 else 10))
      && r.1.energy == them.energy && r.1.cooldowns == them.cooldowns
    ensures tag == "heal" && me.towerHp.Some? ==> var r := Apply(tag, me, them, false).value;
      r.1 == them && r.0.towerHp == Some(Min(MaxTowerHp, me.towerHp.value + 10))
      && r.0.energy == me.energy && r.0.cooldowns == me.cooldowns
      && r.0.towerHp.value <= MaxTowerHp
      && (me.towerHp.value + 10 <= MaxTowerHp ==> r.0.towerHp == Some(me.towerHp.value + 10))
  {
  }

  /** One tag, on the objects. */
  method ApplyTag(tag: string, player: Player, opponent: Player) returns (ok: bool)
    modifies player`energy, player`cooldowns, player`towerHp
    modifies opponent`energy, opponent`cooldowns, opponent`towerHp
    ensures var r := Apply(tag, old(SideOf(player)), old(SideOf(opponent)), player == opponent);
      ok == r.Some? && (ok ==> SideOf(player) == r.value.0 && SideOf(opponent) == r.value.1)
    ensures !ok ==> SideOf(player) == old(SideOf(player)) && SideOf(opponent) == old(SideOf(opponent))
  {
    ok := true;
    if tag == "freeze" {
      opponent.cooldowns := opponent.cooldowns["frozen" := 1];
    } else if tag == "stun" {
      opponent.cooldowns := opponent.cooldowns["stunned" := 1];
    } else if tag == "rage" {
      player.energy := Min(MaxRageEnergy, player.energy + 3);
    } else if tag == "swarm" {
      if opponent.towerHp.None? {
        return false;
      }
      opponent.towerHp := Some(opponent.towerHp.value - 5);
    } else if tag == "death damage" {
      if opponent.towerHp.None? {
        return false;
      }
      opponent.towerHp := Some(opponent.towerHp.value - 10);
    } else if tag == "heal" {
      if player.towerHp.None? {
        return false;
      }
      player.towerHp := Some(Min(MaxTowerHp, player.towerHp.value + 10));
    } else if tag == "shield" {
      opponent.cooldowns := opponent.cooldowns["shielded" := 1];
    }
  }

  /**
   * `apply_effect`: runs the special's tags in order on the two participants. `ok` is false when a
   * tag raised, with every earlier tag's change kept and nothing after it applied.
   */
  method ApplyEffect(special: Special, player: Player, opponent: Player) returns (ok: bool)
    modifies player`energy, player`cooldowns, player`towerHp
    modifies opponent`energy, opponent`cooldowns, opponent`towerHp
    ensures var o := Run(Specials(special), old(SideOf(player)), old(SideOf(opponent)), player == opponent);
      ok == !o.raised && SideOf(player) == o.me && SideOf(opponent) == o.them
  {
    var tags := Specials(special);
    ghost var me0, them0, same := SideOf(player), SideOf(opponent), player == opponent;
    for i := 0 to |tags|
      invariant var o := Run(tags[..i], me0, them0, same); !o.raised && SideOf(player) == o.me && SideOf(opponent) == o.them
    {
      assert tags[..i + 1][..i] == tags[..i];
      ok := ApplyTag(tags[i], player, opponent);
      if !ok {
        assert tags[..i + 1] + tags[i + 1..] == tags;
        RunAppend(tags[..i + 1], tags[i + 1..], me0, them0, same);
        return;
      }
    }
    assert tags[..|tags|] == tags;
    ok := true;
  }
}
