/**
 * Save-file sanitising (game/storage.py): card lists loaded from disk are filtered against the
 * card catalog, decks are deduplicated and filled up to five cards, and the unlocked cards are
 * made to cover the deck and the default unlocks.
 */
module Storage {
  import opened Wrappers
  import opened Players

  /** The default unlocks and the default deck of a save file. */
  const DefaultUnlocked: seq<string> := ["knight", "archer", "giant", "mini_pekka", "fireball", "zap"]
  const DefaultDeck: seq<string> := ["knight", "archer", "giant", "mini_pekka", "fireball"]

  /** The size a loaded deck is filled up to. */
  const MinDeck := 5

  predicate NoDup(xs: seq<string>) {
    forall i, j :: 0 <= i < j < |xs| ==> xs[i] != xs[j]
  }

  /** The members of xs that the catalog knows, in order (the list comprehension). */
  function Keep(xs: seq<string>, catalog: seq<string>): (r: seq<string>)
    ensures |r| <= |xs|
    ensures forall x :: x in r <==> x in xs && x in catalog
  {
    if xs == [] then []
    else
      var rest := Keep(xs[..|xs| - 1], catalog);
      assert forall x :: x in xs <==> x in xs[..|xs| - 1] || x == xs[|xs| - 1];
      if xs[|xs| - 1] in catalog then rest + [xs[|xs| - 1]] else rest
  }

  /**
   * `_filter_valid_card_list`: a loaded value that is not a list (None) gives the empty list;
   * a list keeps exactly its catalog members.
   */
  function FilterValidCardList(input: Option<seq<string>>, catalog: seq<string>): (r: seq<string>)
    ensures input.None? ==> r == []
    ensures input.Some? ==> |r| <= |input.value|
    ensures input.Some? ==> forall x :: x in r <==> x in input.value && x in catalog
  {
    if input.None? then [] else Keep(input.value, catalog)
  }

  /** Filtering a concatenation filters each part: the catalog members keep their order. */
  lemma {:induction false} KeepAppend(xs: seq<string>, ys: seq<string>, catalog: seq<string>)
    ensures Keep(xs + ys, catalog) == Keep(xs, catalog) + Keep(ys, catalog)
  {
    if ys == [] {
      assert xs + ys == xs;
    } else {
      var ys' := ys[..|ys| - 1];
      assert (xs + ys)[..|xs + ys| - 1] == xs + ys';
      assert (xs + ys)[|xs + ys| - 1] == ys[|ys| - 1];
      KeepAppend(xs, ys', catalog);
    }
  }

  /** A list made only of catalog cards passes the filter unchanged. */
  lemma {:induction false} KeepAll(xs: seq<string>, catalog: seq<string>)
    requires forall x :: x in xs ==> x in catalog
    ensures Keep(xs, catalog) == xs
  {
    if xs != [] {
      KeepAll(xs[..|xs| - 1], catalog);
      assert xs[..|xs| - 1] + [xs[|xs| - 1]] == xs;
    }
  }

  /** The first occurrence of each element, in order (the `seen`-set loop). */
  function Dedup(xs: seq<string>): (r: seq<string>)
    ensures NoDup(r) && |r| <= |xs|
    ensures forall x :: x in r <==> x in xs
  {
    if xs == [] then []
    else
      var rest := Dedup(xs[..|xs| - 1]);
      var last := xs[|xs| - 1];
      assert forall x :: x in xs <==> x in xs[..|xs| - 1] || x == last;
      if last in rest then rest else rest + [last]
  }

  /** Deduplicating a list without duplicates changes nothing. */
  lemma {:induction false} DedupNoDup(xs: seq<string>)
    requires NoDup(xs)
    ensures Dedup(xs) == xs
  {
    if xs != [] {
      var init := xs[..|xs| - 1];
      assert NoDup(init);
      DedupNoDup(init);
      assert xs[|xs| - 1] !in init;
      assert init + [xs[|xs| - 1]] == xs;
    }
  }

  /** The distinct elements of a list without duplicates are as many as its length. */
  lemma {:induction false} NoDupCard(xs: seq<string>)
    requires NoDup(xs)
    ensures |set x | x in xs| == |xs|
  {
    if xs != [] {
      var init := xs[..|xs| - 1];
      var last := xs[|xs| - 1];
      assert NoDup(init);
      NoDupCard(init);
      assert (set x | x in xs) == (set x | x in init) + {last};
      assert last !in (set x | x in init);
    }
  }

  /** Two lists without duplicates over the same elements have the same length. */
  lemma SameElementsSameLength(xs: seq<string>, ys: seq<string>)
    requires NoDup(xs) && NoDup(ys)
    requires forall x :: x in xs <==> x in ys
    ensures |xs| == |ys|
  {
    NoDupCard(xs);
    NoDupCard(ys);
    assert (set x | x in xs) == (set x | x in ys);
  }

  /** A list without duplicates inside another has at most its length. */
  lemma SubsetShorter(xs: seq<string>, ys: seq<string>)
    requires NoDup(xs) && NoDup(ys)
    requires forall x :: x in xs ==> x in ys
    ensures |xs| <= |ys|
  {
    NoDupCard(xs);
    NoDupCard(ys);
    var a, b := set x | x in xs, set x | x in ys;
    assert b == a + (b - a);
    assert a * (b - a) == {};
  }

  /** Appending a new element keeps a list free of duplicates. */
  lemma AppendFresh(xs: seq<string>, c: string)
    requires NoDup(xs) && c !in xs
    ensures NoDup(xs + [c])
  {
  }

  /** The `seen`-set loop of `_ensure_min_deck`: the first occurrence of each card, in order. */
  method DedupCards(valid: seq<string>) returns (deduped: seq<string>)
    ensures deduped == Dedup(valid)
  {
    var seen: set<string> := {};
    deduped := [];
    for i := 0 to |valid|
      invariant deduped == Dedup(valid[..i])
      invariant seen == set x | x in deduped
    {
      assert valid[..i + 1][..i] == valid[..i];
      if valid[i] !in seen {
        seen := seen + {valid[i]};
        deduped := deduped + [valid[i]];
      }
    }
    assert valid[..|valid|] == valid;
  }

  /**
   * The deck after a fill pass over cands, defined one candidate at a time: a candidate that is a
   * catalog card missing from the deck is appended, until the deck has five cards.
   */
  function Filled(deck: seq<string>, cands: seq<string>, catalog: seq<string>): seq<string>
    decreases |cands|
  {
    if |deck| >= MinDeck || cands == [] then deck
    else if cands[0] !in deck && cands[0] in catalog then Filled(deck + [cands[0]], cands[1..], catalog)
    else Filled(deck, cands[1..], catalog)
  }

  /**
   * One fill loop of `_ensure_min_deck`: appends each candidate that is a catalog card not yet in
   * the deck, stopping as soon as the deck has five cards.
   */
  method FillDeck(deck: seq<string>, candidates: seq<string>, catalog: seq<string>) returns (r: seq<string>)
    requires NoDup(deck) && forall x :: x in deck ==> x in catalog
    ensures NoDup(r) && forall x :: x in r ==> x in catalog
    ensures |deck| <= |r| && r[..|deck|] == deck
    ensures |deck| >= MinDeck ==> r == deck
    ensures |deck| < MinDeck ==> |r| <= MinDeck
    ensures |r| < MinDeck ==> forall c :: c in candidates && c in catalog ==> c in r
    ensures forall x :: x in r[|deck|..] ==> x in candidates
    ensures r == Filled(deck, candidates, catalog)
  {
    r := deck;
    var k := 0;
    while k < |candidates|
      invariant 0 <= k <= |candidates|
      invariant Filled(r, candidates[k..], catalog) == Filled(deck, candidates, catalog)
      invariant NoDup(r) && (forall x :: x in r ==> x in catalog)
      invariant |deck| <= |r| && r[..|deck|] == deck
      invariant forall x :: x in r[|deck|..] ==> x in candidates[..k]
      invariant |deck| >= MinDeck ==> r == deck
      invariant |deck| < MinDeck ==> |r| <= MinDeck
      invariant |r| < MinDeck ==> forall i :: 0 <= i < k && candidates[i] in catalog ==> candidates[i] in r
    {
      if |r| >= MinDeck {
        break;
      }
      var c := candidates[k];
      if c !in r && c in catalog {
        AppendFresh(r, c);
        assert (r + [c])[|deck|..] == r[|deck|..] + [c];
        r := r + [c];
      }
      k := k + 1;
    }
  }

  /**
   * `_ensure_min_deck`: the catalog members of the loaded deck, first occurrences only, then
   * cards of the default deck and finally any catalog cards until there are five. The catalog is
   * a dict's key list, so it has no duplicates. (The last-resort loop skips only cards already in
   * the deck; its candidates are the catalog's own keys, so the catalog test FillDeck adds holds.)
   */
  method EnsureMinDeck(deck: Option<seq<string>>, catalog: seq<string>) returns (r: seq<string>)
    requires NoDup(catalog)
    ensures NoDup(r)
    ensures forall x :: x in r ==> x in catalog
    ensures var d := Dedup(FilterValidCardList(deck, catalog));
      |d| <= |r| && r[..|d|] == d
    ensures var d := Dedup(FilterValidCardList(deck, catalog));
      |r| == if |d| >= MinDeck then |d| else Min(MinDeck, |catalog|)
    ensures var d := Dedup(FilterValidCardList(deck, catalog));
      r == Filled(Filled(d, DefaultDeck, catalog), catalog, catalog)
    ensures var d := Dedup(FilterValidCardList(deck, catalog));
      forall x :: x in r[|d|..] && x !in DefaultDeck ==> forall y :: y in DefaultDeck && y in catalog ==> y in r
  {
    var valid := FilterValidCardList(deck, catalog);
    var d := DedupCards(valid);
    r := FillDeck(d, DefaultDeck, catalog);
    ghost var r0 := r;
    if |r| < MinDeck {
      var r1 := FillDeck(r, catalog, catalog);
      assert r1[..|d|] == r[..|d|];
      r := r1;
      if |r| < MinDeck {
        SameElementsSameLength(r, catalog);
      } else {
        SubsetShorter(r, catalog);
      }
    } else if |d| < MinDeck {
      SubsetShorter(r, catalog);
    }
    DefaultsFirst(d, r0, r, catalog);
  }

  /**
   * The last-resort fill (r0 to r1) comes after the default-deck fill (d to r0): a card beyond the
   * loaded deck d that is not a default card is only there once every default catalog card is.
   */
  lemma DefaultsFirst(d: seq<string>, r0: seq<string>, r1: seq<string>, catalog: seq<string>)
    requires |d| <= |r0| <= |r1| && r0[..|d|] == d && r1[..|r0|] == r0
    requires forall x :: x in r0[|d|..] ==> x in DefaultDeck
    requires |r0| < MinDeck ==> forall c :: c in DefaultDeck && c in catalog ==> c in r0
    requires |r0| >= MinDeck ==> r1 == r0
    ensures forall x :: x in r1[|d|..] && x !in DefaultDeck ==> forall y :: y in DefaultDeck && y in catalog ==> y in r1
  {
    assert r1[|d|..] == r0[|d|..] + r1[|r0|..];
    assert r1 == r0 + r1[|r0|..];
  }

  /** Appending a card the list lacks keeps its prefix f and a duplicate-free rest. */
  lemma AppendMissing(r: seq<string>, f: seq<string>, c: string)
    requires |f| <= |r| && r[..|f|] == f && NoDup(r[|f|..]) && c !in r
    ensures (r + [c])[..|f|] == f && (r + [c])[|f|..] == r[|f|..] + [c] && NoDup((r + [c])[|f|..])
  {
    assert (r + [c])[|f|..] == r[|f|..] + [c];
    assert c !in r[|f|..];
  }

  /**
   * `_ensure_unlocked_cards`: the catalog members of the loaded unlocks (duplicates kept), then
   * each deck card missing so far, then each catalog card of the default unlocks missing so far.
   */
  method EnsureUnlockedCards(unlocked: Option<seq<string>>, deck: seq<string>, catalog: seq<string>)
    returns (r: seq<string>)
    ensures var f := FilterValidCardList(unlocked, catalog); |f| <= |r| && r[..|f|] == f
    ensures forall c :: c in deck ==> c in r
    ensures forall c :: c in DefaultUnlocked && c in catalog ==> c in r
    ensures var f := FilterValidCardList(unlocked, catalog);
      NoDup(r[|f|..]) && forall x :: x in r[|f|..] ==>
        x !in f && (x in deck || (x in DefaultUnlocked && x in catalog))
    ensures (forall c :: c in deck ==> c in catalog) ==> forall x :: x in r ==> x in catalog
  {
    var f := FilterValidCardList(unlocked, catalog);
    r := f;
    for i := 0 to |deck|
      invariant |f| <= |r| && r[..|f|] == f
      invariant forall j :: 0 <= j < i ==> deck[j] in r
      invariant NoDup(r[|f|..]) && forall x :: x in r[|f|..] ==> x !in f && x in deck
    {
      if deck[i] !in r {
        assert forall x :: x in f ==> x in r;
        AppendMissing(r, f, deck[i]);
        r := r + [deck[i]];
      }
    }
    for i := 0 to |DefaultUnlocked|
      invariant |f| <= |r| && r[..|f|] == f
      invariant forall c :: c in deck ==> c in r
      invariant forall j :: 0 <= j < i && DefaultUnlocked[j] in catalog ==> DefaultUnlocked[j] in r
      invariant NoDup(r[|f|..]) && forall x :: x in r[|f|..] ==>
        x !in f && (x in deck || (x in DefaultUnlocked && x in catalog))
    {
      var c := DefaultUnlocked[i];
      if c in catalog && c !in r {
        assert forall x :: x in f ==> x in r;
        AppendMissing(r, f, c);
        r := r + [c];
      }
    }
    assert forall x :: x in r ==> x in f || x in r[|f|..];
  }
}
