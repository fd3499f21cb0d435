/** The deck: up to five cards drawn from the atlas, fanned out on a
    diagonal, stacked so that the first card to reveal is on top, and
    revealed one after another. */
module Deck {
  import opened Card

  /** At most this many keys are taken from the shuffled atlas keys. */
  const MaxCards: nat := 5
  /** Horizontal and vertical offset between successive cards of the fan. */
  const OffsetX: real := -30.0
  const OffsetY: real := 15.0

  predicate Distinct<T(==)>(s: seq<T>) {
    forall i, j :: 0 <= i < j < |s| ==> s[i] != s[j]
  }

  /** `perm` rearranges the indices 0 .. n-1: each appears exactly once. */
  predicate IsPermutation(perm: seq<nat>, n: nat) {
    && |perm| == n
    && (forall i :: 0 <= i < n ==> perm[i] < n)
    && Distinct(perm)
  }

  function Min(a: nat, b: nat): (m: nat) {
    if a <= b then a else b
  }

  /** The atlas keys in the order the random sort left them, that order being
      given as the permutation `perm`. */
  function Shuffled(keys: seq<string>, perm: seq<nat>): (r: seq<string>)
    requires IsPermutation(perm, |keys|)
    ensures |r| == |keys|
  {
    seq(|keys|, i requires 0 <= i < |keys| => keys[perm[i]])
  }

  /** The values `perm` takes at its first `m` positions. */
  function Image(perm: seq<nat>, m: nat): (vs: set<nat>)
    requires m <= |perm|
  {
    set i | 0 <= i < m :: perm[i]
  }

  lemma {:induction false} ImageSize(perm: seq<nat>, m: nat)
    requires Distinct(perm) && m <= |perm|
    ensures |Image(perm, m)| == m
  {
    if m > 0 {
      ImageSize(perm, m - 1);
      assert Image(perm, m) == Image(perm, m - 1) + {perm[m - 1]};
    }
  }

  lemma {:induction false} SubsetSize<T>(a: set<T>, b: set<T>)
    requires a <= b
    ensures |a| <= |b|
    decreases a
  {
    if a != {} {
      var x :| x in a;
      SubsetSize(a - {x}, b - {x});
    }
  }

  /** A permutation of 0 .. n-1 takes every value below n (pigeonhole). */
  lemma PermutationCovers(perm: seq<nat>, n: nat, v: nat)
    requires IsPermutation(perm, n) && v < n
    ensures v in perm
  {
    var ids: seq<nat> := seq(n, i requires 0 <= i < n => i);
    assert Distinct(ids);
    ImageSize(perm, n);
    ImageSize(ids, n);
    assert Image(perm, n) <= Image(ids, n) by {
      forall w | w in Image(perm, n) ensures w in Image(ids, n) {
        assert ids[w] == w;
      }
    }
    assert v in Image(ids, n) by { assert ids[v] == v; }
    if v !in Image(perm, n) {
      SubsetSize(Image(perm, n), Image(ids, n) - {v});
      assert false;
    }
  }

  /** The random sort only rearranges the atlas keys: the shuffled list has
      the same keys, each exactly once. */
  lemma ShuffledIsRearrangement(keys: seq<string>, perm: seq<nat>)
    requires Distinct(keys) && IsPermutation(perm, |keys|)
    ensures Distinct(Shuffled(keys, perm))
    ensures forall i :: 0 <= i < |keys| ==> Shuffled(keys, perm)[i] in keys
    ensures forall j :: 0 <= j < |keys| ==> keys[j] in Shuffled(keys, perm)
  {
    var r := Shuffled(keys, perm);
    forall j | 0 <= j < |keys|
      ensures keys[j] in r
    {
      PermutationCovers(perm, |keys|, j);
      var i :| 0 <= i < |perm| && perm[i] == j;
      assert r[i] == keys[j];
    }
  }

  /** The keys of the cards: the first `MaxCards` of the shuffled keys.
      They are pairwise distinct, each is an atlas key, and there are five of
      them whenever the atlas has at least five keys. */
  function SelectKeys(keys: seq<string>, perm: seq<nat>): (r: seq<string>)
    requires Distinct(keys) && IsPermutation(perm, |keys|)
    ensures |r| == Min(MaxCards, |keys|)
    ensures |keys| >= MaxCards ==> |r| == MaxCards
    ensures Distinct(r)
    ensures forall i :: 0 <= i < |r| ==> r[i] in keys
  {
    Shuffled(keys, perm)[..Min(MaxCards, |keys|)]
  }

  /** Horizontal position of the card built `i`-th out of `n`. */
  function FanX(i: int, n: nat, screenWidth: real): (x: real) {
    screenWidth / 2.0 + (i as real - n as real / 2.0) * OffsetX
  }

  /** Vertical position of the card built `i`-th out of `n`. */
  function FanY(i: int, n: nat, screenHeight: real): (y: real) {
    screenHeight / 2.0 + (i as real - n as real / 2.0) * OffsetY
  }

  /** Successive cards of the fan are one fixed offset apart, and the fan is
      centred half an offset away from the screen centre (the first and the
      last card are symmetric about that point, not about the centre). */
  lemma FanLayout(i: int, n: nat, screenWidth: real, screenHeight: real)
    ensures FanX(i + 1, n, screenWidth) == FanX(i, n, screenWidth) + OffsetX
    ensures FanY(i + 1, n, screenHeight) == FanY(i, n, screenHeight) + OffsetY
    ensures FanX(i, n, screenWidth) + FanX(n - 1 - i, n, screenWidth) == screenWidth - OffsetX
    ensures FanY(i, n, screenHeight) + FanY(n - 1 - i, n, screenHeight) == screenHeight - OffsetY
  {
  }

  /** A sequence read back to front. */
  function Reversed<T>(s: seq<T>): (r: seq<T>) {
    if s == [] then [] else Reversed(s[1..]) + [s[0]]
  }

  lemma {:induction false} ReversedAt<T>(s: seq<T>, k: nat)
    requires k < |s|
    ensures |Reversed(s)| == |s|
    ensures Reversed(s)[k] == s[|s| - 1 - k]
  {
    if k < |s| - 1 {
      ReversedAt(s[1..], k);
    } else {
      ReversedLength(s[1..]);
    }
  }

  lemma {:induction false} ReversedLength<T>(s: seq<T>)
    ensures |Reversed(s)| == |s|
  {
    if s != [] {
      ReversedLength(s[1..]);
    }
  }

  /** The deck of cards: `cards` in reveal order, `currentIndex` the next to reveal. */
  class CardDeck {
    var cards: seq<CardView>
    var currentIndex: int

    /** The index stays within 0 .. |cards|; the cards before it have been
        revealed to the end, those from it on are untouched new cards. */
    ghost predicate Valid()
      reads this, cards
    {
      && 0 <= currentIndex <= |cards|
      && Distinct(cards)
      && (forall j :: 0 <= j < |cards| ==> Card.Valid(cards[j].State()))
      && (forall j :: 0 <= j < currentIndex ==> PhaseOf(cards[j].State()) == Done)
      && (forall j :: currentIndex <= j < |cards| ==> cards[j].State() == Initial())
    }

    /** Builds the deck from the atlas keys (in enumeration order), the order
        `perm` the random sort produced, and the screen size. Card `i` of the
        selected keys is placed at `(FanX(i), FanY(i))`; afterwards the cards
        are reversed, so `cards[j]` is the card built `(n-1-j)`-th. */
    constructor (atlasKeys: seq<string>, perm: seq<nat>, screenWidth: real, screenHeight: real)
      requires Distinct(atlasKeys) && IsPermutation(perm, |atlasKeys|)
      ensures Valid() && currentIndex == 0
      ensures |cards| == Min(MaxCards, |atlasKeys|)
      ensures forall j :: 0 <= j < |cards| ==> fresh(cards[j])
      ensures forall j :: 0 <= j < |cards| ==> cards[j].front in atlasKeys
      ensures forall j, k :: 0 <= j < k < |cards| ==> cards[j].front != cards[k].front
      ensures var keys, n := SelectKeys(atlasKeys, perm), |cards|;
        forall j :: 0 <= j < n ==>
          && cards[j].front == keys[n - 1 - j]
          && cards[j].x == FanX(n - 1 - j, n, screenWidth)
          && cards[j].y == FanY(n - 1 - j, n, screenHeight)
    {
      cards := [];
      currentIndex := 0;
      new;
      var keys := SelectKeys(atlasKeys, perm);
      var n := |keys|;
      var i := 0;
      while i < n
        invariant 0 <= i <= n && |cards| == i && currentIndex == 0
        invariant Distinct(cards)
        invariant forall j :: 0 <= j < i ==>
          && fresh(cards[j])
          && cards[j].front == keys[j]
          && cards[j].x == FanX(j, n, screenWidth)
          && cards[j].y == FanY(j, n, screenHeight)
          && cards[j].State() == Initial()
      {
        var card := new CardView(keys[i]);
        card.x := FanX(i, n, screenWidth);
        card.y := FanY(i, n, screenHeight);
        cards := cards + [card];
        i := i + 1;
      }
      ghost var built := cards;
      ReverseCards();
      ReversedLength(built);
      forall j | 0 <= j < n
        ensures cards[j] == built[n - 1 - j]
      {
        ReversedAt(built, j);
      }
      forall a, b | 0 <= a < b < n
        ensures cards[a] != cards[b]
      {
        assert built[n - 1 - b] != built[n - 1 - a];
      }
      InitialIsValid();
    }

    /** Reverses `cards` in place, swapping from both ends inwards. */
    method ReverseCards()
      modifies this
      ensures cards == Reversed(old(cards))
      ensures currentIndex == old(currentIndex)
    {
      var n := |cards|;
      var lo := 0;
      while lo < n / 2
        invariant 0 <= lo <= n / 2 && |cards| == n
        invariant forall k :: 0 <= k < lo ==>
          cards[k] == old(cards)[n - 1 - k] && cards[n - 1 - k] == old(cards)[k]
        invariant forall k :: lo <= k < n - lo ==> cards[k] == old(cards)[k]
        invariant currentIndex == old(currentIndex)
      {
        var hi := n - 1 - lo;
        cards := cards[lo := cards[hi]][hi := cards[lo]];
        lo := lo + 1;
      }
      ghost var was := old(cards);
      ReversedLength(was);
      forall k | 0 <= k < n
        ensures cards[k] == Reversed(was)[k]
      {
        ReversedAt(was, k);
      }
    }

    /** Reveals the next card and waits for its animation, whose frames have
        deltas `delta(0)`, `delta(1)`, ...; then moves on to the next card.
        Does nothing once every card has been revealed. */
    method RevealNext(delta: nat -> real, eps: real) returns (frames: nat)
      requires Valid()
      requires eps > 0.0 && forall k :: delta(k) >= eps
      modifies this, cards
      ensures Valid() && cards == old(cards)
      ensures forall j :: 0 <= j < |cards| ==> cards[j].x == old(cards[j].x) && cards[j].y == old(cards[j].y)
      ensures old(currentIndex) >= |cards| ==>
        && currentIndex == old(currentIndex) && frames == 0
        && forall j :: 0 <= j < |cards| ==> cards[j].State() == old(cards[j].State())
      ensures old(currentIndex) < |cards| ==>
        && currentIndex == old(currentIndex) + 1
        && cards[old(currentIndex)].State() == Run(Revealing(Initial()), delta, frames)
        && PhaseOf(cards[old(currentIndex)].State()) == Done
        && forall j :: 0 <= j < |cards| && j != old(currentIndex) ==>
             cards[j].State() == old(cards[j].State())
    {
      frames := 0;
      if currentIndex >= |cards| {
        return;
      }
      var card := cards[currentIndex];
      var settled := card.Reveal();
      RevealingPhase(Initial());
      frames := card.AwaitCompletion(delta, eps);
      currentIndex := currentIndex + 1;
    }
  }

  /** `k` sequential, awaited calls of `RevealNext` on a new deck: the index
      ends at `min(k, |cards|)`, and exactly the first `k` cards have been
      revealed, each now showing its front and hidden. */
  method RevealInOrder(deck: CardDeck, k: nat, delta: nat -> real, eps: real)
    requires deck.Valid() && deck.currentIndex == 0
    requires eps > 0.0 && forall f :: delta(f) >= eps
    modifies deck, deck.cards
    ensures deck.Valid() && deck.cards == old(deck.cards)
    ensures deck.currentIndex == Min(k, |deck.cards|)
    ensures forall j :: 0 <= j < |deck.cards| ==> (deck.cards[j].revealed <==> j < k)
    ensures forall j :: 0 <= j < |deck.cards| && j < k ==>
      deck.cards[j].texture == Front && !deck.cards[j].visible && deck.cards[j].completions == 1
  {
    var calls := 0;
    while calls < k
      invariant calls <= k
      invariant deck.Valid() && deck.cards == old(deck.cards)
      invariant deck.currentIndex == Min(calls, |deck.cards|)
    {
      var frames := deck.RevealNext(delta, eps);
      calls := calls + 1;
    }
  }
}
