/**
 * The flashcard carousel and the weak-topic dots of the RevisionMode screen
 * (src/components/RevisionMode.tsx).  The screen's deck is a fixed sample of
 * five cards; here the deck is any non-empty sequence of cards.
 */
module RevisionMode {
  import opened Rounding

  datatype FlashCard = FlashCard(id: string, front: string, back: string, topic: string)

  /** The card after card i, wrapping from the last to the first. */
  function NextIndex(i: int, n: int): (r: int)
    requires n > 0
    ensures 0 <= r < n
    ensures 0 <= i < n - 1 ==> r == i + 1
    ensures i == n - 1 ==> r == 0
  {
    if i == n - 1 then
      ModUnique(i + 1, n, 1, 0);
      (i + 1) % n
    else if 0 <= i < n - 1 then
      ModUnique(i + 1, n, 0, i + 1);
      (i + 1) % n
    else
      (i + 1) % n
  }

  /** The card before card i, wrapping from the first to the last. */
  function PrevIndex(i: int, n: int): (r: int)
    requires n > 0
    ensures 0 <= r < n
    ensures 0 < i < n ==> r == i - 1
    ensures i == 0 ==> r == n - 1
  {
    if i == 0 then
      ModUnique(n - 1, n, 0, n - 1);
      (i - 1 + n) % n
    else if 0 < i < n then
      ModUnique(i - 1 + n, n, 1, i - 1);
      (i - 1 + n) % n
    else
      (i - 1 + n) % n
  }

  /** Both moves stay in the deck, and each undoes the other. */
  lemma NextPrevInverse(i: int, n: int)
    requires 0 <= i < n
    ensures 0 <= NextIndex(i, n) < n && 0 <= PrevIndex(i, n) < n
    ensures PrevIndex(NextIndex(i, n), n) == i
    ensures NextIndex(PrevIndex(i, n), n) == i
  {
    var next := if i == n - 1 then 0 else i + 1;
    var prev := if i == 0 then n - 1 else i - 1;
    ModUnique(i + 1, n, if i == n - 1 then 1 else 0, next);
    ModUnique(i - 1 + n, n, if i == 0 then 0 else 1, prev);
    ModUnique(next - 1 + n, n, if next == 0 then 0 else 1, i);
    ModUnique(prev + 1, n, if prev == n - 1 then 1 else 0, i);
  }

  /** The index after k presses of "next": after at least one press it is inside the deck. */
  function Advance(i: int, k: nat, n: int): (r: int)
    requires n > 0
    ensures k == 0 ==> r == i
    ensures k > 0 ==> 0 <= r < n
    decreases k
  {
    if k == 0 then i else NextIndex(Advance(i, k - 1, n), n)
  }

  /** k presses of "next" move k cards on, modulo the deck size. */
  lemma {:induction false} AdvanceIsModular(i: int, k: nat, n: int)
    requires 0 <= i < n
    ensures Advance(i, k, n) == (i + k) % n
    decreases k
  {
    if k == 0 {
      ModUnique(i, n, 0, i);
    } else {
      AdvanceIsModular(i, k - 1, n);
      ModSucc(i + k - 1, n);
    }
  }

  /** n presses of "next" on a deck of n cards come back to the card they started from. */
  lemma FullCycle(i: int, n: int)
    requires 0 <= i < n
    ensures Advance(i, n, n) == i
  {
    AdvanceIsModular(i, n, n);
    ModUnique(i + n, n, 1, i);
  }

  /** ((x mod n) + 1) mod n == (x + 1) mod n. */
  lemma ModSucc(x: int, n: int)
    requires n > 0
    ensures (x % n + 1) % n == (x + 1) % n
  {
    var q, r := x / n, x % n;
    if r + 1 < n {
      ModUnique(r + 1, n, 0, r + 1);
      ModUnique(x + 1, n, q, r + 1);
    } else {
      ModUnique(r + 1, n, 1, 0);
      ModUnique(x + 1, n, q + 1, 0);
    }
  }

  /** Division with remainder is unique: x == q * n + r with 0 <= r < n fixes x / n and x % n. */
  lemma ModUnique(x: int, n: int, q: int, r: int)
    requires n > 0 && 0 <= r < n && x == q * n + r
    ensures x / n == q && x % n == r
  {
    var q0, r0 := x / n, x % n;
    assert n * (q - q0) == r0 - r;
    FactorOrder(n, q - q0, 0);
    FactorOrder(n, q0 - q, 0);
  }

  /** The weak-topic dot colour. */
  datatype Dot = RedDot | OrangeDot | YellowDot

  /** Red below 50, orange below 60, yellow from 60. */
  function DotColour(score: int): (d: Dot)
    ensures d == RedDot <==> score < 50
    ensures d == YellowDot <==> score >= 60
  {
    if score < 50 then RedDot
    else if score < 60 then OrangeDot
    else YellowDot
  }

  function DotRank(d: Dot): nat
  {
    match d
    case RedDot => 0
    case OrangeDot => 1
    case YellowDot => 2
  }

  /** A higher score never gets a more alarming dot. */
  lemma DotColourMonotone(s1: int, s2: int)
    requires s1 <= s2
    ensures DotRank(DotColour(s1)) <= DotRank(DotColour(s2))
  {
  }

  class FlashcardCarousel {
    const cards: seq<FlashCard>
    var currentCardIndex: int
    var isFlipped: bool

    ghost predicate Valid()
      reads this
    {
      |cards| > 0 && 0 <= currentCardIndex < |cards|
    }

    constructor (cards: seq<FlashCard>)
      requires |cards| > 0
      ensures Valid() && this.cards == cards
      ensures currentCardIndex == 0 && !isFlipped
    {
      this.cards := cards;
      currentCardIndex := 0;
      isFlipped := false;
    }

    /** `handleNextCard`: shows the front of the next card, wrapping to the first. */
    method NextCard()
      requires Valid()
      modifies this
      ensures Valid() && !isFlipped
      ensures currentCardIndex == NextIndex(old(currentCardIndex), |cards|)
    {
      isFlipped := false;
      currentCardIndex := (currentCardIndex + 1) % |cards|;
    }

    /** `handlePrevCard`: shows the front of the previous card, wrapping to the last. */
    method PrevCard()
      requires Valid()
      modifies this
      ensures Valid() && !isFlipped
      ensures currentCardIndex == PrevIndex(old(currentCardIndex), |cards|)
    {
      isFlipped := false;
      currentCardIndex := (currentCardIndex - 1 + |cards|) % |cards|;
    }

    /** A click on the card turns it over. */
    method Flip()
      requires Valid()
      modifies this`isFlipped
      ensures Valid() && isFlipped == !old(isFlipped)
    {
      isFlipped := !isFlipped;
    }

    /** The card on screen. */
    function CurrentCard(): (c: FlashCard)
      reads this
      requires Valid()
      ensures c in cards
    {
      cards[currentCardIndex]
    }

    /** "Cards Reviewed" and the "k / n" counter: the 1-based position, between 1 and the deck size. */
    function CardsReviewed(): (k: int)
      reads this
      requires Valid()
      ensures 1 <= k <= |cards|
    {
      currentCardIndex + 1
    }
  }
}
