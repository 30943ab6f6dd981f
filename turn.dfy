/**
 * The turn state of the memory (pairs) game and the synchronous part of its
 * click handling: the click handler `flipCard`, the match check
 * `checkForMatch`, the immediate halves of `disableCards` and `unflipCard`,
 * and `resetBoard`, as functions on a `Board`. They follow the `createGame`
 * closure of src/js/modules/game.js, which reaches the first and second
 * card through `?.`. The older script js/app.js has the same statements
 * but dereferences the cards directly; on every board that satisfies
 * `Invariant` the two behave alike, and module `App` models the direct
 * dereference where it can fail. The other differences (what a timer
 * callback does with a null card, how the deck is shuffled and when
 * listeners are attached) are in modules `Game` and `App`.
 *
 * A card is named by its position in the deck. A `setTimeout(…, 900)`
 * callback is an `Action` appended to the queue `pending`; since every
 * delay is the same, callbacks run in the order they were scheduled.
 */
module Turn {

  /** The `data-product` key that makes two cards a pair. */
  type Product = string

  datatype Option<T> = None | Some(value: T)

  /**
   * One `.memory-card` element: its key, whether it carries the `flip` and
   * `memory-card-shadow` classes, whether `flipCard` is still registered as
   * its click listener, and its flexbox `order`.
   */
  datatype Card = Card(product: Product, flip: bool, shadow: bool, listening: bool, order: int)

  /** A pending timer callback: the one `unflipCard` schedules, or the one `disableCards` schedules. */
  datatype Action = Unflip | Disable

  /**
   * The deck, the four session variables (`None` stands for null and
   * undefined) and the timer callbacks not yet run, oldest first.
   */
  datatype Board = Board(
    cards: seq<Card>,
    hasFlippedCard: bool,
    lockBoard: bool,
    firstCard: Option<nat>,
    secondCard: Option<nat>,
    pending: seq<Action>)

  /** What happens next on the page: a click on a card, or the oldest pending timer running out. */
  datatype Event = ClickOn(card: nat) | Timeout

  predicate Refers(n: nat, c: Option<nat>) {
    c.Some? ==> c.value < n
  }

  /** Both card references name cards of the deck. */
  predicate WellFormed(b: Board) {
    Refers(|b.cards|, b.firstCard) && Refers(|b.cards|, b.secondCard)
  }

  /**
   * What every reachable board satisfies: a turn in progress has its first
   * card, and a held lock belongs to a mismatch whose two cards are known
   * and whose unflip callback is still pending (so the lock is released
   * when that callback, or any earlier one, runs).
   */
  predicate Invariant(b: Board) {
    && WellFormed(b)
    && (b.hasFlippedCard ==> b.firstCard.Some?)
    && (b.lockBoard ==> b.firstCard.Some? && b.secondCard.Some? && Unflip in b.pending)
  }

  /** Every click of `evs` is on a card of an `n`-card deck. */
  predicate Targets(n: nat, evs: seq<Event>) {
    forall k :: 0 <= k < |evs| && evs[k].ClickOn? ==> evs[k].card < n
  }

  /** Card `j` is the current first or second card. */
  predicate Held(b: Board, j: nat) {
    b.firstCard == Some(j) || b.secondCard == Some(j)
  }

  /**
   * `t` is the deck `s` after handlers have run: same cards, keys and
   * orders; a shadow once added stays, a listener once removed stays removed.
   */
  predicate Monotone(s: seq<Card>, t: seq<Card>) {
    && |t| == |s|
    && forall j :: 0 <= j < |s| ==>
         && t[j].product == s[j].product
         && t[j].order == s[j].order
         && (s[j].shadow ==> t[j].shadow)
         && (!s[j].listening ==> !t[j].listening)
  }

  /** No card of `s` other than `c1` and `c2` changed in `t`. */
  predicate Untouched(s: seq<Card>, t: seq<Card>, c1: Option<nat>, c2: Option<nat>) {
    |t| == |s| && forall j :: 0 <= j < |s| && c1 != Some(j) && c2 != Some(j) ==> t[j] == s[j]
  }

  /**
   * The deck as the page first shows it, and the session variables as
   * declared: no class, no listener, no order, nothing flipped, unlocked.
   */
  function Initial(products: seq<Product>): (b: Board)
    ensures Invariant(b)
    ensures !b.hasFlippedCard && !b.lockBoard && b.firstCard.None? && b.secondCard.None? && b.pending == []
    ensures |b.cards| == |products|
    ensures forall j :: 0 <= j < |products| ==> b.cards[j] == Card(products[j], false, false, false, 0)
  {
    Board(seq(|products|, j requires 0 <= j < |products| => Card(products[j], false, false, false, 0)),
          false, false, None, None, [])
  }

  /** The deck after `cards.forEach(card => card.addEventListener("click", flipCard))`. */
  function Attached(cards: seq<Card>): (r: seq<Card>)
    ensures |r| == |cards|
    ensures forall j :: 0 <= j < |cards| ==> r[j].listening && r[j] == cards[j].(listening := true)
  {
    seq(|cards|, j requires 0 <= j < |cards| => cards[j].(listening := true))
  }

  /**
   * Registers `flipCard` on every card, in collection order. Registering
   * the same listener twice is a no-op in the DOM, so a card that already
   * listens is left as it is.
   */
  method AttachListeners(cards: array<Card>)
    modifies cards
    ensures cards[..] == Attached(old(cards[..]))
  {
    var i := 0;
    while i < cards.Length
      invariant 0 <= i <= cards.Length
      invariant forall j :: 0 <= j < i ==> cards[j] == old(cards[j]).(listening := true)
      invariant forall j :: i <= j < cards.Length ==> cards[j] == old(cards[j])
    {
      cards[i] := cards[i].(listening := true);
      i := i + 1;
    }
  }

  // `card?.classList.add(…)` and friends: a null reference leaves the deck alone.

  function SetFlip(cards: seq<Card>, c: Option<nat>, on: bool): seq<Card>
    requires Refers(|cards|, c)
  {
    if c.None? then cards else cards[c.value := cards[c.value].(flip := on)]
  }

  function AddShadow(cards: seq<Card>, c: Option<nat>): seq<Card>
    requires Refers(|cards|, c)
  {
    if c.None? then cards else cards[c.value := cards[c.value].(shadow := true)]
  }

  function RemoveListener(cards: seq<Card>, c: Option<nat>): seq<Card>
    requires Refers(|cards|, c)
  {
    if c.None? then cards else cards[c.value := cards[c.value].(listening := false)]
  }

  /** `c?.dataset.product`: the key of the referenced card, or undefined. */
  function ProductOf(b: Board, c: Option<nat>): Option<Product>
    requires Refers(|b.cards|, c)
  {
    if c.None? then None else Some(b.cards[c.value].product)
  }

  /** A click on card `i` reaches `flipCard` and gets past both of its guards. */
  predicate Admitted(b: Board, i: nat)
    requires i < |b.cards|
  {
    b.cards[i].listening && !b.lockBoard && b.firstCard != Some(i)
  }

  /** Card `i`, clicked as the second card, has the key of the first card. */
  predicate Pairs(b: Board, i: nat)
    requires WellFormed(b) && i < |b.cards|
  {
    ProductOf(b, b.firstCard) == Some(b.cards[i].product)
  }

  /** The two references compare equal by key, as `checkForMatch` decides. */
  predicate IsMatch(b: Board)
    requires WellFormed(b)
  {
    ProductOf(b, b.firstCard) == ProductOf(b, b.secondCard)
  }

  /** `resetBoard`: the four session variables go back to false, false, null, null. */
  function ResetBoard(b: Board): (t: Board)
    ensures !t.hasFlippedCard && !t.lockBoard && t.firstCard.None? && t.secondCard.None?
    ensures t.cards == b.cards && t.pending == b.pending
    ensures WellFormed(b) ==> Invariant(t)
  {
    b.(hasFlippedCard := false, lockBoard := false, firstCard := None, secondCard := None)
  }

  /**
   * `unflipCard`, up to the `setTimeout`: the board is locked and the
   * unflip callback is scheduled; no card changes yet.
   */
  function UnflipCard(b: Board): (t: Board)
    ensures t.lockBoard && t.pending == b.pending + [Unflip]
    ensures t.cards == b.cards && t.hasFlippedCard == b.hasFlippedCard
    ensures t.firstCard == b.firstCard && t.secondCard == b.secondCard
  {
    b.(lockBoard := true, pending := b.pending + [Unflip])
  }

  /**
   * `disableCards`, up to the `setTimeout`: both referenced cards lose
   * their click listener at once, the board stays as it is (in particular
   * it is not locked) and the disable callback is scheduled.
   */
  function DisableCards(b: Board): (t: Board)
    requires WellFormed(b)
    ensures t.pending == b.pending + [Disable]
    ensures t.hasFlippedCard == b.hasFlippedCard && t.lockBoard == b.lockBoard
    ensures t.firstCard == b.firstCard && t.secondCard == b.secondCard
    ensures |t.cards| == |b.cards|
    ensures forall j :: 0 <= j < |b.cards| ==>
              t.cards[j] == b.cards[j].(listening := b.cards[j].listening && !Held(b, j))
  {
    b.(cards := RemoveListener(RemoveListener(b.cards, b.firstCard), b.secondCard),
       pending := b.pending + [Disable])
  }

  /**
   * `checkForMatch`: exactly one callback is scheduled, the disable one
   * iff the two keys are equal; only a mismatch locks the board. At once,
   * a match only removes the two cards' listeners: they stay face up.
   */
  function CheckForMatch(b: Board): (t: Board)
    requires WellFormed(b)
    ensures WellFormed(t) && Monotone(b.cards, t.cards)
    ensures t.pending == b.pending + [if IsMatch(b) then Disable else Unflip]
    ensures t.lockBoard == (b.lockBoard || !IsMatch(b))
    ensures t.hasFlippedCard == b.hasFlippedCard
    ensures t.firstCard == b.firstCard && t.secondCard == b.secondCard
    ensures |t.cards| == |b.cards|
    ensures forall j :: 0 <= j < |b.cards| ==>
              t.cards[j] == b.cards[j].(listening := b.cards[j].listening && !(IsMatch(b) && Held(b, j)))
  {
    if IsMatch(b) then DisableCards(b) else UnflipCard(b)
  }

  /**
   * `flipCard` on card `i`: ignored while the board is locked or when `i`
   * is the first card; otherwise `i` is flipped and becomes the first card
   * of a turn, or the second card, whose key decides which callback is
   * scheduled. Only card `i` and the first card can change.
   */
  function FlipCard(b: Board, i: nat): (t: Board)
    requires WellFormed(b) && i < |b.cards|
    ensures WellFormed(t) && Monotone(b.cards, t.cards)
    ensures Untouched(b.cards, t.cards, Some(i), b.firstCard)
    ensures t.firstCard in {b.firstCard, Some(i)} && t.secondCard in {b.secondCard, Some(i)}
    ensures b.lockBoard || b.firstCard == Some(i) ==> t == b
    ensures !b.lockBoard && b.firstCard != Some(i) && !b.hasFlippedCard ==>
              && t.cards == b.cards[i := b.cards[i].(flip := true)]
              && t.hasFlippedCard && t.firstCard == Some(i)
              && t.secondCard == b.secondCard && !t.lockBoard && t.pending == b.pending
    ensures !b.lockBoard && b.firstCard != Some(i) && b.hasFlippedCard ==>
              && !t.hasFlippedCard && t.firstCard == b.firstCard && t.secondCard == Some(i)
              && t.pending == b.pending + [if Pairs(b, i) then Disable else Unflip]
              && t.lockBoard == !Pairs(b, i)
              && t.cards[i] == b.cards[i].(flip := true, listening := b.cards[i].listening && !Pairs(b, i))
              && (forall j :: 0 <= j < |b.cards| && b.firstCard == Some(j) ==>
                    t.cards[j] == b.cards[j].(listening := b.cards[j].listening && !Pairs(b, i)))
    ensures Invariant(b) ==> Invariant(t)
  {
    if b.lockBoard then b
    else if b.firstCard == Some(i) then b
    else
      var flipped := b.cards[i := b.cards[i].(flip := true)];
      if !b.hasFlippedCard then
        b.(cards := flipped, hasFlippedCard := true, firstCard := Some(i))
      else
        CheckForMatch(b.(cards := flipped, hasFlippedCard := false, secondCard := Some(i)))
  }

  /**
   * A click on card `i`: the browser calls `flipCard` only while the card
   * still has it as a listener. A click that is not admitted changes
   * nothing at all; an admitted one flips the card and moves the turn on.
   */
  function Click(b: Board, i: nat): (t: Board)
    requires WellFormed(b) && i < |b.cards|
    ensures WellFormed(t) && Monotone(b.cards, t.cards)
    ensures Untouched(b.cards, t.cards, Some(i), b.firstCard)
    ensures t.firstCard in {b.firstCard, Some(i)} && t.secondCard in {b.secondCard, Some(i)}
    ensures !Admitted(b, i) ==> t == b
    ensures Admitted(b, i) ==> t.cards[i].flip && t.hasFlippedCard == !b.hasFlippedCard
    ensures Admitted(b, i) && !b.hasFlippedCard ==>
              t.pending == b.pending && t.lockBoard == b.lockBoard && t.cards == b.cards[i := b.cards[i].(flip := true)]
    ensures Admitted(b, i) && b.hasFlippedCard ==>
              && t.pending == b.pending + [if Pairs(b, i) then Disable else Unflip]
              && t.lockBoard == !Pairs(b, i)
              && !t.cards[i].listening == Pairs(b, i)
    ensures b.cards[i].listening ==> t == FlipCard(b, i)
    ensures Invariant(b) ==> Invariant(t)
  {
    if b.cards[i].listening then FlipCard(b, i) else b
  }
}
