/**
 * The `createGame` closure of src/js/modules/game.js. Its timer callbacks
 * reach the cards through `?.`, so a callback that finds a null first or
 * second card simply skips it. `mount` shuffles the deck and attaches the
 * click listeners. There is no win detection and no restart: the
 * `allFlippedCard` stub is empty, and nothing here stands in for it.
 */
module Game {
  import opened Turn
  import opened Shuffle

  /**
   * The callback of `unflipCard`: the cards that are first and second when
   * it runs turn face down and the lock is released; the turn is not reset.
   */
  function RunUnflip(b: Board): (t: Board)
    requires WellFormed(b)
    ensures t.hasFlippedCard == b.hasFlippedCard && !t.lockBoard && t.pending == b.pending
    ensures t.firstCard == b.firstCard && t.secondCard == b.secondCard
    ensures |t.cards| == |b.cards|
    ensures forall j :: 0 <= j < |b.cards| ==> t.cards[j] == b.cards[j].(flip := b.cards[j].flip && !Held(b, j))
  {
    b.(cards := SetFlip(SetFlip(b.cards, b.firstCard, false), b.secondCard, false), lockBoard := false)
  }

  /**
   * The callback of `disableCards`: the cards that are first and second
   * when it runs get the shadow class and the board is reset.
   */
  function RunDisable(b: Board): (t: Board)
    requires WellFormed(b)
    ensures !t.hasFlippedCard && !t.lockBoard && t.firstCard.None? && t.secondCard.None? && t.pending == b.pending
    ensures |t.cards| == |b.cards|
    ensures forall j :: 0 <= j < |b.cards| ==> t.cards[j] == b.cards[j].(shadow := b.cards[j].shadow || Held(b, j))
  {
    ResetBoard(b.(cards := AddShadow(AddShadow(b.cards, b.firstCard), b.secondCard)))
  }

  /**
   * The oldest pending timer runs out and its callback runs. Callbacks read
   * the card references when they run, not when they were scheduled, and
   * skip a null one; whichever runs, the lock is released.
   */
  function FireTimer(b: Board): (t: Board)
    requires WellFormed(b)
    ensures WellFormed(t) && Monotone(b.cards, t.cards)
    ensures Untouched(b.cards, t.cards, b.firstCard, b.secondCard)
    ensures b.pending == [] ==> t == b
    ensures b.pending != [] ==> t.pending == b.pending[1..] && !t.lockBoard
    ensures b.pending != [] && b.pending[0] == Unflip ==>
              && t.hasFlippedCard == b.hasFlippedCard
              && t.firstCard == b.firstCard && t.secondCard == b.secondCard
              && forall j :: 0 <= j < |b.cards| ==> t.cards[j] == b.cards[j].(flip := b.cards[j].flip && !Held(b, j))
    ensures b.pending != [] && b.pending[0] == Disable ==>
              && !t.hasFlippedCard && t.firstCard.None? && t.secondCard.None?
              && forall j :: 0 <= j < |b.cards| ==> t.cards[j] == b.cards[j].(shadow := b.cards[j].shadow || Held(b, j))
    ensures Invariant(b) ==> Invariant(t)
  {
    if b.pending == [] then b
    else
      var rest := b.(pending := b.pending[1..]);
      match b.pending[0]
      case Unflip => RunUnflip(rest)
      case Disable => RunDisable(rest)
  }

  /**
   * `mount`: every card gets a rank in [0, number of cards) and the click
   * listener; the session variables and pending timers are left alone.
   */
  function Mounted(b: Board, draws: seq<real>): (t: Board)
    requires Draws(draws, |b.cards|)
    ensures |t.cards| == |b.cards|
    ensures forall j :: 0 <= j < |b.cards| ==>
              && t.cards[j].listening
              && 0 <= t.cards[j].order < |b.cards|
              && t.cards[j].order == Rank(draws[j], |b.cards|)
              && t.cards[j].(order := b.cards[j].order, listening := b.cards[j].listening) == b.cards[j]
    ensures t.(cards := b.cards) == b
    ensures Invariant(b) ==> Invariant(t)
  {
    b.(cards := Attached(Ranked(b.cards, draws, |b.cards|)))
  }

  function Step(b: Board, e: Event): (t: Board)
    requires WellFormed(b) && (e.ClickOn? ==> e.card < |b.cards|)
    ensures WellFormed(t) && Monotone(b.cards, t.cards)
    ensures Invariant(b) ==> Invariant(t)
  {
    match e
    case ClickOn(i) => Click(b, i)
    case Timeout => FireTimer(b)
  }

  /** The board after the events `evs`, one after the other. */
  function Run(b: Board, evs: seq<Event>): (r: Board)
    requires WellFormed(b) && Targets(|b.cards|, evs)
    ensures WellFormed(r) && |r.cards| == |b.cards|
    decreases |evs|
  {
    if evs == [] then b
    else
      assert evs[0].ClickOn? ==> evs[0].card < |b.cards|;
      Run(Step(b, evs[0]), evs[1..])
  }

  /** No sequence of clicks and timers breaks the board's invariant. */
  lemma {:induction false} RunKeepsInvariant(b: Board, evs: seq<Event>)
    requires Invariant(b) && Targets(|b.cards|, evs)
    ensures Invariant(Run(b, evs))
    decreases |evs|
  {
    if evs != [] {
      assert evs[0].ClickOn? ==> evs[0].card < |b.cards|;
      RunKeepsInvariant(Step(b, evs[0]), evs[1..]);
    }
  }

  /**
   * Over any run of clicks and timers the deck keeps its keys and orders,
   * a shadowed card stays shadowed and a card that has lost its listener
   * does not get it back (only a further `mount` would re-attach it).
   */
  lemma {:induction false} RunIsMonotone(b: Board, evs: seq<Event>)
    requires WellFormed(b) && Targets(|b.cards|, evs)
    ensures Monotone(b.cards, Run(b, evs).cards)
    decreases |evs|
  {
    if evs != [] {
      assert evs[0].ClickOn? ==> evs[0].card < |b.cards|;
      var c := Step(b, evs[0]);
      RunIsMonotone(c, evs[1..]);
    }
  }

  /**
   * A card without listener that is neither the first nor the second card
   * never changes again: clicks cannot reach it, so it never becomes a
   * first or second card, and callbacks only touch those two.
   */
  lemma {:induction false} DetachedCardIsFrozen(b: Board, evs: seq<Event>, j: nat)
    requires WellFormed(b) && Targets(|b.cards|, evs) && j < |b.cards|
    requires !b.cards[j].listening && !Held(b, j)
    ensures Run(b, evs).cards[j] == b.cards[j] && !Held(Run(b, evs), j)
    decreases |evs|
  {
    if evs != [] {
      assert evs[0].ClickOn? ==> evs[0].card < |b.cards|;
      var c := Step(b, evs[0]);
      assert c.cards[j] == b.cards[j] && !Held(c, j);
      DetachedCardIsFrozen(c, evs[1..], j);
    }
  }

  /**
   * After a mismatch has played out, the first card is face down again but
   * is still `firstCard`, so clicking it as the first card of the next turn
   * does nothing.
   */
  lemma MismatchKeepsFirstCard(b: Board, i: nat, j: nat)
    requires Invariant(b) && i < |b.cards| && j < |b.cards| && i != j
    requires !b.hasFlippedCard && !b.lockBoard && b.pending == [] && b.firstCard != Some(i)
    requires b.cards[i].listening && b.cards[j].listening && b.cards[i].product != b.cards[j].product
    ensures var c := FireTimer(Click(Click(b, i), j));
            && c.firstCard == Some(i) && c.secondCard == Some(j)
            && !c.hasFlippedCard && !c.lockBoard && c.pending == []
            && !c.cards[i].flip && !c.cards[j].flip
            && Click(c, i) == c
  {
  }

  /**
   * A match does not lock the board, so two more cards can be flipped
   * before its callback runs: four cards are face up at once.
   */
  lemma MatchLeavesBoardOpen(b: Board, i: nat, j: nat, k: nat, l: nat)
    requires Invariant(b) && i < |b.cards| && j < |b.cards| && k < |b.cards| && l < |b.cards|
    requires i != j && i != k && i != l && j != k && j != l && k != l
    requires !b.hasFlippedCard && !b.lockBoard && b.pending == [] && b.firstCard != Some(i)
    requires b.cards[i].listening && b.cards[j].listening && b.cards[k].listening && b.cards[l].listening
    requires b.cards[i].product == b.cards[j].product
    ensures var m := Click(Click(Click(Click(b, i), j), k), l);
            && m.cards[i].flip && m.cards[j].flip && m.cards[k].flip && m.cards[l].flip
            && !m.cards[i].listening && !m.cards[j].listening
            && m.firstCard == Some(k) && m.secondCard == Some(l)
            && m.pending == [Disable, if b.cards[k].product == b.cards[l].product then Disable else Unflip]
            && m.lockBoard == (b.cards[k].product != b.cards[l].product)
  {
  }

  /**
   * A disable callback leaves every card it does not hold as it was, and
   * clears both references.
   */
  lemma DisableSparesOthers(m: Board, i: nat, j: nat)
    requires WellFormed(m) && i < |m.cards| && j < |m.cards|
    requires m.pending != [] && m.pending[0] == Disable && !Held(m, i) && !Held(m, j)
    ensures var c := FireTimer(m);
            && c.cards[i] == m.cards[i] && c.cards[j] == m.cards[j]
            && c.firstCard.None? && c.secondCard.None?
  {
  }

  /**
   * When the match callback of the lemma above finally runs, it shadows
   * and releases the second pair, and the matched pair stays face up,
   * unshadowed and without listeners under any later clicks and timers.
   */
  lemma FastClicksStrandMatchedPair(b: Board, i: nat, j: nat, k: nat, l: nat, later: seq<Event>)
    requires Invariant(b) && i < |b.cards| && j < |b.cards| && k < |b.cards| && l < |b.cards|
    requires i != j && i != k && i != l && j != k && j != l && k != l
    requires !b.hasFlippedCard && !b.lockBoard && b.pending == [] && b.firstCard != Some(i)
    requires b.cards[i].listening && b.cards[j].listening && b.cards[k].listening && b.cards[l].listening
    requires b.cards[i].product == b.cards[j].product && !b.cards[i].shadow && !b.cards[j].shadow
    requires Targets(|b.cards|, later)
    ensures var c := FireTimer(Click(Click(Click(Click(b, i), j), k), l));
            && c.cards[k].shadow && c.cards[l].shadow
            && c.cards[i].flip && !c.cards[i].shadow && !c.cards[i].listening
            && c.cards[j].flip && !c.cards[j].shadow && !c.cards[j].listening
            && Run(c, later).cards[i] == c.cards[i] && Run(c, later).cards[j] == c.cards[j]
  {
    MatchLeavesBoardOpen(b, i, j, k, l);
    var m2 := Click(Click(b, i), j);
    assert m2.cards[i] == b.cards[i].(flip := true, listening := false);
    assert m2.cards[j] == b.cards[j].(flip := true, listening := false);
    var m := Click(Click(m2, k), l);
    assert m.cards[i] == m2.cards[i] && m.cards[j] == m2.cards[j];
    DisableSparesOthers(m, i, j);
    var c := FireTimer(m);
    DetachedCardIsFrozen(c, later, i);
    DetachedCardIsFrozen(c, later, j);
  }

  /**
   * One click during a match's 900 ms starts a new turn but leaves
   * `secondCard` in place, so the match callback shadows the new card and
   * the second card of the pair, not the first. Its reset then drops the
   * new card's turn: that card stays face up, shadowed and still listening.
   */
  lemma ClickDuringMatchShadowsWrongCard(b: Board, i: nat, j: nat, k: nat)
    requires Invariant(b) && i < |b.cards| && j < |b.cards| && k < |b.cards|
    requires i != j && i != k && j != k
    requires !b.hasFlippedCard && !b.lockBoard && b.pending == [] && b.firstCard != Some(i)
    requires b.cards[i].listening && b.cards[j].listening && b.cards[k].listening
    requires b.cards[i].product == b.cards[j].product && !b.cards[i].shadow
    ensures var c := FireTimer(Click(Click(Click(b, i), j), k));
            && c.cards[k].flip && c.cards[k].shadow && c.cards[k].listening
            && c.cards[j].flip && c.cards[j].shadow && !c.cards[j].listening
            && c.cards[i].flip && !c.cards[i].shadow && !c.cards[i].listening
            && !c.hasFlippedCard && c.firstCard.None? && c.secondCard.None? && c.pending == []
  {
  }

  /**
   * A match followed at once by a mismatch: the match callback runs first
   * and shadows the cards current at that moment, which are the mismatched
   * pair, and its reset releases the mismatch's lock early. The unflip
   * callback then finds both references null and does nothing, so the
   * mismatched pair stays face up, shadowed and still listening.
   */
  lemma MatchCallbackStrandsMismatch(b: Board, i: nat, j: nat, k: nat, l: nat)
    requires Invariant(b) && i < |b.cards| && j < |b.cards| && k < |b.cards| && l < |b.cards|
    requires i != j && i != k && i != l && j != k && j != l && k != l
    requires !b.hasFlippedCard && !b.lockBoard && b.pending == [] && b.firstCard != Some(i)
    requires b.cards[i].listening && b.cards[j].listening && b.cards[k].listening && b.cards[l].listening
    requires b.cards[i].product == b.cards[j].product && b.cards[k].product != b.cards[l].product
    ensures var c := FireTimer(Click(Click(Click(Click(b, i), j), k), l));
            && c.cards[k].flip && c.cards[k].shadow && c.cards[k].listening
            && c.cards[l].flip && c.cards[l].shadow && c.cards[l].listening
            && !c.lockBoard && c.firstCard.None? && c.secondCard.None? && c.pending == [Unflip]
            && FireTimer(c) == c.(pending := [])
  {
    MatchLeavesBoardOpen(b, i, j, k, l);
  }

  /**
   * The `createGame` closure: the deck, the four session variables and the
   * timers it has scheduled. Cards are named by their position in `cards`.
   */
  class MemoryGame {
    const cards: array<Card>
    var hasFlippedCard: bool
    var lockBoard: bool
    var firstCard: Option<nat>
    var secondCard: Option<nat>
    var pending: seq<Action>

    ghost function Model(): Board
      reads this, cards
    {
      Board(cards[..], hasFlippedCard, lockBoard, firstCard, secondCard, pending)
    }

    ghost predicate Valid()
      reads this, cards
    {
      Invariant(Model())
    }

    /** `createGame()` over the `.memory-card` elements whose keys are `products`. */
    constructor (products: seq<Product>)
      ensures Valid() && fresh(cards)
      ensures Model() == Initial(products)
    {
      cards := new Card[|products|](j requires 0 <= j < |products| => Card(products[j], false, false, false, 0));
      hasFlippedCard, lockBoard := false, false;
      firstCard, secondCard := None, None;
      pending := [];
    }

    method ResetBoard()
      modifies this
      ensures Model() == Turn.ResetBoard(old(Model()))
    {
      hasFlippedCard := false;
      lockBoard := false;
      firstCard := None;
      secondCard := None;
    }

    method UnflipCard()
      modifies this
      ensures Model() == Turn.UnflipCard(old(Model()))
    {
      lockBoard := true;
      pending := pending + [Unflip];
    }

    method DisableCards()
      requires WellFormed(Model())
      modifies this, cards
      ensures Model() == Turn.DisableCards(old(Model()))
    {
      if firstCard.Some? {
        cards[firstCard.value] := cards[firstCard.value].(listening := false);
      }
      if secondCard.Some? {
        cards[secondCard.value] := cards[secondCard.value].(listening := false);
      }
      pending := pending + [Disable];
    }

    method CheckForMatch()
      requires WellFormed(Model())
      modifies this, cards
      ensures Model() == Turn.CheckForMatch(old(Model()))
    {
      var first := if firstCard.Some? then Some(cards[firstCard.value].product) else None;
      var second := if secondCard.Some? then Some(cards[secondCard.value].product) else None;
      if first == second {
        DisableCards();
      } else {
        UnflipCard();
      }
    }

    method FlipCard(i: nat)
      requires WellFormed(Model()) && i < cards.Length
      modifies this, cards
      ensures Model() == Turn.FlipCard(old(Model()), i)
    {
      if lockBoard {
        return;
      }
      if firstCard == Some(i) {
        return;
      }
      cards[i] := cards[i].(flip := true);
      if !hasFlippedCard {
        hasFlippedCard := true;
        firstCard := Some(i);
        return;
      }
      hasFlippedCard := false;
      secondCard := Some(i);
      CheckForMatch();
    }

    /** A click on card `i`, delivered to `flipCard` only while the card listens. */
    method Click(i: nat)
      requires Valid() && i < cards.Length
      modifies this, cards
      ensures Valid() && Model() == Turn.Click(old(Model()), i)
    {
      if cards[i].listening {
        FlipCard(i);
      }
    }

    /** The oldest pending timer runs out and its callback runs. */
    method FireNext()
      requires Valid()
      modifies this, cards
      ensures Valid() && Model() == FireTimer(old(Model()))
    {
      if pending == [] {
        return;
      }
      var action := pending[0];
      pending := pending[1..];
      match action
      case Unflip =>
        if firstCard.Some? {
          cards[firstCard.value] := cards[firstCard.value].(flip := false);
        }
        if secondCard.Some? {
          cards[secondCard.value] := cards[secondCard.value].(flip := false);
        }
        lockBoard := false;
      case Disable =>
        if firstCard.Some? {
          cards[firstCard.value] := cards[firstCard.value].(shadow := true);
        }
        if secondCard.Some? {
          cards[secondCard.value] := cards[secondCard.value].(shadow := true);
        }
        ResetBoard();
    }

    /** `mount()`: shuffle the deck, then attach the click listener to every card. */
    method Mount(draws: seq<real>)
      requires Valid() && Draws(draws, cards.Length)
      modifies cards
      ensures Valid() && Model() == Mounted(old(Model()), draws)
    {
      ShuffleCards(cards, draws);
      AttachListeners(cards);
    }
  }
}
