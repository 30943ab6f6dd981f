/**
 * The older script js/app.js. Its turn logic is the one of module `Turn`;
 * it differs from src/js/modules/game.js in two places. Its timer
 * callbacks dereference `firstCard` and `secondCard` without `?.`, so a
 * callback that finds a null reference throws a TypeError: the statements
 * before the throw have taken effect, the rest of the callback is lost,
 * and the page goes on. And the deck is ranked once, when the script
 * loads, into 12 slots whatever the number of cards, before every card
 * gets its click listener.
 */
module App {
  import opened Turn
  import opened Shuffle
  import Game

  /** The number of order slots the load-time shuffle draws from. */
  const OrderSlots: nat := 12

  /** The board after a handler (a click or a timer callback), and whether the handler threw. */
  datatype Fired = Fired(board: Board, error: bool)

  /**
   * The oldest pending timer runs out. The callback throws exactly when
   * there is one and a card reference is null; when it does not throw, it
   * does what the callback of the module version does. A thrown callback
   * has at most changed the first card, and it leaves the lock as it was;
   * but a held lock always comes with both cards, so it is always released.
   */
  function FireTimer(b: Board): (f: Fired)
    requires WellFormed(b)
    ensures WellFormed(f.board) && Monotone(b.cards, f.board.cards)
    ensures f.error <==> b.pending != [] && (b.firstCard.None? || b.secondCard.None?)
    ensures !f.error ==> f.board == Game.FireTimer(b)
    ensures f.error ==>
              && f.board.pending == b.pending[1..]
              && f.board.hasFlippedCard == b.hasFlippedCard && f.board.lockBoard == b.lockBoard
              && f.board.firstCard == b.firstCard && f.board.secondCard == b.secondCard
              && Untouched(b.cards, f.board.cards, b.firstCard, None)
    ensures f.error && b.firstCard.Some? ==>
              var c := b.cards[b.firstCard.value];
              f.board.cards[b.firstCard.value] == if b.pending[0] == Unflip then c.(flip := false) else c.(shadow := true)
    ensures Invariant(b) && b.lockBoard && b.pending != [] ==> !f.error && !f.board.lockBoard
    ensures Invariant(b) ==> Invariant(f.board)
  {
    if b.pending == [] then Fired(b, false)
    else
      var rest := b.(pending := b.pending[1..]);
      if b.firstCard.None? then Fired(rest, true)
      else
        match b.pending[0]
        case Unflip =>
          var cards := SetFlip(b.cards, b.firstCard, false);
          if b.secondCard.None? then Fired(rest.(cards := cards), true)
          else Fired(rest.(cards := SetFlip(cards, b.secondCard, false), lockBoard := false), false)
        case Disable =>
          var cards := AddShadow(b.cards, b.firstCard);
          if b.secondCard.None? then Fired(rest.(cards := cards), true)
          else Fired(ResetBoard(rest.(cards := AddShadow(cards, b.secondCard))), false)
  }

  /**
   * The page right after the script has run: every card ranked into
   * [0, 12) and listening, the session variables undefined or false.
   */
  function Loaded(products: seq<Product>, draws: seq<real>): (b: Board)
    requires Draws(draws, |products|)
    ensures Invariant(b)
    ensures !b.hasFlippedCard && !b.lockBoard && b.firstCard.None? && b.secondCard.None? && b.pending == []
    ensures |b.cards| == |products|
    ensures forall j :: 0 <= j < |products| ==>
              && b.cards[j] == Card(products[j], false, false, true, Rank(draws[j], OrderSlots))
              && 0 <= b.cards[j].order < OrderSlots
  {
    var b0 := Initial(products);
    b0.(cards := Attached(Ranked(b0.cards, draws, OrderSlots)))
  }

  /**
   * The shuffle run when the script loads: each card, in collection order,
   * gets `Math.floor(Math.random() * 12)`.
   */
  method ShuffleOnLoad(cards: array<Card>, draws: seq<real>)
    requires Draws(draws, cards.Length)
    modifies cards
    ensures cards[..] == Ranked(old(cards[..]), draws, OrderSlots)
    ensures forall j :: 0 <= j < cards.Length ==> 0 <= cards[j].order < OrderSlots
  {
    var i := 0;
    while i < cards.Length
      invariant 0 <= i <= cards.Length
      invariant forall j :: 0 <= j < i ==> cards[j] == old(cards[j]).(order := Rank(draws[j], OrderSlots))
      invariant forall j :: i <= j < cards.Length ==> cards[j] == old(cards[j])
    {
      cards[i] := cards[i].(order := Rank(draws[i], OrderSlots));
      i := i + 1;
    }
  }

  /**
   * A click on card `i` in the script. `checkForMatch` reads
   * `firstCard.dataset` without `?.`, so a second click that finds
   * `firstCard` null throws after the card was flipped and `secondCard`
   * set, and nothing is scheduled. Otherwise the click is `Turn.Click`;
   * on a board that keeps `Turn.Invariant` it never throws.
   */
  function ClickCard(b: Board, i: nat): (f: Fired)
    requires WellFormed(b) && i < |b.cards|
    ensures WellFormed(f.board) && Monotone(b.cards, f.board.cards)
    ensures f.error <==> Admitted(b, i) && b.hasFlippedCard && b.firstCard.None?
    ensures !f.error ==> f.board == Click(b, i)
    ensures f.error ==>
              && f.board.cards == b.cards[i := b.cards[i].(flip := true)]
              && !f.board.hasFlippedCard && f.board.secondCard == Some(i)
              && f.board.firstCard == b.firstCard && f.board.lockBoard == b.lockBoard
              && f.board.pending == b.pending
    ensures Invariant(b) ==> !f.error && Invariant(f.board)
  {
    if Admitted(b, i) && b.hasFlippedCard && b.firstCard.None? then
      Fired(b.(cards := b.cards[i := b.cards[i].(flip := true)], hasFlippedCard := false, secondCard := Some(i)), true)
    else
      Fired(Click(b, i), false)
  }

  function Step(b: Board, e: Event): (f: Fired)
    requires WellFormed(b) && (e.ClickOn? ==> e.card < |b.cards|)
    ensures WellFormed(f.board) && Monotone(b.cards, f.board.cards)
    ensures Invariant(b) ==> Invariant(f.board)
  {
    match e
    case ClickOn(i) => ClickCard(b, i)
    case Timeout => FireTimer(b)
  }

  /** The board after the events `evs`, and whether any handler threw on the way. */
  function Run(b: Board, evs: seq<Event>): (f: Fired)
    requires WellFormed(b) && Targets(|b.cards|, evs)
    ensures WellFormed(f.board) && |f.board.cards| == |b.cards|
    decreases |evs|
  {
    if evs == [] then Fired(b, false)
    else
      assert evs[0].ClickOn? ==> evs[0].card < |b.cards|;
      var s := Step(b, evs[0]);
      var r := Run(s.board, evs[1..]);
      Fired(r.board, s.error || r.error)
  }

  /**
   * No sequence of clicks and timers breaks the board's invariant, thrown
   * callbacks included; from such a board no click ever throws.
   */
  lemma {:induction false} RunKeepsInvariant(b: Board, evs: seq<Event>)
    requires Invariant(b) && Targets(|b.cards|, evs)
    ensures Invariant(Run(b, evs).board)
    decreases |evs|
  {
    if evs != [] {
      assert evs[0].ClickOn? ==> evs[0].card < |b.cards|;
      RunKeepsInvariant(Step(b, evs[0]).board, evs[1..]);
    }
  }

  /**
   * As long as no handler throws, the script and the module version of
   * the game go through the same boards, from any board.
   */
  lemma {:induction false} RunAgreesWithGame(b: Board, evs: seq<Event>)
    requires WellFormed(b) && Targets(|b.cards|, evs)
    ensures !Run(b, evs).error ==> Run(b, evs).board == Game.Run(b, evs)
    decreases |evs|
  {
    if evs != [] {
      assert evs[0].ClickOn? ==> evs[0].card < |b.cards|;
      var s := Step(b, evs[0]);
      assert !s.error ==> s.board == Game.Step(b, evs[0]);
      RunAgreesWithGame(s.board, evs[1..]);
    }
  }

  /**
   * Two matches clicked in quick succession schedule two disable
   * callbacks. The first shadows the second pair and resets the board, so
   * the second finds `firstCard` null: here it throws, where the module
   * version of the game does nothing.
   */
  lemma BackToBackMatchesThrow(b: Board, i: nat, j: nat, k: nat, l: nat)
    requires Invariant(b) && i < |b.cards| && j < |b.cards| && k < |b.cards| && l < |b.cards|
    requires i != j && i != k && i != l && j != k && j != l && k != l
    requires !b.hasFlippedCard && !b.lockBoard && b.pending == [] && b.firstCard != Some(i)
    requires b.cards[i].listening && b.cards[j].listening && b.cards[k].listening && b.cards[l].listening
    requires b.cards[i].product == b.cards[j].product && b.cards[k].product == b.cards[l].product
    ensures var m := Click(Click(Click(Click(b, i), j), k), l);
            var c := Game.FireTimer(m);
            && FireTimer(m) == Fired(c, false)
            && c.firstCard.None? && c.pending == [Disable]
            && FireTimer(c) == Fired(c.(pending := []), true)
            && Game.FireTimer(c) == c.(pending := [])
  {
    Game.MatchLeavesBoardOpen(b, i, j, k, l);
  }

  /**
   * The same run in the script: the match callback shadows the mismatched
   * pair and resets the board, so the unflip callback finds `firstCard`
   * null and throws before it turns anything face down.
   */
  lemma StrandedUnflipThrows(b: Board, i: nat, j: nat, k: nat, l: nat)
    requires Invariant(b) && i < |b.cards| && j < |b.cards| && k < |b.cards| && l < |b.cards|
    requires i != j && i != k && i != l && j != k && j != l && k != l
    requires !b.hasFlippedCard && !b.lockBoard && b.pending == [] && b.firstCard != Some(i)
    requires b.cards[i].listening && b.cards[j].listening && b.cards[k].listening && b.cards[l].listening
    requires b.cards[i].product == b.cards[j].product && b.cards[k].product != b.cards[l].product
    ensures var m := Click(Click(Click(Click(b, i), j), k), l);
            var c := Game.FireTimer(m);
            && FireTimer(m) == Fired(c, false)
            && c.cards[k].flip && c.cards[k].shadow && c.cards[l].flip && c.cards[l].shadow
            && c.firstCard.None? && c.pending == [Unflip]
            && FireTimer(c) == Fired(c.(pending := []), true)
  {
    Game.MatchCallbackStrandsMismatch(b, i, j, k, l);
  }

  /**
   * The script's module-level state: the deck, the four session variables
   * and the timers it has scheduled. Cards are named by their position.
   */
  class Script {
    const cards: array<Card>
    var hasFlippedCard: bool
    var lockBoard: bool
    var firstCard: Option<nat>
    var secondCard: Option<nat>
    var pending: seq<Action>

    ghost function Model(): Board
      reads this, cards
    {
      Board(cards[..], hasFlippedCard, lockBoard, firstCard, secondCard, pending)
    }

    ghost predicate Valid()
      reads this, cards
    {
      Invariant(Model())
    }

    /** Loading the script over the `.memory-card` elements whose keys are `products`. */
    constructor (products: seq<Product>, draws: seq<real>)
      requires Draws(draws, |products|)
      ensures Valid() && fresh(cards)
      ensures Model() == Loaded(products, draws)
    {
      var deck := new Card[|products|](j requires 0 <= j < |products| => Card(products[j], false, false, false, 0));
      assert deck[..] == Initial(products).cards;
      ShuffleOnLoad(deck, draws);
      AttachListeners(deck);
      cards := deck;
      hasFlippedCard, lockBoard := false, false;
      firstCard, secondCard := None, None;
      pending := [];
    }

    method ResetBoard()
      modifies this
      ensures Model() == Turn.ResetBoard(old(Model()))
    {
      hasFlippedCard, lockBoard := false, false;
      firstCard, secondCard := None, None;
    }

    method UnflipCard()
      modifies this
      ensures Model() == Turn.UnflipCard(old(Model()))
    {
      lockBoard := true;
      pending := pending + [Unflip];
    }

    /** Dereferences both cards, so both must be set. */
    method DisableCards()
      requires WellFormed(Model()) && firstCard.Some? && secondCard.Some?
      modifies this, cards
      ensures Model() == Turn.DisableCards(old(Model()))
    {
      cards[firstCard.value] := cards[firstCard.value].(listening := false);
      cards[secondCard.value] := cards[secondCard.value].(listening := false);
      pending := pending + [Disable];
    }

    /** Dereferences both cards, so both must be set. */
    method CheckForMatch()
      requires WellFormed(Model()) && firstCard.Some? && secondCard.Some?
      modifies this, cards
      ensures Model() == Turn.CheckForMatch(old(Model()))
    {
      var isMatch := cards[firstCard.value].product == cards[secondCard.value].product;
      if isMatch {
        DisableCards();
      } else {
        UnflipCard();
      }
    }

    /** The invariant guarantees that `checkForMatch` finds both cards set. */
    method FlipCard(i: nat)
      requires Valid() && i < cards.Length
      modifies this, cards
      ensures Model() == Turn.FlipCard(old(Model()), i)
    {
      if lockBoard {
        return;
      }
      if firstCard == Some(i) {
        return;
      }
      cards[i] := cards[i].(flip := true);
      if !hasFlippedCard {
        hasFlippedCard := true;
        firstCard := Some(i);
        return;
      }
      hasFlippedCard := false;
      secondCard := Some(i);
      CheckForMatch();
    }

    /** A click on card `i`, delivered to `flipCard` only while the card listens. */
    method Click(i: nat)
      requires Valid() && i < cards.Length
      modifies this, cards
      ensures Valid() && Model() == Turn.Click(old(Model()), i)
    {
      if cards[i].listening {
        FlipCard(i);
      }
    }

    /** The oldest pending timer runs out; `error` tells whether its callback threw. */
    method FireNext() returns (error: bool)
      requires Valid()
      modifies this, cards
      ensures Valid()
      ensures Model() == FireTimer(old(Model())).board && error == FireTimer(old(Model())).error
    {
      if pending == [] {
        return false;
      }
      var action := pending[0];
      pending := pending[1..];
      if firstCard.None? {
        return true;
      }
      match action
      case Unflip =>
        cards[firstCard.value] := cards[firstCard.value].(flip := false);
        if secondCard.None? {
          return true;
        }
        cards[secondCard.value] := cards[secondCard.value].(flip := false);
        lockBoard := false;
        error := false;
      case Disable =>
        cards[firstCard.value] := cards[firstCard.value].(shadow := true);
        if secondCard.None? {
          return true;
        }
        cards[secondCard.value] := cards[secondCard.value].(shadow := true);
        ResetBoard();
        error := false;
    }
  }
}
