/**
 * `shuffleCards` of src/js/modules/shuffle.js: every card gets a random
 * flexbox order rank. Ranks are drawn independently, so two cards may get
 * the same rank: this is not a permutation. `Math.random()` is an oracle,
 * given here as the sequence of values it returns, one per call.
 */
module Shuffle {
  import opened Turn

  /** Enough values of `Math.random()` for `n` cards, each in [0, 1). */
  predicate Draws(draws: seq<real>, n: nat) {
    n <= |draws| && forall k :: 0 <= k < |draws| ==> 0.0 <= draws[k] < 1.0
  }

  /** `Math.floor(u * total)` for a draw `u` of `Math.random()`: a rank in [0, total). */
  function Rank(u: real, total: nat): (r: int)
    requires 0.0 <= u < 1.0
    ensures r as real <= u * total as real < r as real + 1.0
    ensures 0 <= r && (total > 0 ==> r < total)
  {
    assert total > 0 ==> u * total as real < total as real;
    (u * total as real).Floor
  }

  /**
   * The deck after one ranking pass: card `j` takes the `j`-th draw scaled
   * to `total`; only the order field is written.
   */
  function Ranked(cards: seq<Card>, draws: seq<real>, total: nat): (r: seq<Card>)
    requires Draws(draws, |cards|)
    ensures |r| == |cards|
    ensures forall j :: 0 <= j < |cards| ==> r[j] == cards[j].(order := Rank(draws[j], total))
    ensures forall j :: 0 <= j < |cards| ==> 0 <= r[j].order && (total > 0 ==> r[j].order < total)
  {
    seq(|cards|, j requires 0 <= j < |cards| => cards[j].(order := Rank(draws[j], total)))
  }

  /**
   * `shuffleCards(cards)`: visits the cards in collection order and gives
   * each a rank in [0, cards.length); keys, classes and listeners stay.
   */
  method ShuffleCards(cards: array<Card>, draws: seq<real>)
    requires Draws(draws, cards.Length)
    modifies cards
    ensures cards[..] == Ranked(old(cards[..]), draws, cards.Length)
    ensures forall j :: 0 <= j < cards.Length ==> 0 <= cards[j].order < cards.Length
    ensures forall j :: 0 <= j < cards.Length ==> cards[j].(order := old(cards[j]).order) == old(cards[j])
  {
    var total := cards.Length;
    var i := 0;
    while i < cards.Length
      invariant 0 <= i <= cards.Length
      invariant forall j :: 0 <= j < i ==> cards[j] == old(cards[j]).(order := Rank(draws[j], total))
      invariant forall j :: i <= j < cards.Length ==> cards[j] == old(cards[j])
    {
      cards[i] := cards[i].(order := Rank(draws[i], total));
      i := i + 1;
    }
  }
}
