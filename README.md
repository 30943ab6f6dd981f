# Memory card game: turn-handling model

This project models the turn logic of a browser memory (pairs) game in Dafny. The player clicks
`.memory-card` elements two at a time. Two cards with the same `data-product` key are a match: they
lose their click listener, and a callback 900 ms later adds the `memory-card-shadow` class. Two cards
with different keys are a mismatch: the board is locked, and a callback 900 ms later removes the
`flip` class and releases the lock. Both callbacks act on whichever cards are current when they run,
so these outcomes hold only when no earlier callback is still pending and no card is clicked before
the callback runs.

The logic exists in two versions, and both are modelled:

- `src/js/modules/game.js`: the `createGame` closure, with `mount` and the `shuffleCards` helper of
  `src/js/modules/shuffle.js`.
- `js/app.js`: the older script. It has module-level state, a load-time shuffle into 12 slots, and
  timer callbacks without null checks.

Structure:

- `turn.dfy`, module `Turn`, holds the shared data model and the synchronous handlers. These are
  `flipCard`, `checkForMatch`, the parts of `disableCards` and `unflipCard` that run before
  `setTimeout`, and `resetBoard`, each a function on a `Board` value. They follow game.js, which
  reaches the first and second card through `?.`. app.js has the same statements but dereferences
  the cards directly. The two behave the same on every board that satisfies `Turn.Invariant`, and
  `App.ClickCard` models the direct dereference where it can fail.
  - A card is an index into the deck. `Card` holds the key, the two classes, whether `flipCard` is
    still its listener, and its flexbox `order`.
  - `firstCard` and `secondCard` are `Option<nat>`. `None` stands for both `null` and `undefined`.
  - Each `setTimeout(…, 900)` adds an `Action` (`Unflip` or `Disable`) to a FIFO queue `pending`.
    Every delay is the same, so callbacks run in the order they were scheduled.
  - The page's events are `ClickOn(i)` and `Timeout`, which runs the oldest pending callback.
- `shuffle.dfy`, module `Shuffle`, models `shuffleCards`. `Math.random()` is an oracle, given as the
  sequence of values it returns.
- `game.dfy`, module `Game`, models the game.js callbacks, which skip a null card through `?.`, and
  `mount`. It also has the lemmas over runs of events and the class `MemoryGame`, whose fields are the
  closure's variables.
- `app.dfy`, module `App`, models the app.js callbacks. When a card reference is null, the callback
  throws a TypeError: the statements before the throw keep their effect and the rest is lost. The
  module also has the load-time shuffle, the lemma that ties app.js to game.js, and the class
  `Script`, whose fields are the script's module-level variables.

Each class method is proved against the `Turn`, `Game` or `App` function of the same source function:
`ensures Model() == F(old(Model()))`. The properties themselves are proved about those functions.

Behaviour the code has and the model keeps:

- The timer callbacks read `firstCard` and `secondCard` when they run, not when they were scheduled.
- The unflip callback does not reset the turn. The card that was first in a mismatch stays
  `firstCard`, so a click on it as the first card of the next turn is ignored
  (`Game.MismatchKeepsFirstCard`).
- A match does not lock the board. Four cards can be face up at once
  (`Game.MatchLeavesBoardOpen`). The match callback then shadows the pair that is current when it
  runs, and the matched pair stays face up, unshadowed and without listeners under any later clicks
  and timers (`Game.FastClicksStrandMatchedPair`). Only a further call of `mount` re-attaches the
  listeners.
- A first click does not clear `secondCard`. One click on a third card during a match's 900 ms
  makes the match callback shadow that card and the second card of the pair, not the first. The
  reset then drops the new turn, and the third card stays face up, shadowed and still listening
  (`Game.ClickDuringMatchShadowsWrongCard`).
- A match followed at once by a mismatch strands the mismatched pair. The match callback runs first,
  shadows the mismatched pair, and its reset releases the lock early. The unflip callback then finds
  null references. In game.js it does nothing, so the mismatched pair stays face up, shadowed and
  still listening (`Game.MatchCallbackStrandsMismatch`). In app.js it throws
  (`App.StrandedUnflipThrows`).
- In app.js, the second of two match callbacks finds `firstCard` null and throws. In game.js the same
  callback does nothing (`App.BackToBackMatchesThrow`).

What the code does not have, and the model does not add:

- The code has no win detection, no restart, no audio or overlay hooks, and no `matched` status. The
  function `allFlippedCard` in game.js is an empty stub.
- Nothing keeps the number of face-up cards at two: four cards can be face up at once
  (`Game.MatchLeavesBoardOpen`). A matched pair can stay unshadowed
  (`Game.FastClicksStrandMatchedPair`).

## Model

| member | source | states |
|---|---|---|
| `Turn.Initial` | src/js/modules/game.js:5-11 | every card starts with no class, no listener and order 0; the four session variables start false, false, null, null; no timer is pending; the invariant holds |
| `Turn.Attached` | src/js/modules/game.js:81 | after attaching, every card listens and nothing else about it changed |
| `Turn.AttachListeners` | src/js/modules/game.js:81 | the loop over the deck registers the click listener on every card, in place, and changes nothing else |
| `Turn.ResetBoard` | src/js/modules/game.js:14-19 | `hasFlippedCard` and `lockBoard` become false and both card references become null; the deck and pending timers are untouched, and the result satisfies the invariant |
| `Turn.UnflipCard` | src/js/modules/game.js:22-25 | the board is locked and one unflip callback is queued; no card and no other variable changes yet |
| `Turn.DisableCards` | src/js/modules/game.js:34-39 | exactly the first and second cards lose their listener at once, nothing is locked, and one disable callback is queued |
| `Turn.CheckForMatch` | src/js/modules/game.js:48-52 | exactly one callback is queued, the disable one iff the two keys are equal; only a mismatch locks. Card by card, a match removes the listener of exactly the two referenced cards and changes nothing else: they stay face up and unshadowed. A mismatch leaves the deck unchanged |
| `Turn.FlipCard` | src/js/modules/game.js:55-76 | a locked board or a click on `firstCard` changes nothing. Otherwise: the first click of a turn flips the card, sets `hasFlippedCard` and `firstCard`, and schedules nothing. The second click clears `hasFlippedCard`, sets `secondCard`, queues `Disable` iff the keys are equal and `Unflip` otherwise, locks iff mismatch, and on a match detaches both cards. Only the clicked and first cards change, and the invariant is kept |
| `Turn.Click` | src/js/modules/game.js:57-63 | a click that is not admitted (card without listener, board locked, or card equal to `firstCard`) changes nothing. A click on a listening card is `flipCard`. An admitted first click only flips the card. An admitted second click queues `Disable` and detaches both cards iff its key equals the first card's, and otherwise queues `Unflip` and locks. It touches no card but the clicked and first cards and keeps the invariant |
| `Shuffle.Rank` | src/js/modules/shuffle.js:4 | `Math.floor(u * total)` for `u` in [0, 1) is the floor of the product and lies in [0, total) |
| `Shuffle.Ranked` | src/js/modules/shuffle.js:3-5 | card `j` gets the rank of the `j`-th draw; every rank is in [0, total); only the order field is written |
| `Shuffle.ShuffleCards` | src/js/modules/shuffle.js:1-6 | in place, each card's order becomes its own rank in [0, cards.length), written once in collection order; keys, classes and listeners stay, and an empty deck is left as it is |
| `Game.RunUnflip` | src/js/modules/game.js:25-30 | exactly the cards that are first or second when the callback runs lose `flip`, a null reference is skipped, the lock is released, and `firstCard`, `secondCard` and `hasFlippedCard` are kept |
| `Game.RunDisable` | src/js/modules/game.js:39-44 | exactly the cards that are first or second when the callback runs get `memory-card-shadow`, a null reference is skipped, and all four session variables are reset |
| `Game.FireTimer` | src/js/modules/game.js:25-44 | with nothing pending nothing changes. Otherwise the oldest callback leaves the queue and the lock is released. Unflip turns face down exactly the cards that are first or second when it runs and keeps the turn variables. Disable shadows exactly those cards and resets the board. A null reference touches nothing, and the invariant is kept |
| `Game.Mounted` | src/js/modules/game.js:79-82 | after mount every card listens and has the rank of its draw, in [0, number of cards); keys, classes, session variables and pending timers are unchanged |
| `Game.RunKeepsInvariant` | src/js/modules/game.js:7-76 | over any sequence of clicks and timers: a turn in progress has its first card, and a held lock has both cards and a pending unflip callback that will release it |
| `Game.RunIsMonotone` | src/js/modules/game.js:34-44 | over any run of clicks and timers, keys and orders never change, a shadow is never removed and a removed listener never comes back (only a further `mount` re-attaches listeners) |
| `Game.DetachedCardIsFrozen` | src/js/modules/game.js:36-37 | a card without listener that is neither first nor second card never changes again and never becomes first or second card |
| `Game.MismatchKeepsFirstCard` | src/js/modules/game.js:22-31 | after a mismatch has played out, both cards are face down and unlocked, but `firstCard` still names the first one, so a click on it does nothing |
| `Game.MatchLeavesBoardOpen` | src/js/modules/game.js:34-45 | after a match, two more cards can be flipped before its callback runs: four cards are face up and two callbacks are pending |
| `Game.FastClicksStrandMatchedPair` | src/js/modules/game.js:39-44 | the match callback then shadows the second pair, while the matched pair stays face up, unshadowed and without listener whatever happens later |
| `Game.ClickDuringMatchShadowsWrongCard` | src/js/modules/game.js:14-44 | a click on a third card during a match's delay leaves `secondCard` set, so the match callback shadows the third card and the pair's second card and resets the turn; the pair's first card stays unshadowed and the third card stays face up, shadowed and listening |
| `Game.MatchCallbackStrandsMismatch` | src/js/modules/game.js:14-44 | after a match and then a mismatch, the match callback shadows the mismatched pair, releases the lock and clears both references, and the unflip callback is then a no-op: the mismatched pair stays face up, shadowed and listening |
| `Game.MemoryGame.constructor` | src/js/modules/game.js:3-11 | `createGame` builds the deck and the session variables of `Turn.Initial` |
| `Game.MemoryGame.ResetBoard` | src/js/modules/game.js:14-19 | the closure's variables change as `Turn.ResetBoard` says |
| `Game.MemoryGame.UnflipCard` | src/js/modules/game.js:22-31 | the lock is set and the callback queued as `Turn.UnflipCard` says |
| `Game.MemoryGame.DisableCards` | src/js/modules/game.js:34-45 | the listeners are removed in the card array and the callback queued as `Turn.DisableCards` says |
| `Game.MemoryGame.CheckForMatch` | src/js/modules/game.js:48-52 | the keys are compared through `?.` and the dispatch is `Turn.CheckForMatch` |
| `Game.MemoryGame.FlipCard` | src/js/modules/game.js:55-76 | the handler updates the card array and the variables as `Turn.FlipCard` says |
| `Game.MemoryGame.Click` | src/js/modules/game.js:81 | a click reaches `flipCard` only through a registered listener; the invariant is kept and the new state is `Turn.Click` |
| `Game.MemoryGame.FireNext` | src/js/modules/game.js:25-44 | the oldest timer callback runs on the array as `Game.FireTimer` says; the invariant is kept |
| `Game.MemoryGame.Mount` | src/js/modules/game.js:79-82 | shuffles the card array, then attaches every listener, as `Game.Mounted` says |
| `App.FireTimer` | js/app.js:33-53 | a callback throws exactly when one is pending and a card reference is null; when it does not throw it does what the game.js callback does; when it throws only the first card may have changed (flip removed or shadow added), the rest of the state is kept, and the queue advances. A held lock always comes with both cards, so that callback never throws and always unlocks |
| `App.Loaded` | js/app.js:60-67 | after the script has run, every card is listening, has a rank in [0, 12) whatever the number of cards, and no class; the variables are unset and nothing is pending |
| `App.ShuffleOnLoad` | js/app.js:60-65 | in place, each card in collection order gets the rank of its draw into 12 slots, a value in [0, 12), and nothing else changes |
| `App.ClickCard` | js/app.js:7-31 | a click throws exactly when it is admitted as a second click and `firstCard` is null. The throw comes at `checkForMatch`'s direct dereference, after the card was flipped and `secondCard` set, and nothing is scheduled. Otherwise the click is `Turn.Click`, and on a board that keeps the invariant it never throws |
| `App.StrandedUnflipThrows` | js/app.js:33-53 | after a match and then a mismatch, the match callback shadows the mismatched pair and resets the board, and the unflip callback then finds `firstCard` null and throws without turning anything face down |
| `App.RunKeepsInvariant` | js/app.js:7-58 | the invariant of `Turn.Invariant` survives every click and every timer callback, including those that throw |
| `App.RunAgreesWithGame` | js/app.js:33-53 | from any board, as long as no click or callback throws, the script goes through the same boards as the game.js version on the same events |
| `App.BackToBackMatchesThrow` | js/app.js:37-41 | two matches clicked in quick succession: the first callback shadows the second pair and resets, and the second finds `firstCard` null and throws, where the game.js callback is a no-op |
| `App.Script.constructor` | js/app.js:1-67 | loading the script shuffles the card array into 12 slots and attaches every listener, giving `App.Loaded` |
| `App.Script.ResetBoard` | js/app.js:55-58 | both destructuring assignments give `Turn.ResetBoard` |
| `App.Script.UnflipCard` | js/app.js:45-53 | the lock is set and the callback queued as `Turn.UnflipCard` says |
| `App.Script.DisableCards` | js/app.js:33-43 | it dereferences both cards, which it requires to be set, and removes their listeners as `Turn.DisableCards` says |
| `App.Script.CheckForMatch` | js/app.js:27-31 | it reads both keys directly, with both cards required to be set, and dispatches as `Turn.CheckForMatch` |
| `App.Script.FlipCard` | js/app.js:7-25 | the handler gives `Turn.FlipCard`; the invariant proves that `checkForMatch` never meets a null card |
| `App.Script.Click` | js/app.js:67 | a click reaches `flipCard` only through a registered listener; the invariant is kept and the new state is `Turn.Click` |
| `App.Script.FireNext` | js/app.js:37-52 | the oldest callback runs on the array and reports whether it threw, as `App.FireTimer` says; the invariant is kept |

## Left out

- Win detection, restart, the won flag, win and overlay hooks: the code has none of them. `allFlippedCard` in game.js is an empty stub, so it is not modelled as behaviour.
- `src/js/modules/sound.js` (browser `Audio` playback and its cache), `src/js/modules/theme-toggle.js` (`localStorage`, `matchMedia`, DOM attributes) and `src/js/modules/a11y.js` (ARIA attributes, and Enter or Space forwarded to `card.click()`): these are I/O and presentation. A forwarded key press is the same event as `ClickOn(i)`.
- `src/js/main.js`: a `DOMContentLoaded` bootstrap that imports a module that is not part of this model. `vite.config.js` and `stylelint.config.cjs` are build configuration.
- Real time and the browser event loop: the 900 ms timers become a FIFO queue, and the page's events are clicks and "the oldest timer runs out".
- Other DOM behaviour: `querySelectorAll` becomes a list of keys; rendering of `flip`, `memory-card-shadow` and flexbox `order` becomes flags and an integer. A click on something that is not a card is not modelled: every click names a card of the deck.
- Card identity and aliasing: cards are positions in one array, and `this === firstCard` becomes index equality.
- Shuffle.Rank: computes `Math.floor(Math.random() * total)` over exact reals instead of IEEE doubles, and `Math.random()` is an input sequence of values in [0, 1).
- Turn.Initial: the cards' initial `style.order` is taken as 0, and their initial classes and listeners as absent. The page's markup is not part of this model.
