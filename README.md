# Card reveal mini-game: card animation and deck sequencing

This project models the two stateful parts of a browser card-reveal game and proves
properties about them:

- **The card** (`card.dfy`, module `Card`). A `CardView` sprite starts face down at
  scale 0.5. `reveal()` is guarded by a one-shot `revealed` flag. The first call sets
  the flag and registers a per-frame callback with the shared ticker. That callback
  runs four phases in order:
  - flip-out: `scale.x` shrinks by `0.1*dt`;
  - flip-in: the texture switches to the front face, then `scale.x` grows by `0.1*dt`
    and is clamped to the starting scale;
  - fade: `alpha` drops by `0.02*dt`;
  - done: once `alpha <= 0` the sprite is hidden and the promise resolves. The
    callback then tries to take itself off the ticker, but the call removes nothing
    (see "## Findings"). The model uses the evidently intended removal.

  The class `Card.CardView` keeps the sprite's fields and the callback's captured
  flags (`flipping`, `fading`, `startScaleX`). It also has a flag `ticking` for
  "callback registered" and a counter `completions` for "promise resolved".
  - Its methods `Reveal` and `Tick` are specified by the pure functions `Revealing`
    and `Step` on a `CardState` snapshot. `Step` clears `ticking` on the frame the
    fade ends. `StepAsWritten` is the callback as the code has it, where the callback
    stays registered.
  - `Run` applies `Step` over `n` frames with deltas `delta(0)`, …, `delta(n-1)`.
  - `PhaseOf` reads the phase (Idle, FlipOut, FlipIn, Fade, Done) off the flags.
  - `Valid` is the invariant that ties the flags, the texture, visibility and the
    completion count to the phase.
- **The deck** (`deck.dfy`, module `Deck`). The `CardDeck` constructor shuffles the
  atlas keys and takes at most the first five. It builds one card per key and places card `i`
  at `(w/2 + (i - n/2)*(-30), h/2 + (i - n/2)*15)`, where `n` is the number of keys
  taken. It then reverses the `cards` array in place. `revealNext()` does nothing once
  `currentIndex >= cards.length`. Otherwise it reveals `cards[currentIndex]`, waits
  for the animation to finish, and increments the index.

The random sort is modelled by its result: a permutation `perm` of the key indices,
passed in as a parameter. The frame clock is also a parameter: a function
`delta: nat -> real` that gives each frame's delta. The atlas is given as its key
sequence in enumeration order. Textures are opaque: a card records the atlas key of
its front face, and `Face` says which face it shows.

Two facts about the code that the model keeps:
- Only the flip-in upper bound is clamped (src/components/CardView.ts:38-39).
  `scale.x` can end below zero on the last flip-out frame, and `alpha` can end below
  zero on the last fade frame.
- The constructor takes `min(5, number of atlas keys)` keys
  (src/components/CardDeck.ts:14), so a smaller atlas gives a smaller deck.

## Model

| member | source | states |
|---|---|---|
| Card.CardView.constructor | src/components/CardView.ts:5-11 | a new card is unrevealed, shows the back texture, has scale 0.5, has no animation registered, and is in a valid Idle state |
| Card.InitialIsValid | src/components/CardView.ts:5-11 | the initial card state satisfies the card invariant and is in phase Idle |
| Card.CardView.Reveal | src/components/CardView.ts:17-27 | on a revealed card it returns "already settled" and changes nothing; otherwise it sets `revealed` first, captures the current scale as the start scale and starts flip-out, with the promise still pending |
| Card.RevealingPhase | src/components/CardView.ts:18-26 | reveal moves an idle card to FlipOut with the start scale captured, and is the identity on any card already revealed, so revealing twice equals revealing once |
| Card.RevealDuringAnimation | src/components/CardView.ts:18-21 | after a reveal and any number of frames the card is still revealed, so another reveal at any point during or after the animation changes nothing |
| Card.CardView.Tick | src/components/CardView.ts:29-50 | one ticker frame with `dt > 0` changes the card as the callback does, with the callback taken off the ticker when the fade ends (the intended line 46, see Findings); it keeps the card invariant, never moves the phase backwards, and leaves the position alone |
| Card.FlipOutStep | src/components/CardView.ts:30-35 | in flip-out `scale.x` drops by `0.1*dt`; the texture becomes Front and flip-in begins exactly on the frame where `scale.x <= 0`, and otherwise it stays Back in flip-out |
| Card.FlipInStep | src/components/CardView.ts:36-41 | in flip-in `scale.x` grows by `0.1*dt`; on the frame where it would reach the start scale it is set to exactly the start scale and fading begins; it never exceeds the start scale |
| Card.FadeStep | src/components/CardView.ts:42-48 | in fade `alpha` drops by `0.02*dt` with scale held at the start scale; on the frame where `alpha <= 0` the card is hidden, its promise resolved once more and, as line 46 intends, its callback unregistered, and otherwise it stays visible in fade |
| Card.StepOutsideAnimation | src/components/CardView.ts:44-47 | an idle card, whose callback is not yet registered, and a finished card, whose callback line 46 means to unregister, are unchanged by a ticker frame |
| Card.CallbackNotRemoved | src/components/CardView.ts:29-50 | on the frame the fade ends, the code as written keeps the callback registered, so the next frame lowers the hidden card's alpha again, with the promise still resolved once; with the intended removal the finished card is left alone; the two agree on everything else of that frame |
| Card.StepAsWrittenAgrees | src/components/CardView.ts:29-50 | the written callback and the intended one give the same frame in every state before the fade ends |
| Card.StepPhase | src/components/CardView.ts:30-49 | one frame keeps the card invariant, keeps the revealed flag, and keeps the phase or advances it by exactly one step |
| Card.StepPhaseOrder | src/components/CardView.ts:30-49 | no frame moves any card state to an earlier phase |
| Card.StepProgress | src/components/CardView.ts:31-44 | with a delta of at least `eps > 0` a frame advances the phase or strictly shrinks the whole frames left in the current phase |
| Card.RunValid | src/components/CardView.ts:29-50 | any number of frames keeps the card invariant and the revealed flag |
| Card.RunMonotone | src/components/CardView.ts:25-48 | phases only advance over time, in the order Idle, FlipOut, FlipIn, Fade, Done |
| Card.TextureOnce | src/components/CardView.ts:30-35 | the texture is Back exactly in the phases before flip-in, and once Front it stays Front, so it changes at most once, from Back to Front |
| Card.CompletionOnce | src/components/CardView.ts:42-48 | the promise is resolved at most once, it is resolved exactly when the card is done, and it stays resolved |
| Card.DoneFrom | src/components/CardView.ts:29-50 | from any frame of a started animation whose deltas are all at least `eps > 0`, some later frame is in phase Done |
| Card.EventuallyDone | src/components/CardView.ts:29-50 | a started animation whose frame deltas are all at least some `eps > 0` is done after finitely many frames |
| Card.CardView.AwaitCompletion | src/components/CardView.ts:22-50 | waiting on the reveal promise runs frames until `resolve()` has run, on the frame the fade ends; it terminates when all deltas are at least `eps > 0`; a revealed card ends Done with its promise resolved once, and an unrevealed card is left as it was after zero frames |
| Deck.Shuffled | src/components/CardDeck.ts:12-13 | the shuffled key list is as long as the atlas key list |
| Deck.PermutationCovers | src/components/CardDeck.ts:12-13 | a permutation of the indices `0 .. n-1` takes every value below `n` |
| Deck.ShuffledIsRearrangement | src/components/CardDeck.ts:12-13 | the shuffled list is a rearrangement of the atlas keys: its entries are pairwise distinct atlas keys, and every atlas key occurs in it |
| Deck.SelectKeys | src/components/CardDeck.ts:12-14 | `min(5, number of keys)` keys are selected, five whenever at least five exist; they are pairwise distinct and each is an atlas key |
| Deck.FanLayout | src/components/CardDeck.ts:15-24 | successive cards of the fan are one offset `(-30, 15)` apart; cards `i` and `n-1-i` are symmetric about the point half an offset from the screen centre |
| Deck.ReversedAt | src/components/CardDeck.ts:30 | the reversed array has the same length, and its element `k` is element `n-1-k` of the original |
| Deck.ReversedLength | src/components/CardDeck.ts:30 | reversing keeps the length |
| Deck.CardDeck.ReverseCards | src/components/CardDeck.ts:30 | reversing `cards` in place leaves exactly the old array reversed and the index unchanged |
| Deck.CardDeck.constructor | src/components/CardDeck.ts:8-31 | a new deck has index 0 and `min(5, number of keys)` fresh, distinct, unrevealed cards with pairwise distinct atlas keys; `cards[j]` is the card built at position `n-1-j`, with that key and that fan position |
| Deck.CardDeck.RevealNext | src/components/CardDeck.ts:33-37 | with the index at or past the end it changes nothing; otherwise it runs `cards[currentIndex]`'s reveal to completion and then increments the index by exactly one, leaving every other card and the array itself unchanged (with the intended callback removal; see Left out); the deck invariant `0 <= currentIndex <= cards.length` is preserved, with revealed cards below the index and new cards from it |
| Deck.RevealInOrder | src/components/CardDeck.ts:33-37 | after `k` sequential, awaited calls on a new deck the index is `min(k, n)` and exactly the cards `0 .. k-1` are revealed, each showing its front, hidden and with one completion |

## Left out

- The application controller (`src/controller/AppController.ts`) is not part of this model. It covers asset loading and its error text, building the buttons from text and graphics, layout that depends on text measurement, sound and button enabling. Its end-of-deck check runs before the asynchronous index increment, so whether Restart becomes enabled depends on promise scheduling.
- The bootstrap (`src/index.ts`) is not part of this model. It only creates the DOM and the application.
- Overlapping `revealNext` calls are left out. Nothing in the code blocks a second click while a card animates, and such calls can interleave at the `await`. This is asynchronous concurrency. The model runs each `revealNext` atomically: the reveal runs to completion, then the index increments.
- Numbers are mathematical reals, not IEEE doubles, so rounding in `scale.x`, `alpha` and the positions is not modelled.
- The shared ticker, the promise objects, sprite and texture internals, the anchor, `scale.y` and the order of the stage's children are not modelled. Textures are atlas keys. Whether a card's callback is meant to be registered is the `ticking` flag. Resolving the promise is the `completions` counter reaching 1 in phase Done.
- The shuffle's randomness is not modelled. The sort with a random comparator is taken to return some permutation, given as `perm`. Whether it is uniform is not modelled; this comparator does not give a uniform shuffle anyway.
- Deck.CardDeck.RevealNext: each call's frame deltas restart at `delta(0)`; time passing between sequential calls is not modelled.
- Deck.CardDeck.RevealNext: "every other card unchanged" holds with the callback removal the code intends (see Findings). Under the code as written, each earlier revealed card's callback stays registered, so every frame of a later reveal lowers that card's alpha again. The card is already hidden, Front and resolved, so nothing else about it changes. With the intended removal, only the card being revealed has a registered callback, so advancing only that card is what the shared ticker does.
- Card.CardView.Tick: models the intended removal at src/components/CardView.ts:46. `StepAsWritten` and `CallbackNotRemoved` give the behaviour as written.

## Findings

| source | as written | input that shows it | evidently intended | confidence | as-written member | corrected member |
|---|---|---|---|---|---|---|
| src/components/CardView.ts:29-50 | `ticker.add` registers the bound copy made by `.bind(this)` at line 50, but line 46 calls `ticker.remove(tick)` with the unbound named function. The ticker matches listeners by the function object, so nothing is removed and the fade branch keeps running on every frame. | A card in fade with alpha 0.01 and a frame with dt = 1: alpha becomes -0.01 and the promise resolves. The next frame with dt = 1 lowers alpha to -0.03, sets `visible` false again and calls `resolve()` again, which does nothing. | The callback leaves the ticker on the frame the fade ends, and a finished card is no longer touched. | high for the control flow; it rests on PixiJS's `Ticker.remove` comparing listeners by identity; not executed | Card.StepAsWritten, Card.CallbackNotRemoved | Card.Step, Card.StepOutsideAnimation |
