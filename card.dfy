/** One face-down card and its one-shot reveal animation.

    The animation is a closure registered with the shared per-frame ticker; it
    keeps two captured flags, `flipping` and `fading`, and one captured value,
    `startScaleX`. Here the closure's captured state lives beside the sprite's
    own fields, the ticker registration is the flag `ticking`, and resolving the
    reveal promise is counted in `completions`.

    On completion the closure calls `ticker.remove(tick)` with the unbound
    function, while the ticker holds the bound copy made by `.bind(this)`; the
    ticker matches listeners by identity, so nothing is removed. `Step` models
    the evidently intended removal; `StepAsWritten` models the code as written,
    and `CallbackNotRemoved` shows where the two differ. */
module Card {

  /** The image a card shows: the shared back face, or its own front face. */
  datatype Face = Back | Front

  /** The phase of the reveal animation, read off the card's flags. */
  datatype Phase = Idle | FlipOut | FlipIn | Fade | Done

  /** Scale (both axes) that every new card gets. */
  const InitialScale: real := 0.5
  /** Change of the horizontal scale per unit of frame time while flipping. */
  const FlipRate: real := 0.1
  /** Change of the opacity per unit of frame time while fading. */
  const FadeRate: real := 0.02

  /** A snapshot of everything the reveal animation reads or writes. */
  datatype CardState = CardState(
    scaleX: real,
    alpha: real,
    texture: Face,
    visible: bool,
    revealed: bool,
    ticking: bool,       // the per-frame callback is registered with the ticker
    startScaleX: real,   // scale.x captured when the animation started
    flipping: bool,
    fading: bool,
    completions: nat)    // how often the reveal promise has been resolved

  function PhaseOf(s: CardState): (p: Phase) {
    if !s.revealed then Idle
    else if !s.ticking then Done
    else if s.flipping then FlipOut
    else if !s.fading then FlipIn
    else Fade
  }

  /** Position of a phase in the order the animation runs through them. */
  function Order(p: Phase): (k: nat) {
    match p
    case Idle => 0
    case FlipOut => 1
    case FlipIn => 2
    case Fade => 3
    case Done => 4
  }

  /** The states a card can actually be in, phase by phase. */
  predicate Valid(s: CardState) {
    match PhaseOf(s)
    case Idle =>
      !s.ticking && s.texture == Back && s.visible && s.completions == 0
    case FlipOut =>
      !s.fading && s.texture == Back && s.visible && s.completions == 0
    case FlipIn =>
      s.texture == Front && s.visible && s.completions == 0
    case Fade =>
      s.texture == Front && s.scaleX == s.startScaleX && s.visible && s.completions == 0
    case Done =>
      && s.texture == Front && !s.flipping && s.fading
      && s.scaleX == s.startScaleX && s.alpha <= 0.0
      && !s.visible && s.completions == 1
  }

  /** A freshly constructed card: back face up, scale 0.5, fully opaque,
      visible, not revealed, no animation registered. The captured values
      do not exist yet and are given neutral values. */
  function Initial(): (s: CardState) {
    CardState(InitialScale, 1.0, Back, true, false, false, 0.0, false, false, 0)
  }

  /** The effect of `reveal()`: nothing on a revealed card; otherwise the guard
      is set first and the flip-out phase starts from the current scale. */
  function Revealing(s: CardState): (t: CardState) {
    if s.revealed then s
    else s.(revealed := true, ticking := true, startScaleX := s.scaleX,
            flipping := true, fading := false)
  }

  /** One frame of the shared ticker with frame delta `dt`, as the card sees it:
      nothing when its callback is not registered, otherwise one run of it,
      with the callback taken off the ticker on the frame the fade ends. */
  function Step(s: CardState, dt: real): (t: CardState) {
    if !s.ticking then s
    else if s.flipping then
      var sx := s.scaleX - FlipRate * dt;
      if sx <= 0.0 then s.(scaleX := sx, texture := Front, flipping := false)
      else s.(scaleX := sx)
    else if !s.fading then
      var sx := s.scaleX + FlipRate * dt;
      if sx >= s.startScaleX then s.(scaleX := s.startScaleX, fading := true)
      else s.(scaleX := sx)
    else
      var a := s.alpha - FadeRate * dt;
      if a <= 0.0 then s.(alpha := a, visible := false, ticking := false,
                          completions := s.completions + 1)
      else s.(alpha := a)
  }

  /** One frame as the callback is written: the removal at the end of the fade
      does not match the registered (bound) listener, so the callback stays
      registered and keeps running the fade branch; resolving the already
      settled promise again changes nothing. */
  function StepAsWritten(s: CardState, dt: real): (t: CardState) {
    if !s.ticking then s
    else if s.flipping then
      var sx := s.scaleX - FlipRate * dt;
      if sx <= 0.0 then s.(scaleX := sx, texture := Front, flipping := false)
      else s.(scaleX := sx)
    else if !s.fading then
      var sx := s.scaleX + FlipRate * dt;
      if sx >= s.startScaleX then s.(scaleX := s.startScaleX, fading := true)
      else s.(scaleX := sx)
    else
      var a := s.alpha - FadeRate * dt;
      if a <= 0.0 then s.(alpha := a, visible := false, completions := 1)
      else s.(alpha := a)
  }

  /** On the frame the fade ends, the code as written leaves the callback
      registered, and every later frame lowers the hidden card's alpha again;
      with the intended removal, the finished card is left alone. Both agree
      on everything else of that frame. */
  lemma CallbackNotRemoved(s: CardState, dt: real)
    requires Valid(s) && PhaseOf(s) == Fade && dt > 0.0
    requires s.alpha - FadeRate * dt <= 0.0
    ensures var w, t := StepAsWritten(s, dt), Step(s, dt);
      && w.ticking && !t.ticking && w == t.(ticking := true)
      && StepAsWritten(w, dt).alpha < w.alpha
      && !StepAsWritten(w, dt).visible && StepAsWritten(w, dt).completions == 1
      && Step(t, dt) == t
  {
  }

  /** Before the fade ends the written callback and the intended one agree. */
  lemma StepAsWrittenAgrees(s: CardState, dt: real)
    requires Valid(s) && PhaseOf(s) != Done
    requires PhaseOf(s) == Fade ==> s.alpha - FadeRate * dt > 0.0
    ensures StepAsWritten(s, dt) == Step(s, dt)
  {
  }

  /** The state after `n` frames whose deltas are `delta(0)`, ..., `delta(n-1)`. */
  function Run(s: CardState, delta: nat -> real, n: nat): (t: CardState) {
    if n == 0 then s else Step(Run(s, delta, n - 1), delta(n - 1))
  }

  /** How many whole steps of size `c` fit into `d` (none when `d` is not positive). */
  function Span(d: real, c: real): (k: nat)
    requires c > 0.0
  {
    if d <= 0.0 then 0 else (d / c).Floor
  }

  /** What is left of the current phase, in frames of delta at least `eps`. */
  function Measure(s: CardState, eps: real): (k: nat)
    requires eps > 0.0
  {
    match PhaseOf(s)
    case FlipOut => Span(s.scaleX, FlipRate * eps)
    case FlipIn => Span(s.startScaleX - s.scaleX, FlipRate * eps)
    case Fade => Span(s.alpha, FadeRate * eps)
    case _ => 0
  }

  lemma InitialIsValid()
    ensures Valid(Initial()) && PhaseOf(Initial()) == Idle
  {
  }

  /** A reveal starts the flip-out phase of an idle card and is a no-op on any
      other; revealing twice is revealing once. */
  lemma RevealingPhase(s: CardState)
    requires Valid(s)
    ensures Valid(Revealing(s))
    ensures PhaseOf(s) == Idle ==> PhaseOf(Revealing(s)) == FlipOut
    ensures PhaseOf(s) == Idle ==> Revealing(s).startScaleX == s.scaleX
    ensures PhaseOf(s) != Idle ==> Revealing(s) == s
    ensures Revealing(Revealing(s)) == Revealing(s)
  {
  }

  /** Flip-out: scale.x shrinks by 0.1*dt; the face turns to Front, and
      flip-in begins, exactly on the frame where scale.x reaches 0 or below. */
  lemma FlipOutStep(s: CardState, dt: real)
    requires Valid(s) && PhaseOf(s) == FlipOut
    ensures var t := Step(s, dt);
      && t.scaleX == s.scaleX - FlipRate * dt
      && (t.scaleX <= 0.0 ==> t.texture == Front && PhaseOf(t) == FlipIn)
      && (t.scaleX > 0.0 ==> t.texture == Back && PhaseOf(t) == FlipOut)
      && t.alpha == s.alpha && t.visible
  {
  }

  /** Flip-in: scale.x grows by 0.1*dt until it would reach the starting scale;
      on that frame it is clamped to exactly the starting scale and fading begins. */
  lemma FlipInStep(s: CardState, dt: real)
    requires Valid(s) && PhaseOf(s) == FlipIn
    ensures var t := Step(s, dt);
      && t.texture == Front && t.alpha == s.alpha && t.visible
      && (s.scaleX + FlipRate * dt >= s.startScaleX ==>
            t.scaleX == s.startScaleX && PhaseOf(t) == Fade)
      && (s.scaleX + FlipRate * dt < s.startScaleX ==>
            t.scaleX == s.scaleX + FlipRate * dt && PhaseOf(t) == FlipIn)
      && t.scaleX <= s.startScaleX
  {
  }

  /** Fade: alpha drops by 0.02*dt; when it reaches 0 or below the card is
      hidden, its promise resolved and (as intended) its callback removed,
      all on that frame. */
  lemma FadeStep(s: CardState, dt: real)
    requires Valid(s) && PhaseOf(s) == Fade
    ensures var t := Step(s, dt);
      && t.alpha == s.alpha - FadeRate * dt
      && t.scaleX == s.startScaleX && t.texture == Front
      && (t.alpha <= 0.0 ==>
            !t.visible && !t.ticking && t.completions == s.completions + 1 && PhaseOf(t) == Done)
      && (t.alpha > 0.0 ==>
            t.visible && t.ticking && t.completions == s.completions && PhaseOf(t) == Fade)
  {
  }

  /** An idle card, and a finished one whose callback has been removed, is not
      touched by the ticker. */
  lemma StepOutsideAnimation(s: CardState, dt: real)
    requires Valid(s) && (PhaseOf(s) == Idle || PhaseOf(s) == Done)
    ensures Step(s, dt) == s
  {
  }

  /** One frame keeps a card valid and either keeps its phase or moves it to
      the next one; it never skips or goes back. */
  lemma StepPhase(s: CardState, dt: real)
    requires Valid(s)
    ensures Valid(Step(s, dt))
    ensures var o, p := Order(PhaseOf(s)), Order(PhaseOf(Step(s, dt)));
      p == o || (p == o + 1 && o >= 1)
    ensures Step(s, dt).revealed == s.revealed
  {
  }

  lemma SpanShrinks(d: real, d': real, c: real)
    requires c > 0.0 && d' > 0.0 && d' <= d - c
    ensures Span(d', c) < Span(d, c)
  {
    var q, q' := d / c, d' / c;
    assert q * c == d && q' * c == d';
    var r := q - q' - 1.0;
    assert r * c == d - d' - c >= 0.0;
    assert (d' / c).Floor as real <= d' / c;
    assert d / c < (d / c).Floor as real + 1.0;
  }

  /** With a frame delta of at least `eps`, a frame either advances the phase
      or strictly decreases what is left of the current one. */
  lemma StepProgress(s: CardState, dt: real, eps: real)
    requires Valid(s) && s.ticking && eps > 0.0 && dt >= eps
    ensures var t := Step(s, dt);
      || Order(PhaseOf(t)) > Order(PhaseOf(s))
      || (PhaseOf(t) == PhaseOf(s) && Measure(t, eps) < Measure(s, eps))
  {
    var t := Step(s, dt);
    if PhaseOf(t) == PhaseOf(s) {
      match PhaseOf(s)
      case FlipOut =>
        SpanShrinks(s.scaleX, t.scaleX, FlipRate * eps);
      case FlipIn =>
        SpanShrinks(s.startScaleX - s.scaleX, s.startScaleX - t.scaleX, FlipRate * eps);
      case Fade =>
        SpanShrinks(s.alpha, t.alpha, FadeRate * eps);
    }
  }

  /** Any number of frames keeps a card valid and its revealed flag as it was. */
  lemma {:induction false} RunValid(s: CardState, delta: nat -> real, n: nat)
    requires Valid(s)
    ensures Valid(Run(s, delta, n))
    ensures Run(s, delta, n).revealed == s.revealed
  {
    if n > 0 {
      RunValid(s, delta, n - 1);
      StepPhase(Run(s, delta, n - 1), delta(n - 1));
    }
  }

  /** Phases only advance: a later frame is never in an earlier phase. */
  lemma {:induction false} RunMonotone(s: CardState, delta: nat -> real, m: nat, n: nat)
    requires Valid(s) && m <= n
    ensures Order(PhaseOf(Run(s, delta, m))) <= Order(PhaseOf(Run(s, delta, n)))
    decreases n - m
  {
    if m < n {
      RunMonotone(s, delta, m, n - 1);
      RunValid(s, delta, n - 1);
      StepPhase(Run(s, delta, n - 1), delta(n - 1));
    }
  }

  /** The face changes at most once, from Back to Front: it shows Back exactly
      until flip-in begins, and once Front it stays Front. */
  lemma TextureOnce(s: CardState, delta: nat -> real, m: nat, n: nat)
    requires Valid(s) && m <= n
    ensures Run(s, delta, n).texture == Back <==> Order(PhaseOf(Run(s, delta, n))) < Order(FlipIn)
    ensures Run(s, delta, m).texture == Front ==> Run(s, delta, n).texture == Front
  {
    RunValid(s, delta, m);
    RunValid(s, delta, n);
    RunMonotone(s, delta, m, n);
  }

  /** The promise is resolved at most once, and it has been resolved exactly
      when the card is done; it stays resolved. */
  lemma CompletionOnce(s: CardState, delta: nat -> real, m: nat, n: nat)
    requires Valid(s) && m <= n
    ensures Run(s, delta, n).completions <= 1
    ensures Run(s, delta, n).completions == 1 <==> PhaseOf(Run(s, delta, n)) == Done
    ensures Run(s, delta, m).completions <= Run(s, delta, n).completions
  {
    RunValid(s, delta, m);
    RunValid(s, delta, n);
    RunMonotone(s, delta, m, n);
  }

  /** Once revealed, a card stays revealed through any number of frames, so a
      reveal issued at any point of the animation, or after it, changes nothing. */
  lemma RevealDuringAnimation(s: CardState, delta: nat -> real, n: nat)
    requires Valid(s)
    ensures var t := Run(Revealing(s), delta, n); t.revealed && Revealing(t) == t
  {
    RevealingPhase(s);
    RunValid(Revealing(s), delta, n);
  }

  lemma {:induction false} DoneFrom(s: CardState, delta: nat -> real, eps: real, m: nat)
    requires Valid(s) && s.revealed
    requires eps > 0.0 && forall k :: delta(k) >= eps
    ensures exists n :: m <= n && PhaseOf(Run(s, delta, n)) == Done
    decreases 4 - Order(PhaseOf(Run(s, delta, m))), Measure(Run(s, delta, m), eps)
  {
    RunValid(s, delta, m);
    var t := Run(s, delta, m);
    if PhaseOf(t) == Done {
      assert m <= m && PhaseOf(Run(s, delta, m)) == Done;
    } else {
      StepProgress(t, delta(m), eps);
      assert Run(s, delta, m + 1) == Step(t, delta(m));
      DoneFrom(s, delta, eps, m + 1);
    }
  }

  /** If every frame delta is at least some positive `eps`, a started
      animation is done after finitely many frames. */
  lemma EventuallyDone(s: CardState, delta: nat -> real, eps: real)
    requires Valid(s) && s.revealed
    requires eps > 0.0 && forall k :: delta(k) >= eps
    ensures exists n :: PhaseOf(Run(s, delta, n)) == Done
  {
    DoneFrom(s, delta, eps, 0);
  }

  /** A card sprite; the flip animation's captured state is held in its fields. */
  class CardView {
    /** Atlas key of this card's front texture. */
    const front: string
    var x: real
    var y: real
    var scaleX: real
    var alpha: real
    var texture: Face
    var visible: bool
    var revealed: bool
    var ticking: bool
    var startScaleX: real
    var flipping: bool
    var fading: bool
    var completions: nat

    function State(): CardState
      reads this
    {
      CardState(scaleX, alpha, texture, visible, revealed, ticking,
                startScaleX, flipping, fading, completions)
    }

    /** A new card shows its back, has scale 0.5 and is not revealed. */
    constructor (front: string)
      ensures this.front == front && x == 0.0 && y == 0.0
      ensures State() == Initial() && Valid(State())
      ensures !revealed && texture == Back && scaleX == InitialScale
    {
      this.front := front;
      x, y := 0.0, 0.0;
      scaleX, alpha := InitialScale, 1.0;
      texture, visible, revealed := Back, true, false;
      ticking, startScaleX, flipping, fading := false, 0.0, false, false;
      completions := 0;
    }

    /** Starts the flip animation unless the card is already revealed.
        `settled` tells whether the returned promise is already resolved,
        which is the case exactly when nothing was started. */
    method Reveal() returns (settled: bool)
      modifies this
      ensures settled == old(revealed)
      ensures State() == Revealing(old(State()))
      ensures old(revealed) ==> State() == old(State())
      ensures !old(revealed) ==> revealed && ticking && flipping && !fading
      ensures !old(revealed) ==> startScaleX == old(scaleX) && texture == old(texture)
      ensures x == old(x) && y == old(y)
    {
      if revealed {
        return true;
      }
      revealed := true;
      startScaleX := scaleX;
      flipping := true;
      fading := false;
      ticking := true;
      settled := false;
    }

    /** One frame of the shared ticker, with frame delta `dt`. */
    method Tick(dt: real)
      requires dt > 0.0
      modifies this
      ensures State() == Step(old(State()), dt)
      ensures Valid(old(State())) ==> Valid(State())
      ensures Order(PhaseOf(old(State()))) <= Order(PhaseOf(State()))
      ensures x == old(x) && y == old(y)
    {
      StepPhaseOrder(State(), dt);
      if !ticking {
        return;
      }
      if flipping {
        scaleX := scaleX - FlipRate * dt;
        if scaleX <= 0.0 {
          texture := Front;
          flipping := false;
        }
      } else if !fading {
        scaleX := scaleX + FlipRate * dt;
        if scaleX >= startScaleX {
          scaleX := startScaleX;
          fading := true;
        }
      } else {
        alpha := alpha - FadeRate * dt;
        if alpha <= 0.0 {
          visible := false;
          ticking := false;
          completions := completions + 1;
        }
      }
    }

    /** Waits for the reveal promise: runs ticker frames with deltas
        `delta(0)`, `delta(1)`, ... until the promise has been resolved, on the
        frame the fade ends. An unrevealed card has no animation to wait for.
        `frames` is the number of frames that took. */
    method AwaitCompletion(delta: nat -> real, eps: real) returns (frames: nat)
      requires Valid(State())
      requires eps > 0.0 && forall k :: delta(k) >= eps
      modifies this
      ensures State() == Run(old(State()), delta, frames)
      ensures Valid(State()) && revealed == old(revealed)
      ensures revealed ==> PhaseOf(State()) == Done && completions == 1
      ensures !revealed ==> frames == 0 && State() == old(State())
      ensures x == old(x) && y == old(y)
    {
      frames := 0;
      while revealed && completions == 0
        invariant Valid(State()) && revealed == old(revealed)
        invariant State() == Run(old(State()), delta, frames)
        invariant !revealed ==> frames == 0 && State() == old(State())
        invariant x == old(x) && y == old(y)
        decreases 4 - Order(PhaseOf(State())), Measure(State(), eps)
      {
        StepProgress(State(), delta(frames), eps);
        StepPhase(State(), delta(frames));
        Tick(delta(frames));
        frames := frames + 1;
      }
    }
  }

  /** Phase order never decreases over one frame, valid state or not. */
  lemma StepPhaseOrder(s: CardState, dt: real)
    ensures Order(PhaseOf(s)) <= Order(PhaseOf(Step(s, dt)))
  {
  }
}
