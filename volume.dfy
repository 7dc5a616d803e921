/**
 * The volume controller's arithmetic (ChangeVolume in
 * AudioDuplicator/MainWindow.xaml.cs). The source stores the volume as a
 * float, but it starts at 1.0 and only ever moves by exactly 1.0 inside
 * [0, 100], so every value it can hold is an integer; the model uses `int`.
 */
module Volume {

  const MAX_VOLUME := 100
  const VOLUME_STEP := 1
  /** The volume a new destination starts with. */
  const INITIAL_VOLUME := 1

  function Min(a: int, b: int): int { if a <= b then a else b }
  function Max(a: int, b: int): int { if a >= b then a else b }

  /** One nudge: a step up or down, then the upper clamp, then the lower one. */
  function Stepped(v: int, up: bool): (r: int)
    ensures 0 <= r <= MAX_VOLUME
    ensures 0 <= v <= MAX_VOLUME ==>
              r == if up then Min(v + VOLUME_STEP, MAX_VOLUME) else Max(v - VOLUME_STEP, 0)
  {
    var w := if up then v + VOLUME_STEP else v - VOLUME_STEP;
    var w' := if w > MAX_VOLUME then MAX_VOLUME else w;
    if w' < 0 then 0 else w'
  }

  /** `n` nudges in the same direction: a press followed by `n - 1` timer ticks. */
  function Repeated(v: int, up: bool, n: nat): int
  {
    if n == 0 then v else Stepped(Repeated(v, up, n - 1), up)
  }

  /** A step in one direction is undone by a step in the other, except where
      the first step was absorbed by a clamp. */
  lemma StepUndone(v: int)
    requires 0 <= v <= MAX_VOLUME
    ensures Stepped(Stepped(v, true), false) == if v == MAX_VOLUME then MAX_VOLUME - VOLUME_STEP else v
    ensures Stepped(Stepped(v, false), true) == if v == 0 then VOLUME_STEP else v
  {
  }

  /** Holding a button for `n` nudges moves the volume by `n` steps, saturating
      at the bounds. */
  lemma {:induction false} RepeatedSaturates(v: int, up: bool, n: nat)
    requires 0 <= v <= MAX_VOLUME
    ensures Repeated(v, up, n) == if up then Min(v + n * VOLUME_STEP, MAX_VOLUME) else Max(v - n * VOLUME_STEP, 0)
  {
    if n > 0 {
      RepeatedSaturates(v, up, n - 1);
    }
  }

  /** A nudge changes the volume exactly when it is not already at the bound
      it moves towards. */
  lemma StepMoves(v: int, up: bool)
    requires 0 <= v <= MAX_VOLUME
    ensures Stepped(v, up) != v <==> (if up then v < MAX_VOLUME else v > 0)
  {
  }
}
