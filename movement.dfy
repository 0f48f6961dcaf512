/**
 The arithmetic of `moveLocalPlayer`: one step per held direction and a clamp
 to the canvas.
 */
module Movement {

  /** Movement speed of the local player, set once and never changed. */
  const LocalSpeed: real := 3.0

  /** Joystick dead zone: a stick axis counts as pressed beyond this magnitude. */
  const StickThreshold: real := 0.3

  function Abs(r: real): real {
    if r < 0.0 then -r else r
  }

  /** `Math.max(0, Math.min(hi, v))`. */
  function Clamp(v: real, hi: real): (r: real)
    requires 0.0 <= hi
    ensures 0.0 <= r <= hi
    ensures 0.0 <= v <= hi ==> r == v
    ensures v < 0.0 ==> r == 0.0
    ensures hi < v ==> r == hi
  {
    var m := if hi < v then hi else v;
    if m < 0.0 then 0.0 else m
  }

  /** Net displacement along one axis when the negative-direction input is
      `neg` and the positive-direction input is `pos`, each worth `speed`. */
  function Step(neg: bool, pos: bool, speed: real): real {
    (if pos then speed else 0.0) - (if neg then speed else 0.0)
  }

  /** One axis moves by at most `speed`, not at all when both or neither
      direction is pressed, and by exactly `speed` towards the one pressed. */
  lemma StepBounded(neg: bool, pos: bool, speed: real)
    requires 0.0 <= speed
    ensures Abs(Step(neg, pos, speed)) <= speed
    ensures neg == pos ==> Step(neg, pos, speed) == 0.0
    ensures neg && !pos ==> Step(neg, pos, speed) == -speed
    ensures pos && !neg ==> Step(neg, pos, speed) == speed
  {
  }

  /** Clamping never moves a point that started inside the range further
      than the unclamped step would have. */
  lemma ClampShortens(v: real, d: real, hi: real)
    requires 0.0 <= v <= hi
    ensures Abs(Clamp(v + d, hi) - v) <= Abs(d)
    ensures (d < 0.0 ==> Clamp(v + d, hi) <= v) && (0.0 < d ==> v <= Clamp(v + d, hi))
  {
  }
}
