/** The touch-drag half of `handleInput`: the moon follows the stylus, one
    per-frame delta at a time, and is kept on screen axis by axis. */
module Drag {
  import opened Math
  import opened Input

  /** The screen (libnds SCREEN_WIDTH, SCREEN_HEIGHT) and the dragged sprite's
      size (the moon's `SpriteInfo` width and height). */
  datatype Bounds = Bounds(screenWidth: nat, screenHeight: nat, spriteWidth: nat, spriteHeight: nat) {

    /** Largest x the sprite may take: SCREEN_WIDTH - width. */
    function MaxX(): int { screenWidth - spriteWidth }

    /** Largest y the sprite may take: SCREEN_HEIGHT - height. */
    function MaxY(): int { screenHeight - spriteHeight }

    /** The sprite is no larger than the screen, so some position keeps it on screen. */
    predicate Fits() { 0 <= MaxX() && 0 <= MaxY() }

    /** The sprite at `p` lies wholly on screen. */
    predicate Contains(p: Vector2) { 0 <= p.x <= MaxX() && 0 <= p.y <= MaxY() }
  }

  /** The Nintendo DS screen with the 32x32 moon sprite. */
  const MoonOnDs := Bounds(256, 192, 32, 32)

  /** The moon's position and the remembered grip point (the function-static `moonGrip`). */
  datatype MoonState = MoonState(pos: Vector2, grip: Vector2)

  /** `moonGrip` has static storage duration, so it starts zeroed. */
  const InitialGrip := Vector2(0, 0)

  /** The states the drag logic keeps: the moon on screen and the grip a touch coordinate. */
  predicate Valid(b: Bounds, st: MoonState) {
    && b.Contains(st.pos)
    && 0 <= st.grip.x < 0x1_0000 && 0 <= st.grip.y < 0x1_0000
  }

  /** Reference clamp: the point of [lo, hi] nearest to `v`. */
  function Clamp(lo: int, hi: int, v: int): int
    requires lo <= hi
  {
    Max(lo, Min(hi, v))
  }

  /** One axis of the off-screen guard, as the nested `if` writes it: below zero
      goes to zero, above `hi` goes to `hi`, otherwise unchanged. */
  function ClampAxis(v: int, hi: int): (r: int)
    ensures 0 <= hi ==> r == Clamp(0, hi, v)
    ensures 0 <= hi ==> 0 <= r <= hi
    ensures 0 <= hi ==> forall c :: 0 <= c <= hi ==> Dist(r, v) <= Dist(c, v)
    ensures 0 <= v <= hi ==> r == v
    ensures r == 0 || r == hi || r == v
  {
    if v < 0 then 0
    else if v > hi then hi
    else v
  }

  /** Where a held frame would put the moon before the guard: position plus the
      stylus movement since the last frame, `pos + (touch - grip)`. */
  function Target(st: MoonState, t: TouchPosition): Vector2 {
    Vector2(st.pos.x + t.px - st.grip.x, st.pos.y + t.py - st.grip.y)
  }

  /** Re-anchoring loses nothing while no clamp intervenes: taking the target for
      `t1`, re-gripping at `t1`, then aiming at `t2` gives the target for `t2` from
      the start; a touch equal to the grip aims at the position itself. */
  lemma RegripKeepsTarget(st: MoonState, t1: TouchPosition, t2: TouchPosition)
    ensures Target(MoonState(Target(st, t1), TouchPoint(t1)), t2) == Target(st, t2)
    ensures TouchPoint(t1) == st.grip ==> Target(st, t1) == st.pos
  {
  }

  /** The touch branch of `handleInput` for one frame. */
  function DragStep(b: Bounds, st: MoonState, f: Frame): (r: MoonState)
    // press edge: remember the grip, leave the moon where it is; wins over "held"
    ensures Touch in f.down ==> r.pos == st.pos && r.grip == TouchPoint(f.touch)
    // held: re-anchor the grip at the current touch
    ensures Touch !in f.down && Touch in f.held ==> r.grip == TouchPoint(f.touch)
    // held: each axis is the reference clamp of its own target coordinate
    ensures Touch !in f.down && Touch in f.held && b.Fits() ==>
              r.pos == Vector2(Clamp(0, b.MaxX(), Target(st, f.touch).x),
                               Clamp(0, b.MaxY(), Target(st, f.touch).y))
    // held: the moon ends on screen, and a drag off screen lands on the edge
    ensures Touch !in f.down && Touch in f.held && b.Fits() ==> b.Contains(r.pos)
    ensures Touch !in f.down && Touch in f.held && b.Fits() ==>
              && (Target(st, f.touch).x < 0 ==> r.pos.x == 0)
              && (Target(st, f.touch).x > b.MaxX() ==> r.pos.x == b.MaxX())
              && (Target(st, f.touch).y < 0 ==> r.pos.y == 0)
              && (Target(st, f.touch).y > b.MaxY() ==> r.pos.y == b.MaxY())
    // held: a target already on screen is taken exactly
    ensures Touch !in f.down && Touch in f.held && b.Contains(Target(st, f.touch)) ==>
              r.pos == Target(st, f.touch)
    // held without stylus movement: nothing changes
    ensures Touch !in f.down && Touch in f.held && TouchPoint(f.touch) == st.grip && b.Contains(st.pos) ==>
              r == st
    // no contact at all: nothing changes
    ensures Touch !in f.down && Touch !in f.held ==> r == st
    // the drag keeps the model's state valid
    ensures b.Fits() && Valid(b, st) ==> Valid(b, r)
  {
    if Touch in f.down then
      MoonState(st.pos, TouchPoint(f.touch))
    else if Touch in f.held then
      var target := Target(st, f.touch);
      MoonState(Vector2(ClampAxis(target.x, b.MaxX()), ClampAxis(target.y, b.MaxY())),
                TouchPoint(f.touch))
    else
      st
  }

  /** The x result of a held frame depends only on x inputs, and likewise y. */
  lemma AxesIndependent(b: Bounds, st1: MoonState, st2: MoonState, t1: TouchPosition, t2: TouchPosition)
    ensures st1.pos.x == st2.pos.x && st1.grip.x == st2.grip.x && t1.px == t2.px ==>
              DragStep(b, st1, Frame({}, {Touch}, t1)).pos.x == DragStep(b, st2, Frame({}, {Touch}, t2)).pos.x
    ensures st1.pos.y == st2.pos.y && st1.grip.y == st2.grip.y && t1.py == t2.py ==>
              DragStep(b, st1, Frame({}, {Touch}, t1)).pos.y == DragStep(b, st2, Frame({}, {Touch}, t2)).pos.y
  {
  }

  /** In a valid state the C expression `moonPos->x + touch->px - moonGrip.x`
      (and its y twin) stays inside `int`, so the unbounded model matches it. */
  lemma TargetFitsInt(b: Bounds, st: MoonState, t: TouchPosition)
    requires b.screenWidth < 0x1_0000 && b.screenHeight < 0x1_0000
    requires Valid(b, st)
    ensures IsInt32(Target(st, t).x) && IsInt32(Target(st, t).y)
  {
  }
}
