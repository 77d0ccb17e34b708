/** The input interface of libnds as `handleInput` sees it: the sets returned by
    `keysDown()` and `keysHeld()` and the touch coordinate from `touchReadXY()`. */
module Input {
  import opened Math

  /** `touchPosition.px` and `.py` are unsigned 16-bit fields. */
  type u16 = v: int | 0 <= v < 0x1_0000

  datatype TouchPosition = TouchPosition(px: u16, py: u16)

  /** The console's buttons; `Touch` is KEY_TOUCH, the touch-panel contact bit. */
  datatype Key = Up | Down | Left | Right | Touch | A | B | X | Y | L | R | Start | Select | Lid

  /** One frame's input: keys newly pressed, keys held, and the touch coordinate. */
  datatype Frame = Frame(down: set<Key>, held: set<Key>, touch: TouchPosition)

  /** What the hardware reports in one frame: the keys that are physically down. */
  datatype Sample = Sample(pressed: set<Key>, touch: TouchPosition)

  function TouchPoint(t: TouchPosition): (p: Vector2)
    ensures 0 <= p.x < 0x1_0000 && 0 <= p.y < 0x1_0000
  {
    Vector2(t.px, t.py)
  }

  /** `scanKeys()` as libnds defines it: a key is "down" in the frame it goes from
      released to pressed, and "held" in every frame it is pressed. */
  function Scan(previous: set<Key>, s: Sample): (f: Frame)
    ensures f.down <= f.held
    ensures f.down !! previous
  {
    Frame(s.pressed - previous, s.pressed, s.touch)
  }

  /** The frames a run of samples produces, starting from the keys pressed before it. */
  function ScanAll(previous: set<Key>, samples: seq<Sample>): (fs: seq<Frame>)
    ensures |fs| == |samples|
    decreases |samples|
  {
    if |samples| == 0 then []
    else [Scan(previous, samples[0])] + ScanAll(samples[0].pressed, samples[1..])
  }
}
