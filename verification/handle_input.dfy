/** `handleInput` as a whole, and the main loop's repetition of it frame after frame. */
module HandleInput {
  import opened Math
  import opened Input
  import opened Drag
  import opened Dispatch
  import Sprites

  /** What one call of `handleInput` leaves behind: the moon state and the calls made. */
  datatype StepResult = StepResult(moon: MoonState, actions: seq<Action>)

  /** One call of `handleInput`: the D-pad dispatch, then the touch handling. */
  function Step(b: Bounds, st: MoonState, f: Frame): (r: StepResult)
    // the moon moves or re-grips only while the panel is touched
    ensures Touch !in f.down && Touch !in f.held ==> r.moon == st
    // the sound is played exactly on UP's press edge, whatever the touch does
    ensures PlaySound in r.actions <==> Up in f.down
    ensures b.Fits() && Valid(b, st) ==> Valid(b, r.moon)
  {
    StepResult(DragStep(b, st, f), DpadActions(f.down, f.held))
  }

  /** Two frames with the same key sets make the same calls, whatever the touch
      coordinate and the moon state. */
  lemma ActionsIgnoreTouch(b: Bounds, st1: MoonState, st2: MoonState, f1: Frame, f2: Frame)
    requires f1.down == f2.down && f1.held == f2.held
    ensures Step(b, st1, f1).actions == Step(b, st2, f2).actions
  {
  }

  /** Two frames that agree on KEY_TOUCH and the touch coordinate move the moon
      the same way, whatever the D-pad does. */
  lemma MoonIgnoresDpad(b: Bounds, st: MoonState, f1: Frame, f2: Frame)
    requires (Touch in f1.down <==> Touch in f2.down) && (Touch in f1.held <==> Touch in f2.held)
    requires f1.touch == f2.touch
    ensures Step(b, st, f1).moon == Step(b, st, f2).moon
  {
  }

  /** The main loop's effect over a run of frames: final moon state and the calls of each frame. */
  datatype Trace = Trace(moon: MoonState, actions: seq<seq<Action>>)

  function Run(b: Bounds, st: MoonState, frames: seq<Frame>): (r: Trace)
    ensures |r.actions| == |frames|
    ensures b.Fits() && Valid(b, st) ==> Valid(b, r.moon)
    ensures (forall i :: 0 <= i < |frames| ==> Touch !in frames[i].down && Touch !in frames[i].held) ==>
              r.moon == st
    decreases |frames|
  {
    if |frames| == 0 then Trace(st, [])
    else
      var first := Step(b, st, frames[0]);
      var rest := Run(b, first.moon, frames[1..]);
      assert forall i :: 1 <= i < |frames| ==> frames[1..][i - 1] == frames[i];
      Trace(rest.moon, [first.actions] + rest.actions)
  }

  /** Frame `i` of a run makes exactly the D-pad calls of that frame's keys. */
  lemma {:induction false} RunActions(b: Bounds, st: MoonState, frames: seq<Frame>, i: nat)
    requires i < |frames|
    ensures Run(b, st, frames).actions[i] == DpadActions(frames[i].down, frames[i].held)
    decreases i
  {
    if i > 0 {
      var first := Step(b, st, frames[0]);
      RunActions(b, first.moon, frames[1..], i - 1);
      assert frames[1..][i - 1] == frames[i];
    }
  }

  /** How many frames of a trace play the sound. */
  function SoundCount(actions: seq<seq<Action>>): (n: nat)
    ensures n <= |actions|
  {
    if |actions| == 0 then 0
    else (if PlaySound in actions[0] then 1 else 0) + SoundCount(actions[1..])
  }

  /** How many frames report UP as newly pressed. */
  function EdgeCount(frames: seq<Frame>): (n: nat)
    ensures n <= |frames|
  {
    if |frames| == 0 then 0
    else (if Up in frames[0].down then 1 else 0) + EdgeCount(frames[1..])
  }

  /** Over any run, the sound plays once per press edge of UP, and never otherwise. */
  lemma {:induction false} SoundsAreUpEdges(b: Bounds, st: MoonState, frames: seq<Frame>)
    ensures SoundCount(Run(b, st, frames).actions) == EdgeCount(frames)
    decreases |frames|
  {
    if |frames| > 0 {
      var first := Step(b, st, frames[0]);
      var tr := Run(b, st, frames);
      assert tr.actions[1..] == Run(b, first.moon, frames[1..]).actions;
      SoundsAreUpEdges(b, first.moon, frames[1..]);
    }
  }

  /** With UP pressed before a run of scans and throughout it, no frame reports
      UP as newly pressed. */
  lemma {:induction false} NoEdgeWhileHeld(previous: set<Key>, samples: seq<Sample>)
    requires Up in previous
    requires forall i :: 0 <= i < |samples| ==> Up in samples[i].pressed
    ensures EdgeCount(ScanAll(previous, samples)) == 0
    decreases |samples|
  {
    if |samples| > 0 {
      var rest := samples[1..];
      assert forall j :: 0 <= j < |rest| ==> Up in rest[j].pressed by {
        forall j | 0 <= j < |rest| ensures Up in rest[j].pressed {
          assert rest[j] == samples[j + 1];
        }
      }
      NoEdgeWhileHeld(samples[0].pressed, rest);
      assert ScanAll(previous, samples)[1..] == ScanAll(samples[0].pressed, rest);
    }
  }

  /** Holding UP that was already pressed never plays the sound. */
  lemma NoSoundWhileHeld(b: Bounds, st: MoonState, previous: set<Key>, samples: seq<Sample>)
    requires Up in previous
    requires forall i :: 0 <= i < |samples| ==> Up in samples[i].pressed
    ensures SoundCount(Run(b, st, ScanAll(previous, samples)).actions) == 0
  {
    NoEdgeWhileHeld(previous, samples);
    SoundsAreUpEdges(b, st, ScanAll(previous, samples));
  }

  /** Pressing UP and holding it for any number of frames plays the sound exactly once. */
  lemma HoldingUpFiresOnce(b: Bounds, st: MoonState, previous: set<Key>, samples: seq<Sample>)
    requires Up !in previous
    requires |samples| >= 1
    requires forall i :: 0 <= i < |samples| ==> Up in samples[i].pressed
    ensures SoundCount(Run(b, st, ScanAll(previous, samples)).actions) == 1
  {
    var frames := ScanAll(previous, samples);
    var rest := samples[1..];
    assert frames[1..] == ScanAll(samples[0].pressed, rest);
    assert forall j :: 0 <= j < |rest| ==> Up in rest[j].pressed by {
      forall j | 0 <= j < |rest| ensures Up in rest[j].pressed {
        assert rest[j] == samples[j + 1];
      }
    }
    NoEdgeWhileHeld(samples[0].pressed, rest);
    SoundsAreUpEdges(b, st, frames);
  }

  /** A frame in which the stylus stays on the panel without a new press. */
  predicate IsHeldFrame(f: Frame) {
    Touch !in f.down && Touch in f.held
  }

  /** While the stylus stays down and the moon never meets the screen edge, the
      per-frame deltas add up: the moon moves by the last touch minus the grip. */
  lemma {:induction false} DragTelescopes(b: Bounds, st: MoonState, frames: seq<Frame>)
    requires |frames| >= 1
    requires forall i :: 0 <= i < |frames| ==> IsHeldFrame(frames[i])
    requires forall i :: 0 <= i < |frames| ==> b.Contains(Target(st, frames[i].touch))
    ensures Run(b, st, frames).moon ==
              MoonState(Target(st, frames[|frames| - 1].touch), TouchPoint(frames[|frames| - 1].touch))
    decreases |frames|
  {
    var next := DragStep(b, st, frames[0]);
    assert next == MoonState(Target(st, frames[0].touch), TouchPoint(frames[0].touch));
    if |frames| > 1 {
      var rest := frames[1..];
      forall i | 0 <= i < |rest|
        ensures IsHeldFrame(rest[i]) && b.Contains(Target(next, rest[i].touch))
      {
        assert rest[i] == frames[i + 1];
        assert Target(next, rest[i].touch) == Target(st, frames[i + 1].touch);
      }
      DragTelescopes(b, next, rest);
      assert Target(next, rest[|rest| - 1].touch) == Target(st, frames[|frames| - 1].touch);
    }
  }

  /** A whole gesture: press at `p`, then hold. If the moon never meets the edge it
      ends displaced by the last touch minus the press point, whatever the path. */
  lemma {:induction false} DragGesture(b: Bounds, st: MoonState, frames: seq<Frame>)
    requires |frames| >= 2
    requires Touch in frames[0].down
    requires forall i :: 1 <= i < |frames| ==> IsHeldFrame(frames[i])
    requires forall i :: 1 <= i < |frames| ==>
               b.Contains(Target(MoonState(st.pos, TouchPoint(frames[0].touch)), frames[i].touch))
    ensures Run(b, st, frames).moon.pos ==
              Vector2(st.pos.x + frames[|frames| - 1].touch.px - frames[0].touch.px,
                      st.pos.y + frames[|frames| - 1].touch.py - frames[0].touch.py)
  {
    var pressed := DragStep(b, st, frames[0]);
    var rest := frames[1..];
    forall i | 0 <= i < |rest|
      ensures IsHeldFrame(rest[i]) && b.Contains(Target(pressed, rest[i].touch))
    {
      assert rest[i] == frames[i + 1];
    }
    DragTelescopes(b, pressed, rest);
    assert rest[|rest| - 1] == frames[|frames| - 1];
  }

  /** Per-frame clamping loses the part of a drag that went past the edge: the
      final position is not the clamp of the start plus the summed deltas. Moon at
      (100, 100) on the DS screen, pressed at (10, 10), dragged to (250, 10), then
      back to (10, 10): the deltas sum to zero, yet the moon ends at (0, 100). */
  lemma ClampedDragDoesNotTelescope()
    ensures var st := MoonState(Vector2(100, 100), InitialGrip);
            var frames := [Frame({Touch}, {Touch}, TouchPosition(10, 10)),
                           Frame({}, {Touch}, TouchPosition(250, 10)),
                           Frame({}, {Touch}, TouchPosition(10, 10))];
            Run(MoonOnDs, st, frames).moon.pos == Vector2(0, 100)
  {
  }

  /** The state `main` enters the loop with: the moon position read back from the
      moon's `SpriteEntry`, and the grip zeroed. */
  function InitialMoon(screenWidth: nat, screenHeight: nat, a: Sprites.Assets): (r: MoonState)
    ensures r.grip == Vector2(0, 0)
    ensures 0 <= r.pos.x < Sprites.PosXFieldSize && 0 <= r.pos.y < Sprites.PosYFieldSize
  {
    MoonState(Sprites.InitSprites(screenWidth, screenHeight, a).moon.pos, InitialGrip)
  }

  /** On the DS the moon starts on screen, with the sprite size the drag uses, so
      no sequence of frames ever takes it off screen. */
  lemma MoonStaysOnScreen(a: Sprites.Assets, frames: seq<Frame>)
    ensures Sprites.InitSprites(256, 192, a).moon.width == MoonOnDs.spriteWidth
    ensures Sprites.InitSprites(256, 192, a).moon.height == MoonOnDs.spriteHeight
    ensures InitialMoon(256, 192, a).pos == Vector2(176, 144)
    ensures MoonOnDs.Contains(Run(MoonOnDs, InitialMoon(256, 192, a), frames).moon.pos)
  {
  }
}
