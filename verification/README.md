# Moon drag and D-pad dispatch of the chapter 9 demo, in Dafny

The chapter 9 program of the Nintendo DS homebrew manual shows a space shuttle
and a moon. Each frame, `handleInput` reads the buttons and the touch panel.
UP plays a thrust sound on its press edge. The D-pad steers the shuttle: UP
accelerates, otherwise DOWN reverses, LEFT turns counter-clockwise, otherwise
RIGHT turns clockwise. The stylus drags the moon. On the press edge the touch
point is remembered as the grip. On every later frame with the stylus still
down, the moon moves by the touch minus the grip, each axis is kept within
`[0, screen - sprite]`, and the grip is re-anchored at the current touch. At
start-up, `initSprites` hands out tile indices with a bump counter and gives
each sprite the 16-colour palette bank of its id.

The model is functional:

- `Input` holds the libnds input interface: key sets, the 16-bit touch point,
  and `scanKeys`'s edge rule (a key is "down" in the frame it goes from
  released to pressed).
- `Drag.DragStep` is the touch branch. `Drag.ClampAxis` is the off-screen
  guard as the nested `if` writes it, checked against a reference
  `Drag.Clamp` = max(lo, min(hi, v)).
- `Dispatch.DpadActions` gives the sound and the `Ship` calls of `handleInput` as tokens, in
  call order.
- `HandleInput.Step` is one call of `handleInput`. `HandleInput.Run` is the
  main loop over a sequence of frames.
- `Sprites.InitSprites` holds the attributes and the copy targets (in
  halfwords) of the two sprites. Values are kept as the libnds `SpriteEntry`
  bitfields store them (`tileIdx` 10 bits, `posX` 9, `posY` 8, `objPal` 4), because the
  graphics copies and the main loop read them back from there.

Screen and sprite sizes are parameters (`Drag.Bounds`). The DS instance is
`Drag.MoonOnDs`: a 256x192 screen and a 32x32 moon.

One might expect that after a drag with deltas d1..dn the moon sits at
clamp(P + d1 + ... + dn). The code clamps every frame and re-anchors
the grip every frame, so that only holds while the moon never reaches an
edge. The model follows the code. `HandleInput.DragTelescopes` and
`HandleInput.DragGesture` prove the edge-free case.
`HandleInput.ClampedDragDoesNotTelescope` gives a drag whose deltas sum to
zero but that still moves the moon.

## Model

| member | source | states |
|---|---|---|
| `Drag.ClampAxis` | code/chapter_9-sounds/source/main.cpp:342-355 | when the sprite fits, each axis guard equals the reference clamp to `[0, hi]`, lies in range, is the in-range point nearest the target, and leaves an in-range target unchanged; the result is always 0, `hi` or the target |
| `Drag.DragStep` | code/chapter_9-sounds/source/main.cpp:331-360 | the press edge records the touch as grip and leaves the moon in place, and it wins over "held"; a held frame sets each axis to the clamp of pos + touch - grip, keeps the moon on screen, puts an off-screen drag exactly on the edge, takes an on-screen target exactly, and re-anchors the grip at the touch; a held frame without movement and a frame without contact change nothing; valid states stay valid |
| `Drag.RegripKeepsTarget` | code/chapter_9-sounds/source/main.cpp:338-359 | the target `moonPos + touch - moonGrip` composes across a re-grip: aiming at `t1`, re-gripping at `t1` and aiming at `t2` gives the target for `t2` from the start; a touch equal to the grip aims at the current position |
| `Drag.AxesIndependent` | code/chapter_9-sounds/source/main.cpp:338-355 | the new x of a held frame depends only on the old x, the grip's x and the touch's x, and the new y only on the y inputs |
| `Drag.TargetFitsInt` | code/chapter_9-sounds/source/main.cpp:338-339 | in a valid state the sums `moonPos + touch - moonGrip` stay inside 32-bit `int`, so unbounded integers model them exactly |
| `Dispatch.DpadActions` | code/chapter_9-sounds/source/main.cpp:309-329 | the sound fires iff UP is newly pressed; accelerate iff UP is held; reverse iff DOWN is held and UP is not; counter-clockwise iff LEFT is held; clockwise iff RIGHT is held and LEFT is not; accelerate and reverse never fire together, nor do the two turns; at most one call per group, in sound, thrust, turn order |
| `HandleInput.Step` | code/chapter_9-sounds/source/main.cpp:305-361 | without contact the moon state is unchanged; the sound appears exactly when UP is newly pressed; valid moon states stay valid |
| `HandleInput.ActionsIgnoreTouch` | code/chapter_9-sounds/source/main.cpp:309-329 | the calls a frame makes depend only on the key sets, not on the touch point or the moon |
| `HandleInput.MoonIgnoresDpad` | code/chapter_9-sounds/source/main.cpp:331-360 | the moon update depends only on KEY_TOUCH and the touch point, not on the D-pad |
| `HandleInput.Run` | code/chapter_9-sounds/source/main.cpp:426-429 | over any run of frames, one list of calls per frame; from a valid start the moon stays on screen; a run without contact leaves the moon state alone |
| `HandleInput.RunActions` | code/chapter_9-sounds/source/main.cpp:426-429 | in any run, the calls of frame `i` are exactly the D-pad calls of that frame's key sets |
| `HandleInput.SoundsAreUpEdges` | code/chapter_9-sounds/source/main.cpp:310-313 | over any run, the number of frames that play the sound equals the number of frames in which UP is newly pressed |
| `HandleInput.NoEdgeWhileHeld` | code/chapter_9-sounds/source/main.cpp:310-313 | with UP pressed before and throughout a run of scans, no frame reports UP as newly pressed |
| `HandleInput.NoSoundWhileHeld` | code/chapter_9-sounds/source/main.cpp:310-313 | holding UP that was already pressed never plays the sound |
| `HandleInput.HoldingUpFiresOnce` | code/chapter_9-sounds/source/main.cpp:310-313 | pressing UP and holding it for any number of frames plays the sound exactly once |
| `HandleInput.DragTelescopes` | code/chapter_9-sounds/source/main.cpp:337-359 | if the moon never meets an edge, successive held frames add their per-frame deltas: the moon ends at pos + last touch - grip, with the grip at the last touch |
| `HandleInput.DragGesture` | code/chapter_9-sounds/source/main.cpp:333-359 | a press followed by held frames that never meet an edge moves the moon by the last touch minus the press point |
| `HandleInput.ClampedDragDoesNotTelescope` | code/chapter_9-sounds/source/main.cpp:342-359 | a drag past the right edge and back, with deltas summing to zero, leaves the moon at (0, 100) rather than at its start (100, 100) |
| `HandleInput.InitialMoon` | code/chapter_9-sounds/source/main.cpp:413-415 | the loop starts with the zero-initialised static grip and the moon position read back from the 9-bit `posX` and 8-bit `posY` fields, so both coordinates lie within those fields' ranges |
| `HandleInput.MoonStaysOnScreen` | code/chapter_9-sounds/source/main.cpp:195-229 | on the DS the moon starts at (176, 144) with the 32x32 size the drag uses, and no sequence of frames takes it off screen |
| `Sprites.Stored` | code/chapter_9-sounds/source/main.cpp:241-267 | a sprite's tile index and position keep only what the 10-bit `tileIdx` and 9/8-bit `posX`/`posY` fields hold, unchanged when in range; its graphics copy goes to the bytes the stored tile index addresses, its palette to the bank of its id, and `objPal` keeps the id's low 4 bits, so the bank the sprite selects is that bank while the id is below 16 |
| `Sprites.InitSprites` | code/chapter_9-sounds/source/main.cpp:116-267 | the shuttle gets tile 0; while `shuttleTilesLen / 32` fits the 10-bit field the moon gets that tile, and the counter ends past the moon's tiles; each graphics copy lands at the bytes its stored tile index addresses; within the field, the shuttle's graphics end where the moon's begin iff `shuttleTilesLen % 32 < 2`, and the copies are disjoint iff that holds or the moon copy is empty; each palette goes to the bank `objPal * 16` that the sprite selects, the banks differ, and the palette copies are disjoint iff the shuttle palette is at most 33 bytes or the moon's is empty; the moon's stored position fits its fields; the id asserts hold |
| `Sprites.TileIndexWraps` | code/chapter_9-sounds/source/main.cpp:241-266 | with 32 KiB of shuttle graphics the moon's tile index wraps to 0 in its 10-bit field and the moon's graphics are copied over the shuttle's |

## Left out

- Hardware setup (`initVideo`, `initBackgrounds`, VRAM banks, background affine matrices): these are fixed register writes with no behaviour to state.
- The DMA copies themselves: only their targets and lengths are modelled. `dmaCopyHalfWords` is taken as moving `size / 2` halfwords; libnds is not part of this model.
- The `Ship` class: its source is not part of this model and it uses floating point. The calls `handleInput` makes on it (`accelerate`, `reverseTurn`, the turns) appear as `Dispatch.Action` tokens; `moveShip` and the getters `getPosition` and `getAngleDeg512` called by the main loop (main.cpp:430-436) are not modelled.
- `playSound` and the sound descriptor: the call is the `PlaySound` token.
- `rotateSprite`, the float-to-int cast of the ship position, and the write-back into the OAM entries (main.cpp:433-439).
- `scanKeys` and `touchReadXY` are I/O. Their results are the `Input.Frame` parameters. The edge rule used for multi-frame properties (`Input.Scan`) is libnds's documented behaviour; it is not code shown here.
- The VBlank wait and `updateOAM` (main.cpp:447-448): hardware timing.
- Sprite attribute fields with no behaviour to state (object mode, mosaic, colour mode, shape, size code, flips, angle, rotation-matrix index).
- Screen and sprite sizes are `nat`: the source uses fixed positive constants.
- `Drag.DragStep`: with a sprite larger than the screen (`Fits` false), the clamp guarantees are not stated; only "the result is 0, `hi` or the target" is, through `Drag.ClampAxis`.
- The chapter 6 sprite demo and the backgrounds snippet: they repeat the same tile bump allocation or only call into libnds.
