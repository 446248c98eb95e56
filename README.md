# Moribund client: player input state machine and frame driver

This project models the core of the Moribund game client in Dafny.

The client-controlled `Player` keeps two sets of intent flags:
- `flags`, the flags currently active;
- `flagsToRemove`, the flags scheduled to leave at the next tick.

It also keeps a key-binding table that is built on first use, and the sprite's
position and rotation. Its input callbacks do three things:
- they send key-edge packets to the server for the four arrow keys;
- the local handlers raise a flag or schedule it for removal;
- a release reports the player's location or rotation.

`GameScreen.render` drives each frame. It first runs every flaggable's flag
processing, then draws, then moves the camera onto the client's player. The
camera is clamped to the background by `getCameraPositionX`/`getCameraPositionY`.

Files:
- `net.dfy` (module `Net`): the packet shapes, and the UDP dispatcher. The
  dispatcher is modelled as a ghost log of the packets it was handed.
- `player.dfy` (module `Entity`) holds the following:
  - the flag, binding and pose values;
  - the default binding table;
  - the edge-packet law over a run of key events;
  - the `Client` singleton: the dispatcher and the client's own player;
  - the `Player` class.
- `game_screen.dfy` (module `Screens`) holds the following:
  - the camera clamps;
  - the order of a frame's work;
  - the `GameScreen` class.
- `util.dfy` (module `Util`): `Option` and counting occurrences in a sequence.

Java `float` values are modelled as `real`, and Java `int` values as `int`.
The libGDX key codes are UP = 19, DOWN = 20, LEFT = 21 and RIGHT = 22.

Facts about the code that shape the model:
- The flags are `MOVE_UP`, `MOVE_DOWN`, `MOVE_RIGHT` and `MOVE_LEFT`.
- `keyDown`/`keyUp` only send the edge packet; the local handlers
  `keyPressed`/`keyUnpressed` run separately.
- A key release sends one Location or Rotation packet from the release handler.
- The edge packets carry the id of the client's own player, read from the
  client singleton, not the id of the receiving `Player` object.
- The client's own player appears twice in the model: as `Client.player` in
  `player.dfy` and as an index into the registry in `GameScreen`. Both stand for
  the same player of the client singleton.

## Model

| member | source | states |
|---|---|---|
| Net.PacketDispatcher.SendUdp | core/src/main/java/com/github/moribund/entity/Player.java:92-94 | sending appends exactly that packet to the log of sent packets |
| Entity.DefaultKeyBinds | core/src/main/java/com/github/moribund/entity/Player.java:109-158 | the table binds exactly UP, DOWN, RIGHT and LEFT; no two keys share a flag; exactly UP and DOWN report the location, the others the rotation |
| Entity.ReleasePacket | core/src/main/java/com/github/moribund/entity/Player.java:91-101 | a release packet carries the player's id; it is a Location packet with the sprite's x and y exactly for a location report, else a Rotation packet with the sprite's rotation |
| Entity.EdgePackets | core/src/main/java/com/github/moribund/entity/Player.java:232-252 | a key edge yields one packet iff the key is bound, none otherwise; that packet is KeyPressed for a key going down and KeyUnpressed for one going up, with the client's id and the key code |
| Entity.EdgeLog | core/src/main/java/com/github/moribund/entity/Player.java:232-252 | a run of `keyDown`/`keyUp` calls sends at most one packet per event |
| Entity.EdgeLogOnlyEdgePackets | core/src/main/java/com/github/moribund/entity/Player.java:232-252 | a run of `keyDown`/`keyUp` calls sends only KeyPressed and KeyUnpressed packets, all under the client player's id |
| Entity.EdgeLogCountsKeyDowns | core/src/main/java/com/github/moribund/entity/Player.java:232-241 | over any run of key edges, the number of KeyPressed(id, k) packets sent equals the number of key-down events of k when k is bound, and is zero otherwise |
| Entity.EdgeLogCountsKeyUps | core/src/main/java/com/github/moribund/entity/Player.java:243-252 | the same law for KeyUnpressed packets and key-up events |
| Entity.Rotated | core/src/main/java/com/github/moribund/entity/Player.java:185-193 | rotating changes the rotation by exactly the given degrees and leaves x and y as they were |
| Entity.RotationsCancel | core/src/main/java/com/github/moribund/entity/Player.java:185-193 | rotating left then right, or right then left, restores the pose |
| Entity.Advanced | core/src/main/java/com/github/moribund/entity/Player.java:195-211 | moving displaces x by speed times the cosine and y by speed times the sine of the current rotation, and keeps the rotation |
| Entity.MovesCancel | core/src/main/java/com/github/moribund/entity/Player.java:195-211 | moving back displaces by the negation of moving forward at the same angle, so either one followed by the other restores the pose |
| Entity.Player.constructor | core/src/main/java/com/github/moribund/entity/Player.java:64-69 | a new player has its id, no active or pending flags, and no binding table yet |
| Entity.Player.AddFlag | core/src/main/java/com/github/moribund/entity/Player.java:75-77 | the flag joins the active set, and a flag already active changes nothing; the pending set is outside the method's frame |
| Entity.Player.FlagToRemove | core/src/main/java/com/github/moribund/entity/Player.java:83-85 | the flag joins the pending-removal set; the active set is outside the frame, so removal is deferred |
| Entity.Player.SendLocationPacket | core/src/main/java/com/github/moribund/entity/Player.java:91-95 | exactly one Location packet with the player's id and the sprite's current x and y is sent |
| Entity.Player.SendRotationPacket | core/src/main/java/com/github/moribund/entity/Player.java:97-101 | exactly one Rotation packet with the player's id and the sprite's current rotation is sent |
| Entity.Player.SetRotation | core/src/main/java/com/github/moribund/entity/Player.java:103-106 | the rotation becomes the given angle; the position stays |
| Entity.Player.BindKeys | core/src/main/java/com/github/moribund/entity/Player.java:108-158 | the four arrow keys get the default actions and every other entry of the existing table is kept |
| Entity.Player.GetX | core/src/main/java/com/github/moribund/entity/Player.java:160-163 | returns the sprite's x |
| Entity.Player.GetY | core/src/main/java/com/github/moribund/entity/Player.java:165-168 | returns the sprite's y |
| Entity.Player.SetX | core/src/main/java/com/github/moribund/entity/Player.java:170-173 | only the sprite's x changes, to the given value |
| Entity.Player.SetY | core/src/main/java/com/github/moribund/entity/Player.java:175-178 | only the sprite's y changes, to the given value |
| Entity.Player.RotateLeft | core/src/main/java/com/github/moribund/entity/Player.java:185-188 | the rotation grows by 5 degrees; x and y stay |
| Entity.Player.RotateRight | core/src/main/java/com/github/moribund/entity/Player.java:190-193 | the rotation shrinks by 5 degrees; x and y stay |
| Entity.Player.MoveForward | core/src/main/java/com/github/moribund/entity/Player.java:195-202 | the sprite moves 5 units along its heading |
| Entity.Player.MoveBack | core/src/main/java/com/github/moribund/entity/Player.java:204-211 | the sprite moves 5 units against its heading |
| Entity.Player.GetKeyBinds | core/src/main/java/com/github/moribund/entity/Player.java:213-220 | afterwards the table exists and is the default table; a table that already existed is returned unchanged, without binding again |
| Entity.Player.RunPressed | core/src/main/java/com/github/moribund/entity/Player.java:110-114 | a binding's press half raises exactly the bound flag |
| Entity.Player.RunUnpressed | core/src/main/java/com/github/moribund/entity/Player.java:116-120 | a binding's release half schedules the bound flag for removal and sends exactly the packet its report names |
| Entity.Player.KeyPressed | core/src/main/java/com/github/moribund/entity/Player.java:222-225 | for a bound key, exactly the flag bound to it is added, and no packet is sent (the dispatcher is outside the frame) |
| Entity.Player.KeyUnpressed | core/src/main/java/com/github/moribund/entity/Player.java:227-230 | for a bound key, the bound flag is scheduled for removal and exactly one packet is sent: Location(id, x, y) for UP/DOWN, Rotation(id, rotation) for LEFT/RIGHT |
| Entity.Player.KeyDown | core/src/main/java/com/github/moribund/entity/Player.java:232-241 | always returns true; leaves both flag sets unchanged; sends one KeyPressed packet with the client player's id iff the key is bound |
| Entity.Player.KeyUp | core/src/main/java/com/github/moribund/entity/Player.java:243-252 | always returns true; leaves both flag sets unchanged; sends one KeyUnpressed packet with the client player's id iff the key is bound |
| Entity.Player.KeyTyped | core/src/main/java/com/github/moribund/entity/Player.java:254-257 | returns false and changes nothing |
| Entity.Player.TouchDown | core/src/main/java/com/github/moribund/entity/Player.java:259-262 | returns false and changes nothing |
| Entity.Player.TouchUp | core/src/main/java/com/github/moribund/entity/Player.java:264-267 | returns false and changes nothing |
| Entity.Player.TouchDragged | core/src/main/java/com/github/moribund/entity/Player.java:269-272 | returns false and changes nothing |
| Entity.Player.MouseMoved | core/src/main/java/com/github/moribund/entity/Player.java:274-277 | returns false and changes nothing |
| Entity.Player.Scrolled | core/src/main/java/com/github/moribund/entity/Player.java:279-282 | returns false and changes nothing |
| Screens.UpperBound | core/src/main/java/com/github/moribund/screens/game/GameScreen.java:122 | the upper camera bound is non-negative exactly when the background spans at least twice the balancing constant; otherwise the bounds cross |
| Screens.LowerBound | core/src/main/java/com/github/moribund/screens/game/GameScreen.java:120-122 | the lower camera bound is always the negation of the upper one |
| Screens.Clamp | core/src/main/java/com/github/moribund/screens/game/GameScreen.java:118-149 | at or past the upper bound the result is the upper bound; strictly between the bounds it is the position; at or below the lower bound (and below the upper) it is the lower bound; within the bounds when they do not cross; one of the two bounds when they cross |
| Screens.CameraX | core/src/main/java/com/github/moribund/screens/game/GameScreen.java:118-130 | with right = width/2 - 400: the result is right when the player's x is at least right, the player's x when it lies strictly between -right and right, and -right when it is at or below -right and below right |
| Screens.CameraY | core/src/main/java/com/github/moribund/screens/game/GameScreen.java:137-149 | the same clamp with upper = height/2 - 240: upper at or past upper, the player's y strictly between -upper and upper, and -upper when at or below -upper and below upper |
| Screens.CameraXWithinBounds | core/src/main/java/com/github/moribund/screens/game/GameScreen.java:120-129 | on a background at least 800 wide the camera's x lies in [-(width/2 - 400), width/2 - 400] and is monotone non-decreasing in the player's x |
| Screens.CameraYWithinBounds | core/src/main/java/com/github/moribund/screens/game/GameScreen.java:139-148 | on a background at least 480 high the camera's y lies in its bounds and is monotone non-decreasing in the player's y |
| Screens.CameraXCrossedBounds | core/src/main/java/com/github/moribund/screens/game/GameScreen.java:124-128 | on a background narrower than 800 the bounds cross; the right-bound test comes first, so the result is the right bound exactly when x is at or past it and the left bound otherwise, and the camera is not monotone there |
| Screens.SweepPhases | core/src/main/java/com/github/moribund/screens/game/GameScreen.java:162-164 | a sweep over n flaggables has n steps, the i-th processing flaggable i |
| Screens.SweepProcessesEachOnce | core/src/main/java/com/github/moribund/screens/game/GameScreen.java:162-164 | a sweep processes every registered flaggable exactly once and no other |
| Screens.FramePhases | core/src/main/java/com/github/moribund/screens/game/GameScreen.java:65-71 | in a frame every flag-processing step comes before every drawing and camera step; the camera moves iff there is a player, and then last; the screen is cleared and both batches are drawn |
| Screens.FrameProcessesEachOnce | core/src/main/java/com/github/moribund/screens/game/GameScreen.java:65-71 | a frame processes every registered flaggable exactly once |
| Screens.GameScreen.constructor | core/src/main/java/com/github/moribund/screens/game/GameScreen.java:42-47 | the screen holds the given background size, the registry as given, and the camera passed in, at whatever position that camera already has |
| Screens.GameScreen.ProcessAllFlags | core/src/main/java/com/github/moribund/screens/game/GameScreen.java:162-164 | every flaggable's new pose is its own processing step, one per flaggable, applied exactly once to its old pose; the log grows by one sweep |
| Screens.GameScreen.ClearGl | core/src/main/java/com/github/moribund/screens/game/GameScreen.java:67 | records that the screen was cleared |
| Screens.GameScreen.DrawGameSpriteBatch | core/src/main/java/com/github/moribund/screens/game/GameScreen.java:175-183 | records that the game batch was drawn |
| Screens.GameScreen.DrawUiSpriteBatch | core/src/main/java/com/github/moribund/screens/game/GameScreen.java:185-189 | records that the UI batch was drawn |
| Screens.GameScreen.CameraFollowPlayer | core/src/main/java/com/github/moribund/screens/game/GameScreen.java:105-111 | with no player nothing changes; otherwise the camera is centred on the clamped position of the player |
| Screens.GameScreen.Render | core/src/main/java/com/github/moribund/screens/game/GameScreen.java:65-71 | each flaggable is processed exactly once by its own step, before any drawing; the frame's steps follow `FramePhases`; the camera lands on the clamped position of the player after the player's own step, or stays put with no player |

## Left out

- Floating point: positions and rotations are `real`, so float32 rounding is not modelled. `RotationsCancel` and `MovesCancel` hold exactly here; in float32 they can be off by rounding.
- Integer width: key codes and player ids are unbounded `int`, not 32-bit.
- The flag classes are not part of this model, and the body of the per-flaggable `processFlags` is not among the modelled files. `GameScreen.ProcessAllFlags` and `GameScreen.Render` take one step per flaggable as a parameter `ticks`, each acting on that flaggable's pose. Whatever that step does to a flaggable's flag sets, and any packets it sends, are therefore not modelled.
- The `PlayableCharacter` type that `Player.java` extends is not part of this model. The `Flag` enum is not part of this model either: its four values are taken from their uses in `Player.java`.
- `MathUtils.cosDeg`/`sinDeg` are not modelled: `MoveForward`/`MoveBack` take the cosine and sine as function parameters.
- Network I/O: `sendUDP` is replaced by a ghost log of sent packets. The `MoribundClient` singleton is an explicit `Client` object holding the dispatcher and the client's player.
- Registry as values: the registry of flaggables is a sequence of poses held by the screen, and the client's player is an index into it. So aliasing between the player object and the registry entry is not modelled. Neither is registry membership changing during a frame.
- GetKeyBinds and Valid: the source hands out its live binding map from `getKeyBinds`, and its getters expose `flags` and `flagsToRemove` by reference. The model holds these collections as values, so changes made to them by other code through those references are not modelled, and `Valid` assumes the table is only ever filled by `bindKeys`.
- Null dereferences become preconditions:
  - `keyPressed`/`keyUnpressed` on an unbound key call a method on a missing action, so `KeyPressed`/`KeyUnpressed` require a bound key;
  - `keyDown`/`keyUp` on a bound key read the client's player, so they require it to be present;
  - `bindKeys` on a table not yet allocated, so `BindKeys` requires the table.
- Drawing and GL work is recorded only as a phase in a ghost log, not modelled. This covers `clearGL`, `drawUI`, `drawBackground`, `drawVisibleEntities`, the sprite-batch calls, `Player.draw`, sprite construction and `dispose`. The initial sprite pose is a constructor parameter.
- `CameraFollowPlayer`: the camera's z (set to 0) and `camera.update()` are not modelled.
- The screen callbacks `show`, `resize`, `pause`, `resume` and `hide` are empty in the source and are not modelled.
- `render`'s `delta` argument is unused in the source and is not modelled.
- The legacy `core/src/main/java/com/github/moribund/GameScreen.java` has no logic beyond drawing and is not modelled. Neither is `RotateFlag.java`, a one-call Rotation packet sender of the same shape as `SendRotationPacket`, nor `Inventory.java`, which only draws.
