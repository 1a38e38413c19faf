# Flying Rings Chaser: a Dafny model of the game core

This project models the parts of the Flying Rings Chaser browser game that carry checkable
logic, and proves properties about them. The game itself is JavaScript on WebGL. Three
components are modelled.

- **The game engine** (`public/source/engine.js`), module `Engine`, class `GameEngine`:
  - the frame limiter `frameLoop` and its two fields `#then` and `#frameCount`;
  - the pass it runs: update every object, check collisions, draw;
  - the per-kind object lists (asteroids, rings, cubes, the spaceship, terrains) and the
    `destroyed` subscriptions made by `#instantiate`, `#instantiateRing` and `#instantiateAsteroid`;
  - `#removeItem`;
  - the ring generator `getSomeRings`.

  Each call the engine makes to a collaborator is recorded, in order, in a `trace` of
  effects: frame requests, `update()` calls, the camera update, collision hooks, the draw.
  What collaborators answer is a `Scene`: which objects have an `update`, which colliders
  meet, each mesh's index count, and the canvas client size.
- **The cockpit** (`public/source/gameObjects/cockpit.js`), module `Cockpit`, class `Cockpit`:
  - health, points and the zero-padded points display;
  - the position clamped to the play field;
  - the up/down/left/right intents set by the key handlers;
  - the laser magazine. `#lastLaser` and `#canShoot` are driven by shots, and by the reload
    and cooldown timers firing. A timer still to fire is a pending counter. Its completion is
    an explicit event (`ReloadElapsed`, `CooldownElapsed`, or `ReloadTimer`/`CooldownTimer`
    in the pure magazine machine).
- **The WebGL manager's bookkeeping** (`public/source/webgl-manager.js`), module `Renderer`,
  class `WebGlManager`:
  - the ordered live-object list (`instantiate`, `destroy`);
  - the draw loop, reduced to the `drawElements` calls it issues;
  - the canvas resize.

Three helper modules hold what the core relies on:
- `Numbers`: the JavaScript built-ins `Math.max`, `Math.min`, truncation toward zero, and
  ToInt32 (the bitwise-or with 0);
- `Arrays`: the JavaScript built-ins `indexOf` and `splice(start, 1)`, including a negative start;
- `Vectors`: the `[x, y, z]` sum and scalar product of the game's own `MathUtils`
  (`math_utils.js`, imported at `public/source/engine.js:8` and
  `public/source/gameObjects/cockpit.js:4`), which is not part of this model.

Objects are compared by identity, so an object reference is a `nat` (`Renderer.ObjId`).
Time is a number of milliseconds (`Date.now()` gives an integer). `#then` and the frame
interval `1000 / fpsLimit` are reals. Health, points, position and speeds are reals.

### Behaviours of the code worth knowing
- **The frame gate is strict.** A pass runs only when `delta > frameInterval`
  (`public/source/engine.js:120`). A delta equal to the interval does not step.
- **`requestAnimationFrame` is called first** (`public/source/engine.js:115`), before the
  gate is evaluated. `FrameRequested` is therefore the first effect of every `frameLoop` call.
- **`instantiate` pushes duplicates** (`public/source/webgl-manager.js:81`). An object
  instantiated twice is listed, subscribed and drawn twice. It is still updated once: the
  update walk covers only the engine's own lists (`public/source/engine.js:163-169`).
- **`destroy` of an absent object drops the last entry.** `indexOf` gives -1, and
  `splice(-1, 1)` removes the last element (`public/source/webgl-manager.js:86-87`). The
  engine's `#removeItem` does guard against -1.
- **The magazine starts at laser 9.** `#lastLaser` is 9 whatever `maxLasers` is
  (`public/source/gameObjects/cockpit.js:19`). A reload chain starts only on a shot fired from
  index `maxLasers - 1` (line 126). With more than ten lasers no reload ever starts.
- **A subscriber removes the object as soon as it is called.** The `destroyed` channel is
  not part of this model. The model assumes it calls its subscribers synchronously, in
  subscription order, when the object fires it.

## Model

| member | source | states |
|---|---|---|
| Numbers.Max | public/source/gameObjects/cockpit.js:72-73 | `Math.max`: no smaller than either argument and equal to one of them |
| Numbers.Min | public/source/gameObjects/cockpit.js:72-73 | `Math.min`: no larger than either argument and equal to one of them |
| Vectors.Sum | public/source/gameObjects/cockpit.js:69 | `MathUtils.sum` adds component by component; adding the zero vector changes nothing |
| Vectors.Mul | public/source/engine.js:196 | `MathUtils.mul` keeps a zero x or y component at zero; a factor of 1 keeps the vector, 0 gives the zero vector, and a z component of 1 becomes k |
| Numbers.Truncate | public/source/gameObjects/cockpit.js:77 | the integer part toward zero: below x by less than 1 for x ≥ 0, above it by less than 1 for x < 0 |
| Numbers.ToInt32 | public/source/webgl-manager.js:199-200 | the bitwise-or with 0 lands in the signed 32-bit range, differs from its input by a multiple of 2^32, and is the identity inside the range |
| Arrays.IndexOf | public/source/webgl-manager.js:86 | -1 exactly when the value is absent; otherwise the position of its first occurrence |
| Arrays.SpliceStart | public/source/webgl-manager.js:87 | splice's start: an index in range is kept; a negative one counts from the end |
| Arrays.SpliceOne | public/source/webgl-manager.js:87 | `splice(start, 1)` removes the element at the resolved start and shifts the rest down; nothing is added |
| Renderer.Destroyed | public/source/webgl-manager.js:84-88 | a present object loses its first occurrence and the others keep their order; an absent one makes the list lose its last entry; an empty list stays empty; a non-empty list shrinks by exactly one |
| Renderer.DrawPass | public/source/webgl-manager.js:114-149 | one draw per live object, in list order, each with that object's index count |
| Renderer.EffectiveMultiplier | public/source/webgl-manager.js:198 | a missing or zero multiplier falls back to 1; the result is never 0 |
| Renderer.DisplaySize | public/source/webgl-manager.js:199-200 | the size is a signed 32-bit integer; with the default multiplier and a client size in range it equals the client size |
| Renderer.WebGlManager.constructor | public/source/webgl-manager.js:27 | the live list starts empty |
| Renderer.WebGlManager.Instantiate | public/source/webgl-manager.js:79-82 | appends the object at the end; earlier entries are unchanged |
| Renderer.WebGlManager.Destroy | public/source/webgl-manager.js:84-88 | the new list is `Destroyed` of the old one |
| Renderer.WebGlManager.Draw | public/source/webgl-manager.js:91-106 | the canvas is resized with the default multiplier, then one draw per live object is appended |
| Renderer.WebGlManager.DrawGameObjects | public/source/webgl-manager.js:110-151 | the loop appends exactly `DrawPass` of the live list to the calls issued |
| Renderer.WebGlManager.ResizeCanvasToDisplaySize | public/source/webgl-manager.js:196-207 | width and height become the display sizes; the result is true iff either one changed |
| Renderer.ResizeIsIdempotent | public/source/webgl-manager.js:196-207 | a second resize to the same client size returns false and keeps the sizes |
| Engine.RingCentersBefore | public/source/engine.js:191-199 | the first n centres the generator yields: x and y of the centre, z = centre z + (i - tot/2)·40 |
| Engine.SomeRings | public/source/engine.js:191-199 | `getSomeRings(center, tot)` yields max(tot, 0) rings on the z axis through the centre, 40 apart, the i-th at (i - tot/2)·40 |
| Engine.SlotsBounds | public/source/engine.js:133 | ⌊delta / interval⌋ whole intervals fit in delta, and one more does not |
| Engine.Remainder | public/source/engine.js:133 | `delta % frameInterval` for positive operands lies in [0, interval) and never exceeds delta |
| Engine.NextThen | public/source/engine.js:117-133 | after a step `then < then' ≤ now` and `now - then' < frameInterval`; `then'` moved forward by a whole number (at least one) of intervals |
| Engine.Intervals | public/source/engine.js:133-135 | the time taken by n intervals is 0 for n = 0 and never negative for a non-negative interval |
| Engine.IntervalsProduct | public/source/engine.js:133-135 | n intervals take n · interval |
| Engine.IntervalsAdd | public/source/engine.js:133-135 | m + k intervals take the time of m intervals plus k · interval |
| Engine.IntervalsMonotonic | public/source/engine.js:133-135 | more intervals take no less time |
| Engine.UpdateOrder | public/source/engine.js:163 | the flattened list holds every asteroid, ring, cube and terrain entry plus the spaceship, and nothing else |
| Engine.UpdateEvents | public/source/engine.js:164-168 | the update loop makes only `update()` calls, at most one per list entry (an object listed twice is updated twice) |
| Engine.UpdateEventsMembers | public/source/engine.js:164-168 | an object is updated iff it is in the list and has an `update` |
| Engine.UpdateEventsAppend | public/source/engine.js:163-168 | walking a concatenation makes the calls of the first list, then those of the second |
| Engine.UpdatePass | public/source/engine.js:162-170 | the update pass is `update()` calls only, closed by the camera update |
| Engine.UpdatePassOrder | public/source/engine.js:162-170 | updates go asteroids, rings, cubes, spaceship, terrains, and the camera comes last |
| Engine.Hits | public/source/engine.js:99-110 | an object is met iff it is in the list and its collider intersects the spaceship's |
| Engine.HitsAppend | public/source/engine.js:99-110 | walking two lists one after the other meets the first list's objects, then the second's |
| Engine.HitsAll | public/source/engine.js:99-110 | when every listed object intersects, every entry is met, in list order and as often as listed |
| Engine.Collisions | public/source/engine.js:99-110 | a collision loop fires only hooks |
| Engine.CollisionsPaired | public/source/engine.js:97-111 | two hooks per object met and none for the others; for the j-th object met, the spaceship's hook first, then the object's |
| Engine.CollisionPass | public/source/engine.js:97-111 | the collision pass fires only hooks, two for every ring and every asteroid the spaceship meets |
| Engine.PassEvents | public/source/engine.js:83-95 | a pass updates the camera, ends with the draw, and requests no frame |
| Engine.BlocksOrdered | public/source/engine.js:83-95 | a trace laid out as updates, camera, hooks, draw is in phase order |
| Engine.BlocksCounts | public/source/engine.js:83-95 | such a trace holds one camera update, one draw and no frame request |
| Engine.PassCounts | public/source/engine.js:83-95 | a pass draws once, updates the camera once and requests no frame |
| Engine.PassAddsOneDraw | public/source/engine.js:135-136 | appending a pass to any trace adds exactly one draw |
| Engine.PassOrdered | public/source/engine.js:83-95 | every update precedes the camera, which precedes every hook, which precedes the draw; the draw closes the pass |
| Engine.RemoveItem | public/source/engine.js:201-207 | an absent value leaves the array unchanged; a present one loses its first occurrence, the rest keep their order, and the length drops by one |
| Engine.RemoveItemVersusDestroy | public/source/engine.js:201-207 | `#removeItem` agrees with the renderer's destroy on present objects and differs from it on absent ones |
| Engine.Notified | public/source/engine.js:172-188 | a subscriber touches only its own list: the renderer's destroy only the live list, each `#removeItem` closure only its array |
| Engine.NotifyAllNeverAdds | public/source/engine.js:172-188 | firing `destroyed` never adds to any list, and a list with no subscriber among the object's stays as it was |
| Engine.NotifyAllOnce | public/source/engine.js:172-188 | when each subscriber kind appears at most once, firing `destroyed` removes the object from each subscribed list once and leaves the other lists alone, in any order |
| Engine.DestroyedRingLeavesBothLists | public/source/engine.js:178-182 | destroying a ring registered by `#instantiateRing` removes one occurrence from the live list and one from `#rings`, and leaves `#asteroids` alone |
| Engine.DestroyedAsteroidLeavesBothLists | public/source/engine.js:184-188 | the same for an asteroid, with `#asteroids` |
| Engine.GameEngine.constructor | public/source/engine.js:34-53 | frameInterval = 1000 / fpsLimit, frameCount = 0, not started; the spaceship is registered with the renderer and subscribed |
| Engine.GameEngine.Instantiate | public/source/engine.js:172-176 | subscribes the renderer's destroy, then appends the object to the live list |
| Engine.GameEngine.InstantiateRing | public/source/engine.js:178-182 | the renderer subscription, then the ring-list removal |
| Engine.GameEngine.InstantiateAsteroid | public/source/engine.js:184-188 | the renderer subscription, then the asteroid-list removal |
| Engine.GameEngine.AddRing | public/source/engine.js:62-65 | setup pushes the ring on `#rings`, then instantiates it as a ring |
| Engine.GameEngine.AddAsteroid | public/source/engine.js:140-149 | an asteroid is instantiated, then pushed on `#asteroids` |
| Engine.GameEngine.AddTerrain | public/source/engine.js:151-160 | a terrain chunk goes straight into the live list with no subscription, then onto `#terrains` |
| Engine.GameEngine.SetFirstCube | public/source/engine.js:67-69 | `#cubes[0]` is set, then instantiated |
| Engine.GameEngine.EmitDestroyed | public/source/engine.js:172-188 | the lists become what the object's subscribers make of them, run in subscription order |
| Engine.GameEngine.RunSubscriber | public/source/engine.js:172-188 | one subscriber callback applied to the lists |
| Engine.GameEngine.UpdateGameObjects | public/source/engine.js:162-170 | the loop appends exactly the update pass to the trace |
| Engine.GameEngine.CheckCollisions | public/source/engine.js:97-111 | the ring loop, then the asteroid loop, append exactly the collision pass |
| Engine.GameEngine.CollisionLoop | public/source/engine.js:99-103 | one collision loop appends exactly `Collisions` of its list |
| Engine.GameEngine.GameLoop | public/source/engine.js:83-95 | the trace gains exactly one pass; the renderer resizes and draws every live object |
| Engine.GameEngine.FrameLoop | public/source/engine.js:114-138 | re-arms first; steps iff `now - then > frameInterval`; on a step `then = NextThen`, frameCount + 1, and one pass runs; otherwise then, frameCount and the renderer are unchanged; the invariant holds (frameCount = draws in the trace; then on the start-time grid) |
| Engine.GameEngine.RequestAnimationFrame | public/source/engine.js:115 | one frame request is appended and the invariant is kept |
| Engine.GameEngine.Step | public/source/engine.js:120-137 | the stepping branch: then moves to `NextThen`, one more frame counted, one pass run |
| Engine.GameEngine.AdvanceClock | public/source/engine.js:133-135 | `then = now - delta % interval` keeps then a whole number of intervals after the start, and no more passes than intervals |
| Engine.GameEngine.Start | public/source/engine.js:79-80 | then = the setup time; the first frameLoop call reads its own time and steps iff that time exceeds the setup time by more than frameInterval; if it does, then = `NextThen`, frameCount = 1 and one pass runs; otherwise then and frameCount stay and the renderer is untouched |
| Engine.FramesWithinElapsedTime | public/source/engine.js:133-136 | frameCount · frameInterval never exceeds the time then has advanced since start |
| Cockpit.PerFrame | public/source/gameObjects/cockpit.js:67-80 | `perSecond * gameSpeed / fpsLimit` is the amount that adds up to perSecond·gameSpeed over fpsLimit frames; never negative for non-negative inputs |
| Cockpit.Deducted | public/source/gameObjects/cockpit.js:97-108 | a deduction floored at 0: the result is 0 or x - amount, whichever is larger; it never exceeds 100 when x did not and the amount is not negative |
| Cockpit.Restored | public/source/gameObjects/cockpit.js:88-89 | a restoration capped at 100: the result is 100 or health + amount, whichever is smaller |
| Cockpit.Clamp | public/source/gameObjects/cockpit.js:72-73 | within [-bound, bound] for a non-negative bound; unchanged inside; the nearer border outside |
| Cockpit.Displacement | public/source/gameObjects/cockpit.js:67-68 | the move across is (left - right)·gameSpeed/fpsLimit and up is (up - down)·gameSpeed/fpsLimit; no move along z; balanced intents give no move |
| Cockpit.Moved | public/source/gameObjects/cockpit.js:67-73 | z is unchanged; with non-negative borders the new position is inside the field |
| Cockpit.MovedInsideField | public/source/gameObjects/cockpit.js:67-73 | when the move stays inside the field the craft moves by exactly the displacement |
| Cockpit.MovedStopsAtBorder | public/source/gameObjects/cockpit.js:72-73 | a move past any of the four borders stops on that border |
| Cockpit.IdleStaysPut | public/source/gameObjects/cockpit.js:67-73 | with no key held, a craft inside the field does not move |
| Cockpit.Pressed | public/source/gameObjects/cockpit.js:152-166 | key-down of W/S/A/D sets up/down/left/right to the speed and leaves the other intents; any other key leaves all of them |
| Cockpit.Released | public/source/gameObjects/cockpit.js:172-187 | key-up of W/S/A/D resets the same intent to 0 and leaves the others; any other key leaves all of them |
| Cockpit.ReleaseUndoesPress | public/source/gameObjects/cockpit.js:152-187 | pressing then releasing a key ends where releasing it alone would |
| Cockpit.Shot | public/source/gameObjects/cockpit.js:123-132 | shoot() keeps the magazine well formed; it uses one laser exactly when it fires; a cockpit still able to shoot afterwards did not fire |
| Cockpit.Reloaded | public/source/gameObjects/cockpit.js:134-141 | a reload timer keeps the magazine well formed and puts one laser back when a chain is running; shooting is not affected |
| Cockpit.CooledDown | public/source/gameObjects/cockpit.js:143-146 | the cooldown timer lets the cockpit shoot again and leaves the lasers and the reload chain alone |
| Cockpit.Run | public/source/gameObjects/cockpit.js:123-146 | without shots and reloads the laser count is unchanged; without a cooldown a blocked cockpit stays blocked |
| Cockpit.InitialMagazineOk | public/source/gameObjects/cockpit.js:19-44 | the initial magazine (lastLaser 9, can shoot, no timers) is well formed when there are at least ten lasers |
| Cockpit.ShotEffect | public/source/gameObjects/cockpit.js:123-132 | a shot needs canShoot and lastLaser ≥ 0; it uses one laser, blocks shooting, and afterwards a reload chain runs iff one already ran or the shot came from the last indicator (capacity - 1); otherwise nothing changes |
| Cockpit.NextKeepsOk | public/source/gameObjects/cockpit.js:123-146 | shots, reloads and cooldowns keep -1 ≤ lastLaser ≤ capacity - 1, at most one reload chain (only while not full), and a cooldown pending exactly when the cockpit cannot shoot |
| Cockpit.RunKeepsOk | public/source/gameObjects/cockpit.js:123-146 | the same for any sequence of events |
| Cockpit.LasersAccounted | public/source/gameObjects/cockpit.js:123-141 | lastLaser moves down only with shots and up only with reloads |
| Cockpit.ShotsNeedCooldowns | public/source/gameObjects/cockpit.js:123-146 | shots fired ≤ the one shot a ready cockpit holds + the cooldowns completed |
| Cockpit.NoShotWithoutCooldown | public/source/gameObjects/cockpit.js:123-146 | after a shot, nothing more is fired until a cooldown completes |
| Cockpit.ReloadTimers | public/source/gameObjects/cockpit.js:134-141 | a run of j reload timer events |
| Cockpit.ReloadChainSteps | public/source/gameObjects/cockpit.js:134-141 | each reload puts one laser back, and the chain continues exactly while the magazine is not full |
| Cockpit.ReloadChainRefills | public/source/gameObjects/cockpit.js:134-141 | a running chain, left alone, fills the magazine and stops |
| Cockpit.DecimalDigits | public/source/gameObjects/cockpit.js:77 | `toString()` of a natural number is a non-empty string of digits with no leading zero |
| Cockpit.IntegerText | public/source/gameObjects/cockpit.js:77 | `toString()` of an integer: digits, with a leading '-' when negative |
| Cockpit.PadStart | public/source/gameObjects/cockpit.js:77 | `padStart(width, c)` has length max(width, the string's length), ends with the string, and is filled with c in front |
| Cockpit.PointsText | public/source/gameObjects/cockpit.js:77 | the points display has exactly max(8, the length of the truncated number's text) characters |
| Cockpit.ParseDecimalDigits | public/source/gameObjects/cockpit.js:77 | reading the decimal digits of n back gives n |
| Cockpit.ParseIgnoresLeadingZeros | public/source/gameObjects/cockpit.js:77 | the zero padding does not change the number read back |
| Cockpit.PointsTextReadsBack | public/source/gameObjects/cockpit.js:77 | for non-negative points the display is all digits and reads back as ⌊points⌋ |
| Cockpit.NegativePointsText | public/source/gameObjects/cockpit.js:77 | for a negative truncation the display is zeros, then '-', then the decimal digits of the magnitude |
| Cockpit.Cockpit.constructor | public/source/gameObjects/cockpit.js:14-48 | health 100, points 0, position at the origin, no key held, lastLaser 9, can shoot, deltaSpeed = cockpitSpeed, one laser per maxLasers |
| Cockpit.Cockpit.Update | public/source/gameObjects/cockpit.js:60-83 | position = `Moved`, points gain the per-frame amount, display refreshed, health loses the per-frame amount floored at 0; ranges kept under non-negative settings |
| Cockpit.Cockpit.Move | public/source/gameObjects/cockpit.js:67-73 | the new position is `Moved` of the old one |
| Cockpit.Cockpit.EarnFramePoints | public/source/gameObjects/cockpit.js:76-77 | points gain the per-frame amount and the display shows them |
| Cockpit.Cockpit.WearFrameHealth | public/source/gameObjects/cockpit.js:80-81 | health loses the per-frame amount, floored at 0 |
| Cockpit.Cockpit.OnRingCollided | public/source/gameObjects/cockpit.js:85-95 | health restored and capped at 100; ring points added; display refreshed |
| Cockpit.Cockpit.OnAsteroidCollided | public/source/gameObjects/cockpit.js:97-108 | health and points each lose their amount, floored at 0; display refreshed |
| Cockpit.Cockpit.OnGroundCollided | public/source/gameObjects/cockpit.js:110-121 | the same with the terrain amounts |
| Cockpit.Cockpit.Shoot | public/source/gameObjects/cockpit.js:123-132 | when able: lastLaser - 1, canShoot false, cooldown started, reload chain started when fired from the last indicator; otherwise no change |
| Cockpit.Cockpit.ReloadElapsed | public/source/gameObjects/cockpit.js:134-141 | lastLaser + 1; another reload is pending iff the magazine is still not full |
| Cockpit.Cockpit.CooldownElapsed | public/source/gameObjects/cockpit.js:143-146 | the cockpit can shoot again |
| Cockpit.Cockpit.KeyDown | public/source/gameObjects/cockpit.js:152-170 | intents become `Pressed`; space shoots, other keys leave the magazine alone |
| Cockpit.Cockpit.KeyUp | public/source/gameObjects/cockpit.js:172-187 | intents become `Released` |

## Left out

- WebGL itself is not modelled: shader compilation and linking, buffer uploads, uniforms,
  `viewport`/`clear`, `#computeMatrix` and `#directionalLight`. They are graphics-device
  calls and trigonometry. A draw is reduced to its `drawElements` call.
- `public/index.js`: asset, shader and skybox loading, and WebGL context creation. This is
  file and image I/O. The settings object's values are not fixed by the model; they are
  parameters.
- Scene creation in `setup()`: the camera, the light (`setAndEnableLight` is not defined in
  the shown manager), and the construction of the Spaceship, Asteroid, Ring, Terrain and Cube
  objects. The registration steps of `setup()` are modelled (`AddRing`, `AddAsteroid`,
  `AddTerrain`, `SetFirstCube`), and so are the ring centres.
- The entities' own `update()`, their collision hooks, collider intersection, and the camera
  update are outside the model. The model records that they are called, in order, and takes
  their answers from a `Scene`.
- Engine.GameEngine.CheckCollisions: a ring hook that fires `destroyed` inside
  `for (const ring of this.#rings)` splices the array being iterated, and the iterator then
  skips the ring that followed. The model walks each list as it stood when the loop began. It
  assumes no hook and no `update()` changes any list during a pass: `GameLoop` ensures
  `Objects()` is unchanged.
- Engine.GameEngine.FrameLoop: `Date.now()` and `requestAnimationFrame` are a parameter and a
  trace entry. Floating-point rounding of `then` and of `%` is not modelled: the arithmetic is
  exact real arithmetic.
- Engine.GameEngine.constructor and Cockpit.Cockpit.constructor: both require `fpsLimit > 0`. With 0, `1000.0 / 0` is
  `Infinity` and the limiter never steps. With a negative limit the interval is negative and
  every tick steps. Neither case is modelled.
- Renderer.DisplaySize: a negative size is not converted to the canvas's unsigned width. The
  model keeps the signed value of the bitwise-or with 0.
- Cockpit.PointsText: `parseInt` reads the number's string form. For points of 10^21 and
  above, or below 10^-6 but not 0, that string is in exponent notation and `parseInt` reads
  only its leading digits. The model truncates in every case.
- Cockpit.Cockpit.Update: `super.update()` and the collider adjustment
  (`collider.center[2] += 2`) are not modelled. The collider is not part of this model. The
  `GameObject` in `public/source/gameObjects/gameObject.js` defines no `update`, so as written
  `super.update()` would throw. That file also lacks `destroyed` and `_computeRadius`, so it is
  not the version `Cockpit` extends. The model assumes the base `update` returns normally and
  changes none of the cockpit's modelled fields.
- Cockpit DOM effects are not modelled: the health bar width, the laser indicators' opacity,
  `getElementById` and `console.log`. Only the points display text is modelled, as
  `pointsText`.
- Engine.GameEngine.EmitDestroyed: the `destroyed` channel (its `subscribe` and its emit) is not
  part of this model. Subscribers are assumed to run synchronously, in subscription order, and
  the channel is assumed to pass the destroyed object itself to every subscriber. The
  subscribers act on the value they receive (`public/source/engine.js:173`, 180 and 186); with
  any other value `indexOf` gives -1 and the renderer's splice drops its last live entry.
- Vectors.Sum, Vectors.Mul: `MathUtils` is not part of this model. Its `sum` and `mul` are
  assumed to work component by component on `[x, y, z]` arrays.
- Cockpit.Cockpit.constructor: it requires `maxLasers ≥ 10`. The first shot hides laser
  indicator 9, and with fewer indicators that element does not exist.
- Cockpit.Cockpit.ReloadElapsed and Cockpit.Cockpit.CooldownElapsed: each requires a pending
  timer. `laserReloadPerSecond` and `laserCooldown` only set timer delays, and time is not
  modelled for these timers.
- Cockpit.Cockpit.KeyDown and Cockpit.Cockpit.KeyUp: the listeners are registered through
  `addEventListener`. The model calls the handlers directly with the key code.
- The debug globals `X`, `Z`, `A` and their `keyup` handler in `engine.js` are not modelled.
  They are not read by the game.
