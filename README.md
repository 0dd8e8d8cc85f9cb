# Portfolio Drive: animation and lighting core in Dafny

Portfolio Drive is a browser Three.js scene. A car drives along a road past
billboards. The camera follows the car, billboards react to the mouse, and a
toggle switches the scene between day and night. This project models the three
deterministic pieces of `main.js` that carry that behaviour and proves what they
promise. Reals stand in for JavaScript numbers.

- **Car navigation** (`CarNavigation`). `animateCarToPosition` captures the
  car's ground position and starts `updatePosition`. Each tick does four things:
  - It clamps the elapsed time to a progress value (`min(elapsed / 2000, 1)`)
    and eases it with the cubic ease-in-out.
  - It interpolates the car's x and z from the captured start to the target.
    It never writes the car's height.
  - It places the camera. For a target in the skills area (`targetZ >= 150`)
    the car faces straight ahead and the camera sits 15 units directly behind
    it. Otherwise the car faces the trip's heading and the camera trails it at
    a heading-relative offset.
  - It points the orbit controls at `(car.x, 2, car.z)`.

  The tick asks for another frame only while progress is below 1, and then runs
  the callback if one was given. The class `Rig` holds the car, the camera and
  the controls' target, which each tick overwrites. `TickPose` says on values
  what one tick writes, and `Run` is the chain of ticks that
  `requestAnimationFrame` drives over a sequence of clock readings. The proofs
  cover four things: the chain stops on the target with the callback run
  exactly once, the car never moves backwards, the zone framing holds, and
  nothing runs early.
- **Easing** (`Easing`). The easing expression is shared by both animations. It
  is 0, 1/2 and 1 at 0, 1/2 and 1. On [0, 1] it stays in [0, 1] and never
  decreases, and it is point-symmetric about (1/2, 1/2).
- **Day/night switch** (`Lighting`). `switchToNight` and `switchToDay` copy
  the constants of `nightSettings` / `daySettings` to the sun elevation, the
  fog and the two lights. They set each existing headlight to 300 or to 0. They
  also walk the four emissive material groups (logo, about-me, skills,
  portfolio). A group exists only once the scene code has registered it. The
  two directions are deliberately asymmetric:
  - Night changes only materials that have an emissive map. It sets them to
    2, 3, 2 or 2, depending on the group.
  - Day sets every material to 0.

  The class `SceneLighting` holds the material groups as arrays, which the
  walks update in place. `NightState` / `DayState` say on values what each
  switch produces. The proofs show that night followed by day equals day alone,
  and that both switches are idempotent.
- **Hover scale** (`HoverScale`). `animateObjectScale` picks a target scale,
  rotation and position from the object's kind and the hover flag, and eases
  towards them over 400 ms. A per-type `isAnimating` flag drops requests while
  an animation of that type runs. The phone box is rescaled at once and ignores
  the flags. A ghost map in `HoverAnimator` records the one animation in flight
  for each type, and the class invariant ties it to the flags. The lemma
  `PortfolioHoverCycle` shows how the code behaves when a portfolio billboard
  is hovered and then left:
  - its scale and angle come back to rest;
  - its position does not. Leaving aims at the position the hover reached, so
    the billboard ends up 2 units further along -x.

  In the scene, the hover handler calls `animateObjectScale` only for the logo
  billboard, the about-me billboard and the phone box. This path is therefore
  never taken.

`Math.atan2`, `Math.sin` and `Math.cos` are computed by the JavaScript engine.
They enter the model as function parameters (the `Trig` record, and `sin`) that
the model assumes nothing about. `Date.now()` readings are parameters too. The
start time and each tick's clock reading are separate inputs, because the source
reads the clock once at the call and again inside each frame.

Three facts of the code shape the model:
- Progress is `Math.min(elapsed / duration, 1)` with no lower clamp, so a
  negative elapsed time gives a negative progress.
- The headlights are switched only when they exist (`if(carHeadlight1)`), and a
  material group is walked only when it has been registered (`if(window.…)`).
- `animateCarToPosition` copies the camera position into `startCam`, but
  nothing reads it. The model therefore has no camera interpolation.

## Model

| member | source | states |
|---|---|---|
| `Easing.Progress` | main.js:615-621 | progress never exceeds 1; it is exactly 1 iff the elapsed time has reached the duration; below 1 it is elapsed/duration; it is non-negative for non-negative elapsed time |
| `Easing.Ease` | main.js:624-626 | the ease-in-out gives 0 at 0, 1/2 at 1/2 (where it equals the first branch `4p^3`, so the branches meet) and exactly 1 at 1 |
| `Easing.Lerp` | main.js:629-630 | interpolation is at the start for fraction 0 and exactly at the target for fraction 1 |
| `Easing.EaseHalves` | main.js:624-626 | on [0, 1], the first branch stays in [0, 1/2) and the second in [1/2, 1] |
| `Easing.EaseInUnit` | main.js:624-626 | eased progress of a progress in [0, 1] is in [0, 1] |
| `Easing.EaseMonotone` | main.js:624-626 | the easing never decreases on [0, 1], across the branch switch too |
| `Easing.EaseSymmetric` | main.js:624-626 | `Ease(1 - p) == 1 - Ease(p)` for every p: easing out mirrors easing in |
| `Easing.EasedLerpBetween` | main.js:624-630 | a car coordinate computed from a progress in [0, 1] never leaves the segment between start and target |
| `Easing.ProgressMonotone` | main.js:619-621 | a later clock reading never gives a smaller progress |
| `Easing.LerpMonotone` | main.js:629-630 | a larger interpolation fraction never moves away from the target |
| `CarNavigation.NextStep` | main.js:667-671 | a tick reschedules iff progress < 1; the callback runs iff progress has reached 1 and a callback was given; otherwise the chain just ends |
| `CarNavigation.TickPose` | main.js:629-665 | one tick keeps the car's height; puts the car on the start at progress 0 and exactly on the target at progress 1; sets the controls' target to (car.x, 2, car.z) and the camera height to 12; in the skills area (targetZ >= 150) sets yaw 0 and camera (car.x, 12, car.z - 15); elsewhere sets yaw to the trip's atan2 heading and the camera to the car plus 15·(sin, cos)(yaw + π) |
| `CarNavigation.Rig.AnimateCarToPosition` | main.js:605-675 | the session captures the car's x/z at call time, the target, the start time and whether a callback exists; the first tick runs at once and leaves the pose `TickPose` gives |
| `CarNavigation.Rig.UpdatePosition` | main.js:618-672 | the new car/camera/target state is `TickPose` of the old one at the tick's progress, and the outcome is `NextStep` of that progress |
| `CarNavigation.Run` | main.js:667-674 | the chain of ticks stops iff some frame's progress reaches 1; `RunArrives`, `RunNotYetArrived` and `RunCallsBackAtMostOnce` state where it stops and how often the callback runs |
| `CarNavigation.RunArrives` | main.js:618-674 | once some frame is 2000 ms or more after the start, the chain of ticks stops with the car exactly at (targetX, old height, targetZ), yaw as the zone demands, and the callback run exactly once if given, never if not |
| `CarNavigation.RunNotYetArrived` | main.js:667-671 | while every frame is less than 2000 ms after the start, the chain keeps rescheduling, the callback never runs and the car's height is untouched |
| `CarNavigation.RunCallsBackAtMostOnce` | main.js:667-671 | over any sequence of frames the callback runs at most once, and only when one was given and the chain has stopped |
| `CarNavigation.CarAdvances` | main.js:619-630 | between two ticks at later and later clock readings, each car coordinate moves monotonically from the start towards the target and stays between them |
| `CarNavigation.SkillsTripHalfway` | main.js:636-665 | a trip from (0, 0) to the Skills stop (0, 170), 1000 ms in, has the car at z = 85 facing straight ahead, the camera at (0, 12, 70) and the controls' target at (0, 2, 85) |
| `Lighting.Glow` | main.js:2305-2311 | the night walk keeps the group's length and every material's map flag; mapped materials get the group level, others keep their intensity |
| `Lighting.Dim` | main.js:2346-2350 | the day walk keeps the group's length and map flags and sets every material's intensity to 0, mapped or not |
| `Lighting.NightState` | main.js:2294-2333 | the night switch on values: no headlight or group appears or disappears and no group changes length; `NightLights` states its constants and per-group glow, `NightIdempotent` that it is idempotent |
| `Lighting.DayState` | main.js:2335-2366 | the day switch on values: no headlight or group appears or disappears and no group changes length; `DayIsDark` states its constants and zero intensities, `DayAfterNight` and `DayIdempotent` how it composes |
| `Lighting.DimAfterGlow` | main.js:2305-2350 | dimming a group after the night walk gives the same group as dimming it directly |
| `Lighting.DimIdempotent` | main.js:2346-2365 | dimming a group twice equals dimming it once |
| `Lighting.GlowIdempotent` | main.js:2305-2332 | the night walk at a fixed level applied twice equals applying it once |
| `Lighting.DayAfterNight` | main.js:2294-2366 | `switchToNight` then `switchToDay` leaves exactly the state `switchToDay` alone leaves: every light, fog value, headlight and material intensity |
| `Lighting.DayIdempotent` | main.js:2335-2366 | `switchToDay` twice equals `switchToDay` once |
| `Lighting.NightIdempotent` | main.js:2294-2333 | `switchToNight` twice equals `switchToNight` once |
| `Lighting.NightLights` | main.js:2294-2333 | after the night switch: sun elevation -1, ambient 0.05, directional 0.1, fog 0x000015 from 100 to 600; each existing headlight at 300 and a missing one still missing; each present group's mapped materials at 2 (logo), 3 (about-me), 2 (skills), 2 (portfolio), unmapped ones unchanged, absent groups still absent |
| `Lighting.DayIsDark` | main.js:2335-2366 | after the day switch: sun elevation 10, ambient 0.4, directional 1.2, fog 0xcccccc from 200 to 1000; each existing headlight at 0; every material of every present group at 0 |
| `Lighting.SceneLighting.constructor` | main.js:380-563 | the scene starts with the day fog (line 380) and sun and lights from `daySettings` (lines 543-563), no headlights and no material groups |
| `Lighting.SceneLighting.AddHeadlights` | main.js:678-679 | the car's two headlights come into existence switched off; nothing else changes |
| `Lighting.SceneLighting.SetLogoMaterials` | main.js:834 | the logo group becomes exactly the given materials; nothing else changes |
| `Lighting.SceneLighting.SetAboutMeMaterials` | main.js:912 | the about-me group becomes exactly the given materials; nothing else changes |
| `Lighting.SceneLighting.AddSkillMaterials` | main.js:2260-2263 | the skills group is created empty if absent and the given materials are appended; nothing else changes |
| `Lighting.SceneLighting.AddPortfolioMaterials` | main.js:2119-2122 | the portfolio group is created empty if absent and the given materials are appended; nothing else changes |
| `Lighting.SceneLighting.ApplySettings` | main.js:2295-2302 | sun elevation, fog and light intensities come from the settings record; existing headlights get the given level; material groups are untouched |
| `Lighting.SceneLighting.SwitchToNight` | main.js:2294-2333 | the scene's new lighting state is `NightState` of the old one; each group field still holds the same array, updated in place, and no two groups share an array |
| `Lighting.SceneLighting.SwitchToDay` | main.js:2335-2366 | the scene's new lighting state is `DayState` of the old one; each group field still holds the same array, updated in place, and no two groups share an array |
| `Lighting.GlowGroup` | main.js:2306-2310 | the in-place walk over a group array leaves exactly `Glow` of the old contents |
| `Lighting.DimGroup` | main.js:2347-2349 | the in-place walk over a group array leaves exactly `Dim` of the old contents |
| `HoverScale.TargetScale` | main.js:1434-1435 | hovering enlarges (1.4 exactly for a portfolio billboard, 1.2 otherwise); leaving aims at scale 1; the target is never below 1 |
| `HoverScale.TargetRotation` | main.js:1446-1448 | only portfolio billboards turn: by -0.15 from their current angle when hovered, back to π/2 when left; other objects keep their angle |
| `HoverScale.TargetPosition` | main.js:1442-1444 | only a hovered portfolio billboard moves, 2 units along -x; y and z never change, and every other case aims at the current position |
| `HoverScale.StartSession` | main.js:1434-1450 | a started animation aims above scale 1 when hovering (1.4 exactly for a portfolio billboard) and back at 1 when leaving; leaving aims at the position the object has at that moment; only a portfolio billboard aims at a new angle (-0.15 when hovered, π/2 when left) or a new x (-2 when hovered); no target changes height or depth |
| `HoverScale.TickTransform` | main.js:1452-1486 | one frame keeps the scale uniform and reaches the target scale at 400 ms; it leaves a non-portfolio object's rotation and position alone; a portfolio billboard reaches its target angle and x/z at 400 ms, and when left has tilt 0 and its start height |
| `HoverScale.ScaleStaysBetween` | main.js:1458-1463 | from the start time on, the animated scale stays between the start scale and the target scale |
| `HoverScale.PortfolioHoverCycle` | main.js:1434-1471 | a completed hover then a completed leave brings a resting portfolio billboard back to scale 1 and angle π/2 with tilt 0, but 2 units further along -x |
| `HoverScale.HoverAnimator.KindOf` | main.js:1419-1420 | the type is `Logo` exactly for the logo billboard, `AboutMe` exactly for the about-me billboard (when it is not also the logo), and `Portfolio` for every other object |
| `HoverScale.HoverAnimator.constructor` | main.js:1246-1257 | the flags start with logo and about-me false and no portfolio key; nothing is animating |
| `HoverScale.HoverAnimator.AnimateObjectScale` | main.js:1415-1496 | when the type's flag is set and the object is not part of the phone box, nothing changes; for the phone box, its root is scaled to 5.5 (hover) or 5 and the flags are untouched; otherwise the flag is set, a session records the start and the targets, and the first frame is applied; the flag is cleared again at once only if that frame already reached progress 1 |
| `HoverScale.HoverAnimator.Animate` | main.js:1452-1492 | one frame leaves the object's transform as `TickTransform` says; it reschedules iff progress < 1; the type's flag is cleared exactly when progress reaches 1; the invariant "a flag is set iff one animation of that type is in flight" is kept |

## Left out

- `updateSunPosition` (main.js:2284-2292): the spherical-to-Cartesian sun vector, the sky shader uniform, environment-map generation and the directional light's position are library calls. The model records only the elevation each switch passes to it.
- The fog colour is recorded as the hex value passed to `setHex`, not as a colour object.
- `Date.now` and `requestAnimationFrame` are not modelled. Clock readings are parameters, and the chain of car ticks is `Run` over a given sequence of readings. The hover animation's chain is modelled one frame at a time (`Animate`), without a `Run`.
- `Math.atan2`, `Math.sin`, `Math.cos`: passed in as uninterpreted functions. In particular `atan2(0, 0) == 0` is the engine's behaviour and not something the model states.
- IEEE-754 rounding: all arithmetic is on exact reals.
- Overlapping car animations: a second `animateCarToPosition` call leaves the first call's scheduled ticks running, and they keep overwriting the pose until they finish. This race comes from the frame scheduler and is not modelled. Each session is reasoned about on its own.
- The camera override the Portfolio button schedules with `setTimeout` (main.js:524-530) is not modelled.
- What a completion callback does is not modelled. Only whether and how often it runs is.
- Materials are records held in arrays rather than shared objects. A material reachable from two groups would be aliased in the source, but the scene builds every group from its own materials, so none is. The `push(...)` into the skills and portfolio groups is modelled as a new, longer array.
- The render loop's floating billboards (main.js:2374-2395), raycasting and the mouse handlers that choose what `animateObjectScale` is called with, and all DOM, overlay and asset-loading code are outside this model.
