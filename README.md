# TankWorld core, modelled in Dafny

TankWorld is a top-down tank game written in C# on SDL. This project models its discrete
simulation and scene layer and proves properties of that model:

- **Tanks** (`tank_object.dfy`, module `Tanks`). A `TankObject` class holds:
  - integer hit points, with a death rule that differs by faction;
  - the cannon cooldown and salvo timers, which gate `Shoot`;
  - the speed update with its zero-crossing snap and its clamp to [-5, 10] m/s;
  - the linear bookkeeping from throttle and turn rates to acceleration and turn rate;
  - the despawn rule for tanks far from the camera;
  - the nested collision scan, including its `break` that leaves only the inner loop.
- **Hitbox bookkeeping** (`tank_physics_component.dfy`, module `TankPhysics`). The hitbox
  dictionary always holds exactly one entry, keyed `"Tank"`. The collision range is the larger
  side of the body sprite, and the position is copied from the tank.
- **Events** (`events.dfy`, module `Events`). Scene-state events, each observer's pending list,
  and the bus that appends a posted event to every registered list.
- **The play scene** (`play_scene.dfy`, module `PlayScenes`). A `PlayScene` class with:
  - the pause-menu and hitbox-overlay toggles;
  - the hit counters for the player;
  - input routing to the menu or to the game view;
  - which panel draws on which render layer;
  - its event poll (snapshot, clear, dispatch in order);
  - set-up of the map, the menu and the spawn timer on `Enter`.
  
  The panels it drives are seen through the calls it makes on them, kept in `panelLog`.
- **The engine context** (`game_context.dfy`, module `Engine`). A `GameContext` class with the
  `done` flag and the current scene. `ChangeScene` has a null guard and calls Exit, then Enter.
  The class also has its own event poll, the per-frame render pass, the singleton accessor,
  and the main loop with its fixed-step lag accumulator.
- **The menu panel** (`menu_panel.dfy`, module `Menus`). A cyclic cursor over a non-empty item
  list. Each move flips the status of the item it leaves and of the item it lands on.
- **The exit scene** (`exit_scene.dfy`, module `ExitScenes`). Entering it posts `EXIT_GAME`.
  Its other overrides do nothing.
- **Small value types** the classes use:
  - `Timer` (`timers.dfy`);
  - input events and render layers (`engine_types.dfy`);
  - coordinates and hitboxes (`geometry.dfy`);
  - `Option` (`wrappers.dfy`).

How the model is built:

- Doubles are modelled as `real`.
- The main loop is driven by a sequence of frames, each carrying its elapsed milliseconds and
  whether input asked to quit.
- The fixed update period `MS_PER_UPDATE` is a parameter `msPerUpdate > 0`.
- The main loop also has a pure model over `Ctx` values (`done`, the current scene, the scene
  call trace and the pending events). `UpdateOnce` is one `Update`, `Updates` is several in a
  row, `FrameStep` is one loop pass, and `StateAfter` runs the first `n` frames. The loop's
  clock, the lag carried and the updates run, is modelled apart by `Tick` and `PaceAfter`.
  `GameContext.Update`, `CatchUp`, `RunFrame` and `Start` are each proved to leave the context
  in the state this model gives.
- The catch-up loop is modelled by how many times it subtracts `msPerUpdate` (`Ticks`) and
  what it leaves (`Leftover`). `TicksAreWholeSteps` proves that this count is
  `floor(lag / msPerUpdate)`. `ScaledIsProduct` proves that `Scaled(n, m)`, the sum of `n`
  copies of `m`, is `n * m`.

Some methods dereference a field that can be null. The model makes these fields' presence a
precondition:

- A play scene's event list, game view and pause menu are null until `Enter` creates them
  (PlayScene.cs:15, 24, 76, 83). Every `PlayScene` method other than `Enter` and `Exit`
  (HandleInput, OnEvent, Render, Update and PollEvents) therefore requires a prior
  `Enter`, stated as `Valid()`.
- For an `UNDEFINED` map type, `Enter` only logs a message and leaves the map null. `Render` and
  `Update` then dereference it, so they require a map.
- `GameContext.ChangeScene` calls `Exit` on the current scene, and the per-tick methods
  (PollEvents, Dispatch, PollOne, Update, CatchUp and RunFrame) call into it. So they
  all require a current scene; `Start` sets one before its loop.

The event payloads of `TANK_HIT` and `SPAWN_GROUP` can also be null, and the model does not
turn these into preconditions; "## Left out" lists them.

The source also contains these two oddities, which the model reproduces as written:

- `InitializeTimers` pauses the cooldown timer twice and never pauses the HP-bar timer.
- The `break` in `CheckForCollision` leaves only the inner loop.

## Model

| member | source | states |
|---|---|---|
| Tanks.InitializeTimers | TankWorld/TankWorld/Game/Items/TankObject.cs:142-168 | the salvo timer is DESCENDING, paused, spans the salvo's remaining shots, and has execute time 0; the cooldown timer is PAUSE_AT_ZERO, paused, at time 0, with default time 1000 and execute time 2000; the HP-bar timer is PAUSE_AT_ZERO, starts at 0 with default 2000, and is left unpaused (the second Pause goes to the cooldown timer) |
| Tanks.TankObject.constructor | TankWorld/TankWorld/Game/Items/TankObject.cs:102-140 | a new tank has currentHP == maxHP == 100; faction PLAYER exactly when the colour is PLAYER; zero speed, acceleration and turn; the timers as InitializeTimers leaves them; facing 3π/2; exactly one "Tank" hitbox, built at the spawn position |
| Tanks.TankObject.CheckLongivity | TankWorld/TankWorld/Game/Items/TankObject.cs:232-238 | posts exactly one DESPAWN_ENTITY with the tank as sender when the distance to the camera is strictly above 10000, and posts nothing otherwise |
| Tanks.AccelStep | TankWorld/TankWorld/Game/Items/TankObject.cs:286-289 | the speed gained from the drag-attenuated acceleration over one step is zero when no acceleration is commanded; the step is scaled by GetAccelModifier, which is the constant 1 (TankObject.cs:309) |
| Tanks.ClampedSpeed | TankWorld/TankWorld/Game/Items/TankObject.cs:290-297 | the clamped speed lies in [TOP_SPEED_REVERSE, TOP_SPEED] and equals the input when the input is already in range; the bounds are scaled by GetSpeedModifier, which is the constant 1 (TankObject.cs:302), and GetTopSpeed (TankObject.cs:198) returns TOP_SPEED |
| Tanks.UpdatedSpeed | TankWorld/TankWorld/Game/Items/TankObject.cs:258-300 | for any decay term, the new speed is within [-5, 10]; without acceleration it never changes sign (a crossing of zero is snapped to 0) |
| Tanks.DecayNeverSpeedsUp | TankWorld/TankWorld/Game/Items/TankObject.cs:258-300 | with no acceleration and a decay term that pulls toward rest, one update moves the speed toward 0 without crossing it |
| Tanks.TankObject.UpdateSpeed | TankWorld/TankWorld/Game/Items/TankObject.cs:258-300 | the speed becomes UpdatedSpeed of the old speed and keeps the class invariant (speed in range, acceleration and turn rate tied to the rates) |
| Tanks.TankObject.Accelerate | TankWorld/TankWorld/Game/Items/TankObject.cs:382-385 | acceleration == (forwardRate + reverseRate) * 25 |
| Tanks.TankObject.Turn | TankWorld/TankWorld/Game/Items/TankObject.cs:386-389 | turningAngle == (turnLeftRate + turnRightRate) * 180 * π / 180 |
| Tanks.TankObject.Forward | TankWorld/TankWorld/Game/Items/TankObject.cs:391-395 | stores the rate, keeps the reverse rate, and recomputes acceleration; Forward(r) together with Reverse(r) gives 0 |
| Tanks.TankObject.Reverse | TankWorld/TankWorld/Game/Items/TankObject.cs:396-400 | stores -rate, keeps the forward rate, and recomputes acceleration; it cancels a Forward with the same rate |
| Tanks.TankObject.TurnLeft | TankWorld/TankWorld/Game/Items/TankObject.cs:401-405 | stores -rate and keeps the right rate; the turn rate becomes 0 when it matches a TurnRight with the same rate |
| Tanks.TankObject.TurnRight | TankWorld/TankWorld/Game/Items/TankObject.cs:406-410 | stores the rate and keeps the left rate; the turn rate becomes 0 when it matches a TurnLeft with the same rate |
| Tanks.TankObject.Shoot | TankWorld/TankWorld/Game/Items/TankObject.cs:420-430 | changes nothing while the cooldown time is positive; otherwise it resets and unpauses the cooldown timer, and resets and unpauses the salvo timer with execute time set to its default time |
| Tanks.AfterDamage | TankWorld/TankWorld/Game/Items/TankObject.cs:459-477 | HP drops by exactly the damage; at or below 0, a PLAYER tank is restored to maxHP (so it stays positive) and an AI tank despawns without restoring; a despawn happens exactly for an AI tank at or below 0 |
| Tanks.TankObject.TakeDamage | TankWorld/TankWorld/Game/Items/TankObject.cs:459-477 | HP is set as AfterDamage says; the HP bar is shown; the HP-bar timer is reset and unpaused; exactly one DESPAWN_ENTITY for this tank is posted when AfterDamage despawns, and nothing otherwise |
| Tanks.FirstHit | TankWorld/TankWorld/Game/Items/TankObject.cs:442-450 | the inner scan finds nothing exactly when no box of the other object intersects; otherwise it returns the point of the first intersecting box |
| Tanks.TankObject.FirstContact | TankWorld/TankWorld/Game/Items/TankObject.cs:442-450 | the inner loop, which breaks at the first contact, returns FirstHit: the point at which it calls HandleCollision (that of the first other box that intersects), or none when it makes no call; the call itself is not recorded, since HandleCollision does nothing |
| Tanks.CollisionPoints | TankWorld/TankWorld/Game/Items/TankObject.cs:437-452 | at most one collision point per own box, because the break leaves only the inner loop |
| Tanks.NoContactNoCollision | TankWorld/TankWorld/Game/Items/TankObject.cs:437-452 | no HandleCollision call happens exactly when no own box intersects any box of the other object |
| Tanks.CollisionPointsAreContacts | TankWorld/TankWorld/Game/Items/TankObject.cs:437-452 | every point handed to HandleCollision is the intersection point of some own box with some other box |
| Tanks.TankObject.CheckForCollision | TankWorld/TankWorld/Game/Items/TankObject.cs:437-452 | the points at which HandleCollision is called, in order, are CollisionPoints of the two hitbox lists, read through GetHitBoxes (TankObject.cs:432-435), at most one per own box; the calls themselves are not recorded, since HandleCollision does nothing |
| TankPhysics.TankPhysicsComponent.constructor | TankWorld/TankWorld/Game/Components/TankPhysicsComponent.cs:18-21 | the component starts with exactly one entry, "Tank", holding the updated rectangle; position and box size come from the tank; the collision range is the larger side |
| TankPhysics.TankPhysicsComponent.InitializeHitBoxes | TankWorld/TankWorld/Game/Components/TankPhysicsComponent.cs:34-43 | adds exactly one "Tank" entry at the end and then updates it; when "Tank" is already present (Dictionary.Add throws), nothing changes |
| TankPhysics.TankPhysicsComponent.UpdateHitBox | TankWorld/TankWorld/Game/Components/TankPhysicsComponent.cs:45-63 | the position equals the tank's; width and height equal the body sprite's; the collision range is max(height, width); only the value under "Tank" is replaced, so the key list is unchanged |
| Geometry.KeysReplace | TankWorld/TankWorld/Game/Components/TankPhysicsComponent.cs:61 | replacing the value under an existing key leaves the dictionary's keys as they were |
| TankPhysics.TankPhysicsComponent.CheckForCloseness | TankWorld/TankWorld/Game/Components/TankPhysicsComponent.cs:29 | the closeness query is recorded as a step and changes no hitbox state |
| TankPhysics.TankPhysicsComponent.Update | TankWorld/TankWorld/Game/Components/TankPhysicsComponent.cs:27-32 | runs CheckForCloseness before UpdateHitBox and keeps exactly one "Tank" entry, now updated from the tank's pose |
| Events.CountTypePositive | TankWorld/TankWorld/Engine/GameContext.cs:160-173 | an event list counts a positive number of events of a type exactly when it contains one |
| Events.EventList.constructor | TankWorld/TankWorld/Engine/GameContext.cs:32 | a new pending-event list is empty |
| Events.EventList.Add | TankWorld/TankWorld/Engine/GameContext.cs:177-180 | the event is appended at the end |
| Events.EventList.Clear | TankWorld/TankWorld/Engine/GameContext.cs:157 | the list is empty afterwards |
| Events.Bus.Register | TankWorld/TankWorld/Engine/GameContext.cs:31 | the observer's list joins the subscribers |
| Events.Bus.PostEvent | TankWorld/TankWorld/Game/Panels/ExitScene.cs:23 | every subscribed list gets exactly the posted event appended, and nothing else changes |
| ExitScenes.ExitScene.Enter | TankWorld/TankWorld/Game/Panels/ExitScene.cs:21-24 | posts exactly one event, a SceneStateEvent of type EXIT_GAME; that is its only effect |
| Engine.ChangeSceneEffect | TankWorld/TankWorld/Engine/GameContext.cs:143-151 | null changes nothing; otherwise the old scene's Exit, then the new scene's Enter, then the switch; entering an ExitScene posts EXIT_GAME; `done` is untouched |
| Engine.ContextEvent | TankWorld/TankWorld/Engine/GameContext.cs:160-173 | EXIT_GAME sets `done`, and nothing clears it; event types other than CHANGE_SCENE and EXIT_GAME, and events that are not SceneStateEvents, leave the context unchanged; already posted events stay |
| Engine.ContextEventFrame | TankWorld/TankWorld/Engine/GameContext.cs:160-173 | dispatching one event appends its posts after those already made and changes the rest of the context independently of them |
| Engine.DoneIff | TankWorld/TankWorld/Engine/GameContext.cs:169-171 | after a poll, `done` holds exactly when it held before or the polled events contain an EXIT_GAME |
| Engine.DoneStaysSet | TankWorld/TankWorld/Engine/GameContext.cs:169-171 | once `done` is set, no poll clears it |
| Engine.IgnoredEventsLeaveContext | TankWorld/TankWorld/Engine/GameContext.cs:160-173 | a poll of events none of which is CHANGE_SCENE or EXIT_GAME leaves the context unchanged |
| Engine.ExitScenePostsExit | TankWorld/TankWorld/Engine/GameContext.cs:143-151 | a CHANGE_SCENE to an ExitScene during a poll posts EXIT_GAME |
| Engine.ExitSceneEndsGameNextPoll | TankWorld/TankWorld/Engine/GameContext.cs:153-175 | the EXIT_GAME posted while changing to an ExitScene does not end the game in the poll that posted it, but does in the next one |
| Engine.StepsDecrease | TankWorld/TankWorld/Engine/GameContext.cs:232-238 | paying one step off a lag that covers it leaves exactly one whole step less, never below zero |
| Engine.NoWholeStep | TankWorld/TankWorld/Engine/GameContext.cs:232 | a lag shorter than one step holds no whole step, so the loop does not run |
| Engine.TicksAreWholeSteps | TankWorld/TankWorld/Engine/GameContext.cs:232-238 | Ticks, the number of times the catch-up loop subtracts msPerUpdate before the lag drops below it, is floor(lag / msPerUpdate) |
| Engine.Leftover | TankWorld/TankWorld/Engine/GameContext.cs:232-238 | the lag left after the catch-up loop lies in [0, msPerUpdate), and a lag below one step is left untouched |
| Engine.ScaledIsProduct | TankWorld/TankWorld/Engine/GameContext.cs:237 | arithmetic support for the lag accounting: n copies of msPerUpdate, summed as the loop subtracts them, total n * msPerUpdate |
| Engine.TicksPayLag | TankWorld/TankWorld/Engine/GameContext.cs:231-238 | the steps paid plus the lag left equal the lag the loop was given: no time is lost or invented |
| Engine.LagAfter | TankWorld/TankWorld/Engine/GameContext.cs:215-243 | after every frame the carried lag is in [0, msPerUpdate) |
| Engine.LagConservation | TankWorld/TankWorld/Engine/GameContext.cs:215-243 | over any run, the updates times msPerUpdate plus the final lag equal the total elapsed time |
| Engine.AllLayersOnce | TankWorld/TankWorld/Engine/GameContext.cs:195-198 | a check on the model's own layer list ALL_LAYERS, which the render pass walks: it holds every RenderLayer value, each once |
| Engine.GameContext.constructor | TankWorld/TankWorld/Engine/GameContext.cs:29-35 | registers its own, empty, pending list on the bus; not done; no scene yet |
| Engine.GameContext.ChangeScene | TankWorld/TankWorld/Engine/GameContext.cs:143-151 | the scene, the scene-call trace and the events posted are exactly ChangeSceneEffect's |
| Engine.GameContext.OnEvent | TankWorld/TankWorld/Engine/GameContext.cs:177-180 | appends the event to the pending list |
| Engine.GameContext.Dispatch | TankWorld/TankWorld/Engine/GameContext.cs:162-172 | one polled event changes `done`, the scene and the trace as ContextEvent says, and posts what it posts |
| Engine.GameContext.PollOne | TankWorld/TankWorld/Engine/GameContext.cs:160-174 | one pass of the poll loop: the context moves by ContextEvent, and what it posts lands both in the context's cleared list and in every other subscriber's list |
| Engine.GameContext.PollEvents | TankWorld/TankWorld/Engine/GameContext.cs:153-175 | the pending events are snapshotted and cleared before dispatch, then handled in order as ContextEvents says (the fold of ContextEvent over the snapshot, in arrival order); events posted meanwhile are exactly what the list holds afterwards, for the next poll |
| Engine.GameContext.Update | TankWorld/TankWorld/Engine/GameContext.cs:182-186 | polls first, then calls Update on the scene current after the poll: `done`, the scene, the trace and the pending list become UpdateOnce of the old ones; the trace only grows, by exactly one scene Update and no Render; a set `done` stays set |
| Engine.UpdateOnceCounts | TankWorld/TankWorld/Engine/GameContext.cs:182-186 | one Update only extends the trace, by one scene Update and no Render, keeps a current scene set and a set `done` set |
| Engine.UpdatesCounts | TankWorld/TankWorld/Engine/GameContext.cs:232-238 | `n` Updates in a row extend the trace by `n` scene Updates and no Render, and keep a current scene and a set `done` |
| Engine.GameContext.RenderAll | TankWorld/TankWorld/Engine/GameContext.cs:188-202 | appends exactly RenderPass of the current scene: one Render per layer, in enumeration order; that is 7 Render calls and no Update |
| Engine.GameContext.CatchUp | TankWorld/TankWorld/Engine/GameContext.cs:232-238 | the context ends in Updates(old context, `updates`): exactly `updates` Updates one after the other; the scene trace gains exactly `updates` Update calls and no Render; updates == Ticks == floor(lag / msPerUpdate); the lag left is lag minus `updates` steps of msPerUpdate, in [0, msPerUpdate); a set `done` stays set |
| Engine.PollAddsNoUpdateOrRender | TankWorld/TankWorld/Engine/GameContext.cs:153-175 | a poll only appends to the scene trace, and only Exit and Enter calls from scene changes: no Update and no Render |
| Engine.GameContext.RunFrame | TankWorld/TankWorld/Engine/GameContext.cs:217-242 | one loop pass: the context ends in FrameStep of the old one (quit request, then Ticks(lag + elapsed) Updates, then one render pass), and the lag carried on is Leftover(lag + elapsed) |
| Engine.FrameStepFacts | TankWorld/TankWorld/Engine/GameContext.cs:217-242 | a FrameStep extends the trace by exactly Ticks(lag + elapsed) scene Updates and one render pass (7 Renders) of the scene it ends on; a quit request, or a `done` already set, leaves the game done; a current scene stays set |
| Engine.FrameStepTrace | TankWorld/TankWorld/Engine/GameContext.cs:215-243 | one more pass of the main loop adds the Updates its clock step (Tick) pays for and one render pass to the trace of the run so far |
| Engine.PaceProgress | TankWorld/TankWorld/Engine/GameContext.cs:215-243 | the loop's clock after `n` frames (PaceAfter: the lag carried and the updates run) is LagAfter and TotalTicks of those frames |
| Engine.NotDoneBeforeAll | TankWorld/TankWorld/Engine/GameContext.cs:215 | the loop head's test, passed at every earlier pass, means `done` was false in StateAfter of every earlier frame count |
| Engine.NoQuitBeforeLast | TankWorld/TankWorld/Engine/GameContext.cs:215-219 | a frame that asks to quit is the last the loop runs: while `done` was false at every loop head, no frame but the last run asked to quit |
| Engine.TraceOfStateAfter | TankWorld/TankWorld/Engine/GameContext.cs:215-243 | after `n` frames the trace has gained the updates those frames paid for (PaceAfter's count) and one render pass per frame, the last of the scene the loop is in |
| Engine.StartEnd | TankWorld/TankWorld/Engine/GameContext.cs:215-243 | when the loop stops, after `n` frames: the context is StateAfter `n` frames; `done` was false after every shorter run; the frames ran out unless `done`; a game already done runs no frame; no frame but the last asked to quit; the updates are TotalTicks and the trace is that of the run |
| Engine.GameContext.Start | TankWorld/TankWorld/Engine/GameContext.cs:207-243 | enters the main menu first (EnterCall(mainMenu) right after the old trace); after that the trace only grows, gaining TotalTicks(frames run) scene Updates and 7 Renders (one render pass) per frame run, and it ends with a full render pass of the current scene when a frame ran; the context ends in StateAfter(frames run) of the pure loop model, each frame a FrameStep with the lag the earlier ones left; the loop stops before the end of the frames only when `done`; `done` was false in StateAfter of every shorter run, that is at the head of every frame run, so no frame runs after a poll that handled EXIT_GAME; it runs no frame when `done` was already set, and no frame after one that asked to quit |
| Engine.GameContextSingleton.constructor | TankWorld/TankWorld/Engine/GameContext.cs:14 | no instance exists before the first access |
| Engine.GameContextSingleton.Instance | TankWorld/TankWorld/Engine/GameContext.cs:38-48 | the first access creates and keeps a fresh context registered on the bus; every later access returns that same object and registers nothing |
| Menus.NextIndex | TankWorld/TankWorld/Game/Panels/MenuPanel.cs:51 | (i + 1) % Count stays in range and wraps from the last item to the first |
| Menus.PrevIndex | TankWorld/TankWorld/Game/Panels/MenuPanel.cs:58 | (i - 1 + Count) % Count stays in range and wraps from the first item to the last |
| Menus.UpDownInverse | TankWorld/TankWorld/Game/Panels/MenuPanel.cs:48-60 | GoUp after GoDown, and GoDown after GoUp, give back the index |
| Menus.DownTimes | TankWorld/TankWorld/Game/Panels/MenuPanel.cs:48-53 | any number of GoDown calls keeps the index in range |
| Menus.DownTimesShifts | TankWorld/TankWorld/Game/Panels/MenuPanel.cs:48-53 | k GoDown calls move the index to (i + k) % Count |
| Menus.DownCycle | TankWorld/TankWorld/Game/Panels/MenuPanel.cs:48-53 | Count consecutive GoDown calls return to the starting item |
| Menus.MoveTo | TankWorld/TankWorld/Game/Panels/MenuPanel.cs:48-60 | a move flips the status exactly of the old and the new active items (twice on the same item when there is one item) and changes nothing else |
| Menus.MoveKeepsOnlyActiveOdd | TankWorld/TankWorld/Game/Panels/MenuPanel.cs:66-69 | a move keeps the active item as the only one whose status was flipped an odd number of times |
| Menus.MenuPanel.constructor | TankWorld/TankWorld/Game/Panels/MenuPanel.cs:12-17 | for a non-empty list, selects item 0 and flips its status once; from unflipped items, item 0 is then the only odd one |
| Menus.MenuPanel.UpdateCurrentItem | TankWorld/TankWorld/Game/Panels/MenuPanel.cs:66-69 | flips the status of the active item only |
| Menus.MenuPanel.GoDown | TankWorld/TankWorld/Game/Panels/MenuPanel.cs:48-53 | the index becomes NextIndex; the items change as MoveTo says; the only-active-odd invariant is kept |
| Menus.MenuPanel.GoUp | TankWorld/TankWorld/Game/Panels/MenuPanel.cs:55-60 | the index becomes PrevIndex; the items change as MoveTo says; the only-active-odd invariant is kept |
| Menus.MenuPanel.Act | TankWorld/TankWorld/Game/Panels/MenuPanel.cs:61-64 | runs Action on the active item only and leaves the index unchanged |
| Menus.MenuPanel.SetPosition | TankWorld/TankWorld/Game/Panels/MenuPanel.cs:40-46 | every item i receives SetPosition(x, y, i), and nothing else changes |
| Menus.MenuPanel.Update | TankWorld/TankWorld/Game/Panels/MenuPanel.cs:32-38 | every item is updated exactly once, and nothing else changes |
| PlayScenes.MapFor | TankWorld/TankWorld/Game/Panels/PlayScene.cs:55-66 | TILED gives a tiled map, UNLIMITED an unlimited one, and UNDEFINED none |
| PlayScenes.PlayScene.CreateMap | TankWorld/TankWorld/Game/Panels/PlayScene.cs:55-66 | the map is MapFor the map type, and is left as it was for UNDEFINED |
| PlayScenes.PauseMenuItems | TankWorld/TankWorld/Game/Panels/PlayScene.cs:71-75 | the four pause-menu items start unflipped and unplaced |
| PlayScenes.PlacedPauseMenu | TankWorld/TankWorld/Game/Panels/PlayScene.cs:70-77 | the built pause menu has four items, and item 0 is the only one flipped an odd number of times |
| PlayScenes.PlacedPauseMenuItems | TankWorld/TankWorld/Game/Panels/PlayScene.cs:70-77 | each item keeps its command, text and description; it has had no Action or Update; item k is placed at (WindowX / 3, 100) with index k |
| PlayScenes.CreatePauseMenu | TankWorld/TankWorld/Game/Panels/PlayScene.cs:70-77 | builds the menu panel with the cursor on item 0 and its items as PlacedPauseMenu |
| PlayScenes.PlayScene.constructor | TankWorld/TankWorld/Game/Panels/PlayScene.cs:37-40 | keeps the parameters; nothing else exists before Enter |
| PlayScenes.PlayScene.Enter | TankWorld/TankWorld/Game/Panels/PlayScene.cs:49-91 | both flags are false; the map is as CreateMap says; the menu is the placed pause menu; a fresh empty list is registered on the bus; the spawn timer is ASCENDING with Time == ExecuteTime == 5000 and DefaultTime == 0 |
| PlayScenes.PlayScene.Exit | TankWorld/TankWorld/Game/Panels/PlayScene.cs:93-96 | removes all sprites and does nothing else |
| PlayScenes.MenuAfterKey | TankWorld/TankWorld/Game/Panels/PlayScene.cs:107-130 | S and DOWN move the cursor down, W and UP move it up, SPACE and ENTER act on the active item, and any other key leaves the cursor where it is |
| PlayScenes.MenuKeyKeepsOnlyActiveOdd | TankWorld/TankWorld/Game/Panels/PlayScene.cs:107-130 | no menu key breaks the only-active-odd invariant |
| PlayScenes.PlayScene.HandleInput | TankWorld/TankWorld/Game/Panels/PlayScene.cs:98-152 | ESCAPE always toggles the menu; O toggles the hitboxes only while the menu is shown; while the menu is shown the key goes to the menu; while it is hidden (also right after ESCAPE hides it) the input goes to the game view and the menu is untouched |
| PlayScenes.PlayScene.OnEvent | TankWorld/TankWorld/Game/Panels/PlayScene.cs:154-157 | appends the event to the scene's pending list |
| PlayScenes.RenderCalls | TankWorld/TankWorld/Game/Panels/PlayScene.cs:159-180 | the map and the game view draw exactly on the world layers, HITBOXES only when the overlay is on; the menu draws exactly on MENU while shown; the UI draws exactly on USER_INTERFACE while the menu is hidden |
| PlayScenes.RenderGating | TankWorld/TankWorld/Game/Panels/PlayScene.cs:159-180 | HITBOXES is drawn exactly when the overlay is on, MENU exactly when the menu is shown, USER_INTERFACE exactly when it is hidden, and never both MENU and USER_INTERFACE |
| PlayScenes.PlayScene.Render | TankWorld/TankWorld/Game/Panels/PlayScene.cs:159-180 | makes exactly the draw calls RenderCalls lists |
| PlayScenes.ApplyEvent | TankWorld/TankWorld/Game/Panels/PlayScene.cs:209-252 | FLIP_MENU toggles the menu; TANK_HIT counts a hit taken when the target is the player, and otherwise a hit dealt when the sniper is; SPAWN_GROUP adds three new tanks; SPAWN_NEW_ENTITY adds the sender to the game view, DESPAWN_ENTITY removes it, TIME_UP tells the UI the time is up with the current hit counts; every other event leaves the call log alone; events that are not SceneStateEvents change nothing |
| PlayScenes.AtMostOneCounter | TankWorld/TankWorld/Game/Panels/PlayScene.cs:222-231 | one event moves at most one hit counter, and moves one exactly for a TANK_HIT involving the player |
| PlayScenes.ApplyEventsAppend | TankWorld/TankWorld/Game/Panels/PlayScene.cs:207-254 | events are handled in arrival order: polling a + b is polling a, then b |
| PlayScenes.PollFlagsAndCounters | TankWorld/TankWorld/Game/Panels/PlayScene.cs:207-231 | after a poll the menu flag has flipped once per FLIP_MENU, and the counters have grown by the hits on and by the player |
| PlayScenes.FlipTwiceCancels | TankWorld/TankWorld/Game/Panels/PlayScene.cs:213-215 | two FLIP_MENU events in one poll leave the menu flag unchanged |
| PlayScenes.SpawnStep | TankWorld/TankWorld/Game/Panels/PlayScene.cs:232-247 | one event asks for new tanks only when it is a SPAWN_GROUP, and then for exactly three green ones |
| PlayScenes.PollSpawns | TankWorld/TankWorld/Game/Panels/PlayScene.cs:232-247 | a poll adds exactly three new tanks per SPAWN_GROUP, all GREEN, and only appends to the call log |
| PlayScenes.PlayScene.Dispatch | TankWorld/TankWorld/Game/Panels/PlayScene.cs:209-252 | one polled event changes the flags, counters and call log as ApplyEvent says |
| PlayScenes.PlayScene.PollEvents | TankWorld/TankWorld/Game/Panels/PlayScene.cs:200-255 | the pending events are snapshotted and cleared, then handled in order as ApplyEvents says (the fold of ApplyEvent over the snapshot); the hitbox flag, map and spawn timer are untouched. Dispatch posts nothing on the bus, so the snapshot's isolation from later posts is trivial here |
| PlayScenes.PlayScene.Update | TankWorld/TankWorld/Game/Panels/PlayScene.cs:182-198 | polls first; then, with the menu shown, only the menu items are updated (no game view, camera, UI, map or spawn-timer update); with it hidden, the game view, camera, UI and map are updated in that order and the spawn timer is advanced; the hitbox flag and the map are untouched |

## Left out

- SDL set-up and teardown, window resolution and full-screen toggling, the performance-counter clock, and all drawing, sprites and console logging: these are foreign I/O. Elapsed time and the quit request come in as frame data, and draw calls are recorded as calls.
- Tanks.UpdatedSpeed: the `Math.Pow` decay curve is an arbitrary real input `speedDecay`, and double rounding is not modelled (reals are exact). The drag attenuation's `Math.Pow(v, 4)` is written as v·v·v·v.
- The tank's trigonometric kinematics are not modelled: `UpdateDirection`, `UpdateCoordinates`, `SpeedVektor`, the turret, cannon and barrel positions, the cannon's `atan2` aim, the cannon-target set-up in the constructor and `TurretTarget`. They are floating-point geometry, and no property here depends on them.
- The AI component, the tank model, the bullet prototype and its spawner, and the salvo, HP-bar and spawn commands are not modelled. They belong to classes that are not part of this model.
- Menus.MenuItem: the pause menu's commands (FlipMenuCommand, StartGameCommand, BackToMenuCommand and QuitGameCommand, PlayScene.cs:72-75) are kept only as the item's `command` tag. `Action` counts one more run on the item (the `actions` field, used by Menus.MenuPanel.Act and PlayScenes.MenuAfterKey). The commands' effects, such as posting FLIP_MENU, CHANGE_SCENE or EXIT_GAME, are not modelled; the command classes are not part of this model.
- PlayScenes.PlayScene.Enter: the source registers the scene itself on the bus (PlayScene.cs:82), so a second `Enter` registers the same observer again. The model registers a fresh pending list on each `Enter` and leaves the previous one subscribed. The two differ only when a scene is entered more than once.
- Timer: only the fields the shown code reads and writes, with Reset, Pause, UnPause and Update. Update counts calls and does not advance time.
- Helper.HitBoxIntersection and Helper.UpdateRectangleHitBox are function-valued inputs. Helper.Distance is an input `distanceToCamera`.
- The random spawn positions of SPAWN_GROUP are not modelled; only the number of tanks and their colour are kept.
- The TIME_UP handling is recorded as a call on the UI panel with both counters. The UI's reaction is not modelled.
- Tanks.TankObject.HandleCollision: its body is empty in the source and in the model. With no modifies clause it changes nothing; it carries no contract.
- Tanks.TankObject.CheckForCollision, Tanks.TankObject.FirstContact and Tanks.TankObject.HandleCollision take `other: TankObject`. The source takes any `ICollide` (TankObject.cs:437, 454). Only a tank's hitboxes are read from it, and TankObject is the only ICollide in this model.
- Timers.NewTimer: `new Timer(type)` is assumed to start unpaused, at time 0, with every other time 0; the Timer class is not part of this model. The unpaused HP-bar timer in the Tanks.InitializeTimers row, and the running spawn timer in the PlayScenes.PlayScene.Enter row, rest on that assumption.
- Engine.GameContext.Start: the per-frame input hand-off `ProcessInput.ReadInput(ref done, currentScene)` is reduced to the frame's `closeRequested` flag. The key and mouse events that it passes to the current scene's HandleInput are not modelled.
- PlayScenes.ApplyEvent: three differences from the source. (1) For TANK_HIT the source dereferences `Target` and, when the target is not the player, `Sniper`; for SPAWN_GROUP it dereferences `world.player`. A null there throws, but the model continues, and with target, sniper and player all null it counts a hit taken. (2) The source compares `.Id` values; the model compares references, which assumes that distinct objects have distinct ids. (3) The source reads `world.player` at each event; the model uses the scene's constant `player`.
- ExitScenes.ExitScene: Exit, HandleInput, Render, Update and the constructor are empty in the source. In the model they are methods without modifies clauses, so they change nothing; they carry no contract.
- PlayScenes.PlayScene.Render and PlayScenes.PlayScene.Update require a map on world-layer renders and unpaused updates. The source dereferences a null map there for an UNDEFINED map type.
- Engine.GameContext.ChangeScene requires a current scene, because the source calls Exit on it.
- GameContext's MainMenuScene and the other scenes are seen only as opaque objects in a trace of Enter, Exit, Update and Render calls. ExitScene is the only scene whose Enter is modelled.
- Each observer's OnEvent, as called by the bus, is modelled as the bus appending to the observer's registered pending list.
- TankWorld/TankWorld/src/ressources/Scene.cs is an abstract class with no behaviour.
- The model is sequential, as is the game loop. Integer overflow of the hit points and counters is not modelled.
