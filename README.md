# A touch-screen kiosk for young children: a verified model of its game logic

This project models the game logic of a touch-screen kiosk for a small
child. The kiosk is a pygame program: a screen router, a main menu with a
games menu behind it, two scrollable catalogues (shows and videos), and a
dozen toy screens. Those screens are bubble pop, whack-a-critter, a shape
sorter, finger paint, a magic garden, fireworks, a weather toy, a particle
playground and animal sounds. Every screen is a small state machine that
a frame loop drives with `handle_event`, `update` and `draw`.

The model keeps the program's own shape:

- **The router.** `Router.App` (app.py) holds the registry of screens, the
  current state and the history stack. Screens do not call the router;
  they return a `Router.Nav` command (`Stay`, `GoTo`, `GoBack`), and
  `App.Navigate` applies it.
- **One module per source file.** Each module holds a `class` per object
  whose fields the program updates in place. Its methods carry `modifies`
  clauses and state, branch by branch, the new value of every field they
  change, except where "## Left out" names a value as not modelled.
- **Records as values.** Per-entity records (bubbles, critters, shapes,
  rockets, sparks, flakes and so on) are datatypes held in `seq` fields.
  Frame updates over those lists are loops proved against specification
  functions, and the properties the program relies on are proved about
  those functions: lifetime filtering, wrap-around, spawning caps, distinct
  holes, a pending navigation firing once.
- **The particle pool.** The playground's fixed-capacity pool is an
  `array` of particle records with a `count`. `ParticlePool.Update` removes
  expired particles in place by swapping with the last live one, and is
  proved against the order-free specification `Advance`.
- **Shared pieces.** `Kit` holds the configuration constants, pygame's
  `Rect` (`collidepoint` is half-open) and the input events. `Ui` is the
  press tracker, colour helpers and word wrapping. `Menus` holds the
  delayed navigation both menus share. `Scrolling` is the two-column
  card grid and the gesture classifier that shows and videos share.
  `Placement` is the bounded retry placement that both bubble games use.
- **Randomness and trigonometry.** Every `random.*` draw becomes a
  parameter: a single value, or a function from the draw's index to a
  record of values, with a predicate stating the ranges the source draws
  from. `math.hypot` comparisons are made on squared distances. Where
  the actual distance is needed (a rocket closing in on its target), it
  is a parameter `d` with `d * d` equal to the squared distance. Values
  of `sin` and `cos` are parameters. Where a contract relies on their
  range (the main menu's wobble, a snowflake's sway bound), it states them
  to lie in [-1, 1]; elsewhere any value is accepted.

## Model

| member | source | states |
|---|---|---|
| Kit.Trunc | screens/particle_playground.py:146-148 | Python's `int()` on a float truncates toward zero: the result is the whole number next to the value on the side of zero |
| Kit.Filter | screens/bubble_pop.py:185 | a list comprehension with a condition keeps exactly the elements meeting it: each kept element as often as it occurs, none of the others, and in their original order (the result is a subsequence) |
| Router.AfterGoTo | app.py:16-19 | `go_to` keeps the old history as a prefix, appends the pre-transition state and switches to the new one |
| Router.AfterGoBack | app.py:24-27 | `go_back` on an empty history changes nothing; otherwise the state becomes the last history entry and the history loses exactly that entry |
| Router.GoToThenBack | app.py:16-30 | `go_to(x)` followed by `go_back()` restores both the state and the history |
| Router.StackDiscipline | app.py:16-30 | for any request sequence that never pops past its start, the history grows by the number of `go_to`s minus `go_back`s, the old history stays a prefix, and the old state is either current again or saved right above it |
| Router.BalancedReturns | app.py:16-30 | a balanced request sequence returns to the starting state and history |
| Router.App.EnterHook | app.py:20-22 | the `on_enter` hook is reached exactly when a screen is registered for the id and has the hook |
| Router.App.constructor | app.py:7-10 | a new router is on the main menu with no screens and no history |
| Router.App.Register | app.py:12-14 | exactly one registry entry is inserted or overwritten; state and history are unchanged |
| Router.App.GoTo | app.py:16-22 | the new position is `AfterGoTo` of the old one, the registry is unchanged and the entered screen is the destination's hook, if any |
| Router.App.GoBack | app.py:24-30 | the new position is `AfterGoBack` of the old one; no hook runs on an empty history, otherwise the hook of the restored state |
| Router.App.Navigate | app.py:16-30 | carrying out a screen's request moves the position exactly as that request says and leaves the registry alone |
| Router.App.Target | app.py:32-48 | event, update and draw reach a screen exactly when one is registered for the current state, and then that screen |
| Playground.Born | screens/particle_playground.py:69-85 | an emitted particle carries exactly the given position, velocity, colour and size, and its maximum life equals its life |
| Playground.Step | screens/particle_playground.py:100-129 | one particle's frame: it expires exactly when `life - dt <= 0`; a survivor ends inside the field (`0 <= x <= WIDTH-1`, `TOOLBAR_H <= y <= HEIGHT-1`) with life `life - dt` and its colour, maximum life and size unchanged |
| Playground.StepIntegration | screens/particle_playground.py:113-127 | `vy` gains `gravity*dt` before the position moves by velocity times `dt`; an axis left in range keeps the integrated position and velocity, a clamped axis has its velocity negated and scaled by 0.6 |
| Playground.AdvanceAppend | screens/particle_playground.py:99-130 | the frame of a pool is computed particle by particle: advancing two parts of the pool is advancing each part |
| Playground.AdvanceKeeps | screens/particle_playground.py:99-130 | after a frame the pool never grows, every particle left has life left and lies in the field, every particle with life left survives, and a pool whose particles all expire ends empty |
| Playground.Advance | screens/particle_playground.py:99-130 | the order-free specification of the swap-remove loop: a frame never grows the pool |
| Playground.RotateAdvance | screens/particle_playground.py:103-111 | which particles survive does not depend on their order, so moving the last particle to the front changes the result only by a permutation |
| Playground.ExpireStep | screens/particle_playground.py:102-111 | swapping the last particle into an expired one's slot leaves the multiset of survivors unchanged |
| Playground.SurvivorStep | screens/particle_playground.py:113-129 | moving a survivor past the scan point keeps the multiset of survivors |
| Playground.Move | screens/particle_playground.py:113-127 | the in-place integration and bounce of one survivor computes exactly `Step` |
| Playground.LifeFraction | screens/particle_playground.py:143 | the life fraction is 1 for a particle without a lifetime and never negative while life is left |
| Playground.Dim | screens/particle_playground.py:144-150 | a channel is unchanged at life fraction 0.3 or more; below that the truncated scaled value lies between 0 and the stored channel |
| Playground.Fade | screens/particle_playground.py:141-150 | the drawn colour is the stored colour when the life fraction is at least 0.3 or there is no lifetime; fading never brightens a channel or makes it negative |
| Playground.ParticlePool.Live | screens/particle_playground.py:46-51 | the live particles are exactly the first `count` slots |
| Playground.ParticlePool.constructor | screens/particle_playground.py:52-64 | a new pool has `count == 0` and `cap` slots, all at the default record |
| Playground.ParticlePool.Clear | screens/particle_playground.py:66-67 | `count` becomes 0 and the backing array is untouched |
| Playground.ParticlePool.Emit | screens/particle_playground.py:69-85 | emit succeeds exactly when `count < cap`, then appends the born particle; a full pool changes nothing; `count <= cap` is kept |
| Playground.ParticlePool.UpdateSlot | screens/particle_playground.py:100-129 | one iteration of the update loop either keeps slot `i` and advances, or swap-removes it and shrinks `n`, preserving "done slots plus the frame of the rest" as a multiset |
| Playground.ParticlePool.RemoveSlot | screens/particle_playground.py:102-111 | the swap-remove writes the last live record into slot `i`, leaves the slots before `i` alone and shrinks `n` by one |
| Playground.ParticlePool.KeepSlot | screens/particle_playground.py:113-129 | a survivor is integrated in place and the scan advances |
| Playground.ParticlePool.Update | screens/particle_playground.py:88-130 | `count` never grows and the live particles afterwards are, up to order, exactly the frame of the old ones: survivors integrated and bounced, expired ones gone |
| Playground.Emitted | screens/particle_playground.py:365-375 | the particles an emitter loop adds are the born particles of its draws, in draw order |
| Playground.PlaygroundScreen.constructor | screens/particle_playground.py:188-201 | a new screen has an empty pool of 2500, fountain mode, the rainbow palette, hue 0, no touch at the screen centre and a zero rain timer |
| Playground.PlaygroundScreen.OnEnter | screens/particle_playground.py:232-236 | entering clears the pool, hue, touch flag and rain timer and keeps mode, palette and the touch position |
| Playground.PlaygroundScreen.EmitUpTo | screens/particle_playground.py:365-375 | an emitter loop of `k` attempts stops at the first failed emit, so it adds `min(k, cap - count)` particles, in order |
| Playground.PlaygroundScreen.EmitFountain | screens/particle_playground.py:361-375 | the fountain adds `min(int(120*dt) + 1, free slots)` particles |
| Playground.PlaygroundScreen.EmitSwirl | screens/particle_playground.py:393-410 | the swirl adds `min(int(80*dt) + 1, free slots)` particles |
| Playground.PlaygroundScreen.EmitExplosion | screens/particle_playground.py:412-423 | an explosion attempts at most 150 emissions and adds `min(150, free slots)` particles |
| Playground.PlaygroundScreen.EmitRain | screens/particle_playground.py:377-391 | rain emits one particle per 1/200 s of accumulated timer; afterwards the timer is below one interval unless the pool filled up, when the loop stops having paid for the failed attempt |
| Ui.PressTracker.constructor | ui.py:204-206 | a new tracker has `count` zero timers and no pressed flags |
| Ui.PressTracker.Trigger | ui.py:208-210 | exactly entry `index` gets timer 0.15 and pressed flag true; every other entry is unchanged |
| Ui.PressTracker.Update | ui.py:212-218 | every timer becomes `TimerAfter` of its old value, so timers stay non-negative and an entry is pressed exactly while its timer is positive |
| Ui.TimerAfter | ui.py:213-217 | a running timer counts down without going below zero, and a frame at least as long as it stops it at exactly zero; an idle timer is left alone |
| Ui.PressTracker.IsPressed | ui.py:220-221 | an entry is pressed exactly when its timer is positive |
| Ui.PressTracker.GetScale | ui.py:223-232 | the scale is 1.0 with no press running and always lies in [0.94, 1.0] |
| Ui.TimerAfterBounds | ui.py:213-218 | a press timer only counts down: it stays between 0 and its old value, a zero timer stays zero and a frame at least as long as the timer ends it |
| Ui.Darken | ui.py:59-61 | over the first three channels, `c - amount` when that is not negative and 0 otherwise |
| Ui.Brighten | ui.py:64-66 | over the first three channels, `c + amount` when that is at most 255 and 255 otherwise |
| Ui.BrightenUndoesDarken | ui.py:59-66 | brightening undoes darkening by the same amount for every colour that darkening did not clip |
| Ui.SplitGivesWords | ui.py:30 | `text.split()` gives non-empty words, none holding a character for which `str.isspace()` is true (U+0009-U+000D, U+001C-U+0020, U+0085, U+00A0, U+1680, U+2000-U+200A, U+2028, U+2029, U+202F, U+205F, U+3000) |
| Ui.SplitJoin | ui.py:30-43 | splitting words joined by single spaces gives back the same words |
| Ui.Split | ui.py:30 | `text.split()` yields no more words than the text has characters, and none for blank text |
| Ui.WrapText | ui.py:28-43 | with no words the result is `[text]`; otherwise the lines' words, in order, are exactly `text.split()`, and every line fits `max_width` or is a single word |
| ShapeSorter.Reset | screens/shape_sorter.py:169-175 | a reset shape is back at its start position with `placed`, `dragging` and `snapping` cleared and `snap_anim == 0`; its kind, start and target are kept |
| ShapeSorter.ResetOk | screens/shape_sorter.py:169-175 | a reset shape satisfies the shape invariant, and resetting is idempotent |
| ShapeSorter.Scale | screens/shape_sorter.py:177-185 | the scale is 1.0 when not snapping and lies in [1.0, 1.3] while `snap_anim` is in [0, 0.3] |
| ShapeSorter.MoveToEnd | screens/shape_sorter.py:253-254 | `remove` then `append` puts the picked shape last and shifts the shapes after it down by one, keeping the ones before it |
| ShapeSorter.MoveToEndKinds | screens/shape_sorter.py:245-255 | picking up a shape keeps the list a permutation of the same shapes |
| ShapeSorter.LastGrab | screens/shape_sorter.py:245-249 | the grabbed shape is the last unplaced one within `size + 10` of the press (as a squared distance); none is grabbed only when no unplaced shape is hit |
| ShapeSorter.FindGrab | screens/shape_sorter.py:245-249 | the reversed scan finds exactly the shape `LastGrab` names |
| ShapeSorter.AnimTickOk | screens/shape_sorter.py:295-300 | the snap step keeps `snap_anim` in [0, 0.3], never moves a shape or changes anything but the snap clock, and ends snapping once 0.3 s have passed |
| ShapeSorter.ConfettiTick | screens/shape_sorter.py:310-317 | a piece moves by its velocity; one that ends more than 20 px below the screen takes the re-drop's x, y and fall speed instead, and so lies in `uniform(0, WIDTH)`, `uniform(-40, -10)` and `uniform(100, 300)` when the re-drop was drawn from them; with such a re-drop no piece ends more than 20 px below the screen |
| ShapeSorter.ConfettiFrame | screens/shape_sorter.py:310-317 | the confetti list keeps its length and every piece takes its own tick with its own re-drop draw |
| ShapeSorter.ConfettiFrameStays | screens/shape_sorter.py:313-317 | with re-drops drawn from the source's ranges no piece is more than 20 px below the screen after a celebration frame |
| ShapeSorter.BuildShapes | screens/shape_sorter.py:202-227 | a round has the five shapes in definition order, shape `i` at its start with target `(spacing*(i+1), HEIGHT-150)` |
| ShapeSorter.BuildShapesFresh | screens/shape_sorter.py:202-227 | a fresh round has no shape placed or dragged, so it is never already won |
| ShapeSorter.ShapeSorterScreen.constructor | screens/shape_sorter.py:191-200 | a new screen has no shapes, particles or confetti, nothing dragged, and is not celebrating |
| ShapeSorter.ShapeSorterScreen.Draw | screens/shape_sorter.py:402-403 | drawing records the back button and changes no game state: shapes, drag, particles, confetti and celebration stay |
| ShapeSorter.ShapeSorterScreen.Build | screens/shape_sorter.py:202-227 | rebuilding sets the shapes to a new round and empties particles, confetti, drag and celebration; the drag offset and back button stay |
| ShapeSorter.ShapeSorterScreen.OnEnter | screens/shape_sorter.py:229-230 | entering starts a new round with the celebration timer at 0; the back button and drag offset stay |
| ShapeSorter.ShapeSorterScreen.HandleEvent | screens/shape_sorter.py:232-291 | while celebrating, and for non-left buttons, other events and motions or releases with nothing held, nothing changes; only a left press on back navigates back; another left press picks up the last unplaced shape within reach (moved to the end, marked dragging, offset shape minus finger) or, when none is within reach, changes nothing; a drag moves only the held shape to finger plus offset; a release lets go and, within 55 px of the target, snaps the shape exactly onto it as placed and snapping with 12 sparks at the target, and completing the board starts the 2.5 s celebration with 80 confetti pieces; the shapes stay a permutation |
| ShapeSorter.ShapeSorterScreen.Press | screens/shape_sorter.py:245-255 | a press picks up the shape `LastGrab` names, moved to the end, dragged and with the offset recorded, and changes nothing when it names none; sparks, confetti and the celebration are untouched |
| ShapeSorter.ShapeSorterScreen.Drag | screens/shape_sorter.py:257-261 | a drag moves only the held (last) shape to finger plus offset and keeps the shapes a permutation |
| ShapeSorter.ShapeSorterScreen.PickUp | screens/shape_sorter.py:245-255 | pick-up moves the grabbed shape to the end, marks it dragged and records the grab offset `shape - finger` |
| ShapeSorter.ShapeSorterScreen.Release | screens/shape_sorter.py:263-291 | a release within 55 px of the target snaps the shape exactly onto it, marks it placed and snapping and adds 12 particles; otherwise the shape stays where released, with `placed` unchanged; the screen celebrates exactly when every shape is placed |
| ShapeSorter.ShapeSorterScreen.Update | screens/shape_sorter.py:293-319 | the snap clocks advance with a cap at 0.3 and only particles with life left remain; while celebrating the timer drops by exactly `dt` and the confetti becomes `ConfettiFrame` of itself, none more than 20 px below the screen; when the timer reaches 0 a new round is built with nothing held, no confetti and no celebration; outside a celebration the timer, confetti and the held shape are unchanged |
| ShapeSorter.ShapeSorterScreen.Animate | screens/shape_sorter.py:295-300 | every shape takes one `AnimTick`, the shape invariant holds, and nothing else changes |
| ShapeSorter.ShapeSorterScreen.Celebrate | screens/shape_sorter.py:308-319 | the timer drops by `dt` and the confetti becomes `ConfettiFrame` of itself, none more than 20 px below the screen; at 0 or below a new round is built with nothing held and no celebration |
| ShapeSorter.PointInShape | screens/shape_sorter.py:82-85 | a point within reach of a shape lies within `size + 10` of its centre on each axis |
| ShapeSorter.NearTarget | screens/shape_sorter.py:270-271 | a shape close enough to snap lies strictly within 55 px of its target on each axis |
| ShapeSorter.AnimTick | screens/shape_sorter.py:295-300 | the snap animation changes only the animation clock and flag: it never moves a shape, and never restarts an animation |
| ShapeSorter.SparkTick | screens/shape_sorter.py:103-107 | a snap particle keeps its sideways speed; over a frame it ages and gravity never slows its fall |
| WhackACritter.Hole | screens/whack_a_critter.py:258-262 | every hole centre lies on the 3 x 3 grid of x in {120, 360, 600} and y in {250, 410, 570} |
| WhackACritter.HolesRowMajor | screens/whack_a_critter.py:258-262 | hole `i` is column `i mod 3` of row `i div 3` |
| WhackACritter.NewCritter | screens/whack_a_critter.py:99-111 | a new critter is in hole `i`, rising, with progress 0 and zero timers |
| WhackACritter.CritterTickStep | screens/whack_a_critter.py:113-138 | one update only makes the transitions rising→visible (when the timer reaches the rise time), visible→sinking (after `visible_time`), sinking→gone (progress back to 0) and hit→gone (once `hit_timer > 0.4`), each exactly when its condition holds; progress stays in [0, 1] and the hole is kept |
| WhackACritter.HitTestOnlyRaised | screens/whack_a_critter.py:226-228 | the hit test is false for any state other than rising or visible |
| WhackACritter.FindHit | screens/whack_a_critter.py:300-302 | the hit critter is the last one in the list whose body is within `32 + 12` of the tap; none only when no critter is hit |
| WhackACritter.FreeHoles | screens/whack_a_critter.py:334 | the available holes are exactly the holes 0..8 not currently active |
| WhackACritter.ActiveHolesCount | screens/whack_a_critter.py:332-333 | with distinct holes and no gone critter, the number of active holes is the number of critters |
| WhackACritter.SpawnInto | screens/whack_a_critter.py:329-338 | with fewer than 3 active holes one new rising critter is appended in a hole not currently active; otherwise nothing is spawned; at most 3 critters in pairwise distinct holes is kept |
| WhackACritter.FreeHolesExist | screens/whack_a_critter.py:333-335 | with fewer than 9 active holes some hole is available, so the spawn never finds the list empty |
| WhackACritter.TickEach | screens/whack_a_critter.py:340-341 | every critter gets its own update, keeping its hole and the critter invariant |
| WhackACritter.TickAll | screens/whack_a_critter.py:340-342 | after the critter update and filtering there are at most 3 critters, none gone, in distinct holes |
| WhackACritter.TickAllMembers | screens/whack_a_critter.py:340-342 | the critters left are exactly the updated critters that are not gone |
| WhackACritter.StarsFrame | screens/whack_a_critter.py:344-346 | no star particle with life ≤ 0 remains, every one with life left survives as `StarTick` of itself, and every star kept is `StarTick` of one before the frame |
| WhackACritter.PopupsFrame | screens/whack_a_critter.py:348-350 | no popup with life ≤ 0 remains, every one with life left survives as `PopupTick` of itself, and every popup kept is `PopupTick` of one before the frame |
| WhackACritter.ConfettiFrame | screens/whack_a_critter.py:314-318 | during game over the confetti keeps exactly its live pieces plus at most one new one |
| WhackACritter.GameOverShower | screens/whack_a_critter.py:325-326 | game over appends exactly 40 fresh confetti pieces |
| WhackACritter.FilterUp | screens/whack_a_critter.py:342 | the filter keeps exactly the critters that are not gone, each as often as it occurs and in order (a subsequence), and so keeps holes distinct |
| WhackACritter.CritterTick | screens/whack_a_critter.py:113-137 | a frame takes at most one legal step of the life cycle (`Successor`) and never moves the critter out of its hole or changes its visible time |
| WhackACritter.HitTest | screens/whack_a_critter.py:226-234 | a tap that hits a critter lies strictly within 44 px of the hole's centre across |
| WhackACritter.StarTick | screens/whack_a_critter.py:26-30 | a star particle keeps its sideways speed; over a frame it ages and gravity never slows its fall |
| WhackACritter.PopupTick | screens/whack_a_critter.py:47-49 | a "+1" popup keeps its column and speed; over a frame it ages and, moving upward, never sinks |
| WhackACritter.WhackScreen.constructor | screens/whack_a_critter.py:244-256 | a new screen has score 0, 45 s left, no game over and empty lists |
| WhackACritter.WhackScreen.Draw | screens/whack_a_critter.py:352-438 | drawing records the back button and changes no game state: score, clock, spawn timer, elapsed time, critters, stars, popups and confetti all stay |
| WhackACritter.WhackScreen.OnEnter | screens/whack_a_critter.py:277-286 | entering resets score to 0, time to 45, game over to false, the timers to 0 and empties every list |
| WhackACritter.WhackScreen.HandleEvent | screens/whack_a_critter.py:288-308 | back navigates back and changes nothing else; during game over a tap on play-again restarts (score 0, 45 s on the clock, spawn timer and elapsed time 0, no critters, stars, popups or confetti) and any other tap changes nothing; during a round a tap that hits a critter whacks the last critter it hits (its state becomes hit, the score goes up by exactly 1, the stars grow by `StarBurst` and the popups by one "+1") with the elapsed time kept, and a tap that hits none changes nothing; non-press events change nothing |
| WhackACritter.WhackScreen.Whack | screens/whack_a_critter.py:302-307 | hitting critter `k` marks only it as hit with a zero hit timer, adds 1 to the score, appends exactly `StarBurst` of it to the stars and one "+1" popup 50 px above it |
| WhackACritter.StarBurst | screens/whack_a_critter.py:305-306 | a whack throws exactly 12 live stars, each starting 20 px above the critter's centre with the star lifetime |
| WhackACritter.WhackScreen.Update | screens/whack_a_critter.py:310-350 | during game over only the confetti changes, to exactly `ConfettiFrame` of it; when `time_left` drops to 0 or below it is clamped to 0, game over is set, 40 confetti pieces are added and stars, popups and the spawn timer are unchanged; otherwise the clock runs down by `dt`, the spawn timer is redrawn on expiry or runs down, the critters become `TickAll` of the (possibly spawned) list and the stars and popups become `StarsFrame` and `PopupsFrame` of themselves |
| WhackACritter.WhackScreen.CelebrationFrame | screens/whack_a_critter.py:313-319 | the game-over frame keeps the live confetti and adds one piece while fewer than 50 remain |
| WhackACritter.WhackScreen.PlayFrame | screens/whack_a_critter.py:321-350 | a playing frame counts the clock down, respawns on the spawn timer and updates critters, stars and popups |
| WhackACritter.WhackScreen.ParticleFrame | screens/whack_a_critter.py:344-350 | stars and popups with life ≤ 0 are gone after the frame |
| WhackACritter.WhackScreen.CritterFrame | screens/whack_a_critter.py:329-342 | the spawn timer is redrawn when it runs out, a critter is spawned if allowed, and the critter list becomes `TickAll` of it |
| Placement.Place | screens/bubble_pop.py:120-128 | the retry loop tries at most the 50 candidates in order and keeps the first one whose distance to every bubble is at least `r + r_i + gap`, or else the last candidate; whenever some candidate is clear, the kept one is clear |
| Placement.FirstCandidateWhenEmpty | ava_games.py:43-47 | with no bubbles on screen the first candidate is always kept |
| BubblePop.FindPop | screens/bubble_pop.py:155-159 | the loop returns exactly `FirstPop` from the start: the first bubble whose bobbed centre is within its radius of the tap, or none |
| BubblePop.FirstPop | screens/bubble_pop.py:155-173 | scanning from `from`, the bubble found is hit and no earlier one is; none is found only when no bubble from `from` on is hit |
| BubblePop.PopHit | screens/bubble_pop.py:156-159 | a tap that pops a bubble lies strictly within the bubble's radius of its centre across (the bob only moves it up and down) |
| BubblePop.Burst | screens/bubble_pop.py:161-167 | a pop makes exactly 15 particles, particle `j` from the `j`th draw, all starting at the bobbed centre in the bubble's colour shifted by at most the drawn jitter and capped at 255 |
| BubblePop.PopLabel | screens/bubble_pop.py:169 | the "POP!" label starts one radius above the bobbed centre, in the bubble's colour, with 0.8 s of life and rising at 120 px/s |
| BubblePop.ShardTick | screens/bubble_pop.py:24-28 | a pop particle keeps its sideways speed, colour and size; over a frame it ages and gravity never slows its fall |
| BubblePop.TextTick | screens/bubble_pop.py:46-48 | a "POP!" label keeps its column, colour and speed; over a frame it ages and, moving upward, never sinks |
| BubblePop.CloudTick | screens/bubble_pop.py:68-72 | a cloud keeps its speed, size and transparency, and either keeps its height or restarts at x = -120 on the new height |
| BubblePop.NewShard | screens/bubble_pop.py:161-167 | a pop particle's shade is the bubble colour plus the drawn offset, capped at 255 per channel, and it starts at the bubble's centre |
| BubblePop.CloudTickStays | screens/bubble_pop.py:68-72 | a cloud that passes `WIDTH + 120` is moved to x = -120 at the newly drawn height; any other cloud only drifts right and keeps its height; with the new height drawn from `randint(50, HEIGHT - 100)` every cloud stays within x -120 to 840 and heights 50 to 620 |
| BubblePop.ShardsFrame | screens/bubble_pop.py:183-185 | no particle with life ≤ 0 remains, every particle with life left survives as `ShardTick` of itself, and every particle kept is `ShardTick` of one before the frame |
| BubblePop.TextsFrame | screens/bubble_pop.py:187-190 | no floating text with life ≤ 0 remains, every one with life left survives as `TextTick` of itself, and every text kept is `TextTick` of one before the frame |
| BubblePop.CloudsFrame | screens/bubble_pop.py:179-180 | every cloud gets its own update and stays in range |
| BubblePop.BubblePopScreen.constructor | screens/bubble_pop.py:89-97 | a new screen has the given clouds and no bubbles, particles or texts |
| BubblePop.BubblePopScreen.Draw | screens/bubble_pop.py:192-238 | drawing records the back button and changes no game state |
| BubblePop.BubblePopScreen.SpawnBubble | screens/bubble_pop.py:118-147 | exactly one bubble is appended, with the drawn radius (in [30, 65]), colour and bobbing, at the centre `Chosen` names for the drawn candidates against the bubbles already there: the first clear of them by the 20 px gap, else the last; it lies inside the screen with a 10 px margin |
| BubblePop.BubblePopScreen.OnEnter | screens/bubble_pop.py:110-116 | entering yields exactly 12 bubbles, bubble `k` spawned from draw `k` against the `k` bubbles before it, with no particles or texts and time 0 |
| BubblePop.BubblePopScreen.HandleEvent | screens/bubble_pop.py:149-173 | back navigates back; a tap pops the bubble `FirstPop` names: it is removed, the particles grow by its `Burst` and the texts by its `PopLabel`, and a new bubble is appended, spawned against the remaining ones, so the count is unchanged; a tap that hits nothing changes nothing |
| BubblePop.BubblePopScreen.Pop | screens/bubble_pop.py:161-172 | popping bubble `i` removes exactly it, keeping the others in order, appends its `Burst` and its `PopLabel`, and appends one bubble spawned from the respawn draw against the remaining bubbles |
| BubblePop.BubblePopScreen.Update | screens/bubble_pop.py:175-190 | time advances, clouds drift and wrap, and particles and texts with life ≤ 0 are removed |
| AvaGames.FindHit | ava_games.py:80-82 | the loop returns exactly `FirstHit` from the start: the first bubble within its radius of the tap, or none |
| AvaGames.FirstHit | ava_games.py:80-85 | scanning from `from`, the bubble found is hit and no earlier one is; none is found only when no bubble from `from` on is hit |
| AvaGames.AvaGameBox.constructor | ava_games.py:23-25 | the box starts in SPLASH with no bubbles |
| AvaGames.AvaGameBox.SpawnBubble | ava_games.py:41-53 | one bubble is appended with the drawn radius (in [30, 60]) and colour, at the centre `Chosen` names for the drawn candidates against the bubbles already there with gap 0, inside the screen |
| AvaGames.AvaGameBox.HandleEvent | ava_games.py:70-85 | in SPLASH a tap on the play button switches to BUBBLES with exactly 10 bubbles, bubble `k` spawned from draw `k` against the `k` before it, and any other event changes nothing; BUBBLES is never left, and a tap there pops the bubble `FirstHit` names, keeps the others in order and appends one spawned against them; a miss changes nothing |
| MagicGarden.ToolAt | screens/magic_garden.py:13-16 | the four tool indices name flower, tree, butterfly and bee, one to one |
| MagicGarden.ToolRects | screens/magic_garden.py:502-511 | there are exactly four tool buttons, 130 px apart from x = 110, each 120×62 at y = 10 |
| MagicGarden.Channel | screens/magic_garden.py:396-398 | a sparkle channel is clamped into [0, 255] and an in-range value is kept |
| MagicGarden.NewSparkle | screens/magic_garden.py:315-324 | a new sparkle has every colour channel in [0, 255], starts at the planting point and has full life |
| MagicGarden.SparklesFrame | screens/magic_garden.py:450-452 | no sparkle with life ≤ 0 remains, every sparkle with life left after the tick survives as `SparkleTick` of itself, and every sparkle kept is `SparkleTick` of one before the frame |
| MagicGarden.AgeItems | screens/magic_garden.py:448-449 | every item ages by `dt`, nothing else about it changes and no item is added or removed |
| MagicGarden.PlantY | screens/magic_garden.py:428-440 | flowers are pushed down to at least 10 px into the grass and trees to at least 20 px; butterflies and bees keep the tapped height; planting never moves an item up |
| MagicGarden.FindTool | screens/magic_garden.py:418-421 | the picked tool button is the first containing the tap; none only when no button contains it |
| MagicGarden.MagicGardenScreen.constructor | screens/magic_garden.py:354-363 | a new garden is empty, has the flower tool selected, time 0 and no buttons laid out |
| MagicGarden.MagicGardenScreen.Draw | screens/magic_garden.py:499-555 | drawing lays out the back, tool and clear buttons and changes no garden state |
| MagicGarden.MagicGardenScreen.OnEnter | screens/magic_garden.py:385-391 | entering empties the garden, selects the flower and resets the time |
| MagicGarden.MagicGardenScreen.HandleEvent | screens/magic_garden.py:402-444 | a tap is tried against back, then clear, then the tool buttons, then planting below y = 90 while fewer than 30 items exist; clear empties items and sparkles and keeps the tool; a tool tap selects the first button hit; planting appends exactly the planted item and the 10 sparkles drawn at the (clamped) planting point from the tool's base colour, with channels in [0, 255], and keeps the tool; every other event changes nothing |
| MagicGarden.SparkleTick | screens/magic_garden.py:327-331 | a sparkle keeps its sideways speed, colour and size; over a frame it ages and gravity never slows its fall |
| MagicGarden.SparkleBase | screens/magic_garden.py:428-441 | flower and butterfly sparkles take the drawn petal or wing colour, tree sparkles (100, 200, 80) and bee sparkles (255, 220, 60); a valid drawn colour gives a valid base colour |
| MagicGarden.MagicGardenScreen.Plant | screens/magic_garden.py:393-400 | planting appends exactly one item at the adjusted height and exactly 10 sparkles at it, with every channel in [0, 255], leaving the earlier sparkles untouched |
| MagicGarden.MagicGardenScreen.Update | screens/magic_garden.py:446-452 | time advances by `dt`, every item ages and burnt-out sparkles are removed |
| FingerPaint.SwatchRects | screens/finger_paint.py:205-209 | the palette row has one swatch per colour, swatch `i` at `6 + i * (size + 6)`, vertically centred in the toolbar |
| FingerPaint.StampRects | screens/finger_paint.py:228-231 | the stamp row has one button per stamp, 62 px apart, each a 56-pixel square centred in the toolbar |
| FingerPaint.HeartAndPawUnreachable | screens/finger_paint.py:216-231 | with 60-pixel swatches the heart and paw buttons start at or beyond x = 720, so no on-screen tap is in either |
| FingerPaint.EveryStampReachable | screens/finger_paint.py:202-234 | with 40-pixel swatches every stamp button has an on-screen point that no swatch or brush button claims first, so every stamp can be selected |
| FingerPaint.ToolbarsDisagree | screens/finger_paint.py:202-224 | the tap (500, 675) is in swatch 7 of the 60-pixel toolbar but in no swatch of the 40-pixel one, where it reaches brush 2 |
| FingerPaint.FindBrush | screens/finger_paint.py:216-224 | the brush picked is the first whose centre is within 24 px of the tap (on squared distances); none only when no brush button is within reach |
| FingerPaint.FingerPaintScreen.constructor | screens/finger_paint.py:35-43 | a new screen has the given swatch size, an empty canvas, is not drawing, paints blue with the medium brush and no stamp |
| FingerPaint.FingerPaintScreen.OnEnter | screens/finger_paint.py:46-54 | entering clears the canvas and restores blue, the medium brush and no stamp |
| FingerPaint.FingerPaintScreen.ToolbarTap | screens/finger_paint.py:202-234 | with the screen's swatch size, a tap on a swatch picks the first swatch hit and leaves stamp mode; otherwise a tap on a brush picks the first brush hit (and its size) and leaves stamp mode; otherwise a stamp button toggles that stamp, keeping colour and brush; a tap on nothing changes nothing at all; the canvas is never touched |
| FingerPaint.FingerPaintScreen.HandleEvent | screens/finger_paint.py:57-105 | back navigates back and changes nothing; clear empties the canvas and keeps colour and brush; a toolbar tap picks the first swatch hit, else the first brush in reach, else toggles the selected stamp, with the screen's swatch size, and keeps the last point; a canvas tap adds a stamp in stamp mode or else a dot and starts drawing, keeping colour and brush; motion while drawing adds a dot and a line from the last point, or forgets the last point over the toolbar; release stops drawing; every other event changes nothing |
| Fireworks.HueMod | screens/fireworks.py:138 | a spark's hue is the drawn hue taken modulo 360, always in [0, 360), and unchanged when already in range |
| Fireworks.Launch | screens/fireworks.py:50-61 | a rocket starts at the bottom centre with a zero trail timer, aims at the tap with its target height clamped to at most `HEIGHT - 80`, and has speed and hue in range when the draws are |
| Fireworks.Fly | screens/fireworks.py:86-94 | a rocket in flight keeps its target, speed and hue, its trail timer resets after passing 0.015 s and otherwise accumulates, and its invariants are kept |
| Fireworks.FlyAlongLine | screens/fireworks.py:87-90 | one step moves the rocket along the line to its target by the fraction `speed * dt / dist` of the remaining offset |
| Fireworks.FlyTowardsTarget | screens/fireworks.py:78-90 | after one step the squared distance to the target is exactly `(dist - speed * dt)²`: the rocket closes in by `speed * dt` |
| Fireworks.TrailOf | screens/fireworks.py:92-102 | a trail particle is emitted exactly when the trail timer passes 0.015 s; it lies within ±3 px and ±2 px of the moved rocket with life in [0.2, 0.45] and maximum life 0.45 |
| Fireworks.NewSpark | screens/fireworks.py:137-176 | a spark starts within 2 px of the burst point with full life in [1.5, 2.5] and a hue in [0, 360) |
| Fireworks.BurstOf | screens/fireworks.py:132-178 | a burst holds exactly the drawn count of sparks, between 50 and 80, all well formed with life at most 2.5 |
| Fireworks.SpawnExplosion | screens/fireworks.py:132-178 | the loop builds exactly the burst `BurstOf` describes |
| Fireworks.Frame | screens/fireworks.py:75-104 | every rocket either explodes or is kept, never both, and at most one trail particle comes from each kept rocket |
| Fireworks.RocketsConserved | screens/fireworks.py:75-104 | a frame turns exactly the rockets within 10 px of their target into bursts and keeps exactly the others |
| Fireworks.FrameGroupsOk | screens/fireworks.py:81-85 | every burst a frame spawns has between 50 and 80 well-formed sparks |
| Fireworks.FrameTrailOk | screens/fireworks.py:92-102 | every trail particle a frame emits is well formed |
| Fireworks.FrameKeptOk | screens/fireworks.py:86-94 | every rocket a frame keeps is still well formed |
| Fireworks.StepRockets | screens/fireworks.py:75-104 | the per-rocket loop produces exactly the kept rockets, bursts and trail that `Frame` describes |
| Fireworks.TrailAfter | screens/fireworks.py:106-112 | after a tick no trail particle has life ≤ 0, every particle with life left survives aged by `dt`, and nothing that was not there before appears |
| Fireworks.AgeTrailParticles | screens/fireworks.py:106-112 | the loop keeps exactly the particles `TrailAfter` describes |
| Fireworks.SparksAfter | screens/fireworks.py:117-125 | after a tick no spark has life ≤ 0, every spark with life left survives as `AgeSpark` of itself (moved and pulled down by gravity), and every spark kept is `AgeSpark` of one in the burst |
| Fireworks.ExplosionsAfter | screens/fireworks.py:114-128 | after a tick no burst is empty and no spark has life ≤ 0 |
| Fireworks.ExplosionsKeepLive | screens/fireworks.py:126-127 | a burst with a spark still alive after the tick is kept, as `SparksAfter` of itself |
| Fireworks.ExplosionsFromBursts | screens/fireworks.py:114-128 | every burst left after the tick is `SparksAfter` of one of the bursts before it |
| Fireworks.ExplosionsBurnOut | screens/fireworks.py:114-128 | when every spark's life is at most `dt`, every burst disappears |
| Fireworks.SparksBurnOut | screens/fireworks.py:117-121 | when every spark's life is at most `dt`, the burst becomes empty |
| Fireworks.AgeSparks | screens/fireworks.py:117-125 | the inner loop keeps exactly the sparks `SparksAfter` describes |
| Fireworks.AgeExplosions | screens/fireworks.py:114-128 | the outer loop keeps exactly the bursts `ExplosionsAfter` describes |
| Fireworks.Twinkle | screens/fireworks.py:72-73 | a star's phase advances by `speed * dt`; its position, size and speed do not change, and it stays well formed |
| Fireworks.TwinkleStars | screens/fireworks.py:71-73 | every star twinkles once and no star is added or removed |
| Fireworks.InitStars | screens/fireworks.py:27-36 | entering creates exactly 50 stars, the ones drawn |
| Fireworks.FireworksScreen.constructor | screens/fireworks.py:11-17 | a new screen has no rockets, bursts, trail or stars |
| Fireworks.FireworksScreen.Draw | screens/fireworks.py:182-188 | drawing records the back button and changes no state of the show |
| Fireworks.FireworksScreen.OnEnter | screens/fireworks.py:21-25 | entering clears rockets, bursts and trail and lays out 50 fresh stars |
| Fireworks.FireworksScreen.HandleEvent | screens/fireworks.py:40-48 | a left tap on back navigates back, any other left tap launches exactly one rocket aimed at it, and every other event changes nothing |
| Fireworks.FireworksScreen.Update | screens/fireworks.py:65-69 | a frame twinkles every star exactly as `Twinkle` says, replaces the rockets by those `Frame` keeps, and ages the trail and the bursts including what this frame spawned |
| Fireworks.AgeTrail | screens/fireworks.py:109 | a trail particle only ages: everything but its life stays |
| Fireworks.AgeSpark | screens/fireworks.py:121-124 | a burst particle keeps its sideways speed, gravity and colour; over a frame it ages and a downward gravity never slows its fall |
| Fireworks.FireworksScreen.UpdateStars | screens/fireworks.py:71-73 | every star twinkles and nothing else changes |
| Fireworks.FireworksScreen.UpdateRockets | screens/fireworks.py:75-104 | rockets become those `Frame` keeps, and its trail particles and bursts are appended after the existing ones |
| Fireworks.FireworksScreen.UpdateTrailParticles | screens/fireworks.py:106-112 | the trail becomes `TrailAfter` of itself and nothing else changes |
| Fireworks.FireworksScreen.UpdateExplosions | screens/fireworks.py:114-128 | the bursts become `ExplosionsAfter` of themselves and nothing else changes |
| Menus.Countdown | screens/games_menu.py:67-74 | a pending navigation fires, and is dropped, exactly when its timer minus `dt` reaches 0, and then to its own target; otherwise it stays pending for the same target with a positive timer; with nothing pending nothing happens |
| Kit.SumNonnegative | screens/games_menu.py:64-74 | the time elapsed over frames with non-negative `dt` is non-negative |
| Menus.RunIdle | screens/games_menu.py:67 | with no pending navigation, no number of frames ever navigates |
| Menus.FiresAtMostOnce | screens/games_menu.py:67-74 | over any run of frames a pending navigation fires at most once, and only to the card tapped |
| Menus.FiresWhenDue | screens/main_menu.py:103-115 | over frames with non-negative `dt`, a pending navigation fires exactly when the elapsed time reaches its timer, and then once |
| Menus.FirstContaining | screens/games_menu.py:58-62 | the button picked is the first containing the tap; none only when no button contains it |
| GamesMenu.BuildCards | screens/games_menu.py:15-27 | the six cards form a 2×3 grid laid out row by row, each one strictly after the previous in reading order |
| GamesMenu.GamesMenuScreen.constructor | screens/games_menu.py:12-45 | a new menu has six idle press timers, no back button laid out, nothing pending and time 0 |
| GamesMenu.GamesMenuScreen.Draw | screens/games_menu.py:76-96 | drawing records the back button and changes no menu state |
| GamesMenu.GamesMenuScreen.OnEnter | screens/games_menu.py:47-50 | entering resets every press timer, drops any pending navigation and resets the time |
| GamesMenu.GamesMenuScreen.HandleEvent | screens/games_menu.py:52-62 | a tap on back navigates back; a tap on a card presses that card, the only one containing the tap, and schedules its game 0.12 s later; anything else changes nothing |
| GamesMenu.GamesMenuScreen.Update | screens/games_menu.py:64-74 | time advances, every press timer runs down by `dt`, and the pending navigation counts down and fires as `Countdown` says |
| MainMenu.ButtonsDisjoint | screens/main_menu.py:77-82 | no point is inside two of the three menu buttons |
| MainMenu.DriftX | screens/main_menu.py:38-42 | a drifting shape moves right by `speed * dt`, never backwards, and restarts at the left once past `WIDTH + 40` |
| MainMenu.ShapeStep | screens/main_menu.py:38-42 | x moves as `DriftX` says; once past `WIDTH + 40` every attribute is the fresh draw; otherwise y moves by `speed_y * dt + 0.3 * wave` and every other attribute is kept |
| MainMenu.FloatingShape.constructor | screens/main_menu.py:17-21 | a new shape takes the drawn look and speed and starts at the given on-screen point |
| MainMenu.FloatingShape.Reset | screens/main_menu.py:23-36 | a reset shape takes every drawn attribute and starts between x = -40 and x = -10 |
| MainMenu.FloatingShape.Update | screens/main_menu.py:38-42 | the shape's attribute values become exactly `ShapeStep` of the old ones, and the drawn ranges and the wrap line still hold |
| MainMenu.MainMenuScreen.constructor | screens/main_menu.py:77-87 | a new menu has twelve fresh shapes, shape `i` at its drawn start (x, y) on screen, three idle press timers, nothing pending and time 0 |
| MainMenu.MainMenuScreen.OnEnter | screens/main_menu.py:89-92 | entering resets the press timers, drops any pending navigation and resets the time, keeping the shapes |
| MainMenu.MainMenuScreen.HandleEvent | screens/main_menu.py:94-101 | a tap on one of the three buttons presses it and schedules its screen 0.12 s later; anything else changes nothing |
| MainMenu.MainMenuScreen.Update | screens/main_menu.py:103-115 | time advances, press timers run down, every shape's values become `ShapeStep` of the old ones with its own wave and draw, and the pending navigation counts down and fires as `Countdown` says |
| MainMenu.MainMenuScreen.DriftShapes | screens/main_menu.py:106-107 | every shape's values become `ShapeStep` of the old ones with its own wave and draw, and every shape stays valid |
| Scrolling.CardRect | screens/shows.py:79-84 | every card has the grid's card size |
| Scrolling.GridShape | screens/shows.py:79-84 | cards alternate between two columns; the card two places later is in the same column one row further down; scrolling moves every card up by the scroll offset |
| Scrolling.CardsDisjoint | screens/videos.py:55-60 | in a grid with non-negative gaps no point is inside two different cards |
| Scrolling.Clamp | screens/shows.py:76-77 | the scroll offset is clamped into `[0, max_scroll]`, and an offset already in range is kept |
| Scrolling.Motion | screens/shows.py:96-107 | scrolling engages once the vertical travel exceeds 10 px and the horizontal travel, and then stays engaged; without it the offset does not move; the offset stays in range |
| Scrolling.MotionFollowsFinger | screens/shows.py:104-107 | the content moves opposite to the finger, and inside the range by exactly the finger's vertical step |
| Scrolling.Classify | screens/shows.py:109-121 | a release is a swipe exactly when not scrolling, more than 80 px sideways and more than 1.5 times the vertical travel, leftward when `dx < 0`; a tap exactly when not scrolling and under 15 px both ways; nothing while scrolling |
| Scrolling.FindCard | screens/shows.py:120-123 | the card picked is the first containing the tap whose top is not above `HEADER_H - 10`; none only when there is no such card; in a spaced grid no other card contains the tap |
| Shows.ContentH | screens/shows.py:44-45 | the grid's height is its number of rows times the row pitch less one gap, at least one card high |
| Shows.MaxScroll | screens/shows.py:73-74 | the scroll limit is never negative and is the overflow of the grid past the visible area when there is one |
| Shows.ShowsScreen.constructor | screens/shows.py:29-52 | a new screen is scrolled to the top with no touch in progress and idle press timers |
| Shows.ShowsScreen.Draw | screens/shows.py:135-178 | drawing records the header's back button and changes no scroll or touch state |
| Shows.ShowsScreen.OnEnter | screens/shows.py:68-70 | entering scrolls to the top and resets the press timers |
| Shows.ShowsScreen.HandleEvent | screens/shows.py:86-130 | a press starts tracking or goes back, a motion scrolls as `Motion` says, a release ends the touch and opens the remote on a leftward swipe or launches the first tappable card on a tap; other events change nothing |
| Shows.ShowsScreen.Press | screens/shows.py:87-95 | a press records the touch point and clears scrolling; on the back button it navigates back and forgets the touch point |
| Shows.ShowsScreen.Motion | screens/shows.py:97-107 | with a touch down the offset and scrolling flag follow `Scrolling.Motion` and the y is recorded; otherwise nothing changes |
| Shows.ShowsScreen.Release | screens/shows.py:109-130 | a release always ends the touch; a leftward swipe opens the remote; a tap presses and launches the first tappable card, or nothing when none is tappable |
| Shows.ShowsScreen.Update | screens/shows.py:132-133 | every press timer runs down by `dt` |
| Videos.ContentH | screens/videos.py:35-36 | the grid's height is zero exactly when there are no videos, and otherwise its rows times the row pitch less one gap |
| Videos.MaxScroll | screens/videos.py:49-50 | the scroll limit is never negative, is the overflow past the visible area when there is one, and 0 when the grid fits |
| Videos.Slots | screens/videos.py:25 | there is at least one press timer and at least one per video |
| Videos.VideosScreen.constructor | screens/videos.py:22-41 | a new screen holds the given number of videos, is at the top, not playing, with no touch in progress |
| Videos.VideosScreen.Draw | screens/videos.py:137-192 | drawing records the header's back button and changes no state |
| Videos.VideosScreen.OnEnter | screens/videos.py:43-46 | entering scrolls to the top, resets the press timers and clears the playing flag |
| Videos.VideosScreen.PlaybackEnded | screens/videos.py:79 | when the player finishes, the playing flag is cleared and nothing else changes |
| Videos.VideosScreen.HandleEvent | screens/videos.py:81-132 | while a video plays every event is ignored; otherwise a press starts tracking or goes back, a motion scrolls, a release ends the touch and starts the first tappable video on a tap |
| Videos.VideosScreen.Press | screens/videos.py:85-93 | a press records the touch point and clears scrolling; on the back button it navigates back and forgets the touch point |
| Videos.VideosScreen.Motion | screens/videos.py:95-106 | with a touch down the offset and scrolling flag follow `Scrolling.Motion`; otherwise nothing changes |
| Videos.VideosScreen.Release | screens/videos.py:108-132 | a release always ends the touch; a tap presses the first tappable card and starts playing it, or does nothing when none is tappable |
| Videos.VideosScreen.Update | screens/videos.py:134-135 | every press timer runs down by `dt` |
| AnimalSounds.TilesDisjoint | screens/animal_sounds.py:41-50 | no point is inside two different animal tiles |
| AnimalSounds.BuildTiles | screens/animal_sounds.py:41-50 | the nine tiles are the 3×3 grid of 190-pixel squares from y = 100, in reading order |
| AnimalSounds.Lighten | screens/animal_sounds.py:76-80 | a burst channel is the animal's channel plus the drawn jitter, capped at 255, and never darker than the animal's own (capped) channel |
| AnimalSounds.NewParticle | screens/animal_sounds.py:11-20 | a burst particle starts at the tile centre with positive life and a radius between 5 and 12 |
| AnimalSounds.ParticleTick | screens/animal_sounds.py:22-26 | a particle's life drops by `dt` and its radius shrinks but never below 0 |
| AnimalSounds.ParticlesFrame | screens/animal_sounds.py:103-105 | the survivors are exactly the ticked particles with life left, each with positive life and a non-negative radius |
| AnimalSounds.BouncesAfter | screens/animal_sounds.py:93-100 | every bounce timer drops by `dt`, and exactly the ones reaching 0 or below are deleted |
| AnimalSounds.TickBounces | screens/animal_sounds.py:93-100 | the two loops over the timers produce exactly `BouncesAfter` |
| AnimalSounds.NameAfter | screens/animal_sounds.py:107-113 | the shown name stays, with its timer down by `dt`, exactly while the timer stays positive |
| AnimalSounds.AnimalSoundsScreen.constructor | screens/animal_sounds.py:34-50 | a new screen has the nine tiles, no particles, no bouncing tile and no name shown |
| AnimalSounds.AnimalSoundsScreen.Draw | screens/animal_sounds.py:116-118 | drawing records the header's back button and changes no state |
| AnimalSounds.AnimalSoundsScreen.OnEnter | screens/animal_sounds.py:53-56 | entering clears the particles, the bounce timers and the name |
| AnimalSounds.AnimalSoundsScreen.TapAnimal | screens/animal_sounds.py:69-82 | tapping animal `i` (re)starts its 0.3 s bounce, shows its name for 1 s and appends exactly `Burst` of its tile to the particles |
| AnimalSounds.Burst | screens/animal_sounds.py:74-81 | a tap bursts exactly 10 particles, particle `j` from draw `j`, all at the tile centre |
| AnimalSounds.AnimalSoundsScreen.HandleEvent | screens/animal_sounds.py:58-67 | a tap on back navigates back; a tap on a tile taps that animal, the only tile containing the tap: its bounce restarts, its name shows and `Burst` of its tile is appended to the particles; anything else changes nothing |
| AnimalSounds.AnimalSoundsScreen.Update | screens/animal_sounds.py:92-113 | bounce timers, particles and the shown name advance as `BouncesAfter`, `ParticlesFrame` and `NameAfter` say |
| WeatherToy.SpawnedFits | screens/weather_toy.py:175-245 | every particle a scene starts with, as drawn by the `_new_*` makers, already meets the invariant that scene's frames keep |
| WeatherToy.InitParticles | screens/weather_toy.py:175-227 | a scene starts with exactly its particle count (220 flakes, 400 drops, 80 fireflies, 150 petals, none for the aurora), the drawn ones, each fitting the scene; only the first count draws must lie in the scene's ranges, so the aurora needs none |
| WeatherToy.InitAuroraStars | screens/weather_toy.py:247-259 | the aurora starts with exactly 120 stars in the lower part of the sky |
| WeatherToy.Choice | screens/weather_toy.py:285-287 | a toolbar button switches the scene exactly when one was hit and it is not the current scene, and then to that button's scene |
| WeatherToy.TapAfter | screens/weather_toy.py:372-375 | a tap marker ages by `dt` and disappears exactly when its age passes 0.5 s; without a marker nothing changes |
| WeatherToy.TapClears | screens/weather_toy.py:372-375 | over frames with non-negative `dt`, a fresh tap marker has gone exactly when the elapsed time pushes its age past 0.5 s |
| WeatherToy.TapsStayClear | screens/weather_toy.py:372 | no number of frames brings back a tap marker that is gone |
| WeatherToy.FlakeStep | screens/weather_toy.py:389-404 | a flake falls by `vy * dt` and its blow velocity decays by 4 %; below `HEIGHT + 10` it respawns at the top with a fresh sideways speed; sideways it wraps from left of -20 to `WIDTH + 10` and from right of `WIDTH + 20` to -10; a respawned flake takes its drawn x; it stays a flake within the wrap band |
| WeatherToy.SwayedX | screens/weather_toy.py:391-392 | with the sine in [-1, 1], the sway changes a flake's or petal's sideways speed by at most its sway amplitude either way |
| WeatherToy.SwayBound | screens/weather_toy.py:391-392 | a sway of `sin * amp` with the sine in [-1, 1] moves a drift by at most `amp * dt` either way |
| WeatherToy.PetalStep | screens/weather_toy.py:446-467 | a petal sways, falls by `vy * dt`, turns by `rot_speed * dt` and its sideways speed decays by 3 %; while slower than 25 px/s gravity adds `120 * dt`; below `HEIGHT + 10` it respawns at the top with its drawn x and speeds; once blown above y = -80 it gets a drawn fall speed; it wraps from left of -30 to `WIDTH + 10` and from right of `WIDTH + 30` to -10, so it stays within [-30, `WIDTH + 30`] and below `HEIGHT + 10`; it always falls at 25 px/s or more, or has just gained `120 * dt`; its look never changes |
| WeatherToy.CherryFrame | screens/weather_toy.py:446-467 | every petal steps as `PetalStep` says, and none is added or removed |
| WeatherToy.DropStep | screens/weather_toy.py:407-412 | a drop falls by `vy * dt` and is blown 30 px/s to the left; below `HEIGHT + 10` it respawns at the top; its speed and look never change |
| WeatherToy.SnowFrame | screens/weather_toy.py:388-404 | every flake steps as `FlakeStep` says, and none is added or removed |
| WeatherToy.RainFrame | screens/weather_toy.py:406-412 | every drop steps as `DropStep` says, and none is added or removed |
| WeatherToy.SplashStep | screens/weather_toy.py:414-418 | a splash moves by its velocity, loses `dt` of life and is pulled down by gravity |
| WeatherToy.AgeSplashes | screens/weather_toy.py:414-418 | every splash steps once, and none is added or removed by the loop |
| WeatherToy.LiveSplashes | screens/weather_toy.py:419 | exactly the splashes with life left are kept |
| WeatherToy.AgeRipples | screens/weather_toy.py:471-472 | every ripple ages by `dt` and keeps its place |
| WeatherToy.LiveRipples | screens/weather_toy.py:473 | exactly the ripples younger than 3 s are kept |
| WeatherToy.SpawnSplashes | screens/weather_toy.py:322-336 | a rain tap makes exactly 20 splashes, splash `j` from the `j`th draw as `NewSplash` builds it |
| WeatherToy.NewSplash | screens/weather_toy.py:324-335 | a splash drawn from the source's ranges starts within 5 px across and 3 px up or down of the tap, moving upwards, with life in [0.3, 0.7] |
| WeatherToy.WeatherToyScreen.constructor | screens/weather_toy.py:130-153 | a new toy shows snow at time 0 with no particles, splashes, ripples, stars or tap marker |
| WeatherToy.WeatherToyScreen.Draw | screens/weather_toy.py:478-495 | drawing records the back button and changes no scene state |
| WeatherToy.WeatherToyScreen.SwitchScene | screens/weather_toy.py:264-271 | switching sets the scene, clears splashes and the tap marker and sets the particles to exactly the new scene's drawn ones (none for the aurora); switching to the aurora also clears the ripples and lays out exactly the 120 drawn stars; any other scene keeps ripples and stars |
| WeatherToy.WeatherToyScreen.OnEnter | screens/weather_toy.py:276-278 | entering resets the time and switches to snow: exactly the 220 drawn flakes, no splashes or tap marker, ripples, stars and back button kept |
| WeatherToy.WeatherToyScreen.HandleEvent | screens/weather_toy.py:280-305 | back navigates back and changes nothing; a toolbar gesture ending on another scene's button, or a press on one, switches as `SwitchScene` says; any other press places the tap marker, keeps particles and stars, appends exactly the drawn `NewSplash`es in the rain and one fresh ripple in the aurora, and leaves other scenes' lists alone; a gesture or press on the current scene's button, and every other event, changes nothing |
| WeatherToy.WeatherToyScreen.HandleTap | screens/weather_toy.py:307-363 | a rain tap appends exactly the 20 drawn `NewSplash`es after the existing ones, an aurora tap appends one fresh ripple at the tap, and no other scene's splashes or ripples change |
| WeatherToy.WeatherToyScreen.Update | screens/weather_toy.py:368-386 | time advances, the tap marker ages, and the current scene steps: flakes, drops and petals as `FlakeStep`, `DropStep` and `PetalStep`, rain splashes stepped and burnt-out ones dropped, aurora ripples aged and expired ones dropped |
| WeatherToy.WeatherToyScreen.UpdateCherry | screens/weather_toy.py:446-467 | every petal steps as `PetalStep` says and nothing else changes |
| WeatherToy.WeatherToyScreen.UpdateSnow | screens/weather_toy.py:388-404 | every flake steps as `FlakeStep` says and nothing else changes |
| WeatherToy.WeatherToyScreen.UpdateRain | screens/weather_toy.py:406-419 | every drop steps as `DropStep` says and the splashes become the stepped ones with life left |
| WeatherToy.PressAuroraButton | screens/weather_toy.py:280-305 | a press on the aurora button in a freshly entered toy switches to the aurora: no particles, ripples or splashes, and 120 stars |
| WeatherToy.WeatherToyScreen.UpdateAurora | screens/weather_toy.py:469-473 | the ripples become the aged ones younger than 3 s and nothing else changes |

## Left out

- Drawing is not modelled. Every `draw`/`_draw_*` method, gradient and background builder, icon and face art, font and image loading, and the `draw_*` helpers of ui.py are pixel output. A `Draw` method here only records the button rectangles that `draw` stores for later hit tests.
- roku.py, screens/remote.py, main.py and the `subprocess`/thread playback in screens/videos.py are not part of this model. They are network I/O, process control and the frame loop. A show launch is the index `ShowsScreen.HandleEvent` returns; playback is the `playing` flag and `VideosScreen.PlaybackEnded`.
- `ScrollToolbar` and `hsv_to_rgb` are not part of this model, because ui.py does not define them. The weather toy receives the toolbar's "handled" flag and button index as parameters; colours computed by `hsv_to_rgb` are left out of the particle records.
- Random draws, and the values of `sin`, `cos` and `sqrt`, are parameters, and their distributions are not stated. Only the ranges the source draws from are stated, as predicates.
- Floating-point rounding is not modelled: positions and times are exact `real`s.
- Playground.PlaygroundScreen: its `handle_event` and `update` (toolbar and mode dispatch, screens/particle_playground.py:238-306) and the swirl and wind forces (427-476) are left out. They are sine- and sqrt-driven motion over the pool; the pool, the emitters and `on_enter` are modelled.
- Playground.ParticlePool: the source keeps one array per field (struct of arrays). The model keeps one array of particle records, which has the same slots, the same swap-with-last removal and the same count, but not the memory layout.
- Fireworks.NewSpark: a spark's velocity pattern (starburst, ring, cascade, spiral from `cos`/`sin`) and its gravity are drawn values, so no property of the pattern is stated.
- Fireworks.TrailOf: the trail particle's colour is left out (`hsv_to_rgb`).
- WeatherToy.WeatherToyScreen.HandleTap: the snow blow-away, the firefly attraction and the blossom gust (screens/weather_toy.py:309-359) change particle velocities through `sqrt` and are left out; the contract states the particles unchanged instead.
- WeatherToy.WeatherToyScreen.Update: firefly motion (screens/weather_toy.py:421-444) clamps each firefly's speed through `sqrt` and is left out; the fireflies are left as they are.
- MagicGarden.AgeItems: butterflies and bees also move along sine curves around their planting point (screens/magic_garden.py:211-273); only the age is modelled.
- MagicGarden.SparklesFrame: the sparkles' positions and velocities are carried along but not stated; only life and colour are.
- MainMenu.FloatingShape.Update: the sine wave is the parameter `wave`, required to lie in [-1, 1].
- BubblePop.FindPop: a bubble's bob offset `sin(...) * bob_amount` is the parameter `bob`.
- AnimalSounds: the `ANIMALS` table is not in config.py, so animals are a catalogue parameter holding a name and a colour per tile; sound playback is commented out in the source.
- FingerPaint.FingerPaintScreen: the canvas surface is the list of marks painted since the last clear, not pixels.
- Videos.Slots: states only that there is at least one press timer and at least one per video, not that there are exactly `max(1, n)`.
- AvaGames.AvaGameBox.HandleEvent: a `pygame.QUIT` event quits pygame and exits the process (ava_games.py:66-68). Process exit is not modelled, so the event changes nothing here.
- Ui.WrapText: text width is an abstract function of the string, because fonts are not modelled.

## Findings

| source | as written | input that shows it | evidently intended | confidence | as-written member | corrected member |
|---|---|---|---|---|---|---|
| screens/finger_paint.py:216-236 | the 60-pixel swatches put the stamp row at `base_x = 700`, so the heart button starts at x = 762 and the paw button at x = 824, beyond the 720-pixel screen | any on-screen tap: none lies in the heart or paw button, so neither stamp can ever be selected | every stamp button is on screen and can be tapped (a toolbar that fits, e.g. 40-pixel swatches) | not executed | FingerPaint.HeartAndPawUnreachable | FingerPaint.EveryStampReachable |

`FingerPaint.FingerPaintScreen` takes its swatch size when it is built,
and every hit test of its toolbar uses that size.
`FingerPaintScreen(SwatchSizeAsWritten)` behaves as the source does,
including the unreachable heart and paw buttons.
`FingerPaintScreen(SwatchSizeCorrected)` has the corrected toolbar, on
which `EveryStampReachable` proves every stamp can be selected.
`ToolbarsDisagree` shows that the two geometries already differ for the
colour swatches.
