# chastEyes game rules in Dafny

This project models the game logic of the two Rubygame programs in the chastEyes
repository. The windowing, drawing and event-queue plumbing is left out.

- **Pong demo** (`pong_demo.rb`, module `PongDemo` in `pong_demo.dfy`): a game has two paddles and one ball on a 640 by 480 screen with a 10-pixel frame.
  - `Game#collision?` is a bounding-box test.
  - A paddle has two key flags and moves 5 pixels per tick between its limits.
  - The ball moves by its velocity and bounces off the walls. `Ball#collision` puts it back in front of a paddle it hit.
  - One `Game#update` tick runs these in a fixed order.
- **CatalEyes player** (`game.rb`, module `CatalEyes` in `game.dfy`): the player has four direction flags driven by the arrow keys. `Player#update` is a second-order semi-implicit Euler step:
  - the keys, or the decay when no key is held, change the rate `@vvx`/`@vvy`;
  - the rate changes the velocity;
  - the velocity changes the position.
- **Input** (`input.dfy`, module `Input`): key events as both games receive them, with the SDL 1.2 key codes the key constants stand for.

Each Ruby class whose methods update fields becomes a Dafny `class` with those fields.

- Each mutating method is proved equal to a function on a value snapshot of the object (`PaddleState`, `BallState`, `World`, `Motion`, or the flag map).
- The games' properties are then proved about those functions.

There are two places where the code does not do what its names and the usual conventions suggest (an axis-aligned bounding-box test that treats touching boxes as apart, and a `@vdecay` that brings the player to rest). The model follows the code in both:

- **Touching boxes collide.** Every separation test in `collision?` is a strict `<` or `>`, so boxes that share only an edge collide (`CollisionOnTouchingEdges`).
- **The CatalEyes decay does not stop the player.** It acts on the rate `@vvx`/`@vvy`, not on the velocity. It never clamps at zero. `sign(0)` is 1, so a player at rest with no key held starts to drift up and to the left (`RestDrifts`). `CoastingNeverStopsVelocity` shows that a rate back at zero leaves the velocity nonzero.
  - The `elsif` on line 102 has no condition, so Ruby takes line 103 as the condition. An assignment's value is a number, which Ruby treats as true, so line 104 always runs. The net effect is that both axes decay whenever no key is held, and that is what the model does.

## Model

| member | source | states |
|---|---|---|
| PongDemo.Collision | pong_demo.rb:66-72 | collision? itself, with its four strict separation tests in the source's order; what it means is stated by the four lemmas below, chiefly CollisionIffCommonPoint |
| PongDemo.CollisionSymmetric | pong_demo.rb:66-72 | collision? gives the same answer with its arguments swapped |
| PongDemo.CollisionOnTouchingEdges | pong_demo.rb:67-70 | boxes whose vertical edges coincide and whose y ranges overlap collide both ways (only a strict gap separates) |
| PongDemo.CollisionReflexive | pong_demo.rb:66-72 | a box of non-negative size collides with itself |
| PongDemo.CollisionIffCommonPoint | pong_demo.rb:66-72 | for boxes of non-negative size, collision? holds exactly when the two closed rectangles share a point |
| PongDemo.CenterTop | pong_demo.rb:110-112 | the top center_y picks leaves the object at most one pixel off centre, and exactly centred when both heights are even |
| PongDemo.PaddleState.HandleEvent | pong_demo.rb:114-129 | only the two flags change; KeyDown/KeyUp of the up key sets/clears moving_up and keeps moving_down (so the up key wins when both keys are equal); KeyDown/KeyUp of a distinct down key sets/clears moving_down and keeps moving_up; every other event changes nothing |
| PongDemo.PaddleState.Update | pong_demo.rb:131-138 | only y changes, by -5, 0 or +5; it goes up only when moving_up and y > top_limit, down only when moving_down and y + height < bottom_limit; one held key moves it exactly 5 when its limit allows |
| PongDemo.PaddleUpdateKeepsBand | pong_demo.rb:131-138 | update keeps y > top_limit - 5 and y + height < bottom_limit + 5 |
| PongDemo.PaddleUpdateKeepsGrid | pong_demo.rb:131-138 | with height 100 and limits 10 and 470, update keeps y a multiple of 5 with 10 <= y <= 370, so the paddle stays inside its limits |
| PongDemo.HandleEvents | pong_demo.rb:37-39 | the events of one tick applied to a paddle in queue order change only its two flags |
| PongDemo.Paddle.constructor | pong_demo.rb:97-108 | a new paddle is 20 by 100 at the given place, with the given keys and limits and both flags clear |
| PongDemo.Paddle.CenterY | pong_demo.rb:110-112 | center_y sets y to the centring top and changes nothing else |
| PongDemo.Paddle.HandleEvent | pong_demo.rb:114-129 | the method's new state is PaddleState.HandleEvent of the old one |
| PongDemo.Paddle.Update | pong_demo.rb:131-138 | the method's new state is PaddleState.Update of the old one |
| PongDemo.BallState.Update | pong_demo.rb:170-183 | the ball moves by exactly its old velocity and keeps its size; each velocity component is kept or negated, and it is negated exactly when the moved ball touches or passes that axis's walls (x <= 10 or x + width >= screen width - 10, and likewise for y) |
| PongDemo.BallState.Bounce | pong_demo.rb:185-202 | y, vy and the size never change; a left paddle (x < screen width / 2) puts a ball not more than 5 pixels behind it at paddle.x + paddle.width + 1 and negates vx, a right paddle puts a ball not more than 5 pixels past its front at paddle.x - width - 1 and negates vx, after which the ball no longer collides with the paddle; a ball further behind is left as it was |
| PongDemo.Ball.constructor | pong_demo.rb:163-168 | a new ball has the given place and size and velocity (5, 5) |
| PongDemo.Ball.Update | pong_demo.rb:170-183 | the method's new state is BallState.Update of the old one |
| PongDemo.Ball.Collision | pong_demo.rb:185-202 | the method's new state is BallState.Bounce of the old one against the paddle's box |
| PongDemo.BounceIfHit | pong_demo.rb:51-52 | the ball is bounced off a paddle only when collision? says they meet, otherwise it is left as it was; a bounce keeps y, vy and the size and only keeps or negates vx |
| PongDemo.Tick | pong_demo.rb:32-53 | one Game#update step on values: each paddle changes only its y (by at most 5) and its two flags; the ball moves vertically by exactly its old vy, keeps its size and keeps the speed along each axis |
| PongDemo.Run | pong_demo.rb:24-30 | any number of ticks, each with its events: each paddle changes only its y (by at most 5 per tick) and its flags, and the ball keeps its size and its speed along each axis |
| PongDemo.RunAppend | pong_demo.rb:24-30 | running two batches of ticks equals running the first batch and then the second |
| PongDemo.Initial | pong_demo.rb:5-22 | the world Game.new builds (paddles at x 50 and 570 on W/S and the arrow keys, centred at y 190, limits 10 and 470, ball in the middle with velocity (5, 5)) satisfies the game invariant |
| PongDemo.TickKeepsGoodWorld | pong_demo.rb:32-53 | one tick keeps both paddles in their column, with their keys, on the 5-pixel grid inside the frame, and keeps the ball's size and both of its speeds at 5 |
| PongDemo.RunKeepsGoodWorld | pong_demo.rb:32-53 | the game invariant holds after any number of ticks with any events |
| PongDemo.Game.constructor | pong_demo.rb:5-22 | Game.new builds three distinct fresh objects whose state is the initial world |
| PongDemo.Game.Update | pong_demo.rb:32-53 | one Game#update moves both paddles, moves the ball, feeds every queued event to both paddles in order, then bounces the ball off the player and then the enemy when collision? says they meet |
| CatalEyes.Sign | game.rb:55-58 | sign is 1 exactly for the numbers >= 0 (0 included) and -1 for the rest, so its product with its argument is never negative |
| CatalEyes.ArrowDirection | game.rb:118-141 | a key names a direction only if it is that direction's arrow key, and a key that names none is no arrow key |
| CatalEyes.Held | game.rb:98-101 | reading a flag of the @moving hash, where a missing key reads as nil and so as not held; its effect is stated by the contracts of IsMoving and ApplyKey and by the lemmas IntegrateDriven and IntegrateCoasting |
| CatalEyes.IsMoving | game.rb:114-116 | moving? holds exactly when some direction flag is set |
| CatalEyes.ApplyKey | game.rb:118-141 | KeyDown of an arrow key sets exactly that direction's flag, KeyUp clears exactly that flag, every other flag is kept, and other keys and events leave the hash unchanged |
| CatalEyes.Drive | game.rb:97-101 | the held keys of one axis add accel * dt for the positive key and subtract it for the negative one |
| CatalEyes.Decay | game.rb:102-104 | with no key held the rate moves vdecay * dt against its sign, 0 counted as positive, with no clamp |
| CatalEyes.Integrate | game.rb:96-112 | Player#update on values: driven rates while a key is held, decayed rates on both axes otherwise, then the Euler step; its meaning is stated by IntegrateZeroStep, IntegrateSemiImplicit, IntegrateDriven, IntegrateCoasting, RestDrifts and CoastingNeverStopsVelocity |
| CatalEyes.EulerStep | game.rb:107-111 | the integration half of update leaves the rates as they are, changes nothing over a zero step, and keeps the velocity when both rates are zero |
| CatalEyes.IntegrateZeroStep | game.rb:96-112 | an update with delta_time 0 changes none of x, y, vx, vy, vvx, vvy |
| CatalEyes.IntegrateSemiImplicit | game.rb:107-111 | each velocity takes the updated rate and each position the updated velocity |
| CatalEyes.IntegrateDriven | game.rb:97-101 | while a key is held each axis's rate changes by its own net acceleration times dt, opposite keys cancel, and an axis with no key keeps its rate |
| CatalEyes.IntegrateCoasting | game.rb:102-104 | with no key held both axes' rates decay, each against its own sign and without a clamp |
| CatalEyes.RestDrifts | game.rb:102-111 | from rest with no key held, both rates become -vdecay * dt and the player moves up and to the left |
| CatalEyes.CoastingNeverStopsVelocity | game.rb:102-111 | two coasting steps from rest bring the rates back to 0 but leave the velocity at -vdecay * dt * dt |
| CatalEyes.IntegrateAll | game.rb:96-112 | Player#update once per time step with the flags held fixed, i.e. a stretch of frames in which no event changes a flag; its meaning is stated by IntegrateAllAppend and IntegrateAllRates |
| CatalEyes.IntegrateAllAppend | game.rb:96-112 | updates over two runs of time steps equal the updates over the first run followed by those over the second |
| CatalEyes.DriveAllAccumulates | game.rb:97-101 | repeated driving of one axis adds its net acceleration times the total elapsed time, however the time is split into steps |
| CatalEyes.IntegrateAllRates | game.rb:96-112 | with the flags fixed and a key held, the rates after a run of updates are those of repeated driving, unaffected by velocity and position |
| CatalEyes.Player.constructor | game.rb:84-94 | a new player has the given place and image size, all velocities and rates 0.0, accel and vdecay 300.0, and all four flags false |
| CatalEyes.Player.HandleEvent | game.rb:118-141 | the new flag hash is ApplyKey of the old one |
| CatalEyes.Player.Update | game.rb:96-112 | the new kinematic state is Integrate of the old one with the player's flags, accel and vdecay |
| CatalEyes.Player.Advance | game.rb:107-111 | the integration half of update: velocities from the new rates, then positions from the new velocities |

## Left out

- Drawing is not modelled: the screen, surfaces, `fill`, `blit`, `flip`, and the background's frame and middle line. Sprite sizes (`ball.png`, `you.png`) are constructor parameters.
- The event queue, quitting, `exit` and Escape pushing a quit event are not modelled, because they are I/O and process lifecycle. A tick's events are a sequence the caller passes in. Events are `KeyDown(k)`, `KeyUp(k)` or `Other`.
- The clock, frame pacing and the conversion of milliseconds to seconds are not modelled. `delta_time` is a parameter of `Player.Update`.
- The endless `run!` loops and the top-level `g.run!` are not modelled. `PongDemo.Run` stands for a finite prefix of the Pong loop, each tick with its own events.
- CatalEyes.IntegrateAll: it keeps the flag map fixed and applies no events, so it stands only for a stretch of the CatalEyes loop in which no event changes a flag. The loop's `handle_events` before each update is modelled one event at a time by `Player.HandleEvent`, not as part of a run.
- The CatalEyes `Game` class is not modelled. It only forwards events and updates to a list holding one player.
- CatalEyes.Sign, CatalEyes.Player.Update: floats are modelled as mathematical reals. The models therefore do not capture IEEE rounding, infinities, or NaN (for which Ruby's `sign` would return nil).
- Key codes are fixed to their SDL 1.2 values. The games only rely on the keys being distinct.
- PongDemo.Game.Update: the ball is always bounced against the fixed 640-pixel screen width, because the screen size never changes.
