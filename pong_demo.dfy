/** The rules of the Pong demo: box overlap, the two paddles, the ball and one game tick.
    Every mutating class method is proved equal to a function on a value snapshot
    (PaddleState, BallState, World); the properties of the game are lemmas about those. */
module PongDemo {
  import opened Input

  const ScreenWidth: int := 640
  const ScreenHeight: int := 480
  /** Thickness of the frame the background draws; paddle limits and ball walls use it. */
  const Border: int := 10
  /** Distance of each paddle from its side of the screen. */
  const PaddleInset: int := 50
  const PaddleWidth: int := 20
  const PaddleHeight: int := 100
  /** Pixels a paddle moves per tick. */
  const PaddleStep: int := 5
  /** Initial value of both ball velocity components. */
  const BallSpeed: int := 5
  /** How far the ball may be past a paddle's front and still bounce off it. */
  const BehindSlack: int := 5

  /** What collision? reads of a game object: its top-left corner and its size. */
  datatype Box = Box(x: int, y: int, width: int, height: int)

  /** Game#collision?: false as soon as one of the four strict separations holds. */
  predicate Collision(a: Box, b: Box)
  {
    if a.y + a.height < b.y then false
    else if a.y > b.y + b.height then false
    else if a.x + a.width < b.x then false
    else if a.x > b.x + b.width then false
    else true
  }

  /** The point (px, py) lies in the closed rectangle of b, edges included. */
  predicate InBox(b: Box, px: int, py: int)
  {
    b.x <= px <= b.x + b.width && b.y <= py <= b.y + b.height
  }

  function Max(a: int, b: int): int { if a < b then b else a }

  lemma CollisionSymmetric(a: Box, b: Box)
    ensures Collision(a, b) == Collision(b, a)
  {
  }

  /** A box whose right edge is exactly another's left edge collides with it:
      only a strict gap separates. */
  lemma CollisionOnTouchingEdges(a: Box, b: Box)
    requires a.width >= 0 && b.width >= 0
    requires a.x + a.width == b.x
    requires a.y <= b.y + b.height && b.y <= a.y + a.height
    ensures Collision(a, b) && Collision(b, a)
  {
  }

  lemma CollisionReflexive(a: Box)
    requires a.width >= 0 && a.height >= 0
    ensures Collision(a, a)
  {
  }

  /** For boxes of non-negative size, collision? holds exactly when the two closed
      rectangles share a point. */
  lemma CollisionIffCommonPoint(a: Box, b: Box)
    requires a.width >= 0 && a.height >= 0 && b.width >= 0 && b.height >= 0
    ensures Collision(a, b) <==> exists px, py :: InBox(a, px, py) && InBox(b, px, py)
  {
    if Collision(a, b) {
      var px, py := Max(a.x, b.x), Max(a.y, b.y);
      assert InBox(a, px, py) && InBox(b, px, py);
    }
  }

  /** Paddle#center_y: the top that centres an object of the given height on a
      screen of height h, with Ruby's flooring integer division. */
  function CenterTop(h: int, height: int): (r: int)
    ensures -1 <= h - (2 * r + height) <= 1
    ensures h % 2 == 0 && height % 2 == 0 ==> 2 * r + height == h
  {
    h / 2 - height / 2
  }

  // ---------------------------------------------------------------- paddle

  datatype PaddleState = PaddleState(
    x: int, y: int, width: int, height: int,
    upKey: Key, downKey: Key,
    movingUp: bool, movingDown: bool,
    topLimit: int, bottomLimit: int)
  {
    function Bounds(): Box { Box(x, y, width, height) }

    /** Paddle#handle_event: a press of a bound key sets its flag, a release clears it,
        the up key is tested first, and nothing else changes. */
    function HandleEvent(ev: Event): (r: PaddleState)
      ensures r == this.(movingUp := r.movingUp, movingDown := r.movingDown)
      ensures ev == KeyDown(upKey) ==> r.movingUp && r.movingDown == movingDown
      ensures ev == KeyUp(upKey) ==> !r.movingUp && r.movingDown == movingDown
      ensures ev == KeyDown(downKey) && downKey != upKey ==> r.movingDown && r.movingUp == movingUp
      ensures ev == KeyUp(downKey) && downKey != upKey ==> !r.movingDown && r.movingUp == movingUp
      ensures ev !in {KeyDown(upKey), KeyUp(upKey), KeyDown(downKey), KeyUp(downKey)} ==> r == this
    {
      match ev
      case KeyDown(k) =>
        if k == upKey then this.(movingUp := true)
        else if k == downKey then this.(movingDown := true)
        else this
      case KeyUp(k) =>
        if k == upKey then this.(movingUp := false)
        else if k == downKey then this.(movingDown := false)
        else this
      case Other => this
    }

    /** Paddle#update: a step up while above the top limit, then a step down while the
        bottom edge is above the bottom limit. */
    function Update(): (r: PaddleState)
      ensures r == this.(y := r.y)
      ensures r.y == y - PaddleStep || r.y == y || r.y == y + PaddleStep
      ensures r.y < y ==> movingUp && y > topLimit
      ensures r.y > y ==> movingDown && y + height < bottomLimit
      ensures movingUp && !movingDown && y > topLimit ==> r.y == y - PaddleStep
      ensures movingDown && !movingUp && y + height < bottomLimit ==> r.y == y + PaddleStep
    {
      var afterUp := if movingUp && y > topLimit then y - PaddleStep else y;
      var afterDown := if movingDown && afterUp + height < bottomLimit then afterUp + PaddleStep else afterUp;
      this.(y := afterDown)
    }

    /** The band a paddle can never leave: at most one step past either limit. */
    predicate WithinBand()
    {
      y > topLimit - PaddleStep && y + height < bottomLimit + PaddleStep
    }
  }

  lemma PaddleUpdateKeepsBand(p: PaddleState)
    requires p.WithinBand()
    ensures p.Update().WithinBand()
  {
  }

  /** The events of one tick applied to one paddle, in queue order. */
  function HandleEvents(p: PaddleState, events: seq<Event>): (r: PaddleState)
    ensures r == p.(movingUp := r.movingUp, movingDown := r.movingDown)
    decreases |events|
  {
    if events == [] then p
    else HandleEvents(p, events[..|events| - 1]).HandleEvent(events[|events| - 1])
  }

  /** The paddles as the game sets them up: full height, limits at the frame, and the
      top on the 5-pixel grid between the two limits. */
  predicate OnGrid(p: PaddleState)
  {
    && p.height == PaddleHeight
    && p.topLimit == Border
    && p.bottomLimit == ScreenHeight - Border
    && p.y % PaddleStep == 0
    && Border <= p.y <= ScreenHeight - Border - PaddleHeight
  }

  lemma PaddleUpdateKeepsGrid(p: PaddleState)
    requires OnGrid(p)
    ensures OnGrid(p.Update())
    ensures p.topLimit <= p.Update().y && p.Update().y + p.height <= p.bottomLimit
  {
  }

  class Paddle {
    var x: int
    var y: int
    const width: int
    const height: int
    const upKey: Key
    const downKey: Key
    var movingUp: bool
    var movingDown: bool
    const topLimit: int
    const bottomLimit: int

    function State(): PaddleState
      reads this
    {
      PaddleState(x, y, width, height, upKey, downKey, movingUp, movingDown, topLimit, bottomLimit)
    }

    /** Paddle.new: a 20 by 100 white surface, both flags clear. */
    constructor (x: int, y: int, upKey: Key, downKey: Key, topLimit: int, bottomLimit: int)
      ensures State() == PaddleState(x, y, PaddleWidth, PaddleHeight, upKey, downKey,
                                     false, false, topLimit, bottomLimit)
    {
      this.upKey := upKey;
      this.downKey := downKey;
      this.movingUp := false;
      this.movingDown := false;
      this.topLimit := topLimit;
      this.bottomLimit := bottomLimit;
      this.x := x;
      this.y := y;
      this.width := PaddleWidth;
      this.height := PaddleHeight;
    }

    method CenterY(h: int)
      modifies this`y
      ensures State() == old(State()).(y := CenterTop(h, height))
    {
      y := h / 2 - height / 2;
    }

    method HandleEvent(ev: Event)
      modifies this`movingUp, this`movingDown
      ensures State() == old(State()).HandleEvent(ev)
    {
      match ev {
        case KeyDown(k) =>
          if k == upKey {
            movingUp := true;
          } else if k == downKey {
            movingDown := true;
          }
        case KeyUp(k) =>
          if k == upKey {
            movingUp := false;
          } else if k == downKey {
            movingDown := false;
          }
        case Other =>
      }
    }

    method Update()
      modifies this`y
      ensures State() == old(State()).Update()
    {
      if movingUp && y > topLimit {
        y := y - PaddleStep;
      }
      if movingDown && y + height < bottomLimit {
        y := y + PaddleStep;
      }
    }
  }

  // ------------------------------------------------------------------ ball

  function Abs(n: int): nat { if n < 0 then -n else n }

  datatype BallState = BallState(x: int, y: int, width: nat, height: nat, vx: int, vy: int)
  {
    function Bounds(): Box { Box(x, y, width, height) }

    /** Ball#update: move by the current velocity, then reverse a component when the
        moved ball touches or passes the matching pair of walls. */
    function Update(screenWidth: int, screenHeight: int): (r: BallState)
      ensures r.x - x == vx && r.y - y == vy
      ensures r.width == width && r.height == height
      ensures r.vx == vx || r.vx == -vx
      ensures r.vy == vy || r.vy == -vy
      ensures r.vx != vx ==> r.x <= Border || r.x + width >= screenWidth - Border
      ensures r.vy != vy ==> r.y <= Border || r.y + height >= screenHeight - Border
      ensures (r.x <= Border || r.x + width >= screenWidth - Border) ==> r.vx == -vx
      ensures (r.y <= Border || r.y + height >= screenHeight - Border) ==> r.vy == -vy
    {
      var moved := this.(x := x + vx, y := y + vy);
      var hx := if moved.x <= Border || moved.x + width >= screenWidth - Border then -vx else vx;
      var hy := if moved.y <= Border || moved.y + height >= screenHeight - Border then -vy else vy;
      moved.(vx := hx, vy := hy)
    }

    /** Ball#collision: a left paddle (left of the middle) puts the ball just right of its
        front, a right paddle just left of its front, and both reverse the horizontal
        velocity; a ball already more than 5 pixels behind the paddle is left alone. */
    function Bounce(paddle: Box, screenWidth: int): (r: BallState)
      ensures r.y == y && r.vy == vy && r.width == width && r.height == height
      ensures r == this || r.vx == -vx
      ensures paddle.x < screenWidth / 2 && x >= paddle.x - BehindSlack ==>
                r.x == paddle.x + paddle.width + 1 && r.vx == -vx && !Collision(r.Bounds(), paddle)
      ensures paddle.x < screenWidth / 2 && x < paddle.x - BehindSlack ==> r == this
      ensures paddle.x >= screenWidth / 2 && x <= paddle.x + BehindSlack ==>
                r.x + width + 1 == paddle.x && r.vx == -vx && !Collision(r.Bounds(), paddle)
      ensures paddle.x >= screenWidth / 2 && x > paddle.x + BehindSlack ==> r == this
    {
      if paddle.x < screenWidth / 2 then
        if !(x < paddle.x - BehindSlack) then this.(x := paddle.x + paddle.width + 1, vx := -vx)
        else this
      else
        if !(x > paddle.x + BehindSlack) then this.(x := paddle.x - width - 1, vx := -vx)
        else this
    }
  }

  class Ball {
    var x: int
    var y: int
    const width: nat
    const height: nat
    var vx: int
    var vy: int

    function State(): BallState
      reads this
    {
      BallState(x, y, width, height, vx, vy)
    }

    /** Ball.new: the size comes from the ball image; both velocity components start at 5. */
    constructor (x: int, y: int, width: nat, height: nat)
      ensures State() == BallState(x, y, width, height, BallSpeed, BallSpeed)
    {
      this.vx := BallSpeed;
      this.vy := BallSpeed;
      this.x := x;
      this.y := y;
      this.width := width;
      this.height := height;
    }

    method Update(screenWidth: int, screenHeight: int)
      modifies this`x, this`y, this`vx, this`vy
      ensures State() == old(State()).Update(screenWidth, screenHeight)
    {
      x := x + vx;
      y := y + vy;
      if x <= Border || x + width >= screenWidth - Border {
        vx := vx * -1;
      }
      if y <= Border || y + height >= screenHeight - Border {
        vy := vy * -1;
      }
    }

    method Collision(paddle: Paddle, screenWidth: int)
      modifies this`x, this`vx
      ensures State() == old(State()).Bounce(paddle.State().Bounds(), screenWidth)
    {
      if paddle.x < screenWidth / 2 {
        if !(x < paddle.x - BehindSlack) {
          x := paddle.x + paddle.width + 1;
          vx := vx * -1;
        }
      } else {
        if !(x > paddle.x + BehindSlack) {
          x := paddle.x - width - 1;
          vx := vx * -1;
        }
      }
    }
  }

  // ------------------------------------------------------------------ game

  datatype World = World(player: PaddleState, enemy: PaddleState, ball: BallState)

  /** The ball bounces off a paddle only when collision? reports that they meet; a
      bounce keeps the vertical motion and the speed along each axis. */
  function BounceIfHit(b: BallState, p: PaddleState): (r: BallState)
    ensures !Collision(b.Bounds(), p.Bounds()) ==> r == b
    ensures r.y == b.y && r.vy == b.vy && r.width == b.width && r.height == b.height
    ensures r.vx == b.vx || r.vx == -b.vx
  {
    if Collision(b.Bounds(), p.Bounds()) then b.Bounce(p.Bounds(), ScreenWidth) else b
  }

  /** Game#update: both paddles move, the ball moves, the queued events reach both
      paddles, then the ball is checked against the player and then the enemy. */
  function Tick(w: World, events: seq<Event>): (r: World)
    ensures r.player == w.player.(y := r.player.y, movingUp := r.player.movingUp, movingDown := r.player.movingDown)
    ensures r.enemy == w.enemy.(y := r.enemy.y, movingUp := r.enemy.movingUp, movingDown := r.enemy.movingDown)
    ensures Abs(r.player.y - w.player.y) <= PaddleStep && Abs(r.enemy.y - w.enemy.y) <= PaddleStep
    ensures r.ball.y == w.ball.y + w.ball.vy
    ensures r.ball.width == w.ball.width && r.ball.height == w.ball.height
    ensures Abs(r.ball.vx) == Abs(w.ball.vx) && Abs(r.ball.vy) == Abs(w.ball.vy)
  {
    var player := HandleEvents(w.player.Update(), events);
    var enemy := HandleEvents(w.enemy.Update(), events);
    var ball := w.ball.Update(ScreenWidth, ScreenHeight);
    World(player, enemy, BounceIfHit(BounceIfHit(ball, player), enemy))
  }

  /** One Game#update per element of ticks, each with that tick's events. */
  function Run(w: World, ticks: seq<seq<Event>>): (r: World)
    ensures r.player == w.player.(y := r.player.y, movingUp := r.player.movingUp, movingDown := r.player.movingDown)
    ensures r.enemy == w.enemy.(y := r.enemy.y, movingUp := r.enemy.movingUp, movingDown := r.enemy.movingDown)
    ensures Abs(r.player.y - w.player.y) <= PaddleStep * |ticks|
    ensures Abs(r.enemy.y - w.enemy.y) <= PaddleStep * |ticks|
    ensures r.ball.width == w.ball.width && r.ball.height == w.ball.height
    ensures Abs(r.ball.vx) == Abs(w.ball.vx) && Abs(r.ball.vy) == Abs(w.ball.vy)
    decreases |ticks|
  {
    if ticks == [] then w else Run(Tick(w, ticks[0]), ticks[1..])
  }

  /** Running two batches of ticks is running them one after the other, so a game
      can be advanced in any split of its ticks. */
  lemma {:induction false} RunAppend(w: World, first: seq<seq<Event>>, second: seq<seq<Event>>)
    ensures Run(w, first + second) == Run(Run(w, first), second)
    decreases |first|
  {
    if first == [] {
      assert first + second == second;
    } else {
      assert (first + second)[0] == first[0] && (first + second)[1..] == first[1..] + second;
      RunAppend(Tick(w, first[0]), first[1..], second);
    }
  }

  /** The world as Game.new builds it, for a ball image of the given size. */
  function Initial(ballWidth: nat, ballHeight: nat): (w: World)
    ensures GoodWorld(w, ballWidth, ballHeight)
  {
    var limit := ScreenHeight - Border;
    var top := CenterTop(ScreenHeight, PaddleHeight);
    World(
      PaddleState(PaddleInset, top, PaddleWidth, PaddleHeight, LetterW, LetterS, false, false, Border, limit),
      PaddleState(ScreenWidth - PaddleInset - PaddleWidth, top, PaddleWidth, PaddleHeight,
                  UpArrow, DownArrow, false, false, Border, limit),
      BallState(ScreenWidth / 2, ScreenHeight / 2, ballWidth, ballHeight, BallSpeed, BallSpeed))
  }

  /** What holds of the game at every tick: both paddles keep their column, keys and
      limits and stay on the grid inside the frame; the ball keeps its size and a speed
      of 5 along each axis. */
  predicate GoodWorld(w: World, ballWidth: nat, ballHeight: nat)
  {
    && OnGrid(w.player) && w.player.x == PaddleInset
    && w.player.upKey == LetterW && w.player.downKey == LetterS
    && OnGrid(w.enemy) && w.enemy.x == ScreenWidth - PaddleInset - PaddleWidth
    && w.enemy.upKey == UpArrow && w.enemy.downKey == DownArrow
    && w.ball.width == ballWidth && w.ball.height == ballHeight
    && Abs(w.ball.vx) == BallSpeed && Abs(w.ball.vy) == BallSpeed
  }

  lemma TickKeepsGoodWorld(w: World, events: seq<Event>, ballWidth: nat, ballHeight: nat)
    requires GoodWorld(w, ballWidth, ballHeight)
    ensures GoodWorld(Tick(w, events), ballWidth, ballHeight)
  {
    PaddleUpdateKeepsGrid(w.player);
    PaddleUpdateKeepsGrid(w.enemy);
  }

  lemma {:induction false} RunKeepsGoodWorld(w: World, ticks: seq<seq<Event>>, ballWidth: nat, ballHeight: nat)
    requires GoodWorld(w, ballWidth, ballHeight)
    ensures GoodWorld(Run(w, ticks), ballWidth, ballHeight)
    decreases |ticks|
  {
    if ticks != [] {
      TickKeepsGoodWorld(w, ticks[0], ballWidth, ballHeight);
      RunKeepsGoodWorld(Tick(w, ticks[0]), ticks[1..], ballWidth, ballHeight);
    }
  }

  class Game {
    const player: Paddle
    const enemy: Paddle
    const ball: Ball

    ghost predicate Valid()
      reads this
    {
      player != enemy
    }

    function State(): World
      reads this, player, enemy, ball
    {
      World(player.State(), enemy.State(), ball.State())
    }

    /** Game.new: the player on W/S at the left, the enemy on the arrow keys at the
        right, both centred vertically, the ball in the middle of the screen. */
    constructor (ballWidth: nat, ballHeight: nat)
      ensures Valid() && fresh(player) && fresh(enemy) && fresh(ball)
      ensures State() == Initial(ballWidth, ballHeight)
    {
      var limit := ScreenHeight - Border;
      var p := new Paddle(PaddleInset, Border, LetterW, LetterS, Border, limit);
      var e := new Paddle(ScreenWidth - PaddleInset - p.width, Border, UpArrow, DownArrow, Border, limit);
      p.CenterY(ScreenHeight);
      e.CenterY(ScreenHeight);
      var b := new Ball(ScreenWidth / 2, ScreenHeight / 2, ballWidth, ballHeight);
      player, enemy, ball := p, e, b;
    }

    method Update(events: seq<Event>)
      requires Valid()
      modifies player, enemy, ball
      ensures State() == Tick(old(State()), events)
    {
      player.Update();
      enemy.Update();
      ball.Update(ScreenWidth, ScreenHeight);
      ghost var p0, e0 := player.State(), enemy.State();
      for i := 0 to |events|
        invariant player.State() == HandleEvents(p0, events[..i])
        invariant enemy.State() == HandleEvents(e0, events[..i])
        invariant ball.State() == old(ball.State()).Update(ScreenWidth, ScreenHeight)
      {
        assert events[..i + 1][..i] == events[..i];
        player.HandleEvent(events[i]);
        enemy.HandleEvent(events[i]);
      }
      assert events[..|events|] == events;
      if Collision(ball.State().Bounds(), player.State().Bounds()) {
        ball.Collision(player, ScreenWidth);
      }
      if Collision(ball.State().Bounds(), enemy.State().Bounds()) {
        ball.Collision(enemy, ScreenWidth);
      }
    }
  }
}
