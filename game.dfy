/** The player of CatalEyes (game.rb): four direction flags driven by the arrow keys,
    and a second-order semi-implicit Euler step. Floats are modelled as reals. */
module CatalEyes {
  import opened Input

  datatype Option<T> = None | Some(value: T)

  datatype Direction = Left | Right | Up | Down

  const InitialAccel: real := 300.0
  const InitialDecay: real := 300.0

  /** game.rb's sign: 1 for every number that is not negative, 0 included; -1 otherwise. */
  function Sign(n: real): (r: int)
    ensures r == 1 || r == -1
    ensures r == 1 <==> n >= 0.0
    ensures (r as real) * n >= 0.0
  {
    if n >= 0.0 then 1 else -1
  }

  /** The arrow key each direction is bound to. */
  function ArrowKey(d: Direction): Key
  {
    match d
    case Left => LeftArrow
    case Right => RightArrow
    case Up => UpArrow
    case Down => DownArrow
  }

  /** The direction an arrow key stands for, tested in the order of handle_event's chain. */
  function ArrowDirection(k: Key): (r: Option<Direction>)
    ensures r.Some? ==> ArrowKey(r.value) == k
    ensures r.None? ==> forall d :: ArrowKey(d) != k
  {
    if k == RightArrow then Some(Right)
    else if k == LeftArrow then Some(Left)
    else if k == UpArrow then Some(Up)
    else if k == DownArrow then Some(Down)
    else None
  }

  /** A flag of the @moving hash reads as true; a missing key reads as nil, which is false. */
  predicate Held(moving: map<Direction, bool>, d: Direction)
  {
    d in moving && moving[d]
  }

  /** Player#moving?: at least one direction is held. */
  function IsMoving(moving: map<Direction, bool>): (r: bool)
    ensures r <==> exists d :: Held(moving, d)
  {
    assert forall d :: Held(moving, d) ==> d == Left || d == Right || d == Up || d == Down;
    Held(moving, Left) || Held(moving, Right) || Held(moving, Up) || Held(moving, Down)
  }

  /** Player#handle_event on the flag hash: a press of an arrow key sets exactly that
      direction's flag, a release clears exactly that flag, and every other flag and
      every other event leave the hash as it was. */
  function ApplyKey(moving: map<Direction, bool>, ev: Event): (r: map<Direction, bool>)
    ensures moving.Keys <= r.Keys
    ensures forall d :: Held(r, d) == (if ev == KeyDown(ArrowKey(d)) then true
                                       else if ev == KeyUp(ArrowKey(d)) then false
                                       else Held(moving, d))
    ensures (ev.Other? || ArrowDirection(ev.key).None?) ==> r == moving
  {
    match ev
    case KeyDown(k) =>
      (match ArrowDirection(k)
       case Some(d) => moving[d := true]
       case None => moving)
    case KeyUp(k) =>
      (match ArrowDirection(k)
       case Some(d) => moving[d := false]
       case None => moving)
    case Other => moving
  }

  /** The net acceleration along one axis from its negative and positive keys:
      accel, -accel, or 0 when neither or both are held. */
  function NetAccel(negative: bool, positive: bool, accel: real): real
  {
    (if positive then accel else 0.0) - (if negative then accel else 0.0)
  }

  /** The driven branch of Player#update on one axis: subtract accel * dt when the
      negative key is held, then add it when the positive key is held. */
  function Drive(v: real, negative: bool, positive: bool, accel: real, dt: real): (r: real)
    ensures r == v + NetAccel(negative, positive, accel) * dt
  {
    var afterNegative := if negative then v - accel * dt else v;
    if positive then afterNegative + accel * dt else afterNegative
  }

  /** The coasting branch of Player#update on one axis: a step of vdecay * dt against
      sign(v), with no clamp at zero. */
  function Decay(v: real, vdecay: real, dt: real): (r: real)
    ensures r == if v >= 0.0 then v - vdecay * dt else v + vdecay * dt
  {
    v + (vdecay * (Sign(v) as real) * -1.0) * dt
  }

  /** The kinematic part of a player: position, velocity and the rate @vvx/@vvy. */
  datatype Motion = Motion(x: real, y: real, vx: real, vy: real, vvx: real, vvy: real)

  /** Player#update: when a flag is held each held key drives its axis, otherwise both
      axes coast; then each velocity takes the new rate and each position the new
      velocity. */
  function Integrate(m: Motion, moving: map<Direction, bool>, accel: real, vdecay: real, dt: real): Motion
  {
    var vvx := if IsMoving(moving) then Drive(m.vvx, Held(moving, Left), Held(moving, Right), accel, dt)
               else Decay(m.vvx, vdecay, dt);
    var vvy := if IsMoving(moving) then Drive(m.vvy, Held(moving, Up), Held(moving, Down), accel, dt)
               else Decay(m.vvy, vdecay, dt);
    EulerStep(m.(vvx := vvx, vvy := vvy), dt)
  }

  /** The last four lines of Player#update, on a motion whose rates are already the new
      ones: each velocity takes the rate, then each position the new velocity. */
  function EulerStep(m: Motion, dt: real): (r: Motion)
    ensures r.vvx == m.vvx && r.vvy == m.vvy
    ensures dt == 0.0 ==> r == m
    ensures m.vvx == 0.0 && m.vvy == 0.0 ==> r.vx == m.vx && r.vy == m.vy
  {
    var vx := m.vx + m.vvx * dt;
    var vy := m.vy + m.vvy * dt;
    Motion(m.x + vx * dt, m.y + vy * dt, vx, vy, m.vvx, m.vvy)
  }

  /** A zero time step changes nothing. */
  lemma IntegrateZeroStep(m: Motion, moving: map<Direction, bool>, accel: real, vdecay: real)
    ensures Integrate(m, moving, accel, vdecay, 0.0) == m
  {
  }

  /** Semi-implicit Euler: each velocity uses the rate just computed and each position
      the velocity just computed. */
  lemma IntegrateSemiImplicit(m: Motion, moving: map<Direction, bool>, accel: real, vdecay: real, dt: real)
    ensures var r := Integrate(m, moving, accel, vdecay, dt);
      && r.vx == m.vx + r.vvx * dt && r.x == m.x + r.vx * dt
      && r.vy == m.vy + r.vvy * dt && r.y == m.y + r.vy * dt
  {
  }

  /** While a key is held, each axis changes by its own net push, independently of the
      other axis: opposite keys cancel and an axis with no key keeps its rate. */
  lemma IntegrateDriven(m: Motion, moving: map<Direction, bool>, accel: real, vdecay: real, dt: real)
    requires IsMoving(moving)
    ensures var r := Integrate(m, moving, accel, vdecay, dt);
      && r.vvx == m.vvx + NetAccel(Held(moving, Left), Held(moving, Right), accel) * dt
      && r.vvy == m.vvy + NetAccel(Held(moving, Up), Held(moving, Down), accel) * dt
      && (Held(moving, Left) == Held(moving, Right) ==> r.vvx == m.vvx)
      && (Held(moving, Up) == Held(moving, Down) ==> r.vvy == m.vvy)
  {
  }

  /** With no key held both axes coast, each against its own sign and without a clamp. */
  lemma IntegrateCoasting(m: Motion, moving: map<Direction, bool>, accel: real, vdecay: real, dt: real)
    requires !IsMoving(moving)
    ensures var r := Integrate(m, moving, accel, vdecay, dt);
      && r.vvx == (if m.vvx >= 0.0 then m.vvx - vdecay * dt else m.vvx + vdecay * dt)
      && r.vvy == (if m.vvy >= 0.0 then m.vvy - vdecay * dt else m.vvy + vdecay * dt)
  {
  }

  /** A player at rest with no key held does not stay put: the rate turns negative on
      both axes (sign(0) is 1) and the player drifts up and to the left. */
  lemma RestDrifts(x: real, y: real, moving: map<Direction, bool>, accel: real, vdecay: real, dt: real)
    requires !IsMoving(moving) && vdecay > 0.0 && dt > 0.0
    ensures var r := Integrate(Motion(x, y, 0.0, 0.0, 0.0, 0.0), moving, accel, vdecay, dt);
      && r.vvx == -vdecay * dt && r.vvy == -vdecay * dt
      && r.vx < 0.0 && r.vy < 0.0 && r.x < x && r.y < y
  {
  }

  /** Two equal coasting steps from rest bring the rate back to zero but leave the
      velocity negative: the decay acts on the rate, never on the velocity itself. */
  lemma CoastingNeverStopsVelocity(x: real, y: real, moving: map<Direction, bool>, accel: real, vdecay: real, dt: real)
    requires !IsMoving(moving) && vdecay > 0.0 && dt > 0.0
    ensures var r := Integrate(Integrate(Motion(x, y, 0.0, 0.0, 0.0, 0.0), moving, accel, vdecay, dt),
                               moving, accel, vdecay, dt);
      && r.vvx == 0.0 && r.vvy == 0.0
      && r.vx == -vdecay * dt * dt && r.vy == -vdecay * dt * dt
  {
    RestDrifts(x, y, moving, accel, vdecay, dt);
  }

  /** Player#update once per time step of dts, with the flags unchanged. */
  function IntegrateAll(m: Motion, moving: map<Direction, bool>, accel: real, vdecay: real, dts: seq<real>): Motion
    decreases |dts|
  {
    if dts == [] then m
    else IntegrateAll(Integrate(m, moving, accel, vdecay, dts[0]), moving, accel, vdecay, dts[1..])
  }

  /** Updates over two runs of time steps are the updates over the first run followed
      by those over the second. */
  lemma {:induction false} IntegrateAllAppend(m: Motion, moving: map<Direction, bool>, accel: real, vdecay: real,
                                              first: seq<real>, second: seq<real>)
    ensures IntegrateAll(m, moving, accel, vdecay, first + second)
            == IntegrateAll(IntegrateAll(m, moving, accel, vdecay, first), moving, accel, vdecay, second)
    decreases |first|
  {
    if first == [] {
      assert first + second == second;
    } else {
      assert (first + second)[0] == first[0] && (first + second)[1..] == first[1..] + second;
      IntegrateAllAppend(Integrate(m, moving, accel, vdecay, first[0]), moving, accel, vdecay, first[1..], second);
    }
  }

  function Sum(s: seq<real>): real
    decreases |s|
  {
    if s == [] then 0.0 else s[0] + Sum(s[1..])
  }

  /** The driven rate of one axis after one Drive per time step of dts. */
  function DriveAll(v: real, negative: bool, positive: bool, accel: real, dts: seq<real>): real
    decreases |dts|
  {
    if dts == [] then v else DriveAll(Drive(v, negative, positive, accel, dts[0]), negative, positive, accel, dts[1..])
  }

  /** Repeated driving adds the net acceleration times the total elapsed time. */
  lemma {:induction false} DriveAllAccumulates(v: real, negative: bool, positive: bool, accel: real, dts: seq<real>)
    ensures DriveAll(v, negative, positive, accel, dts) == v + NetAccel(negative, positive, accel) * Sum(dts)
    decreases |dts|
  {
    if dts != [] {
      var a := NetAccel(negative, positive, accel);
      DriveAllAccumulates(Drive(v, negative, positive, accel, dts[0]), negative, positive, accel, dts[1..]);
      assert a * Sum(dts) == a * dts[0] + a * Sum(dts[1..]);
    }
  }

  /** While the flags stay the same and a key is held, the rates of a run of updates
      are those of repeated driving: the Euler half never feeds back into them. */
  lemma {:induction false} IntegrateAllRates(m: Motion, moving: map<Direction, bool>, accel: real, vdecay: real, dts: seq<real>)
    requires IsMoving(moving)
    ensures var r := IntegrateAll(m, moving, accel, vdecay, dts);
      && r.vvx == DriveAll(m.vvx, Held(moving, Left), Held(moving, Right), accel, dts)
      && r.vvy == DriveAll(m.vvy, Held(moving, Up), Held(moving, Down), accel, dts)
    decreases |dts|
  {
    if dts != [] {
      IntegrateAllRates(Integrate(m, moving, accel, vdecay, dts[0]), moving, accel, vdecay, dts[1..]);
    }
  }

  class Player {
    var x: real
    var y: real
    const width: nat
    const height: nat
    var vx: real
    var vy: real
    var vvx: real
    var vvy: real
    const vdecay: real
    const accel: real
    var moving: map<Direction, bool>

    function Kinematics(): Motion
      reads this
    {
      Motion(x, y, vx, vy, vvx, vvy)
    }

    /** Player.new: the size comes from the player image; at rest, accel and vdecay 300,
        no direction held. */
    constructor (x: real, y: real, width: nat, height: nat)
      ensures this.width == width && this.height == height
      ensures Kinematics() == Motion(x, y, 0.0, 0.0, 0.0, 0.0)
      ensures accel == InitialAccel && vdecay == InitialDecay
      ensures moving == map[Left := false, Right := false, Up := false, Down := false]
      ensures !IsMoving(moving)
    {
      this.x := x;
      this.y := y;
      this.width := width;
      this.height := height;
      vx := 0.0;
      vy := 0.0;
      vvx := 0.0;
      vvy := 0.0;
      vdecay := InitialDecay;
      accel := InitialAccel;
      moving := map[Left := false, Right := false, Up := false, Down := false];
    }

    method HandleEvent(ev: Event)
      modifies this`moving
      ensures moving == ApplyKey(old(moving), ev)
    {
      match ev {
        case KeyDown(k) =>
          if k == RightArrow {
            moving := moving[Right := true];
          } else if k == LeftArrow {
            moving := moving[Left := true];
          } else if k == UpArrow {
            moving := moving[Up := true];
          } else if k == DownArrow {
            moving := moving[Down := true];
          }
        case KeyUp(k) =>
          if k == RightArrow {
            moving := moving[Right := false];
          } else if k == LeftArrow {
            moving := moving[Left := false];
          } else if k == UpArrow {
            moving := moving[Up := false];
          } else if k == DownArrow {
            moving := moving[Down := false];
          }
        case Other =>
      }
    }

    method Update(dt: real)
      modifies this`x, this`y, this`vx, this`vy, this`vvx, this`vvy
      ensures Kinematics() == Integrate(old(Kinematics()), moving, accel, vdecay, dt)
    {
      ghost var m := Kinematics();
      if IsMoving(moving) {
        if Held(moving, Left) {
          vvx := vvx - accel * dt;
        }
        if Held(moving, Right) {
          vvx := vvx + accel * dt;
        }
        if Held(moving, Up) {
          vvy := vvy - accel * dt;
        }
        if Held(moving, Down) {
          vvy := vvy + accel * dt;
        }
        assert vvx == Drive(m.vvx, Held(moving, Left), Held(moving, Right), accel, dt);
        assert vvy == Drive(m.vvy, Held(moving, Up), Held(moving, Down), accel, dt);
      } else {
        vvx := vvx + (vdecay * (Sign(vvx) as real) * -1.0) * dt;
        vvy := vvy + (vdecay * (Sign(vvy) as real) * -1.0) * dt;
        assert vvx == Decay(m.vvx, vdecay, dt);
        assert vvy == Decay(m.vvy, vdecay, dt);
      }
      Advance(dt);
    }

    /** The integration half of Player#update, kept apart so that its proof does not see
        the branches above it. */
    method Advance(dt: real)
      modifies this`x, this`y, this`vx, this`vy
      ensures Kinematics() == EulerStep(old(Kinematics()), dt)
    {
      vx := vx + vvx * dt;
      vy := vy + vvy * dt;
      x := x + vx * dt;
      y := y + vy * dt;
    }
  }
}
