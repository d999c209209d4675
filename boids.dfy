/**
 * The agent store of src/boids.rs: a structure of arrays (`BoidVec`, derived
 * by `StructOfArray` from `Boid`) with one column per agent field, and the
 * discrete part of the per-frame update `upd_position`.
 */
module Boids {

  import opened Ops
  import opened Wrappers
  import Formations

  datatype BoidState = Stationary | Accelerating | Decelerating | Marching | Idle

  /** `BoidState::default()`. */
  const DefaultState: BoidState := Stationary

  /** A renderer colour, `[f32; 4]`. */
  datatype Color = Color(r: real, g: real, b: real, a: real)

  /** One agent: position, velocity, heading `r` in radians, motion state, colour. */
  datatype Boid = Boid(pos: Vec2, vel: Vec2, r: real, state: BoidState, color: Color)

  /** `Boid::default()`: every field zero, state `Stationary`. */
  const DefaultBoid: Boid := Boid(Zero, Zero, 0.0, DefaultState, Color(0.0, 0.0, 0.0, 0.0))

  /** `SPREAD`: side of the square random positions are drawn from. */
  const Spread: real := 600.0

  /** `VEL_SPREAD`: side of the square random velocities are drawn from, centred on zero. */
  const VelSpread: real := 500.0

  /** `dist < 1.`: the distance under which an agent has arrived at its slot. */
  const ArrivalMargin: real := 1.0

  /** Five draws of `rng.gen::<f64>()`, each meant to lie in [0, 1). */
  datatype Draw = Draw(px: real, py: real, vx: real, vy: real, heading: real)

  predicate InUnit(u: real) { 0.0 <= u < 1.0 }

  predicate DrawInUnit(d: Draw)
  {
    InUnit(d.px) && InUnit(d.py) && InUnit(d.vx) && InUnit(d.vy) && InUnit(d.heading)
  }

  /** The colour ramp of `random`: c = i / num, colour [c, c, c, 1.2 - c]. */
  function Ramp(i: nat, num: nat): (c: Color)
    requires i < num
    ensures 0.0 <= c.r < 1.0 && c.r == c.g == c.b
    ensures c.a == 1.2 - c.r && 0.2 < c.a <= 1.2
  {
    var c := i as real / num as real;
    Color(c, c, c, 1.2 - c)
  }

  /** The `i`-th agent of `BoidVec::random(num)` built from the draws `d`. */
  function RandomBoid(i: nat, num: nat, d: Draw): Boid
    requires i < num
  {
    Boid(Vec2(d.px * Spread, d.py * Spread),
         Vec2(d.vx * VelSpread - VelSpread / 2.0, d.vy * VelSpread - VelSpread / 2.0),
         d.heading, DefaultState, Ramp(i, num))
  }

  /**
   * With draws in [0, 1) a random agent sits in [0, SPREAD)^2, moves with a
   * velocity in [-VEL_SPREAD/2, VEL_SPREAD/2)^2, has a heading in [0, 1) and
   * starts `Stationary`.
   */
  lemma RandomBoidInRange(i: nat, num: nat, d: Draw)
    requires i < num && DrawInUnit(d)
    ensures var b := RandomBoid(i, num, d);
      0.0 <= b.pos.x < Spread && 0.0 <= b.pos.y < Spread
      && -VelSpread / 2.0 <= b.vel.x < VelSpread / 2.0
      && -VelSpread / 2.0 <= b.vel.y < VelSpread / 2.0
      && 0.0 <= b.r < 1.0 && b.state == Stationary
  {
  }

  /**
   * What the float steering of one marching agent produced: the clamped new
   * velocity and, when `atan2` of it was a normal float, the new heading.
   */
  datatype Steering = Steering(vel: Vec2, heading: Option<real>)

  /**
   * One agent after iteration `cur` of `upd_position`, given its distance to
   * its slot and the steering result: an arrived agent stops where it is; any
   * other agent marches, takes the new velocity, keeps its heading unless a
   * normal one was computed, and moves by velocity * dt.
   */
  function StepBoid(b: Boid, dist: real, s: Steering, dt: real): Boid
  {
    if dist < ArrivalMargin then
      b.(state := Stationary, vel := Zero)
    else
      b.(state := Marching, vel := s.vel,
         r := s.heading.UnwrapOr(b.r),
         pos := Add(b.pos, Scale(s.vel, dt)))
  }

  /** An agent within the margin becomes `Stationary` with zero velocity and keeps position, heading and colour. */
  lemma StepArrived(b: Boid, dist: real, s: Steering, dt: real)
    requires dist < ArrivalMargin
    ensures StepBoid(b, dist, s, dt).state == Stationary
    ensures StepBoid(b, dist, s, dt).vel == Zero
    ensures StepBoid(b, dist, s, dt).pos == b.pos && StepBoid(b, dist, s, dt).r == b.r
    ensures StepBoid(b, dist, s, dt).color == b.color
  {
  }

  /**
   * An agent at the margin or beyond becomes `Marching`; a heading that is not
   * a normal float leaves the old one.
   */
  lemma StepMarching(b: Boid, dist: real, s: Steering, dt: real)
    requires dist >= ArrivalMargin
    ensures StepBoid(b, dist, s, dt).state == Marching
    ensures StepBoid(b, dist, s, dt).vel == s.vel
    ensures StepBoid(b, dist, s, dt).pos == Add(b.pos, Scale(s.vel, dt))
    ensures s.heading == None ==> StepBoid(b, dist, s, dt).r == b.r
    ensures StepBoid(b, dist, s, dt).color == b.color
  {
  }

  /** An arrived agent is frozen: stepping it again while it stays within the margin changes nothing. */
  lemma StepArrivedFrozen(b: Boid, d1: real, d2: real, s1: Steering, s2: Steering, dt: real)
    requires d1 < ArrivalMargin && d2 < ArrivalMargin
    ensures StepBoid(StepBoid(b, d1, s1, dt), d2, s2, dt) == StepBoid(b, d1, s1, dt)
  {
  }

  /**
   * The grid cell `upd_position` computes inline for agent `cur` is the
   * phalanx cell: the origin for `form_width == 0`, and for the source's test
   * values (1, 0) and (14, 5) the origin and a non-zero cell.
   */
  lemma InlineGridOffset(cur: nat, formWidth: nat)
    ensures formWidth == 0 ==> Formations.PhalanxFormation(cur, formWidth) == Zero
    ensures Formations.PhalanxFormation(1, 0) == Zero
    ensures Formations.PhalanxFormation(14, 5) != Zero
  {
    Formations.PhalanxRowOf(14, 5, 2, 4);
  }

  /**
   * `BoidVec`: one sequence per field of `Boid`, index-aligned; `Valid` says
   * the columns have equal length.
   */
  class BoidVec {
    var pos: seq<Vec2>
    var vel: seq<Vec2>
    var r: seq<real>
    var state: seq<BoidState>
    var color: seq<Color>

    ghost predicate Valid()
      reads this
    {
      |vel| == |pos| && |r| == |pos| && |state| == |pos| && |color| == |pos|
    }

    /** The number of agents, `len()`. */
    function Len(): nat
      reads this
    {
      |pos|
    }

    /** The agent at index `i`, gathered from the columns. */
    function Row(i: nat): Boid
      reads this
      requires Valid() && i < Len()
    {
      Boid(pos[i], vel[i], r[i], state[i], color[i])
    }

    /** `BoidVec::with_capacity`: an empty store (capacity is not modelled). */
    constructor WithCapacity(capacity: nat)
      ensures Valid() && Len() == 0
    {
      pos, vel, r, state, color := [], [], [], [], [];
    }

    /** `push`: appends one agent, extending every column by one. */
    method Push(b: Boid)
      requires Valid()
      modifies this
      ensures Valid() && Len() == old(Len()) + 1
      ensures pos == old(pos) + [b.pos] && vel == old(vel) + [b.vel] && r == old(r) + [b.r]
      ensures state == old(state) + [b.state] && color == old(color) + [b.color]
      ensures Row(old(Len())) == b
      ensures forall i :: 0 <= i < old(Len()) ==> Row(i) == old(Row(i))
    {
      pos := pos + [b.pos];
      vel := vel + [b.vel];
      r := r + [b.r];
      state := state + [b.state];
      color := color + [b.color];
    }

    /** `BoidVec::zeros(num)`: `num` default agents. */
    static method Zeros(num: nat) returns (boids: BoidVec)
      ensures fresh(boids) && boids.Valid() && boids.Len() == num
      ensures forall i :: 0 <= i < num ==> boids.Row(i) == DefaultBoid
    {
      boids := new BoidVec.WithCapacity(num);
      var k := 0;
      while k < num
        invariant 0 <= k <= num
        invariant boids.Valid() && boids.Len() == k
        invariant forall i :: 0 <= i < k ==> boids.Row(i) == DefaultBoid
      {
        boids.Push(DefaultBoid);
        k := k + 1;
      }
    }

    /**
     * `BoidVec::random(num)`: `num` agents, agent `i` built by `RandomBoid`
     * from the `i`-th group of random draws `rng(i)`.
     */
    static method Random(num: nat, rng: nat -> Draw) returns (boids: BoidVec)
      ensures fresh(boids) && boids.Valid() && boids.Len() == num
      ensures forall i :: 0 <= i < num ==> boids.Row(i) == RandomBoid(i, num, rng(i))
    {
      boids := new BoidVec.WithCapacity(num);
      var k := 0;
      while k < num
        invariant 0 <= k <= num
        invariant boids.Valid() && boids.Len() == k
        invariant forall i :: 0 <= i < k ==> boids.Row(i) == RandomBoid(i, num, rng(i))
      {
        var c := k as real / num as real;
        var d := rng(k);
        boids.Push(Boid(Vec2(d.px * Spread, d.py * Spread),
                        Vec2(d.vx * VelSpread - VelSpread / 2.0, d.vy * VelSpread - VelSpread / 2.0),
                        d.heading, DefaultState, Color(c, c, c, 1.2 - c)));
        k := k + 1;
      }
    }

    /**
     * The discrete part of `upd_position(dt)`: for each `cur` in index order,
     * `dist(cur)` is agent `cur`'s distance to its slot and `steer(cur)` the
     * float steering result; iteration `cur` writes index `cur` of each
     * column and nothing else, and the agent count does not change.
     */
    method UpdPosition(dt: real, dist: nat -> real, steer: nat -> Steering)
      requires Valid()
      modifies this
      ensures Valid() && Len() == old(Len())
      ensures forall i :: 0 <= i < Len() ==>
        Row(i) == StepBoid(old(Row(i)), dist(i), steer(i), dt)
    {
      var cur := 0;
      while cur < |pos|
        invariant 0 <= cur <= |pos| == old(|pos|)
        invariant Valid()
        invariant forall i :: 0 <= i < cur ==> Row(i) == StepBoid(old(Row(i)), dist(i), steer(i), dt)
        invariant forall i :: cur <= i < |pos| ==> Row(i) == old(Row(i))
      {
        if dist(cur) < ArrivalMargin {
          state := state[cur := Stationary];
          vel := vel[cur := Zero];
        } else {
          state := state[cur := Marching];
          var s := steer(cur);
          vel := vel[cur := s.vel];
          if s.heading.Some? {
            r := r[cur := s.heading.value];
          }
          pos := pos[cur := Add(pos[cur], Scale(vel[cur], dt))];
        }
        cur := cur + 1;
      }
    }
  }
}
