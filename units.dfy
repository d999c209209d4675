/**
 * The basic unit of src/units.rs: a group of agents that owns a formation, a
 * goal queue and per-slot formation positions, and that advances its goal
 * queue once its agents have arrived.
 */
module Units {

  import opened Ops
  import opened Wrappers
  import opened Formations
  import World
  import Boids

  /** `BASE_UNIT_CAPACITY`: addresses reserved per basic unit. */
  const BaseUnitCapacity: nat := 256

  /** `DIST_MARGIN`: allowed mean distance of an agent from its slot for the unit to count as arrived. */
  const DistMargin: real := 1.0

  /** `TroopDesc`: the static description of a unit's troops (f32 fields as reals). */
  datatype TroopDesc = TroopDesc(
    name: string, mass: real, baseSpd: real, chargeSpd: real,
    mounted: bool, ranged: bool, rangedAmmo: nat, rangedBaseReach: real,
    meleeReachCqb: real, meleeReachStandoffMin: real, meleeReachStandoffMax: real,
    blockChance: real)

  /** `TroopDesc::default()`. */
  const DefaultTroopDesc: TroopDesc :=
    TroopDesc("", 0.0, 0.0, 0.0, false, false, 0, 0.0, 0.0, 0.0, 0.0, 0.0)

  /** One `pop_front` followed by the refill: an emptied queue becomes `[Hold]`. */
  function PopGoal(g: seq<Goal>): seq<Goal>
  {
    if |g| <= 1 then [Hold] else g[1..]
  }

  /** The goal-queue effect of one `p_b` step with summed distance `cumDist` over `n` agents. */
  function GoalsAfterStep(g: seq<Goal>, cumDist: real, n: nat): seq<Goal>
  {
    if cumDist < n as real * DistMargin then PopGoal(g) else g
  }

  /** `cum_dist`: the sum of the first `n` distances. */
  function SumDist(dist: nat -> real, n: nat): real
  {
    if n == 0 then 0.0 else SumDist(dist, n - 1) + dist(n - 1)
  }

  /**
   * Popping removes exactly the front goal and keeps the others in order;
   * only a queue of at most one goal is refilled, and then with `Hold` alone.
   */
  lemma PopGoalKeepsOrder(g: seq<Goal>)
    ensures |g| >= 2 ==> |PopGoal(g)| == |g| - 1
    ensures |g| >= 2 ==> forall i :: 0 <= i < |g| - 1 ==> PopGoal(g)[i] == g[i + 1]
    ensures |g| <= 1 ==> PopGoal(g) == [Hold]
    ensures PopGoal(g) != []
  {
  }

  /** A step whose summed distance reaches `n` times the margin leaves the queue as it was. */
  lemma StepWithoutArrival(g: seq<Goal>, cumDist: real, n: nat)
    requires cumDist >= n as real * DistMargin
    ensures GoalsAfterStep(g, cumDist, n) == g
  {
  }

  /** A step keeps a non-empty queue non-empty, and a step that arrives always leaves one. */
  lemma StepKeepsNonEmpty(g: seq<Goal>, cumDist: real, n: nat)
    ensures g != [] ==> GoalsAfterStep(g, cumDist, n) != []
    ensures cumDist < n as real * DistMargin ==> GoalsAfterStep(g, cumDist, n) != []
  {
  }

  /** `k` arriving steps in a row. */
  function PopGoals(g: seq<Goal>, k: nat): seq<Goal>
    decreases k
  {
    if k == 0 then g else PopGoals(PopGoal(g), k - 1)
  }

  /** `Hold` is the resting state: popping it gives it back. */
  lemma HoldIsFixed(k: nat)
    ensures PopGoals([Hold], k) == [Hold]
  {
    if k > 0 {
      HoldIsFixed(k - 1);
    }
  }

  /**
   * After at least as many arrivals as there are goals (and at least one),
   * every order has been done and the unit holds.
   */
  lemma {:induction false} ArrivalsExhaustToHold(g: seq<Goal>, k: nat)
    requires k >= |g| && k >= 1
    ensures PopGoals(g, k) == [Hold]
    decreases k
  {
    if |g| <= 1 {
      assert PopGoal(g) == [Hold];
      HoldIsFixed(k - 1);
    } else {
      ArrivalsExhaustToHold(g[1..], k - 1);
    }
  }

  /** After `k` arrivals with `k < |g|` the queue is the untouched tail of the orders. */
  lemma {:induction false} ArrivalsDropPrefix(g: seq<Goal>, k: nat)
    requires k < |g|
    ensures PopGoals(g, k) == g[k..]
    decreases k
  {
    if k > 0 {
      assert PopGoal(g) == g[1..];
      ArrivalsDropPrefix(g[1..], k - 1);
      assert g[1..][k - 1..] == g[k..];
    }
  }

  /** When every agent is nearer than the margin to its slot, the unit has arrived. */
  lemma {:induction false} AllNearArrives(dist: nat -> real, n: nat)
    requires n > 0
    requires forall i :: 0 <= i < n ==> dist(i) < DistMargin
    ensures SumDist(dist, n) < n as real * DistMargin
    decreases n
  {
    if n > 1 {
      AllNearArrives(dist, n - 1);
    }
  }

  /** When every agent is at least the margin away from its slot, the unit has not arrived. */
  lemma {:induction false} AllFarHolds(dist: nat -> real, n: nat)
    requires forall i :: 0 <= i < n ==> dist(i) >= DistMargin
    ensures SumDist(dist, n) >= n as real * DistMargin
    decreases n
  {
    if n > 0 {
      AllFarHolds(dist, n - 1);
    }
  }

  /**
   * `BasicUnit`: the group state. `formation` maps (slot index, row width)
   * to a slot offset; `goals` is the unit's own queue object.
   */
  class BasicUnit {
    var center: Vec2
    var direction: Vec2
    var selectRadius: real
    var interactionRadius: real
    var formation: (nat, nat) -> Vec2
    var formationPositions: seq<Vec2>
    const goals: GoalQueue
    var selected: bool
    var fatigue: real
    var morale: real
    var experience: real
    var avgAge: real
    var troopDesc: TroopDesc
    var troops: Option<Boids.BoidVec>

    /**
     * `BasicUnit::new(pos, num)`: a fresh unit at `pos` facing (1, 0) whose
     * only goal is `Idle(pos)`. `defaultFormation` stands for
     * `default_formation` with its random draws fixed; `num` only reserves
     * capacity, so the formation positions start empty.
     */
    constructor (pos: Vec2, num: nat, defaultFormation: (nat, nat) -> Vec2)
      ensures fresh(goals) && goals.items == [Idle(pos)]
      ensures center == pos && direction == Vec2(1.0, 0.0)
      ensures !selected && formationPositions == [] && troops == None
      ensures selectRadius == 0.0 && interactionRadius == 0.0
      ensures fatigue == 0.0 && morale == 1.0 && experience == 0.0 && avgAge == 18.0
      ensures formation == defaultFormation && troopDesc == DefaultTroopDesc
    {
      center := pos;
      direction := Vec2(1.0, 0.0);
      selectRadius := 0.0;
      interactionRadius := 0.0;
      formation := defaultFormation;
      formationPositions := [];
      goals := new GoalQueue([Idle(pos)]);
      selected := false;
      fatigue := 0.0;
      morale := 1.0;
      experience := 0.0;
      avgAge := 18.0;
      troopDesc := DefaultTroopDesc;
      troops := None;
    }

    /**
     * `calculate_formation(flen)`: rewrites every formation slot `i` with
     * `formation(i, w)`, `w` the row width fitted to `flen`; the number of
     * slots does not change.
     */
    method CalculateFormation(flen: real)
      modifies this`formationPositions
      ensures |formationPositions| == old(|formationPositions|)
      ensures forall i :: 0 <= i < |formationPositions| ==>
        formationPositions[i] == formation(i, FormWidth(flen))
    {
      var w := FormWidth(flen);
      var i := 0;
      while i < |formationPositions|
        invariant 0 <= i <= |formationPositions| == old(|formationPositions|)
        invariant forall j :: 0 <= j < i ==> formationPositions[j] == formation(j, w)
      {
        formationPositions := formationPositions[i := formation(i, w)];
        i := i + 1;
      }
    }

    /**
     * The goal step ending `p_b(dt)`: sums the distances `dist(i)` of the
     * unit's `n` agents from their slots and, when the sum is below `n`
     * times the margin, pops the front goal, refilling an emptied queue
     * with `Hold`.
     */
    method AdvanceGoals(dist: nat -> real, n: nat)
      modifies goals
      ensures goals.items == GoalsAfterStep(old(goals.items), SumDist(dist, n), n)
    {
      var cumDist := 0.0;
      var i := 0;
      while i < n
        invariant 0 <= i <= n
        invariant cumDist == SumDist(dist, i)
      {
        cumDist := cumDist + dist(i);
        i := i + 1;
      }
      if cumDist < n as real * DistMargin {
        var _ := goals.PopFront();
        var empty := goals.IsEmpty();
        if empty {
          goals.PushBack(Hold);
        }
      }
    }
  }

  /** `NUM_BASIC_UNITS`: the basic-unit counter, starting at zero. */
  method NewBasicUnitCounter() returns (counter: World.IdAllocator)
    ensures fresh(counter)
    ensures counter.capacity == BaseUnitCapacity && counter.issued == 0
  {
    counter := new World.IdAllocator(BaseUnitCapacity);
  }

  /**
   * `BasicUnit::generate_id`: the n-th id is 256 * (n + 1); ids are non-zero
   * multiples of 256, and a later id is larger than an earlier one by at
   * least 256: the generic `World` id lemmas instantiated at this file's own
   * `BASE_UNIT_CAPACITY`, a constant separate from the company one.
   */
  lemma BasicUnitIds(m: nat, n: nat)
    ensures World.NthId(BaseUnitCapacity, n) == 256 * (n + 1)
    ensures World.NthId(BaseUnitCapacity, n) % 256 == 0 && World.NthId(BaseUnitCapacity, n) >= 256
    ensures m < n ==> World.NthId(BaseUnitCapacity, m) + 256 <= World.NthId(BaseUnitCapacity, n)
  {
    World.NthIdAligned(BaseUnitCapacity, n);
    if m < n {
      World.NthIdIncreasing(BaseUnitCapacity, m, n);
    }
  }
}
