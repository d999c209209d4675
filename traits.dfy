/**
 * The order interface of src/traits.rs: `Controllable::assign_goals` turns a
 * player order into goal-queue edits on the unit's queue.
 */
module Traits {

  import opened Ops
  import opened Wrappers
  import opened Formations

  /**
   * The orders `assign_goals` matches on: a move to a point with an optional
   * facing, or forming a front between two corners; the `Add` variants
   * queue the order after the current ones instead of replacing them.
   */
  datatype PlayerAction =
    | None
    | Move(pos: Vec2, dir: Option<Vec2>)
    | AddMove(pos: Vec2, dir: Option<Vec2>)
    | FormUp(pos1: Vec2, pos2: Vec2)
    | AddFormUp(pos1: Vec2, pos2: Vec2)

  /** The move goal of an order, facing `dir` or else the unit's `direction`. */
  function MoveGoal(pos: Vec2, dir: Option<Vec2>, direction: Vec2): (g: Goal)
    ensures g.Move? && g.target == pos
    ensures dir.Some? ==> g.facing == dir.value
    ensures dir.None? ==> g.facing == direction
  {
    Goal.Move(pos, dir.UnwrapOr(direction))
  }

  /**
   * The front goal of a form-up order: the corners are stored as (pos2, pos1)
   * and the facing is half the corner-to-corner vector minus the unit's centre.
   */
  function FrontGoal(pos1: Vec2, pos2: Vec2, center: Vec2): (g: Goal)
    ensures g.Front? && g.cornerA == pos2 && g.cornerB == pos1
    ensures Add(g.facing, center) == Scale(Sub(pos2, pos1), 0.5)
  {
    Front(pos2, pos1, Sub(Scale(Sub(pos2, pos1), 0.5), center))
  }

  /** The goal an order issues, for the orders that issue one. */
  function IssuedGoal(action: PlayerAction, direction: Vec2, center: Vec2): Goal
    requires !action.None?
  {
    match action
    case Move(pos, dir) => MoveGoal(pos, dir, direction)
    case AddMove(pos, dir) => MoveGoal(pos, dir, direction)
    case FormUp(pos1, pos2) => FrontGoal(pos1, pos2, center)
    case AddFormUp(pos1, pos2) => FrontGoal(pos1, pos2, center)
  }

  predicate IsAddAction(action: PlayerAction)
  {
    action.AddMove? || action.AddFormUp?
  }

  /** The queue after `assign_goals(action)` on a queue `g`. */
  function AssignedGoals(g: seq<Goal>, direction: Vec2, center: Vec2, action: PlayerAction): seq<Goal>
  {
    if action.None? then g
    else if IsAddAction(action) then g + [IssuedGoal(action, direction, center)]
    else [IssuedGoal(action, direction, center)]
  }

  /**
   * `assign_goals`: `None` does nothing; `Move` and `FormUp` clear the queue
   * and push their goal; `AddMove` and `AddFormUp` push it at the back.
   * `direction` and `center` are the unit's own fields.
   */
  method AssignGoals(goals: GoalQueue, direction: Vec2, center: Vec2, action: PlayerAction)
    modifies goals
    ensures goals.items == AssignedGoals(old(goals.items), direction, center, action)
  {
    match action
    case None =>
    case Move(pos, dir) =>
      goals.Clear();
      goals.PushBack(Goal.Move(pos, dir.UnwrapOr(direction)));
    case AddMove(pos, dir) =>
      goals.PushBack(Goal.Move(pos, dir.UnwrapOr(direction)));
    case FormUp(pos1, pos2) =>
      var centerFront := Scale(Sub(pos2, pos1), 0.5);
      var dir := Sub(centerFront, center);
      goals.Clear();
      goals.PushBack(Front(pos2, pos1, dir));
    case AddFormUp(pos1, pos2) =>
      var centerFront := Scale(Sub(pos2, pos1), 0.5);
      var dir := Sub(centerFront, center);
      goals.PushBack(Front(pos2, pos1, dir));
  }

  /** `None` leaves the queue as it was. */
  lemma NoneKeepsGoals(g: seq<Goal>, direction: Vec2, center: Vec2)
    ensures AssignedGoals(g, direction, center, PlayerAction.None) == g
  {
  }

  /**
   * A plain order replaces the whole queue by its one goal: exactly
   * `[Move(pos, dir or direction)]` or `[Front(pos2, pos1, facing)]`.
   */
  lemma PlainOrderReplaces(g: seq<Goal>, direction: Vec2, center: Vec2, action: PlayerAction)
    requires action.Move? || action.FormUp?
    ensures |AssignedGoals(g, direction, center, action)| == 1
    ensures action.Move? ==>
      AssignedGoals(g, direction, center, action)
        == [Goal.Move(action.pos, if action.dir.Some? then action.dir.value else direction)]
    ensures action.FormUp? ==>
      AssignedGoals(g, direction, center, action)
        == [Front(action.pos2, action.pos1, Sub(Scale(Sub(action.pos2, action.pos1), 0.5), center))]
  {
  }

  /**
   * An `Add` order appends its goal: the queue grows by exactly one, the
   * earlier goals stay in order in front, so the active goal is unchanged.
   */
  lemma AddOrderAppends(g: seq<Goal>, direction: Vec2, center: Vec2, action: PlayerAction)
    requires IsAddAction(action)
    ensures |AssignedGoals(g, direction, center, action)| == |g| + 1
    ensures AssignedGoals(g, direction, center, action)[..|g|] == g
    ensures forall i :: 0 <= i < |g| ==> AssignedGoals(g, direction, center, action)[i] == g[i]
    ensures AssignedGoals(g, direction, center, action)[|g|] == IssuedGoal(action, direction, center)
    ensures g != [] ==> AssignedGoals(g, direction, center, action)[0] == g[0]
  {
  }

  /**
   * An `Add` order issues the same goal as its plain twin: the two differ
   * only in whether earlier goals are kept.
   */
  lemma AddIsAppendOfPlain(g: seq<Goal>, direction: Vec2, center: Vec2, pos: Vec2, dir: Option<Vec2>, p1: Vec2, p2: Vec2)
    ensures AssignedGoals(g, direction, center, AddMove(pos, dir))
      == g + AssignedGoals(g, direction, center, PlayerAction.Move(pos, dir))
    ensures AssignedGoals(g, direction, center, AddFormUp(p1, p2))
      == g + AssignedGoals(g, direction, center, FormUp(p1, p2))
  {
  }

  /** An order never empties a queue, and any order other than `None` leaves a non-empty one. */
  lemma AssignKeepsNonEmpty(g: seq<Goal>, direction: Vec2, center: Vec2, action: PlayerAction)
    ensures g != [] ==> AssignedGoals(g, direction, center, action) != []
    ensures !action.None? ==> AssignedGoals(g, direction, center, action) != []
  {
  }
}
