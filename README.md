# Boids: a verified model of the discrete core

This project is a Dafny model of the deterministic core of a Rust boids and
formation-battle simulation. Agents ("boids") live in a structure-of-arrays
store. They are grouped into units that walk in grid formations and work
through a queue of goals. The player drives the units by selecting them with
the mouse and issuing orders.

The model covers:

- **`Ops`** (`src/ops.rs`): the `Vec2f` algebra over exact reals.
  - `abs`, `man`, `normalise`, `clampret`, in-place `clamp` and `rot_align`.
  - Euclidean length is a caller-supplied value `l` with `IsLen(v, l)`, which
    means `l >= 0` and `l*l == x*x + y*y`.
- **`Formations`** (`src/formations.rs` and its earlier revision
  `src/formation.rs`).
  - The grid mapping behind `phalanx_formation` and `p_f`, including the
    zero-width case handled by `checked_rem`/`checked_div`.
  - The row width fitted to a drag length.
  - The two random formations, with their random draws as inputs.
  - The `Goal` enum and the unit's `VecDeque<Goal>` as a `GoalQueue` object.
  - Company id allocation.
- **`World`** (`src/world.rs`): `WorldId` is a `nat`. The global `fetch_add`
  counters become an `IdAllocator` object whose n-th id is
  `capacity * (n + 1)`.
- **`Boids`** (`src/boids.rs`).
  - Agent state and the `BoidVec` columns, with `zeros` and `random`.
  - The discrete per-agent rule of `upd_position`: stop on arrival, otherwise
    march.
- **`Units`** (`src/units.rs`).
  - `BasicUnit::new` and `calculate_formation`.
  - The goal step that ends `p_b`: pop the goal on arrival, refill with `Hold`.
  - Basic-unit ids.
- **`Traits`** (`src/traits.rs`): `Controllable::assign_goals`, which turns an
  order into goal-queue edits.
- **`Player`** (`src/player.rs`): `PlayerState` and
  `update_player_action`.
  - Ctrl toggle, clear, first select.
  - Drill up from a boid to its container, and drill down from a container to
    one of its boids.
  - Step to a neighbour boid.
  - The right-button action.
- **`Seqs`** and **`Wrappers`**: `Iterator::find`, `drain_filter`-style
  filtering and `Option::unwrap_or`, shared by the modules above.

Where code and intent diverge, the model follows the code. For example,
`FormUp` stores its corners swapped as `Front(pos2, pos1, ..)`. Its facing is
half the corner-to-corner vector minus the unit centre, not measured from the
front's midpoint. The "neighbour" search in the selection code always lands on
the first hit boid, because at that point no hit boid is selected.

Some code cannot compile as written, and the model follows the evident intent
of those lines:

- `p_b` reads a missing `self.ent`. The model takes the agents' slot
  distances and their count as inputs.
- `Company::new` returns `()`.
- `assign_goals` mutates through `&`. The model gives it the unit's queue
  object to modify.
- `assign_goals` matches on `PlayerAction` variants that the `PlayerAction`
  it imports (`src/player.rs:37-45`) does not have: `Move(pos, dir)`,
  `AddMove`, `FormUp(pos1, pos2)` and `AddFormUp`. The model takes its order
  type, `Traits.PlayerAction`, from those patterns (`src/traits.rs:26-45`).
  As a result, the player's `Player.PlayerAction` (`Move(r2)`,
  `FormUp(r2 - r1)`) and the orders `Traits.AssignGoals` consumes are two
  separate types, and nothing in the model connects them.
- `assign_goals` reads `self.direction` and `self.center`, which the trait
  does not have. The model passes the unit's direction and centre as
  parameters.
- `FORMATION_SPACING` is imported from modules that do not define it. The
  model uses the value 24 that `src/boids.rs:38` defines.

## Model

| member | source | states |
|---|---|---|
| Wrappers.Option.UnwrapOr | src/formations.rs:29-30 | `Some(v)` yields `v`, `None` yields the default |
| Ops.AbsReal | src/ops.rs:42-47 | the result is non-negative and is `r` or `-r` |
| Ops.Abs | src/ops.rs:42-47 | each component is non-negative and equals the input component up to sign |
| Ops.Man | src/ops.rs:53-56 | `|x| + |y|`, non-negative, and zero exactly for the zero vector |
| Ops.SubUndoesAdd | src/ops.rs:11-13 | `(a + b) - b == a`, `+` commutes, `a + (-a)` is zero, `a - b == a + (-b)` |
| Ops.ScaleDistributes | src/ops.rs:14 | scaling distributes over `+`, composes by multiplication, 1 and 0 act as identity and annihilator |
| Ops.LenUnique | src/ops.rs:49-51 | a vector has exactly one length |
| Ops.LenZeroIff | src/ops.rs:49-51 | the length is zero if and only if the vector is zero |
| Ops.LenAtMostMan | src/ops.rs:49-56 | the Euclidean length never exceeds the Manhattan length |
| Ops.UnitAfterDivide | src/ops.rs:66-76 | dividing by a non-zero length gives squared length 1 |
| Ops.Normalise | src/ops.rs:66-76 | zero length returns the vector itself, which is then zero (no division); otherwise the result is `v / l` of length 1 |
| Ops.ClampRet | src/ops.rs:78-87 | a vector no longer than `max` is returned unchanged; a longer one becomes `v * (max / l)`, of length exactly `|max|`, which is `max` when `max >= 0` and the reversed vector for a negative `max` |
| Ops.ScaleLen | src/ops.rs:78-87 | scaling by `k` multiplies the length by `|k|` |
| Ops.ClampWithinMax | src/ops.rs:128-138 | after clamping, every length the vector has is at most `max` |
| Ops.Clamp | src/ops.rs:58-64 | the in-place per-component division by `l / max` gives the same vector as `ClampRet`: unchanged when short, length `|max|` otherwise |
| Ops.RotAlign | src/ops.rs:89-105 | a zero-length `other` returns `v` unchanged instead of dividing by zero |
| Ops.BasisLenIsOne | src/ops.rs:89-94 | the reference direction (1, 0) has length 1 |
| Ops.RotAlignBasis | src/ops.rs:89-105 | aligning with (1, 0) is the identity |
| Ops.RotAlignTurnsBasis | src/ops.rs:89-105 | the rotation takes (1, 0) to the direction of `other`, i.e. to `normalise(other)` |
| Ops.RotAlignKeepsLen | src/ops.rs:97-104 | `rot_align` is a rotation: it keeps the length of `v` |
| World.NthIdAligned | src/units.rs:185-188 | the n-th id is a multiple of the capacity, at least the capacity, and id / capacity recovers n + 1 |
| World.NthIdIncreasing | src/units.rs:185-188 | a later id exceeds an earlier one by at least the capacity |
| World.NthIdInjective | src/formations.rs:138-142 | distinct counter values give distinct ids |
| World.IdAllocator.constructor | src/units.rs:182 | the counter starts at zero |
| World.IdAllocator.GenerateId | src/units.rs:186-187 | returns `capacity * (n + 1)` for counter value `n`, bumps the counter by exactly one, and the id exceeds every id issued before |
| Formations.CheckedRem | src/formations.rs:29 | `None` exactly for a zero divisor, else the remainder |
| Formations.CheckedDiv | src/formations.rs:30 | `None` exactly for a zero divisor, else the quotient |
| Formations.PhalanxZeroWidth | src/formations.rs:27-32 | width 0 puts every index at cell (0, 0) |
| Formations.PhalanxCell | src/formation.rs:19-24 | for width > 0 the cell is `(i mod w, i div w)` |
| Formations.PhalanxBounds | src/formations.rs:27-32 | for width > 0 the column is below the width, `row * w + column == i`, and the row is at most `i` |
| Formations.CellIndexRoundTrip | src/formation.rs:19-24 | for width > 0 the index is recovered from the cell |
| Formations.PhalanxInjective | src/formations.rs:27-32 | for width > 0 distinct indices get distinct cells |
| Formations.PhalanxRowOf | src/formations.rs:27-32 | index `row * w + col` with `col < w` lands in cell `(col, row)` |
| Formations.PhalanxExamples | src/formations.rs:27-32 | index 7 is at (0, 0) for width 0 and at (1, 2) for width 3 |
| Formations.PFZeroWidth | src/formation.rs:26-31 | `p_f` with width 0 is the zero vector for any directions |
| Formations.PFAxes | src/formations.rs:38 | `p_f` is `xdir * column + ydir * (row * FORMATION_SPACING)`: only the row axis is spaced |
| Formations.FormWidth | src/units.rs:123 | the width is the integer nearest to `len / FORMATION_SPACING`, and 0 for a non-positive length |
| Formations.FormWidthExamples | src/units.rs:123 | a drag under half a spacing gives width 0, and `k` whole spacings give width `k` |
| Formations.DefaultFormation | src/formations.rs:15-21 | draws in [0, 1) give a slot in the square [0, FORMATION_SPACING)² |
| Formations.IdleFormation | src/formations.rs:41-55 | the result comes from the first draw inside the unit disc, scaled by the spacing; `None` if every draw is rejected |
| Formations.IdleSlotInQuarterDisc | src/formation.rs:32-46 | an accepted slot lies in the quarter disc of radius FORMATION_SPACING |
| Formations.GoalQueue.constructor | src/units.rs:113 | the queue holds exactly the given goals |
| Formations.GoalQueue.PushBack | src/units.rs:174 | appends at the back |
| Formations.GoalQueue.PopFront | src/units.rs:172 | removes and returns the front goal, or returns `None` and leaves an empty queue |
| Formations.GoalQueue.Clear | src/traits.rs:27 | empties the queue |
| Formations.GoalQueue.IsEmpty | src/units.rs:173 | true exactly when the queue holds no goal |
| Formations.NewCompanyCounter | src/formations.rs:136 | a company counter with capacity 256 starting at zero |
| Formations.CompanyIdDecodes | src/formations.rs:138-142 | the n-th company id is `256 * (n + 1)`, a multiple of 256 from which n is recovered |
| Boids.Ramp | src/boids.rs:46-58 | the colour is grey `c` in [0, 1) with alpha `1.2 - c` |
| Boids.RandomBoidInRange | src/boids.rs:47-59 | with draws in [0, 1) a random agent sits in [0, SPREAD)², has velocity in [-VEL_SPREAD/2, VEL_SPREAD/2)², and starts `Stationary` |
| Boids.StepArrived | src/boids.rs:111-114 | an agent closer than 1 becomes `Stationary` with zero velocity and keeps its position, heading and colour |
| Boids.StepMarching | src/boids.rs:115-137 | an agent at distance `>= 1` becomes `Marching`, takes the new velocity, moves by `vel * dt`, and keeps its heading when none is computed |
| Boids.StepArrivedFrozen | src/boids.rs:111-114 | an arrived agent that stays within the margin no longer changes |
| Boids.InlineGridOffset | src/boids.rs:146-171 | the inline grid offset is zero for width 0; index 1 at width 0 gives zero, and index 14 at width 5 does not |
| Boids.BoidVec.WithCapacity | src/boids.rs:42 | an empty store whose columns agree in length |
| Boids.BoidVec.Push | src/boids.rs:24-31 | each column grows by exactly the new agent's field, earlier rows are unchanged, and the columns stay equally long |
| Boids.BoidVec.Zeros | src/boids.rs:65-74 | `num` default agents: zero position, velocity and heading, `Stationary`, zero colour |
| Boids.BoidVec.Random | src/boids.rs:41-63 | `num` agents, where agent `i` is built from its draws with colour ramp `i / num` |
| Boids.BoidVec.UpdPosition | src/boids.rs:85-138 | the agent count is unchanged, and each agent is its own step function of its distance and steering, with no other index touched |
| Units.PopGoalKeepsOrder | src/units.rs:171-175 | popping drops exactly the front goal and keeps the rest in order; a queue of at most one goal becomes `[Hold]` |
| Units.StepWithoutArrival | src/units.rs:171 | when `cum_dist >= n * DIST_MARGIN` the queue is unchanged |
| Units.StepKeepsNonEmpty | src/units.rs:171-176 | a non-empty queue stays non-empty, and an arriving step always leaves a non-empty queue |
| Units.HoldIsFixed | src/units.rs:173-175 | a queue of just `Hold` stays `[Hold]` after any number of arrivals |
| Units.ArrivalsExhaustToHold | src/units.rs:171-176 | after as many arrivals as there are goals, and at least one, the queue is exactly `[Hold]` |
| Units.ArrivalsDropPrefix | src/units.rs:171-172 | after `k < |goals|` arrivals the queue is the untouched suffix `goals[k..]` |
| Units.AllNearArrives | src/units.rs:147-148 | if every one of `n > 0` agents is within the margin, `cum_dist` is below `n * DIST_MARGIN` |
| Units.AllFarHolds | src/units.rs:147-148 | if every agent is at least the margin away, `cum_dist` reaches `n * DIST_MARGIN` |
| Units.BasicUnit.constructor | src/units.rs:103-120 | goals are exactly `[Idle(pos)]`; center is `pos`; direction is (1, 0); not selected; empty formation positions; no troops; morale 1; age 18; other fields zero or default |
| Units.BasicUnit.CalculateFormation | src/units.rs:122-128 | slot `i` becomes `formation(i, width)` for every `i`, and the slot count is unchanged |
| Units.BasicUnit.AdvanceGoals | src/units.rs:130-177 | sums the agents' distances into `cum_dist`; then pops the front goal and refills with `Hold` exactly when `cum_dist < n * DIST_MARGIN` |
| Units.NewBasicUnitCounter | src/units.rs:182 | the basic-unit counter has capacity 256 and starts at zero |
| Units.BasicUnitIds | src/units.rs:184-188 | ids are `256 * (n + 1)`: non-zero multiples of 256, each at least 256 above the one before |
| Traits.MoveGoal | src/traits.rs:28 | a move goal to `pos`, facing the given direction or else the unit's own |
| Traits.FrontGoal | src/traits.rs:33-38 | a front goal with corners stored as `(pos2, pos1)`, whose facing plus the centre is `(pos2 - pos1) * 0.5` |
| Traits.AssignGoals | src/traits.rs:23-47 | the queue after the call is the order's effect on the old queue |
| Traits.NoneKeepsGoals | src/traits.rs:25 | `None` leaves the queue unchanged |
| Traits.PlainOrderReplaces | src/traits.rs:26-39 | `Move` leaves exactly `[Move(pos, dir or direction)]`; `FormUp` leaves exactly `[Front(pos2, pos1, (pos2 - pos1) * 0.5 - center)]` |
| Traits.AddOrderAppends | src/traits.rs:30-45 | `AddMove` and `AddFormUp` grow the queue by one, keep the earlier goals in order, and keep the active goal |
| Traits.AddIsAppendOfPlain | src/traits.rs:26-45 | each add order appends exactly the queue its plain twin would leave |
| Traits.AssignKeepsNonEmpty | src/traits.rs:23-47 | no order empties a queue, and every order except `None` leaves a non-empty one |
| Seqs.Find | src/player.rs:99-101 | the first index whose element satisfies the test, or the length if none does |
| Seqs.FindUnique | src/player.rs:114 | any index meeting the first-match contract is `Find`'s |
| Seqs.Filter | src/player.rs:78-79 | holds exactly the elements that pass the test, and is no longer than the input |
| Seqs.FilterAppend | src/player.rs:78-80 | filtering keeps order: the filter of a concatenation is the concatenation of the filters |
| Seqs.FilterPartition | src/player.rs:78-80 | a test's filter and its negation's filter together are a permutation of the input |
| Seqs.FindAgree | src/player.rs:114 | two tests that agree on the elements find the same index |
| Seqs.FindInFilter | src/player.rs:99-101 | the first match among the kept elements is the first element that is both kept and a match |
| Player.ToggleAllParity | src/player.rs:58-70 | after the ctrl loop an id is selected exactly when "it was selected" differs from "it was hit an odd number of times" |
| Player.ToggleAllDistinct | src/player.rs:58-70 | with distinct hits, the hit ids flip and all others stay |
| Player.ToggleAllTwice | src/player.rs:58-70 | ctrl-clicking the same hits twice restores the selection |
| Player.HitsPartition | src/player.rs:78-80 | containers and boids together are a permutation of the hits; each holds exactly the hits of its kind |
| Player.CtrlClickToggles | src/player.rs:58-70 | a ctrl-click with distinct hits gives the symmetric difference of the selection and the hits |
| Player.PlainClickBasics | src/player.rs:71-75 | a click on nothing clears the selection; a hit with nothing selected selects exactly the first hit |
| Player.ClickDrillsUp | src/player.rs:86-94 | if a selected boid is hit, the selection becomes exactly the container of the first such hit |
| Player.ClickDrillsDown | src/player.rs:98-111 | otherwise, if a selected container is hit, the selection becomes that container's first hit boid, or empty |
| Player.ClickMovesToNeighbour | src/player.rs:114-117 | otherwise the first hit boid becomes the only selection; with no hit boid the selection is unchanged |
| Player.ActionRules | src/player.rs:123-134 | a left press keeps the action; a right click is `Move(r2)`; a right drag is `FormUp(r2 - r1)`; no click gives `None` |
| Player.PlayerState.constructor | src/player.rs:8-35 | every field is defaulted: no selection and action `None` |
| Player.PlayerState.UpdatePlayerAction | src/player.rs:48-135 | a left click sets the selection to the click rule's result; a left drag, or any right or no click, leaves the selection unchanged; the action follows the button rule |

## Left out

- `Ops` takes lengths as input. `len()` computes a square root, which the
  model cannot evaluate. Every operation that uses it takes the length as a
  parameter constrained by `IsLen`.
- All `f64`/`f32` semantics are out: rounding, infinities, NaN and
  `is_normal`. The model computes over exact reals. The one IEEE effect the
  code relies on is kept: `clamp` with `max == 0` divides by an infinite
  quotient and gives zero.
- Ops.ClampRet: the zero vector with a negative `max` is excluded by the
  precondition. There the `f64` code computes `0 / 0 * max`, which is NaN.
  For a non-zero vector a negative `max` is modelled: the result is the
  reversed vector of length `|max|`.
- Ops.Clamp: the same exclusion, because `l / max` is `0 / max` and each
  component becomes `0 / 0`.
- Ops.ClampWithinMax: stated for `max >= 0` only, as the `clamp_works`
  property (`src/ops.rs:130`) skips `f < 0`.
- Ops.Clamp: modelled as a method that returns the updated value. `Vec2f` is
  a `Copy` value, so its in-place update has no aliasing to model.
- Boids.BoidVec.UpdPosition: the float steering is left out. This covers the
  target computation through `rot_align`, `d.clamp(ACC_MAX)`, the velocity
  clamp to `VEL_MAX.min(dist)`, `atan2` and the `is_normal` test. Each agent's
  distance to its slot and its steering result (new velocity, optional
  heading) are inputs. The `println!` is dropped.
- Units.BasicUnit.AdvanceGoals: the per-agent float steering inside `p_b`
  (`src/units.rs:156-165`) is left out. Each agent's slot distance and the
  agent count are inputs, standing in for the missing `self.ent`. The
  `formation_positions[i]` bounds check is not modelled.
- Randomness is taken as input:
  - `rand::thread_rng` draws in `random`, `default_formation` and
    `idle_formation`;
  - `BasicUnit::new`'s `default_formation` is a function parameter.
  - Formations.IdleFormation: given a finite sequence of draws it returns
    `None` when all are rejected, where the source would keep drawing.
- Player.PlayerState.UpdatePlayerAction leaves these parameters abstract:
  - `world.get_ids_at` becomes the `hits` parameter.
  - `CLICK_PRECISION` is not part of this model and is a parameter.
  - `is_container`, `get_boid_container` and `is_boid_of_container` are not
    defined in any shown source file, so they are function parameters.
  - The left drag's `get_ids_in_rect` result is unused, so it is not modelled.
  - The debug `println!` calls are dropped.
- Player.PlayerState.UpdatePlayerAction requires that `get_boid_container`
  succeeds for the boid whose container is selected. The source `unwrap`s it
  and would panic otherwise.
- `usize` bounds are not modelled. Indices, widths, counters and ids are
  unbounded `nat`s, and the `256 * (n + 1)` overflow and the atomic counters'
  `Ordering::Relaxed` concurrency are out of scope. `ranged_ammo: u8` is a
  `nat`.
- The `f32` colour, `TroopDesc` and morale-style fields are plain
  reals and naturals.
- `Company::new` is not modelled separately: it builds the same record as
  `BasicUnit::new` and returns `()`.
- The trait impls and group types outside the core are not modelled:
  `Clickable`, `Selectable`, `Drawable`, `get_id`, `CompositeUnit`,
  `DrillStep` and `Unit`. Their members are `todo!()`, empty, or cannot
  compile. `Selectable::select` only sets `selected = true`, through `&self`
  (`src/traits.rs:13-15`). `Unit::generate_id` only dispatches to the
  variants' own `generate_id` (`src/units.rs:60-66`).
- Serde derives and the `#[serde(skip)]` formation field are not modelled.
  `src/container.rs`, `src/interaction.rs`, `src/app.rs`, `src/drawable.rs`,
  `src/main.rs`, `src/lib.rs`, `World::single_container` and the benches are
  not part of this model. They are stubs, rendering, input decoding, timing,
  or calls into undefined code.
- `phalanx_formation` and `p_f` in `src/formation.rs` are a verbatim earlier
  revision of those in `src/formations.rs`, so one definition models both.
  The same holds for the `Goal` enum of `src/units.rs`, which `Formations`
  defines once.
