/**
 * Formation functions, goals and the goal queue (src/formations.rs; the
 * formation functions of src/formation.rs are a verbatim earlier revision of
 * the same code).
 */
module Formations {

  import opened Ops
  import opened Wrappers
  import Arith
  import World
  import Seqs

  /** Spacing between formation slots (`FORMATION_SPACING`, defined as 24 in src/boids.rs). */
  const FormationSpacing: real := 24.0

  /** `COMPANY_CAPACITY`: addresses reserved per company. */
  const CompanyCapacity: nat := 256

  /** `usize::checked_rem`: no remainder for a zero divisor. */
  function CheckedRem(a: nat, b: nat): (r: Option<nat>)
    ensures b == 0 <==> r == None
    ensures b > 0 ==> r == Some(a % b)
  {
    if b == 0 then None else Some(a % b)
  }

  /** `usize::checked_div`: no quotient for a zero divisor. */
  function CheckedDiv(a: nat, b: nat): (r: Option<nat>)
    ensures b == 0 <==> r == None
    ensures b > 0 ==> r == Some(a / b)
  {
    if b == 0 then None else Some(a / b)
  }

  /**
   * The grid cell of agent `index` in rows `width` wide:
   * `(index.checked_rem(width).unwrap_or_default(), index.checked_div(width).unwrap_or_default())`.
   */
  function Cell(index: nat, width: nat): (nat, nat)
  {
    (CheckedRem(index, width).UnwrapOr(0), CheckedDiv(index, width).UnwrapOr(0))
  }

  /** `phalanx_formation`: the grid cell as a vector (column along x, row along y). */
  function PhalanxFormation(index: nat, width: nat): Vec2
  {
    var c := Cell(index, width);
    Vec2(c.0 as real, c.1 as real)
  }

  /**
   * `p_f`: the directional variant; the column steps along `xdir` and the row
   * steps along `ydir`, and only the row step is multiplied by the spacing.
   */
  function PF(index: nat, width: nat, xdir: Vec2, ydir: Vec2): Vec2
  {
    var c := Cell(index, width);
    Add(Scale(xdir, c.0 as real), Scale(Scale(ydir, c.1 as real), FormationSpacing))
  }

  /** Inverse of `PhalanxFormation`: the index that sits in a cell of a `width`-wide grid. */
  function CellIndex(cell: Vec2, width: nat): int
  {
    cell.y.Floor * width + cell.x.Floor
  }

  /** Width 0 gives the origin cell for every index instead of dividing by zero. */
  lemma PhalanxZeroWidth(index: nat)
    ensures Cell(index, 0) == (0, 0)
    ensures PhalanxFormation(index, 0) == Zero
  {
  }

  /** For a positive width the cell is (index mod width, index div width). */
  lemma PhalanxCell(index: nat, width: nat)
    requires width > 0
    ensures Cell(index, width) == (index % width, index / width)
    ensures PhalanxFormation(index, width) == Vec2((index % width) as real, (index / width) as real)
  {
  }

  /**
   * For a positive width the column is below the width and row * width +
   * column gives the index back.
   */
  lemma PhalanxBounds(index: nat, width: nat)
    requires width > 0
    ensures Cell(index, width).0 < width
    ensures Cell(index, width).1 * width + Cell(index, width).0 == index
    ensures Cell(index, width).1 <= index
  {
    var c := Cell(index, width);
    assert c == (index % width, index / width);
    Arith.MulNonNeg(c.1, width - 1);
    assert c.1 * width == c.1 * (width - 1) + c.1;
  }

  /** `CellIndex` undoes `PhalanxFormation` for every index and positive width. */
  lemma CellIndexRoundTrip(index: nat, width: nat)
    requires width > 0
    ensures CellIndex(PhalanxFormation(index, width), width) == index
  {
    PhalanxBounds(index, width);
    var c := Cell(index, width);
    var v := PhalanxFormation(index, width);
    assert v.x.Floor == c.0 && v.y.Floor == c.1;
  }

  /** For a positive width distinct indices land in distinct cells. */
  lemma PhalanxInjective(i: nat, j: nat, width: nat)
    requires width > 0 && i != j
    ensures Cell(i, width) != Cell(j, width)
    ensures PhalanxFormation(i, width) != PhalanxFormation(j, width)
  {
    CellIndexRoundTrip(i, width);
    CellIndexRoundTrip(j, width);
  }

  /** Only the cells of width-many consecutive indices share a row. */
  lemma PhalanxRowOf(index: nat, width: nat, row: nat, col: nat)
    requires width > 0 && col < width && index == row * width + col
    ensures Cell(index, width) == (col, row)
  {
    Arith.DivModUnique(index, width, row, col);
  }

  /** Index 7: the origin with width 0, cell (1, 2) with width 3. */
  lemma PhalanxExamples()
    ensures PhalanxFormation(7, 0) == Vec2(0.0, 0.0)
    ensures PhalanxFormation(7, 3) == Vec2(1.0, 2.0)
  {
    PhalanxRowOf(7, 3, 2, 1);
  }

  /** `p_f` with width 0 is the zero vector whatever the directions. */
  lemma PFZeroWidth(index: nat, xdir: Vec2, ydir: Vec2)
    ensures PF(index, 0, xdir, ydir) == Zero
  {
  }

  /**
   * `p_f` is the phalanx cell mapped onto the given axes: the column scales
   * `xdir` as-is, the row scales `ydir` by the spacing; on the canonical axes
   * this is the phalanx cell with its row coordinate spaced out.
   */
  lemma PFAxes(index: nat, width: nat, xdir: Vec2, ydir: Vec2)
    ensures PF(index, width, xdir, ydir)
      == Add(Scale(xdir, PhalanxFormation(index, width).x),
             Scale(ydir, PhalanxFormation(index, width).y * FormationSpacing))
    ensures PF(index, width, Vec2(1.0, 0.0), Vec2(0.0, 1.0))
      == Vec2(PhalanxFormation(index, width).x, PhalanxFormation(index, width).y * FormationSpacing)
  {
  }

  /**
   * `(len / FORMATION_SPACING).round() as usize`: the number of slots per row
   * that fit a drag of length `len`, rounded to the nearest integer; the cast
   * saturates a negative quotient to 0.
   */
  function FormWidth(len: real): (w: nat)
    ensures len <= 0.0 ==> w == 0
    ensures len >= 0.0 ==> w as real - 0.5 <= len / FormationSpacing < w as real + 0.5
  {
    var q := len / FormationSpacing;
    if q < 0.0 then 0 else (q + 0.5).Floor
  }

  /** A drag shorter than half a spacing gives width 0; a whole number of spacings gives that number. */
  lemma FormWidthExamples(len: real, k: nat)
    ensures 0.0 <= len < FormationSpacing / 2.0 ==> FormWidth(len) == 0
    ensures FormWidth(k as real * FormationSpacing) == k
  {
    var w := FormWidth(k as real * FormationSpacing);
    assert k as real * FormationSpacing / FormationSpacing == k as real;
    assert w as real - 0.5 <= k as real < w as real + 0.5;
  }

  /**
   * `default_formation`: a slot drawn uniformly from the spacing square;
   * `u` and `v` are the two random draws, the index and width are ignored.
   */
  function DefaultFormation(index: nat, width: nat, u: real, v: real): (slot: Vec2)
    ensures 0.0 <= u < 1.0 && 0.0 <= v < 1.0 ==>
      0.0 <= slot.x < FormationSpacing && 0.0 <= slot.y < FormationSpacing
  {
    Vec2(u * FormationSpacing, v * FormationSpacing)
  }

  /** The acceptance test of `idle_formation`: the draw lies in the closed unit disc. */
  predicate InDisc(d: (real, real))
  {
    d.0 * d.0 + d.1 * d.1 <= 1.0
  }

  /**
   * `idle_formation`: rejection sampling of a point of the unit disc's first
   * quadrant, scaled by the spacing. `draws` is the sequence of random pairs
   * the loop would consume; `None` when all of them are rejected (the source
   * would keep drawing).
   */
  method IdleFormation(index: nat, width: nat, draws: seq<(real, real)>) returns (slot: Option<Vec2>)
    ensures Seqs.Find(draws, InDisc) == |draws| ==> slot == None
    ensures Seqs.Find(draws, InDisc) < |draws| ==>
      slot == Some(Vec2(draws[Seqs.Find(draws, InDisc)].0 * FormationSpacing,
                        draws[Seqs.Find(draws, InDisc)].1 * FormationSpacing))
  {
    if draws == [] {
      return None;
    }
    var x, y := draws[0].0, draws[0].1;
    var k := 0;
    while x * x + y * y > 1.0
      invariant 0 <= k < |draws| && (x, y) == draws[k]
      invariant forall j :: 0 <= j < k ==> !InDisc(draws[j])
      decreases |draws| - k
    {
      if k + 1 == |draws| {
        Seqs.FindUnique(draws, InDisc, |draws|);
        return None;
      }
      k := k + 1;
      x, y := draws[k].0, draws[k].1;
    }
    Seqs.FindUnique(draws, InDisc, k);
    slot := Some(Vec2(x * FormationSpacing, y * FormationSpacing));
  }

  /** An accepted idle slot from non-negative draws lies in the quarter disc of radius `FORMATION_SPACING`. */
  lemma IdleSlotInQuarterDisc(d: (real, real))
    requires InDisc(d) && d.0 >= 0.0 && d.1 >= 0.0
    ensures var s := Vec2(d.0 * FormationSpacing, d.1 * FormationSpacing);
      s.x >= 0.0 && s.y >= 0.0 && s.x * s.x + s.y * s.y <= FormationSpacing * FormationSpacing
  {
    var s := Vec2(d.0 * FormationSpacing, d.1 * FormationSpacing);
    assert s.x * s.x == 576.0 * (d.0 * d.0);
    assert s.y * s.y == 576.0 * (d.1 * d.1);
  }

  /** A group's directive; the goal queue holds them, front first. */
  datatype Goal =
    | Idle(point: Vec2)
    | Hold
    | Move(target: Vec2, facing: Vec2)
    | Column(point: Vec2)
    | Front(cornerA: Vec2, cornerB: Vec2, facing: Vec2)

  /** The `VecDeque<Goal>` a unit owns; `items[0]` is the active goal. */
  class GoalQueue {
    var items: seq<Goal>

    /** `VecDeque::from`. */
    constructor (goals: seq<Goal>)
      ensures items == goals
    {
      items := goals;
    }

    method PushBack(g: Goal)
      modifies this
      ensures items == old(items) + [g]
    {
      items := items + [g];
    }

    method PopFront() returns (front: Option<Goal>)
      modifies this
      ensures old(items) == [] ==> front == None && items == []
      ensures old(items) != [] ==> front == Some(old(items)[0]) && items == old(items)[1..]
    {
      if items == [] {
        front := None;
      } else {
        front := Some(items[0]);
        items := items[1..];
      }
    }

    method Clear()
      modifies this
      ensures items == []
    {
      items := [];
    }

    method IsEmpty() returns (empty: bool)
      ensures empty <==> items == []
    {
      empty := |items| == 0;
    }
  }

  /** `NUM_COMPANIES`: the company counter, starting at zero. */
  method NewCompanyCounter() returns (counter: World.IdAllocator)
    ensures fresh(counter)
    ensures counter.capacity == CompanyCapacity && counter.issued == 0
  {
    counter := new World.IdAllocator(CompanyCapacity);
  }

  /**
   * `Company::generate_id`: the n-th company gets 256 * (n + 1), a multiple
   * of the capacity from which n is recovered by division. This is the
   * generic `World.NthIdAligned` at this file's own `COMPANY_CAPACITY`, so
   * that the concrete ids the source produces are stated where the constant
   * is defined.
   */
  lemma CompanyIdDecodes(n: nat)
    ensures World.NthId(CompanyCapacity, n) == 256 * (n + 1)
    ensures World.NthId(CompanyCapacity, n) % CompanyCapacity == 0
    ensures World.NthId(CompanyCapacity, n) / CompanyCapacity - 1 == n
  {
    World.NthIdAligned(CompanyCapacity, n);
  }
}
