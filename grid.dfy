/** Board primitives shared by both agents: positions, relative moves, the
    Chebyshev distance and the barrier grid each agent keeps over its
    oversized working area. */
module Grid {

  /** Side of the square working grid; the real board is assumed smaller. */
  const WeightDimensions: int := 100

  /** A cell of the board: `i` is the row, `j` the column. */
  datatype Position = Position(i: int, j: int)

  /** A relative move; each component is -1, 0 or 1 for the nine moves. */
  datatype Direction = Direction(i: int, j: int)

  /** The "stay" move. */
  const Stay: Direction := Direction(0, 0)

  /** The sampler's fallback move, one column to the right. */
  const DirRight: Direction := Direction(0, 1)

  /** A sentinel outside the working grid, used before any move was intended. */
  const InvalidPosition: Position := Position(-1, -1)

  predicate IsUnit(d: Direction) {
    -1 <= d.i <= 1 && -1 <= d.j <= 1
  }

  predicate InGrid(p: Position) {
    0 <= p.i < WeightDimensions && 0 <= p.j < WeightDimensions
  }

  /** A position all nine of whose neighbours (itself included) lie in the grid. */
  predicate InInterior(p: Position) {
    1 <= p.i < WeightDimensions - 1 && 1 <= p.j < WeightDimensions - 1
  }

  /** Applying a move adds it componentwise. */
  function MovePosition(p: Position, d: Direction): Position {
    Position(p.i + d.i, p.j + d.j)
  }

  function Min(a: int, b: int): int {
    if a < b then a else b
  }

  function Max(a: int, b: int): int {
    if a > b then a else b
  }

  function Abs(x: int): int {
    if x < 0 then -x else x
  }

  /** The number of king moves between two cells (Chebyshev distance). */
  function Distance(p: Position, q: Position): int {
    Max(Abs(p.i - q.i), Abs(p.j - q.j))
  }

  /** The distance is the larger of the two coordinate gaps, and zero exactly
      between a cell and itself. */
  lemma DistanceIsChebyshev(p: Position, q: Position)
    ensures Distance(p, q) >= 0
    ensures Distance(p, q) >= Abs(p.i - q.i) && Distance(p, q) >= Abs(p.j - q.j)
    ensures Distance(p, q) == Abs(p.i - q.i) || Distance(p, q) == Abs(p.j - q.j)
    ensures Distance(p, q) == 0 <==> p == q
  {
  }

  /** The triangle inequality of the distance. */
  lemma DistanceTriangle(p: Position, q: Position, e: Position)
    ensures Distance(p, e) <= Distance(p, q) + Distance(q, e)
  {
  }

  /** Entry (i, j) of the 3×3 move-weight matrix stands for move (i - 1, j - 1). */
  function MoveWeightToDirection(i: int, j: int): (d: Direction)
    ensures 0 <= i < 3 && 0 <= j < 3 ==> IsUnit(d)
    ensures d == Stay <==> i == 1 && j == 1
  {
    Direction(i - 1, j - 1)
  }

  /** Distinct entries stand for distinct moves. */
  lemma MoveWeightToDirectionInjective(i: int, j: int, i': int, j': int)
    requires MoveWeightToDirection(i, j) == MoveWeightToDirection(i', j')
    ensures i == i' && j == j'
  {
  }

  /** Every one of the nine moves is the move of exactly one matrix entry. */
  lemma EveryMoveHasAnEntry(d: Direction)
    requires IsUnit(d)
    ensures 0 <= d.i + 1 < 3 && 0 <= d.j + 1 < 3
    ensures MoveWeightToDirection(d.i + 1, d.j + 1) == d
  {
  }

  /** A barrier grid covers the whole working area. */
  predicate IsBarrierGrid(barriers: array2<bool>) {
    barriers.Length0 == WeightDimensions && barriers.Length1 == WeightDimensions
  }

  /** Row 0 and column 0 are blocked. */
  ghost predicate BorderBlocked(barriers: array2<bool>)
    reads barriers
    requires IsBarrierGrid(barriers)
  {
    forall k :: 0 <= k < WeightDimensions ==> barriers[0, k] && barriers[k, 0]
  }

  /** Blocks row 0 and column 0 and clears every other cell. */
  method InitBarriers(barriers: array2<bool>)
    requires IsBarrierGrid(barriers)
    modifies barriers
    ensures forall i, j :: 0 <= i < WeightDimensions && 0 <= j < WeightDimensions ==>
      (barriers[i, j] <==> i == 0 || j == 0)
    ensures BorderBlocked(barriers)
  {
    for i := 0 to WeightDimensions
      invariant forall i', j' :: 0 <= i' < i && 0 <= j' < WeightDimensions ==>
        (barriers[i', j'] <==> i' == 0 || j' == 0)
    {
      for j := 0 to WeightDimensions
        invariant forall i', j' :: 0 <= i' < i && 0 <= j' < WeightDimensions ==>
          (barriers[i', j'] <==> i' == 0 || j' == 0)
        invariant forall j' :: 0 <= j' < j ==> (barriers[i, j'] <==> i == 0 || j' == 0)
      {
        if i == 0 || j == 0 {
          barriers[i, j] := true;
        } else {
          barriers[i, j] := false;
        }
      }
    }
  }

  function IsBarrierAt(barriers: array2<bool>, p: Position): bool
    reads barriers
    requires IsBarrierGrid(barriers) && InGrid(p)
  {
    barriers[p.i, p.j]
  }

  /** The lookup of a border cell reports a barrier for as long as the border
      stays blocked. */
  lemma BorderIsBarrier(barriers: array2<bool>, p: Position)
    requires IsBarrierGrid(barriers) && BorderBlocked(barriers) && InGrid(p)
    requires p.i == 0 || p.j == 0
    ensures IsBarrierAt(barriers, p)
  {
  }
}
