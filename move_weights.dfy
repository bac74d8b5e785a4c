/** The weight engine and the decision sampler shared by both agents: a
    3×3 integer matrix whose entry (i, j) scores the move (i - 1, j - 1),
    built from all ones by four multiplicative stages, and a weighted draw
    that walks the matrix in row-major order. */
module MoveWeights {
  import opened Grid

  /** Row-major index of entry (i, j). */
  function Cell(i: int, j: int): int {
    3 * i + j
  }

  /** The row of row-major index k. */
  function RowOf(k: int): (i: int)
    ensures 0 <= k < 9 ==> 0 <= i < 3 && 3 * i <= k < 3 * i + 3
  {
    if k < 3 then 0 else if k < 6 then 1 else 2
  }

  /** The column of row-major index k. */
  function ColumnOf(k: int): (j: int)
    ensures 0 <= k < 9 ==> 0 <= j < 3 && k == Cell(RowOf(k), j)
  {
    k - 3 * RowOf(k)
  }

  lemma CellRowColumn(i: int, j: int)
    requires 0 <= i < 3 && 0 <= j < 3
    ensures 0 <= Cell(i, j) < 9
    ensures RowOf(Cell(i, j)) == i && ColumnOf(Cell(i, j)) == j
  {
  }

  /** Two nine-entry sequences that agree entry by entry are equal. */
  lemma {:induction false} SameCells<T>(s: seq<T>, t: seq<T>)
    requires |s| == 9 && |t| == 9
    requires forall i, j :: 0 <= i < 3 && 0 <= j < 3 ==> s[Cell(i, j)] == t[Cell(i, j)]
    ensures s == t
  {
    forall k | 0 <= k < 9
      ensures s[k] == t[k]
    {
      assert k == Cell(RowOf(k), ColumnOf(k));
    }
  }

  predicate Is3x3(w: array2<int>) {
    w.Length0 == 3 && w.Length1 == 3
  }

  /** The nine entries of `w` in row-major order. */
  function Cells(w: array2<int>): (s: seq<int>)
    reads w
    requires Is3x3(w)
    ensures |s| == 9
  {
    [w[0, 0], w[0, 1], w[0, 2], w[1, 0], w[1, 1], w[1, 2], w[2, 0], w[2, 1], w[2, 2]]
  }

  lemma CellsAt(w: array2<int>)
    requires Is3x3(w)
    ensures forall i, j :: 0 <= i < 3 && 0 <= j < 3 ==> Cells(w)[Cell(i, j)] == w[i, j]
  {
    forall i, j | 0 <= i < 3 && 0 <= j < 3
      ensures Cells(w)[Cell(i, j)] == w[i, j]
    {
      // The empty branches split the goal into the nine literal indices.
      if i == 0 {
        if j == 0 {} else if j == 1 {} else {}
      } else if i == 1 {
        if j == 0 {} else if j == 1 {} else {}
      } else {
        if j == 0 {} else if j == 1 {} else {}
      }
    }
  }

  /** A matrix whose every entry is the matching entry of `s` has `s` as its cells. */
  lemma {:induction false} CellsEqual(w: array2<int>, s: seq<int>)
    requires Is3x3(w) && |s| == 9
    requires forall i, j :: 0 <= i < 3 && 0 <= j < 3 ==> w[i, j] == s[Cell(i, j)]
    ensures Cells(w) == s
  {
    CellsAt(w);
    SameCells(Cells(w), s);
  }

  /** The position reached from `center` by the move of entry (i, j). */
  function Target(center: Position, i: int, j: int): Position {
    MovePosition(center, MoveWeightToDirection(i, j))
  }

  /** The barrier flags of the nine targets around `center`, row-major. */
  function BlockedAround(barriers: array2<bool>, center: Position): (b: seq<bool>)
    reads barriers
    requires IsBarrierGrid(barriers) && InInterior(center)
    ensures |b| == 9
  {
    [barriers[center.i - 1, center.j - 1],
     barriers[center.i - 1, center.j],
     barriers[center.i - 1, center.j + 1],
     barriers[center.i, center.j - 1],
     barriers[center.i, center.j],
     barriers[center.i, center.j + 1],
     barriers[center.i + 1, center.j - 1],
     barriers[center.i + 1, center.j],
     barriers[center.i + 1, center.j + 1]]
  }

  lemma BlockedAroundCell(barriers: array2<bool>, center: Position, i: int, j: int)
    requires IsBarrierGrid(barriers) && InInterior(center) && 0 <= i < 3 && 0 <= j < 3
    ensures BlockedAround(barriers, center)[Cell(i, j)] == barriers[center.i + i - 1, center.j + j - 1]
  {
    // The empty branches split the goal into the nine literal indices.
    if i == 0 {
      if j == 0 {} else if j == 1 {} else {}
    } else if i == 1 {
      if j == 0 {} else if j == 1 {} else {}
    } else {
      if j == 0 {} else if j == 1 {} else {}
    }
  }

  lemma TargetFlag(barriers: array2<bool>, center: Position, i: int, j: int)
    requires IsBarrierGrid(barriers) && InInterior(center) && 0 <= i < 3 && 0 <= j < 3
    ensures IsBarrierAt(barriers, Target(center, i, j)) == barriers[center.i + i - 1, center.j + j - 1]
  {
  }

  lemma BlockedAroundAt(barriers: array2<bool>, center: Position)
    requires IsBarrierGrid(barriers) && InInterior(center)
    ensures forall i, j :: 0 <= i < 3 && 0 <= j < 3 ==>
      BlockedAround(barriers, center)[Cell(i, j)] == IsBarrierAt(barriers, Target(center, i, j))
  {
    forall i, j | 0 <= i < 3 && 0 <= j < 3
      ensures BlockedAround(barriers, center)[Cell(i, j)] == IsBarrierAt(barriers, Target(center, i, j))
    {
      BlockedAroundCell(barriers, center, i, j);
      TargetFlag(barriers, center, i, j);
    }
  }

  /** Entry k of `BlockedAround` is the flag of the target of row RowOf(k) and
      column ColumnOf(k). */
  lemma BlockedAroundEntry(barriers: array2<bool>, center: Position, k: int)
    requires IsBarrierGrid(barriers) && InInterior(center) && 0 <= k < 9
    ensures BlockedAround(barriers, center)[k] == IsBarrierAt(barriers, Target(center, RowOf(k), ColumnOf(k)))
  {
    var i, j := RowOf(k), ColumnOf(k);
    BlockedAroundCell(barriers, center, i, j);
    TargetFlag(barriers, center, i, j);
  }

  /** Some target is open exactly when some entry of `BlockedAround` is false. */
  lemma SomeOpenTarget(barriers: array2<bool>, center: Position)
    requires IsBarrierGrid(barriers) && InInterior(center)
    ensures (exists k :: 0 <= k < 9 && !BlockedAround(barriers, center)[k]) <==>
      (exists i, j :: 0 <= i < 3 && 0 <= j < 3 && !IsBarrierAt(barriers, Target(center, i, j)))
  {
    var blocked := BlockedAround(barriers, center);
    BlockedAroundAt(barriers, center);
    if exists k :: 0 <= k < 9 && !blocked[k] {
      var k :| 0 <= k < 9 && !blocked[k];
      CellRowColumn(RowOf(k), ColumnOf(k));
      assert !IsBarrierAt(barriers, Target(center, RowOf(k), ColumnOf(k)));
    }
    if exists i, j :: 0 <= i < 3 && 0 <= j < 3 && !IsBarrierAt(barriers, Target(center, i, j)) {
      var i, j :| 0 <= i < 3 && 0 <= j < 3 && !IsBarrierAt(barriers, Target(center, i, j));
      CellRowColumn(i, j);
      assert !blocked[Cell(i, j)];
    }
  }

  /** `calculate_enemy_proximity`: one more than the distance to the enemy, so
      never below 1 and equal to 1 exactly on the enemy's cell. */
  function CalculateEnemyProximity(enemy: Position, p: Position): (r: int)
    ensures r >= 1
  {
    1 + Distance(enemy, p)
  }

  lemma ProximityOneOnlyAtEnemy(enemy: Position, p: Position)
    ensures CalculateEnemyProximity(enemy, p) == 1 <==> p == enemy
  {
    DistanceIsChebyshev(enemy, p);
  }

  /** The nine targets around `center`, row-major. */
  function Targets(center: Position): (t: seq<Position>)
    ensures |t| == 9
  {
    [Target(center, 0, 0), Target(center, 0, 1), Target(center, 0, 2),
     Target(center, 1, 0), Target(center, 1, 1), Target(center, 1, 2),
     Target(center, 2, 0), Target(center, 2, 1), Target(center, 2, 2)]
  }

  lemma TargetsEntry(center: Position, k: int)
    requires 0 <= k < 9
    ensures Targets(center)[k] == Target(center, RowOf(k), ColumnOf(k))
  {
  }

  /** The proximity of each of nine positions to the enemy. */
  function Proximities(targets: seq<Position>, enemy: Position): (d: seq<int>)
    requires |targets| == 9
    ensures |d| == 9
    ensures forall k :: 0 <= k < 9 ==> d[k] >= 1
  {
    [CalculateEnemyProximity(enemy, targets[0]), CalculateEnemyProximity(enemy, targets[1]),
     CalculateEnemyProximity(enemy, targets[2]), CalculateEnemyProximity(enemy, targets[3]),
     CalculateEnemyProximity(enemy, targets[4]), CalculateEnemyProximity(enemy, targets[5]),
     CalculateEnemyProximity(enemy, targets[6]), CalculateEnemyProximity(enemy, targets[7]),
     CalculateEnemyProximity(enemy, targets[8])]
  }

  lemma {:induction false} ProximitiesEntry(targets: seq<Position>, enemy: Position, k: int)
    requires |targets| == 9 && 0 <= k < 9
    ensures Proximities(targets, enemy)[k] == CalculateEnemyProximity(enemy, targets[k])
  {
  }

  /** The proximity values of the nine targets around `center`, row-major. */
  function DistanceValues(center: Position, enemy: Position): (d: seq<int>)
    ensures |d| == 9
    ensures forall k :: 0 <= k < 9 ==> d[k] >= 1
  {
    Proximities(Targets(center), enemy)
  }

  lemma DistanceValuesAt(center: Position, enemy: Position)
    ensures forall i, j :: 0 <= i < 3 && 0 <= j < 3 ==>
      DistanceValues(center, enemy)[Cell(i, j)] == CalculateEnemyProximity(enemy, Target(center, i, j))
  {
    forall i, j | 0 <= i < 3 && 0 <= j < 3
      ensures DistanceValues(center, enemy)[Cell(i, j)] == CalculateEnemyProximity(enemy, Target(center, i, j))
    {
      CellRowColumn(i, j);
      TargetsEntry(center, Cell(i, j));
      ProximitiesEntry(Targets(center), enemy, Cell(i, j));
    }
  }

  /** The nine proximities written out, row-major. */
  lemma DistanceValuesDisplay(center: Position, enemy: Position)
    ensures DistanceValues(center, enemy) ==
      [CalculateEnemyProximity(enemy, Target(center, 0, 0)), CalculateEnemyProximity(enemy, Target(center, 0, 1)),
       CalculateEnemyProximity(enemy, Target(center, 0, 2)), CalculateEnemyProximity(enemy, Target(center, 1, 0)),
       CalculateEnemyProximity(enemy, Target(center, 1, 1)), CalculateEnemyProximity(enemy, Target(center, 1, 2)),
       CalculateEnemyProximity(enemy, Target(center, 2, 0)), CalculateEnemyProximity(enemy, Target(center, 2, 1)),
       CalculateEnemyProximity(enemy, Target(center, 2, 2))]
  {
  }

  /** A matrix holding the proximity of each target holds `DistanceValues`. */
  lemma {:induction false} CellsOfDistances(dv: array2<int>, center: Position, enemy: Position)
    requires Is3x3(dv)
    requires forall i, j :: 0 <= i < 3 && 0 <= j < 3 ==>
      dv[i, j] == CalculateEnemyProximity(enemy, Target(center, i, j))
    ensures Cells(dv) == DistanceValues(center, enemy)
  {
    DistanceValuesDisplay(center, enemy);
  }

  // ---------------------------------------------------------------------
  // The stages, one entry at a time
  // ---------------------------------------------------------------------

  /** The barrier stage on one entry: a live entry whose target is blocked is zeroed. */
  function ClearIfBlocked(w: int, blocked: bool): int {
    if w == 0 then 0 else if blocked then 0 else w
  }

  /** The later stages on one entry: a zero entry is skipped, any other multiplied. */
  function ScaleLive(w: int, factor: int): int {
    if w == 0 then 0 else w * factor
  }

  /** A scaling stage keeps zero entries at zero and, with a positive factor,
      positive entries positive. */
  lemma ScaleLiveKeepsSign(w: int, factor: int)
    requires w >= 0 && factor > 0
    ensures ScaleLive(w, factor) >= 0
    ensures ScaleLive(w, factor) == 0 <==> w == 0
  {
  }

  /** The row of the vertical table that weighs row i of the matrix. */
  function VerticalIndex(i: int, priorityIsUp: bool): (r: int)
    ensures 0 <= i < 3 ==> 0 <= r < 3
    ensures priorityIsUp ==> r == 2 - i
    ensures !priorityIsUp ==> r == i
  {
    if priorityIsUp then 2 - i else i
  }

  /** One entry after all four stages, starting from 1. */
  function StagedWeight(blocked: bool, proximity: int, goal: int, vertical: int): int {
    ScaleLive(ScaleLive(ScaleLive(ClearIfBlocked(1, blocked), proximity), goal), vertical)
  }

  /** With positive factors the last three stages never revive a cleared entry
      and never clear a live one: the final weight is positive exactly when
      the entry's target is not blocked, and is then the product of the factors. */
  lemma StagedWeightPositiveIffOpen(blocked: bool, proximity: int, goal: int, vertical: int)
    requires proximity > 0 && goal > 0 && vertical > 0
    ensures StagedWeight(blocked, proximity, goal, vertical) >= 0
    ensures StagedWeight(blocked, proximity, goal, vertical) > 0 <==> !blocked
    ensures !blocked ==> StagedWeight(blocked, proximity, goal, vertical) == proximity * goal * vertical
  {
    if !blocked {
      assert ClearIfBlocked(1, blocked) == 1;
      assert proximity * goal > 0;
      assert proximity * goal * vertical > 0;
    }
  }

  /** The whole matrix after the four stages, row-major. */
  function StagedWeights(blocked: seq<bool>, proximity: seq<int>, goalWeights: seq<int>,
                         verticalWeights: seq<int>, priorityIsUp: bool): (w: seq<int>)
    requires |blocked| == 9 && |proximity| == 9 && |goalWeights| == 3 && |verticalWeights| == 3
    ensures |w| == 9
  {
    [StagedWeight(blocked[0], proximity[0], goalWeights[0], verticalWeights[VerticalIndex(0, priorityIsUp)]),
     StagedWeight(blocked[1], proximity[1], goalWeights[1], verticalWeights[VerticalIndex(0, priorityIsUp)]),
     StagedWeight(blocked[2], proximity[2], goalWeights[2], verticalWeights[VerticalIndex(0, priorityIsUp)]),
     StagedWeight(blocked[3], proximity[3], goalWeights[0], verticalWeights[VerticalIndex(1, priorityIsUp)]),
     StagedWeight(blocked[4], proximity[4], goalWeights[1], verticalWeights[VerticalIndex(1, priorityIsUp)]),
     StagedWeight(blocked[5], proximity[5], goalWeights[2], verticalWeights[VerticalIndex(1, priorityIsUp)]),
     StagedWeight(blocked[6], proximity[6], goalWeights[0], verticalWeights[VerticalIndex(2, priorityIsUp)]),
     StagedWeight(blocked[7], proximity[7], goalWeights[1], verticalWeights[VerticalIndex(2, priorityIsUp)]),
     StagedWeight(blocked[8], proximity[8], goalWeights[2], verticalWeights[VerticalIndex(2, priorityIsUp)])]
  }

  lemma {:induction false} StagedWeightsEntry(blocked: seq<bool>, proximity: seq<int>, goalWeights: seq<int>,
                           verticalWeights: seq<int>, priorityIsUp: bool, k: int)
    requires |blocked| == 9 && |proximity| == 9 && |goalWeights| == 3 && |verticalWeights| == 3
    requires 0 <= k < 9
    ensures StagedWeights(blocked, proximity, goalWeights, verticalWeights, priorityIsUp)[k]
      == StagedWeight(blocked[k], proximity[k], goalWeights[ColumnOf(k)],
                      verticalWeights[VerticalIndex(RowOf(k), priorityIsUp)])
  {
  }

  lemma {:induction false} StagedWeightsAt(blocked: seq<bool>, proximity: seq<int>, goalWeights: seq<int>,
                        verticalWeights: seq<int>, priorityIsUp: bool)
    requires |blocked| == 9 && |proximity| == 9 && |goalWeights| == 3 && |verticalWeights| == 3
    ensures forall i, j :: 0 <= i < 3 && 0 <= j < 3 ==>
      StagedWeights(blocked, proximity, goalWeights, verticalWeights, priorityIsUp)[Cell(i, j)]
        == StagedWeight(blocked[Cell(i, j)], proximity[Cell(i, j)], goalWeights[j],
                        verticalWeights[VerticalIndex(i, priorityIsUp)])
  {
    forall i, j | 0 <= i < 3 && 0 <= j < 3
      ensures StagedWeights(blocked, proximity, goalWeights, verticalWeights, priorityIsUp)[Cell(i, j)]
        == StagedWeight(blocked[Cell(i, j)], proximity[Cell(i, j)], goalWeights[j],
                        verticalWeights[VerticalIndex(i, priorityIsUp)])
    {
      CellRowColumn(i, j);
      StagedWeightsEntry(blocked, proximity, goalWeights, verticalWeights, priorityIsUp, Cell(i, j));
    }
  }

  predicate AllPositive(s: seq<int>) {
    forall k :: 0 <= k < |s| ==> s[k] > 0
  }

  predicate AllNonNegative(s: seq<int>) {
    forall k :: 0 <= k < |s| ==> s[k] >= 0
  }

  /** With positive tables the final entry is positive iff its target is open. */
  lemma {:induction false} StagedWeightsPositiveIffOpen(blocked: seq<bool>, proximity: seq<int>, goalWeights: seq<int>,
                                     verticalWeights: seq<int>, priorityIsUp: bool)
    requires |blocked| == 9 && |proximity| == 9 && |goalWeights| == 3 && |verticalWeights| == 3
    requires AllPositive(proximity) && AllPositive(goalWeights) && AllPositive(verticalWeights)
    ensures AllNonNegative(StagedWeights(blocked, proximity, goalWeights, verticalWeights, priorityIsUp))
    ensures forall k :: 0 <= k < 9 ==>
      (StagedWeights(blocked, proximity, goalWeights, verticalWeights, priorityIsUp)[k] > 0 <==> !blocked[k])
  {
    var w := StagedWeights(blocked, proximity, goalWeights, verticalWeights, priorityIsUp);
    forall k | 0 <= k < 9
      ensures w[k] >= 0 && (w[k] > 0 <==> !blocked[k])
    {
      var i, j := RowOf(k), ColumnOf(k);
      StagedWeightsEntry(blocked, proximity, goalWeights, verticalWeights, priorityIsUp, k);
      StagedWeightPositiveIffOpen(blocked[k], proximity[k], goalWeights[j], verticalWeights[VerticalIndex(i, priorityIsUp)]);
    }
  }

  // ---------------------------------------------------------------------
  // The stages on the matrix, in place
  // ---------------------------------------------------------------------

  method InitMoveWeights(w: array2<int>)
    requires Is3x3(w)
    modifies w
    ensures forall i, j :: 0 <= i < 3 && 0 <= j < 3 ==> w[i, j] == 1
  {
    for i := 0 to 3
      invariant forall i', j' :: 0 <= i' < i && 0 <= j' < 3 ==> w[i', j'] == 1
    {
      for j := 0 to 3
        invariant forall i', j' :: 0 <= i' < i && 0 <= j' < 3 ==> w[i', j'] == 1
        invariant forall j' :: 0 <= j' < j ==> w[i, j'] == 1
      {
        w[i, j] := 1;
      }
    }
  }

  method UpdateWeightsByBarrierExistence(w: array2<int>, center: Position, barriers: array2<bool>)
    requires Is3x3(w) && IsBarrierGrid(barriers) && InInterior(center)
    modifies w
    ensures forall i, j :: 0 <= i < 3 && 0 <= j < 3 ==>
      w[i, j] == ClearIfBlocked(old(w[i, j]), IsBarrierAt(barriers, Target(center, i, j)))
  {
    for i := 0 to 3
      invariant forall i', j' :: 0 <= i' < i && 0 <= j' < 3 ==>
        w[i', j'] == ClearIfBlocked(old(w[i', j']), IsBarrierAt(barriers, Target(center, i', j')))
      invariant forall i', j' :: i <= i' < 3 && 0 <= j' < 3 ==> w[i', j'] == old(w[i', j'])
    {
      for j := 0 to 3
        invariant forall i', j' :: 0 <= i' < i && 0 <= j' < 3 ==>
          w[i', j'] == ClearIfBlocked(old(w[i', j']), IsBarrierAt(barriers, Target(center, i', j')))
        invariant forall j' :: 0 <= j' < j ==>
          w[i, j'] == ClearIfBlocked(old(w[i, j']), IsBarrierAt(barriers, Target(center, i, j')))
        invariant forall i', j' :: (i < i' < 3 && 0 <= j' < 3) || (i' == i && j <= j' < 3) ==>
          w[i', j'] == old(w[i', j'])
      {
        if w[i, j] == 0 {
          continue;
        }
        var direction := MoveWeightToDirection(i, j);
        var position := MovePosition(center, direction);
        if IsBarrierAt(barriers, position) {
          w[i, j] := 0;
        }
      }
    }
  }

  method UpdateWeightsByGoalDistance(w: array2<int>, goalWeights: seq<int>)
    requires Is3x3(w) && |goalWeights| == 3
    modifies w
    ensures forall i, j :: 0 <= i < 3 && 0 <= j < 3 ==> w[i, j] == ScaleLive(old(w[i, j]), goalWeights[j])
  {
    for i := 0 to 3
      invariant forall i', j' :: 0 <= i' < i && 0 <= j' < 3 ==> w[i', j'] == ScaleLive(old(w[i', j']), goalWeights[j'])
      invariant forall i', j' :: i <= i' < 3 && 0 <= j' < 3 ==> w[i', j'] == old(w[i', j'])
    {
      for j := 0 to 3
        invariant forall i', j' :: 0 <= i' < i && 0 <= j' < 3 ==> w[i', j'] == ScaleLive(old(w[i', j']), goalWeights[j'])
        invariant forall j' :: 0 <= j' < j ==> w[i, j'] == ScaleLive(old(w[i, j']), goalWeights[j'])
        invariant forall i', j' :: (i < i' < 3 && 0 <= j' < 3) || (i' == i && j <= j' < 3) ==>
          w[i', j'] == old(w[i', j'])
      {
        if w[i, j] == 0 {
          continue;
        }
        w[i, j] := w[i, j] * goalWeights[j];
      }
    }
  }

  method UpdateWeightsByVerticalPriority(w: array2<int>, verticalWeights: seq<int>, priorityIsUp: bool)
    requires Is3x3(w) && |verticalWeights| == 3
    modifies w
    ensures forall i, j :: 0 <= i < 3 && 0 <= j < 3 ==>
      w[i, j] == ScaleLive(old(w[i, j]), verticalWeights[VerticalIndex(i, priorityIsUp)])
  {
    for i := 0 to 3
      invariant forall i', j' :: 0 <= i' < i && 0 <= j' < 3 ==>
        w[i', j'] == ScaleLive(old(w[i', j']), verticalWeights[VerticalIndex(i', priorityIsUp)])
      invariant forall i', j' :: i <= i' < 3 && 0 <= j' < 3 ==> w[i', j'] == old(w[i', j'])
    {
      for j := 0 to 3
        invariant forall i', j' :: 0 <= i' < i && 0 <= j' < 3 ==>
          w[i', j'] == ScaleLive(old(w[i', j']), verticalWeights[VerticalIndex(i', priorityIsUp)])
        invariant forall j' :: 0 <= j' < j ==>
          w[i, j'] == ScaleLive(old(w[i, j']), verticalWeights[VerticalIndex(i, priorityIsUp)])
        invariant forall i', j' :: (i < i' < 3 && 0 <= j' < 3) || (i' == i && j <= j' < 3) ==>
          w[i', j'] == old(w[i', j'])
      {
        if w[i, j] == 0 {
          continue;
        }
        var index := i;
        if priorityIsUp {
          index := 2 - index;
        }
        w[i, j] := w[i, j] * verticalWeights[index];
      }
    }
  }

  // ---------------------------------------------------------------------
  // The sampler
  // ---------------------------------------------------------------------

  /** The sum of the first k entries: where the interval of entry k starts. */
  function Prefix(s: seq<int>, k: nat): int
    requires k <= |s|
  {
    if k == 0 then 0 else Prefix(s, k - 1) + s[k - 1]
  }

  function Total(s: seq<int>): int {
    Prefix(s, |s|)
  }

  /** The sampler's walk from entry k, whose interval starts at `start`: the
      first entry from k on whose interval holds `c`, or |s| if none does. */
  function SelectFrom(s: seq<int>, c: int, k: nat, start: int): (r: nat)
    requires k <= |s|
    ensures k <= r <= |s|
    decreases |s| - k
  {
    if k == |s| then |s|
    else if start <= c < start + s[k] then k
    else SelectFrom(s, c, k + 1, start + s[k])
  }

  /** The entry the row-major walk picks for the reduced draw `c`. */
  function Select(s: seq<int>, c: int): nat
    requires |s| > 0
  {
    SelectFrom(s, c, 0, 0)
  }

  /** The move of entry k, or the fallback when the walk found nothing. */
  function CellDirection(k: int): Direction {
    if 0 <= k < 9 then MoveWeightToDirection(RowOf(k), ColumnOf(k)) else DirRight
  }

  lemma {:induction false} SelectFromWithinInterval(s: seq<int>, c: int, k: nat)
    requires k <= |s| && Prefix(s, k) <= c < Total(s)
    ensures var r := SelectFrom(s, c, k, Prefix(s, k));
      k <= r < |s| && Prefix(s, r) <= c < Prefix(s, r) + s[r]
    decreases |s| - k
  {
    if k == |s| {
      assert false;
    } else if !(Prefix(s, k) <= c < Prefix(s, k) + s[k]) {
      assert Prefix(s, k + 1) == Prefix(s, k) + s[k];
      SelectFromWithinInterval(s, c, k + 1);
    }
  }

  /** Whenever the reduced draw lies in [0, Total), the walk ends inside an
      entry whose interval holds it (so that entry is positive and the
      fallback is never reached), whatever the signs of the weights. */
  lemma {:induction false} SelectWithinInterval(s: seq<int>, c: int)
    requires |s| > 0 && 0 <= c < Total(s)
    ensures Select(s, c) < |s|
    ensures Prefix(s, Select(s, c)) <= c < Prefix(s, Select(s, c)) + s[Select(s, c)]
    ensures s[Select(s, c)] > 0
  {
    SelectFromWithinInterval(s, c, 0);
  }

  /** With non-negative weights, later entries start no earlier than earlier ones end. */
  lemma {:induction false} PrefixMonotone(s: seq<int>, a: nat, b: nat)
    requires AllNonNegative(s) && a <= b <= |s|
    ensures Prefix(s, a) <= Prefix(s, b)
    decreases b
  {
    if a < b {
      PrefixMonotone(s, a, b - 1);
    }
  }

  /** With non-negative weights, a draw inside the interval of entry a lies
      before the interval of every later entry b. */
  lemma {:induction false} IntervalBeforeLater(s: seq<int>, a: nat, b: nat, c: int)
    requires AllNonNegative(s) && a < b < |s|
    requires Prefix(s, a) <= c < Prefix(s, a) + s[a]
    ensures c < Prefix(s, b)
  {
    assert Prefix(s, a + 1) == Prefix(s, a) + s[a];
    PrefixMonotone(s, a + 1, b);
  }

  /** With non-negative weights the intervals are disjoint, so the entry
      whose interval holds `c` is the one the walk picks. */
  lemma {:induction false} SelectUnique(s: seq<int>, c: int, k: nat)
    requires AllNonNegative(s) && k < |s|
    requires Prefix(s, k) <= c < Prefix(s, k) + s[k]
    ensures Select(s, c) == k
  {
    assert Prefix(s, k + 1) == Prefix(s, k) + s[k];
    PrefixMonotone(s, 0, k);
    PrefixMonotone(s, k + 1, |s|);
    SelectWithinInterval(s, c);
    var r := Select(s, c);
    if r < k {
      IntervalBeforeLater(s, r, k, c);
    } else if r > k {
      IntervalBeforeLater(s, k, r, c);
    }
  }

  /** How many of the reduced draws 0, 1, ..., n - 1 make the walk pick entry k. */
  function PickCount(s: seq<int>, k: nat, n: int): nat
    requires |s| > 0
  {
    if n <= 0 then 0 else PickCount(s, k, n - 1) + (if Select(s, n - 1) == k then 1 else 0)
  }

  lemma {:induction false} PickCountUpTo(s: seq<int>, k: nat, n: nat)
    requires AllNonNegative(s) && k < |s| && 0 <= n <= Total(s)
    ensures PickCount(s, k, n) == Min(Max(n - Prefix(s, k), 0), s[k])
    decreases n
  {
    PrefixMonotone(s, 0, k);
    assert s[k] >= 0;
    if n > 0 {
      PickCountUpTo(s, k, n - 1);
      var c := n - 1;
      SelectWithinInterval(s, c);
      if Prefix(s, k) <= c < Prefix(s, k) + s[k] {
        SelectUnique(s, c, k);
        assert PickCount(s, k, n) == PickCount(s, k, n - 1) + 1;
      } else {
        assert Select(s, c) != k;
        assert PickCount(s, k, n) == PickCount(s, k, n - 1);
      }
    }
  }

  /** Probability proportional to weight: of the Total equally likely reduced
      draws, exactly s[k] make the walk pick entry k. */
  lemma {:induction false} SelectCount(s: seq<int>, k: nat)
    requires AllNonNegative(s) && k < |s|
    ensures PickCount(s, k, Total(s)) == s[k]
  {
    PrefixMonotone(s, 0, k);
    PrefixMonotone(s, k + 1, |s|);
    assert Prefix(s, k + 1) == Prefix(s, k) + s[k];
    PrefixMonotone(s, 0, |s|);
    PickCountUpTo(s, k, Total(s));
  }

  lemma {:induction false} PrefixOfZeros(s: seq<int>, k: nat, n: nat)
    requires n <= |s| && k < |s|
    requires forall m :: 0 <= m < |s| && m != k ==> s[m] == 0
    ensures Prefix(s, n) == if n <= k then 0 else s[k]
    decreases n
  {
    if n > 0 {
      PrefixOfZeros(s, k, n - 1);
    }
  }

  /** When only entry k is non-zero, the walk picks k for every draw. */
  lemma {:induction false} SingleLiveEntry(s: seq<int>, k: nat, c: int)
    requires k < |s| && s[k] > 0
    requires forall m :: 0 <= m < |s| && m != k ==> s[m] == 0
    requires 0 <= c < Total(s)
    ensures Select(s, c) == k
  {
    PrefixOfZeros(s, k, |s|);
    PrefixOfZeros(s, k, k);
    SelectUnique(s, c, k);
  }

  /** A non-negative matrix with one positive entry has a positive total. */
  lemma {:induction false} TotalAtLeastEntry(s: seq<int>, k: nat, n: nat)
    requires AllNonNegative(s) && k < n <= |s|
    ensures Prefix(s, n) >= s[k]
    decreases n
  {
    if n - 1 == k {
      PrefixMonotone(s, 0, k);
    } else {
      TotalAtLeastEntry(s, k, n - 1);
    }
  }

  method GetMoveDirectionFromWeights(w: array2<int>, draw: nat) returns (d: Direction)
    requires Is3x3(w) && Total(Cells(w)) > 0
    ensures d == CellDirection(Select(Cells(w), draw % Total(Cells(w))))
  {
    ghost var s := Cells(w);
    CellsAt(w);
    var sum := 0;
    var i := 0;
    while i < 3
      invariant 0 <= i <= 3 && sum == Prefix(s, Cell(i, 0))
    {
      var j := 0;
      while j < 3
        invariant 0 <= j <= 3 && sum == Prefix(s, Cell(i, j))
      {
        sum := sum + w[i, j];
        j := j + 1;
      }
      i := i + 1;
    }
    var chosenValue := draw % sum;
    SelectWithinInterval(s, chosenValue);
    sum := 0;
    i := 0;
    while i < 3
      invariant 0 <= i <= 3 && sum == Prefix(s, Cell(i, 0))
      invariant Select(s, chosenValue) == SelectFrom(s, chosenValue, Cell(i, 0), sum)
    {
      var j := 0;
      while j < 3
        invariant 0 <= j <= 3 && sum == Prefix(s, Cell(i, j))
        invariant Select(s, chosenValue) == SelectFrom(s, chosenValue, Cell(i, j), sum)
      {
        var start := sum;
        sum := sum + w[i, j];
        var end := sum;
        if chosenValue >= start && chosenValue < end {
          CellRowColumn(i, j);
          return MoveWeightToDirection(i, j);
        }
        j := j + 1;
      }
      i := i + 1;
    }
    return DirRight;
  }

  // ---------------------------------------------------------------------
  // The sampler on staged weights
  // ---------------------------------------------------------------------

  lemma {:induction false} ZeroTotal(s: seq<int>, n: nat)
    requires n <= |s| && forall k :: 0 <= k < |s| ==> s[k] == 0
    ensures Prefix(s, n) == 0
  {
    if n > 0 {
      ZeroTotal(s, n - 1);
    }
  }

  /** A non-negative matrix has a positive total exactly when some entry is live. */
  lemma {:induction false} TotalPositiveIffSomeLive(s: seq<int>, blocked: seq<bool>)
    requires |s| == 9 && |blocked| == 9 && AllNonNegative(s)
    requires forall k :: 0 <= k < 9 ==> (s[k] > 0 <==> !blocked[k])
    ensures Total(s) > 0 <==> exists k :: 0 <= k < 9 && !blocked[k]
  {
    if exists k :: 0 <= k < 9 && !blocked[k] {
      var k :| 0 <= k < 9 && !blocked[k];
      TotalAtLeastEntry(s, k, 9);
    } else {
      ZeroTotal(s, 9);
    }
  }

  /** With positive tables a matrix can be sampled (its total is positive)
      exactly when some target is open. */
  lemma {:induction false} StagedTotalPositiveIffSomeOpen(blocked: seq<bool>, proximity: seq<int>, goalWeights: seq<int>,
                                       verticalWeights: seq<int>, priorityIsUp: bool)
    requires |blocked| == 9 && |proximity| == 9 && |goalWeights| == 3 && |verticalWeights| == 3
    requires AllPositive(proximity) && AllPositive(goalWeights) && AllPositive(verticalWeights)
    ensures Total(StagedWeights(blocked, proximity, goalWeights, verticalWeights, priorityIsUp)) > 0
      <==> exists k :: 0 <= k < 9 && !blocked[k]
  {
    StagedWeightsPositiveIffOpen(blocked, proximity, goalWeights, verticalWeights, priorityIsUp);
    TotalPositiveIffSomeLive(StagedWeights(blocked, proximity, goalWeights, verticalWeights, priorityIsUp), blocked);
  }

  /** With positive tables the sampler only ever picks an open target. */
  lemma {:induction false} StagedSelectIsOpen(blocked: seq<bool>, proximity: seq<int>, goalWeights: seq<int>,
                           verticalWeights: seq<int>, priorityIsUp: bool, c: int)
    requires |blocked| == 9 && |proximity| == 9 && |goalWeights| == 3 && |verticalWeights| == 3
    requires AllPositive(proximity) && AllPositive(goalWeights) && AllPositive(verticalWeights)
    requires 0 <= c < Total(StagedWeights(blocked, proximity, goalWeights, verticalWeights, priorityIsUp))
    ensures var k := Select(StagedWeights(blocked, proximity, goalWeights, verticalWeights, priorityIsUp), c);
      k < 9 && !blocked[k]
  {
    var w := StagedWeights(blocked, proximity, goalWeights, verticalWeights, priorityIsUp);
    StagedWeightsPositiveIffOpen(blocked, proximity, goalWeights, verticalWeights, priorityIsUp);
    SelectWithinInterval(w, c);
  }

  /** An open entry whose proximity and goal factors multiply to more than
      another entry's ends up heavier under the same vertical factor. */
  lemma StagedWeightPreference(pa: int, ga: int, blockedB: bool, pb: int, gb: int, v: int)
    requires pa > 0 && ga > 0 && pb > 0 && gb > 0 && v > 0
    requires pa * ga > pb * gb
    ensures StagedWeight(false, pa, ga, v) > StagedWeight(blockedB, pb, gb, v)
  {
    StagedWeightPositiveIffOpen(false, pa, ga, v);
    StagedWeightPositiveIffOpen(blockedB, pb, gb, v);
    if !blockedB {
      MultiplyStrict(pa * ga, pb * gb, v);
    } else {
      MultiplyStrict(pa * ga, 0, v);
    }
  }

  /** Within one row, an open entry whose proximity and goal factors multiply
      to more than another's ends up with the larger weight. */
  lemma {:induction false} StagedRowPreference(blocked: seq<bool>, proximity: seq<int>, goalWeights: seq<int>,
                            verticalWeights: seq<int>, priorityIsUp: bool, i: int, a: int, b: int)
    requires |blocked| == 9 && |proximity| == 9 && |goalWeights| == 3 && |verticalWeights| == 3
    requires AllPositive(proximity) && AllPositive(goalWeights) && AllPositive(verticalWeights)
    requires 0 <= i < 3 && 0 <= a < 3 && 0 <= b < 3 && !blocked[Cell(i, a)]
    requires proximity[Cell(i, a)] * goalWeights[a] > proximity[Cell(i, b)] * goalWeights[b]
    ensures StagedWeights(blocked, proximity, goalWeights, verticalWeights, priorityIsUp)[Cell(i, a)]
      > StagedWeights(blocked, proximity, goalWeights, verticalWeights, priorityIsUp)[Cell(i, b)]
  {
    CellRowColumn(i, a);
    CellRowColumn(i, b);
    StagedWeightsAt(blocked, proximity, goalWeights, verticalWeights, priorityIsUp);
    StagedWeightPreference(proximity[Cell(i, a)], goalWeights[a], blocked[Cell(i, b)],
                           proximity[Cell(i, b)], goalWeights[b], verticalWeights[VerticalIndex(i, priorityIsUp)]);
  }

  lemma MultiplyStrict(a: int, b: int, v: int)
    requires a > b && v > 0
    ensures a * v > b * v
  {
  }
}
