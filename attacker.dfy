/** What is particular to the attacker: its tuning tables, its first guess of
    the defender's position, its linear proximity stage and its draws. */
module Attacker {
  import opened Grid
  import opened MoveWeights

  /** Factors for moving to column j - 1, j in 0..2. */
  const GoalWeights: seq<int> := [1, 2, 17]
  /** Factors for row i - 1 (or 1 - i when the vertical priority is up). */
  const VerticalWeights: seq<int> := [1, 4, 15]

  /** The first guess of the defender's position: the attacker's own column,
      row 98, just inside the working grid's far border. The row is replaced,
      not the column. */
  function GuessedEnemyPosition(attackerPosition: Position): (e: Position)
    ensures e.i == WeightDimensions - 2 && e.j == attackerPosition.j
    ensures InGrid(attackerPosition) ==> InGrid(e)
  {
    attackerPosition.(i := WeightDimensions - 2)
  }

  /** Turns until the vertical priority may change, from the draw `r`. */
  function TurnsToChangePriority(r: nat): (t: int)
    ensures 5 <= t <= 14
  {
    5 + r % 10
  }

  /** Every value of the range is drawn by some `r`. */
  lemma TurnsToChangePriorityCovers(t: int)
    requires 5 <= t <= 14
    ensures TurnsToChangePriority(t - 5) == t
  {
  }

  /** Turns before the attacker consults the spy, from the draw `r`. */
  function SpyCountdown(r: nat): (n: int)
    ensures 3 <= n <= 7
  {
    3 + r % 5
  }

  lemma SpyCountdownCovers(n: int)
    requires 3 <= n <= 7
    ensures SpyCountdown(n - 3) == n
  {
  }

  /** After spying, the attacker favours the upper rows exactly when the
      defender is below (in a larger row than) the attacker's initial position. */
  function PriorityUpAfterSpy(enemy: Position, initial: Position): bool {
    if enemy.i > initial.i then true else false
  }

  /** The factor of each of the nine entries around `center`, row-major: the
      proximity itself, so farther targets weigh more. */
  function ProximityFactors(center: Position, enemy: Position): (f: seq<int>)
    ensures |f| == 9
    ensures AllPositive(f)
  {
    DistanceValues(center, enemy)
  }

  /** The targets to the right and to the left in a row are two columns
      apart, so their proximities differ by at most 2, far less than the
      goal factors 17 and 1 separate. */
  lemma GoalFactorOutweighs(center: Position, enemy: Position, i: int)
    requires 0 <= i < 3
    ensures ProximityFactors(center, enemy)[Cell(i, 2)] * GoalWeights[2]
      > ProximityFactors(center, enemy)[Cell(i, 0)] * GoalWeights[0]
  {
    DistanceValuesAt(center, enemy);
    RowTargetsOutweighed(center, enemy, i);
  }

  /** The same on the proximities themselves. */
  lemma RowTargetsOutweighed(center: Position, enemy: Position, i: int)
    ensures CalculateEnemyProximity(enemy, Target(center, i, 2)) * GoalWeights[2]
      > CalculateEnemyProximity(enemy, Target(center, i, 0)) * GoalWeights[0]
  {
    var right, left := Target(center, i, 2), Target(center, i, 0);
    DistanceTriangle(enemy, right, left);
    DistanceIsChebyshev(enemy, right);
    assert Distance(right, left) == 2;
  }

  /** `update_weights_by_enemy_proximity`: a live weight is multiplied by the
      proximity of its target; a zero weight is skipped. */
  method UpdateWeightsByEnemyProximity(w: array2<int>, center: Position, enemy: Position)
    requires Is3x3(w)
    modifies w
    ensures forall i, j :: 0 <= i < 3 && 0 <= j < 3 ==>
      w[i, j] == ScaleLive(old(w[i, j]), CalculateEnemyProximity(enemy, Target(center, i, j)))
  {
    for i := 0 to 3
      invariant forall i', j' :: 0 <= i' < i && 0 <= j' < 3 ==>
        w[i', j'] == ScaleLive(old(w[i', j']), CalculateEnemyProximity(enemy, Target(center, i', j')))
      invariant forall i', j' :: i <= i' < 3 && 0 <= j' < 3 ==> w[i', j'] == old(w[i', j'])
    {
      for j := 0 to 3
        invariant forall i', j' :: 0 <= i' < i && 0 <= j' < 3 ==>
          w[i', j'] == ScaleLive(old(w[i', j']), CalculateEnemyProximity(enemy, Target(center, i', j')))
        invariant forall j' :: 0 <= j' < j ==>
          w[i, j'] == ScaleLive(old(w[i, j']), CalculateEnemyProximity(enemy, Target(center, i, j')))
        invariant forall i', j' :: (i < i' < 3 && 0 <= j' < 3) || (i' == i && j <= j' < 3) ==>
          w[i', j'] == old(w[i', j'])
      {
        if w[i, j] == 0 {
          continue;
        }
        var direction := MoveWeightToDirection(i, j);
        var position := MovePosition(center, direction);
        w[i, j] := w[i, j] * CalculateEnemyProximity(enemy, position);
      }
    }
  }
}
