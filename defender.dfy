/** What is particular to the defender: its tuning tables, its first guess of
    the attacker's position, its bucketed proximity stage and its draws. */
module Defender {
  import opened Grid
  import opened MoveWeights

  /** Factors for the closest, the middle and the farthest targets. */
  const ProximityWeights: seq<int> := [9, 6, 5]
  /** Factors for moving to column j - 1, j in 0..2. */
  const GoalWeights: seq<int> := [1, 3, 16]
  /** Factors for row i - 1 (or 1 - i when the vertical priority is up). */
  const VerticalWeights: seq<int> := [3, 5, 12]

  /** The first guess of the attacker's position: the defender's own column,
      row 1, just inside the working grid's border. The row is replaced, not
      the column. */
  function GuessedEnemyPosition(defenderPosition: Position): (e: Position)
    ensures e.i == 1 && e.j == defenderPosition.j
    ensures InGrid(defenderPosition) ==> InGrid(e)
  {
    defenderPosition.(i := 1)
  }

  /** Turns until the vertical priority may change, from the draw `r`. */
  function TurnsToChangePriority(r: nat): (t: int)
    ensures 5 <= t <= 19
  {
    5 + r % 15
  }

  /** Every value of the range is drawn by some `r`. */
  lemma TurnsToChangePriorityCovers(t: int)
    requires 5 <= t <= 19
    ensures TurnsToChangePriority(t - 5) == t
  {
  }

  /** Turns before the defender consults the spy, from the draw `r`. */
  function SpyCountdown(r: nat): (n: int)
    ensures 4 <= n <= 8
  {
    4 + r % 5
  }

  lemma SpyCountdownCovers(n: int)
    requires 4 <= n <= 8
    ensures SpyCountdown(n - 4) == n
  {
  }

  /** After spying, the defender favours the upper rows unless the attacker
      is below (in a larger row than) the defender's initial position. */
  function PriorityUpAfterSpy(enemy: Position, initial: Position): bool {
    if enemy.i > initial.i then false else true
  }

  /** The smallest of the first n values, folded from the left. */
  function MinPrefix(s: seq<int>, n: nat): int
    requires 1 <= n <= |s|
  {
    if n == 1 then s[0] else Min(MinPrefix(s, n - 1), s[n - 1])
  }

  /** The fold is the minimum: a lower bound that is one of the values. */
  lemma {:induction false} MinPrefixIsMinimum(s: seq<int>, n: nat)
    requires 1 <= n <= |s|
    ensures forall k :: 0 <= k < n ==> MinPrefix(s, n) <= s[k]
    ensures exists k :: 0 <= k < n && MinPrefix(s, n) == s[k]
  {
    if n > 1 {
      MinPrefixIsMinimum(s, n - 1);
      if s[n - 1] < MinPrefix(s, n - 1) {
        assert MinPrefix(s, n) == s[n - 1];
      } else {
        var k :| 0 <= k < n - 1 && MinPrefix(s, n - 1) == s[k];
        assert MinPrefix(s, n) == s[k];
      }
    } else {
      assert MinPrefix(s, n) == s[0];
    }
  }

  /** The largest of the first n values, folded from the left. */
  function MaxPrefix(s: seq<int>, n: nat): int
    requires 1 <= n <= |s|
  {
    if n == 1 then s[0] else Max(MaxPrefix(s, n - 1), s[n - 1])
  }

  /** The fold is the maximum: an upper bound that is one of the values. */
  lemma {:induction false} MaxPrefixIsMaximum(s: seq<int>, n: nat)
    requires 1 <= n <= |s|
    ensures forall k :: 0 <= k < n ==> MaxPrefix(s, n) >= s[k]
    ensures exists k :: 0 <= k < n && MaxPrefix(s, n) == s[k]
  {
    if n > 1 {
      MaxPrefixIsMaximum(s, n - 1);
      if s[n - 1] > MaxPrefix(s, n - 1) {
        assert MaxPrefix(s, n) == s[n - 1];
      } else {
        var k :| 0 <= k < n - 1 && MaxPrefix(s, n - 1) == s[k];
        assert MaxPrefix(s, n) == s[k];
      }
    } else {
      assert MaxPrefix(s, n) == s[0];
    }
  }

  /** The bucket of one entry: the closest factor if its distance is the
      minimum, else the farthest factor if it is the maximum, else the middle. */
  function ProximityFactor(distance: int, minDistance: int, maxDistance: int): (f: int)
    ensures f == ProximityWeights[0] || f == ProximityWeights[1] || f == ProximityWeights[2]
    ensures 5 <= f <= 9
  {
    if distance == minDistance then ProximityWeights[0]
    else if distance == maxDistance then ProximityWeights[2]
    else ProximityWeights[1]
  }

  /** The bucket factor of each of nine distances: the minimum and maximum
      are taken over all nine. */
  function Buckets(d: seq<int>): (f: seq<int>)
    requires |d| == 9
    ensures |f| == 9
    ensures forall k :: 0 <= k < 9 ==> 5 <= f[k] <= 9
  {
    var lo, hi := MinPrefix(d, 9), MaxPrefix(d, 9);
    [ProximityFactor(d[0], lo, hi),
     ProximityFactor(d[1], lo, hi),
     ProximityFactor(d[2], lo, hi),
     ProximityFactor(d[3], lo, hi),
     ProximityFactor(d[4], lo, hi),
     ProximityFactor(d[5], lo, hi),
     ProximityFactor(d[6], lo, hi),
     ProximityFactor(d[7], lo, hi),
     ProximityFactor(d[8], lo, hi)]
  }

  lemma {:induction false} BucketsEntry(d: seq<int>, k: int)
    requires |d| == 9 && 0 <= k < 9
    ensures Buckets(d)[k] == ProximityFactor(d[k], MinPrefix(d, 9), MaxPrefix(d, 9))
  {
  }

  /** The factor of each of the nine entries around `center`, row-major,
      whatever the entries' weights. */
  function ProximityFactors(center: Position, enemy: Position): (f: seq<int>)
    ensures |f| == 9
    ensures forall k :: 0 <= k < 9 ==> 5 <= f[k] <= 9
  {
    Buckets(DistanceValues(center, enemy))
  }

  /** The closer a target is to the enemy, the larger (never smaller) its
      factor; a target at the minimum distance gets the closest factor, even
      when it is also at the maximum (all nine distances equal), and beats
      every target farther away. */
  lemma {:induction false} CloserTargetsWeighMore(d: seq<int>, a: nat, b: nat)
    requires |d| == 9 && a < 9 && b < 9
    requires d[a] <= d[b]
    ensures Buckets(d)[a] >= Buckets(d)[b]
    ensures d[a] == MinPrefix(d, 9) ==> Buckets(d)[a] == ProximityWeights[0]
    ensures d[a] < d[b] && d[a] == MinPrefix(d, 9) ==> Buckets(d)[a] > Buckets(d)[b]
  {
    MinPrefixIsMinimum(d, 9);
    MaxPrefixIsMaximum(d, 9);
    BucketsEntry(d, a);
    BucketsEntry(d, b);
  }

  /** Any two factors are between 5 and 9, far less apart than the goal
      factors 16 and 1. */
  lemma GoalFactorOutweighs(center: Position, enemy: Position, i: int)
    requires 0 <= i < 3
    ensures ProximityFactors(center, enemy)[Cell(i, 2)] * GoalWeights[2]
      > ProximityFactors(center, enemy)[Cell(i, 0)] * GoalWeights[0]
  {
    var f := ProximityFactors(center, enemy);
    BoundedFactorsOutweighed(f, Cell(i, 2), Cell(i, 0));
  }

  lemma {:induction false} BoundedFactorsOutweighed(f: seq<int>, a: int, b: int)
    requires |f| == 9 && 0 <= a < 9 && 0 <= b < 9
    requires forall k :: 0 <= k < 9 ==> 5 <= f[k] <= 9
    ensures f[a] * GoalWeights[2] > f[b] * GoalWeights[0]
  {
  }

  /** The first pass of the proximity stage: the proximity of each of the
      nine targets, in a fresh 3×3 matrix. */
  method ComputeDistanceValues(center: Position, enemy: Position) returns (distanceValues: array2<int>)
    ensures fresh(distanceValues) && Is3x3(distanceValues)
    ensures Cells(distanceValues) == DistanceValues(center, enemy)
  {
    distanceValues := new int[3, 3];
    for i := 0 to 3
      modifies distanceValues
      invariant forall i', j' :: 0 <= i' < i && 0 <= j' < 3 ==>
        distanceValues[i', j'] == CalculateEnemyProximity(enemy, Target(center, i', j'))
    {
      for j := 0 to 3
        modifies distanceValues
        invariant forall i', j' :: 0 <= i' < i && 0 <= j' < 3 ==>
          distanceValues[i', j'] == CalculateEnemyProximity(enemy, Target(center, i', j'))
        invariant forall j' :: 0 <= j' < j ==>
          distanceValues[i, j'] == CalculateEnemyProximity(enemy, Target(center, i, j'))
      {
        var direction := MoveWeightToDirection(i, j);
        var position := MovePosition(center, direction);
        distanceValues[i, j] := CalculateEnemyProximity(enemy, position);
      }
    }
    CellsOfDistances(distanceValues, center, enemy);
  }

  /** The second pass of the proximity stage: the smallest and the largest
      of all nine distances. */
  method MinMaxDistance(distanceValues: array2<int>) returns (minDist: int, maxDist: int)
    requires Is3x3(distanceValues)
    ensures minDist == MinPrefix(Cells(distanceValues), 9)
    ensures maxDist == MaxPrefix(Cells(distanceValues), 9)
  {
    ghost var d := Cells(distanceValues);
    CellsAt(distanceValues);
    minDist := distanceValues[0, 0];
    maxDist := distanceValues[0, 0];
    for i := 0 to 3
      invariant minDist == MinPrefix(d, Max(1, Cell(i, 0))) && maxDist == MaxPrefix(d, Max(1, Cell(i, 0)))
    {
      for j := 0 to 3
        invariant minDist == MinPrefix(d, Max(1, Cell(i, j))) && maxDist == MaxPrefix(d, Max(1, Cell(i, j)))
      {
        minDist := Min(minDist, distanceValues[i, j]);
        maxDist := Max(maxDist, distanceValues[i, j]);
      }
    }
  }

  /** The third pass of the proximity stage: each live weight multiplied by
      the factor of its distance's bucket. */
  method ApplyProximityBuckets(w: array2<int>, distanceValues: array2<int>, minDist: int, maxDist: int)
    requires Is3x3(w) && Is3x3(distanceValues) && w != distanceValues
    modifies w
    ensures forall i, j :: 0 <= i < 3 && 0 <= j < 3 ==>
      w[i, j] == ScaleLive(old(w[i, j]), ProximityFactor(distanceValues[i, j], minDist, maxDist))
  {
    for i := 0 to 3
      invariant forall i', j' :: 0 <= i' < i && 0 <= j' < 3 ==>
        w[i', j'] == ScaleLive(old(w[i', j']), ProximityFactor(distanceValues[i', j'], minDist, maxDist))
      invariant forall i', j' :: i <= i' < 3 && 0 <= j' < 3 ==> w[i', j'] == old(w[i', j'])
    {
      for j := 0 to 3
        invariant forall i', j' :: 0 <= i' < i && 0 <= j' < 3 ==>
          w[i', j'] == ScaleLive(old(w[i', j']), ProximityFactor(distanceValues[i', j'], minDist, maxDist))
        invariant forall j' :: 0 <= j' < j ==>
          w[i, j'] == ScaleLive(old(w[i, j']), ProximityFactor(distanceValues[i, j'], minDist, maxDist))
        invariant forall i', j' :: (i < i' < 3 && 0 <= j' < 3) || (i' == i && j <= j' < 3) ==>
          w[i', j'] == old(w[i', j'])
      {
        if w[i, j] == 0 {
          continue;
        }
        if distanceValues[i, j] == minDist {
          w[i, j] := w[i, j] * ProximityWeights[0];
        } else if distanceValues[i, j] == maxDist {
          w[i, j] := w[i, j] * ProximityWeights[2];
        } else {
          w[i, j] := w[i, j] * ProximityWeights[1];
        }
      }
    }
  }

  /** The bucket of each entry of a distance matrix, given its minimum and maximum. */
  lemma BucketsAt(distanceValues: array2<int>, minDist: int, maxDist: int)
    requires Is3x3(distanceValues)
    requires minDist == MinPrefix(Cells(distanceValues), 9) && maxDist == MaxPrefix(Cells(distanceValues), 9)
    ensures forall i, j :: 0 <= i < 3 && 0 <= j < 3 ==>
      Buckets(Cells(distanceValues))[Cell(i, j)] == ProximityFactor(distanceValues[i, j], minDist, maxDist)
  {
    CellsAt(distanceValues);
    forall i, j | 0 <= i < 3 && 0 <= j < 3
      ensures Buckets(Cells(distanceValues))[Cell(i, j)] == ProximityFactor(distanceValues[i, j], minDist, maxDist)
    {
      CellRowColumn(i, j);
      BucketsEntry(Cells(distanceValues), Cell(i, j));
    }
  }

  /** `update_weights_by_enemy_proximity`: a live weight is multiplied by 9, 6
      or 5 as its target is among the closest, the middle or the farthest of
      the nine targets from the enemy. */
  method UpdateWeightsByEnemyProximity(w: array2<int>, center: Position, enemy: Position)
    requires Is3x3(w)
    modifies w
    ensures forall i, j :: 0 <= i < 3 && 0 <= j < 3 ==>
      w[i, j] == ScaleLive(old(w[i, j]), ProximityFactors(center, enemy)[Cell(i, j)])
  {
    var distanceValues := ComputeDistanceValues(center, enemy);
    var minDist, maxDist := MinMaxDistance(distanceValues);
    ApplyProximityBuckets(w, distanceValues, minDist, maxDist);
    BucketsAt(distanceValues, minDist, maxDist);
  }
}
