/** The per-turn move selection of either agent: the persistent state that
    `execute_attacker_strategy` and `execute_defender_strategy` keep in
    `static` locals, held by a controller object, and one turn of the engine
    as a method on it. The two sides differ only in the constants and rules
    gathered by the side dispatch functions below. */
module Strategy {
  import opened Grid
  import opened Spying
  import opened MoveWeights
  import Attacker
  import Defender

  datatype Side = AttackerSide | DefenderSide

  /** One value per `rand()` call site of a turn, before reduction: the spy
      countdown and the initial priority and threshold (first call only), the
      scheduled flip, the redrawn threshold and the sampler's draw. */
  datatype Draws = Draws(spyCountdown: nat, initialPriority: nat, initialThreshold: nat,
                         flip: nat, threshold: nat, choice: nat)

  // ---------------------------------------------------------------------
  // What each side contributes
  // ---------------------------------------------------------------------

  predicate InSpyRange(side: Side, n: int) {
    match side
    case AttackerSide => 3 <= n <= 7
    case DefenderSide => 4 <= n <= 8
  }

  predicate InThresholdRange(side: Side, t: int) {
    match side
    case AttackerSide => 5 <= t <= 14
    case DefenderSide => 5 <= t <= 19
  }

  function SpyCountdown(side: Side, r: nat): (n: int)
    ensures InSpyRange(side, n)
  {
    match side
    case AttackerSide => Attacker.SpyCountdown(r)
    case DefenderSide => Defender.SpyCountdown(r)
  }

  function TurnsToChangePriority(side: Side, r: nat): (t: int)
    ensures InThresholdRange(side, t)
  {
    match side
    case AttackerSide => Attacker.TurnsToChangePriority(r)
    case DefenderSide => Defender.TurnsToChangePriority(r)
  }

  function GuessedEnemyPosition(side: Side, p: Position): (e: Position)
    ensures e.j == p.j
    ensures InGrid(p) ==> InGrid(e)
  {
    match side
    case AttackerSide => Attacker.GuessedEnemyPosition(p)
    case DefenderSide => Defender.GuessedEnemyPosition(p)
  }

  function PriorityUpAfterSpy(side: Side, enemy: Position, initial: Position): bool {
    match side
    case AttackerSide => Attacker.PriorityUpAfterSpy(enemy, initial)
    case DefenderSide => Defender.PriorityUpAfterSpy(enemy, initial)
  }

  /** With the same revealed enemy, the two sides pick opposite vertical priorities. */
  lemma PriorityConventionsOpposite(enemy: Position, initial: Position)
    ensures PriorityUpAfterSpy(AttackerSide, enemy, initial) <==> enemy.i > initial.i
    ensures PriorityUpAfterSpy(DefenderSide, enemy, initial) <==> enemy.i <= initial.i
    ensures PriorityUpAfterSpy(AttackerSide, enemy, initial) != PriorityUpAfterSpy(DefenderSide, enemy, initial)
  {
  }

  function ProximityFactors(side: Side, center: Position, enemy: Position): (f: seq<int>)
    ensures |f| == 9 && AllPositive(f)
  {
    match side
    case AttackerSide => Attacker.ProximityFactors(center, enemy)
    case DefenderSide => Defender.ProximityFactors(center, enemy)
  }

  function GoalWeights(side: Side): (g: seq<int>)
    ensures |g| == 3 && AllPositive(g)
    ensures g[0] < g[1] < g[2]
  {
    match side
    case AttackerSide => Attacker.GoalWeights
    case DefenderSide => Defender.GoalWeights
  }

  function VerticalWeights(side: Side): (v: seq<int>)
    ensures |v| == 3 && AllPositive(v)
    ensures v[0] < v[1] < v[2]
  {
    match side
    case AttackerSide => Attacker.VerticalWeights
    case DefenderSide => Defender.VerticalWeights
  }

  /** The priority after a scheduled change, from the draw `flip`. */
  function ScheduledPriority(up: bool, flip: nat): bool {
    if flip % 3 > 0 then !up else up
  }

  /** Only the draw's residue modulo 3 matters: of the draws 3q, 3q + 1 and
      3q + 2, the first keeps the priority and the other two flip it. */
  lemma ScheduledPriorityTwoOfThree(up: bool, q: nat, r: nat)
    requires r < 3
    ensures ScheduledPriority(up, 3 * q + r) == ScheduledPriority(up, r)
    ensures ScheduledPriority(up, 3 * q + r) == (if r == 0 then up else !up)
  {
    assert (3 * q + r) % 3 == r;
  }

  // ---------------------------------------------------------------------
  // The weight matrix of a turn
  // ---------------------------------------------------------------------

  /** The nine weights, row-major, after the four stages, given the nine
      proximity factors of the side's rule. */
  function TurnWeights(side: Side, barriers: array2<bool>, center: Position, proximity: seq<int>, up: bool): (w: seq<int>)
    reads barriers
    requires IsBarrierGrid(barriers) && InInterior(center) && |proximity| == 9
    ensures |w| == 9
  {
    StagedWeights(BlockedAround(barriers, center), proximity,
                  GoalWeights(side), VerticalWeights(side), up)
  }

  lemma {:induction false} TurnWeightsAt(side: Side, barriers: array2<bool>, center: Position, proximity: seq<int>, up: bool)
    requires IsBarrierGrid(barriers) && InInterior(center) && |proximity| == 9 && AllPositive(proximity)
    ensures forall i, j :: 0 <= i < 3 && 0 <= j < 3 ==>
      TurnWeights(side, barriers, center, proximity, up)[Cell(i, j)]
        == StagedWeight(IsBarrierAt(barriers, Target(center, i, j)), proximity[Cell(i, j)],
                        GoalWeights(side)[j], VerticalWeights(side)[VerticalIndex(i, up)])
  {
    BlockedAroundAt(barriers, center);
    StagedWeightsAt(BlockedAround(barriers, center), proximity,
                    GoalWeights(side), VerticalWeights(side), up);
  }

  /** Whether `d` is the move the sampler draws from `weights` for the draw
      `choice`: the weights have a positive total, and `d` is the move of the
      entry the walk selects for `choice % Total`. */
  predicate IsDrawnFrom(weights: seq<int>, choice: nat, d: Direction) {
    |weights| > 0 && Total(weights) > 0 && d == CellDirection(Select(weights, choice % Total(weights)))
  }

  /** Whether `d` is the move a turn draws: it is drawn from the weights of
      the four stages over the barrier flags `blocked` of the nine targets
      around `center` (as `BlockedAround` reads them, so these are the
      `TurnWeights`) and the proximity factors of the side's rule. The
      weights are bound by the quantifier, so a proof that only passes this
      fact on never has to compute them. */
  predicate IsDrawnMove(side: Side, blocked: seq<bool>, center: Position, enemy: Position, up: bool, choice: nat, d: Direction)
    requires |blocked| == 9
  {
    forall weights :: weights == StagedWeights(blocked, ProximityFactors(side, center, enemy), GoalWeights(side), VerticalWeights(side), up)
      ==> IsDrawnFrom(weights, choice, d)
  }

  /** Every weight is non-negative, and a weight is positive exactly when its
      target is not a known barrier. */
  lemma {:induction false} TurnWeightsPositiveIffOpen(side: Side, barriers: array2<bool>, center: Position, proximity: seq<int>, up: bool)
    requires IsBarrierGrid(barriers) && InInterior(center) && |proximity| == 9 && AllPositive(proximity)
    ensures AllNonNegative(TurnWeights(side, barriers, center, proximity, up))
    ensures forall k :: 0 <= k < 9 ==>
      (TurnWeights(side, barriers, center, proximity, up)[k] > 0 <==> !BlockedAround(barriers, center)[k])
  {
    StagedWeightsPositiveIffOpen(BlockedAround(barriers, center), proximity,
                                 GoalWeights(side), VerticalWeights(side), up);
  }

  /** The turn can be decided exactly when some target is open. */
  lemma {:induction false} TotalPositiveIffSomeOpen(side: Side, barriers: array2<bool>, center: Position, proximity: seq<int>, up: bool)
    requires IsBarrierGrid(barriers) && InInterior(center) && |proximity| == 9 && AllPositive(proximity)
    ensures Total(TurnWeights(side, barriers, center, proximity, up)) > 0 <==>
      exists i, j :: 0 <= i < 3 && 0 <= j < 3 && !IsBarrierAt(barriers, Target(center, i, j))
  {
    StagedTotalPositiveIffSomeOpen(BlockedAround(barriers, center), proximity, GoalWeights(side), VerticalWeights(side), up);
    SomeOpenTarget(barriers, center);
  }

  /** The entry the turn samples for the reduced draw `c` is open. */
  lemma {:induction false} SelectedEntryIsOpen(side: Side, barriers: array2<bool>, center: Position, proximity: seq<int>, up: bool, c: int)
    requires IsBarrierGrid(barriers) && InInterior(center) && |proximity| == 9 && AllPositive(proximity)
    requires 0 <= c < Total(TurnWeights(side, barriers, center, proximity, up))
    ensures var k := Select(TurnWeights(side, barriers, center, proximity, up), c);
      k < 9 && !IsBarrierAt(barriers, Target(center, RowOf(k), ColumnOf(k)))
  {
    StagedSelectIsOpen(BlockedAround(barriers, center), proximity,
                       GoalWeights(side), VerticalWeights(side), up, c);
    var k := Select(TurnWeights(side, barriers, center, proximity, up), c);
    BlockedAroundEntry(barriers, center, k);
  }

  /** The sampled move is one of the nine unit moves, and its target is not a
      known barrier. */
  lemma {:induction false} SampledMoveIsOpen(side: Side, barriers: array2<bool>, center: Position, proximity: seq<int>, up: bool, c: int)
    requires IsBarrierGrid(barriers) && InInterior(center) && |proximity| == 9 && AllPositive(proximity)
    requires 0 <= c < Total(TurnWeights(side, barriers, center, proximity, up))
    ensures var d := CellDirection(Select(TurnWeights(side, barriers, center, proximity, up), c));
      IsUnit(d) && !IsBarrierAt(barriers, MovePosition(center, d))
  {
    SelectedEntryIsOpen(side, barriers, center, proximity, up, c);
  }

  /** When some target is open, the weights have a positive total and the
      move drawn from them is a unit move to an open cell. */
  lemma {:induction false} ChosenMoveIsOpen(side: Side, barriers: array2<bool>, center: Position, proximity: seq<int>, up: bool, choice: nat)
    requires IsBarrierGrid(barriers) && InInterior(center) && |proximity| == 9 && AllPositive(proximity)
    requires exists i, j :: 0 <= i < 3 && 0 <= j < 3 && !IsBarrierAt(barriers, Target(center, i, j))
    ensures var s := TurnWeights(side, barriers, center, proximity, up);
      Total(s) > 0 &&
      var d := CellDirection(Select(s, choice % Total(s)));
      IsUnit(d) && InGrid(MovePosition(center, d)) && !IsBarrierAt(barriers, MovePosition(center, d))
  {
    TotalPositiveIffSomeOpen(side, barriers, center, proximity, up);
    var s := TurnWeights(side, barriers, center, proximity, up);
    SampledMoveIsOpen(side, barriers, center, proximity, up, choice % Total(s));
  }

  /** Probability proportional to weight: of the Total reduced draws, exactly
      the weight of entry k make the turn pick entry k. */
  lemma {:induction false} ChoiceFrequency(side: Side, barriers: array2<bool>, center: Position, proximity: seq<int>, up: bool, k: nat)
    requires IsBarrierGrid(barriers) && InInterior(center) && |proximity| == 9 && AllPositive(proximity) && k < 9
    ensures var s := TurnWeights(side, barriers, center, proximity, up);
      PickCount(s, k, Total(s)) == s[k]
  {
    TurnWeightsPositiveIffOpen(side, barriers, center, proximity, up);
    SelectCount(TurnWeights(side, barriers, center, proximity, up), k);
  }

  /** When only one target is open, the turn moves there for every draw. */
  lemma {:induction false} SingleOpenTarget(side: Side, barriers: array2<bool>, center: Position, proximity: seq<int>, up: bool,
                         i: int, j: int, c: int)
    requires IsBarrierGrid(barriers) && InInterior(center) && |proximity| == 9 && AllPositive(proximity)
    requires 0 <= i < 3 && 0 <= j < 3
    requires forall i', j' :: 0 <= i' < 3 && 0 <= j' < 3 && (i', j') != (i, j) ==>
      IsBarrierAt(barriers, Target(center, i', j'))
    requires 0 <= c < Total(TurnWeights(side, barriers, center, proximity, up))
    ensures CellDirection(Select(TurnWeights(side, barriers, center, proximity, up), c)) == MoveWeightToDirection(i, j)
  {
    SelectedEntryIsOpen(side, barriers, center, proximity, up, c);
    var k := Select(TurnWeights(side, barriers, center, proximity, up), c);
    CellRowColumn(RowOf(k), ColumnOf(k));
  }

  /** When every neighbour except the one to the right is blocked, the turn
      stays or moves right, whatever the draw: the agent's own cell is a
      candidate too. */
  lemma {:induction false} OnlyRightNeighbourOpen(side: Side, barriers: array2<bool>, center: Position, proximity: seq<int>, up: bool, c: int)
    requires IsBarrierGrid(barriers) && InInterior(center) && |proximity| == 9 && AllPositive(proximity)
    requires forall i, j :: 0 <= i < 3 && 0 <= j < 3 && (i, j) != (1, 1) && (i, j) != (1, 2) ==>
      IsBarrierAt(barriers, Target(center, i, j))
    requires 0 <= c < Total(TurnWeights(side, barriers, center, proximity, up))
    ensures var d := CellDirection(Select(TurnWeights(side, barriers, center, proximity, up), c));
      d == Stay || d == DirRight
  {
    SelectedEntryIsOpen(side, barriers, center, proximity, up, c);
    var k := Select(TurnWeights(side, barriers, center, proximity, up), c);
    CellRowColumn(RowOf(k), ColumnOf(k));
  }

  /** An open target in the goal direction always outweighs the target on
      the other side of the same row, for either side and any priority. */
  lemma GoalSideOutweighs(side: Side, barriers: array2<bool>, center: Position, enemy: Position, up: bool, i: int)
    requires IsBarrierGrid(barriers) && InInterior(center) && 0 <= i < 3
    requires !IsBarrierAt(barriers, Target(center, i, 2))
    ensures TurnWeights(side, barriers, center, ProximityFactors(side, center, enemy), up)[Cell(i, 2)]
      > TurnWeights(side, barriers, center, ProximityFactors(side, center, enemy), up)[Cell(i, 0)]
  {
    var f := ProximityFactors(side, center, enemy);
    GoalFactorOutweighs(side, center, enemy, i);
    BlockedAroundAt(barriers, center);
    CellRowColumn(i, 2);
    StagedRowPreference(BlockedAround(barriers, center), f, GoalWeights(side), VerticalWeights(side), up, i, 2, 0);
  }

  /** The goal factor of the right column outweighs any difference in
      proximity between the right and the left target of a row. */
  lemma GoalFactorOutweighs(side: Side, center: Position, enemy: Position, i: int)
    requires 0 <= i < 3
    ensures ProximityFactors(side, center, enemy)[Cell(i, 2)] * GoalWeights(side)[2]
      > ProximityFactors(side, center, enemy)[Cell(i, 0)] * GoalWeights(side)[0]
  {
    match side {
      case AttackerSide => Attacker.GoalFactorOutweighs(center, enemy, i);
      case DefenderSide => Defender.GoalFactorOutweighs(center, enemy, i);
    }
  }

  // ---------------------------------------------------------------------
  // The controller
  // ---------------------------------------------------------------------

  /** Whether the weight matrix is built from the draws this turn: the spy is
      consulted once the countdown has run out, unless it reports exactly one use. */
  function WillSpy(spyUses: nat, numberOfMoves: int, movesToSpy: int): bool {
    !(spyUses == 1) && numberOfMoves >= movesToSpy
  }

  class Controller {
    const side: Side
    /** The working grid of known barriers. */
    const barriers: array2<bool>
    var structuresInitialized: bool
    var numberOfMoves: int
    var movesToSpy: int
    var verticalPriorityIsUp: bool
    var movesCurrentVerticalPriority: int
    var movesToChangeVerticalPriority: int
    var initialPosition: Position
    var intendedPosition: Position
    /** The guessed, later the spied, position of the opponent. */
    var enemyPosition: Position

    ghost predicate Valid()
      reads this, barriers
    {
      IsBarrierGrid(barriers) &&
      (!structuresInitialized ==> numberOfMoves == 0 && intendedPosition == InvalidPosition) &&
      (structuresInitialized ==>
        BorderBlocked(barriers) && numberOfMoves >= 1 &&
        InSpyRange(side, movesToSpy) && InThresholdRange(side, movesToChangeVerticalPriority) &&
        1 <= movesCurrentVerticalPriority <= movesToChangeVerticalPriority &&
        InGrid(intendedPosition))
    }

    /** The state before the first turn: the `static` locals' initial values. */
    constructor (side: Side)
      ensures this.side == side && fresh(barriers)
      ensures Valid() && !structuresInitialized
      ensures numberOfMoves == 0 && intendedPosition == InvalidPosition
    {
      this.side := side;
      barriers := new bool[WeightDimensions, WeightDimensions];
      structuresInitialized := false;
      numberOfMoves := 0;
      movesToSpy := 0;
      verticalPriorityIsUp := false;
      movesCurrentVerticalPriority := 0;
      movesToChangeVerticalPriority := 0;
      initialPosition := Position(0, 0);
      intendedPosition := InvalidPosition;
      enemyPosition := Position(0, 0);
    }

    /** Whether some target around `position` is open once this turn has
        registered its barrier (on the first turn the grid is rebuilt with
        only the border blocked, so the agent's own interior cell is open). */
    ghost predicate HasOpenMove(position: Position)
      reads this, barriers
      requires IsBarrierGrid(barriers) && InInterior(position)
    {
      !structuresInitialized ||
      exists i, j :: 0 <= i < 3 && 0 <= j < 3 &&
        !IsBarrierAt(barriers, Target(position, i, j)) &&
        !(position != intendedPosition && Target(position, i, j) == intendedPosition)
    }

    /** The first-call block: draws the spy countdown, the priority and its
        threshold, rebuilds the barrier grid and records the initial position
        and the guessed enemy. */
    method InitializeStructures(position: Position, draws: Draws)
      requires IsBarrierGrid(barriers) && !structuresInitialized
      modifies this, barriers
      ensures structuresInitialized
      ensures movesToSpy == SpyCountdown(side, draws.spyCountdown)
      ensures forall a, b :: 0 <= a < WeightDimensions && 0 <= b < WeightDimensions ==>
        (barriers[a, b] <==> a == 0 || b == 0)
      ensures BorderBlocked(barriers)
      ensures verticalPriorityIsUp == (draws.initialPriority % 2 == 1)
      ensures movesCurrentVerticalPriority == 0
      ensures movesToChangeVerticalPriority == TurnsToChangePriority(side, draws.initialThreshold)
      ensures initialPosition == position && enemyPosition == GuessedEnemyPosition(side, position)
      ensures numberOfMoves == old(numberOfMoves) && intendedPosition == old(intendedPosition)
    {
      structuresInitialized := true;
      movesToSpy := SpyCountdown(side, draws.spyCountdown);
      InitBarriers(barriers);
      verticalPriorityIsUp := draws.initialPriority % 2 == 1;
      movesCurrentVerticalPriority := 0;
      movesToChangeVerticalPriority := TurnsToChangePriority(side, draws.initialThreshold);
      initialPosition := position;
      enemyPosition := GuessedEnemyPosition(side, position);
    }

    /** A turn after the first: the intended cell of last turn becomes a
        barrier when the agent is not on it. Cells are only ever blocked, and
        blocking a blocked cell changes nothing. */
    method RegisterBarrier(position: Position)
      requires IsBarrierGrid(barriers) && InGrid(intendedPosition)
      modifies barriers
      ensures forall a, b :: 0 <= a < WeightDimensions && 0 <= b < WeightDimensions ==>
        barriers[a, b] == (old(barriers[a, b]) || (position != intendedPosition && Position(a, b) == intendedPosition))
    {
      if position != intendedPosition {
        barriers[intendedPosition.i, intendedPosition.j] := true;
      }
    }

    /** The spying decision and the scheduled change of the vertical priority. */
    method UpdateVerticalPriority(spy: Spy, hasSpied: bool, draws: Draws)
      modifies this, spy
      ensures var spies := !hasSpied && old(numberOfMoves) >= old(movesToSpy);
        && (spies ==>
              spy.numberOfUses == old(spy.numberOfUses) + 1 && enemyPosition == spy.position
              && verticalPriorityIsUp == PriorityUpAfterSpy(side, enemyPosition, initialPosition)
              && movesCurrentVerticalPriority == 0
              && movesToChangeVerticalPriority == TurnsToChangePriority(side, draws.threshold))
        && (!spies ==>
              spy.numberOfUses == old(spy.numberOfUses) && enemyPosition == old(enemyPosition))
        && (!spies && old(movesCurrentVerticalPriority) >= old(movesToChangeVerticalPriority) ==>
              verticalPriorityIsUp == ScheduledPriority(old(verticalPriorityIsUp), draws.flip)
              && movesCurrentVerticalPriority == 0
              && movesToChangeVerticalPriority == TurnsToChangePriority(side, draws.threshold))
        && (!spies && old(movesCurrentVerticalPriority) < old(movesToChangeVerticalPriority) ==>
              verticalPriorityIsUp == old(verticalPriorityIsUp)
              && movesCurrentVerticalPriority == old(movesCurrentVerticalPriority)
              && movesToChangeVerticalPriority == old(movesToChangeVerticalPriority))
      ensures spy.position == old(spy.position)
      ensures structuresInitialized == old(structuresInitialized) && numberOfMoves == old(numberOfMoves)
      ensures movesToSpy == old(movesToSpy) && initialPosition == old(initialPosition)
      ensures intendedPosition == old(intendedPosition)
    {
      if !hasSpied && numberOfMoves >= movesToSpy {
        enemyPosition := spy.GetPosition();
        verticalPriorityIsUp := PriorityUpAfterSpy(side, enemyPosition, initialPosition);
        movesCurrentVerticalPriority := 0;
        movesToChangeVerticalPriority := TurnsToChangePriority(side, draws.threshold);
      } else {
        if movesCurrentVerticalPriority >= movesToChangeVerticalPriority {
          verticalPriorityIsUp := ScheduledPriority(verticalPriorityIsUp, draws.flip);
          movesCurrentVerticalPriority := 0;
          movesToChangeVerticalPriority := TurnsToChangePriority(side, draws.threshold);
        }
      }
    }

    /** The part of a turn before the weights are computed: the first-call
        block or the registration of last turn's barrier, then the spying
        decision and the scheduled change of the vertical priority. Some
        target around `position` is then open. */
    method BeginTurn(position: Position, spy: Spy, draws: Draws)
      requires Valid() && InInterior(position) && HasOpenMove(position)
      modifies this, barriers, spy
      ensures IsBarrierGrid(barriers) && BorderBlocked(barriers) && structuresInitialized
      ensures numberOfMoves == old(numberOfMoves) && intendedPosition == old(intendedPosition)
      ensures InSpyRange(side, movesToSpy) && InThresholdRange(side, movesToChangeVerticalPriority)
      ensures 0 <= movesCurrentVerticalPriority < movesToChangeVerticalPriority
      ensures initialPosition == (if old(structuresInitialized) then old(initialPosition) else position)
      ensures movesToSpy == (if old(structuresInitialized) then old(movesToSpy) else SpyCountdown(side, draws.spyCountdown))
      ensures forall a, b :: 0 <= a < WeightDimensions && 0 <= b < WeightDimensions ==>
        barriers[a, b] == (if old(structuresInitialized)
          then old(barriers[a, b]) || (position != old(intendedPosition) && Position(a, b) == old(intendedPosition))
          else a == 0 || b == 0)
      ensures spy.position == old(spy.position)
      ensures var spies := WillSpy(old(spy.numberOfUses), old(numberOfMoves), movesToSpy);
        && (!old(structuresInitialized) ==> !spies)
        && (spies ==>
              spy.numberOfUses == old(spy.numberOfUses) + 1 && enemyPosition == spy.position
              && verticalPriorityIsUp == PriorityUpAfterSpy(side, enemyPosition, initialPosition)
              && movesCurrentVerticalPriority == 0
              && movesToChangeVerticalPriority == TurnsToChangePriority(side, draws.threshold))
        && (!spies ==> spy.numberOfUses == old(spy.numberOfUses))
        && (!spies && !old(structuresInitialized) ==>
              enemyPosition == GuessedEnemyPosition(side, position)
              && verticalPriorityIsUp == (draws.initialPriority % 2 == 1)
              && movesCurrentVerticalPriority == 0
              && movesToChangeVerticalPriority == TurnsToChangePriority(side, draws.initialThreshold))
        && (!spies && old(structuresInitialized) ==> enemyPosition == old(enemyPosition))
        && (!spies && old(structuresInitialized)
              && old(movesCurrentVerticalPriority) >= old(movesToChangeVerticalPriority) ==>
              verticalPriorityIsUp == ScheduledPriority(old(verticalPriorityIsUp), draws.flip)
              && movesCurrentVerticalPriority == 0
              && movesToChangeVerticalPriority == TurnsToChangePriority(side, draws.threshold))
        && (!spies && old(structuresInitialized)
              && old(movesCurrentVerticalPriority) < old(movesToChangeVerticalPriority) ==>
              verticalPriorityIsUp == old(verticalPriorityIsUp)
              && movesCurrentVerticalPriority == old(movesCurrentVerticalPriority)
              && movesToChangeVerticalPriority == old(movesToChangeVerticalPriority))
      ensures exists i, j :: 0 <= i < 3 && 0 <= j < 3 && !IsBarrierAt(barriers, Target(position, i, j))
    {
      var hasSpied := spy.numberOfUses == 1;
      if !structuresInitialized {
        InitializeStructures(position, draws);
        assert Target(position, 1, 1) == position;
      } else {
        ghost var oi, oj :| 0 <= oi < 3 && 0 <= oj < 3 &&
          !IsBarrierAt(barriers, Target(position, oi, oj)) &&
          !(position != intendedPosition && Target(position, oi, oj) == intendedPosition);
        RegisterBarrier(position);
        assert !IsBarrierAt(barriers, Target(position, oi, oj));
      }
      UpdateVerticalPriority(spy, hasSpied, draws);
    }

    /** One turn: `execute_attacker_strategy` or `execute_defender_strategy`. */
    method Execute(position: Position, spy: Spy, draws: Draws) returns (d: Direction)
      requires Valid() && InInterior(position) && HasOpenMove(position)
      modifies this, barriers, spy
      ensures Valid() && structuresInitialized
      ensures numberOfMoves == old(numberOfMoves) + 1
      ensures initialPosition == (if old(structuresInitialized) then old(initialPosition) else position)
      ensures movesToSpy == (if old(structuresInitialized) then old(movesToSpy) else SpyCountdown(side, draws.spyCountdown))
      ensures forall a, b :: 0 <= a < WeightDimensions && 0 <= b < WeightDimensions ==>
        barriers[a, b] == (if old(structuresInitialized)
          then old(barriers[a, b]) || (position != old(intendedPosition) && Position(a, b) == old(intendedPosition))
          else a == 0 || b == 0)
      ensures spy.position == old(spy.position)
      ensures var spies := WillSpy(old(spy.numberOfUses), old(numberOfMoves), movesToSpy);
        && (!old(structuresInitialized) ==> !spies)
        && (spies ==>
              spy.numberOfUses == old(spy.numberOfUses) + 1 && enemyPosition == spy.position
              && verticalPriorityIsUp == PriorityUpAfterSpy(side, enemyPosition, initialPosition)
              && movesCurrentVerticalPriority == 1
              && movesToChangeVerticalPriority == TurnsToChangePriority(side, draws.threshold))
        && (!spies ==> spy.numberOfUses == old(spy.numberOfUses))
        && (!spies && !old(structuresInitialized) ==>
              enemyPosition == GuessedEnemyPosition(side, position)
              && verticalPriorityIsUp == (draws.initialPriority % 2 == 1)
              && movesCurrentVerticalPriority == 1
              && movesToChangeVerticalPriority == TurnsToChangePriority(side, draws.initialThreshold))
        && (!spies && old(structuresInitialized) ==> enemyPosition == old(enemyPosition))
        && (!spies && old(structuresInitialized)
              && old(movesCurrentVerticalPriority) >= old(movesToChangeVerticalPriority) ==>
              verticalPriorityIsUp == ScheduledPriority(old(verticalPriorityIsUp), draws.flip)
              && movesCurrentVerticalPriority == 1
              && movesToChangeVerticalPriority == TurnsToChangePriority(side, draws.threshold))
        && (!spies && old(structuresInitialized)
              && old(movesCurrentVerticalPriority) < old(movesToChangeVerticalPriority) ==>
              verticalPriorityIsUp == old(verticalPriorityIsUp)
              && movesCurrentVerticalPriority == old(movesCurrentVerticalPriority) + 1
              && movesToChangeVerticalPriority == old(movesToChangeVerticalPriority))
      ensures IsDrawnMove(side, BlockedAround(barriers, position), position, enemyPosition,
                          verticalPriorityIsUp, draws.choice, d)
      ensures IsUnit(d) && intendedPosition == MovePosition(position, d)
      ensures !IsBarrierAt(barriers, intendedPosition)
    {
      BeginTurn(position, spy, draws);
      d := FinishTurn(position, draws.choice);
    }

    /** The part of a turn from the weights on: the move drawn from this
        turn's weights becomes the intended cell, and both counters advance. */
    method FinishTurn(position: Position, choice: nat) returns (d: Direction)
      requires IsBarrierGrid(barriers) && InInterior(position)
      requires exists i, j :: 0 <= i < 3 && 0 <= j < 3 && !IsBarrierAt(barriers, Target(position, i, j))
      modifies this
      ensures IsDrawnMove(side, BlockedAround(barriers, position), position, enemyPosition,
                          verticalPriorityIsUp, choice, d)
      ensures IsUnit(d) && intendedPosition == MovePosition(position, d)
      ensures InGrid(intendedPosition) && !IsBarrierAt(barriers, intendedPosition)
      ensures numberOfMoves == old(numberOfMoves) + 1
      ensures movesCurrentVerticalPriority == old(movesCurrentVerticalPriority) + 1
      ensures structuresInitialized == old(structuresInitialized) && movesToSpy == old(movesToSpy)
      ensures verticalPriorityIsUp == old(verticalPriorityIsUp)
      ensures movesToChangeVerticalPriority == old(movesToChangeVerticalPriority)
      ensures initialPosition == old(initialPosition) && enemyPosition == old(enemyPosition)
    {
      d := ChooseMove(side, barriers, position, enemyPosition, verticalPriorityIsUp, choice);
      intendedPosition := MovePosition(position, d);
      numberOfMoves := numberOfMoves + 1;
      movesCurrentVerticalPriority := movesCurrentVerticalPriority + 1;
    }
  }

  /** The weights and the sampling of a turn: the move drawn from the weights
      of the four stages, which is one of the nine moves and leads to an open
      cell. */
  method ChooseMove(side: Side, barriers: array2<bool>, center: Position, enemy: Position, up: bool, choice: nat)
    returns (d: Direction)
    requires IsBarrierGrid(barriers) && InInterior(center)
    requires exists i, j :: 0 <= i < 3 && 0 <= j < 3 && !IsBarrierAt(barriers, Target(center, i, j))
    ensures IsDrawnMove(side, BlockedAround(barriers, center), center, enemy, up, choice, d)
    ensures IsUnit(d) && InGrid(MovePosition(center, d)) && !IsBarrierAt(barriers, MovePosition(center, d))
  {
    var moveWeights := ComputeMoveWeights(side, barriers, center, enemy, up);
    ChosenMoveIsOpen(side, barriers, center, ProximityFactors(side, center, enemy), up, choice);
    d := GetMoveDirectionFromWeights(moveWeights, choice);
  }

  /** The "calculate move weights" block of a turn: a fresh matrix through all four stages. */
  method ComputeMoveWeights(side: Side, barriers: array2<bool>, center: Position, enemy: Position, up: bool)
    returns (w: array2<int>)
    requires IsBarrierGrid(barriers) && InInterior(center)
    ensures fresh(w) && Is3x3(w)
    ensures Cells(w) == TurnWeights(side, barriers, center, ProximityFactors(side, center, enemy), up)
  {
    ghost var blocked;
    ghost var proximity := ProximityFactors(side, center, enemy);
    w, blocked := StartWeights(barriers, center);
    UpdateWeightsByEnemyProximity(side, w, center, enemy);
    FinishWeights(side, w, up, blocked, proximity);
    assert blocked == BlockedAround(barriers, center);
  }

  /** The goal and vertical stages, after the barrier and proximity stages
      left `ScaleLive(ClearIfBlocked(1, blocked), proximity)` in each entry. */
  method FinishWeights(side: Side, w: array2<int>, up: bool, ghost blocked: seq<bool>, ghost proximity: seq<int>)
    requires Is3x3(w) && |blocked| == 9 && |proximity| == 9
    requires forall i, j :: 0 <= i < 3 && 0 <= j < 3 ==>
      w[i, j] == ScaleLive(ClearIfBlocked(1, blocked[Cell(i, j)]), proximity[Cell(i, j)])
    modifies w
    ensures Cells(w) == StagedWeights(blocked, proximity, GoalWeights(side), VerticalWeights(side), up)
  {
    UpdateWeightsByGoalDistance(w, GoalWeights(side));
    UpdateWeightsByVerticalPriority(w, VerticalWeights(side), up);
    StagesGiveTurnWeights(side, blocked, proximity, up, w);
  }

  method StartWeights(barriers: array2<bool>, center: Position) returns (w: array2<int>, ghost blocked: seq<bool>)
    requires IsBarrierGrid(barriers) && InInterior(center)
    ensures fresh(w) && Is3x3(w)
    ensures blocked == BlockedAround(barriers, center)
    ensures forall i, j :: 0 <= i < 3 && 0 <= j < 3 ==> w[i, j] == ClearIfBlocked(1, blocked[Cell(i, j)])
  {
    w := new int[3, 3];
    InitMoveWeights(w);
    UpdateWeightsByBarrierExistence(w, center, barriers);
    blocked := BlockedAround(barriers, center);
    BlockedAroundAt(barriers, center);
  }

  /** The proximity stage of the given side. */
  method UpdateWeightsByEnemyProximity(side: Side, w: array2<int>, center: Position, enemy: Position)
    requires Is3x3(w)
    modifies w
    ensures forall i, j :: 0 <= i < 3 && 0 <= j < 3 ==>
      w[i, j] == ScaleLive(old(w[i, j]), ProximityFactors(side, center, enemy)[Cell(i, j)])
  {
    match side {
      case AttackerSide =>
        Attacker.UpdateWeightsByEnemyProximity(w, center, enemy);
        DistanceValuesAt(center, enemy);
      case DefenderSide =>
        Defender.UpdateWeightsByEnemyProximity(w, center, enemy);
    }
  }

  /** A matrix whose every entry went through the four stages holds the turn's weights. */
  lemma {:induction false} StagesGiveTurnWeights(side: Side, blocked: seq<bool>, proximity: seq<int>, up: bool, w: array2<int>)
    requires |blocked| == 9 && |proximity| == 9 && Is3x3(w)
    requires forall i, j :: 0 <= i < 3 && 0 <= j < 3 ==>
      w[i, j] == StagedWeight(blocked[Cell(i, j)], proximity[Cell(i, j)],
                              GoalWeights(side)[j], VerticalWeights(side)[VerticalIndex(i, up)])
    ensures Cells(w) == StagedWeights(blocked, proximity, GoalWeights(side), VerticalWeights(side), up)
  {
    StagedWeightsAt(blocked, proximity, GoalWeights(side), VerticalWeights(side), up);
    CellsEqual(w, StagedWeights(blocked, proximity, GoalWeights(side), VerticalWeights(side), up));
  }


}
