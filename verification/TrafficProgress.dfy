/**
  Whether every car gets across the one-lane street (a11/traffic.c).

  Every run of the cars ends.  `NobodyIsStrandedExactlyWhen` says for which cars it ends with all of them gone;
  for all others there is a run that leaves a car waiting at an empty street.
*/
module TrafficProgress {
  import opened Common
  import opened Runs
  import opened Sums
  import opened OneLaneStreet
  import opened Traffic

  // ---------- every run ends ----------

  /** What a car still has to do before its next crossing; leaving the street pays for all the signals. */
  function Offset(c: Config, pc: Pc): nat
  {
    match pc
    case Unregistered => 4
    case Coming => 3
    case Roused => 3
    case Waiting => 2
    case Inside => c.max + 4
    case Leaving => 1
    case Gone => 0
  }

  function Rank(c: Config, car: Car): int
  {
    (c.max + 4) * (c.crossings - car.entered) + Offset(c, car.pc)
  }

  function Ranks(c: Config, cars: seq<Car>): seq<int>
  {
    seq(|cars|, i requires 0 <= i < |cars| => Rank(c, cars[i]))
  }

  ghost function Measure(c: Config, s: State): nat
  {
    var m := Sum(Ranks(c, s.cars));
    if m < 0 then 0 else m
  }

  lemma RankNotNegative(c: Config, car: Car)
    requires car.entered <= c.crossings
    ensures Rank(c, car) >= 0
  {
  }

  lemma MeasureIsSum(c: Config, s: State)
    requires CarsOk(c, s)
    ensures Measure(c, s) == Sum(Ranks(c, s.cars))
  {
    forall i | 0 <= i < |s.cars|
      ensures Ranks(c, s.cars)[i] >= 0
    {
      assert CarOk(c, s, s.cars[i]);
      RankNotNegative(c, s.cars[i]);
    }
    SumNotNegative(Ranks(c, s.cars));
  }

  lemma RanksMove(c: Config, cars: seq<Car>, i: Tid, car: Car)
    requires i < |cars|
    ensures Sum(Ranks(c, cars[i := car])) == Sum(Ranks(c, cars)) - Rank(c, cars[i]) + Rank(c, car)
  {
    assert Ranks(c, cars[i := car]) == Ranks(c, cars)[i := Rank(c, car)];
    SumUpdate(Ranks(c, cars), i, Rank(c, car));
  }

  lemma RouseOneMore(cars: seq<Car>, woken: seq<Tid>, x: Tid)
    requires x < |cars|
    ensures Rouse(cars, woken + [x]) == Rouse(cars, woken)[x := cars[x].(pc := Roused)]
  {
  }

  lemma RousedRank(c: Config, car: Car)
    requires car.pc.Waiting?
    ensures Rank(c, car.(pc := Roused)) == Rank(c, car) + 1
  {
  }

  /** Every signalled car costs one at most. */
  lemma {:induction false} RouseRanks(c: Config, cars: seq<Car>, woken: seq<Tid>)
    requires forall i: Tid :: i in woken ==> i < |cars| && cars[i].pc.Waiting?
    ensures Sum(Ranks(c, Rouse(cars, woken))) <= Sum(Ranks(c, cars)) + |woken|
  {
    if woken == [] {
      assert Rouse(cars, woken) == cars;
    } else {
      var rest, x := woken[..|woken| - 1], woken[|woken| - 1];
      assert woken == rest + [x];
      assert x in woken && forall i: Tid :: i in rest ==> i in woken;
      RouseRanks(c, cars, rest);
      RouseOneMore(cars, rest, x);
      RanksMove(c, Rouse(cars, rest), x, cars[x].(pc := Roused));
      RousedRank(c, cars[x]);
    }
  }

  lemma EntryRank(c: Config, car: Car, since: nat)
    requires car.pc.Coming? || car.pc.Roused?
    ensures Rank(c, Car(Inside, car.entered + 1, since)) < Rank(c, car)
  {
    var left := c.crossings - car.entered;
    assert (c.max + 4) * (left - 1) == (c.max + 4) * left - (c.max + 4);
  }

  lemma WaitRank(c: Config, car: Car, since: nat)
    requires car.pc.Coming? || car.pc.Roused?
    ensures Rank(c, car.(pc := Waiting, since := since)) == Rank(c, car) - 1
  {
  }

  lemma CarAfterEnter(c: Config, s: State, i: Tid)
    requires At(c, s, i, Enter)
    ensures var (s', since) := (DoEnter(c, s, i), Tested(c, s, i).1);
      && s'.cars == s.cars[i := s'.cars[i]]
      && (s'.cars[i] == Car(Inside, s.cars[i].entered + 1, since)
          || s'.cars[i] == s.cars[i].(pc := Waiting, since := since))
  {
  }

  lemma EnterLowersRanks(c: Config, s: State, i: Tid)
    requires At(c, s, i, Enter)
    ensures Sum(Ranks(c, DoEnter(c, s, i).cars)) < Sum(Ranks(c, s.cars))
  {
    var since := Tested(c, s, i).1;
    CarAfterEnter(c, s, i);
    EntryRank(c, s.cars[i], since);
    WaitRank(c, s.cars[i], since);
    RanksMove(c, s.cars, i, DoEnter(c, s, i).cars[i]);
  }

  lemma WokenWait(c: Config, s: State)
    requires QueuesOk(c, s)
    ensures forall j: Tid :: j in Woken(c.max, s.st) ==> j < |s.cars| && s.cars[j].pc.Waiting?
  {
    assert QueueOk(c, s, AfterLeaving(s.st));
    assert forall j: Tid :: j in Woken(c.max, s.st) ==> j in s.st.queue.Of(AfterLeaving(s.st));
  }

  lemma FewAreWoken(c: Config, s: State, i: Tid)
    requires StreetOk(c, s) && At(c, s, i, Exit)
    ensures |Woken(c.max, s.st)| <= c.max
  {
    assert i in InsideSet(s.cars);
  }

  lemma LeavingRank(c: Config, car: Car)
    requires car.pc.Inside?
    ensures Rank(c, car.(pc := NextPc(c, car.entered))) < Rank(c, car) - c.max
  {
  }

  lemma ExitLowersRanks(c: Config, s: State, i: Tid)
    requires QueuesOk(c, s) && StreetOk(c, s) && At(c, s, i, Exit)
    ensures Sum(Ranks(c, DoExit(c, s, i).cars)) < Sum(Ranks(c, s.cars))
  {
    var woken := Woken(c.max, s.st);
    WokenWait(c, s);
    FewAreWoken(c, s, i);
    RouseRanks(c, s.cars, woken);
    LeavingRank(c, s.cars[i]);
    RanksMove(c, Rouse(s.cars, woken), i, DoExit(c, s, i).cars[i]);
  }

  lemma BookingLowersRanks(c: Config, s: State, i: Tid, a: Action)
    requires CarsOk(c, s) && At(c, s, i, a) && (a.Register? || a.Deregister?)
    ensures Sum(Ranks(c, Do(c, s, i, a).cars)) < Sum(Ranks(c, s.cars))
  {
    assert CarOk(c, s, s.cars[i]);
    RanksMove(c, s.cars, i, Do(c, s, i, a).cars[i]);
  }

  lemma StepLowersMeasure(c: Config, s: State, i: Tid, a: Action)
    requires Inv(c, s) && At(c, s, i, a)
    ensures Measure(c, Do(c, s, i, a)) < Measure(c, s)
  {
    var s' := Do(c, s, i, a);
    StepKeepsInv(c, s, i, a);
    MeasureIsSum(c, s);
    MeasureIsSum(c, s');
    match a
    case Enter => EnterLowersRanks(c, s, i);
    case Exit => ExitLowersRanks(c, s, i);
    case _ => BookingLowersRanks(c, s, i, a);
  }

  lemma StepsLowerMeasure(c: Config)
    ensures forall s, s' :: Inv(c, s) && Steps(c)(s, s') ==> Inv(c, s') && Measure(c, s') < Measure(c, s)
  {
    forall s, s' | Inv(c, s) && Steps(c)(s, s')
      ensures Inv(c, s') && Measure(c, s') < Measure(c, s)
    {
      var i: Tid, a :| At(c, s, i, a) && s' == Do(c, s, i, a);
      StepKeepsInv(c, s, i, a);
      StepLowersMeasure(c, s, i, a);
    }
  }

  lemma InitialMeasure(c: Config, s: State)
    requires Init(c, s)
    ensures Measure(c, s) == ((c.max + 4) * c.crossings + 4) * |c.dir|
  {
    var rank := (c.max + 4) * c.crossings + 4;
    SumBounds(Ranks(c, s.cars), rank, rank);
  }

  /** No run is longer than the crossings, and the signals they can cause, allow. */
  lemma EveryRunEnds(c: Config, run: seq<State>)
    requires IsRun(Starts(c), Steps(c), run)
    ensures |run| <= ((c.max + 4) * c.crossings + 4) * |c.dir| + 1
  {
    var inv, measure := (s: State) => Inv(c, s), (s: State) => Measure(c, s);
    forall s | Starts(c)(s)
      ensures inv(s)
    {
      InitOk(c, s);
    }
    StepsLowerMeasure(c);
    MeasureBoundsRun(Starts(c), Steps(c), inv, measure, run);
    InitialMeasure(c, run[0]);
  }

  // ---------- what is wanted ----------

  ghost predicate AllCarsGone(s: State)
  {
    forall i :: 0 <= i < |s.cars| ==> s.cars[i].pc.Gone?
  }

  /** However the cars interleave, all of them get across. */
  ghost predicate NobodyIsStranded(c: Config)
  {
    forall run: seq<State> ::
      IsRun(Starts(c), Steps(c), run) && IsStuck(Steps(c), run[|run| - 1]) ==> AllCarsGone(run[|run| - 1])
  }

  /** All cars go the same way. */
  ghost predicate OneWay(c: Config)
  {
    forall i, j :: 0 <= i < |c.dir| && 0 <= j < |c.dir| ==> c.dir[i] == c.dir[j]
  }

  lemma MoveIsStep(c: Config, s: State, i: Tid, a: Action)
    requires At(c, s, i, a)
    ensures Steps(c)(s, Do(c, s, i, a))
  {
  }

  /** Only cars that wait or are gone cannot move. */
  lemma CannotMove(c: Config, s: State, i: Tid)
    requires Inv(c, s) && IsStuck(Steps(c), s) && i < |s.cars|
    ensures s.cars[i].pc.Waiting? || s.cars[i].pc.Gone?
  {
    assert CarOk(c, s, s.cars[i]);
    if At(c, s, i, Register) { MoveIsStep(c, s, i, Register); }
    if At(c, s, i, Enter) { MoveIsStep(c, s, i, Enter); }
    if At(c, s, i, Exit) { MoveIsStep(c, s, i, Exit); }
    if At(c, s, i, Deregister) { MoveIsStep(c, s, i, Deregister); }
  }

  /** A stuck state without waiting cars is the end. */
  lemma NobodyWaitsAtTheEnd(c: Config, s: State)
    requires Inv(c, s) && IsStuck(Steps(c), s) && forall i: Tid :: i < |s.cars| ==> !s.cars[i].pc.Waiting?
    ensures AllCarsGone(s)
  {
    forall i | 0 <= i < |s.cars|
      ensures s.cars[i].pc.Gone?
    {
      CannotMove(c, s, i);
    }
  }

  /** A property that every step keeps and that forbids stranding. */
  lemma SafeRunsComplete(c: Config, keeps: State -> bool)
    requires forall s :: Init(c, s) ==> keeps(s)
    requires forall s, s' :: Inv(c, s) && keeps(s) && Steps(c)(s, s') ==> keeps(s')
    requires forall s :: Inv(c, s) && keeps(s) && IsStuck(Steps(c), s) ==> AllCarsGone(s)
    ensures NobodyIsStranded(c)
  {
    forall run: seq<State> | IsRun(Starts(c), Steps(c), run) && IsStuck(Steps(c), run[|run| - 1])
      ensures AllCarsGone(run[|run| - 1])
    {
      var inv := (s: State) => Inv(c, s) && keeps(s);
      forall s | Starts(c)(s)
        ensures inv(s)
      {
        InitOk(c, s);
      }
      StepsLowerMeasure(c);
      InvariantAlways(Starts(c), Steps(c), inv, run);
    }
  }

  lemma ActivePositive(c: Config, s: State, i: Tid)
    requires ActivesOk(c, s) && i < |s.cars| && IsActive(s.cars[i])
    ensures s.st.active.Of(c.dir[i]) > 0
  {
    assert i in ActiveSet(c, s.cars, c.dir[i]);
  }

  // ---------- cars that all go the same way ----------

  /** While a car waits, the cars inside and those on their way fill the street. */
  ghost predicate SameWay(c: Config, g: Direction, s: State)
  {
    && (forall i :: 0 <= i < |c.dir| ==> c.dir[i] == g)
    && (s.st.queue.Of(g) != [] || RousedSet(s.cars) != {} || InsideSet(s.cars) != {} ==> s.st.direction == g)
    && (s.st.queue.Of(g) != [] ==> s.st.count + |RousedSet(s.cars)| >= c.max)
  }

  lemma RousedMoves(cars: seq<Car>, i: Tid, car: Car)
    requires i < |cars|
    ensures RousedSet(cars[i := car]) == RousedSet(cars) - {i} + (if car.pc.Roused? then {i} else {})
    ensures |RousedSet(cars[i := car])| ==
      |RousedSet(cars)| - (if cars[i].pc.Roused? then 1 else 0) + (if car.pc.Roused? then 1 else 0)
  {
    OneMemberMoves(RousedSet(cars), RousedSet(cars[i := car]), i);
  }

  lemma SameWayBooks(c: Config, g: Direction, s: State, i: Tid, a: Action)
    requires SameWay(c, g, s) && At(c, s, i, a) && (a.Register? || a.Deregister?)
    ensures SameWay(c, g, Do(c, s, i, a))
  {
    RousedMoves(s.cars, i, Do(c, s, i, a).cars[i]);
    InsideMoves(s.cars, i, Do(c, s, i, a).cars[i]);
  }

  /** A car that comes to the street finds it turned its way. */
  lemma SameWayTests(c: Config, g: Direction, s: State, i: Tid)
    requires c.max > 0 && Inv(c, s) && SameWay(c, g, s) && At(c, s, i, Enter)
    ensures Tested(c, s, i).0.direction == g
  {
    ActivePositive(c, s, i);
    if s.cars[i].pc.Roused? { assert i in RousedSet(s.cars); }
  }

  lemma SameWayEnters(c: Config, g: Direction, s: State, i: Tid)
    requires c.max > 0 && Inv(c, s) && SameWay(c, g, s) && At(c, s, i, Enter)
    ensures SameWay(c, g, DoEnter(c, s, i))
  {
    SameWayTests(c, g, s, i);
    EntersSameWay(c, g, s, i);
  }

  lemma EntersSameWay(c: Config, g: Direction, s: State, i: Tid)
    requires SameWay(c, g, s) && At(c, s, i, Enter) && Tested(c, s, i).0.direction == g
    ensures SameWay(c, g, DoEnter(c, s, i))
  {
    var car := DoEnter(c, s, i).cars[i];
    RousedMoves(s.cars, i, car);
    InsideMoves(s.cars, i, car);
  }

  lemma SameWayExits(c: Config, g: Direction, s: State, i: Tid)
    requires Inv(c, s) && SameWay(c, g, s) && At(c, s, i, Exit)
    ensures SameWay(c, g, DoExit(c, s, i))
  {
    var s', woken := DoExit(c, s, i), Woken(c.max, s.st);
    assert i in InsideSet(s.cars);
    ActivePositive(c, s, i);
    assert ActiveSet(c, s.cars, Opposite(g)) == {};
    assert ActiveOk(c, s, Opposite(g));
    assert AfterLeaving(s.st) == g && Signals(c.max, s.st) == 1;
    WokenWait(c, s);
    RouseKeeps(c, s.cars, woken);
    InsideMoves(Rouse(s.cars, woken), i, s'.cars[i]);
    RousedMoves(Rouse(s.cars, woken), i, s'.cars[i]);
    RousedGrows(s.cars, woken);
  }

  lemma RousedGrows(cars: seq<Car>, woken: seq<Tid>)
    requires |woken| <= 1 && forall i: Tid :: i in woken ==> i < |cars| && cars[i].pc.Waiting?
    ensures |RousedSet(Rouse(cars, woken))| == |RousedSet(cars)| + |woken|
  {
    if woken == [] {
      assert RousedSet(Rouse(cars, woken)) == RousedSet(cars);
    } else {
      assert woken == [woken[0]];
      assert RousedSet(Rouse(cars, woken)) == RousedSet(cars) + {woken[0]};
    }
  }

  lemma SomebodyWaitsInQueue(c: Config, s: State, i: Tid)
    requires QueuesOk(c, s) && i < |s.cars| && s.cars[i].pc.Waiting?
    ensures i in s.st.queue.Of(c.dir[i])
  {
    assert QueueOk(c, s, c.dir[i]);
  }

  lemma SameWayCompletes(c: Config, g: Direction, s: State)
    requires c.max > 0 && Inv(c, s) && SameWay(c, g, s) && IsStuck(Steps(c), s)
    ensures AllCarsGone(s)
  {
    forall i: Tid | i < |s.cars|
      ensures i !in RousedSet(s.cars) && i !in InsideSet(s.cars)
    {
      CannotMove(c, s, i);
    }
    assert RousedSet(s.cars) == {} && InsideSet(s.cars) == {};
    forall i: Tid | i < |s.cars|
      ensures !s.cars[i].pc.Waiting?
    {
      if s.cars[i].pc.Waiting? { SomebodyWaitsInQueue(c, s, i); }
    }
    NobodyWaitsAtTheEnd(c, s);
  }

  lemma OneWayCompletes(c: Config)
    requires c.max > 0 && OneWay(c)
    ensures NobodyIsStranded(c)
  {
    var g := if |c.dir| > 0 then c.dir[0] else East;
    var keeps := (s: State) => SameWay(c, g, s);
    forall s, s' | Inv(c, s) && keeps(s) && Steps(c)(s, s')
      ensures keeps(s')
    {
      var i: Tid, a :| At(c, s, i, a) && s' == Do(c, s, i, a);
      match a
      case Enter => SameWayEnters(c, g, s, i);
      case Exit => SameWayExits(c, g, s, i);
      case _ => SameWayBooks(c, g, s, i, a);
    }
    forall s | Inv(c, s) && keeps(s) && IsStuck(Steps(c), s)
      ensures AllCarsGone(s)
    {
      SameWayCompletes(c, g, s);
    }
    forall s | Init(c, s)
      ensures keeps(s)
    {
      assert RousedSet(s.cars) == {} && InsideSet(s.cars) == {};
    }
    SafeRunsComplete(c, keeps);
  }

  // ---------- one car each way ----------

  /** A waiting car waits for the other to leave; one that was signalled finds the street turned its way. */
  ghost predicate Yielding(c: Config, s: State, x: Tid, y: Tid)
    requires |s.cars| == |c.dir| == 2 && x < 2 && y < 2
  {
    && (s.cars[x].pc.Waiting? ==> s.cars[y].pc.Inside?)
    && (s.cars[x].pc.Roused? ==> s.cars[y].pc.Inside? || s.st.direction == c.dir[x])
  }

  ghost predicate Opposed(c: Config, s: State)
  {
    |s.cars| == |c.dir| == 2 && c.dir[0] != c.dir[1] && Yielding(c, s, 0, 1) && Yielding(c, s, 1, 0)
  }

  lemma SomebodyIsInside(c: Config, s: State, i: Tid, j: Tid)
    requires Inv(c, s) && |s.cars| == 2 && i < 2 && j == 1 - i && s.st.count > 0 && !s.cars[i].pc.Inside?
    ensures s.cars[j].pc.Inside?
  {
    var k :| k in InsideSet(s.cars);
    assert k == j;
  }

  lemma OpposedEnters(c: Config, s: State, i: Tid)
    requires c.max > 0 && Inv(c, s) && Opposed(c, s) && At(c, s, i, Enter)
    ensures Opposed(c, DoEnter(c, s, i))
  {
    var j, st := 1 - i, Tested(c, s, i).0;
    ActivePositive(c, s, i);
    if Blocked(c.max, st, c.dir[i]) && s.st.count > 0 { SomebodyIsInside(c, s, i, j); }
  }

  /** The car that leaves is alone in the street, and turns it to the other one. */
  lemma OpposedTurns(c: Config, s: State, i: Tid, j: Tid)
    requires Inv(c, s) && Opposed(c, s) && At(c, s, i, Exit) && j == 1 - i && IsActive(s.cars[j])
    ensures s.st.count == 1 && AfterLeaving(s.st) == c.dir[j]
  {
    assert i in InsideSet(s.cars);
    assert c.dir[i] == s.st.direction;
    assert j !in InsideSet(s.cars);
    assert InsideSet(s.cars) == {i};
    ActivePositive(c, s, j);
  }

  lemma OpposedWakes(c: Config, s: State, i: Tid, j: Tid)
    requires c.max > 0 && Inv(c, s) && Opposed(c, s) && At(c, s, i, Exit) && j == 1 - i && s.cars[j].pc.Waiting?
    ensures j in Woken(c.max, s.st)
  {
    OpposedTurns(c, s, i, j);
    SomebodyWaitsInQueue(c, s, j);
    var q := s.st.queue.Of(c.dir[j]);
    assert QueueOk(c, s, c.dir[j]);
    assert q[0] in q && q[0] == j;
    assert Woken(c.max, s.st)[0] == q[0];
  }

  lemma OpposedExits(c: Config, s: State, i: Tid)
    requires c.max > 0 && Inv(c, s) && Opposed(c, s) && At(c, s, i, Exit)
    ensures Opposed(c, DoExit(c, s, i))
  {
    var j := 1 - i;
    WokenWait(c, s);
    if IsActive(s.cars[j]) { OpposedTurns(c, s, i, j); }
    if s.cars[j].pc.Waiting? { OpposedWakes(c, s, i, j); }
  }

  lemma OpposedStep(c: Config, s: State, i: Tid, a: Action)
    requires c.max > 0 && Inv(c, s) && Opposed(c, s) && At(c, s, i, a)
    ensures Opposed(c, Do(c, s, i, a))
  {
    match a
    case Enter => OpposedEnters(c, s, i);
    case Exit => OpposedExits(c, s, i);
    case _ =>
  }

  lemma OpposedCompletes(c: Config, s: State)
    requires Inv(c, s) && Opposed(c, s) && IsStuck(Steps(c), s)
    ensures AllCarsGone(s)
  {
    CannotMove(c, s, 0);
    CannotMove(c, s, 1);
    NobodyWaitsAtTheEnd(c, s);
  }

  lemma OneEachWayCompletes(c: Config)
    requires c.max > 0 && |c.dir| == 2 && c.dir[0] != c.dir[1]
    ensures NobodyIsStranded(c)
  {
    var keeps := (s: State) => Opposed(c, s);
    forall s, s' | Inv(c, s) && keeps(s) && Steps(c)(s, s')
      ensures keeps(s')
    {
      var i: Tid, a :| At(c, s, i, a) && s' == Do(c, s, i, a);
      OpposedStep(c, s, i, a);
    }
    forall s | Inv(c, s) && keeps(s) && IsStuck(Steps(c), s)
      ensures AllCarsGone(s)
    {
      OpposedCompletes(c, s);
    }
    SafeRunsComplete(c, keeps);
  }

  // ---------- all other cars: a run that strands one ----------

  ghost predicate Reached(c: Config, s: State)
  {
    |s.cars| == |c.dir| && IsReachable(Starts(c), Steps(c), s)
  }

  lemma ReachedInv(c: Config, s: State)
    requires Reached(c, s)
    ensures Inv(c, s)
  {
    var run :| IsRun(Starts(c), Steps(c), run) && run[|run| - 1] == s;
    EveryRunKeepsInv(c, run);
  }

  lemma Reach(c: Config, s: State, i: Tid, a: Action) returns (s': State)
    requires Reached(c, s) && At(c, s, i, a)
    ensures s' == Do(c, s, i, a) && Reached(c, s')
  {
    s' := Do(c, s, i, a);
    MoveIsStep(c, s, i, a);
    StepIsReachable(Starts(c), Steps(c), s, s');
  }

  /** Nobody is in the street or waits for it. */
  ghost predicate Calm(s: State)
  {
    s.st.count == 0 && s.st.queue == Both([], [])
  }

  /** The other cars are where they were. */
  ghost predicate OthersStay(s: State, s': State, i: Tid)
  {
    |s'.cars| == |s.cars| && forall j :: 0 <= j < |s.cars| && j != i ==> s'.cars[j] == s.cars[j]
  }

  ghost predicate Stands(s: State, i: Tid, pc: Pc, entered: int)
  {
    i < |s.cars| && s.cars[i].pc == pc && s.cars[i].entered == entered
  }

  lemma Registers(c: Config, s: State, i: Tid) returns (s': State)
    requires Reached(c, s) && Stands(s, i, Unregistered, 0)
    ensures Reached(c, s') && OthersStay(s, s', i) && Stands(s', i, NextPc(c, 0), 0)
    ensures s'.st.count == s.st.count && s'.st.queue == s.st.queue
  {
    ReachedInv(c, s);
    s' := Reach(c, s, i, Register);
  }

  lemma Deregisters(c: Config, s: State, i: Tid) returns (s': State)
    requires Reached(c, s) && Stands(s, i, Leaving, c.crossings)
    ensures Reached(c, s') && OthersStay(s, s', i) && Stands(s', i, Gone, c.crossings)
    ensures s'.st.count == s.st.count && s'.st.queue == s.st.queue
  {
    ReachedInv(c, s);
    s' := Reach(c, s, i, Deregister);
  }

  /** A car that comes to an empty street turns it and enters. */
  lemma Enters(c: Config, s: State, i: Tid, e: nat) returns (s': State)
    requires c.max > 0 && Reached(c, s) && s.st.count == 0 && Stands(s, i, Coming, e)
    ensures Reached(c, s') && OthersStay(s, s', i) && Stands(s', i, Inside, e + 1)
    ensures s'.st.count == 1 && s'.st.queue == s.st.queue && s'.st.direction == c.dir[i]
  {
    ReachedInv(c, s);
    assert CarOk(c, s, s.cars[i]);
    ActivePositive(c, s, i);
    s' := Reach(c, s, i, Enter);
  }

  /** When nobody waits for the side it turns to, a car that leaves wakes nobody. */
  lemma Exits(c: Config, s: State, i: Tid, e: nat) returns (s': State)
    requires Reached(c, s) && s.st.count == 1 && Stands(s, i, Inside, e) && s.st.queue.Of(AfterLeaving(s.st)) == []
    ensures Reached(c, s') && OthersStay(s, s', i) && Stands(s', i, NextPc(c, e), e)
    ensures s'.st.count == 0 && s'.st.queue == s.st.queue && s'.st.direction == AfterLeaving(s.st)
  {
    ReachedInv(c, s);
    s' := Reach(c, s, i, Exit);
    assert Woken(c.max, s.st) == [];
    assert Rouse(s.cars, []) == s.cars;
  }

  /** Alone a car can cross as often as it likes. */
  lemma {:induction false} CrossesAlone(c: Config, s: State, i: Tid, times: nat) returns (s': State)
    requires c.max > 0 && Reached(c, s) && Calm(s) && times <= c.crossings && Stands(s, i, NextPc(c, 0), 0)
    ensures Reached(c, s') && Calm(s') && OthersStay(s, s', i) && Stands(s', i, NextPc(c, times), times)
  {
    s' := s;
    if times > 0 {
      s' := CrossesAlone(c, s, i, times - 1);
      s' := Enters(c, s', i, times - 1);
      s' := Exits(c, s', i, times);
    }
  }

  /** Three cars, of which `w` goes against the two others. */
  ghost predicate IsTrio(c: Config, w: Tid, e: Tid, f: Tid)
  {
    w < |c.dir| && e < |c.dir| && f < |c.dir| && e != f && c.dir[e] == c.dir[f] != c.dir[w]
  }

  lemma FindTrio(c: Config) returns (w: Tid, e: Tid, f: Tid)
    requires |c.dir| > 2 && !OneWay(c)
    ensures IsTrio(c, w, e, f)
  {
    var i, j :| 0 <= i < |c.dir| && 0 <= j < |c.dir| && c.dir[i] != c.dir[j];
    var k: nat := if i != 0 && j != 0 then 0 else if i != 1 && j != 1 then 1 else 2;
    if c.dir[k] == c.dir[i] { w, e, f := j, i, k; } else { w, e, f := i, j, k; }
  }

  /**
    The first `n` cars have crossed and gone, but those of the trio have one crossing left; the others are yet to
    come.
  */
  ghost predicate Prepared(c: Config, s: State, n: nat, trio: set<Tid>)
  {
    Reached(c, s) && Calm(s) && forall i: Tid :: i < |s.cars| ==> IsPrepared(c, s, i, n, trio)
  }

  ghost predicate IsPrepared(c: Config, s: State, i: Tid, n: nat, trio: set<Tid>)
  {
    if i >= n then Stands(s, i, Unregistered, 0)
    else if i in trio then Stands(s, i, Coming, c.crossings - 1)
    else Stands(s, i, Gone, c.crossings)
  }

  lemma InitialState(c: Config) returns (s: State)
    ensures Init(c, s)
  {
    var zeros := seq(c.max + 1, _ => 0);
    s := State(Street(East, 0, Both(0, 0), 0, seq(c.histogramSize, _ => 0), 0, Both(zeros, zeros), Both([], [])),
      seq(|c.dir|, _ => Car(Unregistered, 0, 0)));
  }

  lemma {:induction false} Prepare(c: Config, n: nat, trio: set<Tid>) returns (s: State)
    requires c.max > 0 && c.crossings > 0 && n <= |c.dir|
    ensures Prepared(c, s, n, trio)
  {
    if n == 0 {
      s := InitialState(c);
      InitOk(c, s);
      InitialIsReachable(Starts(c), Steps(c), s);
    } else {
      var before := Prepare(c, n - 1, trio);
      s := PrepareOne(c, before, n - 1, trio);
    }
  }

  lemma PrepareOne(c: Config, before: State, i: Tid, trio: set<Tid>) returns (s: State)
    requires c.max > 0 && c.crossings > 0 && i < |c.dir| && Prepared(c, before, i, trio)
    ensures Prepared(c, s, i + 1, trio)
  {
    assert IsPrepared(c, before, i, i, trio);
    s := Registers(c, before, i);
    if i in trio {
      s := CrossesAlone(c, s, i, c.crossings - 1);
    } else {
      s := CrossesAlone(c, s, i, c.crossings);
      s := Deregisters(c, s, i);
    }
    StillPrepared(c, before, s, i, trio);
  }

  lemma StillPrepared(c: Config, before: State, s: State, i: Tid, trio: set<Tid>)
    requires i < |before.cars| && Prepared(c, before, i, trio) && Reached(c, s) && Calm(s) && OthersStay(before, s, i)
    requires IsPrepared(c, s, i, i + 1, trio)
    ensures Prepared(c, s, i + 1, trio)
  {
    var n := i + 1;
    forall j: Tid | j < |s.cars|
      ensures IsPrepared(c, s, j, n, trio)
    {
      assert j != i ==> IsPrepared(c, before, j, i, trio);
    }
  }

  ghost predicate OthersGone(s: State, w: Tid, e: Tid, f: Tid)
  {
    forall i: Tid :: i < |s.cars| && i != w && i != e && i != f ==> s.cars[i].pc.Gone?
  }

  /** Car `e` finds car `w` in the street and waits; as `w` leaves it signals `e`. */
  lemma FirstIsRoused(c: Config, s0: State, w: Tid, e: Tid, f: Tid) returns (s: State)
    requires c.max > 0 && c.crossings > 0 && IsTrio(c, w, e, f) && Reached(c, s0) && Calm(s0) && OthersGone(s0, w, e, f)
    requires Stands(s0, w, Coming, c.crossings - 1) && Stands(s0, e, Coming, c.crossings - 1)
    requires Stands(s0, f, Coming, c.crossings - 1)
    ensures Reached(c, s) && Calm(s) && OthersGone(s, w, e, f)
    ensures Stands(s, w, Leaving, c.crossings) && Stands(s, e, Roused, c.crossings - 1)
    ensures Stands(s, f, Coming, c.crossings - 1)
  {
    var last := c.crossings - 1;
    s := Enters(c, s0, w, last);
    s := WaitsBehind(c, s, e, last);
    s := Rouses(c, s, w, e);
  }

  lemma WaitsBehind(c: Config, s: State, i: Tid, e: nat) returns (s': State)
    requires Reached(c, s) && i < |c.dir| && s.st.direction != c.dir[i] && s.st.queue.Of(c.dir[i]) == []
    requires Stands(s, i, Roused, e) || (s.st.count > 0 && Stands(s, i, Coming, e))
    ensures Reached(c, s') && OthersStay(s, s', i) && Stands(s', i, Waiting, e)
    ensures s'.st == s.st.(queue := s.st.queue.With(c.dir[i], [i]))
  {
    ReachedInv(c, s);
    assert CarOk(c, s, s.cars[i]);
    s' := Reach(c, s, i, Enter);
    assert Tested(c, s, i).0 == s.st;
    assert Enqueue([], i) == [i];
  }

  lemma RouseOne(cars: seq<Car>, j: Tid)
    requires j < |cars|
    ensures Rouse(cars, [j]) == cars[j := cars[j].(pc := Roused)]
  {
  }

  lemma WakesOnly(c: Config, s: State, j: Tid)
    requires c.max > 0 && s.st.count == 1 && s.st.active.Of(Opposite(s.st.direction)) != 0
    requires s.st.queue == Both([], []).With(Opposite(s.st.direction), [j])
    ensures Woken(c.max, s.st) == [j] && Left(c.max, s.st).queue == Both([], [])
  {
    assert [j][1..] == [];
  }

  /** Car `i` leaves the street to the waiting car `j`. */
  lemma Rouses(c: Config, s: State, i: Tid, j: Tid) returns (s': State)
    requires c.max > 0 && c.crossings > 0 && Reached(c, s) && s.st.count == 1 && Stands(s, i, Inside, c.crossings)
    requires Stands(s, j, Waiting, c.crossings - 1)
    requires c.dir[j] != c.dir[i] == s.st.direction && s.st.queue == Both([], []).With(c.dir[j], [j])
    ensures Reached(c, s') && Calm(s') && Stands(s', i, Leaving, c.crossings) && Stands(s', j, Roused, c.crossings - 1)
    ensures |s'.cars| == |s.cars| && forall k: Tid :: k < |s.cars| && k != i && k != j ==> s'.cars[k] == s.cars[k]
  {
    ReachedInv(c, s);
    ActivePositive(c, s, j);
    s' := Reach(c, s, i, Exit);
    WakesOnly(c, s, j);
    RouseOne(s.cars, j);
  }

  /** Before `e` tests again car `f` crosses; as it leaves it turns the street to the side of `w`. */
  lemma SecondTurnsTheStreet(c: Config, s0: State, w: Tid, e: Tid, f: Tid) returns (s: State)
    requires c.max > 0 && c.crossings > 0 && IsTrio(c, w, e, f) && Reached(c, s0) && Calm(s0)
    requires Stands(s0, w, Leaving, c.crossings) && Stands(s0, e, Roused, c.crossings - 1)
    requires Stands(s0, f, Coming, c.crossings - 1) && OthersGone(s0, w, e, f)
    ensures Reached(c, s) && Calm(s) && OthersGone(s, w, e, f) && s.st.direction == c.dir[w]
    ensures Stands(s, w, Leaving, c.crossings) && Stands(s, e, Roused, c.crossings - 1)
      && Stands(s, f, Leaving, c.crossings)
  {
    var s1 := Enters(c, s0, f, c.crossings - 1);
    ReachedInv(c, s1);
    ActivePositive(c, s1, w);
    s := Exits(c, s1, f, c.crossings);
  }

  /** So `e` waits again, the two others go, and nobody is left to signal it. */
  lemma OneIsLeft(c: Config, s0: State, w: Tid, e: Tid, f: Tid) returns (s: State)
    requires c.crossings > 0 && IsTrio(c, w, e, f) && Reached(c, s0) && Calm(s0) && s0.st.direction == c.dir[w]
    requires Stands(s0, w, Leaving, c.crossings) && Stands(s0, e, Roused, c.crossings - 1)
    requires Stands(s0, f, Leaving, c.crossings) && OthersGone(s0, w, e, f)
    ensures Stranded(c, s, e)
  {
    s := WaitsBehind(c, s0, e, c.crossings - 1);
    s := Deregisters(c, s, w);
    s := Deregisters(c, s, f);
  }

  ghost predicate Stranded(c: Config, s: State, e: Tid)
  {
    && Reached(c, s) && s.st.count == 0 && Stands(s, e, Waiting, c.crossings - 1)
    && forall i: Tid :: i < |s.cars| && i != e ==> s.cars[i].pc.Gone?
  }

  lemma StuckWithout(c: Config, s: State, e: Tid)
    requires Stands(s, e, Waiting, c.crossings - 1) && forall i: Tid :: i < |s.cars| && i != e ==> s.cars[i].pc.Gone?
    requires c.crossings > 0
    ensures IsStuck(Steps(c), s)
  {
    assert forall i: Tid, a :: !At(c, s, i, a);
  }

  lemma TrioStrands(c: Config, s: State, w: Tid, e: Tid, f: Tid) returns (last: State)
    requires c.max > 0 && c.crossings > 0 && IsTrio(c, w, e, f) && Prepared(c, s, |c.dir|, {w, e, f})
    ensures Stranded(c, last, e)
  {
    assert IsPrepared(c, s, w, |c.dir|, {w, e, f}) && IsPrepared(c, s, e, |c.dir|, {w, e, f});
    assert IsPrepared(c, s, f, |c.dir|, {w, e, f});
    assert OthersGone(s, w, e, f) by {
      forall i: Tid | i < |s.cars| && i != w && i != e && i != f
        ensures s.cars[i].pc.Gone?
      {
        assert IsPrepared(c, s, i, |c.dir|, {w, e, f});
      }
    }
    last := FirstIsRoused(c, s, w, e, f);
    last := SecondTurnsTheStreet(c, last, w, e, f);
    last := OneIsLeft(c, last, w, e, f);
  }

  /** Three cars that do not all go the same way are enough for a run that leaves one waiting at an empty street. */
  lemma SomeCarIsStranded(c: Config) returns (run: seq<State>, e: Tid)
    requires c.max > 0 && c.crossings > 0 && |c.dir| > 2 && !OneWay(c)
    ensures IsRun(Starts(c), Steps(c), run) && IsStuck(Steps(c), run[|run| - 1])
    ensures e < |run[|run| - 1].cars| && run[|run| - 1].cars[e].pc.Waiting? && run[|run| - 1].st.count == 0
    ensures !NobodyIsStranded(c)
  {
    var w, f;
    w, e, f := FindTrio(c);
    var s := Prepare(c, |c.dir|, {w, e, f});
    var last := TrioStrands(c, s, w, e, f);
    StuckWithout(c, last, e);
    run :| IsRun(Starts(c), Steps(c), run) && run[|run| - 1] == last;
  }

  // ---------- a street that nobody may enter ----------

  ghost predicate NobodyEntered(s: State)
  {
    forall i :: 0 <= i < |s.cars| ==> s.cars[i].entered == 0
  }

  lemma NobodyEnters(c: Config, s: State, i: Tid, a: Action)
    requires c.max == 0 && Inv(c, s) && NobodyEntered(s) && At(c, s, i, a)
    ensures NobodyEntered(Do(c, s, i, a))
  {
    assert a.Exit? ==> i in InsideSet(s.cars);
  }

  lemma FullStreetStrands(c: Config)
    requires c.max == 0 && c.crossings > 0 && |c.dir| > 0
    ensures !NobodyIsStranded(c)
  {
    var s := InitialState(c);
    var init, next := Starts(c), Steps(c);
    var inv, measure := (s: State) => Inv(c, s) && NobodyEntered(s), (s: State) => Measure(c, s);
    StepsLowerMeasure(c);
    forall s, s' | inv(s) && next(s, s')
      ensures NobodyEntered(s')
    {
      var i: Tid, a :| At(c, s, i, a) && s' == Do(c, s, i, a);
      NobodyEnters(c, s, i, a);
    }
    InitOk(c, s);
    var run := RunCanBeCompleted(init, next, inv, measure, [s]);
    forall s | init(s)
      ensures inv(s)
    {
      InitOk(c, s);
    }
    InvariantAlways(init, next, inv, run);
    var last := run[|run| - 1];
    assert inv(last) && CarOk(c, last, last.cars[0]);
  }

  lemma NothingToDoCompletes(c: Config)
    requires c.crossings == 0 || |c.dir| == 0
    ensures NobodyIsStranded(c)
  {
    var keeps := (s: State) => true;
    forall s | Inv(c, s) && keeps(s) && IsStuck(Steps(c), s)
      ensures AllCarsGone(s)
    {
      assert forall i :: 0 <= i < |s.cars| ==> CarOk(c, s, s.cars[i]);
      NobodyWaitsAtTheEnd(c, s);
    }
    SafeRunsComplete(c, keeps);
  }

  /**
    All cars are sure to get across exactly when there is nothing to do, or the street admits somebody and there
    are at most two cars or all go the same way.
  */
  lemma NobodyIsStrandedExactlyWhen(c: Config)
    ensures NobodyIsStranded(c) <==>
      c.crossings == 0 || |c.dir| == 0 || (c.max > 0 && (|c.dir| <= 2 || OneWay(c)))
  {
    if c.crossings == 0 || |c.dir| == 0 {
      NothingToDoCompletes(c);
    } else if c.max == 0 {
      FullStreetStrands(c);
    } else if OneWay(c) {
      OneWayCompletes(c);
    } else if |c.dir| <= 2 {
      OneEachWayCompletes(c);
    } else {
      var _, _ := SomeCarIsStranded(c);
    }
  }
}
