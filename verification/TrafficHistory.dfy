/**
  What the one-lane street does to its cars, and what its statistics count (a11/traffic.c).

  `EnterMeaning` and `ExitMeaning` say what a turn does to the cars, by where the cars are and nothing else.
  `Log` is the list of all entries of a run, read off the places of the cars; `EveryBinCounts` compares it with
  the ticker and with every bin of both histograms.
*/
module TrafficHistory {
  import opened Common
  import opened Runs
  import opened OneLaneStreet
  import opened Traffic

  // ---------- one turn ----------

  /** A newcomer to an empty street turns it its way. */
  ghost function DirectionFor(c: Config, s: State, i: Tid): Direction
    requires i < |s.cars| && i < |c.dir|
  {
    if s.cars[i].pc.Coming? && InsideSet(s.cars) == {} then c.dir[i] else s.st.direction
  }

  /**
    A car goes inside exactly when the street, perhaps after its turn, goes its way and is not full; otherwise it
    waits behind all others of its direction.  No other car moves.
  */
  lemma EnterMeaning(c: Config, s: State, i: Tid)
    requires Inv(c, s) && At(c, s, i, Enter)
    ensures var s' := DoEnter(c, s, i); var g := c.dir[i];
      && s'.st.direction == DirectionFor(c, s, i) && |s'.cars| == |s.cars|
      && (s'.cars[i].pc.Inside? <==> DirectionFor(c, s, i) == g && |InsideSet(s.cars)| < c.max)
      && s'.cars[i].pc == (if s'.cars[i].pc.Inside? then Inside else Waiting)
      && s'.st.queue.Of(g) == (if s'.cars[i].pc.Inside? then s.st.queue.Of(g) else s.st.queue.Of(g) + [i])
      && s'.st.queue.Of(Opposite(g)) == s.st.queue.Of(Opposite(g))
      && forall j: Tid :: j < |s.cars| && j != i ==> s'.cars[j] == s.cars[j]
  {
    assert QueueOk(c, s, c.dir[i]);
    assert ActiveOk(c, s, c.dir[i]) && i in ActiveSet(c, s.cars, c.dir[i]);
  }

  ghost predicate SomebodyGoes(c: Config, cars: seq<Car>, g: Direction)
    requires |cars| == |c.dir|
  {
    exists j: Tid :: j < |cars| && c.dir[j] == g && IsActive(cars[j])
  }

  /** The street turns when its last car leaves and somebody goes the other way. */
  ghost predicate Turns(c: Config, s: State, i: Tid)
    requires |s.cars| == |c.dir|
  {
    InsideSet(s.cars) == {i} && SomebodyGoes(c, s.cars, Opposite(s.st.direction))
  }

  lemma SomebodyIsActive(c: Config, s: State, g: Direction)
    requires ActivesOk(c, s)
    ensures SomebodyGoes(c, s.cars, g) <==> s.st.active.Of(g) != 0
  {
    assert ActiveOk(c, s, g);
    if s.st.active.Of(g) != 0 {
      var j :| j in ActiveSet(c, s.cars, g);
      assert IsActive(s.cars[j]);
    }
    if SomebodyGoes(c, s.cars, g) {
      var j: Tid :| j < |s.cars| && c.dir[j] == g && IsActive(s.cars[j]);
      assert j in ActiveSet(c, s.cars, g);
    }
  }

  lemma OnlyMember(q: set<Tid>, i: Tid)
    requires i in q
    ensures |q| == 1 <==> q == {i}
  {
    if |q| == 1 {
      assert |q - {i}| == 0;
      assert q == q - {i} + {i};
    }
  }

  /**
    A car that leaves wakes the first waiting cars of the direction after it: `max` of them if the street has turned
    and one if it has not.  No other car moves.
  */
  lemma ExitMeaning(c: Config, s: State, i: Tid)
    requires Inv(c, s) && At(c, s, i, Exit)
    ensures var s' := DoExit(c, s, i); var g := s'.st.direction; var q := s.st.queue.Of(g);
      var n := Min(if Turns(c, s, i) then c.max else 1, |q|);
      && g == (if Turns(c, s, i) then Opposite(s.st.direction) else s.st.direction)
      && s'.st.queue.Of(g) == q[n..] && s'.st.queue.Of(Opposite(g)) == s.st.queue.Of(Opposite(g))
      && |s'.cars| == |s.cars| && (s'.cars[i].pc.Coming? || s'.cars[i].pc.Leaving?)
      && (s'.cars[i].pc.Coming? <==> s.cars[i].entered < c.crossings)
      && forall j: Tid :: j < |s.cars| && j != i ==>
        s'.cars[j] == if j in q[..n] then s.cars[j].(pc := Roused) else s.cars[j]
  {
    assert i in InsideSet(s.cars) && IsActive(s.cars[i]);
    OnlyMember(InsideSet(s.cars), i);
    SomebodyIsActive(c, s, s.st.direction);
    SomebodyIsActive(c, s, Opposite(s.st.direction));
    assert SomebodyGoes(c, s.cars, s.st.direction);
  }

  // ---------- the history of a run ----------

  /** A car that went inside: which, which way, how many entries it let pass, and how many were then inside. */
  datatype Entry = Entry(car: Tid, dir: Direction, waited: int, occupancy: nat)

  ghost predicate Goes(s: State, s': State, i: Tid)
  {
    i < |s.cars| && i < |s'.cars| && !s.cars[i].pc.Inside? && s'.cars[i].pc.Inside?
  }

  ghost predicate SomebodyEnters(s: State, s': State)
  {
    exists i: Tid :: Goes(s, s', i)
  }

  ghost function WhoEnters(s: State, s': State): Tid
    requires SomebodyEnters(s, s')
  {
    var i: Tid :| Goes(s, s', i);
    i
  }

  ghost predicate ManyCars(c: Config, run: seq<State>)
  {
    forall j :: 0 <= j < |run| ==> |run[j].cars| == |c.dir|
  }

  /** The entries up to the state `run[k]`. */
  ghost function Log(c: Config, run: seq<State>, k: nat): seq<Entry>
    requires k < |run| && ManyCars(c, run)
    decreases k, 0
  {
    if k == 0 then []
    else if SomebodyEnters(run[k - 1], run[k]) then
      var i := WhoEnters(run[k - 1], run[k]);
      Log(c, run, k - 1)
        + [Entry(i, c.dir[i], |Log(c, run, k - 1)| - Came(c, run, k - 1, i), |InsideSet(run[k].cars)|)]
    else Log(c, run, k - 1)
  }

  /** How many entries there had been when car `i` last came to the street. */
  ghost function Came(c: Config, run: seq<State>, k: nat, i: Tid): nat
    requires k < |run| && i < |c.dir| && ManyCars(c, run)
    decreases k, 1
  {
    if k == 0 || run[k].cars[i].pc.Coming? then |Log(c, run, k)| else Came(c, run, k - 1, i)
  }

  ghost function OfCar(log: seq<Entry>, i: Tid): set<nat>
  {
    set k: nat | k < |log| && log[k].car == i
  }

  ghost function Waited(log: seq<Entry>, time: nat): set<nat>
  {
    set k: nat | k < |log| && log[k].waited == time
  }

  ghost function WaitedLonger(log: seq<Entry>, size: nat): set<nat>
  {
    set k: nat | k < |log| && log[k].waited >= size
  }

  ghost function Met(log: seq<Entry>, g: Direction, n: nat): set<nat>
  {
    set k: nat | k < |log| && log[k].dir == g && log[k].occupancy == n
  }

  /** The ticker and every bin count entries of the list. */
  ghost predicate Counted(c: Config, s: State, log: seq<Entry>)
  {
    && s.st.ticker == |log|
    && (forall k: nat :: k < |s.st.waiting| ==> s.st.waiting[k] == |Waited(log, k)|)
    && s.st.overflow == |WaitedLonger(log, |s.st.waiting|)|
    && (forall g, k: nat :: k < |s.st.occupancy.Of(g)| ==> s.st.occupancy.Of(g)[k] == |Met(log, g, k)|)
    && (forall i: Tid :: i < |s.cars| ==> s.cars[i].entered == |OfCar(log, i)|)
    && forall k :: 0 <= k < |log| ==> log[k].waited >= 0
  }

  lemma SetGrows(before: set<nat>, after: set<nat>, n: nat, grows: bool)
    requires n !in before && after == before + (if grows then {n} else {})
    ensures |after| == |before| + if grows then 1 else 0
  {
  }

  lemma WaitedGrows(log: seq<Entry>, e: Entry, k: nat)
    ensures |Waited(log + [e], k)| == |Waited(log, k)| + if e.waited == k then 1 else 0
  {
    SetGrows(Waited(log, k), Waited(log + [e], k), |log|, e.waited == k);
  }

  lemma WaitedLongerGrows(log: seq<Entry>, e: Entry, size: nat)
    ensures |WaitedLonger(log + [e], size)| == |WaitedLonger(log, size)| + if e.waited >= size then 1 else 0
  {
    SetGrows(WaitedLonger(log, size), WaitedLonger(log + [e], size), |log|, e.waited >= size);
  }

  lemma OfCarGrows(log: seq<Entry>, e: Entry, i: Tid)
    ensures |OfCar(log + [e], i)| == |OfCar(log, i)| + if e.car == i then 1 else 0
  {
    SetGrows(OfCar(log, i), OfCar(log + [e], i), |log|, e.car == i);
  }

  lemma MetGrows(log: seq<Entry>, e: Entry, g: Direction, n: nat)
    ensures |Met(log + [e], g, n)| == |Met(log, g, n)| + if e.dir == g && e.occupancy == n then 1 else 0
  {
    SetGrows(Met(log, g, n), Met(log + [e], g, n), |log|, e.dir == g && e.occupancy == n);
  }

  lemma PassCountsTimes(c: Config, s: State, i: Tid, log: seq<Entry>, e: Entry)
    requires At(c, s, i, Enter) && !Blocked(c.max, Tested(c, s, i).0, c.dir[i]) && Counted(c, s, log)
    requires 0 <= s.st.count < c.max && Tested(c, s, i).1 <= s.st.ticker && e.waited == |log| - Tested(c, s, i).1
    ensures var st := DoEnter(c, s, i).st;
      && (forall k: nat :: k < |st.waiting| ==> st.waiting[k] == |Waited(log + [e], k)|)
      && st.overflow == |WaitedLonger(log + [e], |st.waiting|)|
  {
    forall k: nat
      ensures |Waited(log + [e], k)| == |Waited(log, k)| + if e.waited == k then 1 else 0
    {
      WaitedGrows(log, e, k);
    }
    WaitedLongerGrows(log, e, |s.st.waiting|);
  }

  lemma PassCountsCars(c: Config, s: State, i: Tid, log: seq<Entry>, e: Entry)
    requires At(c, s, i, Enter) && !Blocked(c.max, Tested(c, s, i).0, c.dir[i]) && Counted(c, s, log)
    requires 0 <= s.st.count < c.max && e.car == i && e.dir == c.dir[i] && e.occupancy == s.st.count + 1
    ensures var s' := DoEnter(c, s, i);
      && (forall g, k: nat :: k < |s'.st.occupancy.Of(g)| ==> s'.st.occupancy.Of(g)[k] == |Met(log + [e], g, k)|)
      && (forall j: Tid :: j < |s'.cars| ==> s'.cars[j].entered == |OfCar(log + [e], j)|)
  {
    forall g, k: nat
      ensures |Met(log + [e], g, k)| == |Met(log, g, k)| + if e.dir == g && e.occupancy == k then 1 else 0
    {
      MetGrows(log, e, g, k);
    }
    forall j: Tid
      ensures |OfCar(log + [e], j)| == |OfCar(log, j)| + if e.car == j then 1 else 0
    {
      OfCarGrows(log, e, j);
    }
  }

  /** A car that passes is counted where the list says. */
  lemma PassIsCounted(c: Config, s: State, i: Tid, log: seq<Entry>, e: Entry)
    requires At(c, s, i, Enter) && !Blocked(c.max, Tested(c, s, i).0, c.dir[i])
    requires StreetOk(c, s) && Tested(c, s, i).1 <= s.st.ticker && Counted(c, s, log)
    requires e == Entry(i, c.dir[i], |log| - Tested(c, s, i).1, |InsideSet(DoEnter(c, s, i).cars)|)
    ensures Counted(c, DoEnter(c, s, i), log + [e])
  {
    InsideMoves(s.cars, i, DoEnter(c, s, i).cars[i]);
    PassCountsTimes(c, s, i, log, e);
    PassCountsCars(c, s, i, log, e);
  }

  lemma OthersAreNotCounted(c: Config, s: State, i: Tid, a: Action, log: seq<Entry>)
    requires At(c, s, i, a) && Counted(c, s, log)
    requires a.Enter? ==> Blocked(c.max, Tested(c, s, i).0, c.dir[i])
    ensures Counted(c, Do(c, s, i, a), log)
  {
  }

  lemma WhoGoes(c: Config, s: State, i: Tid, a: Action, j: Tid)
    requires At(c, s, i, a)
    ensures Goes(s, Do(c, s, i, a), j) <==> j == i && a.Enter? && !Blocked(c.max, Tested(c, s, i).0, c.dir[i])
  {
  }

  /** A car on its way in remembers how many entries there had been when it came. */
  ghost predicate Remembers(c: Config, run: seq<State>, k: nat, i: Tid)
    requires k < |run| && i < |c.dir| && ManyCars(c, run)
  {
    run[k].cars[i].pc.Waiting? || run[k].cars[i].pc.Roused? ==> run[k].cars[i].since == Came(c, run, k, i)
  }

  ghost predicate HistoryOk(c: Config, run: seq<State>, k: nat)
    requires k < |run| && ManyCars(c, run)
  {
    Counted(c, run[k], Log(c, run, k)) && forall i: Tid :: i < |c.dir| ==> Remembers(c, run, k, i)
  }

  lemma WaitersRemember(c: Config, run: seq<State>, k: nat, i: Tid, a: Action, j: Tid)
    requires 0 < k < |run| && ManyCars(c, run) && At(c, run[k - 1], i, a) && run[k] == Do(c, run[k - 1], i, a)
    requires QueuesOk(c, run[k - 1]) && HistoryOk(c, run, k - 1) && j < |c.dir|
    ensures Remembers(c, run, k, j)
  {
    assert Remembers(c, run, k - 1, j);
    assert QueueOk(c, run[k - 1], AfterLeaving(run[k - 1].st));
  }

  ghost predicate OnlyGoes(s: State, s': State, i: Tid)
  {
    forall j: Tid :: Goes(s, s', j) <==> j == i
  }

  lemma LogAfter(c: Config, run: seq<State>, k: nat, i: Tid)
    requires 0 < k < |run| && i < |c.dir| && ManyCars(c, run)
    requires OnlyGoes(run[k - 1], run[k], i)
    ensures Log(c, run, k) == Log(c, run, k - 1)
      + [Entry(i, c.dir[i], |Log(c, run, k - 1)| - Came(c, run, k - 1, i), |InsideSet(run[k].cars)|)]
  {
    assert Goes(run[k - 1], run[k], i) && Goes(run[k - 1], run[k], WhoEnters(run[k - 1], run[k]));
    assert WhoEnters(run[k - 1], run[k]) == i;
  }

  lemma TestsSinceItCame(c: Config, run: seq<State>, k: nat, i: Tid)
    requires k < |run| && i < |c.dir| && ManyCars(c, run) && At(c, run[k], i, Enter)
    requires Remembers(c, run, k, i) && run[k].st.ticker == |Log(c, run, k)|
    ensures Tested(c, run[k], i).1 == Came(c, run, k, i)
  {
  }

  lemma StepKeepsCount(c: Config, run: seq<State>, k: nat, i: Tid, a: Action)
    requires 0 < k < |run| && ManyCars(c, run) && At(c, run[k - 1], i, a) && run[k] == Do(c, run[k - 1], i, a)
    requires Inv(c, run[k - 1]) && Counted(c, run[k - 1], Log(c, run, k - 1))
    requires i < |c.dir| && Remembers(c, run, k - 1, i)
    ensures Counted(c, run[k], Log(c, run, k))
  {
    var s, log := run[k - 1], Log(c, run, k - 1);
    forall j: Tid
      ensures Goes(s, run[k], j) <==> j == i && a.Enter? && !Blocked(c.max, Tested(c, s, i).0, c.dir[i])
    {
      WhoGoes(c, s, i, a, j);
    }
    if Goes(s, run[k], i) {
      assert OnlyGoes(s, run[k], i) && CarOk(c, s, s.cars[i]);
      LogAfter(c, run, k, i);
      TestsSinceItCame(c, run, k - 1, i);
      PassIsCounted(c, s, i, log, Log(c, run, k)[|log|]);
    } else {
      OthersAreNotCounted(c, s, i, a, log);
    }
  }

  lemma StepKeepsHistory(c: Config, run: seq<State>, k: nat, i: Tid, a: Action)
    requires 0 < k < |run| && ManyCars(c, run) && At(c, run[k - 1], i, a) && run[k] == Do(c, run[k - 1], i, a)
    requires Inv(c, run[k - 1]) && HistoryOk(c, run, k - 1)
    ensures HistoryOk(c, run, k)
  {
    StepKeepsCount(c, run, k, i, a);
    forall j: Tid | j < |c.dir|
      ensures Remembers(c, run, k, j)
    {
      WaitersRemember(c, run, k, i, a, j);
    }
  }

  lemma InitIsCounted(c: Config, s: State)
    requires Init(c, s)
    ensures Counted(c, s, [])
  {
    forall k: nat, g
      ensures |Waited([], k)| == |WaitedLonger([], k)| == |OfCar([], k)| == |Met([], g, k)| == 0
    {
      assert Waited([], k) == {} && WaitedLonger([], k) == {} && OfCar([], k) == {} && Met([], g, k) == {};
    }
  }

  lemma {:induction false} RunKeepsHistory(c: Config, run: seq<State>, k: nat)
    requires IsRun(Starts(c), Steps(c), run) && k < |run| && ManyCars(c, run)
    ensures HistoryOk(c, run, k)
  {
    if k == 0 {
      InitIsCounted(c, run[0]);
    } else {
      RunKeepsHistory(c, run, k - 1);
      EveryRunKeepsInv(c, run);
      assert Inv(c, run[k - 1]) && Steps(c)(run[k - 1], run[k]);
      var i: Tid, a :| At(c, run[k - 1], i, a) && run[k] == Do(c, run[k - 1], i, a);
      StepKeepsHistory(c, run, k, i, a);
    }
  }

  lemma RunHasManyCars(c: Config, run: seq<State>)
    requires IsRun(Starts(c), Steps(c), run)
    ensures ManyCars(c, run)
  {
    EveryRunKeepsInv(c, run);
    forall j | 0 <= j < |run|
      ensures |run[j].cars| == |c.dir|
    {
      assert Inv(c, run[j]);
    }
  }

  /**
    In every run bin `b` of the waiting times is the number of entries that let exactly `b` others pass, the overflow
    the number of those that let pass as many as there are bins or more, and bin `n` of the occupancies of a direction
    the number of entries of that direction that made it `n` cars.  No bin counts anything else.
  */
  lemma EveryBinCounts(c: Config, run: seq<State>, k: nat)
    requires IsRun(Starts(c), Steps(c), run) && k < |run|
    ensures ManyCars(c, run)
    ensures var st, log := run[k].st, Log(c, run, k);
      && st.ticker == |log| && |st.waiting| == c.histogramSize
      && (forall b: nat :: b < c.histogramSize ==> st.waiting[b] == |Waited(log, b)|)
      && st.overflow == |WaitedLonger(log, c.histogramSize)|
      && |st.occupancy.east| == |st.occupancy.west| == c.max + 1
      && forall g, n: nat :: n <= c.max ==> st.occupancy.Of(g)[n] == |Met(log, g, n)|
  {
    RunHasManyCars(c, run);
    RunKeepsHistory(c, run, k);
    EveryRunKeepsInv(c, run);
    assert Inv(c, run[k]);
  }

  /** When all cars are gone each of them has been in the street exactly as often as it was to cross. */
  lemma EveryCarCrosses(c: Config, run: seq<State>, k: nat, i: Tid)
    requires IsRun(Starts(c), Steps(c), run) && k < |run| && i < |c.dir|
    ensures ManyCars(c, run)
    ensures |OfCar(Log(c, run, k), i)| <= c.crossings
    ensures run[k].cars[i].pc.Gone? ==> |OfCar(Log(c, run, k), i)| == c.crossings
  {
    RunHasManyCars(c, run);
    RunKeepsHistory(c, run, k);
    EveryRunKeepsInv(c, run);
    assert Inv(c, run[k]) && CarOk(c, run[k], run[k].cars[i]);
  }
}
