/**
  The one-lane street (a11/traffic.c): cars of two directions share a street for at most `max` cars.

  `OneLaneStreet` has the street and its statistics, updated in place under one lock; `Traffic` the cars.
*/
module OneLaneStreet {
  import opened Common
  import opened Sums

  datatype Direction = East | West

  function Opposite(g: Direction): Direction
  {
    if g.East? then West else East
  }

  /** One of something for each direction. */
  datatype Both<T> = Both(east: T, west: T) {
    function Of(g: Direction): T
    {
      if g.East? then east else west
    }

    function With(g: Direction, v: T): Both<T>
    {
      if g.East? then this.(east := v) else this.(west := v)
    }
  }

  /** The street, the statistics, and the cars that wait on its two conditions. */
  datatype Street = Street(direction: Direction, count: int, active: Both<int>, ticker: nat,
    waiting: seq<nat>, overflow: nat, occupancy: Both<seq<nat>>, queue: Both<seq<Tid>>)

  function Bump(h: seq<nat>, i: nat): seq<nat>
    requires i < |h|
  {
    h[i := h[i] + 1]
  }

  /** `recordWaitingTime`. */
  function Recorded(st: Street, time: nat): Street
  {
    if time < |st.waiting| then st.(waiting := Bump(st.waiting, time)) else st.(overflow := st.overflow + 1)
  }

  /** A car that comes to an empty street turns it to its own direction. */
  function Turned(st: Street, g: Direction): Street
  {
    if st.count == 0 && st.active.Of(g) != 0 then st.(direction := g) else st
  }

  predicate Blocked(max: nat, st: Street, g: Direction)
  {
    g != st.direction || st.count >= max
  }

  function Queued(st: Street, g: Direction, me: Tid): Street
  {
    st.(queue := st.queue.With(g, Enqueue(st.queue.Of(g), me)))
  }

  /** A car that came when the ticker stood at `since` enters. */
  function Entered(st: Street, g: Direction, since: nat): Street
    requires since <= st.ticker && 0 <= st.count + 1 < |st.occupancy.Of(g)|
  {
    Recorded(st, st.ticker - since)
      .(count := st.count + 1, ticker := st.ticker + 1,
        occupancy := st.occupancy.With(g, Bump(st.occupancy.Of(g), st.count + 1)))
  }

  /** The direction after a car has left, when `count` cars are still there. */
  function AfterLeaving(st: Street): Direction
  {
    if st.count - 1 == 0 && st.active.Of(Opposite(st.direction)) != 0 then Opposite(st.direction) else st.direction
  }

  /** How many cars of that direction a leaving car signals. */
  function Signals(max: nat, st: Street): nat
  {
    if AfterLeaving(st) != st.direction then max
    else if st.count - 1 < max && st.active.Of(st.direction) != 0 then 1 else 0
  }

  function Min(x: nat, y: nat): nat
  {
    if x < y then x else y
  }

  /** The cars that wake up when a car leaves: the first in the queue of the direction after it. */
  function Woken(max: nat, st: Street): seq<Tid>
  {
    var q := st.queue.Of(AfterLeaving(st));
    q[..Min(Signals(max, st), |q|)]
  }

  function Left(max: nat, st: Street): Street
  {
    var g := AfterLeaving(st);
    st.(count := st.count - 1, direction := g, queue := st.queue.With(g, st.queue.Of(g)[|Woken(max, st)|..]))
  }

  /** The globals of traffic.c. */
  class StreetCell {
    const max: nat
    var direction: Direction
    var count: int
    var numEast: int
    var numWest: int
    var entryTicker: nat
    const waitingHistogram: array<nat>
    var waitingHistogramOverflow: nat
    const occupancyEast: array<nat>
    const occupancyWest: array<nat>
    var east: seq<Tid>
    var west: seq<Tid>

    ghost predicate Valid()
    {
      && occupancyEast.Length == occupancyWest.Length == max + 1
      && occupancyEast != occupancyWest && occupancyEast != waitingHistogram && occupancyWest != waitingHistogram
    }

    function Value(): Street
      reads this, waitingHistogram, occupancyEast, occupancyWest
    {
      Street(direction, count, Both(numEast, numWest), entryTicker, waitingHistogram[..], waitingHistogramOverflow,
        Both(occupancyEast[..], occupancyWest[..]), Both(east, west))
    }

    constructor (max: nat, histogramSize: nat)
      ensures Valid() && this.max == max && waitingHistogram.Length == histogramSize
      ensures Value() == Street(East, 0, Both(0, 0), 0, seq(histogramSize, _ => 0), 0,
        Both(seq(max + 1, _ => 0), seq(max + 1, _ => 0)), Both([], []))
    {
      this.max := max;
      direction, count, numEast, numWest, entryTicker, waitingHistogramOverflow := East, 0, 0, 0, 0, 0;
      waitingHistogram := new nat[histogramSize](_ => 0);
      occupancyEast := new nat[max + 1](_ => 0);
      occupancyWest := new nat[max + 1](_ => 0);
      east, west := [], [];
      new;
      assert waitingHistogram[..] == seq(histogramSize, _ => 0);
      assert occupancyEast[..] == seq(max + 1, _ => 0) && occupancyWest[..] == seq(max + 1, _ => 0);
    }

    method RecordWaitingTime(waitingTime: nat)
      requires Valid()
      modifies this`waitingHistogramOverflow, waitingHistogram
      ensures forall k :: 0 <= k < waitingHistogram.Length ==>
        waitingHistogram[k] == old(waitingHistogram[k]) + if k == waitingTime then 1 else 0
      ensures waitingHistogramOverflow ==
        old(waitingHistogramOverflow) + if waitingTime < waitingHistogram.Length then 0 else 1
      ensures Value() == Recorded(old(Value()), waitingTime)
    {
      if waitingTime < waitingHistogram.Length {
        waitingHistogram[waitingTime] := waitingHistogram[waitingTime] + 1;
      } else {
        waitingHistogramOverflow := waitingHistogramOverflow + 1;
      }
    }

    /** The beginning of `enterStreet`, up to its loop; the result is the car's `t`. */
    method Arrive(g: Direction) returns (since: nat)
      modifies this`direction
      ensures direction ==
        if count == 0 && (if g == East then numEast else numWest) != 0 then g else old(direction)
      ensures Value() == Turned(old(Value()), g) && since == old(entryTicker)
    {
      if count == 0 {
        if (if g.East? then numEast else numWest) != 0 {
          direction := g;
        }
      }
      since := entryTicker;
    }

    /** One test of the loop of `enterStreet`, and the rest of it when the car need not wait. */
    method TryToEnter(g: Direction, me: Tid, since: nat) returns (waits: bool)
      requires Valid() && since <= entryTicker && count >= 0
      modifies this, waitingHistogram, occupancyEast, occupancyWest
      ensures waits <==> g != direction || old(count) >= max
      ensures direction == old(direction)
      ensures waits ==> me in (if g == East then east else west) && entryTicker == old(entryTicker)
      ensures !waits ==> count == old(count) + 1 && entryTicker == old(entryTicker) + 1
      ensures forall k :: 0 <= k < waitingHistogram.Length ==>
        waitingHistogram[k] == old(waitingHistogram[k]) + if !waits && k == old(entryTicker) - since then 1 else 0
      ensures forall k :: 0 <= k <= max ==>
        occupancyEast[k] == old(occupancyEast[k]) + if !waits && g == East && k == count then 1 else 0
      ensures forall k :: 0 <= k <= max ==>
        occupancyWest[k] == old(occupancyWest[k]) + if !waits && g == West && k == count then 1 else 0
      ensures Value() == if waits then Queued(old(Value()), g, me) else Entered(old(Value()), g, since)
    {
      waits := g != direction || count >= max;
      if waits {
        if g == East {
          east := Enqueue(east, me);
        } else {
          west := Enqueue(west, me);
        }
      } else {
        RecordWaitingTime(entryTicker - since);
        count := count + 1;
        entryTicker := entryTicker + 1;
        if g == East {
          occupancyEast[count] := occupancyEast[count] + 1;
        } else {
          occupancyWest[count] := occupancyWest[count] + 1;
        }
      }
    }

    /** `uthread_cond_signal` on the condition of one direction. */
    method Signal(g: Direction) returns (woken: seq<Tid>)
      modifies this`east, this`west
      ensures g == East ==> west == old(west) && woken + east == old(east) && (woken == [] <==> old(east) == [])
      ensures g == West ==> east == old(east) && woken + west == old(west) && (woken == [] <==> old(west) == [])
      ensures |woken| <= 1
      ensures var q := old(Value()).queue.Of(g);
        woken == q[..Min(1, |q|)] && Value() == old(Value()).(queue := old(Value()).queue.With(g, q[|woken|..]))
    {
      woken := [];
      if g == East {
        if east != [] {
          woken, east := east[..1], east[1..];
        }
      } else {
        if west != [] {
          woken, west := west[..1], west[1..];
        }
      }
    }

    /** The loop of `leaveStreet` after the direction has changed. */
    method SignalMany() returns (woken: seq<Tid>)
      modifies this`east, this`west
      ensures var q := old(Value()).queue.Of(direction); var active := old(Value()).active.Of(direction);
        && woken == (if active != 0 then q[..Min(max, |q|)] else [])
        && Value() == old(Value()).(queue := old(Value()).queue.With(direction, q[|woken|..]))
    {
      ghost var before := Value();
      ghost var q := before.queue.Of(direction);
      woken := [];
      for i := 0 to max
        invariant woken == if before.active.Of(direction) != 0 then q[..Min(i, |q|)] else []
        invariant Value() == before.(queue := before.queue.With(direction, q[|woken|..]))
      {
        if (direction == East && numEast != 0) || (direction == West && numWest != 0) {
          var more := Signal(direction);
          assert q[|woken|..][|more|..] == q[|woken| + |more|..];
          woken := woken + more;
        }
      }
    }

    method LeaveStreet() returns (woken: seq<Tid>)
      modifies this`count, this`direction, this`east, this`west
      ensures count == old(count) - 1
      ensures direction != old(direction) <==>
        count == 0 && (if old(direction) == East then numWest else numEast) != 0
      ensures if direction == East then west == old(west) && woken + east == old(east)
        else east == old(east) && woken + west == old(west)
      ensures woken == Woken(max, old(Value())) && Value() == Left(max, old(Value()))
    {
      woken := [];
      count := count - 1;
      if count == 0 && (if direction == East then numWest else numEast) != 0 {
        direction := if direction == East then West else East;
        woken := SignalMany();
      } else if count < max {
        if (direction == East && numEast != 0) || (direction == West && numWest != 0) {
          woken := Signal(direction);
        }
      }
    }
  }
}

/** Any number of cars; each turn under the lock of the street is one step. */
module Traffic {
  import opened Common
  import opened Runs
  import opened Sums
  import opened OneLaneStreet
  import M = Monitor

  /** `dir` is the direction each car happens to choose. */
  datatype Config = Config(max: nat, crossings: nat, histogramSize: nat, dir: seq<Direction>)

  /**
    `Unregistered`: not yet counted as active.  `Coming`: about to enter.  `Waiting`: on the condition of
    its direction.  `Roused`: signalled, about to test again.  `Leaving`: has crossed for the last time.
  */
  datatype Pc = Unregistered | Coming | Waiting | Roused | Inside | Leaving | Gone

  /** `entered` counts the car's entries; `since` is the ticker it remembers. */
  datatype Car = Car(pc: Pc, entered: nat, since: nat)

  datatype State = State(st: Street, cars: seq<Car>)

  datatype Action = Register | Enter | Exit | Deregister

  predicate SizesOk(c: Config, s: State)
  {
    && |s.cars| == |c.dir| && |s.st.waiting| == c.histogramSize
    && |s.st.occupancy.east| == |s.st.occupancy.west| == c.max + 1
  }

  predicate At(c: Config, s: State, i: Tid, a: Action)
  {
    SizesOk(c, s) && i < |s.cars|
    && match a
       case Register => s.cars[i].pc.Unregistered?
       case Enter => (s.cars[i].pc.Coming? || s.cars[i].pc.Roused?) && s.st.count >= 0 && s.cars[i].since <= s.st.ticker
       case Exit => s.cars[i].pc.Inside?
       case Deregister => s.cars[i].pc.Leaving?
  }

  function Put(s: State, i: Tid, car: Car): State
    requires i < |s.cars|
  {
    s.(cars := s.cars[i := car])
  }

  /** `woken` wake up. */
  function Rouse(cars: seq<Car>, woken: seq<Tid>): seq<Car>
  {
    seq(|cars|, i requires 0 <= i < |cars| => if i in woken then cars[i].(pc := Roused) else cars[i])
  }

  /** Where a car that has entered `entered` times is when it is not in the street. */
  function NextPc(c: Config, entered: nat): Pc
  {
    if entered < c.crossings then Coming else Leaving
  }

  /** The street as a car tests it, and the ticker the car remembers: a newcomer may turn an empty street. */
  function Tested(c: Config, s: State, i: Tid): (Street, nat)
    requires At(c, s, i, Enter)
  {
    if s.cars[i].pc.Coming? then (Turned(s.st, c.dir[i]), s.st.ticker) else (s.st, s.cars[i].since)
  }

  function DoEnter(c: Config, s: State, i: Tid): State
    requires At(c, s, i, Enter)
  {
    var (st, since) := Tested(c, s, i);
    if Blocked(c.max, st, c.dir[i]) then
      State(Queued(st, c.dir[i], i), s.cars[i := s.cars[i].(pc := Waiting, since := since)])
    else
      State(Entered(st, c.dir[i], since), s.cars[i := Car(Inside, s.cars[i].entered + 1, since)])
  }

  function DoExit(c: Config, s: State, i: Tid): State
    requires At(c, s, i, Exit)
  {
    var cars := Rouse(s.cars, Woken(c.max, s.st));
    State(Left(c.max, s.st), cars[i := s.cars[i].(pc := NextPc(c, s.cars[i].entered))])
  }

  function Activated(st: Street, g: Direction, change: int): Street
  {
    st.(active := st.active.With(g, st.active.Of(g) + change))
  }

  function Do(c: Config, s: State, i: Tid, a: Action): State
    requires At(c, s, i, a)
  {
    match a
    case Register => Put(s, i, s.cars[i].(pc := NextPc(c, 0))).(st := Activated(s.st, c.dir[i], 1))
    case Enter => DoEnter(c, s, i)
    case Exit => DoExit(c, s, i)
    case Deregister => Put(s, i, s.cars[i].(pc := Gone)).(st := Activated(s.st, c.dir[i], -1))
  }

  ghost predicate Init(c: Config, s: State)
  {
    && s.st == Street(East, 0, Both(0, 0), 0, seq(c.histogramSize, _ => 0), 0,
         Both(seq(c.max + 1, _ => 0), seq(c.max + 1, _ => 0)), Both([], []))
    && s.cars == seq(|c.dir|, _ => Car(Unregistered, 0, 0))
  }

  ghost predicate Next(c: Config, s: State, s': State)
  {
    exists i: Tid, a :: At(c, s, i, a) && s' == Do(c, s, i, a)
  }

  ghost function Starts(c: Config): State -> bool
  {
    s => Init(c, s)
  }

  ghost function Steps(c: Config): (State, State) -> bool
  {
    (s, s') => Next(c, s, s')
  }

  // ---------- the invariant ----------

  ghost function RousedSet(cars: seq<Car>): set<Tid>
  {
    set i: Tid | i < |cars| && cars[i].pc.Roused?
  }

  ghost function InsideSet(cars: seq<Car>): set<Tid>
  {
    set i: Tid | i < |cars| && cars[i].pc.Inside?
  }

  /** The cars in the street are counted, are not too many, and all go the street's way. */
  ghost predicate StreetOk(c: Config, s: State)
  {
    && |InsideSet(s.cars)| == s.st.count <= c.max
    && forall i: Tid :: i in InsideSet(s.cars) ==> i < |c.dir| && c.dir[i] == s.st.direction
  }

  /** A queue holds the cars of its direction that wait, each once. */
  ghost predicate QueueOk(c: Config, s: State, g: Direction)
    requires |s.cars| == |c.dir|
  {
    && NoDuplicates(s.st.queue.Of(g))
    && forall i: Tid :: i in s.st.queue.Of(g) <==> i < |s.cars| && s.cars[i].pc.Waiting? && c.dir[i] == g
  }

  ghost function ActiveSet(c: Config, cars: seq<Car>, g: Direction): set<Tid>
  {
    set i: Tid | i < |cars| && i < |c.dir| && c.dir[i] == g && !cars[i].pc.Unregistered? && !cars[i].pc.Gone?
  }

  ghost predicate ActiveOk(c: Config, s: State, g: Direction)
  {
    s.st.active.Of(g) == |ActiveSet(c, s.cars, g)|
  }

  function Entries(cars: seq<Car>): seq<int>
  {
    seq(|cars|, i requires 0 <= i < |cars| => cars[i].entered)
  }

  /** Every entry is counted once by the ticker, by the waiting times and by the occupancies. */
  ghost predicate Tallied(st: Street)
  {
    Sum(st.waiting) + st.overflow == st.ticker && Sum(st.occupancy.east) + Sum(st.occupancy.west) == st.ticker
  }

  ghost predicate CarOk(c: Config, s: State, car: Car)
  {
    && car.since <= s.st.ticker && car.entered <= c.crossings
    && (car.pc.Unregistered? ==> car.entered == 0)
    && (car.pc.Coming? || car.pc.Waiting? || car.pc.Roused? ==> car.entered < c.crossings)
    && (car.pc.Leaving? || car.pc.Gone? ==> car.entered == c.crossings)
  }

  ghost predicate QueuesOk(c: Config, s: State)
  {
    |s.cars| == |c.dir| && QueueOk(c, s, East) && QueueOk(c, s, West)
  }

  ghost predicate ActivesOk(c: Config, s: State)
  {
    |s.cars| == |c.dir| && ActiveOk(c, s, East) && ActiveOk(c, s, West)
  }

  ghost predicate CountsOk(c: Config, s: State)
  {
    && Tallied(s.st) && Sum(Entries(s.cars)) == s.st.ticker
    && (s.st.overflow > 0 ==> c.histogramSize < c.crossings * |c.dir|)
  }

  ghost predicate CarsOk(c: Config, s: State)
  {
    forall i :: 0 <= i < |s.cars| ==> CarOk(c, s, s.cars[i])
  }

  ghost predicate Inv(c: Config, s: State)
  {
    SizesOk(c, s) && StreetOk(c, s) && QueuesOk(c, s) && ActivesOk(c, s) && CountsOk(c, s) && CarsOk(c, s)
  }

  // ---------- one car moves ----------

  lemma InsideMoves(cars: seq<Car>, i: Tid, car: Car)
    requires i < |cars|
    ensures InsideSet(cars[i := car]) == InsideSet(cars) - {i} + (if car.pc.Inside? then {i} else {})
    ensures |InsideSet(cars[i := car])| ==
      |InsideSet(cars)| - (if cars[i].pc.Inside? then 1 else 0) + (if car.pc.Inside? then 1 else 0)
  {
    OneMemberMoves(InsideSet(cars), InsideSet(cars[i := car]), i);
  }

  predicate IsActive(car: Car)
  {
    !car.pc.Unregistered? && !car.pc.Gone?
  }

  lemma ActiveMoves(c: Config, cars: seq<Car>, i: Tid, car: Car, g: Direction)
    requires i < |cars| == |c.dir|
    ensures |ActiveSet(c, cars[i := car], g)| == |ActiveSet(c, cars, g)|
      + if c.dir[i] != g then 0 else (if IsActive(car) then 1 else 0) - (if IsActive(cars[i]) then 1 else 0)
  {
    OneMemberMoves(ActiveSet(c, cars, g), ActiveSet(c, cars[i := car], g), i);
  }

  lemma MoveKeepsActives(c: Config, s: State, i: Tid, car: Car, st: Street)
    requires ActivesOk(c, s) && i < |s.cars| && IsActive(car) && IsActive(s.cars[i]) && st.active == s.st.active
    ensures ActivesOk(c, State(st, s.cars[i := car]))
  {
    ActiveMoves(c, s.cars, i, car, East);
    ActiveMoves(c, s.cars, i, car, West);
  }

  lemma EntriesMove(cars: seq<Car>, i: Tid, car: Car)
    requires i < |cars|
    ensures Sum(Entries(cars[i := car])) == Sum(Entries(cars)) - cars[i].entered + car.entered
  {
    assert Entries(cars[i := car]) == Entries(cars)[i := car.entered];
    SumUpdate(Entries(cars), i, car.entered);
  }

  lemma MoveKeepsCars(c: Config, s: State, i: Tid, car: Car, st: Street)
    requires CarsOk(c, s) && i < |s.cars| && s.st.ticker <= st.ticker && CarOk(c, State(st, s.cars), car)
    ensures CarsOk(c, State(st, s.cars[i := car]))
  {
    var cars := s.cars[i := car];
    forall j | 0 <= j < |cars|
      ensures CarOk(c, State(st, cars), cars[j])
    {
      assert CarOk(c, s, s.cars[j]);
    }
  }

  /** A move that is neither an entry nor a change of the active cars. */
  lemma MoveKeepsBooks(c: Config, s: State, i: Tid, car: Car, st: Street)
    requires ActivesOk(c, s) && CountsOk(c, s) && CarsOk(c, s) && i < |s.cars|
    requires IsActive(car) && IsActive(s.cars[i]) && car.entered == s.cars[i].entered && CarOk(c, s, car)
    requires st == s.st.(direction := st.direction, count := st.count, queue := st.queue)
    ensures var t := State(st, s.cars[i := car]); ActivesOk(c, t) && CountsOk(c, t) && CarsOk(c, t)
  {
    EntriesMove(s.cars, i, car);
    MoveKeepsActives(c, s, i, car, st);
    MoveKeepsCars(c, s, i, car, st);
  }

  /** A car that does not wait before or after. */
  lemma MoveKeepsQueues(c: Config, s: State, i: Tid, car: Car, st: Street)
    requires QueuesOk(c, s) && i < |s.cars| && !car.pc.Waiting? && !s.cars[i].pc.Waiting? && st.queue == s.st.queue
    ensures QueuesOk(c, State(st, s.cars[i := car]))
  {
  }

  /** Waking up changes no set but the waiting cars. */
  lemma RouseKeeps(c: Config, cars: seq<Car>, woken: seq<Tid>)
    requires forall i: Tid :: i in woken ==> i < |cars| && cars[i].pc.Waiting?
    ensures InsideSet(Rouse(cars, woken)) == InsideSet(cars) && Entries(Rouse(cars, woken)) == Entries(cars)
    ensures forall g :: ActiveSet(c, Rouse(cars, woken), g) == ActiveSet(c, cars, g)
  {
  }

  // ---------- the invariant is kept ----------

  lemma BookingKeepsActives(c: Config, s: State, i: Tid, a: Action)
    requires ActivesOk(c, s) && At(c, s, i, a) && (a.Register? || a.Deregister?)
    ensures ActivesOk(c, Do(c, s, i, a))
  {
    var car := Do(c, s, i, a).cars[i];
    ActiveMoves(c, s.cars, i, car, East);
    ActiveMoves(c, s.cars, i, car, West);
  }

  /** A car that is neither in the street nor waiting registers or leaves for good. */
  lemma BookingKeepsInv(c: Config, s: State, i: Tid, a: Action)
    requires Inv(c, s) && At(c, s, i, a) && (a.Register? || a.Deregister?)
    ensures Inv(c, Do(c, s, i, a))
  {
    var s', car := Do(c, s, i, a), Do(c, s, i, a).cars[i];
    assert CarOk(c, s, s.cars[i]);
    InsideMoves(s.cars, i, car);
    EntriesMove(s.cars, i, car);
    BookingKeepsActives(c, s, i, a);
    MoveKeepsQueues(c, s, i, car, s'.st);
    MoveKeepsCars(c, s, i, car, s'.st);
  }

  /** Only an empty street changes its direction. */
  lemma TurnedKeepsStreet(c: Config, s: State, g: Direction)
    requires StreetOk(c, s)
    ensures StreetOk(c, s.(st := Turned(s.st, g)))
  {
  }

  lemma QueuedKeepsQueue(c: Config, s: State, i: Tid, car: Car, st: Street, g: Direction)
    requires |s.cars| == |c.dir| && QueueOk(c, s, g) && i < |s.cars| && !s.cars[i].pc.Waiting? && car.pc.Waiting?
    requires st.queue == s.st.queue
    ensures QueueOk(c, State(Queued(st, c.dir[i], i), s.cars[i := car]), g)
  {
    var q := s.st.queue.Of(g);
    assert i !in q;
    assert forall j: Tid :: j in q + [i] <==> j in q || j == i;
  }

  lemma WaitKeepsInv(c: Config, s: State, i: Tid)
    requires Inv(c, s) && At(c, s, i, Enter) && Blocked(c.max, Tested(c, s, i).0, c.dir[i])
    ensures Inv(c, DoEnter(c, s, i))
  {
    var (st, since) := Tested(c, s, i);
    var s' := DoEnter(c, s, i);
    var car := s'.cars[i];
    assert CarOk(c, s, s.cars[i]);
    TurnedKeepsStreet(c, s, c.dir[i]);
    QueuedKeepsQueue(c, s, i, car, st, East);
    QueuedKeepsQueue(c, s, i, car, st, West);
    InsideMoves(s.cars, i, car);
    MoveKeepsBooks(c, s, i, car, s'.st);
  }

  lemma EnteredTallies(st: Street, g: Direction, since: nat)
    requires since <= st.ticker && 0 <= st.count + 1 < |st.occupancy.Of(g)| && Tallied(st)
    ensures Tallied(Entered(st, g, since))
  {
    HistogramGrows(st.occupancy.Of(g), st.count + 1);
    if st.ticker - since < |st.waiting| { HistogramGrows(st.waiting, st.ticker - since); }
  }

  /** The entries before the last one are too few to overflow a histogram of the program's size. */
  lemma TickerBound(c: Config, s: State, i: Tid)
    requires i < |s.cars| == |c.dir| && s.cars[i].entered < c.crossings && CarsOk(c, s)
    ensures Sum(Entries(s.cars)) < c.crossings * |c.dir|
  {
    var more := Entries(s.cars)[i := s.cars[i].entered + 1];
    SumUpdate(Entries(s.cars), i, s.cars[i].entered + 1);
    forall j | 0 <= j < |more|
      ensures 0 <= more[j] <= c.crossings
    {
      assert CarOk(c, s, s.cars[j]);
    }
    SumBounds(more, 0, c.crossings);
  }

  lemma PassKeepsCounts(c: Config, s: State, i: Tid)
    requires Inv(c, s) && At(c, s, i, Enter) && !Blocked(c.max, Tested(c, s, i).0, c.dir[i])
    ensures CountsOk(c, DoEnter(c, s, i))
  {
    var (st, since) := Tested(c, s, i);
    assert CarOk(c, s, s.cars[i]);
    EnteredTallies(st, c.dir[i], since);
    TickerBound(c, s, i);
    EntriesMove(s.cars, i, DoEnter(c, s, i).cars[i]);
  }

  lemma PassKeepsStreet(c: Config, s: State, i: Tid)
    requires StreetOk(c, s) && At(c, s, i, Enter) && !Blocked(c.max, Tested(c, s, i).0, c.dir[i])
    ensures StreetOk(c, DoEnter(c, s, i))
  {
    TurnedKeepsStreet(c, s, c.dir[i]);
    InsideMoves(s.cars, i, DoEnter(c, s, i).cars[i]);
  }

  lemma PassKeepsInv(c: Config, s: State, i: Tid)
    requires Inv(c, s) && At(c, s, i, Enter) && !Blocked(c.max, Tested(c, s, i).0, c.dir[i])
    ensures Inv(c, DoEnter(c, s, i))
  {
    var s' := DoEnter(c, s, i);
    var car := s'.cars[i];
    assert CarOk(c, s, s.cars[i]);
    PassKeepsStreet(c, s, i);
    PassKeepsCounts(c, s, i);
    MoveKeepsActives(c, s, i, car, s'.st);
    MoveKeepsQueues(c, s, i, car, s'.st);
    MoveKeepsCars(c, s, i, car, s'.st);
  }

  /** The cars that wake up are those that leave the queue. */
  lemma ExitKeepsQueue(c: Config, s: State, i: Tid, g: Direction)
    requires |s.cars| == |c.dir| && At(c, s, i, Exit) && QueueOk(c, s, g) && QueueOk(c, s, AfterLeaving(s.st))
    ensures QueueOk(c, DoExit(c, s, i), g)
  {
    var woken := Woken(c.max, s.st);
    var q := s.st.queue.Of(AfterLeaving(s.st));
    assert q == woken + q[|woken|..];
    CutNoDuplicates(woken, q[|woken|..]);
  }

  lemma ExitKeepsStreet(c: Config, s: State, i: Tid)
    requires StreetOk(c, s) && At(c, s, i, Exit)
    requires forall j: Tid :: j in Woken(c.max, s.st) ==> j < |s.cars| && s.cars[j].pc.Waiting?
    ensures StreetOk(c, DoExit(c, s, i))
  {
    var s', cars := DoExit(c, s, i), Rouse(s.cars, Woken(c.max, s.st));
    RouseKeeps(c, s.cars, Woken(c.max, s.st));
    InsideMoves(cars, i, s'.cars[i]);
    assert i in InsideSet(s.cars);
    assert |InsideSet(s'.cars)| == s'.st.count;
    if s'.st.direction != s.st.direction { assert InsideSet(s'.cars) == {}; }
  }

  /** First the signalled cars wake up. */
  lemma RouseKeepsInv(c: Config, s: State, woken: seq<Tid>)
    requires ActivesOk(c, s) && CountsOk(c, s) && CarsOk(c, s)
    requires forall i: Tid :: i in woken ==> i < |s.cars| && s.cars[i].pc.Waiting?
    ensures var t := State(s.st, Rouse(s.cars, woken)); ActivesOk(c, t) && CountsOk(c, t) && CarsOk(c, t)
  {
    RouseKeeps(c, s.cars, woken);
    forall j | 0 <= j < |s.cars|
      ensures CarOk(c, State(s.st, Rouse(s.cars, woken)), Rouse(s.cars, woken)[j])
    {
      assert CarOk(c, s, s.cars[j]);
    }
  }

  lemma ExitKeepsBooks(c: Config, s: State, i: Tid)
    requires Inv(c, s) && At(c, s, i, Exit)
    requires forall j: Tid :: j in Woken(c.max, s.st) ==> j < |s.cars| && s.cars[j].pc.Waiting?
    ensures var s' := DoExit(c, s, i); ActivesOk(c, s') && CountsOk(c, s') && CarsOk(c, s')
  {
    var woken, s' := Woken(c.max, s.st), DoExit(c, s, i);
    assert CarOk(c, s, s.cars[i]);
    RouseKeepsInv(c, s, woken);
    MoveKeepsBooks(c, State(s.st, Rouse(s.cars, woken)), i, s'.cars[i], s'.st);
  }

  lemma ExitKeepsInv(c: Config, s: State, i: Tid)
    requires Inv(c, s) && At(c, s, i, Exit)
    ensures Inv(c, DoExit(c, s, i))
  {
    assert QueueOk(c, s, AfterLeaving(s.st));
    assert forall j: Tid :: j in Woken(c.max, s.st) ==> j in s.st.queue.Of(AfterLeaving(s.st));
    ExitKeepsQueue(c, s, i, East);
    ExitKeepsQueue(c, s, i, West);
    ExitKeepsStreet(c, s, i);
    ExitKeepsBooks(c, s, i);
  }

  lemma StepKeepsInv(c: Config, s: State, i: Tid, a: Action)
    requires Inv(c, s) && At(c, s, i, a)
    ensures Inv(c, Do(c, s, i, a))
  {
    match a
    case Register => BookingKeepsInv(c, s, i, a);
    case Enter =>
      if Blocked(c.max, Tested(c, s, i).0, c.dir[i]) { WaitKeepsInv(c, s, i); } else { PassKeepsInv(c, s, i); }
    case Exit => ExitKeepsInv(c, s, i);
    case Deregister => BookingKeepsInv(c, s, i, a);
  }

  lemma InitOk(c: Config, s: State)
    requires Init(c, s)
    ensures Inv(c, s)
  {
    assert InsideSet(s.cars) == {} && ActiveSet(c, s.cars, East) == {} && ActiveSet(c, s.cars, West) == {};
    SumBounds(s.st.waiting, 0, 0);
    SumBounds(s.st.occupancy.east, 0, 0);
    SumBounds(s.st.occupancy.west, 0, 0);
    SumBounds(Entries(s.cars), 0, 0);
  }

  // ---------- every run ----------

  lemma EveryRunKeepsInv(c: Config, run: seq<State>)
    requires IsRun(Starts(c), Steps(c), run)
    ensures forall k :: 0 <= k < |run| ==> Inv(c, run[k])
  {
    var inv := (s: State) => Inv(c, s);
    forall s | Starts(c)(s)
      ensures inv(s)
    {
      InitOk(c, s);
    }
    forall s, s' | inv(s) && Steps(c)(s, s')
      ensures inv(s')
    {
      var i: Tid, a :| At(c, s, i, a) && s' == Do(c, s, i, a);
      StepKeepsInv(c, s, i, a);
    }
    InvariantAlways(Starts(c), Steps(c), inv, run);
  }

  /** The cars in the street go the same way, and there are `count`, at most `max`, of them. */
  lemma OneWayOnly(c: Config, run: seq<State>, k: nat)
    requires IsRun(Starts(c), Steps(c), run) && k < |run|
    ensures forall i: Tid :: i in InsideSet(run[k].cars) ==> i < |c.dir| && c.dir[i] == run[k].st.direction
    ensures 0 <= run[k].st.count == |InsideSet(run[k].cars)| <= c.max
  {
    EveryRunKeepsInv(c, run);
    assert Inv(c, run[k]);
  }

  /** The direction changes only while nobody stays in the street. */
  lemma TurnsOnlyWhenEmpty(c: Config, run: seq<State>, k: nat)
    requires IsRun(Starts(c), Steps(c), run) && k + 1 < |run|
    requires run[k].st.direction != run[k + 1].st.direction
    ensures InsideSet(run[k].cars) !! InsideSet(run[k + 1].cars)
  {
    EveryRunKeepsInv(c, run);
    var s, s' := run[k], run[k + 1];
    assert Inv(c, s) && Inv(c, s') && Steps(c)(s, s');
    forall i: Tid | i in InsideSet(s.cars)
      ensures i !in InsideSet(s'.cars)
    {
      assert c.dir[i] == s.st.direction != s'.st.direction;
    }
  }

  /**
    Both histograms count every entry, nobody waits a negative time, and a waiting histogram as long as all
    crossings together never overflows.
  */
  lemma HistogramsAgree(c: Config, run: seq<State>, k: nat)
    requires IsRun(Starts(c), Steps(c), run) && k < |run|
    ensures var st := run[k].st;
      && Sum(st.waiting) + st.overflow == st.ticker == Sum(st.occupancy.east) + Sum(st.occupancy.west)
      && (c.histogramSize >= c.crossings * |c.dir| ==> st.overflow == 0)
    ensures forall i :: 0 <= i < |run[k].cars| ==> run[k].cars[i].since <= run[k].st.ticker
  {
    EveryRunKeepsInv(c, run);
    var s := run[k];
    assert Inv(c, s);
    forall i | 0 <= i < |s.cars|
      ensures s.cars[i].since <= s.st.ticker
    {
      assert CarOk(c, s, s.cars[i]);
    }
  }

  /** Once all cars are gone every crossing has been counted and the street is as empty as before. */
  lemma AllGone(c: Config, run: seq<State>, k: nat)
    requires IsRun(Starts(c), Steps(c), run) && k < |run|
    requires forall i :: 0 <= i < |run[k].cars| ==> run[k].cars[i].pc.Gone?
    ensures run[k].st.ticker == c.crossings * |c.dir| && run[k].st.count == 0
    ensures run[k].st.active == Both(0, 0) && run[k].st.queue == Both([], [])
  {
    EveryRunKeepsInv(c, run);
    var s := run[k];
    assert Inv(c, s);
    forall i | 0 <= i < |s.cars|
      ensures Entries(s.cars)[i] == c.crossings
    {
      assert CarOk(c, s, s.cars[i]);
    }
    SumBounds(Entries(s.cars), c.crossings, c.crossings);
    assert InsideSet(s.cars) == {} && ActiveSet(c, s.cars, East) == {} && ActiveSet(c, s.cars, West) == {};
    assert QueueOk(c, s, East) && QueueOk(c, s, West);
    if s.st.queue.east != [] { SomebodyQueues(s.st.queue.Of(East)); }
    if s.st.queue.west != [] { SomebodyQueues(s.st.queue.Of(West)); }
  }

  lemma SomebodyQueues(q: seq<Tid>)
    requires q != []
    ensures exists j: Tid :: j in q
  {
    assert q[0] in q;
  }

  // ---------- a turn is a series of monitor steps ----------

  function CondOf(g: Direction): M.Cond
  {
    if g.East? then 0 else 1
  }

  /** The lock between turns: the roused cars compete for it, and two conditions have waiters. */
  ghost function Abstract(s: State): M.Monitor
  {
    M.Monitor(None, RousedSet(s.cars), map[CondOf(East) := s.st.queue.east, CondOf(West) := s.st.queue.west])
  }

  lemma CarCanArrive(c: Config, s: State, i: Tid, a: Action)
    requires QueuesOk(c, s) && At(c, s, i, a)
    ensures i in Abstract(s).entry || Abstract(s).AtLarge(i)
  {
    assert QueueOk(c, s, East) && QueueOk(c, s, West);
    forall d: M.Cond
      ensures i !in Abstract(s).Queue(d)
    {
    }
  }

  lemma LeaveReaches(m0: M.Monitor, m: M.Monitor)
    requires M.Reaches(m0, m) && m.owner.Some?
    ensures M.Reaches(m0, m.Leave())
  {
    M.Further(m0, m, m.Leave());
  }

  /** A car that waits: it takes the lock, joins its queue and gives up the lock. */
  lemma WaitIsMonitorSteps(c: Config, s: State, i: Tid)
    requires QueuesOk(c, s) && At(c, s, i, Enter) && Blocked(c.max, Tested(c, s, i).0, c.dir[i])
    ensures M.Reaches(Abstract(s), Abstract(DoEnter(c, s, i)))
  {
    var m, g := M.Taken(Abstract(s), i), c.dir[i];
    CarCanArrive(c, s, i, Enter);
    M.TakenReach(Abstract(s), i);
    assert QueueOk(c, s, g);
    var s' := DoEnter(c, s, i);
    assert RousedSet(s'.cars) == RousedSet(s.cars) - {i};
    assert s'.st.queue.Of(g) == s.st.queue.Of(g) + [i];
    assert Abstract(s') == m.Wait(i, CondOf(g));
    M.Further(Abstract(s), m, m.Wait(i, CondOf(g)));
  }

  /** A car that registers, enters or leaves for good takes the lock and gives it up. */
  lemma PassIsMonitorSteps(c: Config, s: State, i: Tid, a: Action)
    requires QueuesOk(c, s) && At(c, s, i, a) && !a.Exit?
    requires a.Enter? ==> !Blocked(c.max, Tested(c, s, i).0, c.dir[i])
    ensures M.Reaches(Abstract(s), Abstract(Do(c, s, i, a)))
  {
    CarCanArrive(c, s, i, a);
    M.TakenReach(Abstract(s), i);
    LeaveReaches(Abstract(s), M.Taken(Abstract(s), i));
    var s' := Do(c, s, i, a);
    assert RousedSet(s'.cars) == RousedSet(s.cars) - {i};
    assert s'.st.queue == s.st.queue;
    assert Abstract(s') == M.Taken(Abstract(s), i).Leave();
  }

  /** A car that leaves the street takes the lock, signals one condition some times and gives up the lock. */
  lemma ExitIsMonitorSteps(c: Config, s: State, i: Tid)
    requires QueuesOk(c, s) && At(c, s, i, Exit)
    ensures M.Reaches(Abstract(s), Abstract(DoExit(c, s, i)))
  {
    var m0, g, k := Abstract(s), AfterLeaving(s.st), Signals(c.max, s.st);
    var m := M.Taken(m0, i);
    CarCanArrive(c, s, i, Exit);
    M.TakenReach(m0, i);
    M.SignalsReach(m0, m, CondOf(g), k);
    LeaveReaches(m0, M.Signals(m, CondOf(g), k));
    M.SignalsServe(m, CondOf(g), k);
    ExitAbstract(c, s, i);
  }

  lemma ExitAbstract(c: Config, s: State, i: Tid)
    requires QueuesOk(c, s) && At(c, s, i, Exit)
    ensures var m, g := Abstract(s), AfterLeaving(s.st);
      Abstract(DoExit(c, s, i)) == m.(entry := m.entry - {i} + (set t | t in Woken(c.max, s.st)),
        waiting := m.waiting[CondOf(g) := s.st.queue.Of(g)[|Woken(c.max, s.st)|..]])
  {
    var woken, s' := Woken(c.max, s.st), DoExit(c, s, i);
    assert QueueOk(c, s, AfterLeaving(s.st));
    assert forall j: Tid :: j in woken ==> j in s.st.queue.Of(AfterLeaving(s.st));
    assert RousedSet(s'.cars) == RousedSet(s.cars) - {i} + (set t | t in woken);
  }

  /** A turn of a car under the lock is a series of steps of the monitor that the library implements. */
  lemma TurnIsMonitorSteps(c: Config, s: State, i: Tid, a: Action)
    requires Inv(c, s) && At(c, s, i, a)
    ensures M.Reaches(Abstract(s), Abstract(Do(c, s, i, a)))
  {
    if a.Exit? {
      ExitIsMonitorSteps(c, s, i);
    } else if a.Enter? && Blocked(c.max, Tested(c, s, i).0, c.dir[i]) {
      WaitIsMonitorSteps(c, s, i);
    } else {
      PassIsMonitorSteps(c, s, i, a);
    }
  }
}
