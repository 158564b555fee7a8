/**
  Producers and consumers over one monitor: the ring of examples/uthread/examples/bounded-buffer.c and the
  counted pool of examples/uthread/examples/pc_mutex_cond.c.

  Both programs share one protocol; `BoundedBuffer` has what they do to their data under the lock, and
  `ProducerConsumer` the protocol of any number of threads.
*/
module BoundedBuffer {
  /** The values in the buffer, oldest first, and how often an operation left each number of them. */
  datatype Shared = Shared(buffer: seq<int>, histogram: seq<nat>)

  function Counted(sh: Shared): Shared
    requires |sh.buffer| < |sh.histogram|
  {
    sh.(histogram := sh.histogram[|sh.buffer| := sh.histogram[|sh.buffer|] + 1])
  }

  function Produced(sh: Shared, v: int): Shared
    requires |sh.buffer| + 1 < |sh.histogram|
  {
    Counted(sh.(buffer := sh.buffer + [v]))
  }

  function Consumed(sh: Shared): Shared
    requires 0 < |sh.buffer| < |sh.histogram|
  {
    Counted(sh.(buffer := sh.buffer[1..]))
  }

  // ---------- the ring ----------

  /** The index after `i`. */
  function After(i: nat, size: nat): (r: nat)
    requires i < size
    ensures r == if i == size - 1 then 0 else i + 1
  {
    (i + 1) % size
  }

  /** What a ring with these indices holds: one stretch, or two when it wraps around. */
  function Items(ring: seq<int>, head: nat, tail: nat): (r: seq<int>)
    requires head < |ring| && tail < |ring|
    ensures |r| < |ring|
  {
    if head <= tail then ring[head..tail] else ring[head..] + ring[..tail]
  }

  /** One place always stays empty, and the tests of the program say when no other is and when all are. */
  lemma RingTests(ring: seq<int>, head: nat, tail: nat)
    requires head < |ring| && tail < |ring|
    ensures After(tail, |ring|) == head <==> |Items(ring, head, tail)| == |ring| - 1
    ensures head == tail <==> Items(ring, head, tail) == []
  {
  }

  lemma RingPut(ring: seq<int>, head: nat, tail: nat, v: int)
    requires head < |ring| && tail < |ring| && After(tail, |ring|) != head
    ensures Items(ring[tail := v], head, After(tail, |ring|)) == Items(ring, head, tail) + [v]
  {
    var after := ring[tail := v];
    if tail == |ring| - 1 {
      assert after[head..] + after[..0] == ring[head..tail] + [v];
    } else if head <= tail {
      assert after[head..tail + 1] == ring[head..tail] + [v];
    } else {
      assert after[head..] == ring[head..] && after[..tail + 1] == ring[..tail] + [v];
      assert after[head..] + after[..tail + 1] == ring[head..] + ring[..tail] + [v];
    }
  }

  lemma RingTake(ring: seq<int>, head: nat, tail: nat)
    requires head < |ring| && tail < |ring| && head != tail
    ensures Items(ring, head, tail) == [ring[head]] + Items(ring, After(head, |ring|), tail)
  {
    if head == |ring| - 1 {
      assert ring[head..] == [ring[head]];
    } else if head < tail {
      assert ring[head..tail] == [ring[head]] + ring[head + 1..tail];
    } else {
      assert ring[head..] == [ring[head]] + ring[head + 1..];
    }
  }

  /** The globals of bounded-buffer.c. */
  class Ring {
    const queue: array<int>
    var head: nat
    var tail: nat

    ghost predicate Valid()
      reads this, queue
    {
      head < queue.Length && tail < queue.Length
    }

    ghost function Contents(): seq<int>
      requires Valid()
      reads this, queue
    {
      Items(queue[..], head, tail)
    }

    constructor (size: nat)
      requires size > 0
      ensures Valid() && Contents() == [] && queue.Length == size && fresh(queue)
    {
      queue := new int[size];
      head := 0;
      tail := 0;
    }

    /** One pass of `queue_enqueue` under the lock, up to the wait or the signal. */
    method Enqueue(val: int) returns (waits: bool)
      requires Valid()
      modifies this, queue
      ensures Valid()
      ensures waits <==> |old(Contents())| == queue.Length - 1
      ensures Contents() == if waits then old(Contents()) else old(Contents()) + [val]
    {
      RingTests(queue[..], head, tail);
      waits := After(tail, queue.Length) == head;
      if !waits {
        RingPut(queue[..], head, tail, val);
        ghost var ring := queue[..];
        queue[tail] := val;
        assert queue[..] == ring[tail := val];
        tail := After(tail, queue.Length);
      }
    }

    /** One pass of `queue_dequeue` under the lock, up to the wait or the signal. */
    method Dequeue() returns (waits: bool, val: int)
      requires Valid()
      modifies this
      ensures Valid()
      ensures waits <==> old(Contents()) == []
      ensures if waits then Contents() == old(Contents()) else [val] + Contents() == old(Contents())
    {
      RingTests(queue[..], head, tail);
      waits := head == tail;
      val := 0;
      if !waits {
        RingTake(queue[..], head, tail);
        val := queue[head];
        head := After(head, queue.Length);
      }
    }
  }

  // ---------- the pool ----------

  /** The pool of pc_mutex_cond.c with its counters. */
  class Pool {
    var items: nat
    const histogram: array<nat>
    var producerWaitCount: nat
    var consumerWaitCount: nat

    /** The pool only counts what the buffer holds. */
    ghost predicate Shows(sh: Shared)
      reads this, histogram
    {
      items == |sh.buffer| && histogram[..] == sh.histogram && items < histogram.Length
    }

    constructor (maxItems: nat)
      ensures Shows(Shared([], seq(maxItems + 1, _ => 0))) && fresh(histogram)
    {
      items := 0;
      producerWaitCount := 0;
      consumerWaitCount := 0;
      histogram := new nat[maxItems + 1](_ => 0);
    }

    /** One pass of the body of `producer` under the lock, up to the wait or the unlock. */
    method Produce(ghost sh: Shared, ghost v: int) returns (waits: bool)
      requires Shows(sh)
      modifies this, histogram
      ensures waits <==> |sh.buffer| == histogram.Length - 1
      ensures items == old(items) + if waits then 0 else 1
      ensures forall k :: 0 <= k < histogram.Length ==>
        histogram[k] == old(histogram[k]) + if !waits && k == items then 1 else 0
      ensures Shows(if waits then sh else Produced(sh, v))
      ensures producerWaitCount == old(producerWaitCount) + if waits then 1 else 0
    {
      waits := items == histogram.Length - 1;
      if waits {
        producerWaitCount := producerWaitCount + 1;
      } else {
        items := items + 1;
        histogram[items] := histogram[items] + 1;
      }
    }

    /** One pass of the body of `consumer` under the lock, up to the wait or the unlock. */
    method Consume(ghost sh: Shared) returns (waits: bool)
      requires Shows(sh)
      modifies this, histogram
      ensures waits <==> sh.buffer == []
      ensures items == old(items) - if waits then 0 else 1
      ensures forall k :: 0 <= k < histogram.Length ==>
        histogram[k] == old(histogram[k]) + if !waits && k == items then 1 else 0
      ensures Shows(if waits then sh else Consumed(sh))
      ensures consumerWaitCount == old(consumerWaitCount) + if waits then 1 else 0
    {
      waits := items == 0;
      if waits {
        consumerWaitCount := consumerWaitCount + 1;
      } else {
        items := items - 1;
        histogram[items] := histogram[items] + 1;
      }
    }
  }
}

/**
  The protocol: `pairs` producers and as many consumers do `rounds` operations each on a buffer with
  room for `capacity` values.  Threads below `pairs` produce, the others consume.
*/
module ProducerConsumer {
  import opened Common
  import opened Runs
  import opened Sums
  import opened Monitor
  import opened BoundedBuffer

  datatype Config = Config(pairs: nat, rounds: nat, capacity: nat)

  datatype Side = Put | Take

  /**
    `put` and `taken` record the values that ever went in and out, `woken` who was signalled and has not had its
    turn.
  */
  datatype State = State(mon: Monitor, sh: Shared, put: seq<int>, taken: seq<int>, done: seq<nat>, woken: set<Tid>)

  datatype Action = Lock | Enter | Turn

  predicate IsThread(c: Config, t: Tid)
  {
    t < 2 * c.pairs
  }

  function SideOf(c: Config, t: Tid): Side
  {
    if t < c.pairs then Put else Take
  }

  function Other(x: Side): Side
  {
    if x.Put? then Take else Put
  }

  /** The condition a side waits on: `queue_not_full` or `queue_not_empty`. */
  function Awaits(x: Side): Cond
  {
    if x.Put? then 0 else 1
  }

  function Line(s: State, x: Side): seq<Tid>
  {
    s.mon.Queue(Awaits(x))
  }

  /** How many operations of a side the buffer allows at once. */
  function Chances(c: Config, s: State, x: Side): int
  {
    if x.Put? then c.capacity - |s.sh.buffer| else |s.sh.buffer|
  }

  /** What producer `id` puts in its round `i`. */
  function Value(id: nat, i: nat): int
  {
    id * 1000 + i
  }

  /** Thread `t` is not at the monitor: it is between two operations. */
  predicate AtLarge(s: State, t: Tid)
  {
    s.mon.owner != Some(t) && t !in s.mon.entry && t !in Line(s, Put) && t !in Line(s, Take)
  }

  predicate At(c: Config, s: State, t: Tid, a: Action)
  {
    IsThread(c, t) && |s.done| == 2 * c.pairs && |s.sh.histogram| == c.capacity + 1 && |s.sh.buffer| <= c.capacity
    && match a
       case Lock => AtLarge(s, t) && s.done[t] < c.rounds
       case Enter => s.mon.CanEnter(t)
       case Turn => s.mon.owner == Some(t)
  }

  /** The operation itself; then one thread of the other side is signalled and the lock is given up. */
  function Operate(c: Config, s: State, t: Tid): State
    requires At(c, s, t, Turn) && Chances(c, s, SideOf(c, t)) > 0
  {
    var wake := Awaits(Other(SideOf(c, t)));
    var s' := s.(mon := s.mon.Signal(wake).Leave(), done := s.done[t := s.done[t] + 1],
      woken := s.woken - {t} + s.mon.First(wake));
    if SideOf(c, t).Put? then
      s'.(sh := Produced(s.sh, Value(t, s.done[t])), put := s.put + [Value(t, s.done[t])])
    else
      s'.(sh := Consumed(s.sh), taken := s.taken + [s.sh.buffer[0]])
  }

  function Do(c: Config, s: State, t: Tid, a: Action): State
    requires At(c, s, t, a)
  {
    match a
    case Lock => s.(mon := s.mon.Arrive(t))
    case Enter => s.(mon := s.mon.Enter(t))
    case Turn =>
      if Chances(c, s, SideOf(c, t)) > 0 then Operate(c, s, t)
      else s.(mon := s.mon.Wait(t, Awaits(SideOf(c, t))), woken := s.woken - {t})
  }

  ghost predicate Init(c: Config, s: State)
  {
    && s.mon == Monitor(None, {}, map[Awaits(Put) := [], Awaits(Take) := []]) && s.put == s.taken == [] && s.woken == {}
    && s.sh == Shared([], seq(c.capacity + 1, _ => 0)) && s.done == seq(2 * c.pairs, _ => 0)
  }

  ghost predicate Next(c: Config, s: State, s': State)
  {
    exists t: Tid, a :: At(c, s, t, a) && s' == Do(c, s, t, a)
  }

  ghost function Starts(c: Config): State -> bool
  {
    s => Init(c, s)
  }

  ghost function Steps(c: Config): (State, State) -> bool
  {
    (s, s') => Next(c, s, s')
  }

  // ---------- the invariant ----------

  /** Whoever is at the monitor still has rounds to go, and is in one place there. */
  ghost predicate Seated(c: Config, s: State)
  {
    && |s.done| == 2 * c.pairs
    && (forall t :: 0 <= t < |s.done| ==> s.done[t] <= c.rounds)
    && (forall t: Tid :: !AtLarge(s, t) ==> IsThread(c, t) && s.done[t] < c.rounds)
    && (s.mon.owner.Some? ==> s.mon.owner.value !in s.mon.entry)
    && OnlyTwoLines(s) && (forall x :: LineOk(c, s, x))
    && (forall t: Tid :: t in s.woken ==> t in s.mon.entry || s.mon.owner == Some(t))
  }

  /** The monitor has the two conditions only. */
  ghost predicate OnlyTwoLines(s: State)
  {
    s.mon.waiting.Keys == {Awaits(Put), Awaits(Take)}
  }

  /** A line holds threads of its side only, each once, and none that competes for the lock or holds it. */
  ghost predicate LineOk(c: Config, s: State, x: Side)
  {
    && NoDuplicates(Line(s, x))
    && forall t: Tid :: t in Line(s, x) ==> SideOf(c, t) == x && t !in s.mon.entry && s.mon.owner != Some(t)
  }

  ghost function WokenOf(c: Config, s: State, x: Side): set<Tid>
  {
    set t | t in s.woken && SideOf(c, t) == x
  }

  /** While a side waits, every operation the buffer allows it has a woken thread of that side on its way. */
  ghost predicate NoLostChance(c: Config, s: State, x: Side)
  {
    Line(s, x) != [] ==> Chances(c, s, x) <= |WokenOf(c, s, x)|
  }

  /** First in, first out; and every operation is counted once in each record. */
  ghost predicate Accounted(c: Config, s: State)
  {
    && s.put == s.taken + s.sh.buffer
    && |s.sh.buffer| <= c.capacity && |s.sh.histogram| == c.capacity + 1
    && |s.done| == 2 * c.pairs
    && Sum(s.done[..c.pairs]) == |s.put| && Sum(s.done[c.pairs..]) == |s.taken|
    && Sum(s.sh.histogram) == |s.put| + |s.taken|
  }

  ghost predicate Inv(c: Config, s: State)
  {
    Seated(c, s) && Accounted(c, s) && NoLostChance(c, s, Put) && NoLostChance(c, s, Take)
  }

  // ---------- the invariant is kept ----------

  /** Only the lines change when a thread locks, enters or waits. */
  lemma LockKeepsInv(c: Config, s: State, t: Tid)
    requires Inv(c, s) && At(c, s, t, Lock)
    ensures Inv(c, Do(c, s, t, Lock))
  {
    var s' := Do(c, s, t, Lock);
    assert WokenOf(c, s', Put) == WokenOf(c, s, Put) && WokenOf(c, s', Take) == WokenOf(c, s, Take);
    assert forall x :: LineOk(c, s, x) ==> LineOk(c, s', x);
  }

  lemma EnterKeepsInv(c: Config, s: State, t: Tid)
    requires Inv(c, s) && At(c, s, t, Enter)
    ensures Inv(c, Do(c, s, t, Enter))
  {
    var s' := Do(c, s, t, Enter);
    assert WokenOf(c, s', Put) == WokenOf(c, s, Put) && WokenOf(c, s', Take) == WokenOf(c, s, Take);
    assert forall x :: LineOk(c, s, x) ==> LineOk(c, s', x);
  }

  lemma WaitKeepsLine(c: Config, s: State, t: Tid, x: Side)
    requires Seated(c, s) && At(c, s, t, Turn) && Chances(c, s, SideOf(c, t)) <= 0
    ensures LineOk(c, Do(c, s, t, Turn), x)
    ensures x != SideOf(c, t) ==> Line(Do(c, s, t, Turn), x) == Line(s, x)
    ensures x == SideOf(c, t) ==> Line(Do(c, s, t, Turn), x) == Line(s, x) + [t]
  {
    assert LineOk(c, s, x) && LineOk(c, s, SideOf(c, t));
  }

  lemma WaitKeepsInv(c: Config, s: State, t: Tid)
    requires Inv(c, s) && At(c, s, t, Turn) && Chances(c, s, SideOf(c, t)) <= 0
    ensures Inv(c, Do(c, s, t, Turn))
  {
    var s', x := Do(c, s, t, Turn), SideOf(c, t);
    WaitKeepsLine(c, s, t, Put);
    WaitKeepsLine(c, s, t, Take);
    assert WokenOf(c, s', Other(x)) == WokenOf(c, s, Other(x));
    assert NoLostChance(c, s, Other(x)) && NoLostChance(c, s', x);
    forall u: Tid | !AtLarge(s', u)
      ensures IsThread(c, u) && s'.done[u] < c.rounds
    {
      assert !AtLarge(s, u);
    }
  }

  // ---------- an operation ----------

  /** Signalling takes the first thread off the other side's line. */
  lemma OperateLines(c: Config, s: State, t: Tid, x: Side)
    requires Seated(c, s) && At(c, s, t, Turn) && Chances(c, s, SideOf(c, t)) > 0
    ensures var s' := Operate(c, s, t);
      LineOk(c, s', x) && Line(s', x) == if x == SideOf(c, t) || Line(s, x) == [] then Line(s, x) else Line(s, x)[1..]
  {
    assert LineOk(c, s, x) && LineOk(c, s, Other(SideOf(c, t)));
    var s', line := Operate(c, s, t), Line(s, x);
    if x != SideOf(c, t) && line != [] {
      assert forall u :: u in line[1..] ==> u in line && u != line[0];
    }
  }

  lemma OperateKeepsSeats(c: Config, s: State, t: Tid)
    requires Seated(c, s) && At(c, s, t, Turn) && Chances(c, s, SideOf(c, t)) > 0
    ensures Seated(c, Operate(c, s, t))
  {
    var s' := Operate(c, s, t);
    OperateLines(c, s, t, Put);
    OperateLines(c, s, t, Take);
    assert LineOk(c, s, Put) && LineOk(c, s, Take) && !AtLarge(s, t);
    forall u: Tid | !AtLarge(s', u)
      ensures !AtLarge(s, u) && u != t
    {
    }
  }

  /** The thread that operates is no longer woken; the first of the other side's line is. */
  lemma OperateWoken(c: Config, s: State, t: Tid)
    requires Seated(c, s) && At(c, s, t, Turn) && Chances(c, s, SideOf(c, t)) > 0
    ensures var s', x, y := Operate(c, s, t), SideOf(c, t), Other(SideOf(c, t));
      && |WokenOf(c, s', x)| >= |WokenOf(c, s, x)| - 1
      && (Line(s, y) != [] ==> |WokenOf(c, s', y)| == |WokenOf(c, s, y)| + 1)
  {
    var s', x, y := Operate(c, s, t), SideOf(c, t), Other(SideOf(c, t));
    assert LineOk(c, s, y);
    if Line(s, y) == [] {
      assert WokenOf(c, s', x) == WokenOf(c, s, x) - {t};
    } else {
      var u := Line(s, y)[0];
      assert u in Line(s, y) && u !in s.woken;
      assert WokenOf(c, s', x) == WokenOf(c, s, x) - {t};
      assert WokenOf(c, s', y) == WokenOf(c, s, y) + {u};
    }
  }

  lemma OperateKeepsChances(c: Config, s: State, t: Tid, x: Side)
    requires Seated(c, s) && NoLostChance(c, s, x)
    requires At(c, s, t, Turn) && Chances(c, s, SideOf(c, t)) > 0
    ensures NoLostChance(c, Operate(c, s, t), x)
  {
    OperateLines(c, s, t, x);
    OperateWoken(c, s, t);
  }

  /** One more operation of thread `t`, in the sums of the two sides. */
  lemma DoneGrows(d: seq<nat>, n: nat, t: nat)
    requires |d| == 2 * n && t < 2 * n
    ensures var d' := d[t := d[t] + 1];
      && Sum(d'[..n]) == Sum(d[..n]) + (if t < n then 1 else 0)
      && Sum(d'[n..]) == Sum(d[n..]) + (if t < n then 0 else 1)
  {
    var d' := d[t := d[t] + 1];
    if t < n {
      assert d'[..n] == d[..n][t := d[t] + 1] && d'[n..] == d[n..];
      SumUpdate(d[..n], t, d[t] + 1);
    } else {
      assert d'[..n] == d[..n] && d'[n..] == d[n..][t - n := d[t] + 1];
      SumUpdate(d[n..], t - n, d[t] + 1);
    }
  }

  lemma OperateKeepsOrder(c: Config, s: State, t: Tid)
    requires s.put == s.taken + s.sh.buffer && At(c, s, t, Turn) && Chances(c, s, SideOf(c, t)) > 0
    ensures var s' := Operate(c, s, t);
      && s'.put == s'.taken + s'.sh.buffer && |s'.put| + |s'.taken| == |s.put| + |s.taken| + 1
      && |s'.sh.buffer| <= c.capacity
      && s'.sh.histogram == s.sh.histogram[|s'.sh.buffer| := s.sh.histogram[|s'.sh.buffer|] + 1]
  {
    if SideOf(c, t).Take? {
      assert s.sh.buffer == [s.sh.buffer[0]] + s.sh.buffer[1..];
    }
  }

  lemma OperateKeepsAccounts(c: Config, s: State, t: Tid)
    requires Accounted(c, s) && At(c, s, t, Turn) && Chances(c, s, SideOf(c, t)) > 0
    ensures Accounted(c, Operate(c, s, t))
  {
    var s' := Operate(c, s, t);
    OperateKeepsOrder(c, s, t);
    HistogramGrows(s.sh.histogram, |s'.sh.buffer|);
    DoneGrows(s.done, c.pairs, t);
  }

  lemma StepKeepsInv(c: Config, s: State, t: Tid, a: Action)
    requires Inv(c, s) && At(c, s, t, a)
    ensures Inv(c, Do(c, s, t, a))
  {
    match a
    case Lock => LockKeepsInv(c, s, t);
    case Enter => EnterKeepsInv(c, s, t);
    case Turn =>
      if Chances(c, s, SideOf(c, t)) > 0 {
        OperateKeepsSeats(c, s, t);
        OperateKeepsChances(c, s, t, Put);
        OperateKeepsChances(c, s, t, Take);
        OperateKeepsAccounts(c, s, t);
      } else {
        WaitKeepsInv(c, s, t);
      }
  }

  lemma InitOk(c: Config, s: State)
    requires Init(c, s)
    ensures Inv(c, s)
  {
    InitAccounted(c, s);
    assert Line(s, Put) == [] && Line(s, Take) == [];
  }

  lemma InitAccounted(c: Config, s: State)
    requires Init(c, s)
    ensures Accounted(c, s)
  {
    SumBounds(s.done[..c.pairs], 0, 0);
    SumBounds(s.done[c.pairs..], 0, 0);
    SumBounds(s.sh.histogram, 0, 0);
  }

  lemma LockIsArrival(c: Config, s: State, t: Tid)
    requires OnlyTwoLines(s) && At(c, s, t, Lock)
    ensures s.mon.AtLarge(t)
  {
    assert forall d: Cond :: t in s.mon.Queue(d) ==> d == Awaits(Put) || d == Awaits(Take);
  }

  /** Every step is one monitor step or, for an operation, a signal and the release of the lock. */
  lemma StepIsMonitorSteps(c: Config, s: State, t: Tid, a: Action)
    requires Inv(c, s) && At(c, s, t, a)
    ensures Reaches(s.mon, Do(c, s, t, a).mon)
  {
    var m, m' := s.mon, Do(c, s, t, a).mon;
    assert LineOk(c, s, Put) && LineOk(c, s, Take);
    Stay(m);
    if a.Turn? && Chances(c, s, SideOf(c, t)) > 0 {
      var signalled := m.Signal(Awaits(Other(SideOf(c, t))));
      Further(m, m, signalled);
      Further(m, signalled, m');
    } else {
      if a.Lock? { LockIsArrival(c, s, t); }
      Further(m, m, m');
    }
  }

  // ---------- what a turn does ----------

  /** A producer waits exactly while the buffer is full, a consumer exactly while it is empty. */
  ghost predicate MustWait(c: Config, s: State, t: Tid)
  {
    if t < c.pairs then |s.sh.buffer| == c.capacity else s.sh.buffer == []
  }

  /** Who must wait joins its line behind the others and gives up the lock; nothing else changes. */
  lemma WaitMeaning(c: Config, s: State, t: Tid)
    requires Inv(c, s) && At(c, s, t, Turn) && MustWait(c, s, t)
    ensures var s', x := Do(c, s, t, Turn), SideOf(c, t);
      && Line(s', x) == Line(s, x) + [t] && Line(s', Other(x)) == Line(s, Other(x))
      && s' == s.(mon := s'.mon, woken := s'.woken)
      && s'.mon.owner == None && s'.mon.entry == s.mon.entry
  {
    WaitKeepsLine(c, s, t, Put);
    WaitKeepsLine(c, s, t, Take);
  }

  /** An operation appends the producer's next value or takes the oldest one. */
  lemma OperateMeaning(c: Config, s: State, t: Tid)
    requires Inv(c, s) && At(c, s, t, Turn) && !MustWait(c, s, t)
    ensures var s' := Do(c, s, t, Turn);
      && s'.done == s.done[t := s.done[t] + 1]
      && (t < c.pairs ==> s'.sh.buffer == s.sh.buffer + [1000 * t + s.done[t]])
      && (t < c.pairs ==> s'.put == s.put + [1000 * t + s.done[t]] && s'.taken == s.taken)
      && (t >= c.pairs ==> s.sh.buffer != [] && [s.sh.buffer[0]] + s'.sh.buffer == s.sh.buffer)
      && (t >= c.pairs ==> s'.taken == s.taken + [s.sh.buffer[0]] && s'.put == s.put)
  {
  }

  /** Afterwards the first of the other side's line, and nobody else, is on its way to the lock, which is free. */
  lemma OperateWakes(c: Config, s: State, t: Tid)
    requires Inv(c, s) && At(c, s, t, Turn) && !MustWait(c, s, t)
    ensures var s', x := Do(c, s, t, Turn), SideOf(c, t); var line := Line(s, Other(x));
      && s'.mon.owner == None && Line(s', x) == Line(s, x)
      && Line(s', Other(x)) == (if line == [] then [] else line[1..])
      && s'.mon.entry == s.mon.entry + (if line == [] then {} else {line[0]})
      && s'.woken == s.woken - {t} + (if line == [] then {} else {line[0]})
  {
    OperateLines(c, s, t, Put);
    OperateLines(c, s, t, Take);
  }

  // ---------- every step brings the end nearer ----------

  /** How far into an operation a thread is; a wake-up costs two, and the operation that wakes pays for it. */
  function Depth(s: State, t: Tid): int
  {
    if s.mon.owner == Some(t) then 2 else if t in s.mon.entry then 1 else if AtLarge(s, t) then 0 else 3
  }

  function Rank(c: Config, s: State, t: Tid): int
    requires t < |s.done|
  {
    5 * (c.rounds - s.done[t]) - Depth(s, t)
  }

  function Ranks(c: Config, s: State): seq<int>
  {
    seq(|s.done|, t requires 0 <= t < |s.done| => Rank(c, s, t))
  }

  ghost function Measure(c: Config, s: State): nat
  {
    var m := Sum(Ranks(c, s));
    if m < 0 then 0 else m
  }

  lemma MeasureIsSum(c: Config, s: State)
    requires Seated(c, s)
    ensures Measure(c, s) == Sum(Ranks(c, s))
  {
    forall t: Tid | t < |s.done|
      ensures 0 <= Rank(c, s, t) <= 5 * c.rounds
    {
    }
    SumBounds(Ranks(c, s), 0, 5 * c.rounds);
  }

  /** A step that moves thread `t` on. */
  lemma OneRankDrops(c: Config, s: State, s': State, t: Tid)
    requires t < |s.done| == |s'.done| && Rank(c, s', t) < Rank(c, s, t)
    requires forall u: Tid :: u < |s.done| && u != t ==> Rank(c, s', u) == Rank(c, s, u)
    ensures Sum(Ranks(c, s')) < Sum(Ranks(c, s))
  {
    assert Ranks(c, s') == Ranks(c, s)[t := Rank(c, s', t)];
    SumUpdate(Ranks(c, s), t, Rank(c, s', t));
  }

  /** A step that moves thread `t` on by three and wakes thread `u`. */
  lemma TwoRanksDrop(c: Config, s: State, s': State, t: Tid, u: Tid)
    requires t < |s.done| == |s'.done| && u < |s.done| && u != t
    requires Rank(c, s', t) == Rank(c, s, t) - 3 && Rank(c, s', u) == Rank(c, s, u) + 2
    requires forall v: Tid :: v < |s.done| && v != t && v != u ==> Rank(c, s', v) == Rank(c, s, v)
    ensures Sum(Ranks(c, s')) < Sum(Ranks(c, s))
  {
    var once := Ranks(c, s)[t := Rank(c, s', t)];
    assert Ranks(c, s') == once[u := Rank(c, s', u)];
    SumUpdate(Ranks(c, s), t, Rank(c, s', t));
    SumUpdate(once, u, Rank(c, s', u));
  }

  lemma OperateLowersRanks(c: Config, s: State, t: Tid)
    requires Seated(c, s) && At(c, s, t, Turn) && Chances(c, s, SideOf(c, t)) > 0
    ensures Sum(Ranks(c, Operate(c, s, t))) < Sum(Ranks(c, s))
  {
    var s', y := Operate(c, s, t), Other(SideOf(c, t));
    OperateLines(c, s, t, Put);
    OperateLines(c, s, t, Take);
    assert LineOk(c, s, Put) && LineOk(c, s, Take);
    if Line(s, y) == [] {
      OneRankDrops(c, s, s', t);
    } else {
      var u := Line(s, y)[0];
      assert u in Line(s, y) && !AtLarge(s, u);
      forall v: Tid | v < |s.done| && v != t && v != u
        ensures Rank(c, s', v) == Rank(c, s, v)
      {
        assert v in Line(s', y) <==> v in Line(s, y);
      }
      TwoRanksDrop(c, s, s', t, u);
    }
  }

  lemma WaitLowersRanks(c: Config, s: State, t: Tid)
    requires Seated(c, s) && At(c, s, t, Turn) && Chances(c, s, SideOf(c, t)) <= 0
    ensures Sum(Ranks(c, Do(c, s, t, Turn))) < Sum(Ranks(c, s))
  {
    WaitKeepsLine(c, s, t, Put);
    WaitKeepsLine(c, s, t, Take);
    OneRankDrops(c, s, Do(c, s, t, Turn), t);
  }

  lemma StepLowersMeasure(c: Config, s: State, t: Tid, a: Action)
    requires Inv(c, s) && At(c, s, t, a)
    ensures Measure(c, Do(c, s, t, a)) < Measure(c, s)
  {
    var s' := Do(c, s, t, a);
    StepKeepsInv(c, s, t, a);
    MeasureIsSum(c, s);
    MeasureIsSum(c, s');
    if !a.Turn? {
      OneRankDrops(c, s, s', t);
    } else if Chances(c, s, SideOf(c, t)) > 0 {
      OperateLowersRanks(c, s, t);
    } else {
      WaitLowersRanks(c, s, t);
    }
  }

  // ---------- no deadlock ----------

  ghost predicate SomebodyCanMove(c: Config, s: State)
  {
    exists t: Tid, a :: At(c, s, t, a)
  }

  /** Everybody has done all rounds, and what went in came out in the same order. */
  ghost predicate AllDone(c: Config, s: State)
  {
    && s.done == seq(2 * c.pairs, _ => c.rounds)
    && s.sh.buffer == [] && s.taken == s.put && |s.put| == c.pairs * c.rounds
    && Sum(s.sh.histogram) == 2 * c.pairs * c.rounds
  }

  lemma OwnerCanMove(c: Config, s: State)
    requires Inv(c, s) && s.mon.owner.Some?
    ensures SomebodyCanMove(c, s)
  {
    assert !AtLarge(s, s.mon.owner.value) && At(c, s, s.mon.owner.value, Turn);
  }

  lemma OnlyWaitersCannotMove(c: Config, s: State)
    requires Inv(c, s) && !SomebodyCanMove(c, s)
    ensures s.mon.owner == None && s.mon.entry == {} && s.woken == {}
    ensures forall t: Tid :: IsThread(c, t) && s.done[t] < c.rounds ==> t in Line(s, SideOf(c, t))
  {
    if s.mon.owner.Some? { OwnerCanMove(c, s); }
    forall t: Tid
      ensures t !in s.mon.entry
    {
      assert !At(c, s, t, Enter) && (t in s.mon.entry ==> !AtLarge(s, t));
    }
    forall t: Tid | IsThread(c, t) && s.done[t] < c.rounds
      ensures t in Line(s, SideOf(c, t))
    {
      assert !At(c, s, t, Lock) && !AtLarge(s, t);
      assert LineOk(c, s, Put) && LineOk(c, s, Take);
    }
  }

  /** A side that has nobody waiting has done all its rounds. */
  lemma SideDone(c: Config, s: State, x: Side)
    requires Inv(c, s) && !SomebodyCanMove(c, s) && Line(s, x) == []
    ensures forall t: Tid :: IsThread(c, t) && SideOf(c, t) == x ==> s.done[t] == c.rounds
    ensures (if x.Put? then |s.put| else |s.taken|) == c.rounds * c.pairs
  {
    OnlyWaitersCannotMove(c, s);
    var mine := if x.Put? then s.done[..c.pairs] else s.done[c.pairs..];
    forall i | 0 <= i < |mine|
      ensures mine[i] == c.rounds
    {
      var t := if x.Put? then i else i + c.pairs;
      assert mine[i] == s.done[t] && IsThread(c, t) && SideOf(c, t) == x;
    }
    SumBounds(mine, c.rounds, c.rounds);
  }

  /** Neither side has done more than its rounds, and one that has done them all has nobody waiting. */
  lemma SideBound(c: Config, s: State, x: Side)
    requires Inv(c, s)
    ensures var ops := if x.Put? then |s.put| else |s.taken|; ops <= c.rounds * c.pairs
    ensures (if x.Put? then |s.put| else |s.taken|) == c.rounds * c.pairs ==> Line(s, x) == []
  {
    var mine := if x.Put? then s.done[..c.pairs] else s.done[c.pairs..];
    assert forall i :: 0 <= i < |mine| ==> mine[i] == s.done[if x.Put? then i else i + c.pairs];
    SumBounds(mine, 0, c.rounds);
    if Line(s, x) != [] {
      var t := Line(s, x)[0];
      assert t in Line(s, x) && LineOk(c, s, x) && !AtLarge(s, t);
      assert mine[if x.Put? then t else t - c.pairs] == s.done[t] < c.rounds;
    }
  }

  /** Unless everybody is done somebody can move. */
  lemma NoDeadlock(c: Config, s: State)
    requires c.capacity >= 1 && Inv(c, s) && !SomebodyCanMove(c, s)
    ensures AllDone(c, s)
  {
    OnlyWaitersCannotMove(c, s);
    SideBound(c, s, Put);
    SideBound(c, s, Take);
    assert WokenOf(c, s, Put) == {} && WokenOf(c, s, Take) == {};
    if Line(s, Put) == [] {
      SideDone(c, s, Put);
      assert Line(s, Take) == [];
      SideDone(c, s, Take);
    } else {
      assert |s.sh.buffer| == c.capacity && Line(s, Take) == [];
      SideDone(c, s, Take);
    }
    assert c.rounds * c.pairs == c.pairs * c.rounds;
    assert forall t: Tid :: IsThread(c, t) ==> s.done[t] == c.rounds;
  }

  // ---------- every run ----------

  lemma EveryRunKeepsInv(c: Config, run: seq<State>)
    requires IsRun(Starts(c), Steps(c), run)
    ensures forall i :: 0 <= i < |run| ==> Inv(c, run[i])
    ensures |run| - 1 + Measure(c, run[|run| - 1]) <= Measure(c, run[0])
  {
    var init, next := Starts(c), Steps(c);
    var inv, measure := (s: State) => Inv(c, s), (s: State) => Measure(c, s);
    forall s | init(s)
      ensures inv(s)
    {
      InitOk(c, s);
    }
    forall s, s' | inv(s) && next(s, s')
      ensures inv(s') && measure(s') < measure(s)
    {
      var t: Tid, a :| At(c, s, t, a) && s' == Do(c, s, t, a);
      StepKeepsInv(c, s, t, a);
      StepLowersMeasure(c, s, t, a);
    }
    InvariantAlways(init, next, inv, run);
    MeasureBoundsRun(init, next, inv, measure, run);
  }

  /** In every run, at every point, what was taken is a prefix of what was put, and no chance is lost. */
  lemma FirstInFirstOut(c: Config, run: seq<State>, i: nat)
    requires IsRun(Starts(c), Steps(c), run) && i < |run|
    ensures run[i].taken <= run[i].put && run[i].put == run[i].taken + run[i].sh.buffer
    ensures |run[i].sh.buffer| <= c.capacity
    ensures forall x :: NoLostChance(c, run[i], x)
    ensures Sum(run[i].sh.histogram) == |run[i].put| + |run[i].taken|
  {
    EveryRunKeepsInv(c, run);
    assert Inv(c, run[i]);
    forall x
      ensures NoLostChance(c, run[i], x)
    {
      assert x == Put || x == Take;
    }
  }

  /** The numbers of values that the operations of a run have left in the buffer. */
  ghost function Levels(run: seq<State>, k: nat): seq<nat>
    requires k < |run|
  {
    if k == 0 then []
    else if run[k].sh.buffer == run[k - 1].sh.buffer then Levels(run, k - 1)
    else Levels(run, k - 1) + [|run[k].sh.buffer|]
  }

  ghost function LeftWith(levels: seq<nat>, n: nat): set<nat>
  {
    set j: nat | j < |levels| && levels[j] == n
  }

  lemma LevelsGrow(levels: seq<nat>, m: nat, n: nat)
    ensures |LeftWith(levels + [m], n)| == |LeftWith(levels, n)| + if m == n then 1 else 0
  {
    assert LeftWith(levels + [m], n) == LeftWith(levels, n) + (if m == n then {|levels|} else {});
  }

  ghost predicate BinsCount(sh: Shared, levels: seq<nat>)
  {
    forall n: nat :: n < |sh.histogram| ==> sh.histogram[n] == |LeftWith(levels, n)|
  }

  lemma StepKeepsBins(c: Config, s: State, t: Tid, a: Action, levels: seq<nat>)
    requires At(c, s, t, a) && BinsCount(s.sh, levels)
    ensures var s' := Do(c, s, t, a);
      BinsCount(s'.sh, if s'.sh.buffer == s.sh.buffer then levels else levels + [|s'.sh.buffer|])
  {
    var s' := Do(c, s, t, a);
    if a.Turn? && Chances(c, s, SideOf(c, t)) > 0 {
      assert |s'.sh.buffer| != |s.sh.buffer|;
      forall n: nat
        ensures |LeftWith(levels + [|s'.sh.buffer|], n)|
             == |LeftWith(levels, n)| + if |s'.sh.buffer| == n then 1 else 0
      {
        LevelsGrow(levels, |s'.sh.buffer|, n);
      }
    }
  }

  /** In every run bin `n` of the histogram is the number of operations that left exactly `n` values. */
  lemma {:induction false} EveryBinCounts(c: Config, run: seq<State>, k: nat)
    requires IsRun(Starts(c), Steps(c), run) && k < |run|
    ensures |run[k].sh.histogram| == c.capacity + 1
    ensures forall n: nat :: n <= c.capacity ==> run[k].sh.histogram[n] == |LeftWith(Levels(run, k), n)|
  {
    EveryRunKeepsInv(c, run);
    assert Inv(c, run[k]);
    if k == 0 {
      forall n: nat
        ensures LeftWith([], n) == {}
      {
      }
    } else {
      EveryBinCounts(c, run, k - 1);
      var s := run[k - 1];
      assert Inv(c, s) && Steps(c)(s, run[k]);
      var t: Tid, a :| At(c, s, t, a) && run[k] == Do(c, s, t, a);
      StepKeepsBins(c, s, t, a, Levels(run, k - 1));
      assert BinsCount(run[k].sh, Levels(run, k));
    }
  }

  lemma InitialMeasure(c: Config, s: State)
    requires Init(c, s)
    ensures Measure(c, s) == 10 * c.rounds * c.pairs
  {
    var ranks := Ranks(c, s);
    assert forall t: Tid :: t < |s.done| ==> Rank(c, s, t) == 5 * c.rounds;
    SumBounds(ranks, 5 * c.rounds, 5 * c.rounds);
    calc {
      5 * c.rounds * |ranks|;
      { assert |ranks| == 2 * c.pairs; }
      5 * c.rounds * (2 * c.pairs);
      10 * c.rounds * c.pairs;
    }
  }

  /** No run is longer than ten steps a round and pair. */
  lemma EveryRunEnds(c: Config, run: seq<State>)
    requires IsRun(Starts(c), Steps(c), run)
    ensures |run| <= 10 * c.rounds * c.pairs + 1
  {
    EveryRunKeepsInv(c, run);
    InitialMeasure(c, run[0]);
  }

  lemma MoveIsStep(c: Config, s: State, t: Tid, a: Action)
    requires At(c, s, t, a)
    ensures Steps(c)(s, Do(c, s, t, a))
  {
  }

  lemma StuckCannotMove(c: Config, s: State)
    requires IsStuck(Steps(c), s)
    ensures !SomebodyCanMove(c, s)
  {
    if SomebodyCanMove(c, s) {
      var t: Tid, a :| At(c, s, t, a);
      MoveIsStep(c, s, t, a);
    }
  }

  /** A run that cannot go on has done all rounds and left the buffer empty. */
  lemma EverythingIsConsumed(c: Config, run: seq<State>)
    requires c.capacity >= 1 && IsRun(Starts(c), Steps(c), run)
    requires IsStuck(Steps(c), run[|run| - 1])
    ensures AllDone(c, run[|run| - 1])
  {
    EveryRunKeepsInv(c, run);
    StuckCannotMove(c, run[|run| - 1]);
    NoDeadlock(c, run[|run| - 1]);
  }
}
