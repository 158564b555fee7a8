/**
  The two semaphore algorithms and the counting semaphore both implement.

  `Handoff` is a10/uthreads/uthread_sem.c: a waiter takes its unit before it queues, so the value goes
  negative, and a signal hands the unit over.  `Retest` is examples/uthread/uthread_sem.c: a woken
  waiter tests the value again and may find it taken.
*/
module CountingSemaphore {
  import opened Common

  /** The abstract semaphore: units left, threads that asked and were not yet served, and two totals. */
  datatype Semaphore = Semaphore(count: int, pending: set<Tid>, signals: nat, granted: nat)

  ghost predicate Next(a: Semaphore, b: Semaphore)
  {
    || (exists t: Tid :: t !in a.pending && b == a.(pending := a.pending + {t}))
    || (exists t: Tid ::
        t in a.pending && a.count > 0
        && b == a.(count := a.count - 1, pending := a.pending - {t}, granted := a.granted + 1))
    || b == a.(count := a.count + 1, signals := a.signals + 1)
  }

  /** At most two abstract steps: one call may both ask and be served, or both signal and serve. */
  ghost predicate Reaches(a: Semaphore, b: Semaphore)
  {
    a == b || Next(a, b) || exists m :: Next(a, m) && Next(m, b)
  }

  /** Units are neither lost nor made up. */
  ghost predicate Balanced(a: Semaphore, initial: int)
  {
    a.count >= 0 && a.count + a.granted == initial + a.signals
  }

  /** A thread that asks unless it already has, and is then served. */
  lemma AskedAndServed(a: Semaphore, b: Semaphore, t: Tid)
    requires a.count > 0 && b.pending == a.pending - {t}
    requires b.count == a.count - 1 && b.signals == a.signals && b.granted == a.granted + 1
    ensures Reaches(a, b)
  {
    var m := a.(pending := a.pending + {t});
    assert t in a.pending ==> m.pending == a.pending;
    assert b.pending == m.pending - {t};
    assert b == m.(count := m.count - 1, pending := m.pending - {t}, granted := m.granted + 1);
    assert Next(m, b) && (m == a || Next(a, m));
  }

  lemma ReachesKeepsBalance(a: Semaphore, b: Semaphore, initial: int)
    requires Balanced(a, initial) && Reaches(a, b)
    ensures Balanced(b, initial)
  {
  }
}

module SemaphoreObject {
  import opened Common

  datatype Sem = Sem(value: int, queue: seq<Tid>)

  function Signalled(s: Sem): Sem
  {
    Sem(s.value + 1, if s.queue == [] then [] else s.queue[1..])
  }

  function HandoffWait(s: Sem, me: Tid): Sem
  {
    Sem(s.value - 1, if s.value - 1 < 0 then Enqueue(s.queue, me) else s.queue)
  }

  function RetestWait(s: Sem, me: Tid): Sem
  {
    if s.value < 1 then s.(queue := Enqueue(s.queue, me)) else s.(value := s.value - 1)
  }

  /** The semaphore record, updated in place under its spinlock. */
  class UthreadSem {
    var value: int
    var waiterQueue: seq<Tid>

    function Value(): Sem
      reads this
    {
      Sem(value, waiterQueue)
    }

    constructor (initialValue: int)
      ensures Value() == Sem(initialValue, [])
    {
      value := initialValue;
      waiterQueue := [];
    }

    /** `uthread_sem_signal`, the same in both files. */
    method Signal() returns (woken: Option<Tid>)
      modifies this
      ensures value == old(value) + 1
      ensures old(waiterQueue) == (if woken.None? then [] else [woken.value]) + waiterQueue
      ensures Value() == Signalled(old(Value()))
      ensures woken == if old(waiterQueue) == [] then None else Some(old(waiterQueue)[0])
    {
      value := value + 1;
      woken := None;
      if waiterQueue != [] {
        woken := Some(waiterQueue[0]);
        waiterQueue := waiterQueue[1..];
      }
    }

    /** `uthread_sem_wait` of a10/uthreads, up to the point where the thread may block. */
    method WaitHandoff(me: Tid) returns (blocks: bool)
      modifies this
      ensures value == old(value) - 1
      ensures blocks ==> me in waiterQueue && old(waiterQueue) <= waiterQueue
      ensures !blocks ==> waiterQueue == old(waiterQueue)
      ensures Value() == HandoffWait(old(Value()), me)
      ensures blocks <==> old(value) <= 0
    {
      value := value - 1;
      blocks := value < 0;
      if blocks {
        waiterQueue := Enqueue(waiterQueue, me);
      }
    }

    /** One pass of the loop of `uthread_sem_wait` in examples/uthread. */
    method WaitRetest(me: Tid) returns (blocks: bool)
      modifies this
      ensures value == old(value) - if blocks then 0 else 1
      ensures blocks ==> me in waiterQueue && old(waiterQueue) <= waiterQueue
      ensures !blocks ==> waiterQueue == old(waiterQueue)
      ensures Value() == RetestWait(old(Value()), me)
      ensures blocks <==> old(value) < 1
    {
      blocks := value < 1;
      if blocks {
        waiterQueue := Enqueue(waiterQueue, me);
      } else {
        value := value - 1;
      }
    }
  }

  // ---------- any number of threads on one semaphore ----------

  /** `Queued`: on the waiter queue; `Woken`: taken off it and not yet back from the wait. */
  datatype Pc = Running | Queued | Woken

  /** `signals` counts the signals so far and `granted` the units handed to waiters. */
  datatype State = State(sem: Sem, pc: map<Tid, Pc>, signals: nat, granted: nat)

  ghost predicate Init(s: State, initial: int)
  {
    s.sem == Sem(initial, []) && s.signals == 0 && s.granted == 0 && forall t :: t in s.pc ==> s.pc[t] == Running
  }

  ghost function In(pc: map<Tid, Pc>, p: Pc): set<Tid>
  {
    set t | t in pc && pc[t] == p
  }

  ghost predicate QueueMatches(s: State)
  {
    NoDuplicates(s.sem.queue) && forall t :: t in s.sem.queue <==> t in s.pc && s.pc[t] == Queued
  }

  /** A signal by a running thread. */
  function AfterSignal(s: State): State
  {
    State(Signalled(s.sem), if s.sem.queue == [] then s.pc else s.pc[s.sem.queue[0] := Woken], s.signals + 1, s.granted)
  }

  lemma SignalKeepsQueue(s: State)
    requires QueueMatches(s)
    ensures QueueMatches(AfterSignal(s))
    ensures s.sem.queue != [] ==> s.sem.queue[0] in In(s.pc, Queued) && s.sem.queue[0] !in In(s.pc, Woken)
    ensures s.sem.queue != [] ==> In(AfterSignal(s).pc, Woken) == In(s.pc, Woken) + {s.sem.queue[0]}
    ensures s.sem.queue != [] ==> In(AfterSignal(s).pc, Queued) == In(s.pc, Queued) - {s.sem.queue[0]}
  {
    var q := s.sem.queue;
    if q != [] {
      assert q == q[..1] + q[1..];
      CutNoDuplicates(q[..1], q[1..]);
      assert q[0] in q && q[0] in q[..1];
      forall t
        ensures t in q[1..] <==> t in q && t != q[0]
      {
        assert t in q[..1] <==> t == q[0];
      }
    }
  }

  /** A signal is one unit, and moves the first waiter and nobody else. */
  lemma SignalMeaning(s: State)
    requires QueueMatches(s)
    ensures var r := AfterSignal(s);
      && r.sem.value == s.sem.value + 1 && r.signals == s.signals + 1 && r.granted == s.granted
      && (s.sem.queue == [] ==> r.sem.queue == [] && r.pc == s.pc)
      && (s.sem.queue != [] ==>
        && s.sem.queue == [s.sem.queue[0]] + r.sem.queue
        && s.pc[s.sem.queue[0]] == Queued && r.pc[s.sem.queue[0]] == Woken)
      && r.pc.Keys == s.pc.Keys
      && forall t :: t in s.pc && t !in s.sem.queue[..|s.sem.queue| - |r.sem.queue|] ==> r.pc[t] == s.pc[t]
  {
    if s.sem.queue != [] { assert s.sem.queue[0] in s.sem.queue; }
  }

  lemma EnqueueKeepsQueue(s: State, s': State, t: Tid)
    requires QueueMatches(s) && t in s.pc && s.pc[t] != Queued
    requires s'.sem.queue == Enqueue(s.sem.queue, t) && s'.pc == s.pc[t := Queued]
    ensures QueueMatches(s') && s'.sem.queue == s.sem.queue + [t]
  {
    assert t !in s.sem.queue;
    forall u
      ensures u in s'.sem.queue <==> u in s.sem.queue || u == t
    {
    }
  }
}

/** The algorithm of a10/uthreads/uthread_sem.c. */
module HandoffSemaphore {
  import opened Common
  import opened Runs
  import opened SemaphoreObject
  import A = CountingSemaphore

  datatype Action = Signal | Wait | Return

  predicate At(s: State, t: Tid, a: Action)
  {
    t in s.pc && if a.Return? then s.pc[t] == Woken else s.pc[t] == Running
  }

  function Do(s: State, t: Tid, a: Action): State
  {
    match a
    case Signal =>
      var r := AfterSignal(s);
      if s.sem.queue == [] then r else r.(granted := s.granted + 1)
    case Wait =>
      if s.sem.value - 1 < 0 then s.(sem := HandoffWait(s.sem, t), pc := s.pc[t := Queued])
      else s.(sem := HandoffWait(s.sem, t), granted := s.granted + 1)
    case Return => s.(pc := s.pc[t := Running])
  }

  ghost predicate Next(s: State, s': State)
  {
    exists t, a :: At(s, t, a) && s' == Do(s, t, a)
  }

  ghost function Abstract(s: State): A.Semaphore
  {
    A.Semaphore(if s.sem.value < 0 then 0 else s.sem.value, In(s.pc, Queued), s.signals, s.granted)
  }

  /** A wait is served at once exactly when there is a unit, and otherwise is the last in the queue. */
  lemma WaitMeaning(s: State, t: Tid)
    requires Inv(s) && At(s, t, Wait)
    ensures var s' := Do(s, t, Wait);
      && s'.sem.value == s.sem.value - 1 && s'.signals == s.signals
      && (s.sem.value > 0 ==> s'.sem.queue == s.sem.queue && s'.pc == s.pc && s'.granted == s.granted + 1)
      && (s.sem.value <= 0 ==>
        s'.sem.queue == s.sem.queue + [t] && s'.pc == s.pc[t := Queued] && s'.granted == s.granted)
  {
    assert t !in s.sem.queue;
  }

  /** A signal serves the first waiter; without one the unit stays. */
  lemma SignalServes(s: State, t: Tid)
    requires Inv(s) && At(s, t, Signal)
    ensures var s' := Do(s, t, Signal);
      && s'.sem.value == s.sem.value + 1 && s'.signals == s.signals + 1
      && (s.sem.value >= 0 ==> s'.sem.queue == [] && s'.pc == s.pc && s'.granted == s.granted)
      && (s.sem.value < 0 ==>
        && s.sem.queue != [] && s.sem.queue == [s.sem.queue[0]] + s'.sem.queue
        && s'.pc == s.pc[s.sem.queue[0] := Woken] && s'.granted == s.granted + 1)
  {
    SignalMeaning(s);
  }

  /** A negative value counts the queue; otherwise the queue is empty. */
  ghost predicate Inv(s: State)
  {
    QueueMatches(s) && |s.sem.queue| == if s.sem.value < 0 then -s.sem.value else 0
  }

  lemma StepRefines(s: State, t: Tid, a: Action)
    requires Inv(s) && At(s, t, a)
    ensures Inv(Do(s, t, a)) && A.Reaches(Abstract(s), Abstract(Do(s, t, a)))
  {
    var s', x, y := Do(s, t, a), Abstract(s), Abstract(Do(s, t, a));
    match a
    case Signal =>
      SignalKeepsQueue(s);
      if s.sem.queue != [] {
        var m := x.(count := x.count + 1, signals := x.signals + 1);
        assert A.Next(x, m);
        assert y == m.(count := m.count - 1, pending := m.pending - {s.sem.queue[0]}, granted := m.granted + 1);
        assert A.Next(m, y);
      }
    case Wait =>
      assert t !in x.pending;
      if s.sem.value - 1 < 0 {
        EnqueueKeepsQueue(s, s', t);
        assert y.pending == x.pending + {t};
      } else {
        assert y.pending == x.pending - {t};
        A.AskedAndServed(x, y, t);
      }
    case Return =>
      assert y.pending == x.pending;
  }

  /**
    In every run from a non-negative initial value: the queue length is what the value says, every step
    is at most two steps of the counting semaphore, and the units granted and left are those there ever were.
  */
  lemma EveryRunCounts(run: seq<State>, initial: nat)
    requires IsRun((s: State) => Init(s, initial), Next, run)
    ensures forall i :: 0 <= i < |run| ==>
      Inv(run[i]) && Abstract(run[i]).count >= 0
      && Abstract(run[i]).count + run[i].granted == initial + run[i].signals
    ensures forall i :: 0 < i < |run| ==> A.Reaches(Abstract(run[i - 1]), Abstract(run[i]))
  {
    var init, inv := (s: State) => Init(s, initial), (s: State) => Inv(s) && A.Balanced(Abstract(s), initial);
    forall s: State, s': State | inv(s) && Next(s, s')
      ensures inv(s') && A.Reaches(Abstract(s), Abstract(s'))
    {
      var t, a :| At(s, t, a) && s' == Do(s, t, a);
      StepRefines(s, t, a);
      A.ReachesKeepsBalance(Abstract(s), Abstract(s'), initial);
    }
    InvariantAlways(init, Next, inv, run);
    assert forall i :: 0 <= i < |run| ==> inv(run[i]);
  }
}

/** The algorithm of examples/uthread/uthread_sem.c. */
module RetestSemaphore {
  import opened Common
  import opened Runs
  import opened SemaphoreObject
  import A = CountingSemaphore

  datatype Action = Signal | Wait | Retest

  predicate At(s: State, t: Tid, a: Action)
  {
    t in s.pc && if a.Retest? then s.pc[t] == Woken else s.pc[t] == Running
  }

  function Do(s: State, t: Tid, a: Action): State
  {
    if a.Signal? then AfterSignal(s)
    else if s.sem.value < 1 then s.(sem := RetestWait(s.sem, t), pc := s.pc[t := Queued])
    else s.(sem := RetestWait(s.sem, t), pc := s.pc[t := Running], granted := s.granted + 1)
  }

  ghost predicate Next(s: State, s': State)
  {
    exists t, a :: At(s, t, a) && s' == Do(s, t, a)
  }

  ghost function Abstract(s: State): A.Semaphore
  {
    A.Semaphore(s.sem.value, In(s.pc, Queued) + In(s.pc, Woken), s.signals, s.granted)
  }

  /** A wait takes a unit exactly when there is one, and otherwise is the last in the queue, also when it was woken. */
  lemma WaitMeaning(s: State, t: Tid, a: Action)
    requires Inv(s) && At(s, t, a) && !a.Signal?
    ensures var s' := Do(s, t, a);
      && s'.signals == s.signals
      && (s.sem.value > 0 ==>
        && s'.sem == Sem(s.sem.value - 1, s.sem.queue)
        && s'.pc == s.pc[t := Running] && s'.granted == s.granted + 1)
      && (s.sem.value <= 0 ==>
        && s'.sem == Sem(s.sem.value, s.sem.queue + [t])
        && s'.pc == s.pc[t := Queued] && s'.granted == s.granted)
  {
    assert t !in s.sem.queue;
  }

  /** A signal adds a unit and wakes the first waiter to try for it. */
  lemma SignalWakes(s: State, t: Tid)
    requires Inv(s) && At(s, t, Signal)
    ensures var s' := Do(s, t, Signal);
      && s'.sem.value == s.sem.value + 1 && s'.signals == s.signals + 1 && s'.granted == s.granted
      && (s.sem.queue == [] ==> s'.sem.queue == [] && s'.pc == s.pc)
      && (s.sem.queue != [] ==>
        && s.sem.queue == [s.sem.queue[0]] + s'.sem.queue
        && s'.pc == s.pc[s.sem.queue[0] := Woken])
  {
    SignalMeaning(s);
  }

  /** While threads are queued, every unit left has a woken thread on its way to it. */
  ghost predicate Inv(s: State)
  {
    QueueMatches(s) && s.sem.value >= 0 && (s.sem.queue != [] ==> s.sem.value <= |In(s.pc, Woken)|)
  }

  lemma SignalRefines(s: State)
    requires Inv(s)
    ensures Inv(AfterSignal(s)) && A.Reaches(Abstract(s), Abstract(AfterSignal(s)))
  {
    SignalKeepsQueue(s);
    assert Abstract(AfterSignal(s)).pending == Abstract(s).pending;
  }

  lemma BlockSets(pc: map<Tid, Pc>, t: Tid)
    requires t in pc && pc[t] != Queued
    ensures In(pc[t := Queued], Queued) == In(pc, Queued) + {t} && In(pc[t := Queued], Woken) == In(pc, Woken) - {t}
  {
  }

  lemma BlockSteps(x: A.Semaphore, y: A.Semaphore, t: Tid)
    requires y == x.(pending := x.pending + {t})
    ensures A.Reaches(x, y)
  {
    if t in x.pending { assert y.pending == x.pending; }
  }

  lemma BlockRefines(s: State, t: Tid, a: Action)
    requires Inv(s) && At(s, t, a) && !a.Signal? && s.sem.value < 1
    ensures Inv(Do(s, t, a)) && A.Reaches(Abstract(s), Abstract(Do(s, t, a)))
  {
    EnqueueKeepsQueue(s, Do(s, t, a), t);
    BlockSets(s.pc, t);
    assert Abstract(Do(s, t, a)).pending == Abstract(s).pending + {t};
    BlockSteps(Abstract(s), Abstract(Do(s, t, a)), t);
  }

  lemma TakeSets(s: State, s': State, t: Tid)
    requires QueueMatches(s) && t in s.pc && s.pc[t] != Queued && s'.pc == s.pc[t := Running]
      && s'.sem.queue == s.sem.queue
    ensures QueueMatches(s') && In(s'.pc, Woken) == In(s.pc, Woken) - {t} && In(s'.pc, Queued) == In(s.pc, Queued) - {t}
  {
    assert t !in s.sem.queue;
  }

  lemma TakeRefines(s: State, t: Tid, a: Action)
    requires Inv(s) && At(s, t, a) && !a.Signal? && s.sem.value >= 1
    ensures Inv(Do(s, t, a)) && A.Reaches(Abstract(s), Abstract(Do(s, t, a)))
  {
    var s', x, y := Do(s, t, a), Abstract(s), Abstract(Do(s, t, a));
    TakeSets(s, s', t);
    assert y.pending == x.pending - {t};
    A.AskedAndServed(x, y, t);
  }

  lemma StepRefines(s: State, t: Tid, a: Action)
    requires Inv(s) && At(s, t, a)
    ensures Inv(Do(s, t, a)) && A.Reaches(Abstract(s), Abstract(Do(s, t, a)))
  {
    if a.Signal? { SignalRefines(s); }
    else if s.sem.value < 1 { BlockRefines(s, t, a); }
    else { TakeRefines(s, t, a); }
  }

  /** A unit never lies idle: while one is left and a thread is queued, a woken thread can take it now. */
  lemma UnitsFindTakers(s: State)
    requires Inv(s) && s.sem.value > 0 && s.sem.queue != []
    ensures exists t :: At(s, t, Retest) && Do(s, t, Retest).granted == s.granted + 1
  {
    assert In(s.pc, Woken) != {};
    var t :| t in In(s.pc, Woken);
    assert At(s, t, Retest) && Do(s, t, Retest).granted == s.granted + 1;
  }

  /** As for the other algorithm; here the value never goes negative and bounds the woken waiters. */
  lemma EveryRunCounts(run: seq<State>, initial: nat)
    requires IsRun((s: State) => Init(s, initial), Next, run)
    ensures forall i :: 0 <= i < |run| ==>
      Inv(run[i]) && Abstract(run[i]).count >= 0
      && Abstract(run[i]).count + run[i].granted == initial + run[i].signals
    ensures forall i :: 0 < i < |run| ==> A.Reaches(Abstract(run[i - 1]), Abstract(run[i]))
  {
    var init, inv := (s: State) => Init(s, initial), (s: State) => Inv(s) && A.Balanced(Abstract(s), initial);
    forall s: State, s': State | inv(s) && Next(s, s')
      ensures inv(s') && A.Reaches(Abstract(s), Abstract(s'))
    {
      var t, a :| At(s, t, a) && s' == Do(s, t, a);
      StepRefines(s, t, a);
      A.ReachesKeepsBalance(Abstract(s), Abstract(s'), initial);
    }
    InvariantAlways(init, Next, inv, run);
    assert forall i :: 0 <= i < |run| ==> inv(run[i]);
  }
}
