/**
  Idle processors (a10/uthreads/uthread.c, lines 183-237, built with PTHREAD_IDLE_SLEEP).

  A processor whose base thread finds the ready queue empty sleeps on a condition of the operating
  system; whoever enqueues a thread signals one sleeper.
*/
module ReadyQueueObject {
  import opened Common

  datatype Ready = Ready(queue: seq<Tid>, numSleeping: int)

  function Queued(r: Ready, t: Tid): Ready
  {
    r.(queue := Enqueue(r.queue, t))
  }

  /** Whether an enqueuer signals. */
  predicate Signals(r: Ready)
  {
    r.numSleeping != 0
  }

  function Taken(r: Ready): Ready
    requires r.queue != []
  {
    r.(queue := r.queue[1..])
  }

  /** A sleeper goes to sleep or comes back. */
  function Slept(r: Ready): Ready
  {
    r.(numSleeping := r.numSleeping + 1)
  }

  function Awoken(r: Ready): Ready
  {
    r.(numSleeping := r.numSleeping - 1)
  }

  /** The ready queue and the count of sleepers, updated in place. */
  class ReadyQueue {
    var queue: seq<Tid>
    var numSleeping: int

    function Value(): Ready
      reads this
    {
      Ready(queue, numSleeping)
    }

    constructor ()
      ensures Value() == Ready([], 0)
    {
      queue := [];
      numSleeping := 0;
    }

    /** `ready_queue_enqueue`: the thread is queued first; then a sleeper is signalled if there is any. */
    method EnqueueThread(thread: Tid) returns (signals: bool)
      modifies this
      ensures numSleeping == old(numSleeping) && (signals <==> numSleeping != 0)
      ensures Value() == Queued(old(Value()), thread) && signals == Signals(old(Value()))
      ensures thread in queue && old(queue) <= queue && (NoDuplicates(old(queue)) ==> NoDuplicates(queue))
    {
      queue := Enqueue(queue, thread);
      signals := numSleeping != 0;
    }

    /** One pass of the loop of `ready_queue_dequeue`, up to the point where a base thread goes to sleep. */
    method DequeueThread() returns (thread: Option<Tid>)
      modifies this
      ensures thread.None? <==> old(queue) == []
      ensures numSleeping == old(numSleeping)
      ensures Value() == if thread.None? then old(Value()) else Taken(old(Value()))
      ensures old(queue) == (if thread.None? then [] else [thread.value]) + queue
    {
      thread := None;
      if queue != [] {
        thread := Some(queue[0]);
        queue := queue[1..];
      }
    }

    /** The sleeper's own updates around `pthread_cond_wait`. */
    method GoToSleep()
      modifies this
      ensures numSleeping == old(numSleeping) + 1
      ensures Value() == Slept(old(Value()))
    {
      numSleeping := numSleeping + 1;
    }

    method WakeUp()
      modifies this
      ensures numSleeping == old(numSleeping) - 1
      ensures Value() == Awoken(old(Value()))
    {
      numSleeping := numSleeping - 1;
    }
  }
}

module IdleProcessors {
  import opened Common
  import opened Runs
  import opened ReadyQueueObject

  type Pid = nat

  /**
    What a processor does.  `Busy`: runs an ordinary thread.  `Heading`: its base thread is about to
    look at the ready queue.  `Enqueuing`: has queued a thread and still holds the spinlock, about to
    signal; `base` tells whether its base thread does so, as after a yield to it.  `Falling`: has found
    the queue empty and waits, holding the spinlock, for the sleep lock.  `Drowsy`: holds the sleep lock
    and has released the spinlock.  `Asleep`: waits unsignalled.  `Signalled`: signalled, not yet awake.
  */
  datatype Phase = Busy | Heading | Enqueuing(base: bool) | Falling | Drowsy | Asleep | Signalled

  datatype State = State(ready: Ready, proc: map<Pid, Phase>)

  ghost function Those(s: State, f: Phase -> bool): set<Pid>
  {
    set p | p in s.proc && f(s.proc[p])
  }

  ghost function Count(s: State, f: Phase -> bool): nat
  {
    |Those(s, f)|
  }

  predicate IsSleeping(ph: Phase)
  {
    ph.Asleep?
  }

  predicate IsCounted(ph: Phase)
  {
    ph.Asleep? || ph.Signalled?
  }

  /** Woken, or never asleep, and still on the way to the ready queue. */
  predicate IsHeading(ph: Phase)
  {
    ph.Heading? || ph.Signalled? || (ph.Enqueuing? && ph.base)
  }

  predicate IsEnqueuing(ph: Phase)
  {
    ph.Enqueuing?
  }

  predicate IsFalling(ph: Phase)
  {
    ph.Falling?
  }

  predicate IsDrowsy(ph: Phase)
  {
    ph.Drowsy?
  }

  datatype Action =
    | Queue(t: Tid) | Signal(u: Pid) | SignalNobody | Dequeue | FindEmpty | Fall | Doze | Sleep | Spurious | Wake

  ghost predicate SpinIsFree(s: State)
  {
    Those(s, IsEnqueuing) == {} && Those(s, IsFalling) == {}
  }

  /** The ready-queue spinlock and the sleep lock are taken by at most one processor at a time. */
  ghost predicate At(s: State, p: Pid, a: Action)
  {
    p in s.proc && match a
      case Queue(_) => (s.proc[p] == Busy || s.proc[p] == Heading) && SpinIsFree(s)
      case Signal(u) =>
        s.proc[p].Enqueuing? && Those(s, IsDrowsy) == {} && Signals(s.ready) && u in Those(s, IsSleeping)
      case SignalNobody =>
        s.proc[p].Enqueuing? && Those(s, IsDrowsy) == {} && (!Signals(s.ready) || Those(s, IsSleeping) == {})
      case Dequeue => (s.proc[p] == Busy || s.proc[p] == Heading) && SpinIsFree(s) && s.ready.queue != []
      case FindEmpty => s.proc[p] == Busy && SpinIsFree(s) && s.ready.queue == []
      case Fall => s.proc[p] == Heading && SpinIsFree(s) && s.ready.queue == []
      case Doze => s.proc[p] == Falling && Those(s, IsDrowsy) == {}
      case Sleep => s.proc[p] == Drowsy
      case Spurious => s.proc[p] == Asleep
      case Wake => s.proc[p] == Signalled && Those(s, IsDrowsy) == {}
  }

  function Move(s: State, p: Pid, ph: Phase): State
  {
    s.(proc := s.proc[p := ph])
  }

  /** Back from an enqueue: an ordinary thread goes on, a base thread looks at the queue. */
  function Back(ph: Phase): Phase
  {
    if ph.Enqueuing? && ph.base then Heading else Busy
  }

  ghost function Do(s: State, p: Pid, a: Action): State
    requires At(s, p, a)
  {
    match a
    case Queue(t) => Move(s, p, Enqueuing(s.proc[p] == Heading)).(ready := Queued(s.ready, t))
    case Signal(u) => Move(Move(s, u, Signalled), p, Back(s.proc[p]))
    case SignalNobody => Move(s, p, Back(s.proc[p]))
    case Dequeue => Move(s, p, Busy).(ready := Taken(s.ready))
    case FindEmpty => Move(s, p, Heading)
    case Fall => Move(s, p, Falling)
    case Doze => Move(s, p, Drowsy)
    case Sleep => Move(s, p, Asleep).(ready := Slept(s.ready))
    case Spurious => Move(s, p, Signalled)
    case Wake => Move(s, p, Heading).(ready := Awoken(s.ready))
  }

  ghost predicate Init(s: State)
  {
    s.ready == Ready([], 0) && forall p :: p in s.proc ==> s.proc[p] == Busy || s.proc[p] == Heading
  }

  ghost predicate Next(s: State, s': State)
  {
    exists p, a :: At(s, p, a) && s' == Do(s, p, a)
  }

  // ---------- the invariant ----------

  /** While somebody sleeps unsignalled, there is no more work than processors on their way to it. */
  ghost predicate NoWorkMissed(s: State)
  {
    Count(s, IsSleeping) > 0 ==> |s.ready.queue| <= Count(s, IsHeading) + Count(s, IsEnqueuing)
  }

  ghost predicate Inv(s: State)
  {
    && NoWorkMissed(s)
    && s.ready.numSleeping == Count(s, IsCounted)
    && Count(s, IsEnqueuing) + Count(s, IsFalling) <= 1 && Count(s, IsDrowsy) <= 1
    && (Count(s, IsFalling) > 0 ==> s.ready.queue == [])
    && (Count(s, IsDrowsy) > 0 ==> |s.ready.queue| <= Count(s, IsEnqueuing))
  }

  lemma CountMove(s: State, p: Pid, ph: Phase, f: Phase -> bool)
    requires p in s.proc
    ensures Count(Move(s, p, ph), f) == Count(s, f) - (if f(s.proc[p]) then 1 else 0) + (if f(ph) then 1 else 0)
  {
    var before, after := Those(s, f), Those(Move(s, p, ph), f);
    forall r
      ensures r in after - {p} <==> r in before - {p}
    {
    }
    OneMemberMoves(before, after, p);
  }

  /** How a move changes everything that is counted. */
  lemma CountAll(s: State, p: Pid, ph: Phase)
    requires p in s.proc
    ensures var s', q := Move(s, p, ph), s.proc[p];
      && Count(s', IsSleeping) == Count(s, IsSleeping) - (if q.Asleep? then 1 else 0) + (if ph.Asleep? then 1 else 0)
      && Count(s', IsCounted) ==
        Count(s, IsCounted) - (if IsCounted(q) then 1 else 0) + (if IsCounted(ph) then 1 else 0)
      && Count(s', IsHeading) ==
        Count(s, IsHeading) - (if IsHeading(q) then 1 else 0) + (if IsHeading(ph) then 1 else 0)
      && Count(s', IsEnqueuing) ==
        Count(s, IsEnqueuing) - (if q.Enqueuing? then 1 else 0) + (if ph.Enqueuing? then 1 else 0)
      && Count(s', IsFalling) == Count(s, IsFalling) - (if q.Falling? then 1 else 0) + (if ph.Falling? then 1 else 0)
      && Count(s', IsDrowsy) == Count(s, IsDrowsy) - (if q.Drowsy? then 1 else 0) + (if ph.Drowsy? then 1 else 0)
  {
    CountMove(s, p, ph, IsSleeping);
    CountMove(s, p, ph, IsCounted);
    CountMove(s, p, ph, IsHeading);
    CountMove(s, p, ph, IsEnqueuing);
    CountMove(s, p, ph, IsFalling);
    CountMove(s, p, ph, IsDrowsy);
  }

  /** A processor in some phase is counted there. */
  lemma Present(s: State, p: Pid, f: Phase -> bool)
    requires p in s.proc && f(s.proc[p])
    ensures Count(s, f) > 0
  {
    assert p in Those(s, f);
  }

  lemma SignalKeepsInv(s: State, p: Pid, u: Pid)
    requires Inv(s) && At(s, p, Signal(u))
    ensures Inv(Do(s, p, Signal(u)))
  {
    CountAll(s, u, Signalled);
    CountAll(Move(s, u, Signalled), p, Back(s.proc[p]));
    Present(s, p, IsEnqueuing);
  }

  lemma StepKeepsInv(s: State, p: Pid, a: Action)
    requires Inv(s) && At(s, p, a)
    ensures Inv(Do(s, p, a))
  {
    if a.Signal? {
      SignalKeepsInv(s, p, a.u);
    } else {
      var ph := Do(s, p, a).proc[p];
      CountAll(s, p, ph);
      assert forall f :: Count(Do(s, p, a), f) == Count(Move(s, p, ph), f);
    }
  }

  /** Work joins the queue at the end and is taken from its front, and no step loses or repeats any. */
  lemma QueueIsConserved(s: State, p: Pid, a: Action)
    requires At(s, p, a)
    ensures var q, q' := s.ready.queue, Do(s, p, a).ready.queue;
      && (a.Queue? ==> q' == if a.t in q then q else q + [a.t])
      && (a.Dequeue? ==> q != [] && q == [q[0]] + q')
      && (!a.Queue? && !a.Dequeue? ==> q' == q)
  {
  }

  lemma InitOk(s: State)
    requires Init(s)
    ensures Inv(s)
  {
    assert Those(s, IsSleeping) == {} && Those(s, IsCounted) == {} && Those(s, IsDrowsy) == {};
    assert Those(s, IsEnqueuing) == {} && Those(s, IsFalling) == {};
  }

  /** In every run: the sleepers are counted, and no idle processor misses work. */
  lemma EveryRunKeepsInv(run: seq<State>)
    requires IsRun(Init, Next, run)
    ensures forall i :: 0 <= i < |run| ==> Inv(run[i])
  {
    forall s | Init(s)
      ensures Inv(s)
    {
      InitOk(s);
    }
    forall s, s' | Inv(s) && Next(s, s')
      ensures Inv(s')
    {
      var p, a :| At(s, p, a) && s' == Do(s, p, a);
      StepKeepsInv(s, p, a);
    }
    InvariantAlways(Init, Next, Inv, run);
  }

  /** If work is left while a processor sleeps unsignalled, another one is on its way to it or to a signal. */
  lemma WorkIsAttended(run: seq<State>, i: nat, p: Pid)
    requires IsRun(Init, Next, run) && i < |run| && p in run[i].proc && run[i].proc[p] == Asleep
    requires run[i].ready.queue != []
    ensures exists r :: r in run[i].proc && (IsHeading(run[i].proc[r]) || IsEnqueuing(run[i].proc[r]))
  {
    EveryRunKeepsInv(run);
    var s := run[i];
    assert Inv(s);
    Present(s, p, IsSleeping);
    if Those(s, IsHeading) != {} {
      var r :| r in Those(s, IsHeading);
    } else {
      assert Those(s, IsEnqueuing) != {};
      var r :| r in Those(s, IsEnqueuing);
    }
  }
}
