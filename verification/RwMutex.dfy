/**
  The reader/writer mutex and its condition variables (a10/uthreads/uthread_mutex_cond.c).

  Each section between taking and releasing the spinlock is one atomic step.  A thread that is queued,
  one that has been taken off its queue but has not yet tested the lock again, and one that runs are
  in different program states, so a thread may be woken before it has parked.
*/

/** The mutex record and its spinlock-protected sections. */
module MutexObject {
  import opened Common

  datatype Mutex = Mutex(holder: Option<Tid>, readerCount: int, waiterQueue: seq<Tid>, readerWaiterQueue: seq<Tid>)

  const FREE: Mutex := Mutex(None, 0, [], [])

  /** One pass of `uthread_mutex_lock`: `me` takes the lock or queues for it. */
  function LockSection(m: Mutex, me: Tid): Mutex
  {
    if m.holder.Some? || m.readerCount > 0 then m.(waiterQueue := Enqueue(m.waiterQueue, me))
    else m.(holder := Some(me))
  }

  /** One pass of `uthread_mutex_lock_readonly`: `me` joins the readers or queues. */
  function LockReadonlySection(m: Mutex, me: Tid): Mutex
  {
    if m.holder.Some? || m.waiterQueue != [] then m.(readerWaiterQueue := Enqueue(m.readerWaiterQueue, me))
    else m.(readerCount := m.readerCount + 1)
  }

  /** The first half of `uthread_mutex_unlock`: the holder or one reader gives up the lock. */
  function Released(m: Mutex): Mutex
  {
    if m.holder.Some? then m.(holder := None) else m.(readerCount := m.readerCount - 1)
  }

  /** The second half: when nobody is left, the first queued writer or else all queued readers are woken. */
  function Woken(m: Mutex): seq<Tid>
  {
    if Released(m).readerCount != 0 then []
    else if m.waiterQueue != [] then m.waiterQueue[..1]
    else m.readerWaiterQueue
  }

  function UnlockSection(m: Mutex): Mutex
  {
    var r := Released(m);
    if r.readerCount != 0 then r
    else if r.waiterQueue != [] then r.(waiterQueue := r.waiterQueue[1..])
    else r.(readerWaiterQueue := [])
  }

  /** The condition that the two assertions of `uthread_mutex_unlock` check. */
  predicate UnlockAllowed(m: Mutex, me: Tid)
  {
    if m.holder.Some? then m.holder == Some(me) else m.readerCount > 0
  }

  /** The mutex record, updated in place. */
  class UthreadMutex {
    var holder: Option<Tid>
    var readerCount: int
    var waiterQueue: seq<Tid>
    var readerWaiterQueue: seq<Tid>

    function Value(): Mutex
      reads this
    {
      Mutex(holder, readerCount, waiterQueue, readerWaiterQueue)
    }

    constructor ()
      ensures Value() == FREE
    {
      holder := None;
      readerCount := 0;
      waiterQueue := [];
      readerWaiterQueue := [];
    }

    method Lock(me: Tid) returns (acquired: bool)
      modifies this
      ensures Value() == LockSection(old(Value()), me)
      ensures acquired <==> old(holder) == None && old(readerCount) <= 0
      ensures holder == if acquired then Some(me) else old(holder)
      ensures waiterQueue == if acquired then old(waiterQueue) else Enqueue(old(waiterQueue), me)
      ensures readerCount == old(readerCount) && readerWaiterQueue == old(readerWaiterQueue)
    {
      acquired := false;
      if holder.Some? || readerCount > 0 {
        waiterQueue := Enqueue(waiterQueue, me);
        return;
      }
      holder := Some(me);
      acquired := true;
    }

    method LockReadonly(me: Tid) returns (acquired: bool)
      modifies this
      ensures Value() == LockReadonlySection(old(Value()), me)
      ensures acquired <==> old(holder) == None && old(waiterQueue) == []
      ensures readerCount == old(readerCount) + if acquired then 1 else 0
      ensures readerWaiterQueue == if acquired then old(readerWaiterQueue) else Enqueue(old(readerWaiterQueue), me)
      ensures holder == old(holder) && waiterQueue == old(waiterQueue)
    {
      acquired := false;
      if holder.Some? || waiterQueue != [] {
        readerWaiterQueue := Enqueue(readerWaiterQueue, me);
        return;
      }
      readerCount := readerCount + 1;
      acquired := true;
    }

    /** `woken` are the threads passed to `uthread_unblock`, in order. */
    method Unlock(me: Tid) returns (woken: seq<Tid>)
      requires UnlockAllowed(Value(), me)
      modifies this
      ensures Value() == UnlockSection(old(Value()))
      ensures woken == Woken(old(Value()))
      ensures holder == None
      ensures readerCount == old(readerCount) - if old(holder).Some? then 0 else 1
      ensures readerCount != 0 ==> woken == []
      ensures readerCount == 0 ==>
        woken == if old(waiterQueue) != [] then [old(waiterQueue)[0]] else old(readerWaiterQueue)
      ensures old(waiterQueue) == (if readerCount == 0 && old(waiterQueue) != [] then woken else []) + waiterQueue
      ensures old(readerWaiterQueue) ==
        (if readerCount == 0 && old(waiterQueue) == [] then woken else []) + readerWaiterQueue
    {
      woken := [];
      if holder.Some? {
        holder := None;
      } else {
        readerCount := readerCount - 1;
      }
      if readerCount == 0 {
        if waiterQueue != [] {
          woken := waiterQueue[..1];
          waiterQueue := waiterQueue[1..];
        } else {
          while readerWaiterQueue != []
            invariant waiterQueue == old(waiterQueue) && holder == None && readerCount == 0
            invariant woken + readerWaiterQueue == old(readerWaiterQueue)
            decreases |readerWaiterQueue|
          {
            woken := woken + [readerWaiterQueue[0]];
            readerWaiterQueue := readerWaiterQueue[1..];
          }
        }
      }
    }
  }
}

/** Any number of threads that use one mutex and its conditions. */
module RwMutex {
  import opened Common
  import opened Runs
  import opened MutexObject
  import Monitor

  type Cond = Monitor.Cond

  /**
    Where a thread is.  `Want...`: about to test the lock; `Queued...`: on a queue of the mutex;
    `Woken...`: taken off that queue, about to test again; `Leaving`: on a condition queue and still
    holding the lock; `Waiting`: on a condition queue without it; `Signalled`: taken off that queue.
  */
  datatype Pc =
    | Idle
    | WantLock | QueuedLock | WokenLock | Holding
    | WantRead | QueuedRead | WokenRead | Reading
    | Leaving(c: Cond) | Waiting(c: Cond) | Signalled

  datatype State = State(m: Mutex, conds: map<Cond, seq<Tid>>, pc: map<Tid, Pc>)

  function Rouse(p: Pc): Pc
  {
    match p
    case QueuedLock => WokenLock
    case QueuedRead => WokenRead
    case Waiting(_) => Signalled
    case _ => p
  }

  /** `uthread_unblock` of each thread in `woken`. */
  function Unblock(pc: map<Tid, Pc>, woken: seq<Tid>): map<Tid, Pc>
  {
    map t | t in pc :: if t in woken then Rouse(pc[t]) else pc[t]
  }

  datatype Action =
    | CallLock | CallReadonly | TryLock | TryReadonly | Unlock
    | CondEnqueue(c: Cond) | CondRelease(c: Cond) | Signal(c: Cond) | Broadcast(c: Cond)

  /** Thread `t` is at action `a` of the program text. */
  predicate At(s: State, t: Tid, a: Action)
  {
    t in s.pc && match a
      case CallLock => s.pc[t] == Idle
      case CallReadonly => s.pc[t] == Idle
      case TryLock => s.pc[t] == WantLock || s.pc[t] == WokenLock || s.pc[t] == Signalled
      case TryReadonly => s.pc[t] == WantRead || s.pc[t] == WokenRead
      case Unlock => s.pc[t] == Holding || s.pc[t] == Reading
      case CondEnqueue(c) => s.pc[t] == Holding && c in s.conds
      case CondRelease(c) => s.pc[t] == Leaving(c)
      case Signal(c) => s.pc[t] == Holding && c in s.conds
      case Broadcast(c) => s.pc[t] == Holding && c in s.conds
  }

  function LockStep(s: State, t: Tid): State
  {
    var m := LockSection(s.m, t);
    State(m, s.conds, s.pc[t := if m.holder == Some(t) then Holding else QueuedLock])
  }

  function ReadStep(s: State, t: Tid): State
  {
    var m := LockReadonlySection(s.m, t);
    State(m, s.conds, s.pc[t := if m.readerCount > s.m.readerCount then Reading else QueuedRead])
  }

  /** `t` unlocks, wakes whom it must, and goes on at `p`. */
  function ReleaseStep(s: State, t: Tid, p: Pc): State
  {
    State(UnlockSection(s.m), s.conds, Unblock(s.pc, Woken(s.m))[t := p])
  }

  function EnqueueStep(s: State, t: Tid, c: Cond): State
    requires c in s.conds
  {
    s.(conds := s.conds[c := Enqueue(s.conds[c], t)], pc := s.pc[t := Leaving(c)])
  }

  /** The first `n` threads on the condition queue are taken off and unblocked. */
  function RouseStep(s: State, c: Cond, n: nat): State
    requires c in s.conds && n <= |s.conds[c]|
  {
    s.(conds := s.conds[c := s.conds[c][n..]], pc := Unblock(s.pc, s.conds[c][..n]))
  }

  function Do(s: State, t: Tid, a: Action): State
    requires At(s, t, a)
  {
    match a
    case CallLock => s.(pc := s.pc[t := WantLock])
    case CallReadonly => s.(pc := s.pc[t := WantRead])
    case TryLock => LockStep(s, t)
    case TryReadonly => ReadStep(s, t)
    case Unlock => ReleaseStep(s, t, Idle)
    case CondEnqueue(c) => EnqueueStep(s, t, c)
    case CondRelease(c) => ReleaseStep(s, t, Waiting(c))
    case Signal(c) => RouseStep(s, c, if s.conds[c] == [] then 0 else 1)
    case Broadcast(c) => RouseStep(s, c, |s.conds[c]|)
  }

  ghost predicate Init(s: State)
  {
    && s.m == FREE
    && (forall c :: c in s.conds ==> s.conds[c] == [])
    && (forall t :: t in s.pc ==> s.pc[t] == Idle)
  }

  ghost predicate Next(s: State, s': State)
  {
    exists t, a :: At(s, t, a) && s' == Do(s, t, a)
  }

  // ---------- the invariant ----------

  ghost function Readers(pc: map<Tid, Pc>): set<Tid>
  {
    set t | t in pc && pc[t] == Reading
  }

  predicate HasLock(p: Pc)
  {
    p == Holding || p.Leaving?
  }

  predicate OnCond(p: Pc, c: Cond)
  {
    p == Leaving(c) || p == Waiting(c)
  }

  predicate IsLeaving(p: Pc, c: Cond)
  {
    p == Leaving(c)
  }

  predicate EndsWith(q: seq<Tid>, t: Tid)
  {
    q != [] && q[|q| - 1] == t
  }

  /** A thread is on a queue exactly when its program state says so, and only once. */
  ghost predicate QueuesMatch(s: State)
  {
    && NoDuplicates(s.m.waiterQueue) && NoDuplicates(s.m.readerWaiterQueue)
    && (forall t :: t in s.m.waiterQueue <==> t in s.pc && s.pc[t] == QueuedLock)
    && (forall t :: t in s.m.readerWaiterQueue <==> t in s.pc && s.pc[t] == QueuedRead)
  }

  ghost predicate CondsMatch(s: State)
  {
    && (forall c :: c in s.conds ==> NoDuplicates(s.conds[c]))
    && (forall t, c :: c in s.conds ==> (t in s.conds[c] <==> t in s.pc && OnCond(s.pc[t], c)))
    && (forall t, c :: t in s.pc && OnCond(s.pc[t], c) ==> c in s.conds)
    && (forall t, c :: t in s.pc && IsLeaving(s.pc[t], c) ==> c in s.conds && EndsWith(s.conds[c], t))
  }

  /** The holder is the one thread that has the lock, readers are counted, and they exclude each other. */
  ghost predicate LockMatches(s: State)
  {
    && (forall t :: s.m.holder == Some(t) <==> t in s.pc && HasLock(s.pc[t]))
    && s.m.readerCount == |Readers(s.pc)|
    && (s.m.holder.Some? ==> s.m.readerCount == 0)
  }

  predicate IsFree(m: Mutex)
  {
    m.holder == None && m.readerCount == 0
  }

  /** If the lock is free while a thread is queued for it, some woken writer is on its way. */
  ghost predicate NoLostWakeup(s: State)
  {
    IsFree(s.m) && (s.m.waiterQueue != [] || s.m.readerWaiterQueue != []) ==>
    exists t :: t in s.pc && s.pc[t] == WokenLock
  }

  ghost predicate Inv(s: State)
  {
    QueuesMatch(s) && CondsMatch(s) && LockMatches(s) && NoLostWakeup(s)
  }

  // ---------- every step keeps the invariant ----------

  lemma MoveKeepsQueues(s: State, s': State, t: Tid, p: Pc)
    requires QueuesMatch(s) && t in s.pc && s.pc[t] != QueuedLock && s.pc[t] != QueuedRead
    requires s'.pc == s.pc[t := p]
    requires s'.m.waiterQueue == if p == QueuedLock then Enqueue(s.m.waiterQueue, t) else s.m.waiterQueue
    requires s'.m.readerWaiterQueue ==
      if p == QueuedRead then Enqueue(s.m.readerWaiterQueue, t) else s.m.readerWaiterQueue
    ensures QueuesMatch(s')
  {
    assert t !in s.m.waiterQueue && t !in s.m.readerWaiterQueue;
    forall u
      ensures u in s'.m.waiterQueue <==> u in s.m.waiterQueue || (u == t && p == QueuedLock)
      ensures u in s'.m.readerWaiterQueue <==> u in s.m.readerWaiterQueue || (u == t && p == QueuedRead)
    {
    }
  }

  lemma ReleaseKeepsQueues(s: State, t: Tid, p: Pc)
    requires QueuesMatch(s) && t in s.pc && s.pc[t] != QueuedLock && s.pc[t] != QueuedRead
    requires p != QueuedLock && p != QueuedRead
    ensures QueuesMatch(ReleaseStep(s, t, p))
  {
    var s', w, r := ReleaseStep(s, t, p), s.m.waiterQueue, s.m.readerWaiterQueue;
    assert w != [] ==> w == w[..1] + w[1..];
    CutNoDuplicates(w[..if w == [] then 0 else 1], w[if w == [] then 0 else 1..]);
    forall u
      ensures u in s'.m.waiterQueue <==> u in w && u !in Woken(s.m)
      ensures u in s'.m.readerWaiterQueue <==> u in r && u !in Woken(s.m)
    {
      assert u in w ==> u !in r;
    }
  }

  lemma RouseKeepsQueues(s: State, c: Cond, n: nat)
    requires QueuesMatch(s) && CondsMatch(s) && c in s.conds && n <= |s.conds[c]|
    ensures QueuesMatch(RouseStep(s, c, n))
  {
    forall u | u in s.pc && u in s.conds[c][..n]
      ensures OnCond(s.pc[u], c)
    {
      assert u in s.conds[c];
    }
  }

  /** The condition queues are fine as long as the threads on them stay put. */
  lemma CondsFrame(s: State, s': State)
    requires CondsMatch(s) && s'.conds == s.conds && s'.pc.Keys == s.pc.Keys
    requires forall u, c :: u in s.pc ==> (OnCond(s'.pc[u], c) <==> OnCond(s.pc[u], c))
    requires forall u, c :: u in s.pc && IsLeaving(s'.pc[u], c) ==> IsLeaving(s.pc[u], c)
    ensures CondsMatch(s')
  {
  }

  lemma ReleaseKeepsConds(s: State, t: Tid, p: Pc)
    requires CondsMatch(s) && QueuesMatch(s) && t in s.pc
    requires forall c :: OnCond(p, c) <==> OnCond(s.pc[t], c)
    requires !p.Leaving?
    ensures CondsMatch(ReleaseStep(s, t, p))
  {
    var s' := ReleaseStep(s, t, p);
    forall u | u in s.pc && u in Woken(s.m)
      ensures s.pc[u] == QueuedLock || s.pc[u] == QueuedRead
    {
      assert u in s.m.waiterQueue || u in s.m.readerWaiterQueue;
    }
    CondsFrame(s, s');
  }

  lemma EnqueueKeepsConds(s: State, t: Tid, c: Cond)
    requires CondsMatch(s) && LockMatches(s) && c in s.conds && t in s.pc && s.pc[t] == Holding
    ensures CondsMatch(EnqueueStep(s, t, c))
  {
    var s' := EnqueueStep(s, t, c);
    assert !OnCond(s.pc[t], c);
    forall u
      ensures u in s'.conds[c] <==> u in s.conds[c] || u == t
      ensures u in s.pc && s.pc[u].Leaving? ==> u == t
    {
      assert s.m.holder == Some(t);
      assert u in s.pc && HasLock(s.pc[u]) ==> s.m.holder == Some(u);
    }
  }

  /** The threads a signal or broadcast takes off the condition queue were waiting there. */
  lemma RouseWakesWaiters(s: State, t: Tid, c: Cond)
    requires CondsMatch(s) && LockMatches(s) && c in s.conds && t in s.pc && s.pc[t] == Holding
    ensures forall u :: u in s.conds[c] ==> u in s.pc && s.pc[u] == Waiting(c)
  {
    forall u | u in s.conds[c]
      ensures u in s.pc && s.pc[u] == Waiting(c)
    {
      assert u in s.pc && OnCond(s.pc[u], c);
      assert s.m.holder == Some(t);
      assert HasLock(s.pc[u]) ==> s.m.holder == Some(u);
    }
  }

  lemma RouseKeepsConds(s: State, c: Cond, n: nat)
    requires CondsMatch(s) && c in s.conds && n <= |s.conds[c]|
    requires forall u :: u in s.conds[c] ==> u in s.pc && s.pc[u] == Waiting(c)
    ensures CondsMatch(RouseStep(s, c, n))
  {
    var s', woken, rest := RouseStep(s, c, n), s.conds[c][..n], s.conds[c][n..];
    assert s.conds[c] == woken + rest;
    CutNoDuplicates(woken, rest);
    forall u, d | u in s.pc
      ensures OnCond(s'.pc[u], d) <==> OnCond(s.pc[u], d) && u !in woken
      ensures IsLeaving(s'.pc[u], d) <==> IsLeaving(s.pc[u], d)
      ensures u in woken && OnCond(s.pc[u], d) ==> d == c
    {
    }
    forall u | u in s'.pc
      ensures !IsLeaving(s'.pc[u], c)
    {
      assert OnCond(s.pc[u], c) ==> u in s.conds[c];
    }
  }

  lemma MoveKeepsLock(s: State, s': State, t: Tid, p: Pc)
    requires LockMatches(s) && t in s.pc && s'.pc == s.pc[t := p] && s.pc[t] != Reading
    requires s'.m.holder == if HasLock(p) then Some(t) else if HasLock(s.pc[t]) then None else s.m.holder
    requires HasLock(p) ==> s.m.holder == None || s.m.holder == Some(t)
    requires s'.m.readerCount == if p == Reading then s.m.readerCount + 1 else s.m.readerCount
    requires s'.m.holder.Some? ==> s'.m.readerCount == 0
    ensures LockMatches(s')
  {
    assert Readers(s'.pc) == Readers(s.pc) + if p == Reading then {t} else {};
    forall u
      ensures s'.m.holder == Some(u) <==> u in s'.pc && HasLock(s'.pc[u])
    {
      assert s.m.holder == Some(u) <==> u in s.pc && HasLock(s.pc[u]);
      assert s.m.holder == Some(t) <==> t in s.pc && HasLock(s.pc[t]);
    }
  }

  lemma ReleaseKeepsLock(s: State, t: Tid, p: Pc)
    requires LockMatches(s) && t in s.pc && (HasLock(s.pc[t]) || s.pc[t] == Reading)
    requires !HasLock(p) && p != Reading
    ensures LockMatches(ReleaseStep(s, t, p))
  {
    var s' := ReleaseStep(s, t, p);
    assert s.m.holder == Some(t) <==> HasLock(s.pc[t]);
    assert t in Readers(s.pc) <==> s.pc[t] == Reading;
    assert Readers(s'.pc) == Readers(s.pc) - {t};
    forall u
      ensures u in s'.pc ==> !HasLock(s'.pc[u])
    {
      assert s.m.holder == Some(u) <==> u in s.pc && HasLock(s.pc[u]);
    }
  }

  lemma RouseKeepsLock(s: State, c: Cond, n: nat)
    requires LockMatches(s) && c in s.conds && n <= |s.conds[c]|
    requires forall u :: u in s.conds[c] ==> u in s.pc && s.pc[u] == Waiting(c)
    ensures LockMatches(RouseStep(s, c, n))
  {
    var s' := RouseStep(s, c, n);
    forall u | u in s.pc
      ensures s'.pc[u] == s.pc[u] || (s.pc[u] == Waiting(c) && s'.pc[u] == Signalled)
    {
    }
    assert Readers(s'.pc) == Readers(s.pc);
  }

  lemma ReleaseKeepsWakeup(s: State, t: Tid, p: Pc)
    requires QueuesMatch(s) && t in s.pc && s.pc[t] != QueuedLock && UnlockAllowed(s.m, t)
    requires s.m.holder.Some? ==> s.m.readerCount == 0
    ensures NoLostWakeup(ReleaseStep(s, t, p))
  {
    var s', w := ReleaseStep(s, t, p), s.m.waiterQueue;
    if w != [] && Released(s.m).readerCount == 0 {
      assert w[0] in w && w[0] in Woken(s.m);
      assert s'.pc[w[0]] == WokenLock;
    }
  }

  lemma MoveKeepsWakeup(s: State, s': State, t: Tid, p: Pc)
    requires NoLostWakeup(s) && t in s.pc && s'.pc == s.pc[t := p]
    requires IsFree(s'.m) ==> s'.m == s.m && s.pc[t] != WokenLock
    ensures NoLostWakeup(s')
  {
    if IsFree(s'.m) && (s.m.waiterQueue != [] || s.m.readerWaiterQueue != []) {
      var u :| u in s.pc && s.pc[u] == WokenLock;
      assert s'.pc[u] == WokenLock;
    }
  }

  lemma LockStepKeepsInv(s: State, t: Tid)
    requires Inv(s) && At(s, t, TryLock)
    ensures Inv(LockStep(s, t))
  {
    var s' := LockStep(s, t);
    var p := s'.pc[t];
    assert s.m.holder != Some(t);
    MoveKeepsQueues(s, s', t, p);
    CondsFrame(s, s');
    MoveKeepsLock(s, s', t, p);
  }

  lemma ReadStepKeepsInv(s: State, t: Tid)
    requires Inv(s) && At(s, t, TryReadonly)
    ensures Inv(ReadStep(s, t))
  {
    var s' := ReadStep(s, t);
    var p := s'.pc[t];
    assert s.m.holder != Some(t);
    MoveKeepsQueues(s, s', t, p);
    CondsFrame(s, s');
    MoveKeepsLock(s, s', t, p);
    if IsFree(s'.m) && s.m.waiterQueue != [] {
      var u :| u in s.pc && s.pc[u] == WokenLock;
      assert s'.pc[u] == WokenLock;
    }
  }

  lemma ReleaseKeepsInv(s: State, t: Tid, p: Pc)
    requires Inv(s) && t in s.pc
    requires (p == Idle && (s.pc[t] == Holding || s.pc[t] == Reading)) || (p.Waiting? && s.pc[t] == Leaving(p.c))
    ensures UnlockAllowed(s.m, t) && Inv(ReleaseStep(s, t, p))
  {
    assert s.m.holder == Some(t) <==> HasLock(s.pc[t]);
    assert s.pc[t] == Reading ==> t in Readers(s.pc);
    ReleaseKeepsQueues(s, t, p);
    ReleaseKeepsConds(s, t, p);
    ReleaseKeepsLock(s, t, p);
    ReleaseKeepsWakeup(s, t, p);
  }

  lemma EnqueueKeepsInv(s: State, t: Tid, c: Cond)
    requires Inv(s) && At(s, t, CondEnqueue(c))
    ensures Inv(EnqueueStep(s, t, c))
  {
    var s' := EnqueueStep(s, t, c);
    assert s.m.holder == Some(t);
    EnqueueKeepsConds(s, t, c);
    MoveKeepsQueues(s, s', t, Leaving(c));
    MoveKeepsLock(s, s', t, Leaving(c));
  }

  lemma RouseKeepsInv(s: State, t: Tid, c: Cond, n: nat)
    requires Inv(s) && c in s.conds && n <= |s.conds[c]| && t in s.pc && s.pc[t] == Holding
    ensures Inv(RouseStep(s, c, n))
  {
    assert s.m.holder == Some(t);
    RouseWakesWaiters(s, t, c);
    RouseKeepsQueues(s, c, n);
    RouseKeepsConds(s, c, n);
    RouseKeepsLock(s, c, n);
  }

  lemma CallKeepsInv(s: State, t: Tid, p: Pc)
    requires Inv(s) && t in s.pc && s.pc[t] == Idle && (p == WantLock || p == WantRead)
    ensures Inv(s.(pc := s.pc[t := p]))
  {
    var s' := s.(pc := s.pc[t := p]);
    MoveKeepsQueues(s, s', t, p);
    CondsFrame(s, s');
    MoveKeepsLock(s, s', t, p);
    MoveKeepsWakeup(s, s', t, p);
  }

  lemma StepKeepsInv(s: State, t: Tid, a: Action)
    requires Inv(s) && At(s, t, a)
    ensures Inv(Do(s, t, a))
  {
    match a
    case CallLock => CallKeepsInv(s, t, WantLock);
    case CallReadonly => CallKeepsInv(s, t, WantRead);
    case TryLock => LockStepKeepsInv(s, t);
    case TryReadonly => ReadStepKeepsInv(s, t);
    case Unlock => ReleaseKeepsInv(s, t, Idle);
    case CondEnqueue(c) => EnqueueKeepsInv(s, t, c);
    case CondRelease(c) => ReleaseKeepsInv(s, t, Waiting(c));
    case Signal(c) => RouseKeepsInv(s, t, c, if s.conds[c] == [] then 0 else 1);
    case Broadcast(c) => RouseKeepsInv(s, t, c, |s.conds[c]|);
  }

  // ---------- what the library promises ----------

  /** In every state of every run the invariant holds. */
  lemma EveryRunKeepsInv(run: seq<State>)
    requires IsRun(Init, Next, run)
    ensures forall i :: 0 <= i < |run| ==> Inv(run[i])
  {
    forall s | Init(s)
      ensures Inv(s)
    {
      assert Readers(s.pc) == {};
    }
    forall s, s' | Inv(s) && Next(s, s')
      ensures Inv(s')
    {
      var t, a :| At(s, t, a) && s' == Do(s, t, a);
      StepKeepsInv(s, t, a);
    }
    InvariantAlways(Init, Next, Inv, run);
  }

  /**
    An exclusive holder excludes all readers and every other holder, the reader count is the number of
    readers, and the assertions of unlock, wait and signal hold whenever they are reached.
  */
  lemma MutualExclusion(run: seq<State>, i: nat, t: Tid)
    requires IsRun(Init, Next, run) && i < |run| && t in run[i].pc
    ensures HasLock(run[i].pc[t]) ==>
      forall u :: u in run[i].pc && u != t ==> !HasLock(run[i].pc[u]) && run[i].pc[u] != Reading
    ensures run[i].m.readerCount == |Readers(run[i].pc)|
    ensures HasLock(run[i].pc[t]) ==> run[i].m.holder == Some(t)
    ensures HasLock(run[i].pc[t]) || run[i].pc[t] == Reading ==> UnlockAllowed(run[i].m, t)
  {
    EveryRunKeepsInv(run);
    var s := run[i];
    assert Inv(s);
    if HasLock(s.pc[t]) {
      assert s.m.holder == Some(t) && Readers(s.pc) == {};
      forall u | u in s.pc && u != t
        ensures !HasLock(s.pc[u]) && s.pc[u] != Reading
      {
        assert u !in Readers(s.pc);
      }
    } else if s.pc[t] == Reading {
      assert t in Readers(s.pc);
    }
  }

  /** No wake-up is lost: while a thread is queued and the lock is free, some writer can take it now. */
  lemma NobodyIsStranded(run: seq<State>, i: nat, t: Tid)
    requires IsRun(Init, Next, run) && i < |run| && t in run[i].pc
    requires IsFree(run[i].m) && (run[i].pc[t] == QueuedLock || run[i].pc[t] == QueuedRead)
    ensures exists u :: At(run[i], u, TryLock) && Do(run[i], u, TryLock).pc[u] == Holding
  {
    EveryRunKeepsInv(run);
    var s := run[i];
    assert Inv(s) && (t in s.m.waiterQueue || t in s.m.readerWaiterQueue);
    var u :| u in s.pc && s.pc[u] == WokenLock;
    assert At(s, u, TryLock) && Do(s, u, TryLock).pc[u] == Holding;
  }

  // ---------- what each operation does to the threads ----------

  /** A thread takes the lock exactly when nobody holds it and nobody reads; otherwise it is last in the queue. */
  lemma LockTakesOrQueues(s: State, t: Tid)
    requires Inv(s) && At(s, t, TryLock)
    ensures var s', free := Do(s, t, TryLock), forall u :: u in s.pc ==> !HasLock(s.pc[u]) && s.pc[u] != Reading;
      && s'.pc == s.pc[t := if free then Holding else QueuedLock] && s'.conds == s.conds
      && s'.m.waiterQueue == (if free then s.m.waiterQueue else s.m.waiterQueue + [t])
      && s'.m.readerWaiterQueue == s.m.readerWaiterQueue
  {
    assert t !in s.m.waiterQueue;
    if s.m.readerCount > 0 {
      var u :| u in Readers(s.pc);
    } else {
      assert Readers(s.pc) == {};
      assert forall u :: u in s.pc ==> u !in Readers(s.pc);
    }
    if s.m.holder.Some? { assert HasLock(s.pc[s.m.holder.value]); }
  }

  /** A thread reads exactly when nobody holds the lock and no writer queues, whoever else reads. */
  lemma ReaderJoinsOrQueues(s: State, t: Tid)
    requires Inv(s) && At(s, t, TryReadonly)
    ensures var s', open := Do(s, t, TryReadonly), forall u :: u in s.pc ==> !HasLock(s.pc[u]) && s.pc[u] != QueuedLock;
      && s'.pc == s.pc[t := if open then Reading else QueuedRead] && s'.conds == s.conds
      && s'.m.readerWaiterQueue == (if open then s.m.readerWaiterQueue else s.m.readerWaiterQueue + [t])
      && s'.m.waiterQueue == s.m.waiterQueue
  {
    assert t !in s.m.readerWaiterQueue;
    if s.m.holder.Some? { assert HasLock(s.pc[s.m.holder.value]); }
    if s.m.waiterQueue != [] { assert s.m.waiterQueue[0] in s.m.waiterQueue; }
  }

  /**
    A thread that gives up the lock, to go on or to wait, wakes nobody while others read; else it wakes the first
    queued writer or, if there is none, every queued reader, and nobody else.
  */
  lemma ReleaseWakes(s: State, t: Tid, a: Action, u: Tid)
    requires Inv(s) && At(s, t, a) && (a.Unlock? || a.CondRelease?) && u in s.pc && u != t
    ensures var s', last := Do(s, t, a), forall v :: v in s.pc && v != t ==> s.pc[v] != Reading;
      var woken := last && if s.m.waiterQueue != [] then u == s.m.waiterQueue[0] else s.pc[u] == QueuedRead;
      && s'.pc[u] == (if !woken then s.pc[u] else if s.pc[u] == QueuedLock then WokenLock else WokenRead)
      && s'.pc[t] == (if a.Unlock? then Idle else Waiting(a.c))
  {
    ReadersLeft(s, t);
    assert forall v :: v in Readers(s.pc) - {t} <==> v in s.pc && v != t && s.pc[v] == Reading;
    if s.m.waiterQueue != [] {
      assert s.m.waiterQueue[0] in s.m.waiterQueue && s.m.waiterQueue[..1] == [s.m.waiterQueue[0]];
    }
  }

  lemma ReadersLeft(s: State, t: Tid)
    requires LockMatches(s) && t in s.pc && (HasLock(s.pc[t]) || s.pc[t] == Reading)
    ensures Released(s.m).readerCount == 0 <==> Readers(s.pc) - {t} == {}
  {
    assert s.m.holder == Some(t) <==> HasLock(s.pc[t]);
    if s.pc[t] == Reading {
      assert t in Readers(s.pc) && Readers(s.pc) == (Readers(s.pc) - {t}) + {t};
    } else {
      assert Readers(s.pc) == {};
    }
  }

  /** A thread that waits is last in the queue of its condition, which it joins before it gives up the lock. */
  lemma WaiterIsLast(s: State, t: Tid, c: Cond)
    requires Inv(s) && At(s, t, CondEnqueue(c))
    ensures var s' := Do(s, t, CondEnqueue(c));
      && s'.conds == s.conds[c := s.conds[c] + [t]] && s'.m == s.m && At(s', t, CondRelease(c))
      && forall u :: u in s.pc && u != t ==> s'.pc[u] == s.pc[u]
  {
    assert !OnCond(s.pc[t], c);
  }

  /** A signal takes exactly the first waiter off its queue, and that waiter can test the lock; nobody else moves. */
  lemma SignalWakesFirst(s: State, t: Tid, c: Cond)
    requires Inv(s) && At(s, t, Signal(c))
    ensures s.conds[c] == [] ==> Do(s, t, Signal(c)).conds == s.conds && Do(s, t, Signal(c)).pc == s.pc
    ensures s.conds[c] != [] ==> var s', u := Do(s, t, Signal(c)), s.conds[c][0];
      && At(s', u, TryLock) && s'.pc == s.pc[u := Signalled] && s'.conds == s.conds[c := s.conds[c][1..]]
      && forall d :: d in s'.conds ==> u !in s'.conds[d]
  {
    var s', q := Do(s, t, Signal(c)), s.conds[c];
    RouseWakesWaiters(s, t, c);
    SignalKeepsConds(s, t, c);
    if q == [] {
      assert s'.conds == s.conds && s'.pc == s.pc;
    } else {
      assert q[0] in q && q[..1] == [q[0]];
      assert s'.pc == s.pc[q[0] := Signalled];
      assert forall d :: d in s'.conds ==> !OnCond(s'.pc[q[0]], d);
    }
  }

  lemma SignalKeepsConds(s: State, t: Tid, c: Cond)
    requires Inv(s) && At(s, t, Signal(c))
    ensures CondsMatch(Do(s, t, Signal(c)))
  {
    StepKeepsInv(s, t, Signal(c));
  }

  /** A broadcast empties the queue, and every waiter can test the lock; nobody else moves. */
  lemma BroadcastWakesAll(s: State, t: Tid, c: Cond, u: Tid)
    requires Inv(s) && At(s, t, Broadcast(c)) && u in s.pc
    ensures var s' := Do(s, t, Broadcast(c));
      && s'.conds == s.conds[c := []] && s'.pc[u] == (if u in s.conds[c] then Signalled else s.pc[u])
      && (u in s.conds[c] ==> At(s', u, TryLock))
  {
    var q := s.conds[c];
    RouseWakesWaiters(s, t, c);
    assert q[..|q|] == q && q[|q|..] == [];
  }

  /** `a` is queued in front of `b`. */
  ghost predicate Before(q: seq<Tid>, a: Tid, b: Tid)
  {
    exists i, j :: 0 <= i < j < |q| && q[i] == a && q[j] == b
  }

  lemma StepKeepsBefore(s: State, t: Tid, act: Action, a: Tid, b: Tid)
    requires Inv(s) && At(s, t, act) && Before(s.m.waiterQueue, a, b) && a in Do(s, t, act).m.waiterQueue
    ensures Before(Do(s, t, act).m.waiterQueue, a, b)
  {
    var w, w' := s.m.waiterQueue, Do(s, t, act).m.waiterQueue;
    var i, j :| 0 <= i < j < |w| && w[i] == a && w[j] == b;
    if w' == w[1..] && w' != w {
      assert w[0] !in w[1..];
      assert w'[i - 1] == a && w'[j - 1] == b;
    } else {
      assert w'[i] == a && w'[j] == b;
    }
  }

  lemma RunStep(run: seq<State>, i: nat, a: Tid, b: Tid)
    requires IsRun(Init, Next, run) && 0 < i < |run|
    requires Before(run[i - 1].m.waiterQueue, a, b) && a in run[i].m.waiterQueue
    ensures Before(run[i].m.waiterQueue, a, b)
  {
    EveryRunKeepsInv(run);
    var s, s' := run[i - 1], run[i];
    assert Inv(s) && Next(s, s');
    var t, act :| At(s, t, act) && s' == Do(s, t, act);
    StepKeepsBefore(s, t, act, a, b);
  }

  lemma {:induction false} OrderStays(run: seq<State>, k: nat, l: nat, a: Tid, b: Tid)
    requires IsRun(Init, Next, run) && k <= l < |run|
    requires Before(run[k].m.waiterQueue, a, b)
    requires forall i :: k < i <= l ==> a in run[i].m.waiterQueue
    ensures Before(run[l].m.waiterQueue, a, b)
    decreases l
  {
    if k < l {
      OrderStays(run, k, l - 1, a, b);
      RunStep(run, l, a, b);
    }
  }

  lemma BeforeIsQueued(q: seq<Tid>, a: Tid, b: Tid)
    requires Before(q, a, b)
    ensures b in q
  {
  }

  /**
    First come, first served: as long as a writer stays in the queue, those behind it stay behind it.  So a
    writer that leaves the queue leaves nobody there who was in front of it and has queued all the while.
  */
  lemma WritersKeepTheirOrder(run: seq<State>, k: nat, l: nat, a: Tid, b: Tid)
    requires IsRun(Init, Next, run) && k <= l < |run|
    requires Before(run[k].m.waiterQueue, a, b)
    requires forall i :: k <= i <= l ==> a in run[i].m.waiterQueue
    ensures Before(run[l].m.waiterQueue, a, b) && b in run[l].m.waiterQueue
  {
    OrderStays(run, k, l, a, b);
    BeforeIsQueued(run[l].m.waiterQueue, a, b);
  }

  // ---------- how often the lock is tested ----------

  predicate IsTest(a: Action)
  {
    a.TryLock? || a.TryReadonly?
  }

  /** A run together with the steps that made it. */
  ghost predicate IsTrace(run: seq<State>, acts: seq<(Tid, Action)>)
  {
    && |run| == |acts| + 1 && Init(run[0])
    && forall i :: 0 <= i < |acts| ==>
      At(run[i], acts[i].0, acts[i].1) && run[i + 1] == Do(run[i], acts[i].0, acts[i].1)
  }

  function Tests(acts: seq<(Tid, Action)>): nat
  {
    if acts == [] then 0 else Tests(acts[..|acts| - 1]) + if IsTest(acts[|acts| - 1].1) then 1 else 0
  }

  /** About to test the lock. */
  predicate MustTest(p: Pc)
  {
    p == WantLock || p == WokenLock || p == Signalled || p == WantRead || p == WokenRead
  }

  ghost function Testers(s: State): set<Tid>
  {
    set t | t in s.pc && MustTest(s.pc[t])
  }

  lemma TestersBound(s: State)
    ensures |Testers(s)| <= |s.pc.Keys|
  {
    assert s.pc.Keys == Testers(s) + (s.pc.Keys - Testers(s));
  }

  /** A test spends one tester, any other step adds at most all threads. */
  lemma StepAddsTesters(s: State, t: Tid, a: Action)
    requires At(s, t, a)
    ensures Do(s, t, a).pc.Keys == s.pc.Keys
    ensures |Testers(Do(s, t, a))| <= if IsTest(a) then |Testers(s)| - 1 else |s.pc.Keys|
  {
    if IsTest(a) {
      TestSpendsTester(s, t, a);
    } else {
      TestersBound(Do(s, t, a));
    }
  }

  lemma TestSpendsTester(s: State, t: Tid, a: Action)
    requires At(s, t, a) && IsTest(a)
    ensures |Testers(Do(s, t, a))| == |Testers(s)| - 1
  {
    assert Testers(Do(s, t, a)) == Testers(s) - {t};
  }

  /** Of so many steps, `tests` were tests and as many threads as `testers` are about to test. */
  predicate PaidFor(threads: nat, steps: nat, tests: nat, testers: nat)
  {
    tests + testers <= threads * (steps - tests)
  }

  lemma TraceStep(run: seq<State>, acts: seq<(Tid, Action)>)
    requires IsTrace(run, acts) && acts != []
    ensures var n := |acts| - 1;
      && IsTrace(run[..n + 1], acts[..n]) && run[n + 1].pc.Keys == run[n].pc.Keys
      && |Testers(run[n + 1])| <= if IsTest(acts[n].1) then |Testers(run[n])| - 1 else |run[n].pc.Keys|
  {
    var n := |acts| - 1;
    StepAddsTesters(run[n], acts[n].0, acts[n].1);
  }

  /**
    The tests that the loops of the two lock operations repeat are paid for by other steps: each of those makes
    at most every thread test once.
  */
  lemma {:induction false} TestsAreBounded(run: seq<State>, acts: seq<(Tid, Action)>)
    requires IsTrace(run, acts)
    ensures run[|acts|].pc.Keys == run[0].pc.Keys
    ensures PaidFor(|run[0].pc.Keys|, |acts|, Tests(acts), |Testers(run[|acts|])|)
  {
    if acts == [] {
      assert Testers(run[0]) == {};
    } else {
      var n := |acts| - 1;
      TraceStep(run, acts);
      var shorter := run[..n + 1];
      TestsAreBounded(shorter, acts[..n]);
      assert shorter[0] == run[0] && shorter[n] == run[n];
      OneMoreStep(|run[0].pc.Keys|, n, Tests(acts[..n]), |Testers(run[n])|, |Testers(run[n + 1])|, IsTest(acts[n].1));
    }
  }

  lemma OneMoreStep(threads: nat, steps: nat, tests: nat, before: nat, after: nat, isTest: bool)
    requires PaidFor(threads, steps, tests, before) && after <= if isTest then before - 1 else threads
    ensures PaidFor(threads, steps + 1, if isTest then tests + 1 else tests, after)
  {
    OneMore(threads, steps - tests);
  }

  lemma OneMore(x: nat, y: int)
    ensures x * (y + 1) == x * y + x
  {
  }

  // ---------- the mutex and its conditions are a monitor ----------

  predicate Competes(p: Pc)
  {
    p == WantLock || p == QueuedLock || p == WokenLock || p == Signalled
  }

  /** The condition queue without a thread that has joined it but not yet released the lock. */
  ghost function Parked(s: State, c: Cond): seq<Tid>
    requires c in s.conds
  {
    var q := s.conds[c];
    if q != [] && q[|q| - 1] in s.pc && s.pc[q[|q| - 1]] == Leaving(c) then q[..|q| - 1] else q
  }

  ghost function Abstract(s: State): Monitor.Monitor
  {
    Monitor.Monitor(s.m.holder, set t | t in s.pc && Competes(s.pc[t]), map c | c in s.conds :: Parked(s, c))
  }

  /** The monitor step that each step of the library stands for. */
  ghost function Monitored(s: State, t: Tid, a: Action): Monitor.Monitor
    requires At(s, t, a)
  {
    var m := Abstract(s);
    match a
    case CallLock => m.Arrive(t)
    case TryLock => if m.owner == None && Readers(s.pc) == {} then m.Enter(t) else m
    case Unlock => if s.pc[t] == Holding then m.Leave() else m
    case CondRelease(c) => m.Wait(t, c)
    case Signal(c) => m.Signal(c)
    case Broadcast(c) => m.Broadcast(c)
    case _ => m
  }

  /** Step `a` of `t` is its own monitor step: a signal is a signal, and so on. */
  ghost predicate Shows(s: State, t: Tid, a: Action)
    requires At(s, t, a)
  {
    && Abstract(Do(s, t, a)) == Monitored(s, t, a)
    && (Monitored(s, t, a) == Abstract(s) || Monitor.Next(Abstract(s), Monitored(s, t, a)))
  }

  ghost predicate Simulates(s: State, s': State)
  {
    exists t, a :: At(s, t, a) && s' == Do(s, t, a) && Shows(s, t, a)
  }

  lemma ParkedUnchanged(s: State, s': State)
    requires s'.conds == s.conds && s'.pc.Keys == s.pc.Keys
    requires forall u, c :: u in s.pc ==> (IsLeaving(s.pc[u], c) <==> IsLeaving(s'.pc[u], c))
    ensures Abstract(s').waiting == Abstract(s).waiting
  {
    forall c | c in s.conds
      ensures Parked(s', c) == Parked(s, c)
    {
      var q := s.conds[c];
      if q != [] && q[|q| - 1] in s.pc {
        assert IsLeaving(s.pc[q[|q| - 1]], c) <==> IsLeaving(s'.pc[q[|q| - 1]], c);
      }
    }
  }

  lemma TrySimulates(s: State, t: Tid)
    requires LockMatches(s) && At(s, t, TryLock) && s.m.holder != Some(t)
    ensures Shows(s, t, TryLock)
  {
    var s' := LockStep(s, t);
    assert s.m.readerCount == 0 <==> Readers(s.pc) == {};
    ParkedUnchanged(s, s');
    var m, m' := Abstract(s), Abstract(s');
    if s'.pc[t] == Holding {
      assert m'.entry == m.entry - {t};
      assert m.CanEnter(t) && m' == m.Enter(t);
    } else {
      assert m'.entry == m.entry;
    }
  }

  /** Only a thread that waits on a condition is parked there. */
  lemma NotParked(s: State, t: Tid)
    requires CondsMatch(s) && t in s.pc && forall c :: !OnCond(s.pc[t], c)
    ensures forall c: Cond :: t !in Abstract(s).Queue(c)
  {
    forall c: Cond | c in s.conds
      ensures t !in Parked(s, c)
    {
      assert t !in s.conds[c];
    }
  }

  lemma CallSimulates(s: State, t: Tid)
    requires CondsMatch(s) && At(s, t, CallLock) && s.m.holder != Some(t)
    ensures Shows(s, t, CallLock)
  {
    var s' := s.(pc := s.pc[t := WantLock]);
    NotParked(s, t);
    assert Abstract(s).AtLarge(t);
    ParkedUnchanged(s, s');
    assert Abstract(s').entry == Abstract(s).entry + {t};
    assert Abstract(s') == Abstract(s).Arrive(t);
  }

  /** Readers do not show: whatever a thread does as a reader changes nothing seen from outside. */
  lemma ReaderSimulates(s: State, t: Tid, a: Action)
    requires At(s, t, a) && (a.CallReadonly? || a.TryReadonly?)
    ensures Shows(s, t, a)
  {
    ParkedUnchanged(s, Do(s, t, a));
    assert Abstract(Do(s, t, a)).entry == Abstract(s).entry;
  }

  lemma ParkedSame(s: State, s': State, c: Cond)
    requires c in s.conds && c in s'.conds && s'.conds[c] == s.conds[c] && s'.pc.Keys == s.pc.Keys
    requires forall u :: u in s.conds[c] && u in s.pc ==> (IsLeaving(s.pc[u], c) <==> IsLeaving(s'.pc[u], c))
    ensures Parked(s', c) == Parked(s, c)
  {
    var q := s.conds[c];
    if q != [] { assert q[|q| - 1] in q; }
  }

  lemma ParkedAll(s: State, c: Cond)
    requires c in s.conds && forall u :: u in s.conds[c] && u in s.pc ==> !IsLeaving(s.pc[u], c)
    ensures Parked(s, c) == s.conds[c]
  {
    var q := s.conds[c];
    if q != [] { assert q[|q| - 1] in q; }
  }

  lemma EnqueueParked(s: State, t: Tid, c: Cond)
    requires c in s.conds && t in s.pc && t !in s.conds[c]
    requires forall d :: d in s.conds && d != c ==> t !in s.conds[d]
    requires forall u :: u in s.conds[c] && u in s.pc ==> !IsLeaving(s.pc[u], c)
    ensures Abstract(EnqueueStep(s, t, c)).waiting == Abstract(s).waiting
  {
    var s' := EnqueueStep(s, t, c);
    ParkedAll(s, c);
    assert s'.conds[c] == s.conds[c] + [t];
    forall d | d in s.conds
      ensures Parked(s', d) == Parked(s, d)
    {
      if d != c { ParkedSame(s, s', d); }
    }
  }

  lemma EnqueueSimulates(s: State, t: Tid, c: Cond)
    requires CondsMatch(s) && LockMatches(s) && At(s, t, CondEnqueue(c))
    ensures Shows(s, t, CondEnqueue(c))
  {
    RouseWakesWaiters(s, t, c);
    forall d | d in s.conds
      ensures t !in s.conds[d]
    {
      assert !OnCond(s.pc[t], d);
    }
    EnqueueParked(s, t, c);
    assert Abstract(EnqueueStep(s, t, c)).entry == Abstract(s).entry;
  }

  lemma ReleaseEntry(s: State, t: Tid, p: Pc)
    requires QueuesMatch(s) && t in s.pc && !Competes(s.pc[t]) && !Competes(p)
    ensures Abstract(ReleaseStep(s, t, p)).entry == Abstract(s).entry
    ensures forall u :: u in s.pc && u != t ==>
      forall c :: IsLeaving(ReleaseStep(s, t, p).pc[u], c) <==> IsLeaving(s.pc[u], c)
  {
    forall u | u in s.pc && u in Woken(s.m)
      ensures s.pc[u] == QueuedLock || s.pc[u] == QueuedRead
    {
      assert u in s.m.waiterQueue || u in s.m.readerWaiterQueue;
    }
  }

  lemma UnlockSimulates(s: State, t: Tid)
    requires QueuesMatch(s) && LockMatches(s) && At(s, t, Unlock)
    ensures Shows(s, t, Unlock)
  {
    var s' := ReleaseStep(s, t, Idle);
    ReleaseEntry(s, t, Idle);
    ParkedUnchanged(s, s');
    assert s.m.holder == Some(t) <==> HasLock(s.pc[t]);
    if s.pc[t] == Reading {
      assert t in Readers(s.pc);
      assert Abstract(s') == Abstract(s);
    } else {
      assert Abstract(s') == Abstract(s).Leave();
    }
  }

  lemma WaitParked(s: State, s': State, t: Tid, c: Cond)
    requires c in s.conds && s'.conds == s.conds && s'.pc.Keys == s.pc.Keys
    requires t in s.pc && s.pc[t] == Leaving(c) && s'.pc[t] == Waiting(c) && EndsWith(s.conds[c], t)
    requires forall u, d :: u in s.pc && u != t ==> (IsLeaving(s'.pc[u], d) <==> IsLeaving(s.pc[u], d))
    ensures Abstract(s').waiting == Abstract(s).waiting[c := Abstract(s).Queue(c) + [t]]
  {
    assert Parked(s, c) + [t] == s.conds[c] == Parked(s', c);
    forall d | d in s.conds && d != c
      ensures Parked(s', d) == Parked(s, d)
    {
      ParkedSame(s, s', d);
    }
  }

  lemma WaitSimulates(s: State, t: Tid, c: Cond)
    requires QueuesMatch(s) && CondsMatch(s) && LockMatches(s) && At(s, t, CondRelease(c))
    ensures Shows(s, t, CondRelease(c))
  {
    var s', m := ReleaseStep(s, t, Waiting(c)), Abstract(s);
    ReleaseEntry(s, t, Waiting(c));
    assert s.m.holder == Some(t);
    assert IsLeaving(s.pc[t], c);
    WaitParked(s, s', t, c);
    assert Abstract(s') == m.Wait(m.owner.value, c);
  }

  lemma RouseParked(s: State, s': State, c: Cond, n: nat)
    requires c in s.conds && n <= |s.conds[c]| && s'.pc.Keys == s.pc.Keys && s'.conds == s.conds[c := s.conds[c][n..]]
    requires forall u, d :: u in s.pc ==> (IsLeaving(s'.pc[u], d) <==> IsLeaving(s.pc[u], d))
    requires forall u :: u in s.conds[c] && u in s.pc ==> !IsLeaving(s.pc[u], c)
    ensures Parked(s, c) == s.conds[c]
    ensures Abstract(s').waiting == Abstract(s).waiting[c := s.conds[c][n..]]
  {
    ParkedAll(s, c);
    ParkedAll(s', c);
    forall d | d in s.conds && d != c
      ensures Parked(s', d) == Parked(s, d)
    {
      ParkedSame(s, s', d);
    }
  }

  lemma RouseAbstract(s: State, t: Tid, c: Cond, n: nat)
    requires CondsMatch(s) && LockMatches(s) && c in s.conds && n <= |s.conds[c]| && t in s.pc && s.pc[t] == Holding
    ensures Abstract(s).Queue(c) == s.conds[c] && Abstract(s).owner == Some(t) && c in Abstract(s).waiting
    ensures Abstract(RouseStep(s, c, n)) ==
      Abstract(s).(entry := Abstract(s).entry + (set u | u in s.conds[c][..n]),
        waiting := Abstract(s).waiting[c := s.conds[c][n..]])
  {
    var s', q := RouseStep(s, c, n), s.conds[c];
    RouseWakesWaiters(s, t, c);
    assert s.m.holder == Some(t);
    forall u | u in s.pc
      ensures s'.pc[u] == if u in q[..n] then Signalled else s.pc[u]
      ensures u in q[..n] ==> s.pc[u] == Waiting(c)
    {
    }
    RouseParked(s, s', c, n);
    assert Abstract(s').entry == Abstract(s).entry + (set u | u in q[..n]);
  }

  lemma SignalSimulates(s: State, t: Tid, c: Cond)
    requires CondsMatch(s) && LockMatches(s) && At(s, t, Signal(c))
    ensures Shows(s, t, Signal(c))
  {
    var m, q := Abstract(s), s.conds[c];
    RouseAbstract(s, t, c, if q == [] then 0 else 1);
    if q == [] {
      assert m.waiting[c := q[0..]] == m.waiting;
      assert Abstract(Do(s, t, Signal(c))) == m;
    } else {
      assert (set u | u in q[..1]) == m.First(c);
      assert Abstract(Do(s, t, Signal(c))) == m.Signal(c);
    }
  }

  lemma BroadcastSimulates(s: State, t: Tid, c: Cond)
    requires CondsMatch(s) && LockMatches(s) && At(s, t, Broadcast(c))
    ensures Shows(s, t, Broadcast(c))
  {
    var m, q := Abstract(s), s.conds[c];
    RouseAbstract(s, t, c, |q|);
    assert q[..|q|] == q;
    assert Abstract(Do(s, t, Broadcast(c))) == m.Broadcast(c);
  }

  /**
    Seen from outside, every step of the library is its own monitor step.  Only readers, a lock that is refused
    and the first half of a wait change nothing.
  */
  lemma StepSimulates(s: State, t: Tid, a: Action)
    requires Inv(s) && At(s, t, a)
    ensures Shows(s, t, a) && Simulates(s, Do(s, t, a))
  {
    assert s.m.holder == Some(t) ==> HasLock(s.pc[t]);
    match a
    case CallLock => CallSimulates(s, t);
    case CallReadonly => ReaderSimulates(s, t, a);
    case TryLock => TrySimulates(s, t);
    case TryReadonly => ReaderSimulates(s, t, a);
    case Unlock => UnlockSimulates(s, t);
    case CondEnqueue(c) => EnqueueSimulates(s, t, c);
    case CondRelease(c) => WaitSimulates(s, t, c);
    case Signal(c) => SignalSimulates(s, t, c);
    case Broadcast(c) => BroadcastSimulates(s, t, c);
  }

  /** Every run of the library, seen from outside, is a run of the monitor with stuttering. */
  lemma RefinesMonitor(run: seq<State>)
    requires IsRun(Init, Next, run)
    ensures Abstract(run[0]).owner == None && Abstract(run[0]).entry == {}
    ensures forall c :: c in run[0].conds ==> Abstract(run[0]).Queue(c) == []
    ensures forall i :: 0 < i < |run| ==> Simulates(run[i - 1], run[i])
    ensures forall i :: 0 <= i < |run| ==> Abstract(run[i]).WellFormed()
  {
    EveryRunKeepsInv(run);
    forall i | 0 < i < |run|
      ensures Simulates(run[i - 1], run[i])
    {
      assert Inv(run[i - 1]) && Next(run[i - 1], run[i]);
      var t, a :| At(run[i - 1], t, a) && run[i] == Do(run[i - 1], t, a);
      StepSimulates(run[i - 1], t, a);
    }
    StaysWellFormed(run, |run| - 1);
  }

  lemma {:induction false} StaysWellFormed(run: seq<State>, n: nat)
    requires n < |run| && Abstract(run[0]).WellFormed()
    requires forall i :: 0 < i < |run| ==> Simulates(run[i - 1], run[i])
    ensures forall i :: 0 <= i <= n ==> Abstract(run[i]).WellFormed()
  {
    if n > 0 {
      StaysWellFormed(run, n - 1);
      assert Simulates(run[n - 1], run[n]);
      if Abstract(run[n]) != Abstract(run[n - 1]) {
        Monitor.StepKeepsWellFormed(Abstract(run[n - 1]), Abstract(run[n]));
      }
    }
  }

  /**
    When the monitor would let somebody in, some thread of the library can take the lock now or, while readers
    hold it, some reader can give it up now.
  */
  lemma MonitorEntryIsPossible(s: State)
    requires Inv(s) && Abstract(s).owner == None && Abstract(s).entry != {}
    ensures s.m.readerCount == 0 ==> exists u :: At(s, u, TryLock) && Do(s, u, TryLock).pc[u] == Holding
    ensures s.m.readerCount != 0 ==>
      exists u :: At(s, u, Unlock) && Do(s, u, Unlock).m.readerCount == s.m.readerCount - 1
  {
    var t :| t in Abstract(s).entry;
    if s.m.readerCount != 0 {
      var u :| u in Readers(s.pc);
      assert At(s, u, Unlock) && Do(s, u, Unlock).m.readerCount == s.m.readerCount - 1;
    } else if s.pc[t] == QueuedLock {
      assert t in s.m.waiterQueue;
      var u :| u in s.pc && s.pc[u] == WokenLock;
      assert At(s, u, TryLock) && Do(s, u, TryLock).pc[u] == Holding;
    } else {
      assert At(s, t, TryLock) && Do(s, t, TryLock).pc[t] == Holding;
    }
  }
}
