/**
  The monitor that programs built on the thread library rely on: one lock, any number of first-in
  first-out condition queues, and signalled threads that compete for the lock again.

  `RwMutex` shows that the library's mutex and condition variables behave like this.
*/
module Monitor {
  import opened Common

  type Cond = nat

  /** `entry` are the threads that compete for the lock; `waiting` the condition queues. */
  datatype Monitor = Monitor(owner: Option<Tid>, entry: set<Tid>, waiting: map<Cond, seq<Tid>>) {
    function Queue(c: Cond): seq<Tid>
    {
      if c in waiting then waiting[c] else []
    }

    /** The first waiter, or none. */
    function First(c: Cond): set<Tid>
    {
      if Queue(c) == [] then {} else {Queue(c)[0]}
    }

    /** Thread `t` does not hold the lock, nor compete for it, nor wait on a condition. */
    ghost predicate AtLarge(t: Tid)
    {
      owner != Some(t) && t !in entry && forall c: Cond :: t !in Queue(c)
    }

    /** Every thread is in one place at most. */
    ghost predicate WellFormed()
    {
      && (owner.Some? ==> owner.value !in entry)
      && (forall c: Cond :: NoDuplicates(Queue(c)))
      && (forall c: Cond, t: Tid :: t in Queue(c) ==> t !in entry && owner != Some(t))
      && forall c: Cond, d: Cond, t: Tid :: t in Queue(c) && t in Queue(d) ==> c == d
    }

    function Arrive(t: Tid): Monitor
    {
      this.(entry := entry + {t})
    }

    predicate CanEnter(t: Tid)
    {
      owner == None && t in entry
    }

    function Enter(t: Tid): Monitor
    {
      this.(owner := Some(t), entry := entry - {t})
    }

    function Leave(): Monitor
    {
      this.(owner := None)
    }

    /** The owner joins the end of queue `c` and gives up the lock. */
    function Wait(t: Tid, c: Cond): Monitor
    {
      this.(owner := None, waiting := waiting[c := Queue(c) + [t]])
    }

    /** The first waiter of `c`, if any, competes for the lock again. */
    function Signal(c: Cond): Monitor
    {
      if Queue(c) == [] then this
      else this.(entry := entry + First(c), waiting := waiting[c := Queue(c)[1..]])
    }

    /** All waiters of `c` compete for the lock again. */
    function Broadcast(c: Cond): Monitor
    {
      this.(entry := entry + (set t | t in Queue(c)), waiting := waiting[c := []])
    }
  }

  /** One step of some thread on the monitor. */
  ghost predicate Next(m: Monitor, m': Monitor)
  {
    || (exists t: Tid :: m.AtLarge(t) && m' == m.Arrive(t))
    || (exists t: Tid :: m.CanEnter(t) && m' == m.Enter(t))
    || (m.owner.Some? && m' == m.Leave())
    || (exists c: Cond :: m.owner.Some? && c in m.waiting && m' == m.Wait(m.owner.value, c))
    || (exists c: Cond :: m.owner.Some? && c in m.waiting && m' == m.Signal(c))
    || (exists c: Cond :: m.owner.Some? && c in m.waiting && m' == m.Broadcast(c))
  }

  /** Any number of steps. */
  ghost predicate IsPath(m: Monitor, path: seq<Monitor>, m': Monitor)
  {
    && path != [] && path[0] == m && path[|path| - 1] == m'
    && forall i :: 0 < i < |path| ==> Next(path[i - 1], path[i])
  }

  ghost predicate Reaches(m: Monitor, m': Monitor)
  {
    exists path :: IsPath(m, path, m')
  }

  lemma Stay(m: Monitor)
    ensures Reaches(m, m)
  {
    assert IsPath(m, [m], m);
  }

  lemma Further(m: Monitor, m': Monitor, m'': Monitor)
    requires Reaches(m, m') && Next(m', m'')
    ensures Reaches(m, m'')
  {
    var path :| IsPath(m, path, m');
    assert IsPath(m, path + [m''], m'');
  }

  /** `times` signals in a row. */
  function Signals(m: Monitor, c: Cond, times: nat): Monitor
  {
    if times == 0 then m else Signals(m, c, times - 1).Signal(c)
  }

  function Served(m: Monitor, c: Cond, times: nat): nat
  {
    if times < |m.Queue(c)| then times else |m.Queue(c)|
  }

  /** The first `k` waiters of `c` compete for the lock again. */
  ghost function Roused(m: Monitor, c: Cond, k: nat): Monitor
    requires k <= |m.Queue(c)|
  {
    m.(entry := m.entry + (set t | t in m.Queue(c)[..k]), waiting := m.waiting[c := m.Queue(c)[k..]])
  }

  lemma RousedNone(m: Monitor, c: Cond)
    requires c in m.waiting
    ensures Roused(m, c, 0) == m
  {
    assert m.Queue(c)[0..] == m.Queue(c) && m.waiting[c := m.Queue(c)] == m.waiting;
  }

  /** Once all waiters are served a signal does nothing. */
  lemma RousedAll(m: Monitor, c: Cond)
    requires c in m.waiting
    ensures Roused(m, c, |m.Queue(c)|).Signal(c) == Roused(m, c, |m.Queue(c)|)
  {
  }

  lemma RousedNext(m: Monitor, c: Cond, k: nat)
    requires k < |m.Queue(c)|
    ensures Roused(m, c, k).Signal(c) == Roused(m, c, k + 1)
  {
    var q := m.Queue(c);
    assert q[..k + 1] == q[..k] + [q[k]] && q[k..][1..] == q[k + 1..] && q[k..][0] == q[k];
    var more := q[..k + 1];
    assert (set t | t in more) == (set t | t in q[..k]) + {q[k]};
  }

  lemma ServeOneMore(m: Monitor, c: Cond, times: nat)
    requires c in m.waiting && times > 0
    ensures Roused(m, c, Served(m, c, times - 1)).Signal(c) == Roused(m, c, Served(m, c, times))
  {
    var j := Served(m, c, times - 1);
    if j < |m.Queue(c)| { RousedNext(m, c, j); } else { RousedAll(m, c); }
  }

  /** Signals take as many waiters off the queue, if there are so many. */
  lemma {:induction false} SignalsServe(m: Monitor, c: Cond, times: nat)
    requires c in m.waiting
    ensures Signals(m, c, times) == Roused(m, c, Served(m, c, times))
  {
    if times == 0 {
      RousedNone(m, c);
    } else {
      SignalsServe(m, c, times - 1);
      ServeOneMore(m, c, times);
    }
  }

  lemma {:induction false} SignalsReach(m0: Monitor, m: Monitor, c: Cond, times: nat)
    requires Reaches(m0, m) && m.owner.Some? && c in m.waiting
    ensures Reaches(m0, Signals(m, c, times)) && Signals(m, c, times).owner == m.owner
    ensures Signals(m, c, times).waiting.Keys == m.waiting.Keys
  {
    if times > 0 {
      SignalsReach(m0, m, c, times - 1);
      var before := Signals(m, c, times - 1);
      assert Next(before, before.Signal(c));
      Further(m0, before, before.Signal(c));
    }
  }

  /** A thread that is at large, or competes already, comes to hold a free lock. */
  function Taken(m: Monitor, t: Tid): Monitor
  {
    m.(owner := Some(t), entry := m.entry - {t})
  }

  lemma TakenReach(m: Monitor, t: Tid)
    requires m.owner == None && (t in m.entry || m.AtLarge(t))
    ensures Reaches(m, Taken(m, t))
  {
    var arrived := if t in m.entry then m else m.Arrive(t);
    Stay(m);
    if t !in m.entry { Further(m, m, arrived); }
    assert arrived.Enter(t) == Taken(m, t);
    Further(m, arrived, Taken(m, t));
  }

  lemma TailOf(q: seq<Tid>)
    requires NoDuplicates(q) && q != []
    ensures NoDuplicates(q[1..]) && forall t :: t in q[1..] <==> t in q && t != q[0]
  {
    assert q == q[..1] + q[1..];
    CutNoDuplicates(q[..1], q[1..]);
    assert forall t :: t in q[..1] <==> t == q[0];
  }

  /** A signal takes the first waiter off its queue and touches no other queue. */
  lemma SignalQueues(m: Monitor, c: Cond, d: Cond)
    requires m.WellFormed() && m.Queue(c) != []
    ensures m.Signal(c).Queue(d) == if d == c then m.Queue(c)[1..] else m.Queue(d)
    ensures NoDuplicates(m.Signal(c).Queue(d))
    ensures forall t :: t in m.Signal(c).Queue(d) <==> t in m.Queue(d) && t != m.Queue(c)[0]
  {
    TailOf(m.Queue(c));
    assert m.Queue(c)[0] in m.Queue(c);
  }

  lemma SignalKeepsWellFormed(m: Monitor, c: Cond)
    requires m.WellFormed()
    ensures m.Signal(c).WellFormed()
  {
    if m.Queue(c) != [] {
      forall d: Cond
        ensures NoDuplicates(m.Signal(c).Queue(d))
        ensures forall t :: t in m.Signal(c).Queue(d) <==> t in m.Queue(d) && t != m.Queue(c)[0]
      {
        SignalQueues(m, c, d);
      }
      assert m.Queue(c)[0] in m.Queue(c);
    }
  }

  lemma WaitKeepsWellFormed(m: Monitor, t: Tid, c: Cond)
    requires m.WellFormed() && m.owner == Some(t)
    ensures m.Wait(t, c).WellFormed()
  {
    var m' := m.Wait(t, c);
    forall d: Cond
      ensures NoDuplicates(m'.Queue(d)) && forall u :: u in m'.Queue(d) <==> u in m.Queue(d) || (u == t && d == c)
    {
      assert t !in m.Queue(d) && m'.Queue(d) == if d == c then m.Queue(d) + [t] else m.Queue(d);
    }
  }

  lemma BroadcastKeepsWellFormed(m: Monitor, c: Cond)
    requires m.WellFormed()
    ensures m.Broadcast(c).WellFormed()
  {
    var m' := m.Broadcast(c);
    forall d: Cond
      ensures m'.Queue(d) == if d == c then [] else m.Queue(d)
      ensures forall t :: t in m'.Queue(d) ==> t !in m'.entry
    {
    }
  }

  /** Steps that leave the queues alone. */
  lemma MoveKeepsWellFormed(m: Monitor, m': Monitor)
    requires m.WellFormed() && m'.waiting == m.waiting
    requires
      || (exists t: Tid :: m.AtLarge(t) && m' == m.Arrive(t))
      || (exists t: Tid :: m.CanEnter(t) && m' == m.Enter(t))
      || m' == m.Leave()
    ensures m'.WellFormed()
  {
    assert forall c: Cond :: m'.Queue(c) == m.Queue(c);
  }

  lemma StepKeepsWellFormed(m: Monitor, m': Monitor)
    requires m.WellFormed() && Next(m, m')
    ensures m'.WellFormed()
  {
    if c: Cond :| m.owner.Some? && c in m.waiting && m' == m.Signal(c) {
      SignalKeepsWellFormed(m, c);
    } else if c: Cond :| m.owner.Some? && c in m.waiting && m' == m.Wait(m.owner.value, c) {
      WaitKeepsWellFormed(m, m.owner.value, c);
    } else if c: Cond :| m.owner.Some? && c in m.waiting && m' == m.Broadcast(c) {
      BroadcastKeepsWellFormed(m, c);
    } else {
      MoveKeepsWellFormed(m, m');
    }
  }

  /** A signal lets exactly the first waiter compete again; without waiters it does nothing. */
  lemma SignalWakesFirst(m: Monitor, c: Cond)
    requires m.WellFormed()
    ensures m.Queue(c) == [] ==> m.Signal(c) == m
    ensures m.Queue(c) != [] ==>
      && m.Signal(c).entry == m.entry + {m.Queue(c)[0]} && m.Signal(c).owner == m.owner
      && forall d: Cond :: m.Signal(c).Queue(d) == if d == c then m.Queue(c)[1..] else m.Queue(d)
  {
    if m.Queue(c) != [] {
      forall d: Cond
        ensures m.Signal(c).Queue(d) == if d == c then m.Queue(c)[1..] else m.Queue(d)
      {
        SignalQueues(m, c, d);
      }
    }
  }

  /** A broadcast lets all waiters compete again. */
  lemma BroadcastWakesAll(m: Monitor, c: Cond, t: Tid)
    ensures t in m.Broadcast(c).entry <==> t in m.entry || t in m.Queue(c)
    ensures m.Broadcast(c).Queue(c) == [] && m.Broadcast(c).owner == m.owner
    ensures forall d: Cond :: d != c ==> m.Broadcast(c).Queue(d) == m.Queue(d)
  {
  }

  /** The owner that waits is afterwards the last in the queue, and the lock is free. */
  lemma WaitIsLast(m: Monitor, t: Tid, c: Cond)
    ensures m.Wait(t, c).owner == None && m.Wait(t, c).entry == m.entry
    ensures m.Wait(t, c).Queue(c) == m.Queue(c) + [t]
    ensures forall d: Cond :: d != c ==> m.Wait(t, c).Queue(d) == m.Queue(d)
  {
  }

  /** Whatever a step does to a thread in queue `c`, it is a signal or a broadcast by the owner. */
  lemma OtherStepsLeaveWaiters(m: Monitor, m': Monitor, t: Tid, c: Cond)
    requires Next(m, m') && t in m.Queue(c)
    requires forall d: Cond :: m.owner.Some? && d in m.waiting ==> m' != m.Signal(d) && m' != m.Broadcast(d)
    ensures t in m'.Queue(c)
  {
    if d: Cond :| m.owner.Some? && d in m.waiting && m' == m.Wait(m.owner.value, d) {
      assert m.Queue(c) <= m'.Queue(c);
    }
  }

  /** A waiting thread stays where it is until the owner signals its condition to it, or broadcasts. */
  lemma NobodyWakesUnsignalled(m: Monitor, m': Monitor, t: Tid, c: Cond)
    requires m.WellFormed() && Next(m, m') && t in m.Queue(c)
    ensures !m.CanEnter(t) && !m.AtLarge(t)
    ensures t in m'.Queue(c) || (m.owner.Some? && m' == m.Broadcast(c))
      || (m.owner.Some? && m' == m.Signal(c) && m.Queue(c)[0] == t)
  {
    if d: Cond :| m.owner.Some? && d in m.waiting && m' == m.Signal(d) {
      if m.Queue(d) != [] { SignalQueues(m, d, c); }
    } else if d: Cond :| m.owner.Some? && d in m.waiting && m' == m.Broadcast(d) {
      assert d != c ==> m'.Queue(c) == m.Queue(c);
    } else {
      OtherStepsLeaveWaiters(m, m', t, c);
    }
  }
}
