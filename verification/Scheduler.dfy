/**
  Threads, processors and the context switch (a10/uthreads/uthread.c), idle sleep aside.

  A processor that leaves a thread goes through the phases of `uthread_stop` and `uthread_switch`: it
  chooses the next thread, writes the state of the one it leaves, spins until the next one is not
  running elsewhere, jumps to it, and only then looks at the state of the thread it left.
*/
module Scheduler {
  import opened Common
  import opened Runs

  type Pid = nat
  type QueueId = nat

  /** The ready queue; all other queues belong to mutexes, conditions and semaphores. */
  const READY: QueueId := 0

  datatype Status = Nascent | Running | Runable | Blocked | Dying | Dead

  datatype How = Yields | Blocks | Dies

  /**
    `Run`: executing the thread; `Park`: the thread has queued itself and is about to block; `Exiting`: its
    start procedure has returned and it is marked dying; `Chosen`:
    the next thread is off the ready queue; `Spin`: the state of the thread left is written; `Check`:
    now on the next thread's stack, about to look at the state of the thread left; `Resume`: about to
    mark the next thread running.  In `Spin` and `Check` the field `how` is only remembered, not read.
  */
  datatype Phase =
    | Run(t: Tid) | Park(t: Tid) | Exiting(t: Tid)
    | Chosen(t: Tid, how: How, to: Tid) | Spin(t: Tid, how: How, to: Tid)
    | Check(from: Tid, how: How, t: Tid) | Resume(t: Tid)

  /** How many processors and threads there are, and whether threads ever yield and ever block. */
  datatype Config = Config(procs: nat, threads: nat, mayYield: bool, mayBlock: bool) {
    /** The thread a processor falls back on when the ready queue is empty. */
    function Base(p: Pid): Tid
    {
      threads + p
    }
  }

  datatype State = State(proc: map<Pid, Phase>, status: map<Tid, Status>, queues: map<QueueId, seq<Tid>>)

  predicate IsLast(q: seq<Tid>, t: Tid)
  {
    q != [] && q[|q| - 1] == t
  }

  predicate On(queues: map<QueueId, seq<Tid>>, q: QueueId, t: Tid)
  {
    q in queues && t in queues[q]
  }

  /** The test of `uthread_enqueue`: `t` has a successor on some queue or is the last on this one. */
  ghost predicate SeemsEnqueued(queues: map<QueueId, seq<Tid>>, q: QueueId, t: Tid)
    requires q in queues
  {
    (exists r :: On(queues, r, t) && !IsLast(queues[r], t)) || IsLast(queues[q], t)
  }

  ghost function EnqueueOn(queues: map<QueueId, seq<Tid>>, q: QueueId, t: Tid): map<QueueId, seq<Tid>>
    requires q in queues
  {
    if SeemsEnqueued(queues, q, t) then queues else queues[q := queues[q] + [t]]
  }

  datatype Action =
    | Create(u: Tid) | WaitOn(q: QueueId) | Unblock(q: QueueId) | Exit | Stop(how: How) | Write | Jump | Look | Go

  ghost predicate At(c: Config, s: State, p: Pid, a: Action)
  {
    p in s.proc && READY in s.queues && match a
      case Create(u) => s.proc[p].Run? && s.proc[p].t < c.threads && u < c.threads && u !in s.status
      case WaitOn(q) => c.mayBlock && s.proc[p].Run? && s.proc[p].t < c.threads && q in s.queues && q != READY
      case Unblock(q) =>
        && (s.proc[p].Run? || s.proc[p].Exiting?) && s.proc[p].t < c.threads
        && q in s.queues && q != READY && s.queues[q] != []
      case Exit => s.proc[p].Run? && s.proc[p].t < c.threads
      case Stop(how) =>
        && (match how
            case Yields => c.mayYield && s.proc[p].Run? && s.proc[p].t < c.threads
            case Blocks => s.proc[p].Park? || s.proc[p] == Run(c.Base(p))
            case Dies => s.proc[p].Exiting?)
        && (s.queues[READY] != [] || s.proc[p] != Run(c.Base(p)))
      case Write => s.proc[p].Chosen?
      case Jump => s.proc[p].Spin? && s.proc[p].to in s.status && s.status[s.proc[p].to] != Running
      case Look => s.proc[p].Check? && s.proc[p].from in s.status
      case Go => s.proc[p].Resume?
  }

  /** The state in which a thread is left. */
  function Left(how: How): Status
  {
    match how case Yields => Runable case Blocks => Blocked case Dies => Dying
  }

  ghost function Do(c: Config, s: State, p: Pid, a: Action): State
    requires At(c, s, p, a)
  {
    match a
    case Create(u) => s.(status := s.status[u := Nascent], queues := EnqueueOn(s.queues, READY, u))
    case WaitOn(q) => s.(proc := s.proc[p := Park(s.proc[p].t)], queues := EnqueueOn(s.queues, q, s.proc[p].t))
    case Unblock(q) => s.(queues := EnqueueOn(s.queues[q := s.queues[q][1..]], READY, s.queues[q][0]))
    case Exit => s.(proc := s.proc[p := Exiting(s.proc[p].t)], status := s.status[s.proc[p].t := Dying])
    case Stop(how) =>
      var ready := s.queues[READY];
      if ready != [] then
        s.(proc := s.proc[p := Chosen(s.proc[p].t, how, ready[0])], queues := s.queues[READY := ready[1..]])
      else s.(proc := s.proc[p := Chosen(s.proc[p].t, how, c.Base(p))])
    case Write =>
      var Chosen(t, how, to) := s.proc[p];
      s.(proc := s.proc[p := Spin(t, how, to)], status := s.status[t := Left(how)])
    case Jump =>
      var Spin(t, how, to) := s.proc[p];
      s.(proc := s.proc[p := Check(t, how, to)])
    case Look =>
      var Check(from, how, t) := s.proc[p];
      s.(proc := s.proc[p := Resume(t)],
         status := if s.status[from] == Dying then s.status[from := Dead] else s.status,
         queues := if s.status[from] == Runable then EnqueueOn(s.queues, READY, from) else s.queues)
    case Go => s.(proc := s.proc[p := Run(s.proc[p].t)], status := s.status[s.proc[p].t := Running])
  }

  /** The main thread and the base threads. */
  predicate IsInitial(c: Config, t: Tid)
  {
    t == 0 || t >= c.threads
  }

  /** Processor 0 runs the main thread, the others their base threads, and all queues are empty. */
  ghost predicate Init(c: Config, s: State)
  {
    && c.procs >= 1 && c.threads >= 1 && READY in s.queues
    && s.proc == (map p | 0 <= p < c.procs :: if p == 0 then Run(0) else Run(c.Base(p)))
    && s.status == (map t | 0 <= t < c.threads + c.procs && IsInitial(c, t) ::
      if t == c.Base(0) then Nascent else Running)
    && forall q :: q in s.queues ==> s.queues[q] == []
  }

  ghost predicate Next(c: Config, s: State, s': State)
  {
    exists p, a :: At(c, s, p, a) && s' == Do(c, s, p, a)
  }

  ghost function Starts(c: Config): State -> bool
  {
    s => Init(c, s)
  }

  ghost function Steps(c: Config): (State, State) -> bool
  {
    (s, s') => Next(c, s, s')
  }

  // ---------- what is wanted ----------

  /** The thread on whose stack a processor executes. */
  function Exec(ph: Phase): set<Tid>
  {
    if ph.Spin? then {} else {ph.t}
  }

  ghost predicate OneProcessorEach(s: State)
  {
    forall p, r :: p in s.proc && r in s.proc && p != r ==> Exec(s.proc[p]) !! Exec(s.proc[r])
  }

  ghost predicate OneQueueEach(s: State)
  {
    && (forall q :: q in s.queues ==> NoDuplicates(s.queues[q]))
    && forall q, r, t :: On(s.queues, q, t) && On(s.queues, r, t) ==> q == r
  }

  /** No thread is executed by two processors, and none is on two queues or twice on one. */
  ghost predicate Once(s: State)
  {
    OneProcessorEach(s) && OneQueueEach(s)
  }

  /** Threads that the processor alone deals with: nobody else runs them or takes them, and no queue has them. */
  function Claims(c: Config, ph: Phase): set<Tid>
  {
    match ph
    case Run(t) => {t}
    case Park(t) => {}
    case Exiting(t) => {t}
    case Chosen(t, how, to) => if how.Blocks? then {to} else {t, to}
    case Spin(t, how, to) => if how.Blocks? then {to} else {t, to}
    case Check(from, how, t) => if how.Blocks? then {t} else {from, t}
    case Resume(t) => {t}
  }

  predicate IsGone(st: Status)
  {
    st == Dying || st == Dead
  }

  /** Thread `t` is on a queue, or a processor runs it, is about to, or has yet to put it back on the ready queue. */
  ghost predicate Kept(c: Config, s: State, t: Tid)
  {
    (exists q :: On(s.queues, q, t)) || (exists p :: p in s.proc && t in Claims(c, s.proc[p]))
  }

  ghost predicate NobodyLost(c: Config, s: State)
  {
    forall t: Tid :: t in s.status && t < c.threads && !IsGone(s.status[t]) ==> Kept(c, s, t)
  }

  /** Every thread is in one place: in no two, and unless it has exited not in none. */
  ghost predicate Safe(c: Config, s: State)
  {
    Once(s) && NobodyLost(c, s)
  }

  ghost predicate AlwaysSafe(c: Config)
  {
    forall run :: IsRun(Starts(c), Steps(c), run) ==> forall i :: 0 <= i < |run| ==> Safe(c, run[i])
  }

  // ---------- the invariant of the configurations that are safe ----------

  ghost predicate Sound(c: Config)
  {
    c.procs == 1 || !c.mayYield || !c.mayBlock
  }

  /** The thread that was left is still as `how` says. */
  ghost predicate LeftOk(c: Config, s: State, f: Tid, how: How, to: Tid)
  {
    && f in s.status
    && (how.Yields? ==> s.status[f] == Runable && f != to && c.mayYield && f < c.threads)
    && (how.Blocks? ==> s.status[f] != Runable && (f < c.threads ==> c.mayBlock))
    && (how.Dies? ==> IsGone(s.status[f]) && f != to && f < c.threads)
  }

  ghost predicate PhaseOk(c: Config, s: State, p: Pid)
    requires p in s.proc
  {
    match s.proc[p]
    case Run(t) => t in s.status && s.status[t] == Running
    case Park(t) => t in s.status && s.status[t] == Running && t < c.threads && c.mayBlock
    case Exiting(t) => t in s.status && IsGone(s.status[t]) && t < c.threads
    case Chosen(t, how, to) =>
      && t in s.status && (if how.Dies? then IsGone(s.status[t]) else s.status[t] == Running) && to in s.status
      && (how.Yields? ==> c.mayYield)
      && (if how.Blocks? then t < c.threads ==> c.mayBlock else t != to && t < c.threads)
    case Spin(t, how, to) => to in s.status && LeftOk(c, s, t, how, to)
    case Check(from, how, t) => t in s.status && s.status[t] != Running && LeftOk(c, s, from, how, t)
    case Resume(t) => t in s.status && s.status[t] != Running
  }

  /** Base threads stay with their processor, on no queue, and never yield. */
  ghost predicate BasesOk(c: Config, s: State)
  {
    && (forall p, t :: p in s.proc && t in Claims(c, s.proc[p]) && t >= c.threads ==> t == c.Base(p))
    && (forall p, t :: p in s.proc && t in Exec(s.proc[p]) && t >= c.threads ==> t == c.Base(p))
    && (forall t :: t in s.status && t >= c.threads ==> s.status[t] != Runable)
    && (forall p :: p in s.proc ==> p < c.procs && c.Base(p) in s.status)
  }

  ghost predicate QueuedOk(c: Config, s: State)
  {
    forall q: QueueId, t: Tid :: On(s.queues, q, t) ==> t in s.status && t < c.threads
  }

  ghost predicate ClaimsApart(c: Config, s: State)
  {
    && (forall p, r :: p in s.proc && r in s.proc && p != r ==> Claims(c, s.proc[p]) !! Claims(c, s.proc[r]))
    && (forall p, q, t :: p in s.proc && On(s.queues, q, t) ==> t !in Claims(c, s.proc[p]))
  }

  ghost predicate PhasesOk(c: Config, s: State)
  {
    && (forall p :: p in s.proc ==> PhaseOk(c, s, p))
    && (!c.mayYield ==> forall t :: t in s.status ==> s.status[t] != Runable)
  }

  ghost predicate Inv(c: Config, s: State)
  {
    && READY in s.queues
    && Once(s) && ClaimsApart(c, s) && BasesOk(c, s) && QueuedOk(c, s) && PhasesOk(c, s)
  }

  ghost predicate OnNoQueue(queues: map<QueueId, seq<Tid>>, t: Tid)
  {
    forall q :: !On(queues, q, t)
  }

  lemma Appended(s: State, s': State, q: QueueId, t: Tid)
    requires OneQueueEach(s) && q in s.queues && OnNoQueue(s.queues, t)
    requires s'.queues == EnqueueOn(s.queues, q, t)
    ensures OneQueueEach(s') && s'.queues == s.queues[q := s.queues[q] + [t]]
    ensures forall r, u :: On(s'.queues, r, u) ==> u == t || On(s.queues, r, u)
  {
    assert IsLast(s.queues[q], t) ==> On(s.queues, q, t);
    assert !SeemsEnqueued(s.queues, q, t);
    forall r, u
      ensures On(s'.queues, r, u) <==> On(s.queues, r, u) || (r == q && u == t)
    {
    }
  }

  /** Queues that lose threads or gain one that processor `p` gives up stay clear of all claims. */
  lemma ClaimsMove(c: Config, s: State, s': State, p: Pid, ph: Phase)
    requires ClaimsApart(c, s) && p in s.proc && s'.proc == s.proc[p := ph]
    requires forall r, t :: r in s.proc && r != p && t in Claims(c, ph) && t in Claims(c, s.proc[r]) ==>
      t in Claims(c, s.proc[p])
    requires forall q, t :: On(s'.queues, q, t) ==> t !in Claims(c, ph)
    requires forall q, t, r :: On(s'.queues, q, t) && r in s.proc && r != p ==> t !in Claims(c, s.proc[r])
    ensures ClaimsApart(c, s')
  {
  }

  lemma ClaimsSame(c: Config, s: State, s': State)
    requires ClaimsApart(c, s) && s'.proc == s.proc
    requires forall q, t, r :: On(s'.queues, q, t) && r in s.proc ==> t !in Claims(c, s.proc[r])
    ensures ClaimsApart(c, s')
  {
  }

  /** A phase that takes over no thread but those of the phase before keeps base threads at home. */
  lemma BasesMove(c: Config, s: State, s': State, p: Pid, ph: Phase)
    requires BasesOk(c, s) && p in s.proc && s'.proc == s.proc[p := ph]
    requires forall t :: t in Claims(c, ph) || t in Exec(ph) ==> t in Claims(c, s.proc[p]) || t in Exec(s.proc[p])
    requires s.status.Keys <= s'.status.Keys
    requires forall t :: t in s'.status && t >= c.threads ==> s'.status[t] != Runable
    ensures BasesOk(c, s')
  {
  }

  lemma ExecMove(s: State, s': State, p: Pid, ph: Phase)
    requires OneProcessorEach(s) && p in s.proc && s'.proc == s.proc[p := ph]
    requires forall r :: r in s.proc && r != p ==> Exec(ph) !! Exec(s.proc[r])
    ensures OneProcessorEach(s')
  {
  }

  /** Nothing a processor relies on changes when only queues, or states of threads it has no part in, do. */
  lemma PhaseFrame(c: Config, s: State, s': State, p: Pid)
    requires p in s.proc && p in s'.proc && s'.proc[p] == s.proc[p] && PhaseOk(c, s, p)
    requires forall t :: t in s.status ==> t in s'.status && s'.status[t] == s.status[t]
    ensures PhaseOk(c, s', p)
  {
  }

  lemma CreateKeepsQueues(c: Config, s: State, p: Pid, u: Tid)
    requires Inv(c, s) && At(c, s, p, Create(u))
    ensures OneQueueEach(Do(c, s, p, Create(u))) && QueuedOk(c, Do(c, s, p, Create(u)))
      && ClaimsApart(c, Do(c, s, p, Create(u)))
  {
    var s' := Do(c, s, p, Create(u));
    assert OnNoQueue(s.queues, u);
    Appended(s, s', READY, u);
    forall r | r in s.proc
      ensures u !in Claims(c, s.proc[r])
    {
      assert PhaseOk(c, s, r);
    }
    ClaimsSame(c, s, s');
  }

  lemma CreateKeepsInv(c: Config, s: State, p: Pid, u: Tid)
    requires Inv(c, s) && At(c, s, p, Create(u))
    ensures Inv(c, Do(c, s, p, Create(u)))
  {
    CreateKeepsQueues(c, s, p, u);
    var s' := Do(c, s, p, Create(u));
    forall r | r in s.proc
      ensures PhaseOk(c, s', r)
    {
      PhaseFrame(c, s, s', r);
    }
  }

  lemma WaitOnKeepsQueues(c: Config, s: State, p: Pid, q: QueueId)
    requires Inv(c, s) && At(c, s, p, WaitOn(q))
    ensures OneQueueEach(Do(c, s, p, WaitOn(q))) && QueuedOk(c, Do(c, s, p, WaitOn(q)))
      && ClaimsApart(c, Do(c, s, p, WaitOn(q)))
  {
    var s', t := Do(c, s, p, WaitOn(q)), s.proc[p].t;
    assert PhaseOk(c, s, p) && t in Claims(c, s.proc[p]);
    assert OnNoQueue(s.queues, t);
    Appended(s, s', q, t);
    ClaimsMove(c, s, s', p, Park(t));
  }

  lemma WaitOnKeepsInv(c: Config, s: State, p: Pid, q: QueueId)
    requires Inv(c, s) && At(c, s, p, WaitOn(q))
    ensures Inv(c, Do(c, s, p, WaitOn(q)))
  {
    WaitOnKeepsQueues(c, s, p, q);
    var s', t := Do(c, s, p, WaitOn(q)), s.proc[p].t;
    assert PhaseOk(c, s, p);
    forall r | r in s.proc && r != p
      ensures PhaseOk(c, s', r)
    {
      PhaseFrame(c, s, s', r);
    }
    ExecMove(s, s', p, Park(t));
  }

  /** A thread that exits is executed by nobody else, and only blocked threads are looked at late. */
  lemma ExitKeepsOthers(c: Config, s: State, p: Pid, r: Pid)
    requires Inv(c, s) && At(c, s, p, Exit) && r in s.proc && r != p
    ensures PhaseOk(c, Do(c, s, p, Exit), r)
  {
    var t := s.proc[p].t;
    assert t in Claims(c, s.proc[p]) && t in Exec(s.proc[p]);
    assert PhaseOk(c, s, r) && t !in Claims(c, s.proc[r]) && t !in Exec(s.proc[r]);
  }

  lemma ExitKeepsInv(c: Config, s: State, p: Pid)
    requires Inv(c, s) && At(c, s, p, Exit)
    ensures Inv(c, Do(c, s, p, Exit))
  {
    var s', t := Do(c, s, p, Exit), s.proc[p].t;
    assert PhaseOk(c, s, p);
    ClaimsMove(c, s, s', p, Exiting(t));
    ExecMove(s, s', p, Exiting(t));
    BasesMove(c, s, s', p, Exiting(t));
    QueuedFrame(c, s, s');
    forall r | r in s.proc && r != p
      ensures PhaseOk(c, s', r)
    {
      ExitKeepsOthers(c, s, p, r);
    }
  }

  lemma Removed(s: State, s': State, q: QueueId)
    requires OneQueueEach(s) && q in s.queues && s.queues[q] != []
    requires s'.queues == s.queues[q := s.queues[q][1..]]
    ensures OneQueueEach(s') && OnNoQueue(s'.queues, s.queues[q][0])
    ensures forall r, u :: On(s'.queues, r, u) ==> On(s.queues, r, u)
  {
    var w := s.queues[q];
    assert w == w[..1] + w[1..];
    CutNoDuplicates(w[..1], w[1..]);
    assert w[0] in w[..1] && On(s.queues, q, w[0]);
    assert forall r, u :: On(s'.queues, r, u) ==> On(s.queues, r, u) && !(r == q && u == w[0]);
  }

  lemma UnblockMoves(c: Config, s: State, p: Pid, q: QueueId)
    requires Inv(c, s) && At(c, s, p, Unblock(q))
    ensures var s', u := Do(c, s, p, Unblock(q)), s.queues[q][0];
      && OneQueueEach(s') && On(s.queues, q, u)
      && forall r, t :: On(s'.queues, r, t) ==> t == u || On(s.queues, r, t)
  {
    var m := s.(queues := s.queues[q := s.queues[q][1..]]);
    Removed(s, m, q);
    Appended(m, Do(c, s, p, Unblock(q)), READY, s.queues[q][0]);
  }

  lemma UnblockKeepsQueues(c: Config, s: State, p: Pid, q: QueueId)
    requires Inv(c, s) && At(c, s, p, Unblock(q))
    ensures OneQueueEach(Do(c, s, p, Unblock(q))) && QueuedOk(c, Do(c, s, p, Unblock(q)))
      && ClaimsApart(c, Do(c, s, p, Unblock(q)))
  {
    var s', u := Do(c, s, p, Unblock(q)), s.queues[q][0];
    UnblockMoves(c, s, p, q);
    forall r: QueueId, t: Tid | On(s'.queues, r, t)
      ensures t in s.status && t < c.threads && forall x :: x in s.proc ==> t !in Claims(c, s.proc[x])
    {
      if t != u { assert On(s.queues, r, t); }
    }
    ClaimsSame(c, s, s');
  }

  lemma UnblockKeepsInv(c: Config, s: State, p: Pid, q: QueueId)
    requires Inv(c, s) && At(c, s, p, Unblock(q))
    ensures Inv(c, Do(c, s, p, Unblock(q)))
  {
    var s' := Do(c, s, p, Unblock(q));
    UnblockKeepsQueues(c, s, p, q);
    forall r | r in s.proc
      ensures PhaseOk(c, s', r)
    {
      PhaseFrame(c, s, s', r);
    }
  }

  lemma StopTakes(c: Config, s: State, p: Pid, how: How)
    requires Inv(c, s) && At(c, s, p, Stop(how))
    ensures var s', t := Do(c, s, p, Stop(how)), s.proc[p].t;
      && s'.proc[p] == Chosen(t, how, s'.proc[p].to) && s'.proc == s.proc[p := s'.proc[p]] && s'.status == s.status
      && var to := s'.proc[p].to;
      && to in s.status && OnNoQueue(s'.queues, to) && (!how.Blocks? ==> to != t)
      && (forall r :: r in s.proc ==> to !in Claims(c, s.proc[r]))
      && (to >= c.threads ==> to == c.Base(p) && t < c.threads)
      && OneQueueEach(s') && s'.queues.Keys == s.queues.Keys
      && forall r, u :: On(s'.queues, r, u) ==> On(s.queues, r, u)
  {
    var s', t := Do(c, s, p, Stop(how)), s.proc[p].t;
    assert PhaseOk(c, s, p);
    if s.queues[READY] != [] {
      assert On(s.queues, READY, s.queues[READY][0]);
      Removed(s, s', READY);
      assert !how.Blocks? ==> t in Claims(c, s.proc[p]);
    } else {
      var b := c.Base(p);
      assert OnNoQueue(s.queues, b);
      forall r | r in s.proc
        ensures b !in Claims(c, s.proc[r])
      {
        assert b in Claims(c, s.proc[r]) ==> b == c.Base(r);
      }
      assert s'.queues == s.queues && b in s.status;
    }
  }

  lemma StopKeepsClaims(c: Config, s: State, p: Pid, how: How)
    requires Inv(c, s) && At(c, s, p, Stop(how))
    ensures ClaimsApart(c, Do(c, s, p, Stop(how)))
  {
    StopTakes(c, s, p, how);
    var s' := Do(c, s, p, Stop(how));
    ClaimsMove(c, s, s', p, s'.proc[p]);
  }

  lemma StopKeepsExec(c: Config, s: State, p: Pid, how: How)
    requires Inv(c, s) && At(c, s, p, Stop(how))
    ensures OneProcessorEach(Do(c, s, p, Stop(how))) && BasesOk(c, Do(c, s, p, Stop(how)))
  {
    StopTakes(c, s, p, how);
    var s' := Do(c, s, p, Stop(how));
    ExecMove(s, s', p, s'.proc[p]);
    assert s.proc[p].t in Exec(s.proc[p]);
  }

  lemma StopKeepsInv(c: Config, s: State, p: Pid, how: How)
    requires Inv(c, s) && At(c, s, p, Stop(how))
    ensures Inv(c, Do(c, s, p, Stop(how)))
  {
    var s' := Do(c, s, p, Stop(how));
    StopTakes(c, s, p, how);
    StopKeepsClaims(c, s, p, how);
    StopKeepsExec(c, s, p, how);
    assert PhaseOk(c, s, p);
    forall r | r in s.proc && r != p
      ensures PhaseOk(c, s', r)
    {
      PhaseFrame(c, s, s', r);
    }
  }

  /**
    A thread that a processor executes outside `Check` and `Resume` is left by nobody else, in a sound
    configuration.
  */
  lemma NobodyElseLeft(c: Config, s: State, p: Pid, r: Pid, f: Tid, how: How)
    requires Inv(c, s) && Sound(c) && p in s.proc && r in s.proc && r != p
    requires s.proc[p].Chosen? && s.proc[p].t == f
    requires
      || (s.proc[r].Spin? && s.proc[r].t == f && s.proc[r].how == how)
      || (s.proc[r].Check? && s.proc[r].from == f && s.proc[r].how == how)
    ensures how.Blocks? && !s.proc[p].how.Yields?
  {
    assert PhaseOk(c, s, p) && PhaseOk(c, s, r);
    assert p < c.procs && r < c.procs;
    assert c.procs != 1;
  }

  lemma WriteKeepsClaims(c: Config, s: State, p: Pid)
    requires Inv(c, s) && At(c, s, p, Write)
    ensures ClaimsApart(c, Do(c, s, p, Write)) && OneProcessorEach(Do(c, s, p, Write))
  {
    var s' := Do(c, s, p, Write);
    var Chosen(t, how, to) := s.proc[p];
    ClaimsMove(c, s, s', p, Spin(t, how, to));
    ExecMove(s, s', p, Spin(t, how, to));
  }

  lemma WriteKeepsOthers(c: Config, s: State, p: Pid, r: Pid)
    requires Inv(c, s) && Sound(c) && At(c, s, p, Write) && r in s.proc && r != p
    ensures PhaseOk(c, Do(c, s, p, Write), r)
  {
    var Chosen(t, how, to) := s.proc[p];
    assert PhaseOk(c, s, p) && t in Exec(s.proc[p]);
    assert PhaseOk(c, s, r) && t !in Exec(s.proc[r]);
    if s.proc[r].Spin? && s.proc[r].t == t { NobodyElseLeft(c, s, p, r, t, s.proc[r].how); }
    if s.proc[r].Check? && s.proc[r].from == t { NobodyElseLeft(c, s, p, r, t, s.proc[r].how); }
  }

  lemma QueuedFrame(c: Config, s: State, s': State)
    requires QueuedOk(c, s) && s'.queues == s.queues && s.status.Keys <= s'.status.Keys
    ensures QueuedOk(c, s')
  {
  }

  lemma WriteKeepsBases(c: Config, s: State, p: Pid)
    requires Inv(c, s) && At(c, s, p, Write)
    ensures BasesOk(c, Do(c, s, p, Write)) && PhaseOk(c, Do(c, s, p, Write), p)
  {
    var s' := Do(c, s, p, Write);
    assert PhaseOk(c, s, p) && s.proc[p].t in Exec(s.proc[p]);
    BasesMove(c, s, s', p, s'.proc[p]);
  }

  lemma WriteKeepsInv(c: Config, s: State, p: Pid)
    requires Inv(c, s) && Sound(c) && At(c, s, p, Write)
    ensures Inv(c, Do(c, s, p, Write))
  {
    var s' := Do(c, s, p, Write);
    WriteKeepsClaims(c, s, p);
    forall r | r in s.proc && r != p
      ensures PhaseOk(c, s', r)
    {
      WriteKeepsOthers(c, s, p, r);
    }
    assert PhaseOk(c, s, p);
    WriteKeepsBases(c, s, p);
    QueuedFrame(c, s, s');
  }

  lemma JumpKeepsInv(c: Config, s: State, p: Pid)
    requires Inv(c, s) && At(c, s, p, Jump)
    ensures Inv(c, Do(c, s, p, Jump))
  {
    var s' := Do(c, s, p, Jump);
    var Spin(t, how, to) := s.proc[p];
    assert PhaseOk(c, s, p) && to in Claims(c, s.proc[p]);
    ClaimsMove(c, s, s', p, Check(t, how, to));
    forall r | r in s.proc && r != p
      ensures PhaseOk(c, s', r) && to !in Exec(s.proc[r])
    {
      PhaseFrame(c, s, s', r);
      assert to !in Claims(c, s.proc[r]);
    }
    ExecMove(s, s', p, Check(t, how, to));
  }

  lemma LookKeepsQueues(c: Config, s: State, p: Pid)
    requires Inv(c, s) && At(c, s, p, Look)
    ensures var s' := Do(c, s, p, Look);
      OneQueueEach(s') && forall q: QueueId, u: Tid :: On(s'.queues, q, u) ==>
        (s.proc[p].how.Yields? && u == s.proc[p].from && u in s.status && u < c.threads) || On(s.queues, q, u)
  {
    var Check(f, how, t) := s.proc[p];
    assert PhaseOk(c, s, p);
    if how.Yields? {
      assert f in Claims(c, s.proc[p]) && OnNoQueue(s.queues, f);
      Appended(s, Do(c, s, p, Look), READY, f);
    }
  }

  lemma LookKeepsClaims(c: Config, s: State, p: Pid)
    requires Inv(c, s) && At(c, s, p, Look)
    ensures ClaimsApart(c, Do(c, s, p, Look)) && QueuedOk(c, Do(c, s, p, Look))
  {
    var s' := Do(c, s, p, Look);
    LookKeepsQueues(c, s, p);
    assert PhaseOk(c, s, p) && s.proc[p].t in Claims(c, s.proc[p]);
    assert s.proc[p].how.Yields? ==> s.proc[p].from in Claims(c, s.proc[p]);
    ClaimsMove(c, s, s', p, Resume(s.proc[p].t));
  }

  lemma LookKeepsBases(c: Config, s: State, p: Pid)
    requires Inv(c, s) && At(c, s, p, Look)
    ensures OneProcessorEach(Do(c, s, p, Look)) && BasesOk(c, Do(c, s, p, Look))
  {
    var s' := Do(c, s, p, Look);
    ExecMove(s, s', p, s'.proc[p]);
    BasesMove(c, s, s', p, s'.proc[p]);
  }

  /** Marking a dying thread dead does not concern any other processor. */
  lemma LookKeepsOthers(c: Config, s: State, p: Pid, r: Pid)
    requires Inv(c, s) && At(c, s, p, Look) && r in s.proc && r != p
    ensures PhaseOk(c, Do(c, s, p, Look), r)
  {
    assert PhaseOk(c, s, p) && PhaseOk(c, s, r);
  }

  lemma LookKeepsPhases(c: Config, s: State, p: Pid)
    requires Inv(c, s) && At(c, s, p, Look)
    ensures PhasesOk(c, Do(c, s, p, Look))
  {
    assert PhaseOk(c, s, p);
    forall r | r in s.proc && r != p
      ensures PhaseOk(c, Do(c, s, p, Look), r)
    {
      LookKeepsOthers(c, s, p, r);
    }
  }

  lemma LookKeepsInv(c: Config, s: State, p: Pid)
    requires Inv(c, s) && At(c, s, p, Look)
    ensures Inv(c, Do(c, s, p, Look))
  {
    LookKeepsQueues(c, s, p);
    LookKeepsClaims(c, s, p);
    LookKeepsPhases(c, s, p);
    LookKeepsBases(c, s, p);
  }

  lemma GoKeepsClaims(c: Config, s: State, p: Pid)
    requires Inv(c, s) && At(c, s, p, Go)
    ensures ClaimsApart(c, Do(c, s, p, Go)) && OneProcessorEach(Do(c, s, p, Go)) && BasesOk(c, Do(c, s, p, Go))
  {
    var s', t := Do(c, s, p, Go), s.proc[p].t;
    BasesMove(c, s, s', p, Run(t));
    ClaimsMove(c, s, s', p, Run(t));
    ExecMove(s, s', p, Run(t));
  }

  lemma GoKeepsOthers(c: Config, s: State, p: Pid, r: Pid)
    requires Inv(c, s) && At(c, s, p, Go) && r in s.proc && r != p
    ensures PhaseOk(c, Do(c, s, p, Go), r)
  {
    var t := s.proc[p].t;
    assert t in Claims(c, s.proc[p]) && t in Exec(s.proc[p]);
    assert PhaseOk(c, s, r) && t !in Claims(c, s.proc[r]) && t !in Exec(s.proc[r]);
  }

  lemma GoKeepsInv(c: Config, s: State, p: Pid)
    requires Inv(c, s) && At(c, s, p, Go)
    ensures Inv(c, Do(c, s, p, Go))
  {
    GoKeepsClaims(c, s, p);
    var s' := Do(c, s, p, Go);
    forall r | r in s.proc && r != p
      ensures PhaseOk(c, s', r)
    {
      GoKeepsOthers(c, s, p, r);
    }
    QueuedFrame(c, s, s');
    assert PhaseOk(c, s, p);
  }

  lemma StepKeepsInv(c: Config, s: State, p: Pid, a: Action)
    requires Inv(c, s) && Sound(c) && At(c, s, p, a)
    ensures Inv(c, Do(c, s, p, a))
  {
    match a
    case Create(u) => CreateKeepsInv(c, s, p, u);
    case WaitOn(q) => WaitOnKeepsInv(c, s, p, q);
    case Unblock(q) => UnblockKeepsInv(c, s, p, q);
    case Exit => ExitKeepsInv(c, s, p);
    case Stop(how) => StopKeepsInv(c, s, p, how);
    case Write => WriteKeepsInv(c, s, p);
    case Jump => JumpKeepsInv(c, s, p);
    case Look => LookKeepsInv(c, s, p);
    case Go => GoKeepsInv(c, s, p);
  }

  lemma InitPhases(c: Config, s: State)
    requires Init(c, s)
    ensures PhasesOk(c, s)
  {
    forall p | p in s.proc
      ensures PhaseOk(c, s, p)
    {
      assert s.proc[p].t in s.status;
    }
  }

  lemma InitBases(c: Config, s: State)
    requires Init(c, s)
    ensures BasesOk(c, s) && QueuedOk(c, s)
  {
  }

  lemma InitApart(c: Config, s: State)
    requires Init(c, s)
    ensures ClaimsApart(c, s) && Once(s)
  {
  }

  lemma InitOk(c: Config, s: State)
    requires Init(c, s)
    ensures Inv(c, s)
  {
    InitPhases(c, s);
    InitBases(c, s);
    InitApart(c, s);
  }

  // ---------- nobody is lost ----------

  /** A step that only moves processor `p` on, and takes nothing off the queues but what it then claims. */
  lemma KeptFrame(c: Config, s: State, s': State, p: Pid, t: Tid)
    requires Kept(c, s, t) && p in s.proc && s'.proc.Keys == s.proc.Keys
    requires forall r :: r in s.proc && r != p ==> s'.proc[r] == s.proc[r]
    requires t in Claims(c, s.proc[p]) ==> t in Claims(c, s'.proc[p]) || exists q :: On(s'.queues, q, t)
    requires forall q :: On(s.queues, q, t) ==> t in Claims(c, s'.proc[p]) || exists r :: On(s'.queues, r, t)
    ensures Kept(c, s', t)
  {
    if q :| On(s.queues, q, t) {
    } else {
      var r :| r in s.proc && t in Claims(c, s.proc[r]);
      assert r != p ==> t in Claims(c, s'.proc[r]);
    }
  }

  lemma AppendedOn(s: State, s': State, q: QueueId, t: Tid)
    requires q in s.queues && s'.queues == s.queues[q := s.queues[q] + [t]]
    ensures On(s'.queues, q, t) && forall r, u :: On(s.queues, r, u) ==> On(s'.queues, r, u)
  {
  }

  lemma CreateKeepsThreads(c: Config, s: State, p: Pid, u: Tid)
    requires Inv(c, s) && NobodyLost(c, s) && At(c, s, p, Create(u))
    ensures NobodyLost(c, Do(c, s, p, Create(u)))
  {
    var s' := Do(c, s, p, Create(u));
    assert OnNoQueue(s.queues, u);
    Appended(s, s', READY, u);
    AppendedOn(s, s', READY, u);
    forall t: Tid | t in s'.status && t < c.threads && !IsGone(s'.status[t])
      ensures Kept(c, s', t)
    {
      if t != u { KeptFrame(c, s, s', p, t); }
    }
  }

  /** A new thread is the last ready one, and a thread that is about to block the last in its queue. */
  lemma JoinsAtTheEnd(c: Config, s: State, p: Pid, a: Action)
    requires Inv(c, s) && At(c, s, p, a) && (a.Create? || a.WaitOn?)
    ensures Do(c, s, p, a).queues ==
      if a.Create? then s.queues[READY := s.queues[READY] + [a.u]] else s.queues[a.q := s.queues[a.q] + [s.proc[p].t]]
  {
    if a.Create? {
      assert OnNoQueue(s.queues, a.u);
      Appended(s, Do(c, s, p, a), READY, a.u);
    } else {
      assert s.proc[p].t in Claims(c, s.proc[p]) && OnNoQueue(s.queues, s.proc[p].t);
      Appended(s, Do(c, s, p, a), a.q, s.proc[p].t);
    }
  }

  lemma WaitOnKeepsThreads(c: Config, s: State, p: Pid, q: QueueId)
    requires Inv(c, s) && NobodyLost(c, s) && At(c, s, p, WaitOn(q))
    ensures NobodyLost(c, Do(c, s, p, WaitOn(q)))
  {
    var s', u := Do(c, s, p, WaitOn(q)), s.proc[p].t;
    assert u in Claims(c, s.proc[p]) && OnNoQueue(s.queues, u);
    Appended(s, s', q, u);
    AppendedOn(s, s', q, u);
    forall t: Tid | t in s'.status && t < c.threads && !IsGone(s'.status[t])
      ensures Kept(c, s', t)
    {
      KeptFrame(c, s, s', p, t);
    }
  }

  /** The first thread moves to the end of the ready queue. */
  lemma UnblockOrder(c: Config, s: State, p: Pid, q: QueueId)
    requires Inv(c, s) && At(c, s, p, Unblock(q))
    ensures var s', w := Do(c, s, p, Unblock(q)), s.queues[q];
      s'.queues == s.queues[q := w[1..]][READY := s.queues[READY] + [w[0]]]
  {
    var m := s.(queues := s.queues[q := s.queues[q][1..]]);
    Removed(s, m, q);
    Appended(m, Do(c, s, p, Unblock(q)), READY, s.queues[q][0]);
  }

  lemma UnblockKeepsThreads(c: Config, s: State, p: Pid, q: QueueId)
    requires Inv(c, s) && NobodyLost(c, s) && At(c, s, p, Unblock(q))
    ensures NobodyLost(c, Do(c, s, p, Unblock(q)))
  {
    var s', w := Do(c, s, p, Unblock(q)), s.queues[q];
    UnblockOrder(c, s, p, q);
    forall t: Tid | t in s'.status && t < c.threads && !IsGone(s'.status[t])
      ensures Kept(c, s', t)
    {
      forall r | On(s.queues, r, t)
        ensures exists x :: On(s'.queues, x, t)
      {
        assert w == [w[0]] + w[1..];
        assert if r == READY || t == w[0] then On(s'.queues, READY, t) else On(s'.queues, r, t);
      }
      KeptFrame(c, s, s', p, t);
    }
  }

  /** The thread chosen is the first ready one, or the base thread when there is none. */
  lemma StopTakesFirst(c: Config, s: State, p: Pid, how: How)
    requires At(c, s, p, Stop(how))
    ensures var s', ready := Do(c, s, p, Stop(how)), s.queues[READY];
      && s'.proc[p].Chosen? && s'.proc[p].t == s.proc[p].t
      && (ready == [] ==> s'.proc[p].to == c.Base(p) && s'.queues == s.queues)
      && (ready != [] ==>
        && [s'.proc[p].to] + s'.queues[READY] == ready
        && s'.queues == s.queues[READY := s'.queues[READY]])
  {
  }

  lemma StopKeepsThreads(c: Config, s: State, p: Pid, how: How)
    requires Inv(c, s) && NobodyLost(c, s) && At(c, s, p, Stop(how))
    ensures NobodyLost(c, Do(c, s, p, Stop(how)))
  {
    var s' := Do(c, s, p, Stop(how));
    StopTakesFirst(c, s, p, how);
    forall t: Tid | t in s'.status && t < c.threads && !IsGone(s'.status[t])
      ensures Kept(c, s', t)
    {
      forall r | On(s.queues, r, t)
        ensures t in Claims(c, s'.proc[p]) || exists x :: On(s'.queues, x, t)
      {
        assert t == s'.proc[p].to || On(s'.queues, r, t);
      }
      KeptFrame(c, s, s', p, t);
    }
  }

  /** A thread that has yielded is ready after the look, behind all threads that were ready before. */
  lemma YieldedIsReady(c: Config, s: State, p: Pid)
    requires Inv(c, s) && At(c, s, p, Look)
    ensures Do(c, s, p, Look).queues ==
      if s.proc[p].how.Yields? then s.queues[READY := s.queues[READY] + [s.proc[p].from]] else s.queues
  {
    var Check(f, how, t) := s.proc[p];
    assert PhaseOk(c, s, p);
    if how.Yields? {
      assert f in Claims(c, s.proc[p]) && OnNoQueue(s.queues, f);
      Appended(s, Do(c, s, p, Look), READY, f);
    }
  }

  /** The thread that was left, unless it blocked or exited, is ready; the one switched to is still claimed. */
  lemma LookKeepsClaimed(c: Config, s: State, p: Pid, t: Tid)
    requires Inv(c, s) && At(c, s, p, Look) && t in Claims(c, s.proc[p]) && t in s.status && !IsGone(s.status[t])
    ensures Kept(c, Do(c, s, p, Look), t)
  {
    var s', f := Do(c, s, p, Look), s.proc[p].from;
    YieldedIsReady(c, s, p);
    assert PhaseOk(c, s, p);
    if s.proc[p].how.Yields? && t == f {
      AppendedOn(s, s', READY, f);
    } else {
      assert p in s'.proc && t in Claims(c, s'.proc[p]);
    }
  }

  lemma LookKeepsThread(c: Config, s: State, p: Pid, t: Tid)
    requires Inv(c, s) && At(c, s, p, Look) && Kept(c, s, t) && t in s.status && !IsGone(s.status[t])
    ensures Kept(c, Do(c, s, p, Look), t)
  {
    var s' := Do(c, s, p, Look);
    if t in Claims(c, s.proc[p]) {
      LookKeepsClaimed(c, s, p, t);
    } else {
      YieldedIsReady(c, s, p);
      if s.proc[p].how.Yields? { AppendedOn(s, s', READY, s.proc[p].from); }
      KeptFrame(c, s, s', p, t);
    }
  }

  lemma LookKeepsThreads(c: Config, s: State, p: Pid)
    requires Inv(c, s) && NobodyLost(c, s) && At(c, s, p, Look)
    ensures NobodyLost(c, Do(c, s, p, Look))
  {
    var s' := Do(c, s, p, Look);
    assert PhaseOk(c, s, p);
    forall t: Tid | t in s'.status && t < c.threads && !IsGone(s'.status[t])
      ensures Kept(c, s', t)
    {
      LookKeepsThread(c, s, p, t);
    }
  }

  /** The other steps give up no thread that has not exited. */
  lemma OtherStepsKeepThread(c: Config, s: State, p: Pid, a: Action, t: Tid)
    requires At(c, s, p, a) && (a.Exit? || a.Write? || a.Jump? || a.Go?) && Kept(c, s, t)
    ensures Kept(c, Do(c, s, p, a), t)
  {
    KeptFrame(c, s, Do(c, s, p, a), p, t);
  }

  lemma OtherStepsKeepThreads(c: Config, s: State, p: Pid, a: Action)
    requires Inv(c, s) && NobodyLost(c, s) && At(c, s, p, a) && (a.Exit? || a.Write? || a.Jump? || a.Go?)
    ensures NobodyLost(c, Do(c, s, p, a))
  {
    var s' := Do(c, s, p, a);
    assert PhaseOk(c, s, p);
    forall t: Tid | t in s'.status && t < c.threads && !IsGone(s'.status[t])
      ensures Kept(c, s', t)
    {
      if !IsGone(s.status[t]) {
        OtherStepsKeepThread(c, s, p, a, t);
      } else {
        assert p in s'.proc && t in Claims(c, s'.proc[p]);
      }
    }
  }

  lemma StepKeepsThreads(c: Config, s: State, p: Pid, a: Action)
    requires Inv(c, s) && NobodyLost(c, s) && At(c, s, p, a)
    ensures NobodyLost(c, Do(c, s, p, a))
  {
    match a
    case Create(u) => CreateKeepsThreads(c, s, p, u);
    case WaitOn(q) => WaitOnKeepsThreads(c, s, p, q);
    case Unblock(q) => UnblockKeepsThreads(c, s, p, q);
    case Stop(how) => StopKeepsThreads(c, s, p, how);
    case Look => LookKeepsThreads(c, s, p);
    case _ => OtherStepsKeepThreads(c, s, p, a);
  }

  lemma InitLosesNobody(c: Config, s: State)
    requires Init(c, s)
    ensures NobodyLost(c, s)
  {
    assert 0 in s.proc && 0 in Claims(c, s.proc[0]);
  }

  /** With one processor, or without yields, or without blocking, every run is safe. */
  lemma SoundIsSafe(c: Config)
    requires Sound(c)
    ensures AlwaysSafe(c)
  {
    forall run | IsRun(Starts(c), Steps(c), run)
      ensures forall i :: 0 <= i < |run| ==> Safe(c, run[i])
    {
      var inv := (s: State) => Inv(c, s) && NobodyLost(c, s);
      forall s | Starts(c)(s)
        ensures inv(s)
      {
        InitOk(c, s);
        InitLosesNobody(c, s);
      }
      forall s, s' | inv(s) && Steps(c)(s, s')
        ensures inv(s')
      {
        var p, a :| At(c, s, p, a) && s' == Do(c, s, p, a);
        StepKeepsInv(c, s, p, a);
        StepKeepsThreads(c, s, p, a);
      }
      InvariantAlways(Starts(c), Steps(c), inv, run);
      assert forall i :: 0 <= i < |run| ==> inv(run[i]);
    }
  }

  // ---------- every other configuration has an unsafe run ----------

  ghost predicate Reachable(c: Config, s: State)
  {
    IsReachable(Starts(c), Steps(c), s)
  }

  lemma Reach(c: Config, s: State, p: Pid, a: Action, s': State)
    requires Reachable(c, s) && At(c, s, p, a) && s' == Do(c, s, p, a)
    ensures Reachable(c, s')
  {
    assert Steps(c)(s, s');
    StepIsReachable(Starts(c), Steps(c), s, s');
  }

  /** The states of the race: two processors and two threads move, one waiter queue is used. */
  ghost function Procs(c: Config, x: Phase, y: Phase): map<Pid, Phase>
  {
    map p | 0 <= p < c.procs :: if p == 0 then x else if p == 1 then y else Run(c.Base(p))
  }

  predicate IsBorn(c: Config, t: Tid)
  {
    t <= 1 || t >= c.threads
  }

  /** The states of threads 0 and 1 and of the base thread of processor 1. */
  ghost function Statuses(c: Config, s0: Status, s1: Status, sb: Status): map<Tid, Status>
  {
    map t | 0 <= t < c.threads + c.procs && IsBorn(c, t) ::
      if t == 0 then s0 else if t == 1 then s1
      else if t == c.Base(1) then sb else if t == c.Base(0) then Nascent else Running
  }

  function Queues(ready: seq<Tid>, w: seq<Tid>): map<QueueId, seq<Tid>>
  {
    map[READY := ready, 1 := w]
  }

  ghost function S(c: Config, x: Phase, y: Phase, s0: Status, s1: Status, sb: Status, ready: seq<Tid>,
    w: seq<Tid>): State
  {
    State(Procs(c, x, y), Statuses(c, s0, s1, sb), Queues(ready, w))
  }

  ghost predicate Racy(c: Config)
  {
    c.procs >= 2 && c.threads >= 2 && c.mayYield && c.mayBlock
  }

  /** Changing one coordinate of such a state. */
  lemma SetProc(c: Config, x: Phase, y: Phase, z: Phase)
    requires Racy(c)
    ensures Procs(c, x, y)[0 := z] == Procs(c, z, y)
    ensures Procs(c, x, y)[1 := z] == Procs(c, x, z)
  {
  }

  lemma SetStatus(c: Config, s0: Status, s1: Status, sb: Status, v: Status)
    requires Racy(c)
    ensures Statuses(c, s0, s1, sb)[0 := v] == Statuses(c, v, s1, sb)
    ensures Statuses(c, s0, s1, sb)[1 := v] == Statuses(c, s0, v, sb)
  {
  }

  lemma SetBaseStatus(c: Config, s0: Status, s1: Status, sb: Status, v: Status)
    requires Racy(c)
    ensures Statuses(c, s0, s1, sb)[c.Base(1) := v] == Statuses(c, s0, s1, v)
  {
  }

  lemma SetQueues(t: Tid, w: seq<Tid>)
    ensures EnqueueOn(Queues([], []), READY, t) == Queues([t], [])
    ensures EnqueueOn(Queues([], []), 1, t) == Queues([], [t])
    ensures Queues([t], w)[READY := [t][1..]] == Queues([], w)
    ensures Queues([], [t])[1 := [t][1..]] == Queues([], [])
  {
    assert [t][1..] == [];
    assert [] + [t] == [t];
    var queues := Queues([], []);
    assert forall r: QueueId :: !On(queues, r, t);
    assert !SeemsEnqueued(queues, READY, t) && !SeemsEnqueued(queues, 1, t);
  }

  lemma Choose0(c: Config, t: Tid, u: Tid, y: Phase, s0: Status, s1: Status, sb: Status)
    requires Racy(c) && t + u == 1 && Reachable(c, S(c, Run(t), y, s0, s1, sb, [u], []))
    ensures Reachable(c, S(c, Chosen(t, Yields, u), y, s0, s1, sb, [], []))
  {
    SetProc(c, Run(t), y, Chosen(t, Yields, u));
    SetQueues(u, []);
    Reach(c, S(c, Run(t), y, s0, s1, sb, [u], []), 0, Stop(Yields), S(c, Chosen(t, Yields, u), y, s0, s1, sb, [], []));
  }

  lemma Write0(c: Config, t: Tid, u: Tid, y: Phase, s0: Status, s1: Status, sb: Status)
    requires Racy(c) && t <= 1 && Reachable(c, S(c, Chosen(t, Yields, u), y, s0, s1, sb, [], []))
    ensures Reachable(c,
      S(c, Spin(t, Yields, u), y, if t == 0 then Runable else s0, if t == 1 then Runable else s1, sb, [], []))
  {
    var before := S(c, Chosen(t, Yields, u), y, s0, s1, sb, [], []);
    var after :=
      S(c, Spin(t, Yields, u), y, if t == 0 then Runable else s0, if t == 1 then Runable else s1, sb, [], []);
    SetProc(c, Chosen(t, Yields, u), y, Spin(t, Yields, u));
    SetStatus(c, s0, s1, sb, Runable);
    assert after.status == before.status[t := Runable] && after.proc == before.proc[0 := Spin(t, Yields, u)];
    Reach(c, before, 0, Write, after);
  }

  lemma Jump0(c: Config, t: Tid, u: Tid, y: Phase, s0: Status, s1: Status, sb: Status)
    requires Racy(c) && u <= 1 && Reachable(c, S(c, Spin(t, Yields, u), y, s0, s1, sb, [], []))
    requires (if u == 0 then s0 else s1) != Running
    ensures Reachable(c, S(c, Check(t, Yields, u), y, s0, s1, sb, [], []))
  {
    SetProc(c, Spin(t, Yields, u), y, Check(t, Yields, u));
    Reach(c, S(c, Spin(t, Yields, u), y, s0, s1, sb, [], []), 0, Jump,
      S(c, Check(t, Yields, u), y, s0, s1, sb, [], []));
  }

  /** Processor 0 leaves thread `t`, which yields, for `u`, the only ready thread, and is about to look at `t`. */
  lemma Leave0(c: Config, t: Tid, u: Tid, y: Phase, s0: Status, s1: Status, sb: Status)
    requires Racy(c) && t + u == 1 && Reachable(c, S(c, Run(t), y, s0, s1, sb, [u], []))
    requires (if u == 0 then s0 else s1) != Running
    ensures Reachable(c,
      S(c, Check(t, Yields, u), y, if t == 0 then Runable else s0, if t == 1 then Runable else s1, sb, [], []))
  {
    Choose0(c, t, u, y, s0, s1, sb);
    Write0(c, t, u, y, s0, s1, sb);
    Jump0(c, t, u, y, if t == 0 then Runable else s0, if t == 1 then Runable else s1, sb);
  }

  /** Processor 0 finds the thread it left runnable, enqueues it, and runs the other. */
  lemma Arrive0(c: Config, t: Tid, u: Tid, y: Phase, s0: Status, s1: Status, sb: Status)
    requires Racy(c) && t + u == 1 && Reachable(c, S(c, Check(t, Yields, u), y, s0, s1, sb, [], []))
    requires (if t == 0 then s0 else s1) == Runable
    ensures Reachable(c, S(c, Run(u), y, if u == 0 then Running else s0, if u == 1 then Running else s1, sb, [t], []))
  {
    SetProc(c, Check(t, Yields, u), y, Resume(u));
    SetQueues(t, []);
    Reach(c, S(c, Check(t, Yields, u), y, s0, s1, sb, [], []), 0, Look, S(c, Resume(u), y, s0, s1, sb, [t], []));
    SetProc(c, Resume(u), y, Run(u));
    SetStatus(c, s0, s1, sb, Running);
    Reach(c, S(c, Resume(u), y, s0, s1, sb, [t], []), 0, Go,
          S(c, Run(u), y, if u == 0 then Running else s0, if u == 1 then Running else s1, sb, [t], []));
  }

  /** Processor 1 leaves its base thread for thread 1, the only ready thread. */
  lemma LeaveBase1(c: Config, x: Phase, s0: Status, s1: Status)
    requires Racy(c) && s1 != Running && Reachable(c, S(c, x, Run(c.Base(1)), s0, s1, Running, [1], []))
    ensures Reachable(c, S(c, x, Check(c.Base(1), Blocks, 1), s0, s1, Blocked, [], []))
  {
    var b := c.Base(1);
    SetProc(c, x, Run(b), Chosen(b, Blocks, 1));
    SetQueues(1, []);
    Reach(c, S(c, x, Run(b), s0, s1, Running, [1], []), 1, Stop(Blocks),
      S(c, x, Chosen(b, Blocks, 1), s0, s1, Running, [], []));
    SetProc(c, x, Chosen(b, Blocks, 1), Spin(b, Blocks, 1));
    SetBaseStatus(c, s0, s1, Running, Blocked);
    Reach(c, S(c, x, Chosen(b, Blocks, 1), s0, s1, Running, [], []), 1, Write,
      S(c, x, Spin(b, Blocks, 1), s0, s1, Blocked, [], []));
    SetProc(c, x, Spin(b, Blocks, 1), Check(b, Blocks, 1));
    Reach(c, S(c, x, Spin(b, Blocks, 1), s0, s1, Blocked, [], []), 1, Jump,
      S(c, x, Check(b, Blocks, 1), s0, s1, Blocked, [], []));
  }

  lemma RaceStarts(c: Config)
    requires Racy(c)
    ensures Reachable(c, S(c, Run(0), Run(c.Base(1)), Running, Nascent, Running, [1], []))
  {
    var s0 := State(Procs(c, Run(0), Run(c.Base(1))),
      map t | 0 <= t < c.threads + c.procs && IsInitial(c, t) :: if t == c.Base(0) then Nascent else Running,
      Queues([], []));
    assert Init(c, s0);
    InitialIsReachable(Starts(c), Steps(c), s0);
    SetQueues(1, []);
    assert s0.status[1 := Nascent] == Statuses(c, Running, Nascent, Running);
    Reach(c, s0, 0, Create(1), S(c, Run(0), Run(c.Base(1)), Running, Nascent, Running, [1], []));
  }

  /** Thread 1 runs on processor 1, queues itself and blocks; processor 1 is about to look at its state. */
  lemma RaceParks(c: Config)
    requires Racy(c)
    ensures Reachable(c, S(c, Run(0), Check(1, Blocks, c.Base(1)), Running, Blocked, Blocked, [], [1]))
  {
    var x, b := Run(0), c.Base(1);
    RaceStarts(c);
    LeaveBase1(c, x, Running, Nascent);
    SetProc(c, x, Check(b, Blocks, 1), Resume(1));
    Reach(c, S(c, x, Check(b, Blocks, 1), Running, Nascent, Blocked, [], []), 1, Look,
      S(c, x, Resume(1), Running, Nascent, Blocked, [], []));
    SetProc(c, x, Resume(1), Run(1));
    SetStatus(c, Running, Nascent, Blocked, Running);
    Reach(c, S(c, x, Resume(1), Running, Nascent, Blocked, [], []), 1, Go,
      S(c, x, Run(1), Running, Running, Blocked, [], []));
    RaceBlocks(c);
  }

  lemma RaceBlocks(c: Config)
    requires Racy(c) && Reachable(c, S(c, Run(0), Run(1), Running, Running, Blocked, [], []))
    ensures Reachable(c, S(c, Run(0), Check(1, Blocks, c.Base(1)), Running, Blocked, Blocked, [], [1]))
  {
    var x, b := Run(0), c.Base(1);
    SetProc(c, x, Run(1), Park(1));
    SetQueues(1, []);
    Reach(c, S(c, x, Run(1), Running, Running, Blocked, [], []), 1, WaitOn(1),
      S(c, x, Park(1), Running, Running, Blocked, [], [1]));
    SetProc(c, x, Park(1), Chosen(1, Blocks, b));
    Reach(c, S(c, x, Park(1), Running, Running, Blocked, [], [1]), 1, Stop(Blocks),
          S(c, x, Chosen(1, Blocks, b), Running, Running, Blocked, [], [1]));
    SetProc(c, x, Chosen(1, Blocks, b), Spin(1, Blocks, b));
    SetStatus(c, Running, Running, Blocked, Blocked);
    Reach(c, S(c, x, Chosen(1, Blocks, b), Running, Running, Blocked, [], [1]), 1, Write,
          S(c, x, Spin(1, Blocks, b), Running, Blocked, Blocked, [], [1]));
    SetProc(c, x, Spin(1, Blocks, b), Check(1, Blocks, b));
    Reach(c, S(c, x, Spin(1, Blocks, b), Running, Blocked, Blocked, [], [1]), 1, Jump,
          S(c, x, Check(1, Blocks, b), Running, Blocked, Blocked, [], [1]));
  }

  /** Thread 0 wakes thread 1 and yields to it on processor 0; thread 1 then yields in turn. */
  lemma RaceMoves(c: Config)
    requires Racy(c)
    ensures Reachable(c, S(c, Check(1, Yields, 0), Check(1, Blocks, c.Base(1)), Runable, Runable, Blocked, [], []))
  {
    var late := Check(1, Blocks, c.Base(1));
    RaceParks(c);
    SetQueues(1, []);
    Reach(c, S(c, Run(0), late, Running, Blocked, Blocked, [], [1]), 0, Unblock(1),
      S(c, Run(0), late, Running, Blocked, Blocked, [1], []));
    Leave0(c, 0, 1, late, Running, Blocked, Blocked);
    Arrive0(c, 0, 1, late, Runable, Blocked, Blocked);
    Leave0(c, 1, 0, late, Runable, Running, Blocked);
  }

  /** Processor 1 looks late and enqueues thread 1, which processor 0 has just left. */
  lemma RaceLate(c: Config)
    requires Racy(c)
    requires Reachable(c,
      S(c, Check(1, Yields, 0), Check(1, Blocks, c.Base(1)), Runable, Runable, Blocked, [], []))
    ensures Reachable(c, S(c, Check(1, Yields, 0), Run(c.Base(1)), Runable, Runable, Running, [1], []))
  {
    var x, b := Check(1, Yields, 0), c.Base(1);
    SetProc(c, x, Check(1, Blocks, b), Resume(b));
    SetQueues(1, []);
    Reach(c, S(c, x, Check(1, Blocks, b), Runable, Runable, Blocked, [], []), 1, Look,
      S(c, x, Resume(b), Runable, Runable, Blocked, [1], []));
    SetProc(c, x, Resume(b), Run(b));
    SetBaseStatus(c, Runable, Runable, Blocked, Running);
    Reach(c, S(c, x, Resume(b), Runable, Runable, Blocked, [1], []), 1, Go,
      S(c, x, Run(b), Runable, Runable, Running, [1], []));
  }

  /**
    Processor 1 looks at the state it left behind long ago, finds thread 1 runnable, and enqueues and
    runs it.  Processor 0 looks at the same state, enqueues thread 1 a second time, and runs it too.
  */
  lemma RaceHappens(c: Config)
    requires Racy(c)
    ensures exists s :: Reachable(c, s) && !Safe(c, s)
  {
    var b := c.Base(1);
    RaceMoves(c);
    RaceLate(c);
    LeaveBase1(c, Check(1, Yields, 0), Runable, Runable);
    Arrive0(c, 1, 0, Check(b, Blocks, 1), Runable, Runable, Blocked);
    Leave0(c, 0, 1, Check(b, Blocks, 1), Running, Runable, Blocked);
    var s := S(c, Check(0, Yields, 1), Check(b, Blocks, 1), Runable, Runable, Blocked, [], []);
    assert 1 in Exec(s.proc[0]) && 1 in Exec(s.proc[1]);
  }

  /**
    The library's promise that a thread is executed by one processor at a time and is on one queue at a
    time holds in every run exactly when there is one processor, or nobody yields, or nobody blocks.
  */
  lemma SafeExactlyWhenSound(c: Config)
    requires c.procs >= 1 && c.threads >= 2
    ensures AlwaysSafe(c) <==> c.procs == 1 || !c.mayYield || !c.mayBlock
  {
    if Sound(c) {
      SoundIsSafe(c);
    } else {
      RaceHappens(c);
      var s :| Reachable(c, s) && !Safe(c, s);
      var run :| IsRun(Starts(c), Steps(c), run) && run[|run| - 1] == s;
      assert !Safe(c, run[|run| - 1]);
    }
  }
}
