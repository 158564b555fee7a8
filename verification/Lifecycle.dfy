/**
  The life of a thread control block: exit, reaping, join and detach (a10/uthreads/uthread.c, lines
  544-570 and 651-686).
*/
module ControlBlock {
  import opened Common

  /** `Live` stands for every state before the start procedure has returned. */
  datatype Status = Live | Dying | Dead

  /** The `joiner` field: 0, -1, or the thread that waits. */
  datatype Joiner = Nobody | Disowned | Waiter

  datatype Block = Block(status: Status, joiner: Joiner, returnVal: Option<int>)

  /** The exiting thread announces that it is dying. */
  function Exited(b: Block): Block
  {
    b.(status := Dying)
  }

  /** The processor that left a dying thread frees its block if it is disowned, else marks it dead. */
  function Reaped(b: Block): Block
  {
    if b.joiner == Disowned then b else b.(status := Dead)
  }

  predicate ReapFrees(b: Block)
  {
    b.joiner == Disowned
  }

  predicate MustPark(b: Block)
  {
    b.status != Dying && b.status != Dead
  }

  /** The last part of `uthread_join`: free the block of a dead thread, else disown it. */
  function JoinEnded(b: Block): Block
  {
    if b.status == Dead then b else b.(joiner := Disowned)
  }

  function Detached(b: Block): Block
  {
    if b.status != Dead then b.(joiner := Disowned) else b
  }

  predicate EndFrees(b: Block)
  {
    b.status == Dead
  }

  /** The record, updated in place under its join spinlock. */
  class UthreadTcb {
    var status: Status
    var joiner: Joiner
    var returnVal: Option<int>

    function Value(): Block
      reads this
    {
      Block(status, joiner, returnVal)
    }

    constructor ()
      ensures Value() == Block(Live, Nobody, None)
    {
      status := Live;
      joiner := Nobody;
      returnVal := None;
    }

    method Exit() returns (wakes: bool)
      modifies this
      ensures status == Dying && joiner == old(joiner) && returnVal == old(returnVal)
      ensures Value() == Exited(old(Value()))
      ensures wakes <==> old(joiner) == Waiter
    {
      status := Dying;
      wakes := joiner != Nobody && joiner != Disowned;
    }

    method Reap() returns (frees: bool)
      requires status == Dying
      modifies this
      ensures frees <==> joiner == Disowned
      ensures status == (if frees then Dying else Dead) && joiner == old(joiner) && returnVal == old(returnVal)
      ensures Value() == Reaped(old(Value())) && frees == ReapFrees(old(Value()))
    {
      frees := joiner == Disowned;
      if !frees {
        status := Dead;
      }
    }

    /** The first part of `uthread_join`, under the lock: register as the joiner unless the thread is done. */
    method JoinStart() returns (parks: bool)
      modifies this
      ensures parks <==> status == Live
      ensures joiner == (if parks then Waiter else old(joiner)) && returnVal == old(returnVal)
      ensures status == old(status) && parks == MustPark(old(Value()))
      ensures Value() == if parks then old(Value()).(joiner := Waiter) else old(Value())
    {
      parks := status != Dying && status != Dead;
      if parks {
        joiner := Waiter;
      }
    }

    method JoinEnd() returns (value: Option<int>, frees: bool)
      modifies this
      ensures frees <==> status == Dead
      ensures joiner == (if frees then old(joiner) else Disowned)
      ensures status == old(status) && returnVal == old(returnVal)
      ensures Value() == JoinEnded(old(Value())) && value == old(returnVal) && frees == EndFrees(old(Value()))
    {
      value := returnVal;
      frees := status == Dead;
      if !frees {
        joiner := Disowned;
      }
    }

    method Detach() returns (frees: bool)
      modifies this
      ensures frees <==> status == Dead
      ensures joiner == (if frees then old(joiner) else Disowned)
      ensures status == old(status) && returnVal == old(returnVal)
      ensures Value() == Detached(old(Value())) && frees == EndFrees(old(Value()))
    {
      frees := status == Dead;
      if status != Dead {
        joiner := Disowned;
      }
    }
  }
}

/** One thread, the one call that joins or detaches it, and the processors that leave it. */
module Lifecycle {
  import opened Common
  import opened Runs
  import opened ControlBlock

  /** `mayBlock`: whether the thread may block before it exits; `joins`: whether the one caller joins or detaches it. */
  datatype Config = Config(procs: nat, mayBlock: bool, joins: bool)

  /**
    The thread: executing, away (it blocked and is not executing), returned from its start procedure,
    exiting (dying and still on its own stack), or gone.
  */
  datatype ThreadPc = Executing | Away | Returned | Exiting | Gone

  /** The joining or detaching caller.  `Checked`: has read that there is no joiner yet. */
  datatype ClientPc = Outside | Checked | Parked | Woken | Done(value: Option<int>)

  /**
    `looks`: processors that have left the thread and not yet looked at its state; `reapers`: those that
    have looked and found it dying; `freed`: how often the block was freed; `misused`: whether it was
    touched after that.
  */
  datatype State = State(
    b: Block, thread: ThreadPc, client: ClientPc, looks: nat, reapers: nat, freed: nat, misused: bool)

  datatype Action =
    | BlockNow | Continue | Return(value: int) | Exit | Leave | Look | Reap | Check | Register | Finish

  predicate At(c: Config, s: State, a: Action)
  {
    match a
    case BlockNow => c.mayBlock && s.thread == Executing
    case Continue => s.thread == Away && s.looks + s.reapers < c.procs
    case Return(_) => s.thread == Executing
    case Exit => s.thread == Returned
    case Leave => s.thread == Exiting
    case Look => s.looks > 0
    case Reap => s.reapers > 0
    case Check => s.client == Outside
    case Register => s.client == Checked
    case Finish => s.client == Woken
  }

  /** Every step touches the block, which is wrong once it is freed. */
  function Touch(s: State): State
  {
    s.(misused := s.misused || s.freed > 0)
  }

  function EndJoin(s: State): State
  {
    s.(b := JoinEnded(s.b), client := Done(s.b.returnVal), freed := s.freed + if EndFrees(s.b) then 1 else 0)
  }

  function Do(c: Config, s0: State, a: Action): State
    requires At(c, s0, a)
  {
    var s := Touch(s0);
    match a
    case BlockNow => s.(thread := Away, looks := s.looks + 1)
    case Continue => s.(thread := Executing)
    case Return(v) => s.(thread := Returned, b := s.b.(returnVal := Some(v)))
    case Exit =>
      s.(thread := Exiting, b := Exited(s.b),
         client := if s.b.joiner == Waiter && s.client == Parked then Woken else s.client)
    case Leave => s.(thread := Gone, looks := s.looks + 1)
    case Look => s.(looks := s.looks - 1, reapers := s.reapers + if s.b.status == Dying then 1 else 0)
    case Reap => s.(reapers := s.reapers - 1, b := Reaped(s.b), freed := s.freed + if ReapFrees(s.b) then 1 else 0)
    case Check => if s.b.joiner == Nobody then s.(client := Checked) else s.(client := Done(None))
    case Register =>
      if !c.joins then s.(b := Detached(s.b), client := Done(None), freed := s.freed + if EndFrees(s.b) then 1 else 0)
      else if MustPark(s.b) then s.(b := s.b.(joiner := Waiter), client := Parked)
      else EndJoin(s)
    case Finish => EndJoin(s)
  }

  predicate Init(s: State)
  {
    s == State(Block(Live, Nobody, None), Executing, Outside, 0, 0, 0, false)
  }

  ghost predicate Next(c: Config, s: State, s': State)
  {
    exists a :: At(c, s, a) && s' == Do(c, s, a)
  }

  ghost function Starts(): State -> bool
  {
    s => Init(s)
  }

  ghost function Steps(c: Config): (State, State) -> bool
  {
    (s, s') => Next(c, s, s')
  }

  predicate Finished(s: State)
  {
    s.thread == Gone && s.client.Done? && s.looks == 0 && s.reapers == 0
  }

  /**
    The block is never touched after it is freed, is freed at most once and, when everybody is done,
    exactly once; and a joiner gets what the start procedure returned.
  */
  predicate Good(c: Config, s: State)
  {
    && !s.misused && s.freed <= 1 && (Finished(s) ==> s.freed == 1)
    && (c.joins && s.client.Done? ==> s.b.returnVal.Some? && s.client.value == s.b.returnVal)
  }

  ghost predicate AlwaysGood(c: Config)
  {
    forall run :: IsRun(Starts(), Steps(c), run) ==> forall i :: 0 <= i < |run| ==> Good(c, run[i])
  }

  /** No processor can be late to look at a thread that executes again. */
  predicate Sound(c: Config)
  {
    c.procs == 1 || !c.mayBlock
  }

  predicate Inv(c: Config, s: State)
  {
    && Good(c, s)
    && (s.thread != Gone ==> s.reapers == 0 && s.freed == 0 && s.looks <= if s.thread == Away then 1 else 0)
    && (s.thread == Away ==> c.mayBlock)
    && (s.b.status == Live <==> s.thread.Executing? || s.thread.Away? || s.thread.Returned?)
    && (s.b.returnVal.None? <==> s.thread.Executing? || s.thread.Away?)
    && (s.b.status == Dead ==> s.thread == Gone && s.looks == 0 && s.reapers == 0)
    && (s.thread == Gone ==> s.looks + s.reapers <= 1)
    && (s.thread == Gone ==> (s.looks + s.reapers == 1 <==> s.b.status == Dying && s.freed == 0))
    && (s.reapers > 0 ==> s.b.status == Dying)
    && (s.freed == 1 ==> s.client.Done?)
    && (s.client == Outside || s.client == Checked ==> s.b.joiner == Nobody)
    && (s.client == Parked ==> s.b.joiner == Waiter && s.b.status == Live)
    && (s.client == Woken ==> s.b.joiner == Waiter && s.b.status != Live)
    && (s.client == Parked || s.client == Woken ==> c.joins)
    && (s.client.Done? && s.freed == 0 ==> s.b.joiner == Disowned && s.b.status != Dead)
  }

  lemma StepKeepsInv(c: Config, s: State, a: Action)
    requires Sound(c) && c.procs >= 1 && Inv(c, s) && At(c, s, a)
    ensures Inv(c, Do(c, s, a))
  {
  }

  /** As long as not everybody is done, somebody can go on. */
  lemma NobodyHangs(c: Config, s: State)
    requires c.procs >= 1 && Inv(c, s) && !Finished(s)
    ensures exists a :: At(c, s, a)
  {
    assert At(c, s, Return(0)) || At(c, s, Exit) || At(c, s, Leave) || At(c, s, Look) || At(c, s, Reap)
        || At(c, s, Continue) || At(c, s, Check) || At(c, s, Register) || At(c, s, Finish);
  }

  lemma EveryRunKeepsInv(c: Config, run: seq<State>)
    requires Sound(c) && c.procs >= 1 && IsRun(Starts(), Steps(c), run)
    ensures forall i :: 0 <= i < |run| ==> Inv(c, run[i])
  {
    var inv := (s: State) => Inv(c, s);
    forall s, s' | inv(s) && Steps(c)(s, s')
      ensures inv(s')
    {
      var a :| At(c, s, a) && s' == Do(c, s, a);
      StepKeepsInv(c, s, a);
    }
    InvariantAlways(Starts(), Steps(c), inv, run);
    assert forall i :: 0 <= i < |run| ==> inv(run[i]);
  }

  lemma SoundIsGood(c: Config)
    requires Sound(c) && c.procs >= 1
    ensures AlwaysGood(c)
  {
    forall run | IsRun(Starts(), Steps(c), run)
      ensures forall i :: 0 <= i < |run| ==> Good(c, run[i])
    {
      EveryRunKeepsInv(c, run);
    }
  }

  /** The start procedure returns once, so what it returned stays. */
  lemma ReturnIsFinal(c: Config, s: State, a: Action)
    requires Inv(c, s) && At(c, s, a) && s.b.returnVal.Some?
    ensures Do(c, s, a).b.returnVal == s.b.returnVal
  {
  }

  lemma NextReturnStays(c: Config, s: State, s': State)
    requires Inv(c, s) && Steps(c)(s, s') && s.b.returnVal.Some?
    ensures s'.b.returnVal == s.b.returnVal
  {
    var a :| At(c, s, a) && s' == Do(c, s, a);
    ReturnIsFinal(c, s, a);
  }

  lemma {:induction false} ReturnStays(c: Config, run: seq<State>, k: nat, m: nat)
    requires Sound(c) && c.procs >= 1 && IsRun(Starts(), Steps(c), run) && k <= m < |run| && run[k].b.returnVal.Some?
    ensures run[m].b.returnVal == run[k].b.returnVal
    decreases m
  {
    if k < m {
      ReturnStays(c, run, k, m - 1);
      EveryRunKeepsInv(c, run);
      NextReturnStays(c, run[m - 1], run[m]);
    }
  }

  /** If the start procedure returns `v`, then `v` is what the joiner gets, however late it comes. */
  lemma JoinerGetsWhatWasReturned(c: Config, run: seq<State>, k: nat, v: int, m: nat)
    requires Sound(c) && c.procs >= 1 && c.joins && IsRun(Starts(), Steps(c), run) && k + 1 <= m < |run|
    requires At(c, run[k], Return(v)) && run[k + 1] == Do(c, run[k], Return(v)) && run[m].client.Done?
    ensures run[m].client.value == Some(v)
  {
    ReturnStays(c, run, k + 1, m);
    EveryRunKeepsInv(c, run);
    assert Inv(c, run[m]);
  }

  /** Every run that cannot go on has freed the block exactly once. */
  ghost predicate NeverLeaks(c: Config)
  {
    forall run :: IsRun(Starts(), Steps(c), run) && IsStuck(Steps(c), run[|run| - 1]) ==> FreedOnce(run[|run| - 1])
  }

  predicate FreedOnce(s: State)
  {
    Finished(s) && s.freed == 1
  }

  lemma SoundNeverLeaks(c: Config, run: seq<State>)
    requires Sound(c) && c.procs >= 1 && IsRun(Starts(), Steps(c), run) && IsStuck(Steps(c), run[|run| - 1])
    ensures FreedOnce(run[|run| - 1])
  {
    EveryRunKeepsInv(c, run);
    var s := run[|run| - 1];
    assert Inv(c, s);
    if !Finished(s) {
      NobodyHangs(c, s);
      var a :| At(c, s, a);
      StepIsNext(c, s, a);
    }
  }

  lemma StepIsNext(c: Config, s: State, a: Action)
    requires At(c, s, a)
    ensures Steps(c)(s, Do(c, s, a))
  {
  }

  ghost predicate Reachable(c: Config, s: State)
  {
    IsReachable(Starts(), Steps(c), s)
  }

  lemma Reach(c: Config, s: State, a: Action)
    requires Reachable(c, s) && At(c, s, a)
    ensures Reachable(c, Do(c, s, a))
  {
    StepIsNext(c, s, a);
    StepIsReachable(Starts(), Steps(c), s, Do(c, s, a));
  }

  /** The block is freed while its thread still executes on its stack; everybody else is done. */
  predicate TooEarly(s: State)
  {
    s.thread == Exiting && s.freed == 1 && s.client.Done? && s.looks == s.reapers == 0
    && s.b.status == Dying && s.b.joiner == Disowned
  }

  /**
    With two processors a thread that has blocked may run again, return and announce that it is dying
    before the processor it blocked on looks at its state.  That processor takes it for a thread it has
    just left for good and, once the thread is joined or detached, frees the block under its feet.
  */
  lemma LateLookFrees(c: Config)
    requires c.procs >= 2 && c.mayBlock
    ensures exists s :: Reachable(c, s) && TooEarly(s)
  {
    var s0 := State(Block(Live, Nobody, None), Executing, Outside, 0, 0, 0, false);
    InitialIsReachable(Starts(), Steps(c), s0);
    var s1 := State(Block(Live, Nobody, None), Away, Outside, 1, 0, 0, false);
    assert Do(c, s0, BlockNow) == s1;
    Reach(c, s0, BlockNow);
    var s2 := s1.(thread := Executing);
    Reach(c, s1, Continue);
    var s3 := s2.(thread := Returned, b := Block(Live, Nobody, Some(7)));
    Reach(c, s2, Return(7));
    var s4 := s3.(thread := Exiting, b := Block(Dying, Nobody, Some(7)));
    Reach(c, s3, Exit);
    var s5 := s4.(looks := 0, reapers := 1);
    Reach(c, s4, Look);
    var s6 := s5.(client := Checked);
    Reach(c, s5, Check);
    var s7 := s6.(b := Block(Dying, Disowned, Some(7)), client := Done(if c.joins then Some(7) else None));
    Reach(c, s6, Register);
    var s8 := s7.(reapers := 0, freed := 1);
    Reach(c, s7, Reap);
    assert Reachable(c, s8);
  }

  /**
    With one join or one detach, the block is freed exactly once and never touched afterwards, and the
    joiner gets the returned value, in every run exactly when there is one processor or the thread
    never blocks.
  */
  lemma GoodExactlyWhenSound(c: Config)
    requires c.procs >= 1
    ensures AlwaysGood(c) <==> c.procs == 1 || !c.mayBlock
  {
    if Sound(c) {
      SoundIsGood(c);
    } else {
      LateLookFrees(c);
      var s :| Reachable(c, s) && TooEarly(s);
      Reach(c, s, Leave);
      var bad := Do(c, Do(c, s, Leave), Look);
      Reach(c, Do(c, s, Leave), Look);
      assert bad.misused && !Good(c, bad);
      var run :| IsRun(Starts(), Steps(c), run) && run[|run| - 1] == bad;
      assert !Good(c, run[|run| - 1]);
    }
  }

  /** The thread goes on to leave its stack, and the block is freed a second time. */
  lemma FreedTwice(c: Config)
    requires c.procs >= 2 && c.mayBlock
    ensures exists s :: Reachable(c, s) && s.freed == 2 && IsStuck(Steps(c), s)
  {
    LateLookFrees(c);
    var s :| Reachable(c, s) && TooEarly(s);
    Reach(c, s, Leave);
    var s1 := Do(c, s, Leave);
    Reach(c, s1, Look);
    var s2 := Do(c, s1, Look);
    Reach(c, s2, Reap);
    var s3 := Do(c, s2, Reap);
    assert s3.freed == 2 && forall a :: !At(c, s3, a);
  }

  /** Every complete run frees the block exactly once exactly when there is one processor or the thread never blocks. */
  lemma NoLeak(c: Config)
    requires c.procs >= 1
    ensures NeverLeaks(c) <==> c.procs == 1 || !c.mayBlock
  {
    if Sound(c) {
      forall run | IsRun(Starts(), Steps(c), run) && IsStuck(Steps(c), run[|run| - 1])
        ensures FreedOnce(run[|run| - 1])
      {
        SoundNeverLeaks(c, run);
      }
    } else {
      FreedTwice(c);
      var s :| Reachable(c, s) && s.freed == 2 && IsStuck(Steps(c), s);
      var run :| IsRun(Starts(), Steps(c), run) && run[|run| - 1] == s;
      assert !FreedOnce(run[|run| - 1]);
    }
  }
}
