/**
  The dining philosophers who pick up their lower-numbered fork first (a10/phil-ordered.c), for any
  number of philosophers from two up and any number of meals.

  A fork is a mutex, a condition and a flag; `getfork` returns with the mutex still held.
*/
module ForkObject {
  import opened Common
  import opened MutexObject

  datatype Fork = Fork(lock: Mutex, forfree: seq<Tid>, free: bool)

  /** `getfork` after it has the lock: the fork is taken, or `me` waits for it. */
  function Take(f: Fork, me: Tid): Fork
  {
    if f.free then f.(free := false)
    else f.(forfree := Enqueue(f.forfree, me), lock := UnlockSection(f.lock))
  }

  function TakeWakes(f: Fork): seq<Tid>
  {
    if f.free then [] else Woken(f.lock)
  }

  function FirstOf(q: seq<Tid>): seq<Tid>
  {
    if q == [] then [] else q[..1]
  }

  function Put(f: Fork): Fork
  {
    Fork(UnlockSection(f.lock), if f.forfree == [] then [] else f.forfree[1..], true)
  }

  /** The threads `putfork` unblocks: the first that waits for the fork and those the unlock wakes. */
  function PutWakes(f: Fork): seq<Tid>
  {
    FirstOf(f.forfree) + Woken(f.lock)
  }

  /** The fork record, updated in place. */
  class ForkCell {
    const lock: UthreadMutex
    var forfree: seq<Tid>
    var free: bool

    function Value(): Fork
      reads this, lock
    {
      Fork(lock.Value(), forfree, free)
    }

    /** `initfork` */
    constructor ()
      ensures Value() == Fork(FREE, [], true) && fresh(lock)
    {
      lock := new UthreadMutex();
      forfree := [];
      free := true;
    }

    /** `getfork` from the point where the lock is held; `taken` tells whether it returns. */
    method GetLocked(me: Tid) returns (taken: bool, woken: seq<Tid>)
      requires lock.holder == Some(me)
      modifies this, lock
      ensures !free && (taken ==> woken == [] && forfree == old(forfree) && lock.Value() == old(lock.Value()))
      ensures !taken ==> me in forfree && old(forfree) <= forfree && lock.holder == None
      ensures Value() == Take(old(Value()), me) && woken == TakeWakes(old(Value()))
      ensures taken == old(free)
    {
      taken := free;
      woken := [];
      if free {
        free := false;
      } else {
        forfree := Enqueue(forfree, me);
        woken := lock.Unlock(me);
      }
    }

    /** `putfork` */
    method PutFork(me: Tid) returns (woken: seq<Tid>)
      requires lock.holder == Some(me)
      modifies this, lock
      ensures free && lock.holder == None
      ensures old(forfree) == [] ==> forfree == []
      ensures old(forfree) != [] ==> woken != [] && [woken[0]] + forfree == old(forfree)
      ensures Value() == Put(old(Value())) && woken == PutWakes(old(Value()))
    {
      free := true;
      woken := FirstOf(forfree);
      if forfree != [] {
        forfree := forfree[1..];
      }
      var more := lock.Unlock(me);
      woken := woken + more;
    }
  }
}

module Philosophers {
  import opened Common
  import opened Runs
  import opened Sums
  import opened MutexObject
  import opened ForkObject

  /**
    Where a philosopher is; `k` is 0 for the lower-numbered fork and 1 for the other.  `Want`, `Queued`
    and `Woken` are the stages of locking the fork, `Locked` has the lock and is about to look at the
    flag, `Waiting` waits on the fork's condition.
  */
  datatype Place =
    | Thinking
    | Want(k: nat) | Queued(k: nat) | Woke(k: nat) | Locked(k: nat) | Waiting(k: nat)
    | Eating | PuttingRight | PuttingLeft

  datatype Phil = Phil(meals: nat, place: Place)

  datatype Table = Table(forks: seq<Fork>, phils: seq<Phil>)

  function LeftFork(i: nat): nat
  {
    i
  }

  function RightFork(n: nat, i: nat): nat
    requires n > 0
  {
    (i + 1) % n
  }

  /** The fork a philosopher takes first (`k == 0`) or second. */
  function ForkOf(n: nat, i: nat, k: nat): nat
    requires n > 0
  {
    if (k == 0) == (i < (i + 1) % n) then LeftFork(i) else RightFork(n, i)
  }

  /** Forks are taken in increasing order. */
  lemma ForksClimb(n: nat, i: nat)
    requires n >= 2 && i < n
    ensures ForkOf(n, i, 0) < ForkOf(n, i, 1) < n
    ensures {ForkOf(n, i, 0), ForkOf(n, i, 1)} == {i, if i + 1 < n then i + 1 else 0}
    ensures LeftFork(i) == i && RightFork(n, i) == if i + 1 < n then i + 1 else 0
  {
    if i + 1 < n { assert (i + 1) % n == i + 1; } else { assert (i + 1) % n == 0; }
  }

  function Rouse(p: Place): Place
  {
    match p
    case Queued(k) => Woke(k)
    case Waiting(k) => Want(k)
    case _ => p
  }

  function Unblocked(phils: seq<Phil>, woken: seq<Tid>): seq<Phil>
  {
    seq(|phils|, i requires 0 <= i < |phils| =>
      if i in woken then phils[i].(place := Rouse(phils[i].place)) else phils[i])
  }

  datatype Action = Sit | Try | TakeUp | Eat | PutDown

  /** Philosopher `i` can do `a` now. */
  predicate At(s: Table, meals: nat, i: nat, a: Action)
  {
    i < |s.phils| && |s.phils| == |s.forks| && var p := s.phils[i].place;
    match a
    case Sit => p.Thinking? && s.phils[i].meals < meals
    case Try => p.Want? || p.Woke?
    case TakeUp => p.Locked?
    case Eat => p.Eating?
    case PutDown => p.PuttingRight? || p.PuttingLeft?
  }

  function Goto(phils: seq<Phil>, i: nat, p: Place): seq<Phil>
    requires i < |phils|
  {
    phils[i := phils[i].(place := p)]
  }

  /** Fork `f` becomes `fork`, philosopher `i` goes on at `p`, and those in `woken` are unblocked. */
  function Update(s: Table, f: nat, fork: Fork, i: nat, p: Place, woken: seq<Tid>): Table
    requires f < |s.forks| && i < |s.phils|
  {
    Table(s.forks[f := fork], Goto(Unblocked(s.phils, woken), i, p))
  }

  function AfterTry(s: Table, i: nat, k: nat): Table
    requires i < |s.phils| == |s.forks|
  {
    var f := ForkOf(|s.phils|, i, k);
    if f >= |s.forks| then s else
    var lock := LockSection(s.forks[f].lock, i);
    Update(s, f, s.forks[f].(lock := lock), i, if lock.holder == Some(i) then Locked(k) else Queued(k), [])
  }

  function AfterTakeUp(s: Table, i: nat, k: nat): Table
    requires i < |s.phils| == |s.forks|
  {
    var f := ForkOf(|s.phils|, i, k);
    if f >= |s.forks| then s else
    var fork := s.forks[f];
    Update(s, f, Take(fork, i), i, if !fork.free then Waiting(k) else if k == 0 then Want(1) else Eating,
      TakeWakes(fork))
  }

  function AfterPutDown(s: Table, i: nat): Table
    requires i < |s.phils| == |s.forks|
  {
    var right := s.phils[i].place.PuttingRight?;
    var f := if right then RightFork(|s.phils|, i) else LeftFork(i);
    Update(s, f, Put(s.forks[f]), i, if right then PuttingLeft else Thinking, PutWakes(s.forks[f]))
  }

  function Do(s: Table, meals: nat, i: nat, a: Action): Table
    requires At(s, meals, i, a)
  {
    match a
    case Sit => s.(phils := Goto(s.phils, i, Want(0)))
    case Try => AfterTry(s, i, s.phils[i].place.k)
    case TakeUp => AfterTakeUp(s, i, s.phils[i].place.k)
    case Eat => s.(phils := s.phils[i := Phil(s.phils[i].meals + 1, PuttingRight)])
    case PutDown => AfterPutDown(s, i)
  }

  ghost predicate Init(s: Table, n: nat)
  {
    && |s.forks| == |s.phils| == n
    && (forall f :: 0 <= f < n ==> s.forks[f] == Fork(FREE, [], true))
    && (forall i :: 0 <= i < n ==> s.phils[i] == Phil(0, Thinking))
  }

  ghost predicate Next(s: Table, s': Table, meals: nat)
  {
    exists i: nat, a :: At(s, meals, i, a) && s' == Do(s, meals, i, a)
  }

  ghost function Starts(n: nat): Table -> bool
  {
    s => Init(s, n)
  }

  ghost function Steps(meals: nat): (Table, Table) -> bool
  {
    (s, s') => Next(s, s', meals)
  }

  // ---------- the invariant ----------

  /** Being at `p`, philosopher `i` has the lock of fork `f`. */
  predicate Holds(n: nat, i: nat, p: Place, f: nat)
    requires n > 0
  {
    match p
    case Locked(k) => f == ForkOf(n, i, k) || (k == 1 && f == ForkOf(n, i, 0))
    case Want(k) => k == 1 && f == ForkOf(n, i, 0)
    case Queued(k) => k == 1 && f == ForkOf(n, i, 0)
    case Woke(k) => k == 1 && f == ForkOf(n, i, 0)
    case Eating => f == LeftFork(i) || f == RightFork(n, i)
    case PuttingRight => f == LeftFork(i) || f == RightFork(n, i)
    case PuttingLeft => f == LeftFork(i)
    case _ => false
  }

  /** Being at `p`, philosopher `i` has just locked fork `f` and not yet taken it up. */
  predicate Looks(n: nat, i: nat, p: Place, f: nat)
    requires n > 0
  {
    p.Locked? && f == ForkOf(n, i, p.k)
  }

  predicate QueuesFor(n: nat, i: nat, p: Place, f: nat)
    requires n > 0
  {
    p.Queued? && f == ForkOf(n, i, p.k)
  }

  predicate Approaches(n: nat, i: nat, p: Place, f: nat)
    requires n > 0
  {
    p.Woke? && f == ForkOf(n, i, p.k)
  }

  ghost predicate Shape(s: Table, n: nat, meals: nat)
  {
    && n >= 2 && |s.forks| == |s.phils| == n
    && forall i :: 0 <= i < n ==> PhilOk(s.phils[i], meals)
  }

  /** Nobody waits on a condition, only two forks are ever wanted, and nobody eats too much. */
  predicate PhilOk(p: Phil, meals: nat)
  {
    && !p.place.Waiting?
    && (p.place.Want? || p.place.Queued? || p.place.Woke? || p.place.Locked? ==> p.place.k <= 1)
    && p.meals <= meals
    && (p.place.Thinking? || p.place.PuttingRight? || p.place.PuttingLeft? || p.meals < meals)
  }

  /** The lock of fork `f` is held by the philosopher whose place says so, and its flag is down while in use. */
  ghost predicate ForkHeld(s: Table, n: nat, f: nat)
    requires n > 0 && |s.phils| == n && f < |s.forks|
  {
    var fork := s.forks[f];
    && fork.lock.readerCount == 0 && fork.lock.readerWaiterQueue == [] && fork.forfree == []
    && (fork.lock.holder.Some? ==> fork.lock.holder.value < n)
    && (forall i :: 0 <= i < n ==> (fork.lock.holder == Some(i) <==> Holds(n, i, s.phils[i].place, f)))
    && (fork.free <==>
      fork.lock.holder.None? || Looks(n, fork.lock.holder.value, s.phils[fork.lock.holder.value].place, f))
  }

  ghost predicate ForkQueue(s: Table, n: nat, f: nat)
    requires n > 0 && |s.phils| == n && f < |s.forks|
  {
    var lock := s.forks[f].lock;
    && NoDuplicates(lock.waiterQueue)
    && (forall i: nat :: i in lock.waiterQueue <==> i < n && QueuesFor(n, i, s.phils[i].place, f))
    && (lock.holder.None? && lock.waiterQueue != [] ==> exists i :: 0 <= i < n && Approaches(n, i, s.phils[i].place, f))
  }

  ghost predicate Inv(s: Table, n: nat, meals: nat)
  {
    && Shape(s, n, meals)
    && (forall f :: 0 <= f < n ==> ForkHeld(s, n, f))
    && (forall f :: 0 <= f < n ==> ForkQueue(s, n, f))
  }

  // ---------- every step keeps the invariant ----------

  /** A fork whose record and whose users' places are, for this fork, what they were. */
  lemma HeldFrame(s: Table, s': Table, n: nat, f: nat)
    requires n > 0 && |s.phils| == |s'.phils| == n && f < |s.forks| && f < |s'.forks| && s'.forks[f] == s.forks[f]
    requires ForkHeld(s, n, f)
    requires forall j :: 0 <= j < n ==> (Holds(n, j, s'.phils[j].place, f) <==> Holds(n, j, s.phils[j].place, f))
    requires forall j :: 0 <= j < n ==> (Looks(n, j, s'.phils[j].place, f) <==> Looks(n, j, s.phils[j].place, f))
    ensures ForkHeld(s', n, f)
  {
  }

  lemma QueueFrame(s: Table, s': Table, n: nat, f: nat)
    requires n > 0 && |s.phils| == |s'.phils| == n && f < |s.forks| && f < |s'.forks|
    requires s'.forks[f].lock.waiterQueue == s.forks[f].lock.waiterQueue
    requires ForkQueue(s, n, f)
    requires forall j :: 0 <= j < n ==>
      (QueuesFor(n, j, s'.phils[j].place, f) <==> QueuesFor(n, j, s.phils[j].place, f))
    requires s'.forks[f].lock.holder.None? ==> s.forks[f].lock.holder.None?
    requires s'.forks[f].lock.holder.None? ==>
      forall j :: 0 <= j < n && Approaches(n, j, s.phils[j].place, f) ==> Approaches(n, j, s'.phils[j].place, f)
    ensures ForkQueue(s', n, f)
  {
  }

  /** Philosopher `i` moves from one place to another and only the fork `f` changes. */
  lemma MoveFrame(s: Table, s': Table, n: nat, i: nat, f: nat)
    requires n > 0 && |s.forks| == |s'.forks| == |s.phils| == |s'.phils| == n && i < n
    requires forall g :: 0 <= g < n && g != f ==> s'.forks[g] == s.forks[g] && ForkHeld(s, n, g) && ForkQueue(s, n, g)
    requires forall j :: 0 <= j < n && j != i ==> s'.phils[j] == s.phils[j]
    requires var p, q := s.phils[i].place, s'.phils[i].place;
      forall g :: 0 <= g < n && g != f ==>
        && (Holds(n, i, q, g) <==> Holds(n, i, p, g)) && (Looks(n, i, q, g) <==> Looks(n, i, p, g))
        && (QueuesFor(n, i, q, g) <==> QueuesFor(n, i, p, g)) && (Approaches(n, i, q, g) <==> Approaches(n, i, p, g))
    ensures forall g :: 0 <= g < n && g != f ==> ForkHeld(s', n, g) && ForkQueue(s', n, g)
  {
    forall g | 0 <= g < n && g != f
      ensures ForkHeld(s', n, g) && ForkQueue(s', n, g)
    {
      HeldFrame(s, s', n, g);
      QueueFrame(s, s', n, g);
    }
  }

  lemma NobodyUnblocked(phils: seq<Phil>)
    ensures Unblocked(phils, []) == phils
  {
  }

  lemma SitKeepsInv(s: Table, n: nat, meals: nat, i: nat)
    requires Inv(s, n, meals) && At(s, meals, i, Sit)
    ensures Inv(Do(s, meals, i, Sit), n, meals)
  {
    MoveFrame(s, Do(s, meals, i, Sit), n, i, n);
  }

  lemma EatKeepsInv(s: Table, n: nat, meals: nat, i: nat)
    requires Inv(s, n, meals) && At(s, meals, i, Eat)
    ensures Inv(Do(s, meals, i, Eat), n, meals)
  {
    MoveFrame(s, Do(s, meals, i, Eat), n, i, n);
  }

  lemma TryKeepsFork(s: Table, n: nat, meals: nat, i: nat)
    requires Inv(s, n, meals) && At(s, meals, i, Try)
    ensures var f := ForkOf(n, i, s.phils[i].place.k);
      f < n && ForkHeld(Do(s, meals, i, Try), n, f) && ForkQueue(Do(s, meals, i, Try), n, f)
  {
    ForksClimb(n, i);
    NobodyUnblocked(s.phils);
    var f := ForkOf(n, i, s.phils[i].place.k);
    var s', lock := Do(s, meals, i, Try), s.forks[f].lock;
    assert ForkHeld(s, n, f) && ForkQueue(s, n, f);
    assert !Holds(n, i, s.phils[i].place, f) && i !in lock.waiterQueue;
    if lock.holder.Some? {
      forall j: nat
        ensures j in s'.forks[f].lock.waiterQueue <==> j in lock.waiterQueue || j == i
      {
      }
    }
  }

  lemma TryKeepsInv(s: Table, n: nat, meals: nat, i: nat)
    requires Inv(s, n, meals) && At(s, meals, i, Try)
    ensures Inv(Do(s, meals, i, Try), n, meals)
  {
    ForksClimb(n, i);
    NobodyUnblocked(s.phils);
    var f := ForkOf(n, i, s.phils[i].place.k);
    MoveFrame(s, Do(s, meals, i, Try), n, i, f);
    TryKeepsFork(s, n, meals, i);
  }

  lemma TakeUpKeepsFork(s: Table, n: nat, meals: nat, i: nat)
    requires Inv(s, n, meals) && At(s, meals, i, TakeUp)
    ensures var f := ForkOf(n, i, s.phils[i].place.k);
      f < n && s.forks[f].free && ForkHeld(Do(s, meals, i, TakeUp), n, f) && ForkQueue(Do(s, meals, i, TakeUp), n, f)
  {
    ForksClimb(n, i);
    NobodyUnblocked(s.phils);
    var f := ForkOf(n, i, s.phils[i].place.k);
    assert ForkHeld(s, n, f) && ForkQueue(s, n, f);
    assert Holds(n, i, s.phils[i].place, f) && Looks(n, i, s.phils[i].place, f);
    QueueFrame(s, Do(s, meals, i, TakeUp), n, f);
  }

  /** The flag is up whenever a philosopher looks at it, so nobody ever waits on the condition. */
  lemma TakeUpKeepsInv(s: Table, n: nat, meals: nat, i: nat)
    requires Inv(s, n, meals) && At(s, meals, i, TakeUp)
    ensures Inv(Do(s, meals, i, TakeUp), n, meals)
    ensures s.forks[ForkOf(n, i, s.phils[i].place.k)].free
  {
    ForksClimb(n, i);
    TakeUpKeepsFork(s, n, meals, i);
    NobodyUnblocked(s.phils);
    MoveFrame(s, Do(s, meals, i, TakeUp), n, i, ForkOf(n, i, s.phils[i].place.k));
  }

  /** Waking a thread that queues for fork `f` changes nothing else about it. */
  lemma RousedPlace(n: nat, j: nat, p: Place, f: nat, g: nat)
    requires n > 0 && QueuesFor(n, j, p, f)
    ensures Holds(n, j, Rouse(p), g) <==> Holds(n, j, p, g)
    ensures !Looks(n, j, Rouse(p), g) && !QueuesFor(n, j, Rouse(p), g)
    ensures Approaches(n, j, Rouse(p), g) <==> g == f
    ensures QueuesFor(n, j, p, g) <==> g == f
  {
  }

  /** Which fork a philosopher is about to put down, and where it goes then. */
  function PutFork(n: nat, i: nat, p: Place): nat
    requires n > 0
  {
    if p.PuttingRight? then RightFork(n, i) else LeftFork(i)
  }

  lemma PutDownPlaces(s: Table, n: nat, meals: nat, i: nat)
    requires Inv(s, n, meals) && At(s, meals, i, PutDown)
    ensures var f, s' := PutFork(n, i, s.phils[i].place), Do(s, meals, i, PutDown);
      && f < n && s.forks[f].lock.holder == Some(i) && PutWakes(s.forks[f]) == FirstOf(s.forks[f].lock.waiterQueue)
      && |s'.phils| == n && s'.forks == s.forks[f := Put(s.forks[f])]
      && s'.phils[i] == s.phils[i].(place := if s.phils[i].place.PuttingRight? then PuttingLeft else Thinking)
      && forall j :: 0 <= j < n && j != i ==>
        s'.phils[j] == if j in PutWakes(s.forks[f]) then s.phils[j].(place := Rouse(s.phils[j].place)) else s.phils[j]
    ensures forall j :: 0 <= j < n && j in PutWakes(s.forks[PutFork(n, i, s.phils[i].place)]) ==>
      j != i && QueuesFor(n, j, s.phils[j].place, PutFork(n, i, s.phils[i].place))
  {
    ForksClimb(n, i);
    var f := PutFork(n, i, s.phils[i].place);
    assert ForkHeld(s, n, f) && ForkQueue(s, n, f);
    assert Holds(n, i, s.phils[i].place, f);
    assert forall j: nat :: j in FirstOf(s.forks[f].lock.waiterQueue) ==> j in s.forks[f].lock.waiterQueue;
  }

  /** Nothing that concerns another fork changes for anybody. */
  lemma PutDownFrame(s: Table, n: nat, meals: nat, i: nat, g: nat, j: nat)
    requires Inv(s, n, meals) && At(s, meals, i, PutDown) && g < n && g != PutFork(n, i, s.phils[i].place) && j < n
    ensures |Do(s, meals, i, PutDown).phils| == n
    ensures var p, q := s.phils[j].place, Do(s, meals, i, PutDown).phils[j].place;
      && (Holds(n, j, q, g) <==> Holds(n, j, p, g)) && (Looks(n, j, q, g) <==> Looks(n, j, p, g))
      && (QueuesFor(n, j, q, g) <==> QueuesFor(n, j, p, g)) && (Approaches(n, j, q, g) <==> Approaches(n, j, p, g))
  {
    ForksClimb(n, i);
    PutDownPlaces(s, n, meals, i);
    var f := PutFork(n, i, s.phils[i].place);
    if j in PutWakes(s.forks[f]) { RousedPlace(n, j, s.phils[j].place, f, g); }
  }

  lemma PutDownKeepsOthers(s: Table, n: nat, meals: nat, i: nat, g: nat)
    requires Inv(s, n, meals) && At(s, meals, i, PutDown) && g < n && g != PutFork(n, i, s.phils[i].place)
    ensures ForkHeld(Do(s, meals, i, PutDown), n, g) && ForkQueue(Do(s, meals, i, PutDown), n, g)
  {
    var s' := Do(s, meals, i, PutDown);
    forall j: nat | j < n
      ensures |s'.phils| == n
      ensures var p, q := s.phils[j].place, s'.phils[j].place;
        && (Holds(n, j, q, g) <==> Holds(n, j, p, g)) && (Looks(n, j, q, g) <==> Looks(n, j, p, g))
        && (QueuesFor(n, j, q, g) <==> QueuesFor(n, j, p, g)) && (Approaches(n, j, q, g) <==> Approaches(n, j, p, g))
    {
      PutDownFrame(s, n, meals, i, g, j);
    }
    HeldFrame(s, s', n, g);
    QueueFrame(s, s', n, g);
  }

  lemma PutDownKeepsHeld(s: Table, n: nat, meals: nat, i: nat)
    requires Inv(s, n, meals) && At(s, meals, i, PutDown)
    ensures PutFork(n, i, s.phils[i].place) < n
    ensures ForkHeld(Do(s, meals, i, PutDown), n, PutFork(n, i, s.phils[i].place))
  {
    ForksClimb(n, i);
    PutDownPlaces(s, n, meals, i);
    var f, s' := PutFork(n, i, s.phils[i].place), Do(s, meals, i, PutDown);
    assert ForkHeld(s, n, f);
    forall j | 0 <= j < n
      ensures !Holds(n, j, s'.phils[j].place, f)
    {
      if j in PutWakes(s.forks[f]) { RousedPlace(n, j, s.phils[j].place, f, f); }
    }
  }

  lemma PutDownKeepsQueue(s: Table, n: nat, meals: nat, i: nat)
    requires Inv(s, n, meals) && At(s, meals, i, PutDown)
    ensures PutFork(n, i, s.phils[i].place) < n
    ensures ForkQueue(Do(s, meals, i, PutDown), n, PutFork(n, i, s.phils[i].place))
  {
    PutDownPlaces(s, n, meals, i);
    var f, s' := PutFork(n, i, s.phils[i].place), Do(s, meals, i, PutDown);
    var q, q' := s.forks[f].lock.waiterQueue, s'.forks[f].lock.waiterQueue;
    assert ForkHeld(s, n, f) && ForkQueue(s, n, f);
    assert q == FirstOf(q) + q';
    CutNoDuplicates(FirstOf(q), q');
    forall j | 0 <= j < n && j in FirstOf(q)
      ensures !QueuesFor(n, j, s'.phils[j].place, f) && Approaches(n, j, s'.phils[j].place, f)
    {
      RousedPlace(n, j, s.phils[j].place, f, f);
    }
    if q != [] {
      assert q[0] in q && q[0] in FirstOf(q);
      assert Approaches(n, q[0], s'.phils[q[0]].place, f);
    }
  }

  lemma PutDownKeepsShape(s: Table, n: nat, meals: nat, i: nat)
    requires Inv(s, n, meals) && At(s, meals, i, PutDown)
    ensures Shape(Do(s, meals, i, PutDown), n, meals)
  {
    PutDownPlaces(s, n, meals, i);
  }

  lemma PutDownKeepsInv(s: Table, n: nat, meals: nat, i: nat)
    requires Inv(s, n, meals) && At(s, meals, i, PutDown)
    ensures Inv(Do(s, meals, i, PutDown), n, meals)
  {
    PutDownKeepsShape(s, n, meals, i);
    PutDownKeepsHeld(s, n, meals, i);
    PutDownKeepsQueue(s, n, meals, i);
    forall g | 0 <= g < n && g != PutFork(n, i, s.phils[i].place)
      ensures ForkHeld(Do(s, meals, i, PutDown), n, g) && ForkQueue(Do(s, meals, i, PutDown), n, g)
    {
      PutDownKeepsOthers(s, n, meals, i, g);
    }
  }

  lemma StepKeepsInv(s: Table, n: nat, meals: nat, i: nat, a: Action)
    requires Inv(s, n, meals) && At(s, meals, i, a)
    ensures Inv(Do(s, meals, i, a), n, meals)
  {
    match a
    case Sit => SitKeepsInv(s, n, meals, i);
    case Try => TryKeepsInv(s, n, meals, i);
    case TakeUp => TakeUpKeepsInv(s, n, meals, i);
    case Eat => EatKeepsInv(s, n, meals, i);
    case PutDown => PutDownKeepsInv(s, n, meals, i);
  }

  // ---------- every step brings the end nearer ----------

  /** How far a philosopher is from the end of its meal; waking up costs one, so unlocking pays for it. */
  function Offset(p: Place): int
  {
    match p
    case Thinking => 0
    case Want(k) => -1 - 4 * k
    case Woke(k) => -2 - 4 * k
    case Queued(k) => -3 - 4 * k
    case Locked(k) => -4 - 4 * k
    case Waiting(k) => 0
    case Eating => -9
    case PuttingRight => 10
    case PuttingLeft => 7
  }

  function Weight(p: Phil, meals: nat): int
  {
    20 * (meals - p.meals) + Offset(p.place)
  }

  function Weights(phils: seq<Phil>, meals: nat): seq<int>
  {
    seq(|phils|, i requires 0 <= i < |phils| => Weight(phils[i], meals))
  }

  function Total(phils: seq<Phil>, meals: nat): int
  {
    Sum(Weights(phils, meals))
  }

  lemma TotalUpdate(phils: seq<Phil>, meals: nat, i: nat, p: Phil)
    requires i < |phils|
    ensures Total(phils[i := p], meals) == Total(phils, meals) - Weight(phils[i], meals) + Weight(p, meals)
  {
    assert Weights(phils[i := p], meals) == Weights(phils, meals)[i := Weight(p, meals)];
    SumUpdate(Weights(phils, meals), i, Weight(p, meals));
  }

  lemma TotalNotNegative(phils: seq<Phil>, meals: nat)
    requires forall i :: 0 <= i < |phils| ==> PhilOk(phils[i], meals)
    ensures Total(phils, meals) >= 0
  {
    forall i | 0 <= i < |phils|
      ensures Weights(phils, meals)[i] >= 0
    {
      assert PhilOk(phils[i], meals);
    }
    SumNotNegative(Weights(phils, meals));
  }

  ghost function Measure(s: Table, meals: nat): nat
  {
    var t := Total(s.phils, meals);
    if t < 0 then 0 else t
  }

  /** Waking at most one queued philosopher adds at most one. */
  lemma WakeWeight(phils: seq<Phil>, meals: nat, woken: seq<Tid>)
    requires |woken| <= 1 && forall j: nat :: j in woken ==> j < |phils| && phils[j].place.Queued?
    ensures Total(Unblocked(phils, woken), meals) <= Total(phils, meals) + 1
  {
    if woken == [] {
      NobodyUnblocked(phils);
    } else {
      var j := woken[0];
      assert woken == [j] && j in woken;
      var p := phils[j].(place := Rouse(phils[j].place));
      assert Unblocked(phils, woken) == phils[j := p];
      TotalUpdate(phils, meals, j, p);
    }
  }

  /** Philosopher `i` moves on by at least two while at most one other wakes up. */
  lemma MoveOutweighsWaking(phils: seq<Phil>, meals: nat, i: nat, p: Place, woken: seq<Tid>)
    requires i < |phils| && |woken| <= 1 && i !in woken
    requires forall j: nat :: j in woken ==> j < |phils| && phils[j].place.Queued?
    requires Offset(p) <= Offset(phils[i].place) - 2
    ensures Total(Goto(Unblocked(phils, woken), i, p), meals) < Total(phils, meals)
  {
    WakeWeight(phils, meals, woken);
    var awake := Unblocked(phils, woken);
    assert awake[i] == phils[i];
    TotalUpdate(awake, meals, i, awake[i].(place := p));
  }

  lemma WakesAreQueued(s: Table, n: nat, f: nat)
    requires n > 0 && |s.phils| == n && f < |s.forks| && ForkQueue(s, n, f)
    ensures forall j: nat :: j in FirstOf(s.forks[f].lock.waiterQueue) ==> j < n && s.phils[j].place.Queued?
  {
    assert forall j: nat :: j in FirstOf(s.forks[f].lock.waiterQueue) ==> j in s.forks[f].lock.waiterQueue;
  }

  lemma PutDownOffset(p: Place)
    requires p.PuttingRight? || p.PuttingLeft?
    ensures Offset(if p.PuttingRight? then PuttingLeft else Thinking) <= Offset(p) - 2
  {
  }

  lemma PutDownPhils(s: Table, meals: nat, i: nat, woken: seq<Tid>)
    requires At(s, meals, i, PutDown) && PutFork(|s.phils|, i, s.phils[i].place) < |s.forks|
    requires PutWakes(s.forks[PutFork(|s.phils|, i, s.phils[i].place)]) == woken
    ensures Do(s, meals, i, PutDown).phils ==
      Goto(Unblocked(s.phils, woken), i, if s.phils[i].place.PuttingRight? then PuttingLeft else Thinking)
  {
  }

  lemma PutDownWeight(s: Table, n: nat, meals: nat, i: nat)
    requires Inv(s, n, meals) && At(s, meals, i, PutDown)
    ensures Total(Do(s, meals, i, PutDown).phils, meals) < Total(s.phils, meals)
  {
    PutDownPlaces(s, n, meals, i);
    var f := PutFork(n, i, s.phils[i].place);
    var woken := FirstOf(s.forks[f].lock.waiterQueue);
    WakesAreQueued(s, n, f);
    PutDownPhils(s, meals, i, woken);
    PutDownOffset(s.phils[i].place);
    MoveOutweighsWaking(s.phils, meals, i, if s.phils[i].place.PuttingRight? then PuttingLeft else Thinking, woken);
  }

  /** A philosopher that puts nothing down moves alone. */
  lemma OwnMoveWeight(s: Table, n: nat, meals: nat, i: nat, a: Action)
    requires n >= 2 && |s.phils| == |s.forks| == n && At(s, meals, i, a) && !a.PutDown?
    requires PhilOk(s.phils[i], meals)
    requires a.TakeUp? ==> ForkOf(n, i, s.phils[i].place.k) < n && s.forks[ForkOf(n, i, s.phils[i].place.k)].free
    ensures var s' := Do(s, meals, i, a);
      |s'.phils| == n && s'.phils == s.phils[i := s'.phils[i]] && Weight(s'.phils[i], meals) < Weight(s.phils[i], meals)
  {
    if a.Try? { ForksClimb(n, i); }
    NobodyUnblocked(s.phils);
  }

  lemma StepLowersMeasure(s: Table, n: nat, meals: nat, i: nat, a: Action)
    requires Inv(s, n, meals) && At(s, meals, i, a)
    ensures Measure(Do(s, meals, i, a), meals) < Measure(s, meals)
  {
    var s' := Do(s, meals, i, a);
    StepKeepsInv(s, n, meals, i, a);
    TotalNotNegative(s'.phils, meals);
    if a.PutDown? {
      PutDownWeight(s, n, meals, i);
    } else {
      if a.TakeUp? { TakeUpKeepsInv(s, n, meals, i); }
      ForksClimb(n, i);
      OwnMoveWeight(s, n, meals, i, a);
      TotalUpdate(s.phils, meals, i, s'.phils[i]);
    }
  }

  // ---------- no deadlock ----------

  predicate Finished(p: Phil, meals: nat)
  {
    p.place.Thinking? && p.meals == meals
  }

  ghost predicate SomebodyCanMove(s: Table, meals: nat)
  {
    exists i: nat, a :: At(s, meals, i, a)
  }

  /** Only a queued or a finished philosopher cannot move. */
  lemma CannotMove(s: Table, n: nat, meals: nat, i: nat)
    requires Inv(s, n, meals) && i < n && !SomebodyCanMove(s, meals)
    ensures s.phils[i].place.Queued? || Finished(s.phils[i], meals)
  {
    assert !At(s, meals, i, Sit) && !At(s, meals, i, Try) && !At(s, meals, i, TakeUp);
    assert !At(s, meals, i, Eat) && !At(s, meals, i, PutDown);
  }

  /**
    The wait-for chain: if somebody queues for fork `f` then somebody can move, for the holder of `f`
    can itself only queue for a higher fork.
  */
  lemma {:induction false} ChainClimbs(s: Table, n: nat, meals: nat, f: nat)
    requires Inv(s, n, meals) && f < n && s.forks[f].lock.waiterQueue != []
    ensures SomebodyCanMove(s, meals)
    decreases n - f
  {
    assert ForkHeld(s, n, f) && ForkQueue(s, n, f);
    var lock := s.forks[f].lock;
    if !SomebodyCanMove(s, meals) {
      if lock.holder.None? {
        var j :| 0 <= j < n && Approaches(n, j, s.phils[j].place, f);
        assert At(s, meals, j, Try);
      } else {
        var j := lock.holder.value;
        assert Holds(n, j, s.phils[j].place, f);
        CannotMove(s, n, meals, j);
        ForksClimb(n, j);
        var g := ForkOf(n, j, 1);
        assert QueuesFor(n, j, s.phils[j].place, g);
        assert ForkQueue(s, n, g) && j in s.forks[g].lock.waiterQueue;
        ChainClimbs(s, n, meals, g);
      }
    }
  }

  lemma NoDeadlock(s: Table, n: nat, meals: nat)
    requires Inv(s, n, meals) && exists i :: 0 <= i < n && !Finished(s.phils[i], meals)
    ensures SomebodyCanMove(s, meals)
  {
    var i :| 0 <= i < n && !Finished(s.phils[i], meals);
    if !SomebodyCanMove(s, meals) {
      CannotMove(s, n, meals, i);
      ForksClimb(n, i);
      var f := ForkOf(n, i, s.phils[i].place.k);
      assert ForkQueue(s, n, f) && QueuesFor(n, i, s.phils[i].place, f);
      assert i in s.forks[f].lock.waiterQueue;
      ChainClimbs(s, n, meals, f);
    }
  }

  // ---------- the dinner ----------

  lemma InitOk(s: Table, n: nat, meals: nat)
    requires n >= 2 && Init(s, n)
    ensures Inv(s, n, meals)
  {
  }

  lemma EveryRunKeepsInv(run: seq<Table>, n: nat, meals: nat)
    requires n >= 2 && IsRun(Starts(n), Steps(meals), run)
    ensures forall i :: 0 <= i < |run| ==> Inv(run[i], n, meals)
    ensures |run| - 1 + Measure(run[|run| - 1], meals) <= Measure(run[0], meals)
  {
    var init, next := Starts(n), Steps(meals);
    var inv, measure := (s: Table) => Inv(s, n, meals), (s: Table) => Measure(s, meals);
    forall s | init(s)
      ensures inv(s)
    {
      InitOk(s, n, meals);
    }
    forall s, s' | inv(s) && next(s, s')
      ensures inv(s') && measure(s') < measure(s)
    {
      var i: nat, a :| At(s, meals, i, a) && s' == Do(s, meals, i, a);
      StepKeepsInv(s, n, meals, i, a);
      StepLowersMeasure(s, n, meals, i, a);
    }
    InvariantAlways(init, next, inv, run);
    MeasureBoundsRun(init, next, inv, measure, run);
  }

  lemma InitialTotal(phils: seq<Phil>, meals: nat)
    requires forall i :: 0 <= i < |phils| ==> phils[i] == Phil(0, Thinking)
    ensures Total(phils, meals) == 20 * meals * |phils|
  {
    SumBounds(Weights(phils, meals), 20 * meals, 20 * meals);
  }

  /** Every philosopher has had exactly `meals` meals and every fork is free. */
  ghost predicate DinnerOver(s: Table, n: nat, meals: nat)
  {
    && |s.phils| == |s.forks| == n
    && (forall i :: 0 <= i < n ==> s.phils[i] == Phil(meals, Thinking))
    && (forall f :: 0 <= f < n ==> s.forks[f].free && s.forks[f].lock.holder == None)
  }

  lemma StuckMeansOver(s: Table, n: nat, meals: nat)
    requires Inv(s, n, meals) && !SomebodyCanMove(s, meals)
    ensures DinnerOver(s, n, meals)
  {
    forall i | 0 <= i < n
      ensures Finished(s.phils[i], meals)
    {
      if !Finished(s.phils[i], meals) { NoDeadlock(s, n, meals); }
    }
    forall f | 0 <= f < n
      ensures s.forks[f].free && s.forks[f].lock.holder == None
    {
      assert ForkHeld(s, n, f);
    }
  }

  lemma MoveIsStep(s: Table, meals: nat, i: nat, a: Action)
    requires At(s, meals, i, a)
    ensures Steps(meals)(s, Do(s, meals, i, a))
  {
  }

  lemma StuckCannotMove(s: Table, meals: nat)
    requires IsStuck(Steps(meals), s)
    ensures !SomebodyCanMove(s, meals)
  {
    if SomebodyCanMove(s, meals) {
      var i: nat, a :| At(s, meals, i, a);
      MoveIsStep(s, meals, i, a);
    }
  }

  lemma InitialMeasure(s: Table, n: nat, meals: nat)
    requires Init(s, n)
    ensures Measure(s, meals) == 20 * meals * n
  {
    InitialTotal(s.phils, meals);
  }

  /** No run is longer than twenty steps a meal and philosopher. */
  lemma DinnerEnds(run: seq<Table>, n: nat, meals: nat)
    requires n >= 2 && IsRun(Starts(n), Steps(meals), run)
    ensures |run| <= 20 * meals * n + 1
  {
    EveryRunKeepsInv(run, n, meals);
    InitialMeasure(run[0], n, meals);
  }

  /** How often philosopher `i` has finished eating. */
  ghost function Feasts(run: seq<Table>, k: nat, i: nat): nat
    requires k < |run|
  {
    if k == 0 then 0
    else Feasts(run, k - 1, i) + if EatsAt(run[k - 1], i) && !EatsAt(run[k], i) then 1 else 0
  }

  ghost function FeastsOf(run: seq<Table>, i: nat): nat
    requires run != []
  {
    Feasts(run, |run| - 1, i)
  }

  predicate EatsAt(s: Table, i: nat)
  {
    i < |s.phils| && s.phils[i].place.Eating?
  }

  /** Only eating counts as a meal, and whoever eats goes on to put down its forks. */
  lemma StepCountsMeals(s: Table, n: nat, meals: nat, j: nat, a: Action, i: nat)
    requires Inv(s, n, meals) && At(s, meals, j, a) && i < n
    ensures var s' := Do(s, meals, j, a);
      |s'.phils| == n && s'.phils[i].meals == s.phils[i].meals + if EatsAt(s, i) && !EatsAt(s', i) then 1 else 0
  {
    StepKeepsInv(s, n, meals, j, a);
    if a.PutDown? {
      PutDownPlaces(s, n, meals, j);
    } else {
      if a.TakeUp? { TakeUpKeepsInv(s, n, meals, j); }
      NobodyUnblocked(s.phils);
    }
  }

  lemma {:induction false} MealsAreEaten(run: seq<Table>, n: nat, meals: nat, k: nat, i: nat)
    requires n >= 2 && IsRun(Starts(n), Steps(meals), run) && k < |run| && i < n
    ensures |run[k].phils| == n && run[k].phils[i].meals == Feasts(run, k, i)
  {
    if k > 0 {
      MealsAreEaten(run, n, meals, k - 1, i);
      EveryRunKeepsInv(run, n, meals);
      NextCountsMeals(run[k - 1], run[k], n, meals, i);
    }
  }

  lemma NextCountsMeals(s: Table, s': Table, n: nat, meals: nat, i: nat)
    requires Inv(s, n, meals) && Steps(meals)(s, s') && i < n
    ensures |s'.phils| == n
    ensures s'.phils[i].meals == s.phils[i].meals + if EatsAt(s, i) && !EatsAt(s', i) then 1 else 0
  {
    var j: nat, a :| At(s, meals, j, a) && s' == Do(s, meals, j, a);
    StepCountsMeals(s, n, meals, j, a, i);
  }

  /** A run that cannot go on has left every philosopher with exactly `meals` meals and every fork free. */
  lemma EverybodyEats(run: seq<Table>, n: nat, meals: nat)
    requires n >= 2 && IsRun(Starts(n), Steps(meals), run)
    requires IsStuck(Steps(meals), run[|run| - 1])
    ensures DinnerOver(run[|run| - 1], n, meals)
    ensures forall i: nat :: i < n ==> FeastsOf(run, i) == meals
  {
    var last := |run| - 1;
    forall i: nat | i < n
      ensures |run[last].phils| == n && run[last].phils[i].meals == FeastsOf(run, i)
    {
      MealsAreEaten(run, n, meals, last, i);
    }
    EveryRunKeepsInv(run, n, meals);
    StuckCannotMove(run[|run| - 1], meals);
    StuckMeansOver(run[|run| - 1], n, meals);
  }

  /** Whoever eats has both its forks, and whoever has finished with the right one still has the left one. */
  lemma EaterHasBoth(run: seq<Table>, n: nat, meals: nat, k: nat, i: nat)
    requires n >= 2 && IsRun(Starts(n), Steps(meals), run) && k < |run| && i < n
    ensures |run[k].phils| == |run[k].forks| == n
    ensures run[k].phils[i].place.Eating? || run[k].phils[i].place.PuttingRight? ==>
      forall f :: f == i || f == (i + 1) % n ==>
        0 <= f < n && run[k].forks[f].lock.holder == Some(i) && !run[k].forks[f].free
    ensures run[k].phils[i].place.PuttingLeft? ==>
      run[k].forks[i].lock.holder == Some(i) && !run[k].forks[i].free
  {
    EveryRunKeepsInv(run, n, meals);
    ForksClimb(n, i);
    var s := run[k];
    assert Inv(s, n, meals) && ForkHeld(s, n, i) && ForkHeld(s, n, RightFork(n, i));
    assert Holds(n, i, Eating, i) && Holds(n, i, Eating, RightFork(n, i));
  }

  /** The right fork is put down first, then the left one; a fork put down is free, and nobody has it. */
  lemma PutDownMeaning(s: Table, n: nat, meals: nat, i: nat)
    requires Inv(s, n, meals) && At(s, meals, i, PutDown)
    ensures var s', f := Do(s, meals, i, PutDown), if s.phils[i].place.PuttingRight? then (i + 1) % n else i;
      && f < n && |s'.forks| == |s'.phils| == n
      && s'.forks[f].free && s'.forks[f].lock.holder == None
      && (forall g :: 0 <= g < n && g != f ==> s'.forks[g] == s.forks[g])
      && s'.phils[i] == s.phils[i].(place := if s.phils[i].place.PuttingRight? then PuttingLeft else Thinking)
  {
    PutDownPlaces(s, n, meals, i);
  }

  /** Two philosophers who share a fork never eat at once, and nobody ever waits on a fork's condition. */
  lemma NeighboursExclude(run: seq<Table>, n: nat, meals: nat, k: nat, i: nat)
    requires n >= 2 && IsRun(Starts(n), Steps(meals), run)
    requires k < |run| && i < n
    ensures |run[k].phils| == n && !run[k].phils[i].place.Waiting?
    ensures RightFork(n, i) != i && !(run[k].phils[i].place.Eating? && run[k].phils[RightFork(n, i)].place.Eating?)
  {
    EveryRunKeepsInv(run, n, meals);
    ForksClimb(n, i);
    var s, j := run[k], RightFork(n, i);
    assert Inv(s, n, meals) && ForkHeld(s, n, j);
    assert Holds(n, i, Eating, j) && Holds(n, j, Eating, j);
  }
}
