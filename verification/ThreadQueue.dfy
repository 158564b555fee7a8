/**
  The intrusive thread queues (a10/uthreads/uthread.c, lines 124-175).

  A thread control block has one `next` field, which every queue of the library shares.  The ghost
  field `items` of a queue is the sequence of threads it stands for.
*/
module ThreadQueue {
  import opened Common

  class Uthread {
    var next: Uthread?

    constructor ()
      ensures next == null
    {
      next := null;
    }
  }

  class Queue {
    var head: Uthread?
    var tail: Uthread?
    ghost var items: seq<Uthread>

    /** Following `next` from `head` gives `items`, without repetition, and stops at `tail`. */
    ghost predicate IsList()
      reads this, items
    {
      && NoDuplicates(items)
      && (items == [] ==> head == null && tail == null)
      && (items != [] ==> head == items[0] && tail == items[|items| - 1] && items[|items| - 1].next == null)
      && forall i :: 0 <= i < |items| - 1 ==> items[i].next == items[i + 1]
    }

    /** `uthread_initqueue` */
    constructor ()
      ensures IsList() && items == []
    {
      head := null;
      tail := null;
      items := [];
    }

    /** `uthread_queue_is_empty` */
    predicate IsEmpty()
      requires IsList()
      reads this, items
      ensures IsEmpty() <==> items == []
    {
      head == null
    }

    /** The test by which `uthread_enqueue` recognises a thread that is already queued. */
    predicate SeemsEnqueued(thread: Uthread)
      reads this, thread
    {
      thread.next != null || thread == tail
    }

    /** The pointer writes of `uthread_enqueue`. */
    method Append(thread: Uthread)
      requires IsList() && thread !in items
      modifies this, thread, tail
      ensures IsList() && items == old(items) + [thread] && tail == thread && thread.next == null
      ensures old(tail) != null && old(tail) != thread ==> old(tail).next == thread
    {
      assert tail != null ==> tail in items;
      thread.next := null;
      if tail != null {
        tail.next := thread;
      }
      tail := thread;
      if head == null {
        head := tail;
      }
      items := items + [thread];
    }

    /**
      `uthread_enqueue`.  Whatever queues the thread is on, this queue stays a list and gains the
      thread at its end unless the thread seems enqueued.  The call does its work, that is, it leaves
      the thread on this queue and the queues disjoint, exactly when no other queue holds the thread.
    */
    method Enqueue(thread: Uthread, ghost queues: set<Queue>, ghost threads: set<Uthread>)
      requires IsSystem(queues, threads) && this in queues && thread in threads
      modifies this, thread, tail
      ensures IsList()
      ensures items == if old(SeemsEnqueued(thread)) then old(items) else old(items) + [thread]
      ensures old(thread in items) ==> items == old(items)
      ensures forall q :: q in queues && q != this ==> q.items == old(q.items)
      ensures IsSystem(queues, threads) && thread in items <==> old(OnNoOther(this, thread, queues))
    {
      GuardMeaning(this, thread, queues, threads);
      ghost var alone := OnNoOther(this, thread, queues);
      if SeemsEnqueued(thread) {
        return;
      }
      assert tail != null ==> tail in items;
      Append(thread);
      assert forall t :: t in items <==> t in old(items) || t == thread;
      if alone {
        forall q | q in queues
          ensures q.IsList() && forall t :: t in q.items ==> t in threads
        {
          if q != this { assert thread !in q.items && (old(tail) != null ==> old(tail) !in q.items); }
        }
        forall t | t in threads && (forall q :: q in queues ==> t !in q.items)
          ensures t.next == null
        {
          assert t !in items && t !in old(items);
          assert forall q :: q in queues && q != this ==> q.items == old(q.items);
        }
        assert IsSystem(queues, threads);
      } else {
        var r :| r in queues && r != this && old(thread in r.items);
        assert thread in r.items && thread in items;
      }
    }

    /** `uthread_dequeue`: the first thread leaves, and is then on no queue at all. */
    method Dequeue(ghost queues: set<Queue>, ghost threads: set<Uthread>) returns (thread: Uthread?)
      requires IsSystem(queues, threads) && this in queues
      modifies this, items
      ensures IsSystem(queues, threads)
      ensures old(items) == [] ==> thread == null && items == []
      ensures old(items) != [] ==> thread == old(items)[0] && items == old(items)[1..]
      ensures forall q :: q in queues && q != this ==> q.items == old(q.items)
      ensures thread != null ==> forall q :: q in queues ==> thread !in q.items
    {
      if head != null {
        var first: Uthread := head;
        head := first.next;
        first.next := null;
        if head == null {
          tail := null;
        }
        thread := first;
        items := items[1..];
      } else {
        thread := null;
      }
    }
  }

  /** The queues of the library: each is a list, no two share a thread, and a thread on none has no `next`. */
  ghost predicate IsSystem(queues: set<Queue>, threads: set<Uthread>)
    reads queues, threads
  {
    && (forall q :: q in queues ==> (forall t :: t in q.items ==> t in threads) && q.IsList())
    && (forall q, r, t :: q in queues && r in queues && q != r && t in q.items ==> t !in r.items)
    && (forall t :: t in threads && (forall q :: q in queues ==> t !in q.items) ==> t.next == null)
  }

  ghost predicate OnNoOther(q: Queue, thread: Uthread, queues: set<Queue>)
    reads queues
  {
    forall r :: r in queues && r != q ==> thread !in r.items
  }

  /** On a list, exactly the threads before the last one have a successor. */
  lemma HasNext(q: Queue, thread: Uthread)
    requires q.IsList() && thread in q.items
    ensures thread.next != null <==> thread != q.tail
  {
    var i :| 0 <= i < |q.items| && q.items[i] == thread;
    assert i < |q.items| - 1 ==> thread.next == q.items[i + 1];
  }

  /** Thread `t` waits on another queue than `q`, and is not the last there. */
  ghost predicate InsideAnother(q: Queue, thread: Uthread, queues: set<Queue>)
    reads queues
  {
    exists r :: r in queues && r != q && thread in r.items && thread != r.tail
  }

  /** What the enqueue test sees: membership here, or a place other than the last in another queue. */
  lemma GuardMeaning(q: Queue, thread: Uthread, queues: set<Queue>, threads: set<Uthread>)
    requires IsSystem(queues, threads) && q in queues && thread in threads
    ensures q.SeemsEnqueued(thread) <==> thread in q.items || InsideAnother(q, thread, queues)
    ensures (q.SeemsEnqueued(thread) <==> thread in q.items) <==> !InsideAnother(q, thread, queues)
  {
    forall r | r in queues && thread in r.items
      ensures thread.next != null <==> thread != r.tail
    {
      HasNext(r, thread);
    }
    if thread == q.tail { assert thread in q.items; }
    assert InsideAnother(q, thread, queues) ==> thread !in q.items;
  }

  /**
    What the enqueue test does not see: a thread that is the last one of another queue has no successor, so it
    is appended here too, and is then on both queues.
  */
  method QueuedTwice() returns (q: Queue, r: Queue, thread: Uthread)
    ensures fresh(q) && fresh(r) && fresh(thread) && q != r
    ensures q.IsList() && r.IsList() && q.items == [thread] && r.items == [thread]
    ensures !IsSystem({q, r}, {thread})
  {
    q := new Queue();
    r := new Queue();
    thread := new Uthread();
    var queues, threads := {q, r}, {thread};
    r.Enqueue(thread, queues, threads);
    assert IsSystem(queues, threads) && thread in r.items && thread == r.tail;
    assert thread !in q.items && !q.SeemsEnqueued(thread) && !OnNoOther(q, thread, queues);
    q.Enqueue(thread, queues, threads);
    assert r.items == [thread] && thread in q.items && thread in r.items;
  }
}
