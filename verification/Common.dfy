/** Notions shared by all the models. */
module Common {
  datatype Option<+T> = None | Some(value: T)

  /** A thread is known by its number. */
  type Tid = nat

  ghost predicate NoDuplicates<T>(s: seq<T>)
  {
    forall i, j :: 0 <= i < j < |s| ==> s[i] != s[j]
  }

  /** `uthread_enqueue`, for a thread on no other queue: one that is already there keeps its place. */
  function Enqueue(q: seq<Tid>, t: Tid): (r: seq<Tid>)
    ensures t in r && q <= r && (t in q ==> r == q)
    ensures t !in q ==> |r| == |q| + 1 && r[|q|] == t
    ensures NoDuplicates(q) ==> NoDuplicates(r)
  {
    if t in q then q else q + [t]
  }

  /** Cutting a sequence without repetition gives two such sequences with nothing in common. */
  lemma CutNoDuplicates<T>(a: seq<T>, b: seq<T>)
    requires NoDuplicates(a + b)
    ensures NoDuplicates(a) && NoDuplicates(b)
    ensures forall x :: x in a + b <==> x in a || x in b
    ensures forall x :: !(x in a && x in b)
  {
    var s := a + b;
    forall i, j | 0 <= i < |a| && 0 <= j < |b|
      ensures a[i] != b[j]
    {
      assert s[i] == a[i] && s[|a| + j] == b[j];
    }
    forall i, j | 0 <= i < j < |a|
      ensures a[i] != a[j]
    {
      assert s[i] == a[i] && s[j] == a[j];
    }
    forall i, j | 0 <= i < j < |b|
      ensures b[i] != b[j]
    {
      assert s[|a| + i] == b[i] && s[|a| + j] == b[j];
    }
  }

  /** Two sets that differ in at most one member. */
  lemma OneMemberMoves<T>(before: set<T>, after: set<T>, x: T)
    requires after - {x} == before - {x}
    ensures |after| == |before| - (if x in before then 1 else 0) + (if x in after then 1 else 0)
  {
    var rest := before - {x};
    assert before == if x in before then rest + {x} else rest;
    assert after == if x in after then rest + {x} else rest;
  }
}
