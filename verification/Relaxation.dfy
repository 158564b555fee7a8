/**
  The threads of the tiled relaxation (examples/uthread/examples/sor.c, lines 106-167).

  `Tiling` shows that the tiles share out the matrix; `Relaxation` runs one thread a tile, with one step for
  every access to the shared matrices, and shows that the barriers make the result that of a single thread.
*/
module Tiling {
  import opened SquareMatrices

  /** Where the `i`-th of `tpr` strips of `n` rows (or columns) begins. */
  function Low(n: nat, tpr: nat, i: nat): nat
    requires tpr > 0
  {
    i * n / tpr
  }

  function TileOf(n: nat, tpr: nat, i: nat, j: nat): Tile
    requires tpr > 0
  {
    Tile(Low(n, tpr, i), Low(n, tpr, i + 1) - 1, Low(n, tpr, j), Low(n, tpr, j + 1) - 1)
  }

  lemma QuotientMonotone(x: nat, y: nat, d: nat)
    requires d > 0 && x <= y
    ensures x / d <= y / d
  {
    if x / d > y / d {
      MultiplyMonotone(y / d + 1, x / d, d);
    }
  }

  lemma LowMonotone(n: nat, tpr: nat, i: nat, j: nat)
    requires tpr > 0 && i <= j
    ensures Low(n, tpr, i) <= Low(n, tpr, j)
  {
    MultiplyMonotone(i, j, n);
    QuotientMonotone(i * n, j * n, tpr);
  }

  /** The whole part of `i * n / tpr`; when `tpr` divides `n` every strip has as many rows. */
  lemma LowIsFloor(n: nat, tpr: nat, i: nat)
    requires tpr > 0
    ensures tpr * Low(n, tpr, i) <= i * n < tpr * (Low(n, tpr, i) + 1)
    ensures n % tpr == 0 ==> Low(n, tpr, i) == i * (n / tpr)
  {
    if n % tpr == 0 {
      assert i * n == i * ((n / tpr) * tpr) == (i * (n / tpr)) * tpr;
      DivisionUnique(tpr, i * (n / tpr), 0, i * n);
    }
  }

  lemma LowEnds(n: nat, tpr: nat)
    requires tpr > 0
    ensures Low(n, tpr, 0) == 0 && Low(n, tpr, tpr) == n
  {
    DivisionUnique(tpr, n, 0, tpr * n);
  }

  /** The strip of row `x`: the last one that begins at or before it. */
  function StripUpTo(n: nat, tpr: nat, x: nat, i: nat): (r: nat)
    requires tpr > 0
    ensures r <= i && (Low(n, tpr, 0) <= x ==> Low(n, tpr, r) <= x)
    ensures r < i ==> x < Low(n, tpr, r + 1)
  {
    if i == 0 || Low(n, tpr, i) <= x then i else StripUpTo(n, tpr, x, i - 1)
  }

  function StripOf(n: nat, tpr: nat, x: nat): (r: nat)
    requires tpr > 0 && x < n
    ensures r < tpr && Low(n, tpr, r) <= x < Low(n, tpr, r + 1)
  {
    LowEnds(n, tpr);
    StripUpTo(n, tpr, x, tpr)
  }

  lemma StripIsUnique(n: nat, tpr: nat, x: nat, i: nat)
    requires tpr > 0 && x < n && Low(n, tpr, i) <= x < Low(n, tpr, i + 1)
    ensures i == StripOf(n, tpr, x)
  {
    var r := StripOf(n, tpr, x);
    if i < r {
      LowMonotone(n, tpr, i + 1, r);
    } else if i > r {
      LowMonotone(n, tpr, r + 1, i);
    }
  }

  /** The thread, numbered as `sor` numbers them, that a cell belongs to. */
  function Owner(n: nat, tpr: nat, k: nat): (t: nat)
    requires tpr > 0 && n > 0 && k < n * n
    ensures t < tpr * tpr
  {
    Cell(tpr, StripOf(n, tpr, RowOf(n, k)), StripOf(n, tpr, ColOf(n, k)))
  }

  /** For every number of strips, even one that does not divide `n`, each cell is in exactly one tile. */
  lemma TilesPartition(n: nat, tpr: nat, k: nat, i: nat, j: nat)
    requires tpr > 0 && n > 0 && k < n * n && i < tpr && j < tpr
    ensures Fits(TileOf(n, tpr, i, j), n)
    ensures InTile(TileOf(n, tpr, i, j), n, k) <==> Owner(n, tpr, k) == Cell(tpr, i, j)
  {
    var a, b := StripOf(n, tpr, RowOf(n, k)), StripOf(n, tpr, ColOf(n, k));
    LowEnds(n, tpr);
    LowMonotone(n, tpr, i, i + 1);
    LowMonotone(n, tpr, i + 1, tpr);
    LowMonotone(n, tpr, j, j + 1);
    LowMonotone(n, tpr, j + 1, tpr);
    CellNames(tpr, a, b);
    CellNames(tpr, i, j);
    if InTile(TileOf(n, tpr, i, j), n, k) {
      StripIsUnique(n, tpr, RowOf(n, k), i);
      StripIsUnique(n, tpr, ColOf(n, k), j);
    }
  }
}

module Relaxation {
  import opened Runs
  import opened Sums
  import opened SquareMatrices

  /** `owner` gives every cell to one thread: the threads' tiles, of whatever shape. */
  datatype Config = Config(size: nat, start: Grid, owner: seq<nat>, threads: nat, iterations: nat)

  ghost predicate ConfigOk(c: Config)
  {
    IsGrid(c.start, c.size) && IsGrid(c.owner, c.size) && forall k :: 0 <= k < |c.owner| ==> c.owner[k] < c.threads
  }

  function TileCells(c: Config, t: nat): set<nat>
  {
    set k: nat | k < |c.owner| && c.owner[k] == t
  }

  /**
    `Adding`: has read the first `j` cells around cell `k`, which sum up to `total`.  `Holding`: has read the
    value of cell `k` from the temporary matrix.  `Arrived`: waits at the barrier.
  */
  datatype Work = Idle | Adding(k: nat, j: nat, total: int) | Holding(k: nat, value: int) | Arrived

  /** Stage `2 * i` relaxes in iteration `i`, stage `2 * i + 1` copies back; `pending` are the cells left. */
  datatype Thread = Thread(stage: nat, pending: set<nat>, work: Work)

  datatype State = State(matrix: Grid, temp: Grid, threads: seq<Thread>)

  datatype Action = Begin(k: nat) | Add | Store | Load(k: nat) | Keep | Arrive | Pass

  function Last(c: Config): nat
  {
    2 * c.iterations
  }

  /** Everybody has come to the barrier at the end of stage `stage`. */
  ghost predicate AllArrived(s: State, stage: nat)
  {
    forall u :: 0 <= u < |s.threads| ==>
      s.threads[u].stage > stage || (s.threads[u].stage == stage && s.threads[u].work.Arrived?)
  }

  ghost predicate At(c: Config, s: State, t: nat, a: Action)
  {
    ConfigOk(c) && IsGrid(s.matrix, c.size) && IsGrid(s.temp, c.size) && t < |s.threads|
    && var th := s.threads[t];
       th.stage < Last(c)
       && match a
          case Begin(k) => th.stage % 2 == 0 && th.work.Idle? && k in th.pending && k < |c.owner|
          case Add => th.work.Adding? && th.work.j < 9 && th.work.k < |c.owner|
          case Store => th.work.Adding? && th.work.j == 9 && th.work.k < |c.owner|
          case Load(k) => th.stage % 2 == 1 && th.work.Idle? && k in th.pending && k < |c.owner|
          case Keep => th.work.Holding? && th.work.k < |c.owner|
          case Arrive => th.work.Idle? && th.pending == {}
          case Pass => th.work.Arrived? && AllArrived(s, th.stage)
  }

  function Put(s: State, t: nat, th: Thread): State
    requires t < |s.threads|
  {
    s.(threads := s.threads[t := th])
  }

  ghost function Do(c: Config, s: State, t: nat, a: Action): State
    requires At(c, s, t, a)
  {
    var th := s.threads[t];
    match a
    case Begin(k) => Put(s, t, th.(work := Adding(k, 0, 0)))
    case Add =>
      var w := th.work;
      var v := s.matrix[Neighbour(c.size, RowOf(c.size, w.k), ColOf(c.size, w.k), w.j)];
      Put(s, t, th.(work := Adding(w.k, w.j + 1, w.total + v)))
    case Store =>
      Put(s, t, th.(pending := th.pending - {th.work.k}, work := Idle))
        .(temp := s.temp[th.work.k := Quotient(th.work.total, 9)])
    case Load(k) => Put(s, t, th.(work := Holding(k, s.temp[k])))
    case Keep =>
      Put(s, t, th.(pending := th.pending - {th.work.k}, work := Idle)).(matrix := s.matrix[th.work.k := th.work.value])
    case Arrive => Put(s, t, th.(work := Arrived))
    case Pass => Put(s, t, Thread(th.stage + 1, TileCells(c, t), Idle))
  }

  ghost predicate Init(c: Config, s: State)
  {
    && s.matrix == c.start && IsGrid(s.temp, c.size) && |s.threads| == c.threads
    && forall t :: 0 <= t < c.threads ==> s.threads[t] == Thread(0, TileCells(c, t), Idle)
  }

  ghost predicate Next(c: Config, s: State, s': State)
  {
    exists t: nat, a :: At(c, s, t, a) && s' == Do(c, s, t, a)
  }

  ghost function Starts(c: Config): State -> bool
  {
    s => Init(c, s)
  }

  ghost function Steps(c: Config): (State, State) -> bool
  {
    (s, s') => Next(c, s, s')
  }

  // ---------- the invariant ----------

  /** The matrix after `i` iterations of one thread alone. */
  function After(c: Config, i: nat): Grid
    requires IsGrid(c.start, c.size)
  {
    Iterate(c.start, c.size, i)
  }

  ghost predicate WorkOk(c: Config, th: Thread)
    requires ConfigOk(c)
  {
    match th.work
    case Idle => true
    case Adding(k, j, total) =>
      th.stage % 2 == 0 && k in th.pending && k < |c.owner| && j <= 9
      && total == Sum(Around(After(c, th.stage / 2), c.size, RowOf(c.size, k), ColOf(c.size, k))[..j])
    case Holding(k, v) =>
      th.stage % 2 == 1 && k in th.pending && k < |c.owner| && v == After(c, th.stage / 2 + 1)[k]
    case Arrived => th.pending == {}
  }

  ghost predicate ThreadOk(c: Config, th: Thread, t: nat)
    requires ConfigOk(c)
  {
    th.stage <= Last(c) && th.pending <= TileCells(c, t) && WorkOk(c, th) && (th.stage == Last(c) ==> th.work.Idle?)
  }

  /** What the two matrices hold in a cell, as far as its thread `th` has come. */
  ghost predicate CellOk(c: Config, th: Thread, k: nat, m: int, v: int)
    requires ConfigOk(c) && k < |c.owner|
  {
    var i := th.stage / 2;
    if th.stage % 2 == 0 then
      m == After(c, i)[k] && (k !in th.pending && th.stage < Last(c) ==> v == After(c, i + 1)[k])
    else
      v == After(c, i + 1)[k] && m == After(c, if k in th.pending then i else i + 1)[k]
  }

  /** No thread is more than a stage behind another, and then it waits at the barrier. */
  ghost predicate InStep(th: Thread, other: Thread)
  {
    th.stage < other.stage ==> th.stage + 1 == other.stage && th.work.Arrived?
  }

  ghost predicate AllInStep(threads: seq<Thread>)
  {
    forall t, u :: 0 <= t < |threads| && 0 <= u < |threads| ==> InStep(threads[t], threads[u])
  }

  /** A thread that was not at the barrier stays in step as long as it stays in its stage. */
  lemma StaysInStep(threads: seq<Thread>, t: nat, th: Thread)
    requires AllInStep(threads) && t < |threads| && th.stage == threads[t].stage && !threads[t].work.Arrived?
    ensures AllInStep(threads[t := th])
  {
    assert forall u :: 0 <= u < |threads| ==> InStep(threads[t], threads[u]) && InStep(threads[u], threads[t]);
  }

  ghost predicate Shape(c: Config, s: State)
  {
    ConfigOk(c) && IsGrid(s.matrix, c.size) && IsGrid(s.temp, c.size) && |s.threads| == c.threads
  }

  ghost predicate Inv(c: Config, s: State)
  {
    && Shape(c, s)
    && (forall t :: 0 <= t < c.threads ==> ThreadOk(c, s.threads[t], t))
    && AllInStep(s.threads)
    && (forall k :: 0 <= k < |c.owner| ==> CellOk(c, s.threads[c.owner[k]], k, s.matrix[k], s.temp[k]))
  }

  lemma InitOk(c: Config, s: State)
    requires ConfigOk(c) && Init(c, s)
    ensures Inv(c, s)
  {
    assert After(c, 0) == c.start;
    assert forall k: nat :: k < |c.owner| ==> k in TileCells(c, c.owner[k]);
  }

  /** Between barriers a relaxing thread sees the same iteration everywhere, whatever the others do. */
  lemma SeesOneIteration(c: Config, s: State, t: nat, k: nat)
    requires Inv(c, s) && t < c.threads && s.threads[t].stage % 2 == 0 && !s.threads[t].work.Arrived? && k < |c.owner|
    ensures s.matrix[k] == After(c, s.threads[t].stage / 2)[k]
  {
    var th, other := s.threads[t], s.threads[c.owner[k]];
    assert InStep(th, other) && InStep(other, th) && CellOk(c, other, k, s.matrix[k], s.temp[k]);
    assert ThreadOk(c, other, c.owner[k]);
  }

  /** A step that only changes one thread's work. */
  lemma WorkKeepsInv(c: Config, s: State, t: nat, th: Thread)
    requires Inv(c, s) && t < c.threads && ThreadOk(c, th, t)
    requires th.stage == s.threads[t].stage && th.pending == s.threads[t].pending && !s.threads[t].work.Arrived?
    ensures Inv(c, Put(s, t, th))
  {
    StaysInStep(s.threads, t, th);
  }

  /** A step that finishes one cell. */
  lemma CellKeepsInv(c: Config, s: State, t: nat, k: nat, s': State)
    requires Inv(c, s) && t < c.threads && k < |c.owner| && k in s.threads[t].pending && !s.threads[t].work.Arrived?
    requires var th := s.threads[t]; s'.threads == s.threads[t := th.(pending := th.pending - {k}, work := Idle)]
    requires IsGrid(s'.matrix, c.size) && IsGrid(s'.temp, c.size)
    requires forall j: nat :: j < |c.owner| && j != k ==> s'.matrix[j] == s.matrix[j] && s'.temp[j] == s.temp[j]
    requires CellOk(c, s'.threads[t], k, s'.matrix[k], s'.temp[k])
    ensures Inv(c, s')
  {
    assert ThreadOk(c, s.threads[t], t);
    StaysInStep(s.threads, t, s'.threads[t]);
    forall j | 0 <= j < |c.owner|
      ensures CellOk(c, s'.threads[c.owner[j]], j, s'.matrix[j], s'.temp[j])
    {
      assert CellOk(c, s.threads[c.owner[j]], j, s.matrix[j], s.temp[j]);
    }
  }

  lemma AddKeepsInv(c: Config, s: State, t: nat)
    requires Inv(c, s) && At(c, s, t, Add)
    ensures Inv(c, Do(c, s, t, Add))
  {
    var th, n := s.threads[t], c.size;
    assert ThreadOk(c, th, t);
    var row, col := RowOf(n, th.work.k), ColOf(n, th.work.k);
    SeesOneIteration(c, s, t, Neighbour(n, row, col, th.work.j));
    SumNext(Around(After(c, th.stage / 2), n, row, col), th.work.j);
    WorkKeepsInv(c, s, t, Do(c, s, t, Add).threads[t]);
  }

  lemma StoreKeepsInv(c: Config, s: State, t: nat)
    requires Inv(c, s) && At(c, s, t, Store)
    ensures Inv(c, Do(c, s, t, Store))
  {
    var th, k, n := s.threads[t], s.threads[t].work.k, c.size;
    assert ThreadOk(c, th, t);
    var around := Around(After(c, th.stage / 2), n, RowOf(n, k), ColOf(n, k));
    assert around[..9] == around;
    assert After(c, th.stage / 2 + 1)[k] == Quotient(th.work.total, 9);
    assert CellOk(c, th, k, s.matrix[k], s.temp[k]) by { assert c.owner[k] == t; }
    CellKeepsInv(c, s, t, k, Do(c, s, t, Store));
  }

  lemma KeepKeepsInv(c: Config, s: State, t: nat)
    requires Inv(c, s) && At(c, s, t, Keep)
    ensures Inv(c, Do(c, s, t, Keep))
  {
    var th, k := s.threads[t], s.threads[t].work.k;
    assert ThreadOk(c, th, t);
    assert CellOk(c, th, k, s.matrix[k], s.temp[k]) by { assert c.owner[k] == t; }
    CellKeepsInv(c, s, t, k, Do(c, s, t, Keep));
  }

  lemma LoadKeepsInv(c: Config, s: State, t: nat, k: nat)
    requires Inv(c, s) && At(c, s, t, Load(k))
    ensures Inv(c, Do(c, s, t, Load(k)))
  {
    var th := s.threads[t];
    assert ThreadOk(c, th, t);
    assert CellOk(c, th, k, s.matrix[k], s.temp[k]) by { assert c.owner[k] == t; }
    WorkKeepsInv(c, s, t, Do(c, s, t, Load(k)).threads[t]);
  }

  lemma PassKeepsInv(c: Config, s: State, t: nat)
    requires Inv(c, s) && At(c, s, t, Pass)
    ensures Inv(c, Do(c, s, t, Pass))
  {
    var th, s' := s.threads[t], Do(c, s, t, Pass);
    assert ThreadOk(c, th, t);
    forall u | 0 <= u < c.threads
      ensures InStep(s'.threads[t], s'.threads[u]) && InStep(s'.threads[u], s'.threads[t])
    {
      assert InStep(th, s.threads[u]);
    }
    forall k | 0 <= k < |c.owner|
      ensures CellOk(c, s'.threads[c.owner[k]], k, s'.matrix[k], s'.temp[k])
    {
      assert CellOk(c, s.threads[c.owner[k]], k, s.matrix[k], s.temp[k]);
      assert c.owner[k] == t ==> k in TileCells(c, t);
    }
  }

  lemma StepKeepsInv(c: Config, s: State, t: nat, a: Action)
    requires Inv(c, s) && At(c, s, t, a)
    ensures Inv(c, Do(c, s, t, a))
  {
    assert ThreadOk(c, s.threads[t], t);
    match a
    case Begin(k) => WorkKeepsInv(c, s, t, Do(c, s, t, a).threads[t]);
    case Add => AddKeepsInv(c, s, t);
    case Store => StoreKeepsInv(c, s, t);
    case Load(k) => LoadKeepsInv(c, s, t, k);
    case Keep => KeepKeepsInv(c, s, t);
    case Arrive => WorkKeepsInv(c, s, t, Do(c, s, t, a).threads[t]);
    case Pass => PassKeepsInv(c, s, t);
  }

  // ---------- nobody is stranded at a barrier ----------

  ghost predicate SomebodyCanMove(c: Config, s: State)
  {
    exists t: nat, a :: At(c, s, t, a)
  }

  predicate Finished(c: Config, th: Thread)
  {
    th.stage == Last(c)
  }

  ghost predicate AllFinished(c: Config, s: State)
  {
    |s.threads| == c.threads && forall t :: 0 <= t < c.threads ==> Finished(c, s.threads[t])
  }

  /** A thread that is neither finished nor at a barrier can always go on. */
  lemma OnlyArrivedWait(c: Config, s: State, t: nat)
    requires Shape(c, s) && t < c.threads && ThreadOk(c, s.threads[t], t) && !SomebodyCanMove(c, s)
    ensures Finished(c, s.threads[t]) || s.threads[t].work.Arrived?
  {
    var th := s.threads[t];
    assert !At(c, s, t, Add) && !At(c, s, t, Store) && !At(c, s, t, Keep) && !At(c, s, t, Arrive);
    if th.work.Idle? && th.pending != {} {
      var k :| k in th.pending;
      assert !At(c, s, t, Begin(k)) && !At(c, s, t, Load(k));
    }
  }

  lemma {:induction false} SomebodyIsLast(c: Config, s: State, n: nat) returns (t: nat)
    requires Shape(c, s) && 0 < n <= c.threads
    ensures t < n && forall u :: 0 <= u < n ==> s.threads[t].stage <= s.threads[u].stage
  {
    t := 0;
    if n > 1 {
      t := SomebodyIsLast(c, s, n - 1);
      if s.threads[n - 1].stage < s.threads[t].stage { t := n - 1; }
    }
  }

  /** Unless all threads are finished, one of them can move. */
  lemma NoDeadlock(c: Config, s: State)
    requires Inv(c, s) && !SomebodyCanMove(c, s)
    ensures AllFinished(c, s)
  {
    if c.threads > 0 {
      var t := SomebodyIsLast(c, s, c.threads);
      forall u | 0 <= u < c.threads
        ensures Finished(c, s.threads[u]) || s.threads[u].work.Arrived?
        ensures ThreadOk(c, s.threads[u], u) && InStep(s.threads[u], s.threads[t])
      {
        OnlyArrivedWait(c, s, u);
      }
      assert !At(c, s, t, Pass);
    }
  }

  // ---------- every run ends ----------

  /** The steps of thread `t` in one stage, at most. */
  function StageSteps(c: Config, t: nat): nat
  {
    11 * |TileCells(c, t)| + 2
  }

  function Progress(c: Config, th: Thread, t: nat): int
  {
    11 * (|TileCells(c, t)| - |th.pending|)
    + match th.work case Idle => 0 case Adding(_, j, _) => 1 + j case Holding(_, _) => 1 case Arrived => 1
  }

  function Rank(c: Config, th: Thread, t: nat): int
  {
    if Finished(c, th) then 0 else (Last(c) - th.stage) * StageSteps(c, t) - Progress(c, th, t)
  }

  function Ranks(c: Config, s: State): seq<int>
  {
    seq(|s.threads|, t requires 0 <= t < |s.threads| => Rank(c, s.threads[t], t))
  }

  lemma SubsetSize<T>(x: set<T>, y: set<T>)
    requires x <= y
    ensures |x| <= |y|
  {
    assert y == x + (y - x);
  }

  lemma ProgressInStage(c: Config, th: Thread, t: nat)
    requires ConfigOk(c) && ThreadOk(c, th, t)
    ensures 0 <= Progress(c, th, t) < StageSteps(c, t)
  {
    SubsetSize(th.pending, TileCells(c, t));
    if th.work.Adding? || th.work.Holding? {
      SubsetSize({th.work.k}, th.pending);
    }
  }

  lemma RankNotNegative(c: Config, th: Thread, t: nat)
    requires ConfigOk(c) && ThreadOk(c, th, t)
    ensures 0 <= Rank(c, th, t)
  {
    ProgressInStage(c, th, t);
    if !Finished(c, th) { MultiplyMonotone(1, Last(c) - th.stage, StageSteps(c, t)); }
  }

  ghost function Measure(c: Config, s: State): nat
  {
    var m := Sum(Ranks(c, s));
    if m < 0 then 0 else m
  }

  lemma MeasureIsSum(c: Config, s: State)
    requires Inv(c, s)
    ensures Measure(c, s) == Sum(Ranks(c, s))
  {
    forall t: nat | t < c.threads
      ensures 0 <= Ranks(c, s)[t]
    {
      assert ThreadOk(c, s.threads[t], t);
      RankNotNegative(c, s.threads[t], t);
    }
    SumNotNegative(Ranks(c, s));
  }

  /** Within a stage every step is progress. */
  lemma ProgressGrows(c: Config, s: State, t: nat, a: Action)
    requires Shape(c, s) && At(c, s, t, a) && ThreadOk(c, s.threads[t], t) && !a.Pass?
    ensures Do(c, s, t, a).threads[t].stage == s.threads[t].stage
    ensures Progress(c, Do(c, s, t, a).threads[t], t) > Progress(c, s.threads[t], t)
  {
  }

  lemma PassLowersRank(c: Config, th: Thread, t: nat)
    requires ConfigOk(c) && ThreadOk(c, th, t) && th.work.Arrived?
    ensures Rank(c, Thread(th.stage + 1, TileCells(c, t), Idle), t) < Rank(c, th, t)
  {
    ProgressInStage(c, th, t);
    var d := Last(c) - th.stage;
    assert d * StageSteps(c, t) == (d - 1) * StageSteps(c, t) + StageSteps(c, t);
  }

  lemma ProgressLowersRank(c: Config, th: Thread, after: Thread, t: nat)
    requires th.stage == after.stage && !Finished(c, th) && Progress(c, after, t) > Progress(c, th, t)
    ensures Rank(c, after, t) < Rank(c, th, t)
  {
  }

  lemma RankDrops(c: Config, s: State, t: nat, a: Action)
    requires Shape(c, s) && At(c, s, t, a) && ThreadOk(c, s.threads[t], t)
    ensures Rank(c, Do(c, s, t, a).threads[t], t) < Rank(c, s.threads[t], t)
  {
    if a.Pass? {
      PassLowersRank(c, s.threads[t], t);
    } else {
      ProgressGrows(c, s, t, a);
      ProgressLowersRank(c, s.threads[t], Do(c, s, t, a).threads[t], t);
    }
  }

  lemma RanksUpdate(c: Config, s: State, s': State, t: nat)
    requires t < |s.threads| == |s'.threads|
    requires forall u :: 0 <= u < |s.threads| && u != t ==> s'.threads[u] == s.threads[u]
    ensures Sum(Ranks(c, s')) - Rank(c, s'.threads[t], t) == Sum(Ranks(c, s)) - Rank(c, s.threads[t], t)
  {
    assert Ranks(c, s') == Ranks(c, s)[t := Rank(c, s'.threads[t], t)];
    SumUpdate(Ranks(c, s), t, Rank(c, s'.threads[t], t));
  }

  lemma StepLowersMeasure(c: Config, s: State, t: nat, a: Action)
    requires Inv(c, s) && At(c, s, t, a)
    ensures Measure(c, Do(c, s, t, a)) < Measure(c, s)
  {
    var s' := Do(c, s, t, a);
    StepKeepsInv(c, s, t, a);
    MeasureIsSum(c, s);
    MeasureIsSum(c, s');
    assert ThreadOk(c, s.threads[t], t);
    RankDrops(c, s, t, a);
    RanksUpdate(c, s, s', t);
  }

  // ---------- the results ----------

  lemma EveryRunKeepsInv(c: Config, run: seq<State>)
    requires ConfigOk(c) && IsRun(Starts(c), Steps(c), run)
    ensures forall i :: 0 <= i < |run| ==> Inv(c, run[i])
    ensures |run| - 1 + Measure(c, run[|run| - 1]) <= Measure(c, run[0])
  {
    var init, next := Starts(c), Steps(c);
    var inv, measure := (s: State) => Inv(c, s), (s: State) => Measure(c, s);
    forall s | init(s)
      ensures inv(s)
    {
      InitOk(c, s);
    }
    forall s, s' | inv(s) && next(s, s')
      ensures inv(s') && measure(s') < measure(s)
    {
      var t: nat, a :| At(c, s, t, a) && s' == Do(c, s, t, a);
      StepKeepsInv(c, s, t, a);
      StepLowersMeasure(c, s, t, a);
    }
    InvariantAlways(init, next, inv, run);
    MeasureBoundsRun(init, next, inv, measure, run);
  }

  ghost predicate AllAt(c: Config, s: State, stage: nat)
  {
    |s.threads| == c.threads && forall t :: 0 <= t < c.threads ==> s.threads[t].stage == stage
  }

  lemma CellBetweenIterations(c: Config, th: Thread, k: nat, m: int, v: int, i: nat)
    requires ConfigOk(c) && k < |c.owner| && CellOk(c, th, k, m, v) && th.stage == 2 * i
    ensures m == After(c, i)[k]
  {
    assert th.stage / 2 == i;
  }

  lemma MatrixBetweenIterations(c: Config, s: State, i: nat)
    requires Inv(c, s) && AllAt(c, s, 2 * i)
    ensures s.matrix == After(c, i)
  {
    forall k | 0 <= k < |c.owner|
      ensures s.matrix[k] == After(c, i)[k]
    {
      CellBetweenIterations(c, s.threads[c.owner[k]], k, s.matrix[k], s.temp[k], i);
    }
  }

  /** Whenever all threads stand between two iterations, the matrix is that of the single thread. */
  lemma SameAsOneThread(c: Config, run: seq<State>, r: nat, i: nat)
    requires ConfigOk(c) && IsRun(Starts(c), Steps(c), run) && r < |run| && AllAt(c, run[r], 2 * i)
    ensures run[r].matrix == Iterate(c.start, c.size, i)
  {
    EveryRunKeepsInv(c, run);
    MatrixBetweenIterations(c, run[r], i);
  }

  lemma MoveIsStep(c: Config, s: State, t: nat, a: Action)
    requires At(c, s, t, a)
    ensures Steps(c)(s, Do(c, s, t, a))
  {
  }

  lemma StuckCannotMove(c: Config, s: State)
    requires IsStuck(Steps(c), s)
    ensures !SomebodyCanMove(c, s)
  {
    if SomebodyCanMove(c, s) {
      var t: nat, a :| At(c, s, t, a);
      MoveIsStep(c, s, t, a);
    }
  }

  /** A run that cannot go on has finished all iterations, with the matrix of the single thread. */
  lemma RelaxationEnds(c: Config, run: seq<State>)
    requires ConfigOk(c) && IsRun(Starts(c), Steps(c), run)
    requires IsStuck(Steps(c), run[|run| - 1])
    ensures AllFinished(c, run[|run| - 1])
    ensures run[|run| - 1].matrix == Iterate(c.start, c.size, c.iterations)
  {
    EveryRunKeepsInv(c, run);
    StuckCannotMove(c, run[|run| - 1]);
    NoDeadlock(c, run[|run| - 1]);
    SameAsOneThread(c, run, |run| - 1, c.iterations);
  }

  /** A thread takes at most eleven steps a cell and two a barrier in every stage. */
  lemma EveryRunEnds(c: Config, run: seq<State>)
    requires ConfigOk(c) && IsRun(Starts(c), Steps(c), run)
    ensures |run| <= Sum(seq(c.threads, t requires 0 <= t < c.threads => 2 * c.iterations * StageSteps(c, t))) + 1
  {
    EveryRunKeepsInv(c, run);
    InitOk(c, run[0]);
    MeasureIsSum(c, run[0]);
    assert Ranks(c, run[0]) == seq(c.threads, t requires 0 <= t < c.threads => 2 * c.iterations * StageSteps(c, t));
  }
}

/** The program itself: `tpr * tpr` threads on the tiles of `sor`, whatever `tpr` is. */
module TiledRelaxation {
  import opened Runs
  import opened SquareMatrices
  import T = Tiling
  import R = Relaxation

  function SorConfig(start: Grid, n: nat, tpr: nat, iterations: nat): (c: R.Config)
    requires IsGrid(start, n) && tpr > 0
  {
    R.Config(n, start, seq(n * n, k requires 0 <= k < n * n => T.Owner(n, tpr, k)), tpr * tpr, iterations)
  }

  /** Thread `i * tpr + j` works on exactly the cells between the row and column bounds that `sor` gives it. */
  lemma ThreadsOwnTheirTiles(start: Grid, n: nat, tpr: nat, iterations: nat, i: nat, j: nat)
    requires IsGrid(start, n) && i < tpr && j < tpr
    ensures R.ConfigOk(SorConfig(start, n, tpr, iterations))
    ensures forall k: nat ::
      k in R.TileCells(SorConfig(start, n, tpr, iterations), Cell(tpr, i, j)) <==>
      k < n * n && InTile(T.TileOf(n, tpr, i, j), n, k)
  {
    forall k: nat | k < n * n
      ensures InTile(T.TileOf(n, tpr, i, j), n, k) <==> T.Owner(n, tpr, k) == Cell(tpr, i, j)
    {
      T.TilesPartition(n, tpr, k, i, j);
    }
  }

  /** Every complete run of the tiled program leaves the matrix that one thread alone computes. */
  lemma SorComputesIterate(start: Grid, n: nat, tpr: nat, iterations: nat, run: seq<R.State>)
    requires IsGrid(start, n) && tpr > 0
    requires var c := SorConfig(start, n, tpr, iterations);
      IsRun(R.Starts(c), R.Steps(c), run) && IsStuck(R.Steps(c), run[|run| - 1])
    ensures run[|run| - 1].matrix == Iterate(start, n, iterations)
  {
    ThreadsOwnTheirTiles(start, n, tpr, iterations, 0, 0);
    R.RelaxationEnds(SorConfig(start, n, tpr, iterations), run);
  }
}
