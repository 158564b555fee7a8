/**
  The cigarette smokers (a10/smoke.c): an agent, three helpers that gather its signals, three smokers.

  `SmokersTable` has what the threads keep in shared memory; `Smokers` the protocol.  All threads share one
  mutex, so each turn from taking the lock to waiting (or leaving) is one step, and since every condition has
  a known set of waiters each thread's place tells which condition it waits on.
*/
module SmokersTable {
  import opened Common

  datatype Resource = Match | Paper | Tobacco

  /** One of something for every resource. */
  datatype Trio<T> = Trio(ofMatch: T, ofPaper: T, ofTobacco: T) {
    function At(r: Resource): T
    {
      match r case Match => ofMatch case Paper => ofPaper case Tobacco => ofTobacco
    }

    function With(r: Resource, v: T): (u: Trio<T>)
      ensures forall q :: u.At(q) == if q == r then v else At(q)
    {
      match r
      case Match => this.(ofMatch := v)
      case Paper => this.(ofPaper := v)
      case Tobacco => this.(ofTobacco := v)
    }
  }

  function Bump(n: Trio<nat>, r: Resource): Trio<nat>
  {
    n.With(r, n.At(r) + 1)
  }

  function Total(n: Trio<nat>): nat
  {
    n.ofMatch + n.ofPaper + n.ofTobacco
  }

  /** The resource that two different ones leave out: that of the smoker who can smoke with them. */
  function Third(a: Resource, b: Resource): (r: Resource)
    ensures a != b ==> r != a && r != b
  {
    if Match != a && Match != b then Match else if Paper != a && Paper != b then Paper else Tobacco
  }

  /** The flag, other than its own, that a helper finds set: each tests the other two in its own order. */
  function Partner(r: Resource, flags: set<Resource>): Option<Resource>
  {
    match r
    case Match => if Paper in flags then Some(Paper) else if Tobacco in flags then Some(Tobacco) else None
    case Paper => if Match in flags then Some(Match) else if Tobacco in flags then Some(Tobacco) else None
    case Tobacco => if Paper in flags then Some(Paper) else if Match in flags then Some(Match) else None
  }

  /** The values of the resource enumeration, which index the counters. */
  function Code(r: Resource): (k: nat)
    ensures IsCode(k, r)
  {
    match r case Match => 1 case Paper => 2 case Tobacco => 4
  }

  predicate IsCode(k: int, r: Resource)
  {
    (k == 1 && r == Match) || (k == 2 && r == Paper) || (k == 4 && r == Tobacco)
  }

  function Counts(a: seq<nat>): Trio<nat>
    requires |a| == 5
  {
    Trio(a[1], a[2], a[4])
  }

  /** The helpers' flags and the two counters, updated in place. */
  class Table {
    var matchFlag: bool
    var paperFlag: bool
    var tobaccoFlag: bool
    const signalCount: array<nat>
    const smokeCount: array<nat>

    ghost predicate Valid()
    {
      signalCount.Length == smokeCount.Length == 5 && signalCount != smokeCount
    }

    function Flags(): set<Resource>
      reads this
    {
      (if matchFlag then {Match} else {}) + (if paperFlag then {Paper} else {})
      + (if tobaccoFlag then {Tobacco} else {})
    }

    constructor ()
      ensures Valid() && Flags() == {} && fresh(signalCount) && fresh(smokeCount)
      ensures Counts(signalCount[..]) == Counts(smokeCount[..]) == Trio(0, 0, 0)
    {
      matchFlag, paperFlag, tobaccoFlag := false, false, false;
      signalCount := new nat[5](_ => 0);
      smokeCount := new nat[5](_ => 0);
    }

    /** A helper that was signalled sets its flag and finds the smoker to signal, if any. */
    method Gather(r: Resource) returns (smoker: Option<Resource>)
      modifies this
      ensures Flags() == old(Flags()) + {r}
      ensures smoker == if Partner(r, Flags()).None? then None else Some(Third(r, Partner(r, Flags()).value))
      ensures smoker.None? <==> Flags() == {r}
      ensures smoker.Some? ==> smoker.value != r && exists q :: q in Flags() && q != r && q != smoker.value
      ensures Match in Flags() && Paper in Flags() && Tobacco !in Flags() ==> smoker == Some(Tobacco)
      ensures Match in Flags() && Tobacco in Flags() && Paper !in Flags() ==> smoker == Some(Paper)
      ensures Paper in Flags() && Tobacco in Flags() && Match !in Flags() ==> smoker == Some(Match)
      ensures Flags() == {Match, Paper, Tobacco} ==> smoker == if r.Tobacco? then Some(Match) else Some(Tobacco)
    {
      smoker := None;
      match r
      case Match =>
        matchFlag := true;
        if matchFlag && paperFlag {
          smoker := Some(Tobacco);
        } else if matchFlag && tobaccoFlag {
          smoker := Some(Paper);
        }
      case Paper =>
        paperFlag := true;
        if paperFlag && matchFlag {
          smoker := Some(Tobacco);
        } else if paperFlag && tobaccoFlag {
          smoker := Some(Match);
        }
      case Tobacco =>
        tobaccoFlag := true;
        if tobaccoFlag && paperFlag {
          smoker := Some(Match);
        } else if tobaccoFlag && matchFlag {
          smoker := Some(Paper);
        }
    }

    /** A helper that saw the smoker smoke. */
    method Clear()
      modifies this
      ensures Flags() == {}
    {
      paperFlag := false;
      matchFlag := false;
      tobaccoFlag := false;
    }

    method CountSignal(smoker: Resource)
      requires Valid()
      modifies signalCount
      ensures Counts(signalCount[..]) == Bump(old(Counts(signalCount[..])), smoker)
      ensures forall k :: 0 <= k < 5 ==> signalCount[k] == old(signalCount[k]) + if IsCode(k, smoker) then 1 else 0
    {
      signalCount[Code(smoker)] := signalCount[Code(smoker)] + 1;
    }

    method CountSmoke(smoker: Resource)
      requires Valid()
      modifies smokeCount
      ensures Counts(smokeCount[..]) == Bump(old(Counts(smokeCount[..])), smoker)
      ensures forall k :: 0 <= k < 5 ==> smokeCount[k] == old(smokeCount[k]) + if IsCode(k, smoker) then 1 else 0
    {
      smokeCount[Code(smoker)] := smokeCount[Code(smoker)] + 1;
    }
  }
}

module Smokers {
  import opened Common
  import opened Runs
  import opened SmokersTable
  import M = Monitor

  /**
    `Warming`: is about to test whether all smokers are there; `WarmWait`: waits for one to come.
    `Woken`: is about to begin the next round, or to leave; `RoundWait`: waits for a smoker to smoke.
  */
  datatype AgentPc = Warming | WarmWait | Woken | RoundWait | Left

  /** `Ready`: waits for its resource; `Alerted`: was signalled; then the same for the smoke. */
  datatype HelperPc = Unborn | Ready | Alerted | SmokeWait | SmokeSeen

  datatype SmokerPc = Away | Seated | Called

  /** `first` and `second` are the resources of the current round, `queue` the helpers that wait for the smoke. */
  datatype State = State(agent: AgentPc, helper: Trio<HelperPc>, smoker: Trio<SmokerPc>, flags: set<Resource>,
    queue: seq<Resource>, active: nat, begun: nat, first: Resource, second: Resource,
    signals: Trio<nat>, smokes: Trio<nat>)

  /** `first` and `second` of the agent's turn are its random choice. */
  datatype Action = AgentTurn(first: Resource, second: Resource) | HelperTurn(r: Resource) | SmokerTurn(r: Resource)

  predicate At(s: State, a: Action)
  {
    match a
    case AgentTurn(x, y) => (s.agent.Warming? || s.agent.Woken?) && x != y
    case HelperTurn(r) => s.helper.At(r).Unborn? || s.helper.At(r).Alerted? || s.helper.At(r).SmokeSeen?
    case SmokerTurn(r) => s.smoker.At(r).Away? || s.smoker.At(r).Called?
  }

  // ---------- signals: lost when nobody waits ----------

  function SignalHelper(s: State, r: Resource): State
  {
    if s.helper.At(r).Ready? then s.(helper := s.helper.With(r, Alerted)) else s
  }

  function SignalSmoker(s: State, r: Resource): State
  {
    if s.smoker.At(r).Seated? then s.(smoker := s.smoker.With(r, Called)) else s
  }

  function SignalSmoke(s: State): State
  {
    if s.queue == [] then s else s.(helper := s.helper.With(s.queue[0], SmokeSeen), queue := s.queue[1..])
  }

  function SignalAgent(s: State): State
  {
    match s.agent
    case WarmWait => s.(agent := Warming)
    case RoundWait => s.(agent := Woken)
    case _ => s
  }

  // ---------- turns ----------

  function Round(s: State, x: Resource, y: Resource): State
  {
    var s' := s.(signals := Bump(s.signals, Third(x, y)), begun := s.begun + 1, first := x, second := y);
    SignalHelper(SignalHelper(s', x), y).(agent := RoundWait)
  }

  function AgentDoes(rounds: nat, s: State, x: Resource, y: Resource): State
  {
    if s.agent.Warming? && s.active < 3 then s.(agent := WarmWait)
    else if s.begun < rounds then Round(s, x, y)
    else s.(agent := Left)
  }

  function HelperDoes(s: State, r: Resource): State
  {
    match s.helper.At(r)
    case Alerted =>
      var flags := s.flags + {r};
      var partner := Partner(r, flags);
      if partner.None? then s.(flags := flags, helper := s.helper.With(r, Ready))
      else
        SignalSmoker(s, Third(r, partner.value))
        .(flags := flags, helper := s.helper.With(r, SmokeWait), queue := s.queue + [r])
    case SmokeSeen => SignalAgent(s).(flags := {}, helper := s.helper.With(r, Ready))
    case _ => s.(helper := s.helper.With(r, Ready))
  }

  function SmokerDoes(s: State, r: Resource): State
  {
    if s.smoker.At(r).Away? then SignalAgent(s).(active := s.active + 1, smoker := s.smoker.With(r, Seated))
    else SignalSmoke(s).(smokes := Bump(s.smokes, r), smoker := s.smoker.With(r, Seated))
  }

  function Do(rounds: nat, s: State, a: Action): State
    requires At(s, a)
  {
    match a
    case AgentTurn(x, y) => AgentDoes(rounds, s, x, y)
    case HelperTurn(r) => HelperDoes(s, r)
    case SmokerTurn(r) => SmokerDoes(s, r)
  }

  ghost predicate Init(s: State)
  {
    && s.agent == Warming && s.helper == Trio(Unborn, Unborn, Unborn) && s.smoker == Trio(Away, Away, Away)
    && s.flags == {} && s.queue == [] && s.active == 0 && s.begun == 0 && s.first != s.second
    && s.signals == s.smokes == Trio(0, 0, 0)
  }

  ghost predicate Next(rounds: nat, s: State, s': State)
  {
    exists a :: At(s, a) && s' == Do(rounds, s, a)
  }

  ghost function Steps(rounds: nat): (State, State) -> bool
  {
    (s, s') => Next(rounds, s, s')
  }

  ghost function From(start: State): State -> bool
  {
    s => s == start
  }

  // ---------- the invariant ----------

  /** Nothing is going on among helpers and smokers. */
  ghost predicate Quiet(s: State)
  {
    && s.flags == {} && s.queue == [] && s.signals == s.smokes
    && forall r :: (s.helper.At(r).Unborn? || s.helper.At(r).Ready?) && !s.smoker.At(r).Called?
  }

  function Arrived(s: State, r: Resource): nat
  {
    if s.smoker.At(r).Away? then 0 else 1
  }

  /** The smokers are counted as they come; no round begins before all are there. */
  ghost predicate Counted(rounds: nat, s: State)
  {
    && s.active == Arrived(s, Match) + Arrived(s, Paper) + Arrived(s, Tobacco)
    && (s.agent.WarmWait? ==> s.active < 3)
    && (!s.agent.WarmWait? && !s.agent.Warming? ==> s.active == 3)
    && Total(s.signals) == s.begun <= rounds && s.first != s.second
    && (s.agent.Left? ==> s.begun == rounds)
    && (s.agent.Warming? || s.agent.WarmWait? ==> s.begun == 0)
  }

  ghost predicate InRound(s: State, r: Resource)
  {
    r == s.first || r == s.second
  }

  function Smoker(s: State): Resource
  {
    Third(s.first, s.second)
  }

  /** The round waits for a helper: not both resources have been gathered. */
  ghost predicate Collecting(s: State)
  {
    && s.queue == [] && s.signals == Bump(s.smokes, Smoker(s))
    && (s.first !in s.flags || s.second !in s.flags)
    && forall r ::
      && (r in s.flags ==> InRound(s, r)) && !s.smoker.At(r).Called?
      && (s.helper.At(r).Unborn? || s.helper.At(r).Ready?
        || (s.helper.At(r).Alerted? && InRound(s, r) && r !in s.flags))
  }

  /** Both resources have been gathered, and helper `h` waits for the smoke. */
  ghost predicate Gathered(s: State, h: Resource, pc: HelperPc)
  {
    && s.flags == {s.first, s.second} && InRound(s, h) && s.helper.At(h) == pc
    && forall r :: r != h ==> s.helper.At(r).Unborn? || s.helper.At(r).Ready?
  }

  ghost predicate Smoking(s: State, h: Resource)
  {
    && Gathered(s, h, SmokeWait) && s.queue == [h] && s.signals == Bump(s.smokes, Smoker(s))
    && forall r :: s.smoker.At(r).Called? <==> r == Smoker(s)
  }

  ghost predicate Smoked(s: State, h: Resource)
  {
    Gathered(s, h, SmokeSeen) && s.queue == [] && s.signals == s.smokes && forall r :: !s.smoker.At(r).Called?
  }

  ghost predicate Outstanding(s: State)
  {
    Collecting(s) || (exists h :: Smoking(s, h)) || (exists h :: Smoked(s, h))
  }

  ghost predicate Inv(rounds: nat, s: State)
  {
    Counted(rounds, s) && if s.agent.RoundWait? then Outstanding(s) else Quiet(s)
  }

  /** What a round changes. */
  lemma RoundEffect(s: State, x: Resource, y: Resource, r: Resource)
    requires x != y
    ensures var h := s.helper.At(r);
      Round(s, x, y).helper.At(r) == if (r == x || r == y) && h.Ready? then Alerted else h
  {
  }

  /** A round is counted for the smoker whose resource is not offered, and for nobody else. */
  lemma RoundIsCounted(s: State, x: Resource, y: Resource, r: Resource)
    requires x != y
    ensures Round(s, x, y).signals.At(r) == s.signals.At(r) + if r != x && r != y then 1 else 0
    ensures Round(s, x, y).smokes == s.smokes && Round(s, x, y).first == x && Round(s, x, y).second == y
  {
    assert r != x && r != y <==> r == Third(x, y);
  }

  /** A smoker that was called counts one smoke of its own and tells the helper that waits for it. */
  lemma SmokeIsCounted(rounds: nat, s: State, r: Resource, q: Resource)
    requires Inv(rounds, s) && s.smoker.At(r).Called?
    ensures SmokerDoes(s, r).smokes.At(q) == s.smokes.At(q) + if q == r then 1 else 0
    ensures |s.queue| == 1 && SmokerDoes(s, r).helper == s.helper.With(s.queue[0], SmokeSeen)
    ensures InRound(s, s.queue[0]) && !InRound(s, r) && SmokerDoes(s, r).smoker == s.smoker.With(r, Seated)
  {
    var h :| Smoking(s, h);
  }

  lemma AgentBeginsRound(rounds: nat, s: State, x: Resource, y: Resource)
    requires Counted(rounds, s) && Quiet(s) && s.active == 3 && s.begun < rounds && x != y
    ensures Counted(rounds, Round(s, x, y)) && Collecting(Round(s, x, y))
  {
    forall r
      ensures var h := Round(s, x, y).helper.At(r); h.Unborn? || h.Ready? || (h.Alerted? && (r == x || r == y))
    {
      RoundEffect(s, x, y, r);
    }
  }

  lemma AgentKeepsInv(rounds: nat, s: State, x: Resource, y: Resource)
    requires Inv(rounds, s) && At(s, AgentTurn(x, y))
    ensures Inv(rounds, AgentDoes(rounds, s, x, y))
  {
    if !(s.agent.Warming? && s.active < 3) && s.begun < rounds {
      AgentBeginsRound(rounds, s, x, y);
    }
  }

  /** A helper that finds no other flag set goes on waiting; the round still collects. */
  lemma HelperWaits(s: State, r: Resource)
    requires Collecting(s) && s.first != s.second && s.helper.At(r).Alerted? && Partner(r, s.flags + {r}).None?
    ensures Collecting(HelperDoes(s, r))
  {
  }

  /** The second helper of a round calls the smoker who lacks its two resources. */
  lemma HelperCalls(s: State, r: Resource)
    requires Collecting(s) && s.first != s.second && s.helper.At(r).Alerted? && Partner(r, s.flags + {r}).Some?
    requires forall x :: s.smoker.At(x).Seated?
    ensures Smoking(HelperDoes(s, r), r)
  {
    var q := Partner(r, s.flags + {r}).value;
    assert q in s.flags && InRound(s, q) && InRound(s, r) && q != r;
    assert Third(r, q) == Smoker(s) && s.flags + {r} == {s.first, s.second};
    assert !s.helper.At(q).Alerted?;
    var s' := HelperDoes(s, r);
    forall x | x != r
      ensures s'.helper.At(x).Unborn? || s'.helper.At(x).Ready?
    {
      assert !(s.helper.At(x).Alerted? && x != q);
    }
  }

  lemma HelperSees(s: State, r: Resource)
    requires Smoked(s, r)
    ensures Quiet(HelperDoes(s, r))
  {
  }

  /** A helper that comes to the table disturbs nobody. */
  lemma HelperComes(s: State, r: Resource)
    requires s.helper.At(r).Unborn?
    ensures Quiet(s) ==> Quiet(HelperDoes(s, r))
    ensures Collecting(s) ==> Collecting(HelperDoes(s, r))
    ensures forall h :: Smoking(s, h) ==> Smoking(HelperDoes(s, r), h)
    ensures forall h :: Smoked(s, h) ==> Smoked(HelperDoes(s, r), h)
  {
  }

  lemma AllSeated(rounds: nat, s: State)
    requires Counted(rounds, s) && s.agent.RoundWait? && Collecting(s)
    ensures forall r :: s.smoker.At(r).Seated?
  {
    forall r
      ensures s.smoker.At(r).Seated?
    {
      assert Arrived(s, r) == 1;
    }
  }

  lemma HelperKeepsInv(rounds: nat, s: State, r: Resource)
    requires Inv(rounds, s) && At(s, HelperTurn(r))
    ensures Inv(rounds, HelperDoes(s, r))
  {
    if s.helper.At(r).Unborn? {
      HelperComes(s, r);
    } else if s.helper.At(r).Alerted? {
      AllSeated(rounds, s);
      if Partner(r, s.flags + {r}).None? { HelperWaits(s, r); } else { HelperCalls(s, r); }
    } else {
      HelperSees(s, r);
    }
  }

  lemma SmokerKeepsInv(rounds: nat, s: State, r: Resource)
    requires Inv(rounds, s) && At(s, SmokerTurn(r))
    ensures Inv(rounds, SmokerDoes(s, r))
  {
    if s.agent.RoundWait? {
      assert Arrived(s, r) == 1;
      var h :| Smoking(s, h);
      assert Smoked(SmokerDoes(s, r), h);
    }
  }

  lemma StepKeepsInv(rounds: nat, s: State, a: Action)
    requires Inv(rounds, s) && At(s, a)
    ensures Inv(rounds, Do(rounds, s, a))
  {
    match a
    case AgentTurn(x, y) => AgentKeepsInv(rounds, s, x, y);
    case HelperTurn(r) => HelperKeepsInv(rounds, s, r);
    case SmokerTurn(r) => SmokerKeepsInv(rounds, s, r);
  }

  // ---------- every run ends ----------

  function HelperCost(h: HelperPc): nat
  {
    match h case Unborn => 1 case Ready => 0 case Alerted => 4 case SmokeWait => 1 case SmokeSeen => 2
  }

  function SmokerCost(p: SmokerPc): nat
  {
    2 * (if p.Seated? then 0 else 1)
  }

  function HelperCosts(h: Trio<HelperPc>): nat
  {
    HelperCost(h.ofMatch) + HelperCost(h.ofPaper) + HelperCost(h.ofTobacco)
  }

  function SmokerCosts(p: Trio<SmokerPc>): nat
  {
    SmokerCost(p.ofMatch) + SmokerCost(p.ofPaper) + SmokerCost(p.ofTobacco)
  }

  lemma HelperMoves(h: Trio<HelperPc>, r: Resource, pc: HelperPc)
    ensures HelperCosts(h.With(r, pc)) == HelperCosts(h) - HelperCost(h.At(r)) + HelperCost(pc)
  {
  }

  lemma SmokerMoves(p: Trio<SmokerPc>, r: Resource, pc: SmokerPc)
    ensures SmokerCosts(p.With(r, pc)) == SmokerCosts(p) - SmokerCost(p.At(r)) + SmokerCost(pc)
  {
  }

  /** What the agent and the threads still have to do; a signal costs what it makes its receiver do. */
  function Measure(rounds: nat, s: State): nat
  {
    20 * (if s.begun <= rounds then rounds - s.begun else 0) + (if s.agent.Warming? || s.agent.Woken? then 1 else 0)
    + HelperCosts(s.helper) + SmokerCosts(s.smoker)
  }

  lemma SmokerLowersMeasure(rounds: nat, s: State, r: Resource)
    requires Inv(rounds, s) && At(s, SmokerTurn(r))
    ensures Measure(rounds, SmokerDoes(s, r)) < Measure(rounds, s)
  {
    SmokerMoves(s.smoker, r, Seated);
    if s.smoker.At(r).Called? {
      var h :| Smoking(s, h);
      HelperMoves(s.helper, h, SmokeSeen);
    }
  }

  lemma HelperLowersMeasure(rounds: nat, s: State, r: Resource)
    requires At(s, HelperTurn(r))
    ensures Measure(rounds, HelperDoes(s, r)) < Measure(rounds, s)
  {
    HelperMoves(s.helper, r, HelperDoes(s, r).helper.At(r));
    if s.helper.At(r).Alerted? && Partner(r, s.flags + {r}).Some? {
      SmokerMoves(s.smoker, Third(r, Partner(r, s.flags + {r}).value), Called);
    }
  }

  lemma AgentLowersMeasure(rounds: nat, s: State, x: Resource, y: Resource)
    requires At(s, AgentTurn(x, y))
    ensures Measure(rounds, AgentDoes(rounds, s, x, y)) < Measure(rounds, s)
  {
    HelperMoves(s.helper, x, Alerted);
    HelperMoves(SignalHelper(s, x).helper, y, Alerted);
  }

  lemma StepLowersMeasure(rounds: nat, s: State, a: Action)
    requires Inv(rounds, s) && At(s, a)
    ensures Measure(rounds, Do(rounds, s, a)) < Measure(rounds, s)
  {
    match a
    case AgentTurn(x, y) => AgentLowersMeasure(rounds, s, x, y);
    case HelperTurn(r) => HelperLowersMeasure(rounds, s, r);
    case SmokerTurn(r) => SmokerLowersMeasure(rounds, s, r);
  }

  // ---------- safety over whole runs ----------

  lemma InitOk(rounds: nat, s: State)
    requires Init(s)
    ensures Inv(rounds, s)
  {
  }

  ghost function Starts(): State -> bool
  {
    s => Init(s)
  }

  lemma EveryRunFromKeepsInv(rounds: nat, init: State -> bool, run: seq<State>)
    requires forall s :: init(s) ==> Inv(rounds, s)
    requires IsRun(init, Steps(rounds), run)
    ensures forall i :: 0 <= i < |run| ==> Inv(rounds, run[i])
    ensures |run| - 1 + Measure(rounds, run[|run| - 1]) <= Measure(rounds, run[0])
  {
    var next := Steps(rounds);
    var inv, measure := (s: State) => Inv(rounds, s), (s: State) => Measure(rounds, s);
    forall s, s' | inv(s) && next(s, s')
      ensures inv(s') && measure(s') < measure(s)
    {
      var a :| At(s, a) && s' == Do(rounds, s, a);
      StepKeepsInv(rounds, s, a);
      StepLowersMeasure(rounds, s, a);
    }
    InvariantAlways(init, next, inv, run);
    MeasureBoundsRun(init, next, inv, measure, run);
  }

  lemma EveryRunKeepsInv(rounds: nat, run: seq<State>)
    requires IsRun(Starts(), Steps(rounds), run)
    ensures forall i :: 0 <= i < |run| ==> Inv(rounds, run[i])
    ensures |run| <= 20 * rounds + 11
  {
    forall s | Starts()(s)
      ensures Inv(rounds, s)
    {
      InitOk(rounds, s);
    }
    EveryRunFromKeepsInv(rounds, Starts(), run);
  }

  /**
    At most one round is outstanding, and it is the round of the smoker whose two resources were signalled;
    nobody else is ever called to smoke, and when the agent leaves all counts agree.
  */
  lemma OnlyTheMatchingSmokerSmokes(rounds: nat, run: seq<State>, i: nat, r: Resource)
    requires IsRun(Starts(), Steps(rounds), run) && i < |run|
    ensures var s := run[i];
      && Total(s.smokes) <= Total(s.signals) <= Total(s.smokes) + 1
      && (s.signals.At(r) == s.smokes.At(r)
        || (s.agent.RoundWait? && !InRound(s, r) && s.signals.At(r) == s.smokes.At(r) + 1))
      && (s.smoker.At(r).Called? ==> s.agent.RoundWait? && !InRound(s, r) && s.flags == {s.first, s.second})
      && (s.agent.Left? ==> s.signals == s.smokes && Total(s.smokes) == rounds)
  {
    EveryRunKeepsInv(rounds, run);
    assert Inv(rounds, run[i]);
  }

  // ---------- which runs complete ----------

  ghost predicate SomebodyCanMove(s: State)
  {
    exists a :: At(s, a)
  }

  /** A helper of the current round was not there when it was signalled. */
  ghost predicate Lost(s: State, h: Resource)
  {
    && s.agent.RoundWait? && Collecting(s) && InRound(s, h) && h !in s.flags
    && !s.helper.At(h).Alerted?
  }

  lemma CannotMove(s: State)
    requires !SomebodyCanMove(s)
    ensures !s.agent.Warming? && !s.agent.Woken?
    ensures forall r :: s.smoker.At(r).Seated? && (s.helper.At(r).Ready? || s.helper.At(r).SmokeWait?)
  {
    assert !At(s, AgentTurn(Match, Paper));
    forall r
      ensures s.smoker.At(r).Seated? && (s.helper.At(r).Ready? || s.helper.At(r).SmokeWait?)
    {
      assert !At(s, HelperTurn(r)) && !At(s, SmokerTurn(r));
    }
  }

  lemma GatheredCanMove(s: State)
    requires (exists h :: Smoking(s, h)) || (exists h :: Smoked(s, h))
    ensures SomebodyCanMove(s)
  {
    if h :| Smoking(s, h) {
      assert At(s, SmokerTurn(Smoker(s)));
    } else {
      var h :| Smoked(s, h);
      assert At(s, HelperTurn(h));
    }
  }

  /** A run that cannot go on has completed all rounds, or a signal was lost. */
  lemma StuckMeansLeftOrLost(rounds: nat, s: State)
    requires Inv(rounds, s) && !SomebodyCanMove(s)
    ensures s.agent.Left? || Lost(s, s.first) || Lost(s, s.second)
  {
    CannotMove(s);
    if s.agent.RoundWait? && !Collecting(s) { GatheredCanMove(s); }
  }

  /** A lost signal is never made good: the helper may come, but nobody signals it again. */
  lemma LostStaysLost(rounds: nat, s: State, a: Action, h: Resource)
    requires Inv(rounds, s) && At(s, a) && Lost(s, h)
    ensures Lost(Do(rounds, s, a), h)
  {
    AllSeated(rounds, s);
    if a.HelperTurn? {
      var r := a.r;
      if s.helper.At(r).Unborn? {
        HelperComes(s, r);
      } else {
        assert Partner(r, s.flags + {r}).None?;
        HelperWaits(s, r);
      }
    }
  }

  /** All helpers are at the table, and no signal of this round was lost. */
  ghost predicate Fair(s: State)
  {
    (forall r :: !s.helper.At(r).Unborn?) && !Lost(s, s.first) && !Lost(s, s.second)
  }

  lemma StepKeepsFair(rounds: nat, s: State, a: Action)
    requires Inv(rounds, s) && At(s, a) && Fair(s)
    ensures Fair(Do(rounds, s, a))
  {
    var s' := Do(rounds, s, a);
    match a
    case AgentTurn(x, y) =>
      if s'.agent.RoundWait? {
        forall r
          ensures !s'.helper.At(r).Unborn? && (r == x || r == y ==> s'.helper.At(r).Alerted?)
        {
          RoundEffect(s, x, y, r);
        }
      }
    case HelperTurn(r) => HelperKeepsFair(rounds, s, r);
    case SmokerTurn(r) =>
  }

  lemma HelperKeepsFair(rounds: nat, s: State, r: Resource)
    requires Inv(rounds, s) && At(s, HelperTurn(r)) && Fair(s)
    ensures Fair(HelperDoes(s, r))
  {
    if s.agent.RoundWait? && Collecting(s) {
      AllSeated(rounds, s);
      if Partner(r, s.flags + {r}).Some? { HelperCalls(s, r); }
    }
  }

  lemma StepBefore(rounds: nat, s: State, t: State, rest: seq<State>)
    requires Steps(rounds)(s, t) && IsRun(From(t), Steps(rounds), rest)
    ensures IsRun(From(s), Steps(rounds), [s] + rest)
  {
    var run := [s] + rest;
    forall i | 0 < i < |run|
      ensures Steps(rounds)(run[i - 1], run[i])
    {
      if i > 1 { assert Steps(rounds)(rest[i - 2], rest[i - 1]); }
    }
  }

  /** From any reachable state there is a run that cannot go on. */
  lemma SomeRunEnds(rounds: nat, s: State) returns (run: seq<State>)
    requires Inv(rounds, s)
    ensures IsRun(From(s), Steps(rounds), run) && IsStuck(Steps(rounds), run[|run| - 1])
  {
    var inv, measure := (s: State) => Inv(rounds, s), (s: State) => Measure(rounds, s);
    forall s, s' | inv(s) && Steps(rounds)(s, s')
      ensures inv(s') && measure(s') < measure(s)
    {
      var a :| At(s, a) && s' == Do(rounds, s, a);
      StepKeepsInv(rounds, s, a);
      StepLowersMeasure(rounds, s, a);
    }
    run := RunCanBeCompleted(From(s), Steps(rounds), inv, measure, [s]);
  }

  /** All rounds are completed however the threads interleave from `s` on and whatever the agent chooses. */
  ghost predicate AlwaysCompletes(rounds: nat, s: State)
  {
    forall run: seq<State> :: IsRun(From(s), Steps(rounds), run) && IsStuck(Steps(rounds), run[|run| - 1]) ==>
      run[|run| - 1].agent.Left?
  }

  /** The agent is about to make its first signals. */
  ghost predicate BeforeFirstSignal(rounds: nat, s: State)
  {
    Inv(rounds, s) && s.agent.Warming? && s.active == 3 && rounds > 0
  }

  lemma MoveIsStep(rounds: nat, s: State, a: Action)
    requires At(s, a)
    ensures Steps(rounds)(s, Do(rounds, s, a))
  {
  }

  lemma StuckCannotMove(rounds: nat, s: State)
    requires IsStuck(Steps(rounds), s)
    ensures !SomebodyCanMove(s)
  {
    if SomebodyCanMove(s) {
      var a :| At(s, a);
      MoveIsStep(rounds, s, a);
    }
  }

  lemma FairRunsComplete(rounds: nat, s: State, run: seq<State>)
    requires Inv(rounds, s) && Fair(s)
    requires IsRun(From(s), Steps(rounds), run) && IsStuck(Steps(rounds), run[|run| - 1])
    ensures run[|run| - 1].agent.Left?
  {
    var inv := (s: State) => Inv(rounds, s) && Fair(s);
    forall s, s' | inv(s) && Steps(rounds)(s, s')
      ensures inv(s')
    {
      var a :| At(s, a) && s' == Do(rounds, s, a);
      StepKeepsInv(rounds, s, a);
      StepKeepsFair(rounds, s, a);
    }
    InvariantAlways(From(s), Steps(rounds), inv, run);
    StuckCannotMove(rounds, run[|run| - 1]);
    StuckMeansLeftOrLost(rounds, run[|run| - 1]);
  }

  lemma LostRunsHang(rounds: nat, s: State, h: Resource, run: seq<State>)
    requires Inv(rounds, s) && Lost(s, h)
    requires IsRun(From(s), Steps(rounds), run)
    ensures run[|run| - 1].agent.RoundWait?
  {
    var inv := (s: State) => Inv(rounds, s) && Lost(s, h);
    forall s, s' | inv(s) && Steps(rounds)(s, s')
      ensures inv(s')
    {
      var a :| At(s, a) && s' == Do(rounds, s, a);
      StepKeepsInv(rounds, s, a);
      LostStaysLost(rounds, s, a, h);
    }
    InvariantAlways(From(s), Steps(rounds), inv, run);
  }

  /** If helper `h` is late, an agent that begins with `h`'s resource waits for ever. */
  lemma LateHelperHangs(rounds: nat, s: State, h: Resource) returns (run: seq<State>)
    requires BeforeFirstSignal(rounds, s) && s.helper.At(h).Unborn?
    ensures IsRun(From(s), Steps(rounds), run) && IsStuck(Steps(rounds), run[|run| - 1])
      && run[|run| - 1].agent.RoundWait?
    ensures !AlwaysCompletes(rounds, s)
  {
    var q := if h == Match then Paper else Match;
    var a := AgentTurn(h, q);
    var s' := Do(rounds, s, a);
    StepKeepsInv(rounds, s, a);
    RoundEffect(s, h, q, h);
    assert Collecting(s') by { AgentBeginsRound(rounds, s, h, q); }
    assert Lost(s', h);
    var rest := SomeRunEnds(rounds, s');
    LostRunsHang(rounds, s', h, rest);
    MoveIsStep(rounds, s, a);
    StepBefore(rounds, s, s', rest);
    run := [s] + rest;
    assert run[|run| - 1] == rest[|rest| - 1];
  }

  /** Every round is sure to complete exactly when all three helpers wait before the first signal. */
  lemma CompletesExactlyWhenHelpersWait(rounds: nat, s: State)
    requires BeforeFirstSignal(rounds, s)
    ensures AlwaysCompletes(rounds, s) <==> forall r :: s.helper.At(r).Ready?
  {
    if r :| s.helper.At(r).Unborn? {
      var _ := LateHelperHangs(rounds, s, r);
    } else {
      assert Fair(s);
      forall run: seq<State> | IsRun(From(s), Steps(rounds), run) && IsStuck(Steps(rounds), run[|run| - 1])
        ensures run[|run| - 1].agent.Left?
      {
        FairRunsComplete(rounds, s, run);
      }
    }
  }

  /** The program can hang: the smokers come first, and the agent begins before any helper has come. */
  lemma SomeRunHangs(rounds: nat) returns (run: seq<State>)
    requires rounds > 0
    ensures IsRun(Starts(), Steps(rounds), run) && IsStuck(Steps(rounds), run[|run| - 1])
    ensures run[|run| - 1].agent.RoundWait?
  {
    var zero := Trio(0, 0, 0);
    var s := State(Warming, Trio(Unborn, Unborn, Unborn), Trio(Away, Away, Away), {}, [], 0, 0,
      Match, Paper, zero, zero);
    var t := Do(rounds, s, SmokerTurn(Match));
    var u := Do(rounds, t, SmokerTurn(Paper));
    var v := Do(rounds, u, SmokerTurn(Tobacco));
    run := LateHelperHangs(rounds, v, Match);
    MoveIsStep(rounds, u, SmokerTurn(Tobacco));
    StepBefore(rounds, u, v, run);
    MoveIsStep(rounds, t, SmokerTurn(Paper));
    StepBefore(rounds, t, u, [u] + run);
    MoveIsStep(rounds, s, SmokerTurn(Match));
    StepBefore(rounds, s, t, [t] + ([u] + run));
    var whole := [s] + ([t] + ([u] + run));
    assert whole[|whole| - 1] == run[|run| - 1];
    run := whole;
  }

  // ---------- a turn is a series of monitor steps ----------

  /** A thread and the condition it usually waits on have the same number; helpers also wait for the smoke. */
  const AGENT: nat := 0
  const SMOKE: M.Cond := 9
  const THREADS: set<Tid> := {0, 1, 2, 4, 5, 6, 8}
  const CONDS: set<M.Cond> := THREADS + {SMOKE}

  function HelperId(r: Resource): nat
  {
    Code(r)
  }

  function SmokerId(r: Resource): nat
  {
    4 + Code(r)
  }

  datatype Role = TheAgent | HelperOf(r: Resource) | SmokerOf(r: Resource)

  function RoleOf(n: nat): (role: Role)
    requires n in THREADS
    ensures match role
      case TheAgent => n == AGENT
      case HelperOf(r) => n == HelperId(r)
      case SmokerOf(r) => n == SmokerId(r)
  {
    if n == 0 then TheAgent
    else if n <= 4 then HelperOf(if n == 1 then Match else if n == 2 then Paper else Tobacco)
    else SmokerOf(if n == 5 then Match else if n == 6 then Paper else Tobacco)
  }

  lemma RolesOf(r: Resource)
    ensures HelperId(r) in THREADS && RoleOf(HelperId(r)) == HelperOf(r)
    ensures SmokerId(r) in THREADS && RoleOf(SmokerId(r)) == SmokerOf(r)
  {
  }

  predicate Competes(s: State, role: Role)
  {
    match role
    case TheAgent => s.agent.Warming? || s.agent.Woken?
    case HelperOf(r) => s.helper.At(r).Unborn? || s.helper.At(r).Alerted? || s.helper.At(r).SmokeSeen?
    case SmokerOf(r) => !s.smoker.At(r).Seated?
  }

  /** Waits on its usual condition. */
  predicate Waits(s: State, role: Role)
  {
    match role
    case TheAgent => s.agent.WarmWait? || s.agent.RoundWait?
    case HelperOf(r) => s.helper.At(r).Ready?
    case SmokerOf(r) => s.smoker.At(r).Seated?
  }

  function One(t: Tid, waits: bool): seq<Tid>
  {
    if waits then [t] else []
  }

  function Ids(queue: seq<Resource>): seq<Tid>
  {
    seq(|queue|, i requires 0 <= i < |queue| => HelperId(queue[i]))
  }

  function Waiters(s: State, c: M.Cond): seq<Tid>
    requires c in CONDS
  {
    if c == SMOKE then Ids(s.queue) else One(c, Waits(s, RoleOf(c)))
  }

  /** The lock between turns: whoever is not waiting competes for it. */
  ghost function Abstract(s: State): M.Monitor
  {
    M.Monitor(None, set t | t in THREADS && Competes(s, RoleOf(t)), map c | c in CONDS :: Waiters(s, c))
  }

  /** The lock in the turn of thread `t`. */
  ghost function Held(s: State, t: Tid): M.Monitor
  {
    M.Taken(Abstract(s), t)
  }

  /** Thread `x` comes off its condition and competes; nobody else moves. */
  ghost predicate Wakes(s: State, s': State, x: nat)
  {
    && x in THREADS && Waits(s, RoleOf(x)) && !Waits(s', RoleOf(x)) && Competes(s', RoleOf(x)) && s'.queue == s.queue
    && forall t :: t in THREADS && t != x ==>
      Waits(s', RoleOf(t)) == Waits(s, RoleOf(t)) && Competes(s', RoleOf(t)) == Competes(s, RoleOf(t))
  }

  lemma WakingIsSignal(s: State, s': State, x: nat, t: Tid)
    requires Wakes(s, s', x) && t != x
    ensures Held(s', t) == Held(s, t).Signal(x)
  {
    var m, m' := Held(s, t).Signal(x), Held(s', t);
    assert One(x, true)[1..] == One(x, false);
    assert m'.entry == m.entry;
    assert m'.waiting == m.waiting;
  }

  lemma HelperSignalled(s: State, r: Resource, t: Tid)
    requires t != HelperId(r)
    ensures Held(SignalHelper(s, r), t) == Held(s, t).Signal(HelperId(r))
  {
    RolesOf(r);
    if s.helper.At(r).Ready? { WakingIsSignal(s, SignalHelper(s, r), HelperId(r), t); }
  }

  lemma SmokerSignalled(s: State, r: Resource, t: Tid)
    requires t != SmokerId(r)
    ensures Held(SignalSmoker(s, r), t) == Held(s, t).Signal(SmokerId(r))
  {
    RolesOf(r);
    if s.smoker.At(r).Seated? { WakingIsSignal(s, SignalSmoker(s, r), SmokerId(r), t); }
  }

  lemma AgentSignalled(s: State, t: Tid)
    requires t != AGENT
    ensures Held(SignalAgent(s), t) == Held(s, t).Signal(AGENT)
  {
    if s.agent.WarmWait? || s.agent.RoundWait? { WakingIsSignal(s, SignalAgent(s), AGENT, t); }
  }

  lemma SmokeSignalled(s: State, t: Tid)
    requires s.queue != [] ==> t != HelperId(s.queue[0]) && s.helper.At(s.queue[0]).SmokeWait?
    ensures Held(SignalSmoke(s), t) == Held(s, t).Signal(SMOKE)
  {
    var m, m' := Held(s, t).Signal(SMOKE), Held(SignalSmoke(s), t);
    if s.queue != [] {
      RolesOf(s.queue[0]);
      assert Ids(s.queue)[1..] == Ids(s.queue[1..]);
      assert m'.entry == m.entry;
      assert m'.waiting == m.waiting;
    }
  }

  /** Thread `x` ends its turn on its usual condition; nobody else moves. */
  ghost predicate Rests(s: State, s': State, x: nat)
  {
    && x in THREADS && !Waits(s, RoleOf(x)) && Waits(s', RoleOf(x)) && !Competes(s', RoleOf(x)) && s'.queue == s.queue
    && forall t :: t in THREADS && t != x ==>
      Waits(s', RoleOf(t)) == Waits(s, RoleOf(t)) && Competes(s', RoleOf(t)) == Competes(s, RoleOf(t))
  }

  lemma RestingIsWait(s: State, s': State, x: nat)
    requires Rests(s, s', x)
    ensures Abstract(s') == Held(s, x).Wait(x, x)
  {
    var m := Held(s, x).Wait(x, x);
    assert One(x, false) + [x] == One(x, true);
    assert Abstract(s').entry == m.entry;
    assert Abstract(s').waiting == m.waiting;
  }

  lemma HelperRests(u: State, r: Resource, s': State)
    requires !u.helper.At(r).Ready? && s'.helper == u.helper.With(r, Ready)
    requires s'.agent == u.agent && s'.smoker == u.smoker && s'.queue == u.queue
    ensures Abstract(s') == Held(u, HelperId(r)).Wait(HelperId(r), HelperId(r))
  {
    RolesOf(r);
    RestingIsWait(u, s', HelperId(r));
  }

  lemma SmokerRests(u: State, r: Resource, s': State)
    requires !u.smoker.At(r).Seated? && s'.smoker == u.smoker.With(r, Seated)
    requires s'.agent == u.agent && s'.helper == u.helper && s'.queue == u.queue
    ensures Abstract(s') == Held(u, SmokerId(r)).Wait(SmokerId(r), SmokerId(r))
  {
    RolesOf(r);
    RestingIsWait(u, s', SmokerId(r));
  }

  lemma HelperWaitsForSmoke(u: State, r: Resource, s': State)
    requires !u.helper.At(r).Ready? && s'.helper == u.helper.With(r, SmokeWait)
    requires s'.agent == u.agent && s'.smoker == u.smoker && s'.queue == u.queue + [r]
    ensures Abstract(s') == Held(u, HelperId(r)).Wait(HelperId(r), SMOKE)
  {
    var m := Held(u, HelperId(r)).Wait(HelperId(r), SMOKE);
    RolesOf(r);
    assert Ids(s'.queue) == Ids(u.queue) + [HelperId(r)];
    assert Abstract(s').entry == m.entry;
    assert Abstract(s').waiting == m.waiting;
  }

  lemma AgentLeaves(u: State, s': State)
    requires Competes(u, TheAgent) && s'.agent.Left?
    requires s'.helper == u.helper && s'.smoker == u.smoker && s'.queue == u.queue
    ensures Abstract(s') == Held(u, AGENT).Leave()
  {
    var m := Held(u, AGENT).Leave();
    assert Abstract(s').entry == m.entry;
    assert Abstract(s').waiting == m.waiting;
  }

  /** The lock is taken, one condition signalled. */
  lemma SignalReaches(m0: M.Monitor, m: M.Monitor, c: M.Cond)
    requires M.Reaches(m0, m) && m.owner.Some? && c in m.waiting
    ensures M.Reaches(m0, m.Signal(c)) && m.Signal(c).waiting.Keys == m.waiting.Keys && m.Signal(c).owner == m.owner
  {
    M.Further(m0, m, m.Signal(c));
  }

  lemma WaitReaches(m0: M.Monitor, m: M.Monitor, t: Tid, c: M.Cond)
    requires M.Reaches(m0, m) && m.owner == Some(t) && c in m.waiting
    ensures M.Reaches(m0, m.Wait(t, c))
  {
    M.Further(m0, m, m.Wait(t, c));
  }

  lemma TurnBegins(s: State, t: Tid)
    requires t in THREADS && Competes(s, RoleOf(t))
    ensures M.Reaches(Abstract(s), Held(s, t)) && Held(s, t).owner == Some(t)
  {
    M.TakenReach(Abstract(s), t);
  }

  lemma HelperTurnIsMonitorSteps(s: State, r: Resource)
    requires At(s, HelperTurn(r))
    ensures M.Reaches(Abstract(s), Abstract(HelperDoes(s, r)))
  {
    var t, m0, s' := HelperId(r), Abstract(s), HelperDoes(s, r);
    RolesOf(r);
    TurnBegins(s, t);
    if s.helper.At(r).Alerted? && Partner(r, s.flags + {r}).Some? {
      var z := Third(r, Partner(r, s.flags + {r}).value);
      SignalReaches(m0, Held(s, t), SmokerId(z));
      SmokerSignalled(s, z, t);
      WaitReaches(m0, Held(SignalSmoker(s, z), t), t, SMOKE);
      HelperWaitsForSmoke(SignalSmoker(s, z), r, s');
    } else if s.helper.At(r).SmokeSeen? {
      SignalReaches(m0, Held(s, t), AGENT);
      AgentSignalled(s, t);
      WaitReaches(m0, Held(SignalAgent(s), t), t, t);
      HelperRests(SignalAgent(s), r, s');
    } else {
      WaitReaches(m0, Held(s, t), t, t);
      HelperRests(s, r, s');
    }
  }

  lemma SmokerComes(s: State, r: Resource)
    requires s.smoker.At(r).Away?
    ensures M.Reaches(Abstract(s), Abstract(SmokerDoes(s, r)))
  {
    var t, m0 := SmokerId(r), Abstract(s);
    RolesOf(r);
    TurnBegins(s, t);
    SignalReaches(m0, Held(s, t), AGENT);
    AgentSignalled(s, t);
    WaitReaches(m0, Held(SignalAgent(s), t), t, t);
    SmokerRests(SignalAgent(s), r, SmokerDoes(s, r));
  }

  lemma SmokerSmokes(s: State, r: Resource)
    requires s.smoker.At(r).Called? && (s.queue != [] ==> s.helper.At(s.queue[0]).SmokeWait?)
    ensures M.Reaches(Abstract(s), Abstract(SmokerDoes(s, r)))
  {
    var t, m0 := SmokerId(r), Abstract(s);
    RolesOf(r);
    TurnBegins(s, t);
    SignalReaches(m0, Held(s, t), SMOKE);
    SmokeSignalled(s, t);
    WaitReaches(m0, Held(SignalSmoke(s), t), t, t);
    SmokerRests(SignalSmoke(s), r, SmokerDoes(s, r));
  }

  lemma AgentSignals(m0: M.Monitor, s: State, r: Resource)
    requires M.Reaches(m0, Held(s, AGENT))
    ensures M.Reaches(m0, Held(SignalHelper(s, r), AGENT))
  {
    RolesOf(r);
    SignalReaches(m0, Held(s, AGENT), HelperId(r));
    HelperSignalled(s, r, AGENT);
  }

  lemma AgentRests(u: State, s': State)
    requires Competes(u, TheAgent) && Waits(s', TheAgent)
    requires s'.helper == u.helper && s'.smoker == u.smoker && s'.queue == u.queue
    ensures Abstract(s') == Held(u, AGENT).Wait(AGENT, AGENT)
  {
    RestingIsWait(u, s', AGENT);
  }

  lemma RoundSignals(s: State, x: Resource, y: Resource)
    ensures var u, s' := SignalHelper(SignalHelper(s, x), y), Round(s, x, y);
      s'.helper == u.helper && s'.smoker == u.smoker && s'.queue == u.queue && u.agent == s.agent
  {
  }

  lemma AgentRoundIsMonitorSteps(s: State, x: Resource, y: Resource)
    requires Competes(s, TheAgent)
    ensures M.Reaches(Abstract(s), Abstract(Round(s, x, y)))
  {
    var m0, u := Abstract(s), SignalHelper(SignalHelper(s, x), y);
    TurnBegins(s, AGENT);
    AgentSignals(m0, s, x);
    AgentSignals(m0, SignalHelper(s, x), y);
    WaitReaches(m0, Held(u, AGENT), AGENT, AGENT);
    RoundSignals(s, x, y);
    AgentRests(u, Round(s, x, y));
  }

  lemma AgentTurnIsMonitorSteps(rounds: nat, s: State, x: Resource, y: Resource)
    requires At(s, AgentTurn(x, y))
    ensures M.Reaches(Abstract(s), Abstract(AgentDoes(rounds, s, x, y)))
  {
    var m0, s' := Abstract(s), AgentDoes(rounds, s, x, y);
    TurnBegins(s, AGENT);
    if s'.agent.RoundWait? {
      AgentRoundIsMonitorSteps(s, x, y);
    } else if s'.agent.Left? {
      AgentLeaves(s, s');
      M.Further(m0, Held(s, AGENT), Held(s, AGENT).Leave());
    } else {
      RestingIsWait(s, s', AGENT);
      WaitReaches(m0, Held(s, AGENT), AGENT, AGENT);
    }
  }

  /** A turn of any thread is a series of steps of the monitor that the library implements. */
  lemma TurnIsMonitorSteps(rounds: nat, s: State, a: Action)
    requires Inv(rounds, s) && At(s, a)
    ensures M.Reaches(Abstract(s), Abstract(Do(rounds, s, a)))
  {
    match a
    case AgentTurn(x, y) => AgentTurnIsMonitorSteps(rounds, s, x, y);
    case HelperTurn(r) => HelperTurnIsMonitorSteps(s, r);
    case SmokerTurn(r) => if s.smoker.At(r).Away? { SmokerComes(s, r); } else { SmokerSmokes(s, r); }
  }
}
