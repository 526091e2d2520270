/**
 Locking in the token store: sections exclude each other, no lock is asked for by a thread that
 holds it, nothing deadlocks even when a waiting writer blocks new readers, and calls in flight
 can always be brought to their end.
 */
module TokenLiveness {
  import opened Prelude
  import opened TokenProtocol
  import opened TokenSafety

  // ------------------------------------------------------ exclusion and order

  ghost predicate Asks(th: Thread, name: LockName) {
    match th.pc
    case ReadAsk(site) => LockOf(site) == name
    case WriteAsk(asked) => asked == name
    case _ => false
  }

  /** A write section of a lock never overlaps another section of the same lock. */
  lemma WritersExclude(c: Config, s0: State, steps: seq<Step>, s: State, name: LockName, t: nat, u: nat)
    requires Init(c, s0) && Run(c, s0, steps) == Some(s)
    requires t < |s.threads| && u < |s.threads| && t != u
    requires Writes(s.threads[t], name)
    ensures !Writes(s.threads[u], name) && !Reads(s.threads[u], name)
  {
    InvReachable(c, s0, steps);
    assert LockMatches(s.threads, name, s.Lock(name));
    assert s.Lock(name).writer == Some(t);
    assert u !in s.Lock(name).readers;
  }

  /** The next step of the thread reads, or may write, the map of Git tokens; the same for the Renku pair. */
  ghost predicate ReadsTokens(th: Thread) {
    th.pc == ReadHold(GitFirst) || th.pc == ReadHold(GitFinal)
  }

  ghost predicate WritesTokens(th: Thread) {
    th.pc == Exchanging
  }

  ghost predicate ReadsPair(th: Thread) {
    || th.pc == ReadHold(RenkuAccess) || th.pc == ReadHold(RenkuAgain) || th.pc == ReadHold(TickRefresh)
    || th.pc == RenkuHeld
  }

  ghost predicate WritesPair(th: Thread) {
    th.pc == RenkuAwait
  }

  /** No data races: while one thread may write the map or the pair, no other reads or writes it. */
  lemma NoRaces(c: Config, s0: State, steps: seq<Step>, s: State, t: nat, u: nat)
    requires Init(c, s0) && Run(c, s0, steps) == Some(s) && t < |s.threads| && u < |s.threads| && t != u
    ensures WritesTokens(s.threads[t]) ==> !ReadsTokens(s.threads[u]) && !WritesTokens(s.threads[u])
    ensures WritesPair(s.threads[t]) ==> !ReadsPair(s.threads[u]) && !WritesPair(s.threads[u])
  {
    hide Run, Init;
    if WritesTokens(s.threads[t]) {
      WritersExclude(c, s0, steps, s, Git, t, u);
    }
    if WritesPair(s.threads[t]) {
      WritersExclude(c, s0, steps, s, Renku, t, u);
    }
  }

  /**
   Lock order: a thread that holds the Renku lock asks for nothing, one that holds the Git lock
   asks for the Renku lock at most.  So no lock is ever taken recursively.
   */
  lemma LockOrder(c: Config, s0: State, steps: seq<Step>, s: State, t: nat)
    requires Init(c, s0) && Run(c, s0, steps) == Some(s) && t < |s.threads|
    ensures t in s.renku.readers || s.renku.writer == Some(t) ==> !Asks(s.threads[t], Git) && !Asks(s.threads[t], Renku)
    ensures t in s.git.readers || s.git.writer == Some(t) ==> !Asks(s.threads[t], Git)
  {
    InvReachable(c, s0, steps);
  }

  // ---------------------------------------------------------- deadlock freedom

  /** Thread t is inside a call, or the ticker inside a check. */
  ghost predicate Busy(s: State, t: nat) {
    t < |s.threads| && s.threads[t].pc != Idle
  }

  /** Thread t can move even if a waiting writer keeps new readers out. */
  ghost predicate CanMove(c: Config, s: State, t: nat) {
    && t < |s.threads|
    && Do(c, s, t, Go).Some?
    && (s.threads[t].pc.ReadAsk? ==> s.Lock(LockOf(s.threads[t].pc.site)).waiting == {})
  }

  ghost predicate AsksAny(th: Thread) {
    th.pc.ReadAsk? || th.pc.WriteAsk?
  }

  /** Some thread gets a lock that is free and asked for: a waiting writer, or else the reader. */
  lemma FreeLockIsTaken(c: Config, s: State, name: LockName, t: nat) returns (next: nat)
    requires LockInv(s) && s.Lock(name).readers == {} && s.Lock(name).writer == None
    requires t < |s.threads| && Asks(s.threads[t], name)
    ensures Busy(s, next) && CanMove(c, s, next)
  {
    assert LockMatches(s.threads, name, s.Lock(name));
    next := t;
    if w: nat :| w in s.Lock(name).waiting {
      next := w;
      assert s.threads[w].pc == WriteAsk(name);
    }
  }

  lemma SomeoneCanMove(c: Config, s: State, t: nat) returns (next: nat)
    requires LockInv(s) && Busy(s, t)
    ensures Busy(s, next) && CanMove(c, s, next)
  {
    if u: nat :| Busy(s, u) && !AsksAny(s.threads[u]) {
      next := u;
    } else {
      if u: nat :| Busy(s, u) && Asks(s.threads[u], Renku) {
        next := FreeLockIsTaken(c, s, Renku, u);
      } else {
        assert forall u: nat | Busy(s, u) :: Asks(s.threads[u], Git);
        next := FreeLockIsTaken(c, s, Git, t);
      }
    }
  }

  /** No reachable state is deadlocked: while a thread is busy, some busy thread can move. */
  lemma NoDeadlock(c: Config, s0: State, steps: seq<Step>, s: State)
    requires Init(c, s0) && Run(c, s0, steps) == Some(s)
    requires exists t: nat :: Busy(s, t)
    ensures exists t: nat :: Busy(s, t) && CanMove(c, s, t)
  {
    InvReachable(c, s0, steps);
    var t: nat :| Busy(s, t);
    var next := SomeoneCanMove(c, s, t);
  }

  // ---------------------------------------------------------------- progress

  /** A bound on the steps a thread still takes before it is idle again. */
  ghost function Rank(pc: PC): nat {
    match pc
    case Idle => 0
    case ReadAsk(site) => RankAfterRead(site) + 3
    case ReadHold(site) => RankAfterRead(site) + 2
    case ReadDone(site) => RankAfterRead(site) + 1
    case GitDone(exchanged) => if exchanged then 4 else 1
    case Exchanging => 5
    case RenkuDone(_) => 9
    case RenkuAwait => 10
    case RenkuHeld => 11
    case WriteAsk(name) => if name.Renku? then 12 else 18
    case JwtCheck => 13
    case GitHeld => 17
    case GitCheck => 19
  }

  ghost function RankAfterRead(site: ReadSite): nat {
    match site
    case GitFinal => 0
    case RenkuAgain => 5
    case RenkuAccess => 13
    case TickRefresh => 13
    case GitFirst => 19
  }

  ghost function TotalRank(threads: seq<Thread>): nat {
    if threads == [] then 0 else Rank(threads[0].pc) + TotalRank(threads[1..])
  }

  /** Every step but the start of a call or of a check brings its thread nearer to its end. */
  lemma StepLowersRank(c: Config, s: State, t: nat, i: Input, s': State)
    requires Moves(c, s, t, i, s') && t < |s'.threads| && Busy(s, t)
    ensures Rank(s'.threads[t].pc) < Rank(s.threads[t].pc)
  {
    var pc := s.threads[t].pc;
    if pc.ReadAsk? || pc.ReadHold? || pc.ReadDone? {
      ReadingLowersRank(c, s, t, i, s');
    }
  }

  lemma ReadingLowersRank(c: Config, s: State, t: nat, i: Input, s': State)
    requires Moves(c, s, t, i, s') && t < |s'.threads|
    requires var pc := s.threads[t].pc; pc.ReadAsk? || pc.ReadHold? || pc.ReadDone?
    ensures Rank(s'.threads[t].pc) < Rank(s.threads[t].pc)
  {
  }

  lemma {:induction false} TotalRankUpdate(threads: seq<Thread>, t: nat, th: Thread)
    requires t < |threads|
    ensures TotalRank(threads[t := th]) == TotalRank(threads) - Rank(threads[t].pc) + Rank(th.pc)
  {
    if t > 0 {
      assert threads[t := th][1..] == threads[1..][t - 1 := th];
      TotalRankUpdate(threads[1..], t - 1, th);
    } else {
      assert threads[t := th][1..] == threads[1..];
    }
  }

  /** A schedule that starts no call and no check. */
  ghost predicate OnlyFinishes(c: Config, s: State, steps: seq<Step>)
    decreases |steps|
  {
    steps == [] ||
    (&& Apply(c, s, steps[0]).Some?
     && steps[0].ThreadStep? && Busy(s, steps[0].t)
     && OnlyFinishes(c, Apply(c, s, steps[0]).value, steps[1..]))
  }

  /** However busy threads are scheduled, they take at most TotalRank steps between them. */
  lemma {:induction false} FinishingIsBounded(c: Config, s: State, steps: seq<Step>)
    requires OnlyFinishes(c, s, steps)
    ensures Run(c, s, steps).Some?
    ensures |steps| + TotalRank(Run(c, s, steps).value.threads) <= TotalRank(s.threads)
    decreases |steps|
  {
    if steps != [] {
      var t, s' := steps[0].t, Apply(c, s, steps[0]).value;
      OnlyOneMoves(c, s, t, steps[0].input, s');
      StepLowersRank(c, s, t, steps[0].input, s');
      TotalRankUpdate(s.threads, t, s'.threads[t]);
      FinishingIsBounded(c, s', steps[1..]);
    }
  }

  /** In a state that is not yet quiet, one more step towards quiet can be taken. */
  lemma OneStepNearer(c: Config, s: State) returns (step: Step, s': State)
    requires Inv(c, s) && exists t: nat :: Busy(s, t)
    ensures Apply(c, s, step) == Some(s') && step.ThreadStep? && Busy(s, step.t)
    ensures CanMove(c, s, step.t) && step.input == Go
    ensures Inv(c, s') && |s'.threads| == |s.threads| && TotalRank(s'.threads) < TotalRank(s.threads)
  {
    var t: nat :| Busy(s, t);
    var next := SomeoneCanMove(c, s, t);
    step := ThreadStep(next, Go);
    s' := Apply(c, s, step).value;
    OnlyOneMoves(c, s, next, Go, s');
    StepLowersRank(c, s, next, Go, s');
    TotalRankUpdate(s.threads, next, s'.threads[next]);
    InvStep(c, s, step);
  }

  ghost predicate Quiet(s: State) {
    forall t | 0 <= t < |s.threads| :: s.threads[t].pc == Idle
  }

  /** A schedule that a lock grants although its waiting writers keep new readers out. */
  ghost predicate WritersFirst(c: Config, s: State, steps: seq<Step>)
    decreases |steps|
  {
    steps == [] ||
    (&& steps[0].ThreadStep? && steps[0].input == Go && CanMove(c, s, steps[0].t)
     && WritersFirst(c, Do(c, s, steps[0].t, Go).value, steps[1..]))
  }

  lemma {:induction false} Finish(c: Config, s: State) returns (steps: seq<Step>, s': State)
    requires Inv(c, s)
    ensures OnlyFinishes(c, s, steps) && WritersFirst(c, s, steps) && Run(c, s, steps) == Some(s')
    ensures Inv(c, s') && Quiet(s')
    decreases TotalRank(s.threads)
  {
    if Quiet(s) {
      return [], s;
    }
    var t :| 0 <= t < |s.threads| && s.threads[t].pc != Idle;
    assert Busy(s, t);
    var step, mid := OneStepNearer(c, s);
    var rest;
    rest, s' := Finish(c, mid);
    steps := [step] + rest;
    assert steps[1..] == rest;
  }

  lemma QuietMeansFree(s: State, name: LockName)
    requires LockInv(s) && Quiet(s)
    ensures s.Lock(name) == RWLock({}, None, {})
  {
    var lock := s.Lock(name);
    assert LockMatches(s.threads, name, lock);
    assert lock.readers == {} && lock.waiting == {};
    assert forall w: nat :: lock.writer != Some(w);
    match lock.writer {
      case None =>
      case Some(w) => assert false;
    }
  }

  /**
   From every reachable state the calls in flight can be brought to their end without a new one, even
   when waiting writers keep new readers out, and then both locks are free.
   */
  lemma CanAlwaysFinish(c: Config, s0: State, steps: seq<Step>, s: State) returns (rest: seq<Step>, s': State)
    requires Init(c, s0) && Run(c, s0, steps) == Some(s)
    ensures OnlyFinishes(c, s, rest) && WritersFirst(c, s, rest) && Run(c, s, rest) == Some(s')
    ensures Quiet(s') && s'.git == s'.renku == RWLock({}, None, {})
  {
    InvReachable(c, s0, steps);
    rest, s' := Finish(c, s);
    QuietMeansFree(s', Git);
    QuietMeansFree(s', Renku);
  }
}
