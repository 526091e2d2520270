/** What holds in every state that the token store's threads can reach, however they interleave. */
module TokenSafety {
  import opened Prelude
  import opened TokenProtocol

  // -------------------------------------------------------- who holds what

  /** The read lock is held from its acquisition to its release. */
  ghost predicate Reads(th: Thread, name: LockName) {
    match th.pc
    case ReadHold(site) => LockOf(site) == name
    case ReadDone(site) => LockOf(site) == name
    case _ => false
  }

  /** The Git write lock spans a whole exchange, including any Renku refresh inside it. */
  ghost predicate Writes(th: Thread, name: LockName) {
    match th.pc
    case RenkuHeld => name.Renku? || th.kind.Request?
    case RenkuAwait => name.Renku? || th.kind.Request?
    case RenkuDone(_) => name.Renku? || th.kind.Request?
    case GitHeld => name.Git?
    case JwtCheck => name.Git? && th.kind.Request?
    case Exchanging => name.Git?
    case GitDone(_) => name.Git?
    case WriteAsk(asked) => name.Git? && asked.Renku? && th.kind.Request?
    case ReadAsk(site) => name.Git? && (site.RenkuAccess? || site.RenkuAgain?)
    case ReadHold(site) => name.Git? && (site.RenkuAccess? || site.RenkuAgain?)
    case ReadDone(site) => name.Git? && (site.RenkuAccess? || site.RenkuAgain?)
    case _ => false
  }

  /** The ticker only ever reads and refreshes the Renku tokens. */
  ghost predicate OnItsPath(th: Thread) {
    match th.pc
    case Idle => true
    case JwtCheck => true
    case RenkuHeld => true
    case RenkuAwait => true
    case RenkuDone(_) => true
    case WriteAsk(name) => th.kind.Ticker? ==> name.Renku?
    case ReadAsk(site) => th.kind.Ticker? <==> site.TickRefresh?
    case ReadHold(site) => th.kind.Ticker? <==> site.TickRefresh?
    case ReadDone(site) => th.kind.Ticker? <==> site.TickRefresh?
    case _ => th.kind.Request?
  }

  /** The lock records exactly the threads whose program counter says so. */
  ghost predicate LockMatches(threads: seq<Thread>, name: LockName, lock: RWLock) {
    && (forall t: nat :: t in lock.readers <==> t < |threads| && Reads(threads[t], name))
    && (forall t: nat :: lock.writer == Some(t) <==> t < |threads| && Writes(threads[t], name))
    && (forall t: nat :: t in lock.waiting <==> t < |threads| && threads[t].pc == WriteAsk(name))
    && (lock.writer.Some? ==> lock.readers == {})
  }

  ghost predicate LockInv(s: State) {
    && (forall t | 0 <= t < |s.threads| :: OnItsPath(s.threads[t]))
    && LockMatches(s.threads, Git, s.git)
    && LockMatches(s.threads, Renku, s.renku)
  }

  /** A lock stays in step when only thread t moved and only t's standing in the lock changed. */
  lemma LockFollows(threads: seq<Thread>, lock: RWLock, threads': seq<Thread>, lock': RWLock, name: LockName, t: nat)
    requires LockMatches(threads, name, lock)
    requires t < |threads| == |threads'| && threads' == threads[t := threads'[t]]
    requires lock'.readers - {t} == lock.readers - {t} && lock'.waiting - {t} == lock.waiting - {t}
    requires t in lock'.readers <==> Reads(threads'[t], name)
    requires t in lock'.waiting <==> threads'[t].pc == WriteAsk(name)
    requires lock'.writer == Some(t) <==> Writes(threads'[t], name)
    requires lock'.writer == lock.writer || (lock.writer.None? && lock'.writer == Some(t))
      || (lock.writer == Some(t) && lock'.writer.None?)
    requires lock'.writer.Some? ==> lock'.readers == {}
    ensures LockMatches(threads', name, lock')
  {
    forall u: nat
      ensures u in lock'.readers <==> u < |threads'| && Reads(threads'[u], name)
      ensures u in lock'.waiting <==> u < |threads'| && threads'[u].pc == WriteAsk(name)
    {
      if u != t {
        assert u in lock'.readers - {t} <==> u in lock.readers - {t};
        assert u in lock'.waiting - {t} <==> u in lock.waiting - {t};
      }
    }
  }

  /** Thread t can take a step on input i, and it leads to s'. */
  ghost predicate Moves(c: Config, s: State, t: nat, i: Input, s': State) {
    t < |s.threads| && Do(c, s, t, i) == Some(s')
  }

  /** A step changes only the thread that takes it. */
  lemma OnlyOneMoves(c: Config, s: State, t: nat, i: Input, s': State)
    requires Moves(c, s, t, i, s')
    ensures |s'.threads| == |s.threads| && s'.threads == s.threads[t := s'.threads[t]]
    ensures s'.threads[t].kind == s.threads[t].kind
  {
    var pc := s.threads[t].pc;
    if pc.ReadAsk? || pc.ReadHold? || pc.ReadDone? {
      OnlyReaderMoves(c, s, t, i, s');
    }
  }

  lemma OnlyReaderMoves(c: Config, s: State, t: nat, i: Input, s': State)
    requires Moves(c, s, t, i, s')
    requires var pc := s.threads[t].pc; pc.ReadAsk? || pc.ReadHold? || pc.ReadDone?
    ensures |s'.threads| == |s.threads| && s'.threads == s.threads[t := s'.threads[t]]
    ensures s'.threads[t].kind == s.threads[t].kind
  {
  }

  lemma LockStepReading(c: Config, s: State, t: nat, i: Input, s': State, name: LockName)
    requires LockInv(s) && Moves(c, s, t, i, s')
    requires var pc := s.threads[t].pc; pc.ReadAsk? || pc.ReadHold? || pc.ReadDone?
    ensures t < |s'.threads| && OnItsPath(s'.threads[t]) && LockMatches(s'.threads, name, s'.Lock(name))
  {
    OnlyOneMoves(c, s, t, i, s');
    assert OnItsPath(s.threads[t]);
    LockFollows(s.threads, s.Lock(name), s'.threads, s'.Lock(name), name, t);
  }

  lemma LockStepDeciding(c: Config, s: State, t: nat, i: Input, s': State, name: LockName)
    requires LockInv(s) && Moves(c, s, t, i, s')
    requires var pc := s.threads[t].pc; pc.GitCheck? || pc.JwtCheck?
    ensures t < |s'.threads| && OnItsPath(s'.threads[t]) && LockMatches(s'.threads, name, s'.Lock(name))
  {
    OnlyOneMoves(c, s, t, i, s');
    assert OnItsPath(s.threads[t]);
    LockFollows(s.threads, s.Lock(name), s'.threads, s'.Lock(name), name, t);
  }

  lemma LockStepTaking(c: Config, s: State, t: nat, i: Input, s': State, name: LockName)
    requires LockInv(s) && Moves(c, s, t, i, s')
    requires var pc := s.threads[t].pc; pc.WriteAsk?
    ensures t < |s'.threads| && OnItsPath(s'.threads[t]) && LockMatches(s'.threads, name, s'.Lock(name))
  {
    OnlyOneMoves(c, s, t, i, s');
    assert OnItsPath(s.threads[t]);
    LockFollows(s.threads, s.Lock(name), s'.threads, s'.Lock(name), name, t);
  }

  lemma LockStepReleasing(c: Config, s: State, t: nat, i: Input, s': State, name: LockName)
    requires LockInv(s) && Moves(c, s, t, i, s')
    requires var pc := s.threads[t].pc; pc.RenkuDone? || pc.GitDone?
    ensures t < |s'.threads| && OnItsPath(s'.threads[t]) && LockMatches(s'.threads, name, s'.Lock(name))
  {
    OnlyOneMoves(c, s, t, i, s');
    assert OnItsPath(s.threads[t]);
    LockFollows(s.threads, s.Lock(name), s'.threads, s'.Lock(name), name, t);
  }

  lemma LockStepInside(c: Config, s: State, t: nat, i: Input, s': State, name: LockName)
    requires LockInv(s) && Moves(c, s, t, i, s')
    requires var pc := s.threads[t].pc; pc.Idle? || pc.GitHeld? || pc.RenkuHeld? || pc.RenkuAwait? || pc.Exchanging?
    ensures t < |s'.threads| && OnItsPath(s'.threads[t]) && LockMatches(s'.threads, name, s'.Lock(name))
  {
    OnlyOneMoves(c, s, t, i, s');
    assert OnItsPath(s.threads[t]);
    LockFollows(s.threads, s.Lock(name), s'.threads, s'.Lock(name), name, t);
  }

  lemma LockInvStep(c: Config, s: State, t: nat, i: Input, s': State)
    requires LockInv(s) && Moves(c, s, t, i, s')
    ensures LockInv(s')
  {
    OnlyOneMoves(c, s, t, i, s');
    forall name: LockName
      ensures OnItsPath(s'.threads[t]) && LockMatches(s'.threads, name, s'.Lock(name))
    {
      match s.threads[t].pc
      case ReadAsk(_) => LockStepReading(c, s, t, i, s', name);
      case ReadHold(_) => LockStepReading(c, s, t, i, s', name);
      case ReadDone(_) => LockStepReading(c, s, t, i, s', name);
      case Idle => LockStepInside(c, s, t, i, s', name);
      case GitHeld => LockStepInside(c, s, t, i, s', name);
      case RenkuHeld => LockStepInside(c, s, t, i, s', name);
      case RenkuAwait => LockStepInside(c, s, t, i, s', name);
      case Exchanging => LockStepInside(c, s, t, i, s', name);
      case GitCheck => LockStepDeciding(c, s, t, i, s', name);
      case JwtCheck => LockStepDeciding(c, s, t, i, s', name);
      case WriteAsk(_) => LockStepTaking(c, s, t, i, s', name);
      case _ => LockStepReleasing(c, s, t, i, s', name);
    }
    assert s'.Lock(Git) == s'.git && s'.Lock(Renku) == s'.renku;
  }

  // ---------------------------------------------------- the refresh chain

  /** The refresh token that the accepted responses leave: the last one that is not empty. */
  ghost function NewestRefresh(first: Token, log: seq<RenkuAccept>): Token {
    if log == [] then first
    else
      var last := log[|log| - 1].response.refresh;
      if last.text != "" then last else NewestRefresh(first, log[..|log| - 1])
  }

  /** The access token of the last accepted response. */
  ghost function NewestAccess(first: Token, log: seq<RenkuAccept>): Token {
    if log == [] then first else log[|log| - 1].response.access
  }

  ghost predicate RenkuInv(c: Config, s: State) {
    && s.pair.refresh == NewestRefresh(c.initial.refresh, s.renkuLog)
    && s.pair.access == NewestAccess(c.initial.access, s.renkuLog)
    && (forall k | 0 <= k < |s.renkuLog| ::
          s.renkuLog[k].carried == NewestRefresh(c.initial.refresh, s.renkuLog[..k]))
    && (forall t | 0 <= t < |s.threads| && s.threads[t].pc == RenkuAwait ::
          s.threads[t].carried == s.pair.refresh)
  }

  /** The pair of Renku tokens changes in exactly one place: an accepted response under the write lock. */
  lemma PairChangesOnlyOnAccept(c: Config, s: State, t: nat, i: Input, s': State)
    requires Moves(c, s, t, i, s')
    ensures if s.threads[t].pc == RenkuAwait && i.RenkuOk?
      then s'.pair == AcceptRenku(s.pair, i.response)
        && s'.renkuLog == s.renkuLog + [RenkuAccept(s.threads[t].carried, i.response)]
      else s'.pair == s.pair && s'.renkuLog == s.renkuLog
  {
  }

  /** A request is sent only under the Renku write lock, with the stored refresh token. */
  lemma SendsStoredToken(c: Config, s: State, t: nat, i: Input, s': State)
    requires Moves(c, s, t, i, s') && t < |s'.threads|
    requires s'.threads[t].pc == RenkuAwait
    ensures s.threads[t].pc == RenkuHeld
    ensures s'.threads[t].carried == s.pair.refresh
  {
  }

  lemma RenkuInvStep(c: Config, s: State, t: nat, i: Input, s': State)
    requires LockInv(s) && RenkuInv(c, s) && Moves(c, s, t, i, s')
    ensures RenkuInv(c, s')
  {
    OnlyOneMoves(c, s, t, i, s');
    PairChangesOnlyOnAccept(c, s, t, i, s');
    if s'.threads[t].pc == RenkuAwait {
      SendsStoredToken(c, s, t, i, s');
    }
    if s.threads[t].pc == RenkuAwait && i.RenkuOk? {
      AcceptKeepsRenkuInv(c, s, t, i.response, s');
    }
  }

  lemma AcceptKeepsRenkuInv(c: Config, s: State, t: nat, response: RenkuResponse, s': State)
    requires LockInv(s) && RenkuInv(c, s) && t < |s.threads| == |s'.threads|
    requires s.threads[t].pc == RenkuAwait && s'.threads == s.threads[t := s'.threads[t]]
    requires s'.threads[t].pc != RenkuAwait
    requires s'.pair == AcceptRenku(s.pair, response)
    requires s'.renkuLog == s.renkuLog + [RenkuAccept(s.threads[t].carried, response)]
    ensures RenkuInv(c, s')
  {
    var n := |s.renkuLog|;
    assert s'.renkuLog[..n] == s.renkuLog;
    assert forall k | 0 <= k < n :: s'.renkuLog[..k] == s.renkuLog[..k];
    // only one thread can be waiting for a response: it holds the write lock
    forall u | 0 <= u < |s.threads| && s.threads[u].pc == RenkuAwait
      ensures u == t
    {
      assert Writes(s.threads[u], Renku) && Writes(s.threads[t], Renku);
      assert s.renku.writer == Some(u) && s.renku.writer == Some(t);
    }
  }

  // ----------------------------------------------------- the exchange log

  /** The tokens of the latest accepted exchange for a provider. */
  ghost function Latest(log: seq<GitAccept>, provider: string): Option<TokenSet> {
    if log == [] then None
    else if log[|log| - 1].provider == provider then Some(log[|log| - 1].tokens)
    else Latest(log[..|log| - 1], provider)
  }

  /** Some thread's exchange for the provider was accepted between two lengths of the log. */
  ghost predicate AcceptedIn(log: seq<GitAccept>, from: nat, to: nat, provider: string) {
    exists j | 0 <= j < |log| :: from <= j < to && log[j].provider == provider
  }

  lemma {:induction false} LatestUnlessAccepted(log: seq<GitAccept>, from: nat, provider: string)
    requires from <= |log| && !AcceptedIn(log, from, |log|, provider)
    ensures Latest(log, provider) == Latest(log[..from], provider)
  {
    if from == |log| {
      assert log[..from] == log;
    } else {
      var n := |log| - 1;
      assert log[..n][..from] == log[..from];
      assert !AcceptedIn(log[..n], from, n, provider) by {
        assert forall j | 0 <= j < n :: log[..n][j] == log[j];
      }
      LatestUnlessAccepted(log[..n], from, provider);
    }
  }

  /** The entry never expires, or not within the leeway; whole seconds count. */
  ghost predicate StillGood(seen: Option<TokenSet>, at: int, leeway: int) {
    seen.Some? && (seen.value.expiresAt <= 0 || (at + leeway) / 1_000_000_000 <= seen.value.expiresAt)
  }

  /** The evidence that makes skipping the exchange right: a fresh entry was read during this call. */
  ghost predicate FreshlySeen(c: Config, log: seq<GitAccept>, th: Thread) {
    && th.started <= th.seenAt <= |log|
    && th.seen == Latest(log[..th.seenAt], th.provider)
    && StillGood(th.seen, th.checkedAt, c.leeway)
  }

  ghost predicate CallInv(c: Config, log: seq<GitAccept>, th: Thread) {
    && (th.kind.Request? && th.pc != Idle ==> th.started <= |log|)
    && (th.pc == ReadDone(GitFirst) || th.pc == GitCheck ==>
          th.started <= th.seenAt <= |log| && th.seen == Latest(log[..th.seenAt], th.provider))
    && (th.pc == ReadAsk(GitFinal) || th.pc == ReadHold(GitFinal) ==>
          AcceptedIn(log, th.started, |log|, th.provider) || FreshlySeen(c, log, th))
    && (th.pc == GitDone(true) ==> AcceptedIn(log, th.started, |log|, th.provider))
  }

  /**
   A successful return carries the token of the latest exchange accepted for its provider when
   the token was read, and that exchange either happened during the call or had already been
   accepted and still passed the expiry test that this call made.
   */
  ghost predicate GoodReturn(c: Config, log: seq<GitAccept>, r: Return) {
    && r.started <= r.at <= |log|
    && Latest(log[..r.at], r.provider).Some?
    && r.token == Latest(log[..r.at], r.provider).value.accessToken
    && (|| AcceptedIn(log, r.started, r.at, r.provider)
        || (r.seen == Latest(log[..r.at], r.provider) && StillGood(r.seen, r.checkedAt, c.leeway)))
  }

  ghost predicate GitInv(c: Config, s: State) {
    && (forall p :: Lookup(s.tokens, p) == Latest(s.gitLog, p))
    && (forall t | 0 <= t < |s.threads| :: CallInv(c, s.gitLog, s.threads[t]))
    && (forall k | 0 <= k < |s.returned| :: GoodReturn(c, s.gitLog, s.returned[k]))
  }

  lemma AcceptedStays(log: seq<GitAccept>, entry: GitAccept, from: nat, provider: string)
    requires AcceptedIn(log, from, |log|, provider)
    ensures AcceptedIn(log + [entry], from, |log| + 1, provider)
  {
    var j :| 0 <= j < |log| && from <= j < |log| && log[j].provider == provider;
    assert (log + [entry])[j] == log[j];
  }

  lemma CallStays(c: Config, log: seq<GitAccept>, entry: GitAccept, th: Thread)
    requires CallInv(c, log, th)
    ensures CallInv(c, log + [entry], th)
  {
    assert th.seenAt <= |log| ==> (log + [entry])[..th.seenAt] == log[..th.seenAt];
    if AcceptedIn(log, th.started, |log|, th.provider) {
      AcceptedStays(log, entry, th.started, th.provider);
    }
  }

  lemma ReturnStays(c: Config, log: seq<GitAccept>, entry: GitAccept, r: Return)
    requires GoodReturn(c, log, r)
    ensures GoodReturn(c, log + [entry], r)
  {
    assert (log + [entry])[..r.at] == log[..r.at];
    if AcceptedIn(log, r.started, r.at, r.provider) {
      var j :| 0 <= j < |log| && r.started <= j < r.at && log[j].provider == r.provider;
      assert (log + [entry])[j] == log[j];
    }
  }

  lemma ExchangeKeepsGitInv(c: Config, s: State, t: nat, i: Input, s': State)
    requires GitInv(c, s) && Moves(c, s, t, i, s')
    requires s.threads[t].pc == Exchanging && i.GitOk? && s.threads[t].kind.Request?
    ensures GitInv(c, s')
  {
    var entry := GitAccept(s.threads[t].provider, i.tokens);
    assert s'.gitLog[..|s.gitLog|] == s.gitLog;
    forall u | 0 <= u < |s.threads|
      ensures CallInv(c, s'.gitLog, s'.threads[u])
    {
      CallStays(c, s.gitLog, entry, s.threads[u]);
      if u == t {
        assert s'.gitLog[|s.gitLog|] == entry;
      }
    }
    forall k | 0 <= k < |s.returned|
      ensures GoodReturn(c, s'.gitLog, s'.returned[k])
    {
      ReturnStays(c, s.gitLog, entry, s.returned[k]);
    }
  }

  /** What the last read of a call finds is a good return. */
  lemma FinalReadIsGood(c: Config, s: State, th: Thread, r: Return)
    requires (forall p :: Lookup(s.tokens, p) == Latest(s.gitLog, p)) && CallInv(c, s.gitLog, th)
    requires th.pc == ReadHold(GitFinal) && th.kind.Request?
    requires r == Return(th.provider, if th.provider in s.tokens then s.tokens[th.provider].accessToken else "",
                         th.started, |s.gitLog|, th.seen, th.checkedAt)
    ensures GoodReturn(c, s.gitLog, r)
  {
    var log := s.gitLog;
    assert log[..|log|] == log;
    assert Lookup(s.tokens, th.provider) == Latest(log, th.provider);
    if AcceptedIn(log, th.started, |log|, th.provider) {
      if Latest(log, th.provider).None? {
        NoLatestNoEntry(log, th.provider);
      }
    } else {
      LatestUnlessAccepted(log, th.seenAt, th.provider);
    }
  }

  lemma {:induction false} NoLatestNoEntry(log: seq<GitAccept>, provider: string)
    requires Latest(log, provider).None?
    ensures forall j | 0 <= j < |log| :: log[j].provider != provider
  {
    if log != [] {
      NoLatestNoEntry(log[..|log| - 1], provider);
    }
  }

  /** The exchange log and the returns grow in exactly two places. */
  lemma LogsGrowOnlyThere(c: Config, s: State, t: nat, i: Input, s': State)
    requires Moves(c, s, t, i, s')
    ensures !(s.threads[t].pc == Exchanging && i.GitOk?) ==> s'.gitLog == s.gitLog && s'.tokens == s.tokens
    ensures s.threads[t].pc != ReadHold(GitFinal) ==> s'.returned == s.returned
  {
  }

  lemma CallInvReading(c: Config, s: State, t: nat, i: Input, s': State)
    requires Moves(c, s, t, i, s') && t < |s'.threads| && OnItsPath(s.threads[t])
    requires CallInv(c, s.gitLog, s.threads[t]) && (forall p :: Lookup(s.tokens, p) == Latest(s.gitLog, p))
    requires var pc := s.threads[t].pc; pc.ReadAsk? || pc.ReadHold? || pc.ReadDone?
    ensures CallInv(c, s.gitLog, s'.threads[t])
  {
    hide NeedsExchange, IsJwtExpired, AcceptRenku, AcceptedIn, Latest, Lookup;
    assert s.gitLog[..|s.gitLog|] == s.gitLog;
  }

  lemma CallInvDeciding(c: Config, s: State, t: nat, i: Input, s': State)
    requires Moves(c, s, t, i, s') && t < |s'.threads| && OnItsPath(s.threads[t])
    requires CallInv(c, s.gitLog, s.threads[t])
    requires var pc := s.threads[t].pc; pc.Idle? || pc.GitCheck? || pc.JwtCheck? || pc.WriteAsk? || pc.GitHeld?
    ensures CallInv(c, s.gitLog, s'.threads[t])
  {
    hide IsJwtExpired, AcceptRenku, AcceptedIn, Latest, Lookup;
  }

  lemma CallInvWriting(c: Config, s: State, t: nat, i: Input, s': State)
    requires Moves(c, s, t, i, s') && t < |s'.threads| && OnItsPath(s.threads[t])
    requires CallInv(c, s.gitLog, s.threads[t]) && !(s.threads[t].pc == Exchanging && i.GitOk?)
    requires var pc := s.threads[t].pc;
      pc.RenkuHeld? || pc.RenkuAwait? || pc.RenkuDone? || pc.Exchanging? || pc.GitDone?
    ensures CallInv(c, s.gitLog, s'.threads[t])
  {
    hide NeedsExchange, IsJwtExpired, AcceptRenku, AcceptedIn, Latest, Lookup;
  }

  /** A call that does not touch the logs keeps its own facts. */
  lemma CallInvStep(c: Config, s: State, t: nat, i: Input, s': State)
    requires Moves(c, s, t, i, s') && t < |s'.threads| && OnItsPath(s.threads[t])
    requires CallInv(c, s.gitLog, s.threads[t]) && (forall p :: Lookup(s.tokens, p) == Latest(s.gitLog, p))
    requires !(s.threads[t].pc == Exchanging && i.GitOk?)
    ensures CallInv(c, s.gitLog, s'.threads[t])
  {
    hide Do, CallInv, OnItsPath, Latest, Lookup;
    var pc := s.threads[t].pc;
    if pc.ReadAsk? || pc.ReadHold? || pc.ReadDone? {
      CallInvReading(c, s, t, i, s');
    } else if pc.RenkuHeld? || pc.RenkuAwait? || pc.RenkuDone? || pc.Exchanging? || pc.GitDone? {
      CallInvWriting(c, s, t, i, s');
    } else {
      CallInvDeciding(c, s, t, i, s');
    }
  }

  lemma GitInvStep(c: Config, s: State, t: nat, i: Input, s': State)
    requires LockInv(s) && GitInv(c, s) && Moves(c, s, t, i, s')
    ensures GitInv(c, s')
  {
    OnlyOneMoves(c, s, t, i, s');
    LogsGrowOnlyThere(c, s, t, i, s');
    var th := s.threads[t];
    assert OnItsPath(th) && CallInv(c, s.gitLog, th);
    if th.pc == Exchanging && i.GitOk? {
      ExchangeKeepsGitInv(c, s, t, i, s');
    } else {
      CallInvStep(c, s, t, i, s');
      if th.pc == ReadHold(GitFinal) {
        FinalReadStep(c, s, t, i, s');
      }
    }
  }

  lemma FinalReadStep(c: Config, s: State, t: nat, i: Input, s': State)
    requires GitInv(c, s) && Moves(c, s, t, i, s')
    requires s.threads[t].pc == ReadHold(GitFinal) && s.threads[t].kind.Request?
    ensures forall k | 0 <= k < |s'.returned| :: GoodReturn(c, s.gitLog, s'.returned[k])
  {
    FinalReadIsGood(c, s, s.threads[t], s'.returned[|s.returned|]);
  }

  // ------------------------------------------------------- reachable states

  ghost predicate Inv(c: Config, s: State) {
    LockInv(s) && RenkuInv(c, s) && GitInv(c, s)
  }

  lemma InvStep(c: Config, s: State, step: Step)
    requires Inv(c, s) && Apply(c, s, step).Some?
    ensures Inv(c, Apply(c, s, step).value)
  {
    match step
    case ThreadStep(t, i) =>
      var s' := Apply(c, s, step).value;
      LockInvStep(c, s, t, i, s');
      RenkuInvStep(c, s, t, i, s');
      GitInvStep(c, s, t, i, s');
    case ClockStep(_) =>
  }

  /** Every schedule keeps the invariant. */
  lemma {:induction false} InvRun(c: Config, s: State, steps: seq<Step>)
    requires Inv(c, s) && Run(c, s, steps).Some?
    ensures Inv(c, Run(c, s, steps).value)
    decreases |steps|
  {
    if steps != [] {
      InvStep(c, s, steps[0]);
      InvRun(c, Apply(c, s, steps[0]).value, steps[1..]);
    }
  }

  lemma InvReachable(c: Config, s0: State, steps: seq<Step>)
    requires Init(c, s0) && Run(c, s0, steps).Some?
    ensures Inv(c, Run(c, s0, steps).value)
  {
    InvRun(c, s0, steps);
  }

  /**
   The refresh chain.  Wherever the threads have got to, the stored tokens are those the accepted
   responses leave, every accepted response answered a request that carried the newest refresh
   token of its time, and so does the request in flight.
   */
  lemma RefreshChain(c: Config, s0: State, steps: seq<Step>, s: State)
    requires Init(c, s0) && Run(c, s0, steps) == Some(s)
    ensures s.pair
      == TokenPair(NewestAccess(c.initial.access, s.renkuLog), NewestRefresh(c.initial.refresh, s.renkuLog))
    ensures forall k | 0 <= k < |s.renkuLog| ::
              s.renkuLog[k].carried == NewestRefresh(c.initial.refresh, s.renkuLog[..k])
    ensures forall t | 0 <= t < |s.threads| && s.threads[t].pc == RenkuAwait ::
              s.threads[t].carried == NewestRefresh(c.initial.refresh, s.renkuLog)
  {
    InvReachable(c, s0, steps);
  }

  /** Only an accepted response changes the Renku tokens; a failed refresh leaves both alone. */
  lemma FailedRefreshChangesNothing(c: Config, s: State, step: Step, s': State)
    requires Apply(c, s, step) == Some(s') && s'.pair != s.pair
    ensures step.ThreadStep? && step.input.RenkuOk? && step.t < |s.threads| && s.threads[step.t].pc == RenkuAwait
    ensures s'.pair.access == step.input.response.access
    ensures s'.pair.refresh
      == if step.input.response.refresh.text == "" then s.pair.refresh else step.input.response.refresh
  {
    match step
    case ThreadStep(t, i) => PairChangesOnlyOnAccept(c, s, t, i, s');
    case ClockStep(_) =>
  }

  /**
   Every token that GetGitAccessToken has returned, in any reachable state, is that of the latest
   exchange accepted for its provider when it was read.  This exchange was accepted during the call,
   or the call found it at its start with an expiry that is not positive or not within the leeway of
   the time at which it looked.
   */
  lemma ReturnsAreGood(c: Config, s0: State, steps: seq<Step>, s: State)
    requires Init(c, s0) && Run(c, s0, steps) == Some(s)
    ensures forall k | 0 <= k < |s.returned| ::
      var r := s.returned[k];
      && r.started <= r.at <= |s.gitLog|
      && Latest(s.gitLog[..r.at], r.provider).Some?
      && r.token == Latest(s.gitLog[..r.at], r.provider).value.accessToken
      && (|| (exists j | r.started <= j < r.at :: s.gitLog[j].provider == r.provider)
          || (&& r.seen == Latest(s.gitLog[..r.at], r.provider)
              && (|| r.seen.value.expiresAt <= 0
                  || (r.checkedAt + c.leeway) / 1_000_000_000 <= r.seen.value.expiresAt)))
  {
    InvReachable(c, s0, steps);
    forall k | 0 <= k < |s.returned|
      ensures GoodReturn(c, s.gitLog, s.returned[k])
    {
    }
  }

  /**
   After its first read a call asks for the exchange exactly when there was no entry, or one with a
   positive expiry before the second that comes a leeway from now; otherwise it goes on to its last read.
   */
  lemma CallDecides(c: Config, s: State, t: nat, i: Input, s': State)
    requires t < |s.threads| && s.threads[t].pc == GitCheck && Apply(c, s, ThreadStep(t, i)) == Some(s')
    ensures var seen := s.threads[t].seen;
      var due := seen.None? || 0 < seen.value.expiresAt < (s.now + c.leeway) / 1_000_000_000;
      && t < |s'.threads| && s'.threads[t].pc == (if due then WriteAsk(Git) else ReadAsk(GitFinal))
      && s'.threads[t].checkedAt == s.now
    ensures s'.pair == s.pair && s'.tokens == s.tokens && s'.returned == s.returned && s'.gitLog == s.gitLog
  {
  }

  /**
   What is made of a Renku token that was read.  Without an expiry it is good; one that cannot be
   parsed fails a call, while the ticker tries to refresh it; else the time decides.
   */
  lemma TokenDecides(c: Config, s: State, t: nat, i: Input, s': State)
    requires t < |s.threads| && s.threads[t].pc == JwtCheck && Apply(c, s, ThreadStep(t, i)) == Some(s')
    ensures t < |s'.threads|
    ensures s'.threads[t].pc ==
      match s.threads[t].local.claims
      case Unparseable => if s.threads[t].kind.Request? then GitDone(false) else WriteAsk(Renku)
      case NoExpiry => if s.threads[t].kind.Request? then ReadAsk(RenkuAgain) else Idle
      case Expires(at) =>
        if at <= s.now + c.leeway then WriteAsk(Renku)
        else if s.threads[t].kind.Request? then ReadAsk(RenkuAgain) else Idle
    ensures s'.pair == s.pair && s'.tokens == s.tokens && s'.returned == s.returned && s'.gitLog == s.gitLog
  {
  }
}
