/**
 The two views of a call agree: a request thread that runs from start to end without being
 interleaved leaves the store, and returns the token, that the methods of TokenStore specify.
 */
module TokenSolo {
  import opened Prelude
  import opened TokenProtocol
  import opened TokenStores

  ghost predicate StepsOf(t: nat, steps: seq<Step>) {
    forall k | 0 <= k < |steps| :: steps[k].ThreadStep? && steps[k].t == t
  }

  /** Thread t alone can bring s to s'. */
  ghost predicate Alone(c: Config, s: State, t: nat, s': State) {
    exists steps :: StepsOf(t, steps) && Run(c, s, steps) == Some(s')
  }

  lemma {:induction false} RunThen(c: Config, s: State, a: seq<Step>, b: seq<Step>)
    requires Run(c, s, a).Some?
    ensures Run(c, s, a + b) == Run(c, Run(c, s, a).value, b)
    decreases |a|
  {
    if a == [] {
      assert a + b == b;
    } else {
      assert (a + b)[1..] == a[1..] + b;
      RunThen(c, Apply(c, s, a[0]).value, a[1..], b);
    }
  }

  lemma AloneThen(c: Config, s: State, t: nat, mid: State, s': State)
    requires Alone(c, s, t, mid) && Alone(c, mid, t, s')
    ensures Alone(c, s, t, s')
  {
    var a :| StepsOf(t, a) && Run(c, s, a) == Some(mid);
    var b :| StepsOf(t, b) && Run(c, mid, b) == Some(s');
    RunThen(c, s, a, b);
    assert StepsOf(t, a + b);
  }

  lemma OneStep(c: Config, s: State, t: nat, i: Input, s': State)
    requires t < |s.threads| && Do(c, s, t, i) == Some(s')
    ensures Alone(c, s, t, s')
  {
    var steps := [ThreadStep(t, i)];
    assert Run(c, s', steps[1..]) == Some(s');
    assert Run(c, s, steps) == Some(s');
    assert StepsOf(t, steps);
  }

  lemma TwoSteps(c: Config, s: State, t: nat, i: Input, mid: State, j: Input, s': State)
    requires t < |s.threads| && Do(c, s, t, i) == Some(mid)
    requires t < |mid.threads| && Do(c, mid, t, j) == Some(s')
    ensures Alone(c, s, t, s')
  {
    OneStep(c, s, t, i, mid);
    OneStep(c, mid, t, j, s');
    AloneThen(c, s, t, mid, s');
  }

  function ValueOf(s: State): Stored {
    Stored(s.pair, s.tokens)
  }

  /** Everything that a call depends on besides its own thread. */
  ghost predicate SameStore(s: State, s': State) {
    ValueOf(s') == ValueOf(s) && s'.now == s.now && |s'.threads| == |s.threads|
  }

  ghost predicate SameLocks(s: State, s': State) {
    s'.git == s.git && s'.renku == s.renku
  }

  ghost predicate Unheld(lock: RWLock) {
    lock.readers == {} && lock.writer == None
  }

  /** A read section, from asking for the lock to having released it. */
  lemma ReadAlone(c: Config, s: State, t: nat, site: ReadSite) returns (s': State)
    requires t < |s.threads| && s.threads[t].pc == ReadAsk(site)
    requires Unheld(s.Lock(LockOf(site)))
    ensures Alone(c, s, t, s') && SameStore(s, s') && SameLocks(s, s')
    ensures s'.threads[t].pc == match site {
        case GitFirst => GitCheck case GitFinal => Idle case RenkuAccess => JwtCheck
        case RenkuAgain => Exchanging case TickRefresh => JwtCheck }
    ensures s'.threads[t].kind == s.threads[t].kind && s'.threads[t].provider == s.threads[t].provider
    ensures site.GitFirst? ==> s'.threads[t].seen == Lookup(s.tokens, s.threads[t].provider)
    ensures site.RenkuAccess? ==> s'.threads[t].local == s.pair.access
    ensures if site.GitFinal? then |s'.returned| == |s.returned| + 1
        && s'.returned[..|s.returned|] == s.returned
        && s'.returned[|s.returned|].provider == s.threads[t].provider
        && Some(s'.returned[|s.returned|].token)
           == Some(if s.threads[t].provider in s.tokens then s.tokens[s.threads[t].provider].accessToken else "")
      else s'.returned == s.returned
  {
    var lock := s.Lock(LockOf(site));
    var held := AcquireRead(s, t, site).value;
    var read := Read(held, t, site);
    s' := ReleaseRead(read, t, site);
    assert lock.readers + {t} - {t} == lock.readers;
    TwoSteps(c, s, t, Go, held, Go, read);
    OneStep(c, read, t, Go, s');
    AloneThen(c, s, t, read, s');
  }

  /** A Renku refresh, from asking for the write lock to having released it. */
  lemma RefreshAlone(c: Config, s: State, t: nat, w: World) returns (s': State)
    requires t < |s.threads| && s.threads[t].pc == WriteAsk(Renku) && s.threads[t].kind.Request?
    requires s.renku == RWLock({}, None, {t})
    ensures Alone(c, s, t, s') && |s'.threads| == |s.threads|
    ensures s'.now == s.now && s'.git == s.git && s'.renku == RWLock({}, None, {})
    ensures s'.tokens == s.tokens && s'.returned == s.returned
    ensures s'.threads[t].kind == s.threads[t].kind && s'.threads[t].provider == s.threads[t].provider
    ensures s'.threads[t].pc == if w.refresh.Some? then ReadAsk(RenkuAgain) else GitDone(false)
    ensures s'.pair == if w.refresh.Some? then AcceptRenku(s.pair, w.refresh.value) else s.pair
  {
    var outcome := if w.refresh.Some? then RenkuOk(w.refresh.value) else Fail;
    var held := AcquireWrite(s, t, Renku).value;
    var sent := Do(c, held, t, Go).value;
    var answered := Do(c, sent, t, outcome).value;
    s' := Do(c, answered, t, Go).value;
    assert {t} - {t} == {};
    TwoSteps(c, s, t, Go, held, Go, sent);
    TwoSteps(c, sent, t, outcome, answered, Go, s');
    AloneThen(c, s, t, sent, s');
  }

  /** The expiry test inside getValidRenkuAccessToken. */
  lemma CheckAlone(c: Config, s: State, t: nat) returns (s': State)
    requires t < |s.threads| && s.threads[t].pc == JwtCheck && s.threads[t].kind.Request?
    requires s.renku == RWLock({}, None, {})
    ensures Alone(c, s, t, s') && SameStore(s, s') && s'.git == s.git && s'.returned == s.returned
    ensures s'.threads[t].kind.Request? && s'.threads[t].provider == s.threads[t].provider
    ensures var local := s.threads[t].local;
      s'.threads[t].pc == if local.claims.Unparseable? then GitDone(false)
        else if IsJwtExpired(local, s.now, c.leeway) then WriteAsk(Renku) else ReadAsk(RenkuAgain)
    ensures s'.renku == if s'.threads[t].pc == WriteAsk(Renku) then RWLock({}, None, {t}) else s.renku
  {
    s' := AfterJwtCheck(c, s, t);
    OneStep(c, s, t, Go, s');
  }

  /** getValidRenkuAccessToken, inside an exchange. */
  lemma ValidAlone(c: Config, s: State, t: nat, w: World) returns (s': State)
    requires t < |s.threads| && s.threads[t].pc == ReadAsk(RenkuAccess) && s.threads[t].kind.Request?
    requires s.renku == RWLock({}, None, {}) && w.now == s.now
    ensures Alone(c, s, t, s') && |s'.threads| == |s.threads|
    ensures SameLocks(s, s') && s'.now == s.now && s'.returned == s.returned
    ensures s'.threads[t].kind.Request? && s'.threads[t].provider == s.threads[t].provider
    ensures ValueOf(s') == ValidRenku(ValueOf(s), c.leeway, w).0
    ensures s'.threads[t].pc == if ValidRenku(ValueOf(s), c.leeway, w).1.Some? then Exchanging else GitDone(false)
  {
    var read := ReadAlone(c, s, t, RenkuAccess);
    s' := CheckAlone(c, read, t);
    AloneThen(c, s, t, read, s');
    if s'.threads[t].pc == WriteAsk(Renku) {
      var refreshed := RefreshAlone(c, s', t, w);
      AloneThen(c, s, t, s', refreshed);
      s' := refreshed;
    }
    if s'.threads[t].pc == ReadAsk(RenkuAgain) {
      var again := ReadAlone(c, s', t, RenkuAgain);
      AloneThen(c, s, t, s', again);
      s' := again;
    }
  }

  /** refreshGitAccessToken, from asking for the write lock to having released it. */
  lemma ExchangeAlone(c: Config, s: State, t: nat, w: World) returns (s': State)
    requires t < |s.threads| && s.threads[t].pc == WriteAsk(Git) && s.threads[t].kind.Request?
    requires s.git == RWLock({}, None, {t}) && s.renku == RWLock({}, None, {}) && w.now == s.now
    ensures Alone(c, s, t, s') && |s'.threads| == |s.threads|
    ensures s'.git == s'.renku == RWLock({}, None, {}) && s'.now == s.now && s'.returned == s.returned
    ensures s'.threads[t].kind.Request? && s'.threads[t].provider == s.threads[t].provider
    ensures ValueOf(s') == RefreshGit(ValueOf(s), s.threads[t].provider, c.leeway, w).0
    ensures s'.threads[t].pc
      == if RefreshGit(ValueOf(s), s.threads[t].provider, c.leeway, w).1 then ReadAsk(GitFinal) else Idle
  {
    hide Alone, ValidRenku;
    var built := BuildAlone(c, s, t, w);
    var done := built;
    if w.requestBuilt {
      var valid := ValidAlone(c, built, t, w);
      AloneThen(c, s, t, built, valid);
      done := valid;
      if valid.threads[t].pc == Exchanging {
        done := AnswerAlone(c, valid, t, w);
        AloneThen(c, s, t, valid, done);
      }
    }
    s' := ReleaseWrite(done, t, Git, if done.threads[t].pc == GitDone(true) then ReadAsk(GitFinal) else Idle);
    OneStep(c, done, t, Go, s');
    AloneThen(c, s, t, done, s');
  }

  /** Taking the Git write lock and building the request. */
  lemma BuildAlone(c: Config, s: State, t: nat, w: World) returns (s': State)
    requires t < |s.threads| && s.threads[t].pc == WriteAsk(Git) && s.threads[t].kind.Request?
    requires s.git == RWLock({}, None, {t})
    ensures Alone(c, s, t, s') && SameStore(s, s') && s'.renku == s.renku && s'.returned == s.returned
    ensures s'.git == RWLock({}, Some(t), {})
    ensures s'.threads[t].kind.Request? && s'.threads[t].provider == s.threads[t].provider
    ensures s'.threads[t].pc == if w.requestBuilt then ReadAsk(RenkuAccess) else GitDone(false)
  {
    var held := AcquireWrite(s, t, Git).value;
    assert {t} - {t} == {};
    var input := if w.requestBuilt then Go else Fail;
    s' := Do(c, held, t, input).value;
    TwoSteps(c, s, t, Go, held, input, s');
  }

  lemma AnswerAlone(c: Config, s: State, t: nat, w: World) returns (s': State)
    requires t < |s.threads| && s.threads[t].pc == Exchanging
    ensures Alone(c, s, t, s') && |s'.threads| == |s.threads|
    ensures SameLocks(s, s') && s'.now == s.now && s'.returned == s.returned && s'.pair == s.pair
    ensures s'.threads[t].kind == s.threads[t].kind && s'.threads[t].provider == s.threads[t].provider
    ensures s'.threads[t].pc == GitDone(w.exchange.Some?)
    ensures s'.tokens == if w.exchange.Some? then s.tokens[s.threads[t].provider := w.exchange.value] else s.tokens
  {
    var outcome := if w.exchange.Some? then GitOk(w.exchange.value) else Fail;
    s' := Do(c, s, t, outcome).value;
    OneStep(c, s, t, outcome, s');
  }

  /**
   A call of GetGitAccessToken that nothing interrupts: the protocol has a run of thread t alone
   that ends idle with both locks free, with the store that the method specifies, and with
   exactly the token that the method returns as a new return, or no new return when it fails.
   */
  lemma CallAlone(c: Config, s: State, t: nat, provider: string, w: World) returns (s': State)
    requires t < |s.threads| && s.threads[t].pc == Idle && s.threads[t].kind.Request?
    requires s.git == s.renku == RWLock({}, None, {}) && w.now == s.now
    ensures Alone(c, s, t, s') && |s'.threads| == |s.threads|
    ensures s'.threads[t].pc == Idle && s'.git == s'.renku == RWLock({}, None, {})
    ensures ValueOf(s') == GetGit(ValueOf(s), provider, c.leeway, w).0
    ensures var token := GetGit(ValueOf(s), provider, c.leeway, w).1;
      if token.Some? then |s'.returned| == |s.returned| + 1 && s'.returned[..|s.returned|] == s.returned
        && s'.returned[|s.returned|].provider == provider && s'.returned[|s.returned|].token == token.value
      else s'.returned == s.returned
  {
    var started := Do(c, s, t, Start(provider)).value;
    OneStep(c, s, t, Start(provider), started);
    var seen := ReadAlone(c, started, t, GitFirst);
    AloneThen(c, s, t, started, seen);
    var checked := Do(c, seen, t, Go).value;
    OneStep(c, seen, t, Go, checked);
    AloneThen(c, s, t, seen, checked);
    s' := checked;
    if NeedsExchange(Lookup(s.tokens, provider), s.now, c.leeway) {
      s' := ExchangeAlone(c, checked, t, w);
      AloneThen(c, s, t, checked, s');
    }
    if s'.threads[t].pc == ReadAsk(GitFinal) {
      var read := ReadAlone(c, s', t, GitFinal);
      AloneThen(c, s, t, s', read);
      s' := read;
    }
  }
}
