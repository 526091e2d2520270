/**
 The ticker inside the protocol.  When its checks start one period apart and are not interleaved,
 whatever the other threads do in between, the store follows the schedule of the sequential method.
 And in every run in which each check ends before the next tick, however it is interleaved, a refresh
 token that lapses has been attempted by four checks.
 */
module TokenTicks {
  import opened Prelude
  import opened TokenProtocol
  import opened TokenStores
  import opened RefreshSchedule
  import opened TokenSafety

  // ---------------------------------------------------------------- one check

  /** The steps bring thread t, and no other, to its next idle moment. */
  ghost predicate CheckRest(c: Config, s: State, t: nat, steps: seq<Step>)
    decreases |steps|
  {
    && t < |s.threads|
    && if steps == [] then s.threads[t].pc == Idle
       else
         && s.threads[t].pc != Idle && steps[0].ThreadStep? && steps[0].t == t
         && Do(c, s, t, steps[0].input).Some?
         && CheckRest(c, Do(c, s, t, steps[0].input).value, t, steps[1..])
  }

  /** One check of the ticker t, from its tick to its end. */
  ghost predicate IsCheck(c: Config, s: State, t: nat, steps: seq<Step>) {
    && t < |s.threads| && s.threads[t].kind.Ticker? && s.threads[t].pc == Idle
    && steps != [] && steps[0] == ThreadStep(t, Tick)
    && CheckRest(c, Move(s, t, ReadAsk(TickRefresh)), t, steps[1..])
  }

  predicate Due(c: Config, s: State) {
    IsJwtExpired(s.pair.refresh, s.now, c.leeway)
  }

  ghost predicate SamePair(s: State, cur: State) {
    cur.pair == s.pair && cur.renkuLog == s.renkuLog
  }

  /** The response to the check that was accepted, if one was. */
  function Own(s: State, after: State): Option<RenkuResponse> {
    if |s.renkuLog| < |after.renkuLog| then Some(after.renkuLog[|s.renkuLog|].response) else None
  }

  ghost predicate Outcome(s: State, after: State) {
    SamePair(s, after)
    || (&& Own(s, after).Some?
        && after.renkuLog == s.renkuLog + [RenkuAccept(s.pair.refresh, Own(s, after).value)]
        && after.pair == AcceptRenku(s.pair, Own(s, after).value))
  }

  /** How far the check that began in s has got in cur. */
  ghost predicate Stage(c: Config, s: State, t: nat, cur: State) {
    && t < |cur.threads| && cur.threads[t].kind.Ticker? && cur.now == s.now
    && var th := cur.threads[t];
       match th.pc
       case ReadAsk(site) => site.TickRefresh? && SamePair(s, cur)
       case ReadHold(site) => site.TickRefresh? && SamePair(s, cur)
       case ReadDone(site) => site.TickRefresh? && SamePair(s, cur) && th.local == s.pair.refresh
       case JwtCheck => SamePair(s, cur) && th.local == s.pair.refresh
       case WriteAsk(lock) => lock.Renku? && SamePair(s, cur) && Due(c, s)
       case RenkuHeld => SamePair(s, cur) && Due(c, s)
       case RenkuAwait => SamePair(s, cur) && Due(c, s) && th.carried == s.pair.refresh
       case RenkuDone(_) => Due(c, s) && |s.renkuLog| <= |cur.renkuLog| <= |s.renkuLog| + 1 && Outcome(s, cur)
       case Idle => |s.renkuLog| <= |cur.renkuLog| <= |s.renkuLog| + 1 && Outcome(s, cur)
         && (!Due(c, s) ==> SamePair(s, cur))
       case _ => false
  }

  lemma StageStep(c: Config, s: State, t: nat, cur: State, i: Input, next: State)
    requires Stage(c, s, t, cur) && cur.threads[t].pc != Idle && Do(c, cur, t, i) == Some(next)
    ensures Stage(c, s, t, next)
  {
  }

  lemma {:induction false} CheckEnds(c: Config, s: State, t: nat, cur: State, steps: seq<Step>)
    requires Stage(c, s, t, cur) && CheckRest(c, cur, t, steps)
    ensures Run(c, cur, steps).Some?
    ensures Stage(c, s, t, Run(c, cur, steps).value) && Run(c, cur, steps).value.threads[t].pc == Idle
    decreases |steps|
  {
    hide Stage, Do;
    if steps != [] {
      var next := Do(c, cur, t, steps[0].input).value;
      StageStep(c, s, t, cur, steps[0].input, next);
      CheckEnds(c, s, t, next, steps[1..]);
    }
  }

  /** An uninterrupted check does to the pair what a tick of the schedule does. */
  lemma CheckIsTick(c: Config, s: State, t: nat, steps: seq<Step>)
    requires IsCheck(c, s, t, steps)
    ensures Run(c, s, steps).Some?
    ensures var mid := Run(c, s, steps).value;
      && t < |mid.threads| && mid.threads[t].pc == Idle && mid.now == s.now
      && s.renkuLog <= mid.renkuLog
      && mid.pair == PairAfterTick(s.pair, s.now, c.leeway, TickInput(Own(s, mid), []))
  {
    var begun := Move(s, t, ReadAsk(TickRefresh));
    assert Apply(c, s, steps[0]) == Some(begun);
    assert Stage(c, s, t, begun);
    CheckEnds(c, s, t, begun, steps[1..]);
  }

  /** Somewhere on the way the check asks for the write lock, to refresh the tokens. */
  ghost predicate Attempts(c: Config, s: State, t: nat, steps: seq<Step>)
    decreases |steps|
  {
    && t < |s.threads|
    && (s.threads[t].pc == WriteAsk(Renku)
        || (steps != [] && Apply(c, s, steps[0]).Some? && Attempts(c, Apply(c, s, steps[0]).value, t, steps[1..])))
  }

  lemma {:induction false} RestAttemptsIff(c: Config, s: State, t: nat, cur: State, steps: seq<Step>)
    requires Stage(c, s, t, cur) && CheckRest(c, cur, t, steps)
    requires var pc := cur.threads[t].pc; pc.ReadAsk? || pc.ReadHold? || pc.ReadDone? || pc.JwtCheck?
    ensures Attempts(c, cur, t, steps) <==> Due(c, s)
    decreases |steps|
  {
    var next := Do(c, cur, t, steps[0].input).value;
    StageStep(c, s, t, cur, steps[0].input, next);
    if cur.threads[t].pc != JwtCheck {
      RestAttemptsIff(c, s, t, next, steps[1..]);
    }
  }

  /** A check attempts a refresh exactly when the refresh token that it finds is within the leeway of its expiry. */
  lemma CheckAttemptsIff(c: Config, s: State, t: nat, steps: seq<Step>)
    requires IsCheck(c, s, t, steps)
    ensures Attempts(c, s, t, steps) <==> Due(c, s)
  {
    var begun := Move(s, t, ReadAsk(TickRefresh));
    assert Apply(c, s, steps[0]) == Some(begun);
    RestAttemptsIff(c, s, t, begun, steps[1..]);
  }

  // --------------------------------------------------------- between the checks

  function Responses(log: seq<RenkuAccept>): (r: seq<RenkuResponse>)
    ensures |r| == |log|
  {
    seq(|log|, k requires 0 <= k < |log| => log[k].response)
  }

  function Since(log: seq<RenkuAccept>, later: seq<RenkuAccept>): seq<RenkuAccept> {
    if |log| <= |later| then later[|log|..] else []
  }

  lemma {:induction false} AcceptAllThen(pair: TokenPair, a: seq<RenkuResponse>, b: seq<RenkuResponse>)
    ensures AcceptAll(pair, a + b) == AcceptAll(AcceptAll(pair, a), b)
    decreases |b|
  {
    if b == [] {
      assert a + b == a;
    } else {
      var n := |b| - 1;
      assert (a + b)[..|a + b| - 1] == a + b[..n] && (a + b)[|a + b| - 1] == b[n];
      AcceptAllThen(pair, a, b[..n]);
    }
  }

  lemma StepAccepts(c: Config, s: State, step: Step, s': State)
    requires Apply(c, s, step) == Some(s')
    ensures SamePair(s, s')
      || (|s'.renkuLog| == |s.renkuLog| + 1 && s.renkuLog <= s'.renkuLog
          && s'.pair == AcceptRenku(s.pair, s'.renkuLog[|s.renkuLog|].response))
  {
  }

  /** Whatever the threads do, the pair is what the accepted responses leave. */
  lemma {:induction false} RunAccepts(c: Config, s: State, steps: seq<Step>)
    requires Run(c, s, steps).Some?
    ensures var s' := Run(c, s, steps).value;
      s.renkuLog <= s'.renkuLog && s'.pair == AcceptAll(s.pair, Responses(Since(s.renkuLog, s'.renkuLog)))
    decreases |steps|
  {
    hide Apply;
    var s' := Run(c, s, steps).value;
    if steps != [] {
      var next := Apply(c, s, steps[0]).value;
      StepAccepts(c, s, steps[0], next);
      RunAccepts(c, next, steps[1..]);
      AcceptAllThen(s.pair, Responses(Since(s.renkuLog, next.renkuLog)), Responses(Since(next.renkuLog, s'.renkuLog)));
      assert Responses(Since(s.renkuLog, s'.renkuLog))
          == Responses(Since(s.renkuLog, next.renkuLog)) + Responses(Since(next.renkuLog, s'.renkuLog));
      AcceptAllOfOne(s, next);
    }
  }

  lemma AcceptAllOfOne(s: State, next: State)
    requires s.renkuLog <= next.renkuLog
    requires SamePair(s, next)
      || (|next.renkuLog| == |s.renkuLog| + 1 && next.pair == AcceptRenku(s.pair, next.renkuLog[|s.renkuLog|].response))
    ensures next.pair == AcceptAll(s.pair, Responses(Since(s.renkuLog, next.renkuLog)))
  {
  }

  // ---------------------------------------------------------------- the rounds

  /** A check of the ticker, and what happens until the next one. */
  datatype Round = Round(check: seq<Step>, between: seq<Step>)

  ghost predicate IsRound(c: Config, s: State, t: nat, round: Round, s': State) {
    && IsCheck(c, s, t, round.check)
    && Run(c, s, round.check).Some?
    && Run(c, Run(c, s, round.check).value, round.between) == Some(s')
  }

  /** The outcomes of a round as the schedule sees them. */
  function InputOf(c: Config, s: State, round: Round, s': State): TickInput {
    match Run(c, s, round.check)
    case None => TickInput(None, [])
    case Some(mid) => TickInput(Own(s, mid), Responses(Since(mid.renkuLog, s'.renkuLog)))
  }

  lemma RoundIsTick(c: Config, s: State, t: nat, round: Round, s': State)
    requires IsRound(c, s, t, round, s')
    ensures s'.pair == PairAfterTick(s.pair, s.now, c.leeway, InputOf(c, s, round, s'))
  {
    hide IsCheck, Run, AcceptAll;
    CheckIsTick(c, s, t, round.check);
    RunAccepts(c, Run(c, s, round.check).value, round.between);
    EmptyAccepts(s, c.leeway, Own(s, Run(c, s, round.check).value));
  }

  lemma EmptyAccepts(s: State, leeway: int, own: Option<RenkuResponse>)
    ensures PairAfterTick(s.pair, s.now, leeway, TickInput(own, []))
         == if IsJwtExpired(s.pair.refresh, s.now, leeway) && own.Some? then AcceptRenku(s.pair, own.value) else s.pair
  {
  }

  /** A run of the protocol, cut where the ticker's checks begin: these are one period apart. */
  ghost predicate OnSchedule(c: Config, t: nat, start: int, period: int, states: seq<State>, rounds: seq<Round>) {
    && |states| == |rounds| + 1
    && forall k | 0 <= k < |rounds| ::
       states[k].now == start + k * period && IsRound(c, states[k], t, rounds[k], states[k + 1])
  }

  function InputsOf(c: Config, states: seq<State>, rounds: seq<Round>): (r: seq<TickInput>)
    requires |states| == |rounds| + 1
    ensures |r| == |rounds|
  {
    seq(|rounds|, k requires 0 <= k < |rounds| => InputOf(c, states[k], rounds[k], states[k + 1]))
  }

  /** The store at every check is the one that the schedule gives, for every behaviour of the other threads. */
  lemma {:induction false} StoreFollowsSchedule(c: Config, t: nat, start: int, period: int, states: seq<State>,
                                                rounds: seq<Round>, k: nat)
    requires OnSchedule(c, t, start, period, states, rounds) && k <= |rounds|
    ensures states[k].pair == PairAfter(states[0].pair, start, period, c.leeway, InputsOf(c, states, rounds)[..k])
  {
    hide IsRound, InputOf, PairAfterTick;
    var inputs := InputsOf(c, states, rounds);
    if k > 0 {
      StoreFollowsSchedule(c, t, start, period, states, rounds, k - 1);
      RoundIsTick(c, states[k - 1], t, rounds[k - 1], states[k]);
      assert inputs[..k][..k - 1] == inputs[..k - 1];
    }
  }

  /** What the schedule records of a tick is what the check finds and does. */
  lemma CheckIsRecorded(c: Config, t: nat, start: int, period: int, states: seq<State>, rounds: seq<Round>, k: nat)
    requires OnSchedule(c, t, start, period, states, rounds) && k < |rounds|
    ensures var r := Ticks(states[0].pair, start, period, c.leeway, InputsOf(c, states, rounds))[k];
      && r.at == states[k].now && r.token == states[k].pair.refresh
      && (r.attempted <==> Attempts(c, states[k], t, rounds[k].check))
  {
    hide Run, Attempts, CheckRest, Ticks, PairAfter;
    assert IsRound(c, states[k], t, rounds[k], states[k + 1]);
    StoreFollowsSchedule(c, t, start, period, states, rounds, k);
    TicksAt(states[0].pair, start, period, c.leeway, InputsOf(c, states, rounds), k);
    CheckAttemptsIff(c, states[k], t, rounds[k].check);
  }

  // ------------------------------------------------------- checks that take time

  /** From one tick to the next, with a check that takes its time among all that happens, but ends before. */
  ghost predicate IsTurn(c: Config, s: State, t: nat, steps: seq<Step>, s': State) {
    && t < |s.threads| && s.threads[t].kind.Ticker? && s.threads[t].pc == Idle
    && steps != [] && steps[0] == ThreadStep(t, Tick)
    && Run(c, s, steps) == Some(s')
    && t < |s'.threads| && s'.threads[t].pc == Idle
  }

  /** Between the two states a response with a refresh token was accepted. */
  ghost predicate BringsNew(s: State, s': State) {
    exists i | |s.renkuLog| <= i < |s'.renkuLog| :: s'.renkuLog[i].response.refresh.text != ""
  }

  /** The ticker has read this token, or will read it unless it is replaced before. */
  ghost predicate Finds(s: State, t: nat, token: Token) {
    && t < |s.threads| && s.threads[t].kind.Ticker?
    && match s.threads[t].pc
       case ReadAsk(site) => site.TickRefresh? && s.pair.refresh == token
       case ReadHold(site) => site.TickRefresh? && s.pair.refresh == token
       case ReadDone(site) => site.TickRefresh? && s.threads[t].local == token
       case JwtCheck => s.threads[t].local == token
       case _ => false
  }

  lemma NothingNewBetween(s: State, mid: State, s': State)
    requires s.renkuLog <= mid.renkuLog <= s'.renkuLog && !BringsNew(s, s')
    ensures !BringsNew(s, mid) && !BringsNew(mid, s')
  {
    assert forall i | 0 <= i < |mid.renkuLog| :: mid.renkuLog[i] == s'.renkuLog[i];
  }

  lemma KeptByStep(c: Config, s: State, step: Step, s': State)
    requires Apply(c, s, step) == Some(s') && !BringsNew(s, s')
    ensures s'.pair.refresh == s.pair.refresh && s.now <= s'.now
  {
    StepAccepts(c, s, step, s');
  }

  lemma FindsStep(c: Config, s: State, t: nat, token: Token, step: Step, s': State)
    requires Finds(s, t, token) && Apply(c, s, step) == Some(s') && !BringsNew(s, s')
      && IsJwtExpired(token, s.now, c.leeway)
    ensures Finds(s', t, token) || (t < |s'.threads| && s'.threads[t].pc == WriteAsk(Renku))
  {
    hide BringsNew;
    KeptByStep(c, s, step, s');
    match step
    case ClockStep(_) =>
    case ThreadStep(u, i) => OnlyOneMoves(c, s, u, i, s');
  }

  lemma {:induction false} DueIsAttempted(c: Config, s: State, t: nat, token: Token, steps: seq<Step>, s': State)
    requires Finds(s, t, token) && IsJwtExpired(token, s.now, c.leeway)
    requires Run(c, s, steps) == Some(s') && t < |s'.threads| && s'.threads[t].pc == Idle && !BringsNew(s, s')
    ensures Attempts(c, s, t, steps)
    decreases |steps|
  {
    hide Apply;
    if steps != [] {
      var next := Apply(c, s, steps[0]).value;
      StepAccepts(c, s, steps[0], next);
      RunAccepts(c, next, steps[1..]);
      NothingNewBetween(s, next, s');
      KeptByStep(c, s, steps[0], next);
      FindsStep(c, s, t, token, steps[0], next);
      if Finds(next, t, token) {
        DueIsAttempted(c, next, t, token, steps[1..], s');
      }
    }
  }

  /**
   A check that begins when the token is due attempts a refresh, unless the token is replaced before
   the next tick.
   */
  lemma TurnAttempts(c: Config, s: State, t: nat, steps: seq<Step>, s': State)
    requires IsTurn(c, s, t, steps, s') && Due(c, s) && !BringsNew(s, s')
    ensures Attempts(c, s, t, steps)
  {
    var begun := Move(s, t, ReadAsk(TickRefresh));
    assert Apply(c, s, steps[0]) == Some(begun);
    DueIsAttempted(c, begun, t, s.pair.refresh, steps[1..], s');
  }

  /** What a run without a new refresh token keeps, and that time does not go back. */
  lemma {:induction false} KeptByRun(c: Config, s: State, steps: seq<Step>)
    requires Run(c, s, steps).Some?
    ensures s.now <= Run(c, s, steps).value.now
    ensures !BringsNew(s, Run(c, s, steps).value) ==> Run(c, s, steps).value.pair.refresh == s.pair.refresh
    decreases |steps|
  {
    hide Apply;
    if steps != [] {
      var next, s' := Apply(c, s, steps[0]).value, Run(c, s, steps).value;
      StepKeepsTime(c, s, steps[0], next);
      StepAccepts(c, s, steps[0], next);
      RunAccepts(c, next, steps[1..]);
      KeptByRun(c, next, steps[1..]);
      if !BringsNew(s, s') {
        NothingNewBetween(s, next, s');
        KeptByStep(c, s, steps[0], next);
      }
    }
  }

  lemma StepKeepsTime(c: Config, s: State, step: Step, s': State)
    requires Apply(c, s, step) == Some(s')
    ensures s.now <= s'.now
  {
  }

  /** A run of the protocol, cut at the ticks, which are at most a period apart. */
  ghost predicate Ticking(c: Config, t: nat, period: int, states: seq<State>, turns: seq<seq<Step>>) {
    && |states| == |turns| + 1
    && forall k | 0 <= k < |turns| ::
       IsTurn(c, states[k], t, turns[k], states[k + 1]) && states[k + 1].now <= states[k].now + period
  }

  ghost predicate KeptOver(states: seq<State>, m: nat, l: nat)
    requires l < |states|
  {
    forall k | m <= k < l :: !BringsNew(states[k], states[k + 1])
  }

  lemma {:induction false} SameOver(c: Config, t: nat, period: int, states: seq<State>, turns: seq<seq<Step>>, m: nat,
                                    k: nat)
    requires Ticking(c, t, period, states, turns) && m <= k < |states|
    ensures states[m].now <= states[k].now
    ensures KeptOver(states, m, k) ==> states[k].pair.refresh == states[m].pair.refresh
    decreases k - m
  {
    hide BringsNew, Run;
    if m < k {
      SameOver(c, t, period, states, turns, m, k - 1);
      assert IsTurn(c, states[k - 1], t, turns[k - 1], states[k]);
      KeptByRun(c, states[k - 1], turns[k - 1]);
    }
  }

  /** Four periods are enough for four ticks. */
  lemma FourTicks(c: Config, t: nat, period: nat, states: seq<State>, turns: seq<seq<Step>>, j: nat, k: nat)
    requires Ticking(c, t, period, states, turns) && j <= k <= j + 4 && k < |states|
    ensures states[k].now <= states[j].now + 4 * period
  {
    hide IsTurn;
    assert forall i | j <= i < k :: states[i + 1].now <= states[i].now + period;
    assert k > j ==> states[j + 1].now <= states[j].now + period;
    assert k > j + 1 ==> states[j + 2].now <= states[j + 1].now + period;
    assert k > j + 2 ==> states[j + 3].now <= states[j + 2].now + period;
  }

  /**
   Four attempts, in the protocol, with checks that take time and are interleaved with anything.  A
   refresh token that is not due at tick m, is still stored at a later tick l and lapses by the tick
   after l was first due at some tick f.  The ticks f to f + 3, of which l may be the last, all come
   before the expiry, and the check that each starts attempts a refresh; only the last may instead
   find that the token has just been replaced.
   */
  lemma LapseInProtocol(seconds: int, c: Config, t: nat, states: seq<State>, turns: seq<seq<Step>>, m: nat, l: nat)
    returns (f: nat)
    requires 0 < seconds <= LONGEST_PERIOD && c.leeway == GetExpirationLeeway(seconds)
    requires Ticking(c, t, GetRefreshCheckPeriod(seconds), states, turns) && m <= l < |turns|
    requires !Due(c, states[m]) && forall k | m <= k < l :: !BringsNew(states[k], states[k + 1])
    requires states[l].pair.refresh.claims.Expires? && states[l].pair.refresh.claims.at <= states[l + 1].now
    ensures m < f && f + 3 <= l
    ensures !Due(c, states[f - 1])
    ensures forall k | f <= k <= f + 3 ::
      && states[k].pair.refresh == states[l].pair.refresh
      && states[k].now < states[l].pair.refresh.claims.at
      && (Attempts(c, states[k], t, turns[k]) || (k == l && BringsNew(states[l], states[l + 1])))
  {
    hide IsTurn, BringsNew, Attempts;
    LeewayIsFourPeriods(seconds);
    var period := GetRefreshCheckPeriod(seconds);
    SameOver(c, t, period, states, turns, m, l);
    f := FirstRise(seq(|states|, k requires 0 <= k < |states| => Due(c, states[k])), m, l);
    SameOver(c, t, period, states, turns, m, f - 1);
    if l < f + 3 {
      FourTicks(c, t, period, states, turns, f - 1, l + 1);
    }
    forall k | f <= k <= f + 3
      ensures states[k].pair.refresh == states[l].pair.refresh && states[k].now < states[l].pair.refresh.claims.at
      ensures Attempts(c, states[k], t, turns[k]) || (k == l && BringsNew(states[l], states[l + 1]))
    {
      SameOver(c, t, period, states, turns, m, f);
      SameOver(c, t, period, states, turns, f, k);
      SameOver(c, t, period, states, turns, m, k);
      FourTicks(c, t, period, states, turns, f - 1, k);
      if !BringsNew(states[k], states[k + 1]) {
        TurnAttempts(c, states[k], t, turns[k], states[k + 1]);
      }
    }
  }
}
