/**
 The git proxy's token store as a protocol between threads.

 Any number of request goroutines run GetGitAccessToken while the ticker goroutine runs
 periodicTokenRefresh.  Every lock operation, every read of a shared field and every HTTP
 outcome is one step of one thread; the HTTP outcomes and the clock are inputs.
 */
module TokenProtocol {
  import opened Prelude

  // ---------------------------------------------------------------- tokens

  /** What parsing a token as a JWT yields; expiry is in nanoseconds. */
  datatype Claims = Unparseable | NoExpiry | Expires(at: int)

  datatype Token = Token(text: string, claims: Claims)

  datatype TokenPair = TokenPair(access: Token, refresh: Token)

  /** A provider's token; expiresAt is in seconds and a value that is not positive means "never". */
  datatype TokenSet = TokenSet(accessToken: string, expiresAt: int)

  datatype RenkuResponse = RenkuResponse(access: Token, refresh: Token)

  const NANOSECONDS: int := 1_000_000_000

  /** The boolean that isJWTExpired returns; a token that cannot be parsed counts as expired. */
  predicate IsJwtExpired(token: Token, now: int, leeway: int) {
    match token.claims
    case Unparseable => true
    case NoExpiry => false
    case Expires(at) => at <= now + leeway
  }

  /** The test at the head of GetGitAccessToken. */
  predicate NeedsExchange(seen: Option<TokenSet>, now: int, leeway: int) {
    seen.None? || 0 < seen.value.expiresAt < (now + leeway) / NANOSECONDS
  }

  /** An accepted refresh: the access token is replaced, an empty refresh token keeps the old one. */
  function AcceptRenku(pair: TokenPair, response: RenkuResponse): TokenPair {
    TokenPair(response.access, if response.refresh.text != "" then response.refresh else pair.refresh)
  }

  function Lookup<V>(m: map<string, V>, key: string): Option<V> {
    if key in m then Some(m[key]) else None
  }

  // --------------------------------------------------------------- threads

  datatype LockName = Git | Renku

  datatype RWLock = RWLock(readers: set<nat>, writer: Option<nat>, waiting: set<nat>)

  /** The five places that take a read lock. */
  datatype ReadSite = GitFirst | GitFinal | RenkuAccess | RenkuAgain | TickRefresh

  function LockOf(site: ReadSite): LockName {
    if site.GitFirst? || site.GitFinal? then Git else Renku
  }

  datatype Kind = Request | Ticker

  datatype PC =
    | Idle
    | ReadAsk(site: ReadSite)
    | ReadHold(site: ReadSite)
    | ReadDone(site: ReadSite)
    | GitCheck
    | WriteAsk(lock: LockName)
    | GitHeld
    | JwtCheck
    | RenkuHeld
    | RenkuAwait
    | RenkuDone(refreshed: bool)
    | Exchanging
    | GitDone(exchanged: bool)

  /** A thread: where it is, and its local variables. */
  datatype Thread = Thread(
    kind: Kind,
    pc: PC,
    provider: string,
    started: nat,            // length of the exchange log when the call began
    seenAt: nat,             // length of the exchange log at the first read
    seen: Option<TokenSet>,  // the entry found by the first read
    checkedAt: int,          // the time used by the expiry test
    local: Token,            // the Renku token read last
    carried: Token           // the refresh token sent with the request in flight
  )

  // ----------------------------------------------------------------- state

  datatype RenkuAccept = RenkuAccept(carried: Token, response: RenkuResponse)

  datatype GitAccept = GitAccept(provider: string, tokens: TokenSet)

  /** A successful return of GetGitAccessToken, with the facts of its call. */
  datatype Return = Return(
    provider: string, token: string, started: nat, at: nat, seen: Option<TokenSet>, checkedAt: int)

  datatype Config = Config(initial: TokenPair, leeway: int)

  datatype State = State(
    threads: seq<Thread>,
    git: RWLock,
    renku: RWLock,
    pair: TokenPair,
    tokens: map<string, TokenSet>,
    now: int,
    renkuLog: seq<RenkuAccept>,
    gitLog: seq<GitAccept>,
    returned: seq<Return>)
  {
    function Lock(name: LockName): RWLock {
      if name.Git? then git else renku
    }

    function WithLock(name: LockName, lock: RWLock): State {
      if name.Git? then this.(git := lock) else this.(renku := lock)
    }
  }

  predicate Init(c: Config, s: State) {
    && (forall t | 0 <= t < |s.threads| :: s.threads[t].pc == Idle)
    && s.git == s.renku == RWLock({}, None, {})
    && s.pair == c.initial
    && s.tokens == map[]
    && s.renkuLog == [] && s.gitLog == [] && s.returned == []
  }

  // ----------------------------------------------------------------- steps

  datatype Input =
    | Start(provider: string)
    | Tick
    | Go
    | Fail
    | RenkuOk(response: RenkuResponse)
    | GitOk(tokens: TokenSet)

  function Move(s: State, t: nat, pc: PC): State
    requires t < |s.threads|
  {
    s.(threads := s.threads[t := s.threads[t].(pc := pc)])
  }

  function Announce(s: State, t: nat, name: LockName): State
    requires t < |s.threads|
  {
    var lock := s.Lock(name);
    Move(s.WithLock(name, lock.(waiting := lock.waiting + {t})), t, WriteAsk(name))
  }

  function AcquireRead(s: State, t: nat, site: ReadSite): Option<State>
    requires t < |s.threads|
  {
    var lock := s.Lock(LockOf(site));
    if lock.writer.Some? then None
    else Some(Move(s.WithLock(LockOf(site), lock.(readers := lock.readers + {t})), t, ReadHold(site)))
  }

  function AcquireWrite(s: State, t: nat, name: LockName): Option<State>
    requires t < |s.threads|
  {
    var lock := s.Lock(name);
    if lock.writer.Some? || lock.readers != {} then None
    else
      var taken := RWLock({}, Some(t), lock.waiting - {t});
      Some(Move(s.WithLock(name, taken), t, if name.Git? then GitHeld else RenkuHeld))
  }

  function ReleaseRead(s: State, t: nat, site: ReadSite): State
    requires t < |s.threads|
  {
    var lock := s.Lock(LockOf(site));
    var next :=
      match site
      case GitFirst => GitCheck
      case GitFinal => Idle
      case RenkuAccess => JwtCheck
      case RenkuAgain => Exchanging
      case TickRefresh => JwtCheck;
    Move(s.WithLock(LockOf(site), lock.(readers := lock.readers - {t})), t, next)
  }

  function ReleaseWrite(s: State, t: nat, name: LockName, next: PC): State
    requires t < |s.threads|
  {
    Move(s.WithLock(name, s.Lock(name).(writer := None)), t, next)
  }

  /** The read made while the read lock is held. */
  function Read(s: State, t: nat, site: ReadSite): State
    requires t < |s.threads|
  {
    var th := s.threads[t];
    match site
    case GitFirst =>
      s.(threads := s.threads[t := th.(pc := ReadDone(site), seen := Lookup(s.tokens, th.provider),
                                       seenAt := |s.gitLog|)])
    case GitFinal =>
      // Go yields the zero value for a missing key
      var token := if th.provider in s.tokens then s.tokens[th.provider].accessToken else "";
      var r := Return(th.provider, token, th.started, |s.gitLog|, th.seen, th.checkedAt);
      Move(s, t, ReadDone(site)).(returned := s.returned + [r])
    case RenkuAccess =>
      s.(threads := s.threads[t := th.(pc := ReadDone(site), local := s.pair.access)])
    case RenkuAgain =>
      s.(threads := s.threads[t := th.(pc := ReadDone(site), local := s.pair.access)])
    case TickRefresh =>
      s.(threads := s.threads[t := th.(pc := ReadDone(site), local := s.pair.refresh)])
  }

  /** What a thread does after it has looked at the expiry of the token it read. */
  function AfterJwtCheck(c: Config, s: State, t: nat): State
    requires t < |s.threads|
  {
    var th := s.threads[t];
    if th.kind.Request? && th.local.claims.Unparseable? then Move(s, t, GitDone(false))
    else if IsJwtExpired(th.local, s.now, c.leeway) then Announce(s, t, Renku)
    else Move(s, t, if th.kind.Request? then ReadAsk(RenkuAgain) else Idle)
  }

  /** One step of thread t, or None when it cannot take that step. */
  function Do(c: Config, s: State, t: nat, i: Input): Option<State>
    requires t < |s.threads|
  {
    var th := s.threads[t];
    match th.pc
    case Idle =>
      if th.kind.Request? && i.Start? then
        Some(s.(threads := s.threads[t := th.(pc := ReadAsk(GitFirst), provider := i.provider, started := |s.gitLog|)]))
      else if th.kind.Ticker? && i.Tick? then Some(Move(s, t, ReadAsk(TickRefresh)))
      else None
    case ReadAsk(site) => AcquireRead(s, t, site)
    case ReadHold(site) => Some(Read(s, t, site))
    case ReadDone(site) => Some(ReleaseRead(s, t, site))
    case GitCheck =>
      var checked := s.(threads := s.threads[t := th.(checkedAt := s.now)]);
      Some(if NeedsExchange(th.seen, s.now, c.leeway) then Announce(checked, t, Git)
           else Move(checked, t, ReadAsk(GitFinal)))
    case WriteAsk(name) => AcquireWrite(s, t, name)
    case GitHeld => Some(Move(s, t, if i.Fail? then GitDone(false) else ReadAsk(RenkuAccess)))
    case JwtCheck => Some(AfterJwtCheck(c, s, t))
    case RenkuHeld =>
      Some(if i.Fail? then Move(s, t, RenkuDone(false))
           else s.(threads := s.threads[t := th.(pc := RenkuAwait, carried := s.pair.refresh)]))
    case RenkuAwait =>
      Some(if i.RenkuOk? then
             Move(s, t, RenkuDone(true)).(
               pair := AcceptRenku(s.pair, i.response),
               renkuLog := s.renkuLog + [RenkuAccept(th.carried, i.response)])
           else Move(s, t, RenkuDone(false)))
    case RenkuDone(refreshed) =>
      Some(ReleaseWrite(s, t, Renku,
             if th.kind.Ticker? then Idle else if refreshed then ReadAsk(RenkuAgain) else GitDone(false)))
    case Exchanging =>
      Some(if i.GitOk? then
             Move(s, t, GitDone(true)).(
               tokens := s.tokens[th.provider := i.tokens],
               gitLog := s.gitLog + [GitAccept(th.provider, i.tokens)])
           else Move(s, t, GitDone(false)))
    case GitDone(exchanged) =>
      Some(ReleaseWrite(s, t, Git, if exchanged then ReadAsk(GitFinal) else Idle))
  }

  /** A step of the whole system: one thread moves, or time passes. */
  datatype Step = ThreadStep(t: nat, input: Input) | ClockStep(elapsed: nat)

  function Apply(c: Config, s: State, step: Step): Option<State> {
    match step
    case ThreadStep(t, i) => if t < |s.threads| then Do(c, s, t, i) else None
    case ClockStep(elapsed) => Some(s.(now := s.now + elapsed))
  }

  /** The state that a schedule leads to, or None when some step of it cannot be taken. */
  function Run(c: Config, s: State, steps: seq<Step>): Option<State>
    decreases |steps|
  {
    if steps == [] then Some(s)
    else
      match Apply(c, s, steps[0])
      case None => None
      case Some(s') => Run(c, s', steps[1..])
  }
}
