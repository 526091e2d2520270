/**
 The token store as one goroutine sees it when it runs alone: the methods of TokenStore, with
 HTTP outcomes and the time as parameters.  The values they compute are given by functions, which
 module TokenSolo ties to the interleaved protocol and module RefreshSchedule to the ticker.
 */
module TokenStores {
  import opened Prelude
  import opened TokenProtocol

  /** What the store holds. */
  datatype Stored = Stored(pair: TokenPair, tokens: map<string, TokenSet>)

  /** Outcomes of the three things a call may do outside the store; None is a failure. */
  datatype World = World(now: int, requestBuilt: bool, refresh: Option<RenkuResponse>, exchange: Option<TokenSet>)

  /** What getValidRenkuAccessToken does: the store it leaves, and the token unless it fails. */
  function ValidRenku(v: Stored, leeway: int, w: World): (Stored, Option<Token>) {
    if v.pair.access.claims.Unparseable? then (v, None)
    else if !IsJwtExpired(v.pair.access, w.now, leeway) then (v, Some(v.pair.access))
    else if w.refresh.None? then (v, None)
    else
      var v' := v.(pair := AcceptRenku(v.pair, w.refresh.value));
      (v', Some(v'.pair.access))
  }

  /** What refreshGitAccessToken does, and whether it succeeds. */
  function RefreshGit(v: Stored, provider: string, leeway: int, w: World): (Stored, bool) {
    if !w.requestBuilt then (v, false)
    else
      var (v', token) := ValidRenku(v, leeway, w);
      if token.None? || w.exchange.None? then (v', false)
      else (v'.(tokens := v'.tokens[provider := w.exchange.value]), true)
  }

  /** What GetGitAccessToken does and returns, without the encoding. */
  function GetGit(v: Stored, provider: string, leeway: int, w: World): (Stored, Option<string>) {
    var (v', ok) :=
      if NeedsExchange(Lookup(v.tokens, provider), w.now, leeway) then RefreshGit(v, provider, leeway, w)
      else (v, true);
    (v', if !ok then None else if provider in v'.tokens then Some(v'.tokens[provider].accessToken) else Some(""))
  }

  /** A tick: the outcome of its refresh if it makes one, and what requests bring before the next tick. */
  datatype TickInput = TickInput(own: Option<RenkuResponse>, others: seq<RenkuResponse>)

  /**
   What a tick finds and does: the refresh token it checks, and whether that token is replaced before
   the next tick.
   */
  datatype TickRecord = TickRecord(at: int, token: Token, attempted: bool, replacedByTick: bool, replacedByOthers: bool)

  function AcceptAll(pair: TokenPair, responses: seq<RenkuResponse>): TokenPair {
    if responses == [] then pair
    else AcceptRenku(AcceptAll(pair, responses[..|responses| - 1]), responses[|responses| - 1])
  }

  predicate BringsRefresh(responses: seq<RenkuResponse>) {
    exists k | 0 <= k < |responses| :: responses[k].refresh.text != ""
  }

  function TickAt(pair: TokenPair, at: int, leeway: int, i: TickInput): TickRecord {
    var attempted := IsJwtExpired(pair.refresh, at, leeway);
    TickRecord(at, pair.refresh, attempted,
               attempted && i.own.Some? && i.own.value.refresh.text != "", BringsRefresh(i.others))
  }

  function PairAfterTick(pair: TokenPair, at: int, leeway: int, i: TickInput): TokenPair {
    var own := if IsJwtExpired(pair.refresh, at, leeway) && i.own.Some? then AcceptRenku(pair, i.own.value) else pair;
    AcceptAll(own, i.others)
  }

  /** The pair after a number of ticks that are a period apart, the first of them at time start. */
  function PairAfter(pair: TokenPair, start: int, period: int, leeway: int, inputs: seq<TickInput>): TokenPair {
    if inputs == [] then pair
    else
      var n := |inputs| - 1;
      PairAfterTick(PairAfter(pair, start, period, leeway, inputs[..n]), start + n * period, leeway, inputs[n])
  }

  function Ticks(pair: TokenPair, start: int, period: int, leeway: int, inputs: seq<TickInput>)
    : (records: seq<TickRecord>)
    ensures |records| == |inputs|
  {
    if inputs == [] then []
    else
      var n := |inputs| - 1;
      Ticks(pair, start, period, leeway, inputs[..n])
      + [TickAt(PairAfter(pair, start, period, leeway, inputs[..n]), start + n * period, leeway, inputs[n])]
  }

  class TokenStore {
    const leeway: int
    var renkuAccessToken: Token
    var renkuRefreshToken: Token
    var gitAccessTokens: map<string, TokenSet>

    ghost function Pair(): TokenPair
      reads this
    {
      TokenPair(renkuAccessToken, renkuRefreshToken)
    }

    ghost function Value(): Stored
      reads this
    {
      Stored(Pair(), gitAccessTokens)
    }

    /** The stored access token is good, or can be refreshed. */
    ghost predicate Usable(w: World)
      reads this
    {
      match renkuAccessToken.claims
      case Unparseable => false
      case NoExpiry => true
      case Expires(at) => w.now + leeway < at || w.refresh.Some?
    }

    constructor (initial: TokenPair, leeway: int)
      ensures this.leeway == leeway && Value() == Stored(initial, map[])
    {
      this.leeway := leeway;
      renkuAccessToken := initial.access;
      renkuRefreshToken := initial.refresh;
      gitAccessTokens := map[];
    }

    /** Sends the stored refresh token; stores what comes back. */
    method RefreshRenkuAccessToken(outcome: Option<RenkuResponse>) returns (ok: bool, carried: Token)
      modifies this`renkuAccessToken, this`renkuRefreshToken
      ensures carried == old(renkuRefreshToken) && ok == outcome.Some?
      ensures Pair() == if ok then AcceptRenku(old(Pair()), outcome.value) else old(Pair())
      ensures renkuAccessToken == if outcome.Some? then outcome.value.access else old(renkuAccessToken)
      ensures renkuRefreshToken == if outcome.Some? && outcome.value.refresh.text != "" then outcome.value.refresh
                                   else old(renkuRefreshToken)
    {
      carried := renkuRefreshToken;
      if outcome.None? {
        return false, carried;
      }
      renkuAccessToken := outcome.value.access;
      if outcome.value.refresh.text != "" {
        renkuRefreshToken := outcome.value.refresh;
      }
      ok := true;
    }

    method GetValidRenkuAccessToken(w: World) returns (token: Option<Token>)
      modifies this`renkuAccessToken, this`renkuRefreshToken
      ensures (Value(), token) == old(ValidRenku(Value(), leeway, w))
      ensures var access := old(renkuAccessToken);
        match access.claims
        case Unparseable => token.None? && Pair() == old(Pair())
        case NoExpiry => token == Some(access) && Pair() == old(Pair())
        case Expires(at) =>
          if w.now + leeway < at then token == Some(access) && Pair() == old(Pair())
          else if w.refresh.None? then token.None? && Pair() == old(Pair())
          else token == Some(w.refresh.value.access) && renkuAccessToken == w.refresh.value.access
    {
      if renkuAccessToken.claims.Unparseable? {
        return None;
      }
      if IsJwtExpired(renkuAccessToken, w.now, leeway) {
        var ok, _ := RefreshRenkuAccessToken(w.refresh);
        if !ok {
          return None;
        }
      }
      token := Some(renkuAccessToken);
    }

    method RefreshGitAccessToken(provider: string, w: World) returns (ok: bool)
      modifies this
      ensures (Value(), ok) == old(RefreshGit(Value(), provider, leeway, w))
      ensures ok <==> w.requestBuilt && w.exchange.Some? && old(Usable(w))
      ensures gitAccessTokens == if ok then old(gitAccessTokens)[provider := w.exchange.value] else old(gitAccessTokens)
      ensures !w.requestBuilt ==> Pair() == old(Pair())
    {
      if !w.requestBuilt {
        return false;
      }
      var token := GetValidRenkuAccessToken(w);
      if token.None? || w.exchange.None? {
        return false;
      }
      gitAccessTokens := gitAccessTokens[provider := w.exchange.value];
      ok := true;
    }

    method GetGitAccessToken(provider: string, w: World) returns (token: Option<string>)
      modifies this
      ensures (Value(), token) == old(GetGit(Value(), provider, leeway, w))
      ensures var tokens := old(gitAccessTokens);
        if provider in tokens && !(0 < tokens[provider].expiresAt < (w.now + leeway) / 1_000_000_000) then
          token == Some(tokens[provider].accessToken) && gitAccessTokens == tokens && Pair() == old(Pair())
        else if w.requestBuilt && w.exchange.Some? && old(Usable(w)) then
          token == Some(w.exchange.value.accessToken) && gitAccessTokens == tokens[provider := w.exchange.value]
        else token.None? && gitAccessTokens == tokens
    {
      var seen := Lookup(gitAccessTokens, provider);
      if NeedsExchange(seen, w.now, leeway) {
        var ok := RefreshGitAccessToken(provider, w);
        if !ok {
          return None;
        }
      }
      token := if provider in gitAccessTokens then Some(gitAccessTokens[provider].accessToken) else Some("");
    }

    /** The responses that request threads get accepted between two ticks. */
    method Interfere(responses: seq<RenkuResponse>)
      modifies this`renkuAccessToken, this`renkuRefreshToken
      ensures Pair() == AcceptAll(old(Pair()), responses)
    {
      for k := 0 to |responses|
        invariant Pair() == AcceptAll(old(Pair()), responses[..k])
      {
        assert responses[..k + 1][..k] == responses[..k];
        var _, _ := RefreshRenkuAccessToken(Some(responses[k]));
      }
      assert responses[..|responses|] == responses;
    }

    /** The ticker's loop, for as many ticks as there are inputs. */
    method PeriodicTokenRefresh(start: int, period: int, inputs: seq<TickInput>) returns (records: seq<TickRecord>)
      modifies this`renkuAccessToken, this`renkuRefreshToken
      ensures records == Ticks(old(Pair()), start, period, leeway, inputs)
      ensures Pair() == PairAfter(old(Pair()), start, period, leeway, inputs)
      ensures forall k | 0 <= k < |records| ::
        && records[k].at == start + k * period
        && (records[k].attempted <==>
              records[k].token.claims.Unparseable?
              || (records[k].token.claims.Expires? && records[k].token.claims.at <= records[k].at + leeway))
    {
      records := [];
      var at := start;
      for k := 0 to |inputs|
        invariant at == start + k * period
        invariant records == Ticks(old(Pair()), start, period, leeway, inputs[..k])
        invariant Pair() == PairAfter(old(Pair()), start, period, leeway, inputs[..k])
        invariant |records| == k && forall j | 0 <= j < k ::
          && records[j].at == start + j * period
          && (records[j].attempted <==>
                records[j].token.claims.Unparseable?
                || (records[j].token.claims.Expires? && records[j].token.claims.at <= records[j].at + leeway))
      {
        assert inputs[..k + 1][..k] == inputs[..k];
        var renkuRefreshToken := this.renkuRefreshToken;
        var expired := IsJwtExpired(renkuRefreshToken, at, leeway);
        var i := inputs[k];
        var replaced := expired && i.own.Some? && i.own.value.refresh.text != "";
        records := records + [TickRecord(at, renkuRefreshToken, expired, replaced, BringsRefresh(i.others))];
        if expired {
          var _, _ := RefreshRenkuAccessToken(i.own);
        }
        Interfere(i.others);
        at := at + period;
      }
      assert inputs[..|inputs|] == inputs;
    }
  }
}
