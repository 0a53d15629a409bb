/**
 * The per-request decision of the rate limiter's HTTP middleware. The request
 * carries either an `API_KEY` header, which selects the TOKEN scope with the
 * rate configuration looked up for that token, or none, which selects the IP
 * scope with the IP rate configuration. The rate check is then run once, and its
 * `(block, err)` result is routed to exactly one of three outcomes: an error
 * response, a rate-limit response, or the next handler.
 *
 * The rate check and the per-token configuration lookup are collaborators whose
 * code is not part of this model; they are function parameters here.
 */
module Middleware {
  import opened Wrappers
  import opened Strconv

  /** A rate configuration: `RateLimiterRateConfig`. */
  datatype RateConfig = RateConfig(maxRequestsPerSecond: int64, blockTimeMilliseconds: int64)

  const ApiKeyHeader: string := "API_KEY"
  const ScopeToken: string := "TOKEN"
  const ScopeIP: string := "IP"

  /**
   * An incoming request: its header fields (each name with its values, in
   * order) and the host part of its remote address.
   */
  datatype Request = Request(header: map<string, seq<string>>, remoteHost: string)

  /** `Header.Get`: the first value of the field, or `""` when there is none. */
  function HeaderGet(header: map<string, seq<string>>, name: string): string
  {
    if name in header && header[name] != [] then header[name][0] else ""
  }

  /** The arguments the rate check is called with: key type, key, rate configuration. */
  datatype CheckCall = CheckCall(keyType: string, key: string, rateConfig: RateConfig)

  /** Instants, in milliseconds. */
  type Instant = int

  /** What the rate check returns: a block instant or nil, and an error or nil. */
  datatype CheckResult = CheckResult(block: Option<Instant>, err: Option<string>)

  /** The three ways a request ends. */
  datatype Outcome =
    | Error(err: string)   // `ResponseWriter.WriteError`
    | Blocked              // `ResponseWriter.WriteResponse`
    | Next                 // `next.ServeHTTP`

  /** What the handler does, in order: calls the rate check, then responds. */
  datatype Effect = Check(call: CheckCall) | Respond(outcome: Outcome)

  /** The per-token lookup `GetRateLimiterRateConfigForToken`: a configuration and whether it is custom. */
  type TokenLookup = string -> (RateConfig, bool)

  /** The rate check: a function of the call it is given. */
  type RateCheck = CheckCall -> CheckResult

  /** The token a request presents, `""` when it presents none. */
  function Token(req: Request): string
  {
    HeaderGet(req.header, ApiKeyHeader)
  }

  /**
   * Which limit applies to a request: a non-empty token selects the TOKEN scope,
   * keyed by the token, with the configuration the lookup gives for it (its
   * custom flag is ignored); otherwise the IP scope, keyed by the remote host,
   * with the IP configuration.
   */
  function SelectCheck(ipConfig: RateConfig, tokenConfigFor: TokenLookup, req: Request): (c: CheckCall)
    ensures c.keyType == ScopeToken <==> Token(req) != ""
    ensures c.keyType == ScopeIP <==> Token(req) == ""
    ensures c.keyType == ScopeToken ==> c.key == Token(req) && c.rateConfig == tokenConfigFor(c.key).0
    ensures c.keyType == ScopeIP ==> c.key == req.remoteHost && c.rateConfig == ipConfig
  {
    var token := Token(req);
    if token != "" then
      var (tokenConfig, _) := tokenConfigFor(token);
      CheckCall(ScopeToken, token, tokenConfig)
    else
      CheckCall(ScopeIP, req.remoteHost, ipConfig)
  }

  /**
   * How a check result is answered: an error wins over a block, a block stops
   * the request, and only a result with neither passes to the next handler.
   */
  function Route(res: CheckResult): (o: Outcome)
    ensures o.Error? <==> res.err.Some?
    ensures o.Error? ==> o.err == res.err.value
    ensures o.Blocked? <==> res.err.None? && res.block.Some?
    ensures o.Next? <==> res.err.None? && res.block.None?
  {
    if res.err.Some? then Error(res.err.value)
    else if res.block.Some? then Blocked
    else Next
  }

  /**
   * The handler `rateLimiter` installs: select the check, run it once, and
   * answer with the routed outcome.
   */
  function ServeHTTP(ipConfig: RateConfig, tokenConfigFor: TokenLookup, check: RateCheck, req: Request)
    : (effects: seq<Effect>)
    ensures |effects| == 2 && effects[0].Check? && effects[1].Respond?
    ensures effects[0].call == SelectCheck(ipConfig, tokenConfigFor, req)
    ensures effects[1].outcome == Route(check(effects[0].call))
  {
    var call := SelectCheck(ipConfig, tokenConfigFor, req);
    [Check(call), Respond(Route(check(call)))]
  }

  /** The number of times the effects call the rate check. */
  function CheckCount(effects: seq<Effect>): nat
  {
    if effects == [] then 0
    else (if effects[0].Check? then 1 else 0) + CheckCount(effects[1..])
  }

  /** The number of responses among the effects. */
  function ResponseCount(effects: seq<Effect>): nat
  {
    if effects == [] then 0
    else (if effects[0].Respond? then 1 else 0) + ResponseCount(effects[1..])
  }

  /**
   * Every request runs the rate check exactly once, before anything else, and
   * ends in exactly one outcome.
   */
  lemma {:induction false} CheckOnceThenOneOutcome(ipConfig: RateConfig, tokenConfigFor: TokenLookup, check: RateCheck, req: Request)
    ensures var effects := ServeHTTP(ipConfig, tokenConfigFor, check, req);
      && CheckCount(effects) == 1 && effects[0].Check?
      && ResponseCount(effects) == 1 && effects[|effects| - 1].Respond?
  {
    var effects := ServeHTTP(ipConfig, tokenConfigFor, check, req);
    assert effects[1..][1..] == [];
    assert CheckCount(effects[1..]) == CheckCount(effects[1..][1..]) == 0;
    assert ResponseCount(effects[1..]) == 1 + ResponseCount(effects[1..][1..]);
  }

  /** An error from the check yields the error response, even when a block is also returned. */
  lemma ErrorHasPriority(ipConfig: RateConfig, tokenConfigFor: TokenLookup, check: RateCheck, req: Request)
    requires check(SelectCheck(ipConfig, tokenConfigFor, req)).err.Some?
    ensures ServeHTTP(ipConfig, tokenConfigFor, check, req)[1]
         == Respond(Error(check(SelectCheck(ipConfig, tokenConfigFor, req)).err.value))
  {
  }

  /**
   * The lookup's contract: a token with a custom configuration gets that
   * configuration, flagged custom; any other token gets the Token configuration,
   * flagged not custom.
   */
  ghost predicate IsTokenLookup(tokenConfigFor: TokenLookup, tokenConfig: RateConfig, custom: map<string, RateConfig>)
  {
    forall token: string :: tokenConfigFor(token) == if token in custom then (custom[token], true) else (tokenConfig, false)
  }

  /**
   * Under the lookup's contract, a request presenting a token is checked in the
   * TOKEN scope with that token's custom configuration if it has one, and with
   * the Token configuration otherwise.
   */
  lemma TokenRequestUsesLookup(ipConfig: RateConfig, tokenConfigFor: TokenLookup, tokenConfig: RateConfig,
                               custom: map<string, RateConfig>, check: RateCheck, req: Request)
    requires IsTokenLookup(tokenConfigFor, tokenConfig, custom)
    requires Token(req) != ""
    ensures ServeHTTP(ipConfig, tokenConfigFor, check, req)[0]
         == Check(CheckCall(ScopeToken, Token(req), if Token(req) in custom then custom[Token(req)] else tokenConfig))
  {
    var token := Token(req);
    assert tokenConfigFor(token) == if token in custom then (custom[token], true) else (tokenConfig, false);
  }

  /**
   * The middleware ignores the lookup's custom flag: two lookups that agree on
   * the configurations give the same handling for every request.
   */
  lemma CustomFlagIgnored(ipConfig: RateConfig, lookupA: TokenLookup, lookupB: TokenLookup, check: RateCheck, req: Request)
    requires forall token: string :: lookupA(token).0 == lookupB(token).0
    ensures ServeHTTP(ipConfig, lookupA, check, req) == ServeHTTP(ipConfig, lookupB, check, req)
  {
    var token := Token(req);
    assert lookupA(token).0 == lookupB(token).0;
  }

  /**
   * A request presenting no token (no `API_KEY` field, a field with no value,
   * or an empty first value) is handled exactly as if it had no `API_KEY`
   * header at all: in the IP scope, keyed by its remote host.
   */
  lemma EmptyTokenIsNoToken(ipConfig: RateConfig, tokenConfigFor: TokenLookup, check: RateCheck, req: Request)
    requires Token(req) == ""
    ensures ServeHTTP(ipConfig, tokenConfigFor, check, req)
         == ServeHTTP(ipConfig, tokenConfigFor, check, Request(req.header - {ApiKeyHeader}, req.remoteHost))
    ensures ServeHTTP(ipConfig, tokenConfigFor, check, req)[0] == Check(CheckCall(ScopeIP, req.remoteHost, ipConfig))
  {
  }
}
