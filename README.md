# Rate limiter: environment accessors and admission dispatch

A Dafny model of two pieces of a Go HTTP rate-limiting middleware.

- **Typed environment accessors** (`ratelimiter/utils.go`). `getStringEnv`,
  `getBoolEnv` and `getInt64Env` read an optional environment variable and
  return a `(value, ok)` pair. An unset variable, an empty one and one that does
  not parse all give `(zero, false)`, so absence can be told apart from a real
  zero. The process environment is a `map<string, string>`, so `os.LookupEnv` is
  a map lookup. The accessors depend on Go's `strconv.ParseInt(s, 10, 64)` and
  `strconv.ParseBool`. Both are modelled in `strconv.dfy`: the base-10 digit
  loop with its 64-bit overflow check, the signed int64 range check, and the
  twelve boolean spellings.
- **Admission dispatch** (`ratelimiter/middleware.go`, the handler `rateLimiter`
  installs). A non-empty `API_KEY` header selects the TOKEN scope. That scope is
  keyed by the token and uses the rate configuration the per-token lookup gives.
  Otherwise the IP scope is selected, keyed by the remote host and using the IP
  configuration. The rate check runs once. Its `(block, err)` result is then
  routed to exactly one outcome. An error gives the error response, even when a
  block is also returned. A block with no error gives the rate-limit response.
  Only a result with neither passes the request on to the next handler. The
  rate check and the per-token lookup are function parameters. The handler
  returns the sequence of effects it performs: one check call, then one
  response.

Files: `wrappers.dfy` (Option, Result), `strconv.dfy` (module `Strconv`),
`env.dfy` (module `Env`) and `middleware.dfy` (module `Middleware`).

## Model

| member | source | states |
|---|---|---|
| `Strconv.ScanDigitsMeaning` | ratelimiter/utils.go:70 | The base-10 digit loop behind `ParseInt` reads left to right. It gives a range error exactly when the leading digits exceed 2^64 - 1. Otherwise it gives a syntax error exactly when a non-digit follows them. Otherwise it gives the number the digits denote. |
| `Strconv.ParseUintMeaning` | ratelimiter/utils.go:70 | The unsigned parse accepts exactly the non-empty all-digit strings whose value is at most 2^64 - 1, and returns that value. It reports a range error exactly when the leading digits overflow 64 bits. |
| `Strconv.ParseIntMeaning` | ratelimiter/utils.go:70 | `ParseInt(s, 10, 64)` accepts exactly an optional sign followed by at least one digit, with a value inside int64, and returns that value. It reports a range error exactly when the value is outside int64 or the leading digit run overflows 64 bits. |
| `Strconv.FormatUintDigits` | ratelimiter/utils.go:70 | The decimal rendering of a natural number is a non-empty digit string that denotes that number, with no leading zero. |
| `Strconv.ParseFormatInt` | ratelimiter/utils.go:70 | Round trip: the decimal rendering of an int64 parses back to that int64. The rendering of any integer outside int64 is a range error. |
| `Strconv.ParseBool` | ratelimiter/utils.go:55 | `ParseBool` accepts exactly "1", "t", "T", "TRUE", "true", "True" as true and "0", "f", "F", "FALSE", "false", "False" as false. Every other string is a syntax error. |
| `Strconv.ParseFormatBool` | ratelimiter/utils.go:55 | Round trip: "true" parses to true and "false" parses to false. |
| `Env.GetStringEnv` | ratelimiter/utils.go:36-45 | ok holds exactly when the variable is set to a non-empty value, and then that value is returned unchanged. ok holds exactly when the returned value is non-empty, so absence and the empty string both read as `("", false)`. |
| `Env.GetBoolEnv` | ratelimiter/utils.go:47-60 | ok holds exactly when the variable is set to one of the twelve boolean spellings. The value is then true exactly for a true spelling. Whenever ok is false the value is false. |
| `Env.GetInt64Env` | ratelimiter/utils.go:62-75 | ok holds exactly when the variable is set to an optionally signed decimal whose value is an int64, and the value is then that int64. Whenever ok is false the value is 0 (unset, empty, non-numeric or out of range). |
| `Env.TypedAccessorsParseStringAccessor` | ratelimiter/utils.go:36-75 | The bool and int64 accessors equal the string accessor followed by the parse. Their own empty-string test is already implied by the parser's rejection of "". |
| `Env.GetInt64EnvRoundTrip` | ratelimiter/utils.go:62-75 | For every int64 n, a variable set to the decimal rendering of n reads back as `(n, true)`. |
| `Env.GetInt64EnvOutOfRange` | ratelimiter/utils.go:70-73 | A variable set to the decimal rendering of an integer outside int64 reads as `(0, false)`. |
| `Env.GetBoolEnvRoundTrip` | ratelimiter/utils.go:55-59 | A variable set to "true" or "false" reads back as that boolean with ok. |
| `Env.StringAccessorExamples` | ratelimiter/utils_test.go:98-117 | A set, an unset and an empty variable give `("ENV_VALUE", true)`, `("", false)` and `("", false)`. |
| `Env.BoolAccessorExamples` | ratelimiter/utils_test.go:119-152 | "true" and "false" give `(true, true)` and `(false, true)`. An unset variable, "" and "NOT_A_BOOL" give `(false, false)`. |
| `Env.Int64AccessorExamples` | ratelimiter/utils_test.go:154-180 | "567" gives `(567, true)`. An unset variable, "" and "NOT_A_INT64" give `(0, false)`. |
| `Middleware.SelectCheck` | ratelimiter/middleware.go:28-35 | The scope is TOKEN exactly when the token is non-empty, and IP exactly when it is empty. TOKEN is keyed by the token with the lookup's configuration, ignoring the custom flag. IP is keyed by the remote host with the IP configuration. |
| `Middleware.Route` | ratelimiter/middleware.go:37-47 | The outcome is an error exactly when the check returned an error, and it carries that error. The outcome is blocked exactly when there is no error but a block. The request passes to the next handler exactly when there is neither. |
| `Middleware.ServeHTTP` | ratelimiter/middleware.go:24-48 | The handler performs two effects. First it calls the check with the selected arguments. Then it sends the response that routing gives for that one call's result. |
| `Middleware.CheckOnceThenOneOutcome` | ratelimiter/middleware.go:28-47 | Every request calls the rate check exactly once, and does so first. Every request ends in exactly one response. |
| `Middleware.ErrorHasPriority` | ratelimiter/middleware.go:37-40 | When the check returns an error, the response is the error outcome with that error, whatever the block value. |
| `Middleware.TokenRequestUsesLookup` | ratelimiter/middleware.go:29-31 | Assume the lookup meets its contract: a configured token gets its own configuration flagged custom, and any other token gets the Token configuration flagged not custom. Then a token request is checked in the TOKEN scope with the custom configuration if one exists, and with the Token configuration otherwise. |
| `Middleware.CustomFlagIgnored` | ratelimiter/middleware.go:30 | Two lookups that agree on configurations but differ on the custom flag give the same handling for every request. |
| `Middleware.EmptyTokenIsNoToken` | ratelimiter/middleware.go:28-34 | A request whose `API_KEY` field is missing, has no value or has an empty first value is handled exactly like one without the header: in the IP scope, keyed by the remote host, with the IP configuration. |

## Left out

- `DebugPrintf` and `DebugPrintfWithoutKey` (ratelimiter/utils.go:10-30): they write to standard output and format the wall clock.
- `GetRemainingBlockTime` (ratelimiter/utils.go:32-34): floating-point seconds until a wall-clock instant.
- `net.SplitHostPort` on the remote address (ratelimiter/middleware.go:33): its error is discarded, so the host is an input of the request. On a malformed address it is whatever `SplitHostPort` returns.
- Middleware.HeaderGet: stands in for net/http's `Header.Get` (first value of a field, "" when there is none) and does not model its header-name canonicalisation; fields are keyed by the name as given.
- The request context and the whole configuration that `rateLimiter` also passes to the check: the check is a function of the key type, key and rate configuration only.
- The response writer's bodies and status codes (429 and 500) and `next.ServeHTTP` itself. They are outcome values here.
- `NewRateLimiter` and `NewRateLimiterWithConfig` (ratelimiter/middleware.go:12-21): closure wiring into `http.Handler`.
- Configuration resolution (`setConfiguration`), the per-token lookup `GetRateLimiterRateConfigForToken`, the fixed-window admission algorithm `checkRateLimit` and the storage adapters are not part of this model: they live in other files of the package (configuration and storage) and are outside the scope of this model, which covers the environment accessors and the per-request dispatch. The lookup appears only through its contract (`Middleware.IsTokenLookup`), and the check only as a parameter.
- Go's `ParseInt` also returns a clamped value together with a range error. The accessors discard that value, so the model returns only the error.
- Process startup and routing (cmd/server/main.go).
