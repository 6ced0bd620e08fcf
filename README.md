# Sentry Ruby HTTP envelope transport — a Dafny model

This project models `Sentry::HTTPTransport`, the class of the Sentry Ruby client that
delivers a serialized envelope to the Sentry collector over HTTP
(`sentry-ruby/lib/sentry/transport/http_transport.rb`). Everything lives in
`http_transport.dfy`, module `Sentry`:

- **Configuration.** The pieces of the transport configuration the class reads become
  the `TransportConfiguration` datatype. `faraday_opts` is the method `FaradayOpts`, a loop
  over `:timeout` and `:open_timeout`. `ssl_configuration` is the function
  `SslConfiguration`, a hash merge. `set_conn` becomes `SetConn`, reduced to the settings it
  passes to Faraday.
- **The transport object.** `HttpTransport` is a class. The adapter, the connection
  settings, the endpoint, the configuration and the gzip codec are assigned once by the
  constructor, so they are `const` fields. `rateLimits`, the `@rate_limits` hash, is a
  `var` map that starts empty.
- **Sending.** `SendData` follows `send_data` step by step. `EncodeBody` makes the
  compression decision. `SendData` then fills in the request headers and the body,
  posts through the given executor, and builds the error text with `+=` on the error
  path. Every Faraday error becomes `Raised(ExternalError(msg))`. `Diagnostic` is the
  specification of `msg`, and the lemmas beside it state what the message reveals.
- **Rate limits.** `HandleSentryResponse` models `handle_sentry_response`. The source
  reaches a debugger breakpoint (`binding.pry`) there and never writes `@rate_limits`.
  The model drops the breakpoint and proves that the map is unchanged.
  `RescueAsWritten` keeps the breakpoint and shows what it does to the error path (see
  "## Findings").

Outside collaborators are parameters:
- `Zlib.gzip` is the `gzip` function given to the constructor, and nothing is assumed
  about it.
- `generate_auth_header` is the `authHeader` string given to `SendData`.
- The Faraday POST is the executor `post: Request -> PostOutcome`. It either completes
  with a response or raises a `Faraday::Error`, which may carry a response hash.
- `@dsn.server`, `@dsn.envelope_endpoint` and `Faraday.default_adapter` are values given
  to the constructor.

The model covers only what `http_transport.rb` does. That file reads the
`x-sentry-rate-limits` header (the header of Sentry's rate-limit protocol) twice: at
line 54 to classify the error, and at line 58 to decide whether to reach the breakpoint.
It parses no rate-limit groups and stores no expiry, and nothing in it checks
`@rate_limits` before a send. `attr_reader :rate_limits` is public, so any caller, the
`Transport` superclass included, can read the map; what they do with it is not part of
this model. No error comes back as a return value. Every Faraday error is raised as
`Sentry::ExternalError`, except the one case in "## Findings" where the breakpoint is
reached first and pry is not loaded.

## Model

| member | source | states |
|---|---|---|
| `Sentry.FaradayOpts` | sentry-ruby/lib/sentry/transport/http_transport.rb:83-87 | the options hash holds exactly those of `:timeout` and `:open_timeout` whose configured value is truthy (neither nil nor false), each mapped to that value |
| `Sentry.SslConfiguration` | sentry-ruby/lib/sentry/transport/http_transport.rb:89-94 | the keys are the configured ssl hash's keys (nil read as empty) plus `:verify` and `:ca_file`; `:verify` is the verification flag, `:ca_file` the CA file path or nil; every other key keeps its configured value |
| `Sentry.SslConfigurationIdempotent` | sentry-ruby/lib/sentry/transport/http_transport.rb:89-94 | feeding the merged ssl hash back in as the configured one yields the same hash |
| `Sentry.SslConfigurationIgnoresOverwrittenKeys` | sentry-ruby/lib/sentry/transport/http_transport.rb:89-94 | a nil ssl hash gives the same result as an empty one, and any `:verify`/`:ca_file` the user configured has no effect on the result |
| `Sentry.SetConn` | sentry-ruby/lib/sentry/transport/http_transport.rb:68-80 | the connection gets the DSN's server, the configured proxy, the merged ssl options and the Faraday options described by `FaradayOpts` |
| `Sentry.HasRateLimitedHeader` | sentry-ruby/lib/sentry/transport/http_transport.rb:53-55 | a response is rate limited if and only if it has a `retry-after` header or an `x-sentry-rate-limits` header |
| `Sentry.Diagnostic` | sentry-ruby/lib/sentry/transport/http_transport.rb:37-46 | the text `error_info` holds when line 48 raises; its contract says the original message always starts it, and the four `Diagnostic*` lemmas below fix it exactly in every branch (no response, rate limited, without and with `x-sentry-error`) |
| `Sentry.DiagnosticExtendsMessage` | sentry-ruby/lib/sentry/transport/http_transport.rb:36-48 | the raised message always starts with the original exception message, and equals it exactly when there is no response or the response is rate limited |
| `Sentry.DiagnosticRecoversBody` | sentry-ruby/lib/sentry/transport/http_transport.rb:42-43 | for a response without rate-limit headers, the message continues with `"\nbody: "` and then the response body, which can be read back from it |
| `Sentry.DiagnosticErrorHeaderIff` | sentry-ruby/lib/sentry/transport/http_transport.rb:42-44 | for a response without rate-limit headers, text follows the body if and only if `x-sentry-error` is present, and that text is `" Error in headers is: "` followed by the header's value |
| `Sentry.RateLimitedDiagnosticIgnoresResponse` | sentry-ruby/lib/sentry/transport/http_transport.rb:39-41 | a rate-limited response adds nothing to the message: any two such responses, or no response at all, give the same message |
| `Sentry.RescueAsWritten` | sentry-ruby/lib/sentry/transport/http_transport.rb:36-62 | as written, the rescue clause stops at the breakpoint exactly when the error has a response with an `x-sentry-rate-limits` header; in every other case it raises an `ExternalError` carrying `Diagnostic` of the error |
| `Sentry.RateLimitHeaderStopsAtBreakpoint` | sentry-ruby/lib/sentry/transport/http_transport.rb:57-62 | an error with message `"429"` whose response carries `x-sentry-rate-limits` reaches the breakpoint at line 59 instead of going straight to line 48 (a `NoMethodError` without pry, a blocking stop with it); the same error with only `retry-after` raises `Sentry::ExternalError` with the bare message |
| `Sentry.HttpTransport.constructor` | sentry-ruby/lib/sentry/transport/http_transport.rb:14-20 | the adapter is the configured one when it is truthy (neither nil nor false), else the default; the connection gets the DSN's server, the proxy, the merged ssl options, and exactly the truthy timeouts with their values; the endpoint is the DSN's envelope endpoint; the rate-limit map starts empty |
| `Sentry.HttpTransport.ShouldCompress` | sentry-ruby/lib/sentry/transport/http_transport.rb:64-66 | compression applies exactly when the configured encoding is `"gzip"` and the payload has at least 30 × 1024 bytes; `EncodeBody`'s first ensures ties the chosen encoding to this condition |
| `Sentry.HttpTransport.ShouldCompressMonotone` | sentry-ruby/lib/sentry/transport/http_transport.rb:64-66 | a payload at least as long as one that is compressed is compressed too |
| `Sentry.HttpTransport.EncodeBody` | sentry-ruby/lib/sentry/transport/http_transport.rb:22-28 | the encoding is `"gzip"` exactly when the configured encoding is `"gzip"` and the payload has at least 30 × 1024 bytes, and the body is then the gzip of the payload; otherwise the encoding is `""` and the body is the payload unchanged |
| `Sentry.HttpTransport.HandleSentryResponse` | sentry-ruby/lib/sentry/transport/http_transport.rb:57-62 | with the breakpoint removed, the rate-limit map is the same after handling any response |
| `Sentry.HttpTransport.SendData` | sentry-ruby/lib/sentry/transport/http_transport.rb:22-49 | the request goes to the endpoint, the headers `send_data` sets are exactly Content-Type `application/x-sentry-envelope`, the chosen Content-Encoding and the auth header, and the compressed or original body; with the breakpoint removed, the call raises if and only if the post raised a Faraday error, and the raised `ExternalError` carries `Diagnostic` of that error; the rate-limit map is unchanged |

## Findings

| source | as written | input that shows it | evidently intended | confidence | as-written member | corrected member |
|---|---|---|---|---|---|---|
| sentry-ruby/lib/sentry/transport/http_transport.rb:57-62 | `handle_sentry_response` evaluates `binding.pry` when the response has `x-sentry-rate-limits`. The file loads only `faraday` and `zlib`. Without pry this raises `NoMethodError` out of the rescue clause. With pry loaded, the call blocks in a debugger session and raises `Sentry::ExternalError` once the session ends. | a Faraday error whose response headers are `{"x-sentry-rate-limits" => "60:error:org_quota"}` | the rescue clause goes on to line 48 and raises `Sentry::ExternalError` with the original message | not executed; high when pry is not loaded (no `Sentry::ExternalError` is raised); when pry is loaded, the only divergence is the blocking stop | `Sentry.RescueAsWritten`, `Sentry.RateLimitHeaderStopsAtBreakpoint` | `Sentry.HttpTransport.SendData` |

## Left out

- The Faraday connection object is not modelled beyond the settings `SetConn` records. That covers the `faraday_builder` hook, the `raise_error` middleware, the user-agent header, binding the adapter, and connecting to the server. These are calls into a library whose code is not part of this model.
- The HTTP POST itself is not modelled. It is the executor parameter `post`, and exceptions other than `Faraday::Error` are not modelled.
- `Zlib.gzip` is not modelled. It is an arbitrary function, and no property of compressed bytes is claimed.
- `generate_auth_header`, the `Transport` superclass and the DSN object are not modelled. Their results are given to the model as opaque values.
- The logger call in `set_conn` is not modelled. It has no effect on the transport's state.
- SendData: models the rescue clause with the `binding.pry` breakpoint removed. As written, a Faraday error whose response has `x-sentry-rate-limits` reaches `binding.pry`. Without pry loaded, that raises `NoMethodError` instead of `Sentry::ExternalError`. With pry loaded, the call blocks in a debugger session and then raises `Sentry::ExternalError` as `SendData` does. `RescueAsWritten` models reaching the breakpoint.
- HandleSentryResponse: treats the `binding.pry` branch as doing nothing. As written, the branch raises `NoMethodError` when pry is not loaded, and blocks in a debugger session before returning when it is (see "## Findings").
- Header-name lookups are exact map-key lookups. Case-insensitive header handling inside Faraday is not modelled.
- A nil response body is modelled as the empty string. That is how Ruby's interpolation renders it.
- Configuration values are a closed `Value` type: nil, booleans, strings, numbers (as reals), arrays and opaque objects. Objects are known by identity alone, which is all the transport needs, since it only passes them on. `ssl_verification` is a boolean and `ssl_ca_file` a string or nil. The adapter is a `Value`, and the fallback to the default adapter follows Ruby's `||` (taken on nil and on false).
- No per-category rate limiter is modelled. The code parses no rate-limit header, stores no expiry and checks no limit before sending, and a model of one would invent behaviour.
- `sentry-rails/lib/sentry/rails/active_job.rb` is not modelled. It is instrumentation glue over Rails and Sentry scope APIs and has no self-contained logic.
- Concurrent callers sharing one transport are not modelled. The code has no synchronisation to model.
