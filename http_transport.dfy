/** A model of the envelope transport of the Sentry Ruby client
    (sentry-ruby/lib/sentry/transport/http_transport.rb).

    The transport decides whether to gzip an envelope, shapes the POST
    request, and turns every Faraday error into a Sentry::ExternalError whose
    message depends on the response that came with the error. The network
    call, the gzip codec and the auth header are collaborators the model does
    not see: they are passed in as values (the `gzip` function, the
    `authHeader` string and the `post` executor).
 */
module Sentry {

  datatype Option<T> = None | Some(value: T)

  /** A byte of the envelope payload (a Ruby binary String). */
  newtype byte = x: int | 0 <= x < 256

  const GzipEncoding: string := "gzip"
  const GzipThreshold: nat := 1024 * 30
  const ContentType: string := "application/x-sentry-envelope"
  const RetryAfterHeader: string := "retry-after"
  const RateLimitHeader: string := "x-sentry-rate-limits"
  const SentryErrorHeader: string := "x-sentry-error"

  const ContentTypeField: string := "Content-Type"
  const ContentEncodingField: string := "Content-Encoding"
  const AuthField: string := "X-Sentry-Auth"

  /** The fixed texts that the error path appends to the exception message. */
  const BodyNote: string := "\nbody: "
  const ErrorHeaderNote: string := " Error in headers is: "

  // ---------------------------------------------------------------------
  // Configuration
  // ---------------------------------------------------------------------

  /** A key of a Ruby options hash: a symbol such as `:verify`, or a string. */
  datatype Key = Sym(name: string) | Str(text: string)

  /** A Ruby value held in the configuration: nil, a boolean, a string, a
      number (Integer or Float), an array (an adapter name with its
      arguments, say) or any other object (a certificate, say), which the
      transport only passes on and so is known by identity alone. */
  datatype Value =
    | Nil | Flag(b: bool) | Text(s: string) | Number(r: real)
    | Array(items: seq<Value>) | Object(id: nat)

  /** Ruby truthiness: everything but nil and false. */
  predicate Truthy(v: Value)
  {
    v != Nil && v != Flag(false)
  }

  const VerifyKey: Key := Sym("verify")
  const CaFileKey: Key := Sym("ca_file")

  /** The two connection options that `faraday_opts` copies, in its order. */
  datatype FaradayOption = Timeout | OpenTimeout

  const FaradayOptionNames: seq<FaradayOption> := [Timeout, OpenTimeout]

  /** The fields of the transport configuration that the transport reads.
      A `None` (or `Nil` for a `Value`) stands for Ruby's nil. */
  datatype TransportConfiguration = TransportConfiguration(
    httpAdapter: Value,
    encoding: string,
    timeout: Value,
    openTimeout: Value,
    ssl: Option<map<Key, Value>>,
    sslVerification: bool,
    sslCaFile: Option<string>,
    proxy: Option<string>)

  /** The two values the transport takes from the parsed DSN. */
  datatype Dsn = Dsn(server: string, envelopeEndpoint: string)

  /** The settings `set_conn` hands to `Faraday.new` and to the builder's options. */
  datatype Connection = Connection(
    server: string,
    ssl: map<Key, Value>,
    proxy: Option<string>,
    options: map<FaradayOption, Value>)

  /** `@transport_configuration.public_send(opt)`. */
  function ConfiguredValue(config: TransportConfiguration, opt: FaradayOption): Value
  {
    match opt
    case Timeout => config.timeout
    case OpenTimeout => config.openTimeout
  }

  /** `@transport_configuration.ssl || {}`. */
  function ConfiguredSsl(config: TransportConfiguration): map<Key, Value>
  {
    match config.ssl
    case None => map[]
    case Some(m) => m
  }

  /** `faraday_opts`: fills a hash with each of `:timeout` and `:open_timeout`
      whose configured value is truthy. */
  method FaradayOpts(config: TransportConfiguration) returns (opts: map<FaradayOption, Value>)
    ensures forall opt :: opt in opts <==> Truthy(ConfiguredValue(config, opt))
    ensures forall opt :: opt in opts ==> opts[opt] == ConfiguredValue(config, opt)
  {
    opts := map[];
    for i := 0 to |FaradayOptionNames|
      invariant forall opt :: opt in opts <==> opt in FaradayOptionNames[..i] && Truthy(ConfiguredValue(config, opt))
      invariant forall opt :: opt in opts ==> opts[opt] == ConfiguredValue(config, opt)
    {
      var opt := FaradayOptionNames[i];
      var value := ConfiguredValue(config, opt);
      if Truthy(value) {
        opts := opts[opt := value];
      }
    }
    assert FaradayOptionNames[..|FaradayOptionNames|] == [Timeout, OpenTimeout];
  }

  /** `ssl_configuration`: the configured ssl hash (nil read as empty) with
      `:verify` and `:ca_file` overwritten from the verification settings. */
  function SslConfiguration(config: TransportConfiguration): (ssl: map<Key, Value>)
    ensures ssl.Keys == ConfiguredSsl(config).Keys + {VerifyKey, CaFileKey}
    ensures ssl[VerifyKey] == Flag(config.sslVerification)
    ensures ssl[CaFileKey] == (if config.sslCaFile.Some? then Text(config.sslCaFile.value) else Nil)
    ensures forall k :: k in ConfiguredSsl(config) && k != VerifyKey && k != CaFileKey ==>
      ssl[k] == ConfiguredSsl(config)[k]
  {
    var caFile := match config.sslCaFile case None => Nil case Some(path) => Text(path);
    ConfiguredSsl(config) + map[VerifyKey := Flag(config.sslVerification), CaFileKey := caFile]
  }

  /** Merging the result back in as the configured ssl hash changes nothing. */
  lemma SslConfigurationIdempotent(config: TransportConfiguration)
    ensures SslConfiguration(config.(ssl := Some(SslConfiguration(config)))) == SslConfiguration(config)
  {
  }

  /** A nil ssl hash behaves exactly like an empty one, and the user's values
      for `:verify` and `:ca_file` never survive the merge. */
  lemma SslConfigurationIgnoresOverwrittenKeys(config: TransportConfiguration, m: map<Key, Value>)
    ensures SslConfiguration(config.(ssl := None)) == SslConfiguration(config.(ssl := Some(map[])))
    ensures SslConfiguration(config.(ssl := Some(m))) == SslConfiguration(config.(ssl := Some(m - {VerifyKey, CaFileKey})))
  {
  }

  /** `set_conn`, reduced to the settings it passes on: the DSN's server, the
      ssl options, the proxy and the Faraday options. */
  method SetConn(config: TransportConfiguration, server: string) returns (conn: Connection)
    ensures conn.server == server && conn.proxy == config.proxy
    ensures conn.ssl == SslConfiguration(config)
    ensures forall opt :: opt in conn.options <==> Truthy(ConfiguredValue(config, opt))
    ensures forall opt :: opt in conn.options ==> conn.options[opt] == ConfiguredValue(config, opt)
  {
    var options := FaradayOpts(config);
    conn := Connection(server, SslConfiguration(config), config.proxy, options);
  }

  // ---------------------------------------------------------------------
  // Requests, responses and outcomes
  // ---------------------------------------------------------------------

  /** The POST that `send_data` builds: endpoint, headers and body. */
  datatype Request = Request(endpoint: string, headers: map<string, string>, body: seq<byte>)

  /** The response hash attached to a Faraday error (`:headers`, `:body`).
      A nil body is written as the empty string, which is how Ruby
      interpolates it. */
  datatype Response = Response(headers: map<string, string>, body: string)

  /** A `Faraday::Error`: its message and, when there was one, the response. */
  datatype FaradayError = FaradayError(message: string, response: Option<Response>)

  /** What the executor does with one request: it returns a response, or it
      raises a Faraday error. */
  datatype PostOutcome = Completed(response: Response) | Failed(error: FaradayError)

  /** `Sentry::ExternalError` with its message. */
  datatype ExternalError = ExternalError(message: string)

  /** How `send_data` ends: it returns the response, or it raises. */
  datatype SendResult = Returned(response: Response) | Raised(error: ExternalError)

  /** `response.dig(:headers, name)`. */
  function Dig(response: Response, name: string): Option<string>
  {
    if name in response.headers then Some(response.headers[name]) else None
  }

  /** `has_rate_limited_header?`: the response carries a `retry-after` or an
      `x-sentry-rate-limits` header. */
  predicate HasRateLimitedHeader(response: Response)
    ensures HasRateLimitedHeader(response) <==>
      RetryAfterHeader in response.headers || RateLimitHeader in response.headers
  {
    Dig(response, RetryAfterHeader).Some? || Dig(response, RateLimitHeader).Some?
  }

  /** The message of the `Sentry::ExternalError` raised for a Faraday error:
      the original message, followed by the response body and the
      `x-sentry-error` header when the response is not rate limited. */
  function Diagnostic(e: FaradayError): (d: string)
    ensures e.message <= d
  {
    match e.response
    case None => e.message
    case Some(r) =>
      if HasRateLimitedHeader(r) then e.message
      else
        var headerNote := if SentryErrorHeader in r.headers then ErrorHeaderNote + r.headers[SentryErrorHeader] else "";
        e.message + BodyNote + r.body + headerNote
  }

  /** The original message always starts the diagnostic, and the diagnostic
      is the bare message exactly when there is no response or the response
      is rate limited. */
  lemma DiagnosticExtendsMessage(e: FaradayError)
    ensures e.message <= Diagnostic(e)
    ensures Diagnostic(e) == e.message <==> e.response.None? || HasRateLimitedHeader(e.response.value)
  {
  }

  /** For a response without rate-limit headers, the body can be read back
      from the diagnostic: it follows the message and the body note. */
  lemma DiagnosticRecoversBody(e: FaradayError)
    requires e.response.Some? && !HasRateLimitedHeader(e.response.value)
    ensures var d, n := Diagnostic(e), |e.message|;
      |d| >= n + |BodyNote| + |e.response.value.body| &&
      d[n..n + |BodyNote|] == BodyNote &&
      d[n + |BodyNote|..n + |BodyNote| + |e.response.value.body|] == e.response.value.body
  {
  }

  /** For a response without rate-limit headers, text follows the body if and
      only if an `x-sentry-error` header is present, and that text is the
      header note followed by the header's value. */
  lemma DiagnosticErrorHeaderIff(e: FaradayError)
    requires e.response.Some? && !HasRateLimitedHeader(e.response.value)
    ensures var d, r := Diagnostic(e), e.response.value;
      var n := |e.message| + |BodyNote| + |r.body|;
      |d| >= n &&
      (|d| > n <==> SentryErrorHeader in r.headers) &&
      (SentryErrorHeader in r.headers ==> d[n..] == ErrorHeaderNote + r.headers[SentryErrorHeader])
  {
  }

  /** A rate-limited response contributes nothing to the diagnostic: neither
      its body nor its headers leak into the message. */
  lemma RateLimitedDiagnosticIgnoresResponse(message: string, r1: Response, r2: Response)
    requires HasRateLimitedHeader(r1) && HasRateLimitedHeader(r2)
    ensures Diagnostic(FaradayError(message, Some(r1))) == Diagnostic(FaradayError(message, Some(r2)))
    ensures Diagnostic(FaradayError(message, Some(r1))) == Diagnostic(FaradayError(message, None))
  {
  }

  /** How the rescue clause of `send_data` ends when the source is taken as
      written. `handle_sentry_response` evaluates `binding.pry` whenever the
      response has an `x-sentry-rate-limits` header, and `StoppedAtBreakpoint`
      stands for reaching it. Without pry loaded, that raises `NoMethodError`
      out of the rescue clause, and no `Sentry::ExternalError` is raised. With
      pry loaded, the call blocks in a debugger session; once the session
      ends, the call goes on to raise `Sentry::ExternalError` with the bare
      message, as `SendData` does. */
  datatype RescueEnd = RaisedExternal(error: ExternalError) | StoppedAtBreakpoint

  /** The rescue clause of `send_data` as written, breakpoint included. */
  function RescueAsWritten(e: FaradayError): (r: RescueEnd)
    ensures r.StoppedAtBreakpoint? <==> e.response.Some? && RateLimitHeader in e.response.value.headers
    ensures r.RaisedExternal? ==> r.error == ExternalError(Diagnostic(e))
  {
    match e.response
    case None => RaisedExternal(ExternalError(Diagnostic(e)))
    case Some(response) =>
      if HasRateLimitedHeader(response) && Dig(response, RateLimitHeader).Some? then StoppedAtBreakpoint
      else RaisedExternal(ExternalError(Diagnostic(e)))
  }

  /** The input that shows the breakpoint: an error with message `"429"`
      whose response carries `x-sentry-rate-limits` reaches the breakpoint
      instead of going straight to `raise Sentry::ExternalError` (a
      `NoMethodError` without pry, a blocking stop with it), while the same
      error with only `retry-after` raises with the bare message. */
  lemma RateLimitHeaderStopsAtBreakpoint()
    ensures RescueAsWritten(FaradayError("429", Some(Response(map[RateLimitHeader := "60:error:org_quota"], "")))) == StoppedAtBreakpoint
    ensures RescueAsWritten(FaradayError("429", Some(Response(map[RetryAfterHeader := "60"], "")))) == RaisedExternal(ExternalError("429"))
  {
  }

  // ---------------------------------------------------------------------
  // The transport
  // ---------------------------------------------------------------------

  /** `Sentry::HTTPTransport`. Everything but the rate-limit map is set once
      by the constructor; the executor that performs the POST is supplied per
      call. */
  class HttpTransport {
    const config: TransportConfiguration
    /** `Zlib.gzip`, a codec the model does not look into. */
    const gzip: seq<byte> -> seq<byte>
    const adapter: Value
    const conn: Connection
    const endpoint: string
    /** `@rate_limits`: created empty; no code of the transport writes it. */
    var rateLimits: map<string, int>

    /** `initialize`: picks the adapter, builds the connection settings,
        takes the endpoint from the DSN and starts with no rate limits. */
    constructor (config: TransportConfiguration, dsn: Dsn, defaultAdapter: Value, gzip: seq<byte> -> seq<byte>)
      ensures this.config == config && this.gzip == gzip
      ensures adapter == (if Truthy(config.httpAdapter) then config.httpAdapter else defaultAdapter)
      ensures conn.server == dsn.server && conn.proxy == config.proxy
      ensures conn.ssl == SslConfiguration(config)
      ensures forall opt :: opt in conn.options <==> Truthy(ConfiguredValue(config, opt))
      ensures forall opt :: opt in conn.options ==> conn.options[opt] == ConfiguredValue(config, opt)
      ensures endpoint == dsn.envelopeEndpoint
      ensures rateLimits == map[]
    {
      this.config := config;
      this.gzip := gzip;
      adapter := if Truthy(config.httpAdapter) then config.httpAdapter else defaultAdapter;
      var settings := SetConn(config, dsn.server);
      conn := settings;
      endpoint := dsn.envelopeEndpoint;
      rateLimits := map[];
    }

    /** `should_compress?`. */
    predicate ShouldCompress(data: seq<byte>)
      ensures ShouldCompress(data) <==> config.encoding == "gzip" && |data| >= 30 * 1024
    {
      config.encoding == GzipEncoding && |data| >= GzipThreshold
    }

    /** Compression is a threshold: a payload at least as long as one that
        is compressed is compressed too. */
    lemma ShouldCompressMonotone(small: seq<byte>, large: seq<byte>)
      requires ShouldCompress(small) && |small| <= |large|
      ensures ShouldCompress(large)
    {
    }

    /** The first lines of `send_data`: gzip the payload and set the encoding
        when compression applies, keep both as they are otherwise. */
    method EncodeBody(data: seq<byte>) returns (body: seq<byte>, encoding: string)
      ensures encoding == GzipEncoding <==> config.encoding == "gzip" && |data| >= 30 * 1024
      ensures encoding != GzipEncoding ==> encoding == "" && body == data
      ensures encoding == GzipEncoding ==> body == gzip(data)
    {
      body := data;
      encoding := "";
      if ShouldCompress(data) {
        body := gzip(data);
        encoding := GzipEncoding;
      }
    }

    /** `handle_sentry_response`, with its breakpoint removed: when the
        response carries an `x-sentry-rate-limits` header the source reaches
        `binding.pry` (see `RescueAsWritten` for what that does as written);
        here that branch does nothing, and nothing is recorded in either
        case. */
    method HandleSentryResponse(response: Response)
      modifies this
      ensures rateLimits == old(rateLimits)
    {
      var rateLimitHeader := Dig(response, RateLimitHeader);
      if rateLimitHeader.Some? {
        // The breakpoint is left out; no rate limit is recorded.
      }
    }

    /** `send_data`: builds and posts the request through `post`, and turns a
        Faraday error into a raised `Sentry::ExternalError`. This is the
        corrected behaviour, with the breakpoint in `handle_sentry_response`
        removed; `RescueAsWritten` is the rescue clause as written. */
    method SendData(data: seq<byte>, authHeader: string, post: Request -> PostOutcome)
      returns (req: Request, result: SendResult)
      modifies this
      ensures rateLimits == old(rateLimits)
      ensures req.endpoint == endpoint
      ensures req.body == if ShouldCompress(data) then gzip(data) else data
      ensures req.headers == map[
        ContentTypeField := ContentType,
        ContentEncodingField := if ShouldCompress(data) then GzipEncoding else "",
        AuthField := authHeader]
      ensures result.Raised? <==> post(req).Failed?
      ensures post(req).Completed? ==> result == Returned(post(req).response)
      ensures post(req).Failed? ==> result == Raised(ExternalError(Diagnostic(post(req).error)))
    {
      var body, encoding := EncodeBody(data);

      var headers: map<string, string> := map[];
      headers := headers[ContentTypeField := ContentType];
      headers := headers[ContentEncodingField := encoding];
      headers := headers[AuthField := authHeader];
      req := Request(endpoint, headers, body);

      match post(req)
      case Completed(response) =>
        result := Returned(response);
      case Failed(e) =>
        var errorInfo := e.message;
        if e.response.Some? {
          var response := e.response.value;
          if HasRateLimitedHeader(response) {
            HandleSentryResponse(response);
          } else {
            errorInfo := errorInfo + BodyNote + response.body;
            if SentryErrorHeader in response.headers {
              errorInfo := errorInfo + ErrorHeaderNote + response.headers[SentryErrorHeader];
            }
          }
        }
        result := Raised(ExternalError(errorInfo));
    }
  }

  /** What a caller can conclude from the contracts alone: a configured
      timeout reaches the connection options, a 40 KiB payload is gzipped
      under the "gzip" encoding, and a `retry-after` error response raises
      with the bare message and records nothing. */
  method ClientScenario(gzip: seq<byte> -> seq<byte>)
  {
    var config := TransportConfiguration(Nil, GzipEncoding, Number(5.0), Nil, None, true, None, None);
    var t := new HttpTransport(config, Dsn("https://o0.ingest.example", "/api/1/envelope/"), Text("net_http"), gzip);
    assert t.conn.options[Timeout] == Number(5.0) && OpenTimeout !in t.conn.options;
    var payload: seq<byte> := seq(40 * 1024, _ => 0);

    var ok := (_: Request) => Completed(Response(map[], ""));
    var req, result := t.SendData(payload, "Sentry sentry_key=k", ok);
    assert req.body == gzip(payload) && req.headers[ContentEncodingField] == GzipEncoding;
    assert result == Returned(Response(map[], ""));

    var throttled := Response(map[RetryAfterHeader := "60"], "slow down");
    var limited := (_: Request) => Failed(FaradayError("429", Some(throttled)));
    req, result := t.SendData(payload[..10], "Sentry sentry_key=k", limited);
    assert req.body == payload[..10] && req.headers[ContentEncodingField] == "";
    assert result == Raised(ExternalError("429"));
    assert t.rateLimits == map[];
  }
}
