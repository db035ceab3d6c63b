/** `JsonRpcHttpClient`: one JSON-RPC call over HTTP. Everything the call
    does to the network, the tracer and the codec is read from an `IoScript`
    (what each external step answers), and everything it does in return is
    written to an `Effects` log, so that `Invoke` is a pure function. */
module HttpClient {
  import opened Common
  import SpanInjector

  /** `JsonRpcBasicServer.JSONRPC_CONTENT_TYPE`, the default content type. */
  const JsonRpcContentType: string := "application/json-rpc"
  const ContentTypeHeader: string := "Content-Type"
  const DefaultConnectionTimeoutMillis: int := 60 * 1000
  const DefaultReadTimeoutMillis: int := 60 * 1000 * 2
  /** The service-instance metadata key that overrides the context path. */
  const ContextPathKey: string := "context-path"
  const LoadBalancerMissingMessage: string := "loadBalancerClient is null,need ribbon in the classpath!"

  function NoInstanceMessage(serviceId: string): string {
    "can't find service of [" + serviceId + "],eureka is on the right way ?"
  }

  /** The client's Jackson `ObjectMapper`: one obtained from the application,
      or a freshly constructed default. */
  datatype Mapper = SharedMapper(ref: Ref) | FreshMapper

  /** `Proxy.NO_PROXY` or a configured proxy. */
  datatype Proxy = NoProxy | ProxyRef(ref: Ref)

  /** The client's fields. */
  datatype ClientConfig = ClientConfig(
    mapper: Mapper,
    headers: Headers,
    serviceUrl: NullableString,
    proxy: Proxy,
    connectionTimeoutMillis: int,
    readTimeoutMillis: int,
    sslContext: Option<Ref>,
    hostNameVerifier: Option<Ref>,
    contentType: NullableString,
    loadBalancer: Option<Ref>,
    serviceId: NullableString,
    servicePath: NullableString,
    tracer: Option<Ref>)

  /** Collaborators the client calls but this model does not define:
      `new URL(base, spec)` and `Util.addPrefixAndDistinct`. */
  datatype Env = Env(resolveUrl: UrlResolver, addPrefixAndDistinct: PrefixAndDistinct)

  /** The constructors: the given mapper, URL and a copy of the given headers;
      every other field at its declared default. */
  function NewClient(mapper: Mapper, serviceUrl: NullableString, headers: Headers): (c: ClientConfig)
    ensures c.mapper == mapper && c.serviceUrl == serviceUrl && c.headers == headers
    ensures c.connectionTimeoutMillis == 60000 && c.readTimeoutMillis == 120000
    ensures c.contentType == Some("application/json-rpc") && c.proxy == NoProxy
    ensures c.sslContext.None? && c.hostNameVerifier.None?
    ensures c.loadBalancer.None? && c.serviceId.None? && c.servicePath.None? && c.tracer.None?
  {
    ClientConfig(mapper, headers, serviceUrl, NoProxy, DefaultConnectionTimeoutMillis,
                 DefaultReadTimeoutMillis, None, None, Some(JsonRpcContentType),
                 None, None, None, None)
  }

  /** The argument of `setHeaders`: a map of its own, or the client's own
      `getHeaders()`, which is an unmodifiable view of the very map that
      `setHeaders` clears. */
  datatype HeadersArg = MapOf(entries: Headers) | OwnHeadersView

  /** The entries the argument shows while the client's headers are `current`. */
  function EntriesOf(arg: HeadersArg, current: Headers): Headers {
    match arg
    case MapOf(entries) => entries
    case OwnHeadersView => current
  }

  /** `setHeaders`: the default headers are cleared, then the argument's
      entries are copied in. */
  function SetHeaders(c: ClientConfig, arg: HeadersArg): ClientConfig {
    var cleared := c.(headers := map[]);
    cleared.(headers := cleared.headers + EntriesOf(arg, cleared.headers))
  }

  /** The new headers replace the old ones entirely: nothing of the previous
      default headers survives, and no other field changes. Handing the
      client its own `getHeaders()` therefore leaves it with no headers at
      all, because the view is emptied by the clearing before it is copied. */
  lemma SetHeadersReplaces(c: ClientConfig, old1: Headers, old2: Headers, headers: Headers, arg: HeadersArg)
    ensures SetHeaders(c, MapOf(headers)).headers == headers
    ensures SetHeaders(c.(headers := old1), arg) == SetHeaders(c.(headers := old2), arg)
    ensures SetHeaders(c, arg).(headers := c.headers) == c
    ensures SetHeaders(c, OwnHeadersView).headers == map[]
  {
  }

  // ---------------------------------------------------------------------
  // Endpoint selection

  /** A service instance chosen by the load balancer. */
  datatype Instance = Instance(uri: string, metadata: Option<Headers>)

  /** What the client can throw. */
  datatype IoError = IoError(message: NullableString)
  /** Any other `Throwable`, e.g. a JSON-RPC error raised by the codec. */
  datatype Throwable = Throwable(description: string)

  datatype Failure =
    | IllegalArgument(message: string)
    | NegativeTimeout          // the JDK's IllegalArgumentException for a negative timeout
    | NullPointer
    | MalformedUrl
    | IoFailure(error: IoError)
    | Propagated(thrown: Throwable)
    | HttpFailure(text: NullableString, cause: IoError)

  /** True when the load balancer is asked for an instance. */
  predicate DiscoveryMode(c: ClientConfig) {
    !IsEmpty(c.serviceId)
  }

  /** The path resolved against a chosen instance: its `context-path`
      metadata (default empty) followed by the prefixed service path. */
  function InstancePath(c: ClientConfig, env: Env, instance: Instance): string {
    var contextPath := GetStringOr(instance.metadata, ContextPathKey, Some(""));
    contextPath.value + env.addPrefixAndDistinct(c.servicePath)
  }

  /** `getServiceUrl`. Without a service id the stored URL comes back as it is
      (possibly `null`). With one, a missing load balancer or a missing
      instance fails, and otherwise the instance path is resolved against the
      instance's URI; `chosen` is the answer of this call's `choose`. */
  function GetServiceUrl(c: ClientConfig, env: Env, chosen: Option<Instance>): (r: Result<NullableString, Failure>)
    ensures !DiscoveryMode(c) ==> r == Ok(c.serviceUrl)
    ensures DiscoveryMode(c) && c.loadBalancer.None? ==> r == Err(IllegalArgument(LoadBalancerMissingMessage))
    ensures DiscoveryMode(c) && c.loadBalancer.Some? && chosen.None? ==>
              r == Err(IllegalArgument(NoInstanceMessage(c.serviceId.value)))
    ensures DiscoveryMode(c) && r.Ok? ==>
              && c.loadBalancer.Some? && chosen.Some?
              && r.value.Some?
              && env.resolveUrl(Some(chosen.value.uri), InstancePath(c, env, chosen.value)) == r.value
    ensures DiscoveryMode(c) && c.loadBalancer.Some? && chosen.Some? ==>
              (r == Err(MalformedUrl) <==> env.resolveUrl(Some(chosen.value.uri), InstancePath(c, env, chosen.value)).None?)
  {
    if !DiscoveryMode(c) then Ok(c.serviceUrl)
    else if c.loadBalancer.None? then Err(IllegalArgument(LoadBalancerMissingMessage))
    else if chosen.None? then Err(IllegalArgument(NoInstanceMessage(c.serviceId.value)))
    else
      match env.resolveUrl(Some(chosen.value.uri), InstancePath(c, env, chosen.value))
      case None => Err(MalformedUrl)
      case Some(url) => Ok(Some(url))
  }

  /** With a static URL the load balancer's answer is never consulted: any two
      answers give the same result. */
  lemma StaticUrlIgnoresLoadBalancer(c: ClientConfig, env: Env, a: Option<Instance>, b: Option<Instance>)
    ensures !DiscoveryMode(c) ==> GetServiceUrl(c, env, a) == GetServiceUrl(c, env, b)
  {
  }

  // ---------------------------------------------------------------------
  // Connection preparation

  /** What `prepareConnection` and `setupSsl` set on the connection. */
  datatype ConnSettings = ConnSettings(
    proxy: Proxy,
    connectTimeoutMillis: int,
    readTimeoutMillis: int,
    allowUserInteraction: bool,
    defaultUseCaches: bool,
    doInput: bool,
    doOutput: bool,
    useCaches: bool,
    instanceFollowRedirects: bool,
    requestMethod: string,
    hostnameVerifier: Option<Ref>,
    sslSocketFactoryOf: Option<Ref>)

  /** A prepared connection: where it goes, how it is set up, and its request
      properties after `addHeaders`. */
  datatype Connection = Connection(url: string, settings: ConnSettings, requestProperties: Headers)

  /** Writing each entry of `m`, in the order `keys` lists them, over `props`
      (the `for` loops of `addHeaders`, for any iteration order). */
  function SetEach(props: Headers, m: Headers, keys: seq<string>): Headers
    requires forall k :: k in keys ==> k in m
    decreases |keys|
  {
    if keys == [] then props else SetEach(props[keys[0] := m[keys[0]]], m, keys[1..])
  }

  /** Whatever order a map's entries are visited in, writing them one by one
      equals overlaying the map: later writes win, and the result does not
      depend on the iteration order. */
  lemma {:induction false} SetEachOverlays(props: Headers, m: Headers, keys: seq<string>)
    requires forall k :: k in keys ==> k in m
    requires forall k :: k in m ==> k in keys
    ensures SetEach(props, m, keys) == props + m
  {
    SetEachRestricted(props, m, keys);
    assert (map k | k in keys :: m[k]) == m;
  }

  lemma {:induction false} SetEachRestricted(props: Headers, m: Headers, keys: seq<string>)
    requires forall k :: k in keys ==> k in m
    ensures SetEach(props, m, keys) == props + (map k | k in keys :: m[k])
    decreases |keys|
  {
    if keys != [] {
      var k0 := keys[0];
      SetEachRestricted(props[k0 := m[k0]], m, keys[1..]);
      var rest := map k | k in keys[1..] :: m[k];
      var all := map k | k in keys :: m[k];
      assert forall k :: k in keys <==> k == k0 || k in keys[1..];
      assert props[k0 := m[k0]] + rest == props + all;
    }
  }

  /** The value a request property ends up with: the per-call extras win over
      the default headers, which win over the content type. */
  function HeaderPrecedence(key: string, contentType: NullableString, defaults: Headers, extra: Headers): NullableString {
    if key in extra then extra[key]
    else if key in defaults then defaults[key]
    else if key == ContentTypeHeader then contentType
    else None
  }

  /** `addHeaders`: `Content-Type` first, then the default headers, then the
      extras, each write replacing an earlier one on the same key. */
  function AddHeaders(contentType: NullableString, defaults: Headers, extra: Headers): (props: Headers)
    ensures props.Keys == {ContentTypeHeader} + defaults.Keys + extra.Keys
    ensures forall k :: k in props ==> props[k] == HeaderPrecedence(k, contentType, defaults, extra)
  {
    map[ContentTypeHeader := contentType] + defaults + extra
  }

  /** `setupSsl`: the verifier and the socket factory are installed only on an
      HTTPS connection, and each only when configured. */
  function SetupSsl(https: bool, hostNameVerifier: Option<Ref>, sslContext: Option<Ref>): (r: (Option<Ref>, Option<Ref>))
    ensures r.0.Some? <==> https && hostNameVerifier.Some?
    ensures r.1.Some? <==> https && sslContext.Some?
    ensures r.0.Some? ==> r.0 == hostNameVerifier
    ensures r.1.Some? ==> r.1 == sslContext
  {
    if https then (hostNameVerifier, sslContext) else (None, None)
  }

  /** `prepareConnection`: open a connection to `getServiceUrl()` and set it
      up. It fails when the URL cannot be obtained, when the URL is `null`,
      when opening throws, or when a timeout is negative. */
  function PrepareConnection(c: ClientConfig, env: Env, chosen: Option<Instance>, openFailure: Option<IoError>,
                             https: bool, extraHeaders: Headers): (r: Result<Connection, Failure>)
    ensures r.Ok? <==>
              && GetServiceUrl(c, env, chosen).Ok? && GetServiceUrl(c, env, chosen).value.Some?
              && openFailure.None?
              && c.connectionTimeoutMillis >= 0 && c.readTimeoutMillis >= 0
    ensures r.Ok? ==> GetServiceUrl(c, env, chosen) == Ok(Some(r.value.url))
    ensures r.Ok? ==>
              var s := r.value.settings;
              && s.requestMethod == "POST" && s.instanceFollowRedirects
              && !s.useCaches && !s.defaultUseCaches && !s.allowUserInteraction
              && s.doInput && s.doOutput && s.proxy == c.proxy
              && s.connectTimeoutMillis == c.connectionTimeoutMillis
              && s.readTimeoutMillis == c.readTimeoutMillis
              && (s.hostnameVerifier, s.sslSocketFactoryOf) == SetupSsl(https, c.hostNameVerifier, c.sslContext)
    ensures r.Ok? ==> r.value.requestProperties == AddHeaders(c.contentType, c.headers, extraHeaders)
    ensures GetServiceUrl(c, env, chosen).Err? ==> r == Err(GetServiceUrl(c, env, chosen).error)
  {
    match GetServiceUrl(c, env, chosen)
    case Err(f) => Err(f)
    case Ok(None) => Err(NullPointer)
    case Ok(Some(url)) =>
      if openFailure.Some? then Err(IoFailure(openFailure.value))
      else if c.connectionTimeoutMillis < 0 || c.readTimeoutMillis < 0 then Err(NegativeTimeout)
      else
        var ssl := SetupSsl(https, c.hostNameVerifier, c.sslContext);
        var settings := ConnSettings(c.proxy, c.connectionTimeoutMillis, c.readTimeoutMillis,
                                     false, false, true, true, false, true, "POST", ssl.0, ssl.1);
        Ok(Connection(url, settings, AddHeaders(c.contentType, c.headers, extraHeaders)))
  }

  // ---------------------------------------------------------------------
  // Reading the response

  /** Java's `Character.toUpperCase` on the characters that can matter when
      comparing with "gzip": ASCII letters and the Turkish dotless `ı`. */
  function ToUpper(ch: char): char {
    if 'a' <= ch <= 'z' then (ch as int - 32) as char
    else if ch == 'ı' then 'I'
    else ch
  }

  /** Java's `Character.toLowerCase` on ASCII letters and the dotted `İ`. */
  function ToLower(ch: char): char {
    if 'A' <= ch <= 'Z' then (ch as int + 32) as char
    else if ch == 'İ' then 'i'
    else ch
  }

  /** `String.equalsIgnoreCase`, character by character. */
  predicate EqualsIgnoreCase(a: string, b: string) {
    |a| == |b| &&
    forall i :: 0 <= i < |a| ==>
      a[i] == b[i] || ToUpper(a[i]) == ToUpper(b[i]) || ToLower(ToUpper(a[i])) == ToLower(ToUpper(b[i]))
  }

  /** `useGzip`: the `Content-Encoding` response header exists and equals
      "gzip" ignoring case. */
  function UseGzip(contentEncoding: NullableString): (r: bool)
    ensures r ==> contentEncoding.Some? && |contentEncoding.value| == 4
  {
    contentEncoding.Some? && EqualsIgnoreCase(contentEncoding.value, "gzip")
  }

  /** The spellings `useGzip` accepts, listed letter by letter. */
  lemma GzipSpellings(s: string)
    ensures UseGzip(Some(s)) <==>
              && |s| == 4
              && s[0] in "gG" && s[1] in "zZ" && s[2] in "iIİı" && s[3] in "pP"
  {
    if |s| == 4 {
      var t := "gzip";
      assert t[0] == 'g' && t[1] == 'z' && t[2] == 'i' && t[3] == 'p';
    }
  }

  /** The error stream as `readErrorString` sees it: the characters it yields,
      then either the end of the stream or an `IOException` (while reading or
      closing it). */
  datatype ErrorStream = ErrorStream(chars: string, failure: Option<IoError>)

  /** The read loop of `readErrorString`: append each character to the buffer
      until the stream ends or throws. */
  function AppendUntilEnd(chars: string, buffer: string, failure: Option<IoError>): (text: NullableString)
    ensures failure.None? ==> text == Some(buffer + chars)
    ensures failure.Some? ==> text == failure.value.message
    decreases |chars|
  {
    if chars == [] then
      assert buffer + chars == buffer;
      if failure.Some? then failure.value.message else Some(buffer)
    else
      assert buffer + [chars[0]] + chars[1..] == buffer + chars;
      AppendUntilEnd(chars[1..], buffer + [chars[0]], failure)
  }

  /** `readErrorString`: the whole error-stream text, or the `IOException`'s
      message when reading fails. When the connection has no error stream
      (`getErrorStream()` is `null`), `new InputStreamReader(null, "UTF-8")`
      throws a `NullPointerException`, which no `catch` takes. */
  function ReadErrorString(stream: Option<ErrorStream>): (r: Result<NullableString, Failure>)
    ensures r.Err? <==> stream.None?
    ensures r.Err? ==> r.error == NullPointer
    ensures stream.Some? && stream.value.failure.None? ==> r == Ok(Some(stream.value.chars))
    ensures stream.Some? && stream.value.failure.Some? ==> r == Ok(stream.value.failure.value.message)
  {
    match stream
    case None => Err(NullPointer)
    case Some(es) =>
      assert "" + es.chars == es.chars;
      Ok(AppendUntilEnd(es.chars, "", es.failure))
  }

  /** Reading and decoding one response stream inside its try-with-resources
      block: a value; a value that `return response = ...` assigns, after
      which closing the stream throws an `IOException`; an `IOException`
      while reading; or anything else thrown. */
  datatype ReadOutcome =
    | Decoded(value: Option<JavaObject>)
    | DecodedThenCloseIo(value: Option<JavaObject>, error: IoError)
    | ReadIo(error: IoError)
    | ReadThrew(thrown: Throwable)

  /** The block ends with an `IOException`, which the `catch` takes. */
  predicate EndsInIo(o: ReadOutcome) {
    o.ReadIo? || o.DecodedThenCloseIo?
  }

  /** The block assigned a value to `response`. */
  predicate Assigns(o: ReadOutcome) {
    o.Decoded? || o.DecodedThenCloseIo?
  }

  datatype WriteOutcome = Written | WriteIo(error: IoError) | WriteThrew(thrown: Throwable)

  /** How a call ends: a value (possibly `null`) or a thrown failure. */
  datatype Outcome = Returned(value: Option<JavaObject>) | Raised(failure: Failure)

  /** The answers of the outside world to one call. */
  datatype IoScript = IoScript(
    chosen: Option<Instance>,          // loadBalancerClient.choose(serviceId)
    newSpan: SpanInjector.Span,        // tracer.createSpan(serviceId)
    openFailure: Option<IoError>,      // openConnection threw
    https: bool,                       // openConnection returned an HTTPS connection
    connectFailure: Option<IoError>,   // connect threw
    write: WriteOutcome,               // the codec writing the request body
    contentEncoding: NullableString,   // the response's Content-Encoding header
    readSuccess: bool -> ReadOutcome,  // reading the success stream, by gzip flag
    readError: bool -> ReadOutcome,    // reading the error stream, by gzip flag
    errorText: Option<ErrorStream>,    // the error stream as readErrorString reads it (None: null)
    tracing: bool)                     // tracer.isTracing() when the call ends

  /** The inner `try`/`catch` of `invoke`: which streams were read, with which
      gzip flag, how the call ends, and the value of `response` afterwards. */
  datatype ReadResult = ReadResult(outcome: Outcome, errorReadWith: Option<bool>, errorTextRead: bool,
                                   response: Option<JavaObject>)

  /** The value `response` holds once the reads are over: the value of the
      last read that assigned one, `null` when none did. */
  function LastAssigned(gzip: bool, io: IoScript): Option<JavaObject> {
    var primary := io.readSuccess(gzip);
    var fallback := io.readError(gzip);
    if EndsInIo(primary) && Assigns(fallback) then fallback.value
    else if Assigns(primary) then primary.value
    else None
  }

  /** `new HttpException(readErrorString(connection), ef)` thrown: the
      message is computed first, and an exception there escapes instead. */
  function HttpExceptionOf(errorText: Option<ErrorStream>, ef: IoError): Outcome {
    match ReadErrorString(errorText)
    case Ok(text) => Raised(HttpFailure(text, ef))
    case Err(f) => Raised(f)
  }

  /** The dual-channel read. The success stream is read first; only an
      `IOException` there (also one from closing it) leads to the error
      stream; only an `IOException` there as well leads to an
      `HttpException` that carries the error-stream text and wraps the second
      exception. Anything else thrown propagates. */
  function ReadResponse(gzip: bool, io: IoScript): (r: ReadResult)
    ensures io.readSuccess(gzip).Decoded? ==> r.outcome == Returned(io.readSuccess(gzip).value)
    ensures io.readSuccess(gzip).ReadThrew? ==> r.outcome == Raised(Propagated(io.readSuccess(gzip).thrown))
    ensures r.errorReadWith.Some? <==> EndsInIo(io.readSuccess(gzip))
    ensures r.errorReadWith.Some? ==> r.errorReadWith.value == gzip
    ensures EndsInIo(io.readSuccess(gzip)) && io.readError(gzip).Decoded? ==>
              r.outcome == Returned(io.readError(gzip).value)
    ensures EndsInIo(io.readSuccess(gzip)) && io.readError(gzip).ReadThrew? ==>
              r.outcome == Raised(Propagated(io.readError(gzip).thrown))
    ensures r.errorTextRead <==> EndsInIo(io.readSuccess(gzip)) && EndsInIo(io.readError(gzip))
    ensures r.errorTextRead && io.errorText.Some? ==>
              r.outcome == Raised(HttpFailure(ReadErrorString(io.errorText).value, io.readError(gzip).error))
    ensures r.errorTextRead && io.errorText.None? ==> r.outcome == Raised(NullPointer)
    ensures (r.outcome.Raised? && r.outcome.failure.HttpFailure?) <==> r.errorTextRead && io.errorText.Some?
    ensures r.outcome.Returned? ==> r.response == r.outcome.value
    ensures r.response == LastAssigned(gzip, io)
  {
    var primary := io.readSuccess(gzip);
    if !EndsInIo(primary) then
      match primary
      case ReadThrew(t) => ReadResult(Raised(Propagated(t)), None, false, None)
      case Decoded(v) => ReadResult(Returned(v), None, false, v)
    else
      // catch (IOException e): `response` keeps what the success read assigned
      var response := if primary.DecodedThenCloseIo? then primary.value else None;
      match io.readError(gzip)
      case Decoded(v) => ReadResult(Returned(v), Some(gzip), false, v)
      case ReadThrew(t) => ReadResult(Raised(Propagated(t)), Some(gzip), false, response)
      case ReadIo(ef) => ReadResult(HttpExceptionOf(io.errorText, ef), Some(gzip), true, response)
      case DecodedThenCloseIo(v, ef) => ReadResult(HttpExceptionOf(io.errorText, ef), Some(gzip), true, v)
  }

  // ---------------------------------------------------------------------
  // The call

  /** A call: the method, its marshalled argument, the declared return type
      and the per-call extra headers. */
  datatype Call = Call(methodName: string, argument: Option<JavaObject>, returnType: Option<JavaType>, extraHeaders: Headers)

  /** What one call did, in the order the source does it. */
  datatype Effects = Effects(
    spanStarted: Option<SpanInjector.Span>,       // created and tagged with the arguments
    paramsTag: Option<Option<JavaObject>>,        // the "params" tag
    requestHeaders: Headers,                      // the span headers overlaid by the extras
    connection: Option<Connection>,               // the prepared connection
    connected: bool,
    requestWritten: bool,
    gzip: Option<bool>,                           // the useGzip flag, once computed
    successReadWith: Option<bool>,                // gzip flag the success stream was read with
    errorReadWith: Option<bool>,                  // gzip flag the error stream was read with
    errorTextRead: bool,                          // readErrorString ran
    resultTag: Option<Option<JavaObject>>,        // the "result" tag: `response` in the finally block
    spanClosed: bool,
    disconnects: nat)

  datatype Invocation = Invocation(outcome: Outcome, effects: Effects)

  /** The span created at the start of the call: one exactly when a tracer is set. */
  function SpanOf(c: ClientConfig, io: IoScript): Option<SpanInjector.Span> {
    if c.tracer.Some? then Some(io.newSpan) else None
  }

  /** The extra headers handed to `prepareConnection`: the span's headers
      overlaid by the per-call extras. */
  function RequestHeaders(c: ClientConfig, call: Call, io: IoScript): Headers {
    SpanInjector.SleuthHeaders(SpanOf(c, io)) + call.extraHeaders
  }

  /** The call reaches the `try` block: the connection was prepared and connected. */
  predicate ReachesTry(c: ClientConfig, env: Env, call: Call, io: IoScript) {
    PrepareConnection(c, env, io.chosen, io.openFailure, io.https, RequestHeaders(c, call, io)).Ok?
    && io.connectFailure.None?
  }

  /** The value of `response` when the `finally` block runs: `null` unless
      the request was written and some read assigned a value. */
  function ResponseAtFinally(io: IoScript): Option<JavaObject> {
    if io.write.Written? then LastAssigned(UseGzip(io.contentEncoding), io) else None
  }

  /** The 4-argument `invoke`. */
  function Invoke(c: ClientConfig, env: Env, call: Call, io: IoScript): (r: Invocation)
    ensures r.effects.disconnects <= 1
    ensures r.effects.spanStarted == SpanOf(c, io)
    ensures r.effects.paramsTag == if c.tracer.Some? then Some(call.argument) else None
    ensures r.effects.spanClosed ==> r.effects.spanStarted.Some? && r.effects.disconnects == 1
    ensures r.effects.errorReadWith.Some? ==> r.effects.successReadWith == r.effects.errorReadWith
    ensures r.outcome.Returned? ==> r.effects.successReadWith.Some? && r.effects.disconnects == 1
    ensures r.effects.successReadWith.Some? ==> r.effects.successReadWith == Some(UseGzip(io.contentEncoding))
    ensures r.effects.connection.Some? ==>
              Ok(r.effects.connection.value) ==
                PrepareConnection(c, env, io.chosen, io.openFailure, io.https, RequestHeaders(c, call, io))
  {
    var span := SpanOf(c, io);
    var requestHeaders := RequestHeaders(c, call, io);
    var started := Effects(span, if span.Some? then Some(call.argument) else None, requestHeaders,
                           None, false, false, None, None, None, false, None, false, 0);
    match PrepareConnection(c, env, io.chosen, io.openFailure, io.https, requestHeaders)
    case Err(f) => Invocation(Raised(f), started)
    case Ok(conn) =>
      if io.connectFailure.Some? then
        Invocation(Raised(IoFailure(io.connectFailure.value)), started.(connection := Some(conn)))
      else
        var live := started.(connection := Some(conn), connected := true);
        var body :=
          match io.write
          case WriteIo(e) => Invocation(Raised(IoFailure(e)), live)
          case WriteThrew(t) => Invocation(Raised(Propagated(t)), live)
          case Written =>
            var gzip := UseGzip(io.contentEncoding);
            var read := ReadResponse(gzip, io);
            Invocation(read.outcome,
                       live.(requestWritten := true, gzip := Some(gzip), successReadWith := Some(gzip),
                               errorReadWith := read.errorReadWith, errorTextRead := read.errorTextRead));
        var response := if io.write.Written? then ReadResponse(UseGzip(io.contentEncoding), io).response else None;
        // the finally block
        var closing := c.tracer.Some? && io.tracing;
        Invocation(body.outcome,
                   body.effects.(resultTag := if closing then Some(response) else None,
                                 spanClosed := closing,
                                 disconnects := 1))
  }

  /** A successful read of the success stream is the call's value, and the
      error stream is never read. */
  lemma PrimarySuccessSkipsErrorChannel(c: ClientConfig, env: Env, call: Call, io: IoScript)
    requires ReachesTry(c, env, call, io) && io.write.Written?
    requires io.readSuccess(UseGzip(io.contentEncoding)).Decoded?
    ensures Invoke(c, env, call, io).outcome == Returned(io.readSuccess(UseGzip(io.contentEncoding)).value)
    ensures Invoke(c, env, call, io).effects.errorReadWith.None?
    ensures !Invoke(c, env, call, io).effects.errorTextRead
  {
  }

  /** An `IOException` on the success stream falls back to the error stream:
      a decoded value there is returned without any exception; an
      `IOException` there too raises an `HttpException` with the error-stream
      text, wrapping the second exception, unless the connection has no
      error stream, in which case `readErrorString` throws a
      `NullPointerException` that the call raises instead. */
  lemma ErrorChannelFallback(c: ClientConfig, env: Env, call: Call, io: IoScript)
    requires ReachesTry(c, env, call, io) && io.write.Written?
    requires EndsInIo(io.readSuccess(UseGzip(io.contentEncoding)))
    ensures var g := UseGzip(io.contentEncoding);
            io.readError(g).Decoded? ==> Invoke(c, env, call, io).outcome == Returned(io.readError(g).value)
    ensures var g := UseGzip(io.contentEncoding);
            EndsInIo(io.readError(g)) && io.errorText.Some? ==>
              Invoke(c, env, call, io).outcome ==
                Raised(HttpFailure(ReadErrorString(io.errorText).value, io.readError(g).error))
    ensures var g := UseGzip(io.contentEncoding);
            EndsInIo(io.readError(g)) && io.errorText.None? ==> Invoke(c, env, call, io).outcome == Raised(NullPointer)
    ensures Invoke(c, env, call, io).effects.errorReadWith == Some(UseGzip(io.contentEncoding))
  {
  }

  /** Both streams are opened through the same gzip decision, taken from the
      response's `Content-Encoding` header. */
  lemma SameGzipFlagOnBothChannels(c: ClientConfig, env: Env, call: Call, io: IoScript)
    ensures var e := Invoke(c, env, call, io).effects;
            && (e.successReadWith.Some? ==> e.successReadWith == Some(UseGzip(io.contentEncoding)))
            && (e.errorReadWith.Some? ==> e.errorReadWith == Some(UseGzip(io.contentEncoding)))
  {
  }

  /** The `finally` block runs on every exit from the `try` block: the
      connection is disconnected exactly once, and with a tracer that is
      tracing the span is tagged with the value `response` holds and closed:
      the returned value on a normal exit, and otherwise the last value a
      read assigned before its stream failed to close, or `null`. A failure
      while preparing or connecting happens before the `try`: no disconnect,
      and a span already created stays open. */
  lemma CleanupOnEveryExit(c: ClientConfig, env: Env, call: Call, io: IoScript)
    ensures var r := Invoke(c, env, call, io);
            && (r.effects.disconnects == 1 <==> ReachesTry(c, env, call, io))
            && (r.effects.spanClosed <==> ReachesTry(c, env, call, io) && c.tracer.Some? && io.tracing)
            && (r.effects.spanClosed ==> r.effects.resultTag == Some(ResponseAtFinally(io)))
            && (r.effects.spanClosed && r.outcome.Returned? ==> r.effects.resultTag == Some(r.outcome.value))
            && (!r.effects.spanClosed ==> r.effects.resultTag.None?)
    ensures !ReachesTry(c, env, call, io) ==>
              var r := Invoke(c, env, call, io);
              && r.outcome.Raised? && r.effects.disconnects == 0 && !r.effects.spanClosed
              && (c.tracer.Some? ==> r.effects.spanStarted.Some?)
  {
  }

  /** A call can fail after a value was decoded: the success stream decodes
      `v`, which `response` takes, then closing that stream throws, and the
      error stream fails as well. The call raises, yet the span is tagged
      with `v`. */
  lemma FailureAfterDecodeTagsValue(c: ClientConfig, env: Env, call: Call, io: IoScript)
    requires ReachesTry(c, env, call, io) && io.write.Written? && c.tracer.Some? && io.tracing
    requires io.readSuccess(UseGzip(io.contentEncoding)).DecodedThenCloseIo?
    requires io.readError(UseGzip(io.contentEncoding)).ReadIo?
    ensures Invoke(c, env, call, io).outcome.Raised?
    ensures Invoke(c, env, call, io).effects.resultTag == Some(io.readSuccess(UseGzip(io.contentEncoding)).value)
  {
  }

  /** The request properties of the connection: `Content-Type`, overridden by
      the default headers, overridden by the span headers, overridden by the
      per-call extras. */
  lemma AppliedHeaderPrecedence(c: ClientConfig, env: Env, call: Call, io: IoScript, key: string)
    requires Invoke(c, env, call, io).effects.connection.Some?
    ensures var props := Invoke(c, env, call, io).effects.connection.value.requestProperties;
            var spanHeaders := SpanInjector.SleuthHeaders(SpanOf(c, io));
            && (key in props <==> key == ContentTypeHeader || key in c.headers || key in spanHeaders || key in call.extraHeaders)
            && (key in props ==>
                  props[key] ==
                    if key in call.extraHeaders then call.extraHeaders[key]
                    else if key in spanHeaders then spanHeaders[key]
                    else if key in c.headers then c.headers[key]
                    else c.contentType)
  {
    var rh := RequestHeaders(c, call, io);
    var prep := PrepareConnection(c, env, io.chosen, io.openFailure, io.https, rh);
    assert prep.Ok? && Invoke(c, env, call, io).effects.connection == Some(prep.value);
    var props := prep.value.requestProperties;
    assert props == AddHeaders(c.contentType, c.headers, rh);
    if key in props {
      assert props[key] == HeaderPrecedence(key, c.contentType, c.headers, rh);
    }
  }

  /** Endpoint selection inside a call: with a static URL the connection goes
      to that URL; with a service id it goes to the URL resolved from this
      call's chosen instance. */
  lemma EndpointOfCall(c: ClientConfig, env: Env, call: Call, io: IoScript)
    requires Invoke(c, env, call, io).effects.connection.Some?
    ensures var url := Invoke(c, env, call, io).effects.connection.value.url;
            && (!DiscoveryMode(c) ==> c.serviceUrl == Some(url))
            && (DiscoveryMode(c) ==>
                  c.loadBalancer.Some? && io.chosen.Some? &&
                  env.resolveUrl(Some(io.chosen.value.uri), InstancePath(c, env, io.chosen.value)) == Some(url))
  {
    var url := Invoke(c, env, call, io).effects.connection.value.url;
    var prep := PrepareConnection(c, env, io.chosen, io.openFailure, io.https, RequestHeaders(c, call, io));
    assert prep.Ok? && prep.value.url == url;
    assert GetServiceUrl(c, env, io.chosen) == Ok(Some(url));
  }
}
