# jsonrpc4j HTTP client and Spring wiring, modelled in Dafny

This project models the request side of jsonrpc4j's JSON-RPC-over-HTTP client, `JsonRpcHttpClient`, and the small rules the Spring layer uses around it:

- which beans `AutoJsonRpcServiceExporter` exports, and under which paths;
- which client proxies `AutoJsonRpcClientProxyCreator` defines, and with which properties;
- how `JsonProxyFactoryBean` configures the client behind a proxy and dispatches calls to it;
- how `JsonRpcHttpClientSpanInjector` writes a Sleuth span into headers and reads it back;
- the `Util` helpers.

Everything is pure.

- **Client calls.** `HttpClient.Invoke` maps four inputs to a result: the client's fields (`ClientConfig`), the call itself (`Call`: method name, marshalled argument, return type and per-call headers), the collaborators it cannot see (`Env`, which holds `new URL(base, spec)` and `Util.addPrefixAndDistinct`), and the answers of the network, the codec and the tracer (`IoScript`). It returns the call's outcome together with an `Effects` log. The log records which headers were applied, which streams were read with which gzip flag, whether the span was tagged and closed, and how often the connection was disconnected.
- **Bean factories.** A bean factory is plain data: its bean definitions in registration order, and an optional parent.
- **Java `null`.** A `null` reference is `None`. A header map is `map<string, Option<string>>`, because a `HashMap` may hold `null` values.

Files (modules):

- `common.dfy` (`Common`): Option and Result, nullable strings, header maps, `StringUtils.isEmpty`.
- `util.dfy` (`Util`): `className2Path` and the JSON presence predicates.
- `hex_id.dfy` (`HexId`): a 64-bit id written as sixteen hexadecimal digits and parsed back.
- `span_injector.dfy` (`SpanInjector`): `sleuthHeaders`, `fromHeaders`, `getParentId`.
- `http_client.dfy` (`HttpClient`): the constructors and `setHeaders`, `getServiceUrl`, `prepareConnection`, `setupSsl`, `addHeaders`, `useGzip`, `readErrorString`, and the 4-argument `invoke`.
- `service_exporter.dfy` (`ServiceExporter`): `isInPackage`, the path map with its parent merge, and the exporter registrations.
- `client_proxy_creator.dfy` (`ClientProxyCreator`): the scan pattern, path defaulting, `registerJsonProxyBean`.
- `proxy_factory_bean.dfy` (`ProxyFactoryBean`): object-mapper precedence, `afterPropertiesSet`, `invoke` dispatch.
- `path_chain.dfy` (`PathChain`): how an annotation becomes a client's endpoint, end to end.

The parent merge of `collectFromParentBeans` is modelled as the code is written. At line 147 of `AutoJsonRpcServiceExporter.java`, the parent entry's key and value are passed to `isNotDuplicateService(map, beanName, pathValue)` in swapped order, so the check asks whether the parent's bean NAME is already a path. The consequences are shown by `ServiceExporter.ParentEntryOverwritesChild` and `ServiceExporter.ParentEntrySkippedOnBeanName`: a parent entry replaces a child entry with the same path, and a parent entry is dropped when its bean name happens to be a path of the child.

## Model

| member | source | states |
|---|---|---|
| Util.ClassName2Path | src/main/java/com/googlecode/jsonrpc4j/Util.java:29-31 | the result has the input's length; each `.` becomes `/` and every other character is unchanged |
| Util.ClassName2PathIdempotent | src/main/java/com/googlecode/jsonrpc4j/Util.java:29-31 | the result contains no `.`, and converting it again changes nothing |
| Util.PresencePredicates | src/main/java/com/googlecode/jsonrpc4j/Util.java:11-21 | `hasNonNullData` is false for an absent key and for JSON null; each of the object and textual tests implies it; they are never both true; each holds exactly when the member has that kind |
| HexId.HexRoundTrip | src/main/java/com/googlecode/jsonrpc4j/spring/sleuth/JsonRpcHttpClientSpanInjector.java:46-51 | the id codec the headers use decodes every encoded `long` back to itself (the codec stands in for Sleuth's `idToHex`/`hexToId`) |
| HexId.HexToIdInverse | src/main/java/com/googlecode/jsonrpc4j/spring/sleuth/JsonRpcHttpClientSpanInjector.java:46-51 | every header value the codec accepts is the encoding of the id it decodes to |
| HexId.IdToHexInjective | src/main/java/com/googlecode/jsonrpc4j/spring/sleuth/JsonRpcHttpClientSpanInjector.java:28-35 | distinct ids never produce the same header value |
| SpanInjector.GetParentId | src/main/java/com/googlecode/jsonrpc4j/spring/sleuth/JsonRpcHttpClientSpanInjector.java:56-58 | there is a parent id exactly when the span has a parent, and it is the first parent |
| SpanInjector.SleuthHeaders | src/main/java/com/googlecode/jsonrpc4j/spring/sleuth/JsonRpcHttpClientSpanInjector.java:23-40 | a null span gives exactly the "not sampled" entry; a span gives exactly trace id, name, span id, sampled, process id, and the parent id when there is a parent; ids are hex-encoded, and sampled is "1" when the span is exportable and "0" otherwise |
| SpanInjector.FromHeaders | src/main/java/com/googlecode/jsonrpc4j/spring/sleuth/JsonRpcHttpClientSpanInjector.java:42-54 | no span exactly when the span-id header is absent, null or empty; an undecodable id fails; otherwise the ids decode the headers, and the span is exportable exactly when the sampled header equals "1"; it has one parent exactly when the parent header is non-empty |
| SpanInjector.RoundTrip | src/main/java/com/googlecode/jsonrpc4j/spring/sleuth/JsonRpcHttpClientSpanInjector.java:23-54 | reading back the headers of a span gives its trace id, span id, name, exportable flag, process id and first parent |
| SpanInjector.NullSpanRoundTrip | src/main/java/com/googlecode/jsonrpc4j/spring/sleuth/JsonRpcHttpClientSpanInjector.java:23-45 | the headers of a null span read back as no span |
| HttpClient.NewClient | src/main/java/com/googlecode/jsonrpc4j/JsonRpcHttpClient.java:48-105 | a new client has the given mapper, URL and headers, timeouts 60000 and 120000 ms, content type "application/json-rpc", no proxy, and no SSL, load balancer, service id, service path or tracer |
| HttpClient.SetHeadersReplaces | src/main/java/com/googlecode/jsonrpc4j/JsonRpcHttpClient.java:364-367 | after `setHeaders` with a map the default headers are exactly that map, nothing of the old ones survives, and no other field changes; handing it the client's own `getHeaders()` view leaves no headers, because clearing empties the view first |
| HttpClient.GetServiceUrl | src/main/java/com/googlecode/jsonrpc4j/JsonRpcHttpClient.java:283-293 | with an empty service id, the stored URL unchanged; otherwise it fails with the source's messages when there is no load balancer or no instance, and else resolves the context path (default "") plus the prefixed service path against the instance URI |
| HttpClient.StaticUrlIgnoresLoadBalancer | src/main/java/com/googlecode/jsonrpc4j/JsonRpcHttpClient.java:283-293 | with an empty service id the load balancer's answer never matters |
| HttpClient.SetEachOverlays | src/main/java/com/googlecode/jsonrpc4j/JsonRpcHttpClient.java:272-277 | writing a map's entries one by one, in any iteration order, equals overlaying the map |
| HttpClient.AddHeaders | src/main/java/com/googlecode/jsonrpc4j/JsonRpcHttpClient.java:270-278 | the request properties are `Content-Type` plus the default and the extra header keys; extras win over defaults, and defaults win over the content type |
| HttpClient.SetupSsl | src/main/java/com/googlecode/jsonrpc4j/JsonRpcHttpClient.java:258-268 | the verifier and the socket factory are installed exactly when the connection is HTTPS and each is configured |
| HttpClient.PrepareConnection | src/main/java/com/googlecode/jsonrpc4j/JsonRpcHttpClient.java:215-233 | succeeds exactly when the URL is obtained and non-null, opening succeeds, and no timeout is negative; the connection goes to that URL as a POST that follows redirects, with caches and user interaction off, the configured timeouts and proxy, and the `addHeaders` properties |
| HttpClient.UseGzip | src/main/java/com/googlecode/jsonrpc4j/JsonRpcHttpClient.java:239-242 | gzip only when a `Content-Encoding` header exists and has four characters |
| HttpClient.GzipSpellings | src/main/java/com/googlecode/jsonrpc4j/JsonRpcHttpClient.java:239-242 | gzip exactly when the header equals "gzip" ignoring case, spelled out letter by letter, including the dotless and dotted `i` |
| HttpClient.AppendUntilEnd | src/main/java/com/googlecode/jsonrpc4j/JsonRpcHttpClient.java:246-252 | the read loop returns the buffer followed by every character of the stream, or the exception's message when the stream fails |
| HttpClient.ReadErrorString | src/main/java/com/googlecode/jsonrpc4j/JsonRpcHttpClient.java:244-256 | the full error-stream text, or the IOException's message; a `NullPointerException` exactly when the connection has no error stream |
| HttpClient.ReadResponse | src/main/java/com/googlecode/jsonrpc4j/JsonRpcHttpClient.java:166-178 | a decoded success stream is returned; the error stream is read exactly after an IOException on the success stream (also one from closing it after decoding), with the same gzip flag; when both end in an IOException, an `HttpException` carrying the error text and the second exception is raised, or a `NullPointerException` when there is no error stream; any other throwable propagates; `response` ends up holding the last decoded value, or null |
| HttpClient.Invoke | src/main/java/com/googlecode/jsonrpc4j/JsonRpcHttpClient.java:148-188 | at most one disconnect; a span is started exactly when a tracer is set, tagged with the call's argument as "params"; a closed span implies a disconnect; both streams use one gzip flag; a returned value implies the success stream was read and the connection was disconnected |
| HttpClient.PrimarySuccessSkipsErrorChannel | src/main/java/com/googlecode/jsonrpc4j/JsonRpcHttpClient.java:168-171 | when the success stream decodes, its value is the result, and neither the error stream nor the error text is read |
| HttpClient.ErrorChannelFallback | src/main/java/com/googlecode/jsonrpc4j/JsonRpcHttpClient.java:172-177 | after an IOException on the success stream, a decoded error stream is returned without an exception; a second IOException raises an `HttpException` with the `readErrorString` text, wrapping that exception, or a `NullPointerException` when the connection has no error stream |
| HttpClient.SameGzipFlagOnBothChannels | src/main/java/com/googlecode/jsonrpc4j/JsonRpcHttpClient.java:166-173 | both streams are opened through `getStream` with the flag `useGzip` computed from the response |
| HttpClient.CleanupOnEveryExit | src/main/java/com/googlecode/jsonrpc4j/JsonRpcHttpClient.java:160-186 | once the connection is prepared and connected, every exit disconnects exactly once, and with a tracing tracer the span is tagged with the value of `response` (the returned value on a normal exit; otherwise the last decoded value, or null) and closed; a failure while preparing or connecting disconnects nothing and closes no span |
| HttpClient.FailureAfterDecodeTagsValue | src/main/java/com/googlecode/jsonrpc4j/JsonRpcHttpClient.java:168-181 | when the success stream decodes a value but closing it throws and the error stream fails too, the call raises and the span is still tagged with that value |
| HttpClient.AppliedHeaderPrecedence | src/main/java/com/googlecode/jsonrpc4j/JsonRpcHttpClient.java:157-160 | on the connection, per-call extras win over span headers, which win over the default headers, which win over `Content-Type` |
| HttpClient.EndpointOfCall | src/main/java/com/googlecode/jsonrpc4j/JsonRpcHttpClient.java:215-218 | the connection goes to the static URL without a service id, and otherwise to the URL resolved from this call's chosen instance |
| ServiceExporter.IsInPackage | src/main/java/com/googlecode/jsonrpc4j/spring/AutoJsonRpcServiceExporter.java:67-85 | false for a null or empty class name; true for any other name when no package is set; otherwise true exactly when the name, or a prefix of it that ends just before a dot, is a scanned package |
| ServiceExporter.GetServiceInterfaceName | src/main/java/com/googlecode/jsonrpc4j/spring/AutoJsonRpcServiceExporter.java:130-138 | the first annotated interface's name, the bean name when there is none, and a failure when the bean class cannot be loaded |
| ServiceExporter.ServicePath | src/main/java/com/googlecode/jsonrpc4j/spring/AutoJsonRpcServiceExporter.java:109-113 | a non-empty annotation value is the path; an empty one gives `className2Path` of the first annotated interface, or of the bean name |
| ServiceExporter.IsNotDuplicateService | src/main/java/com/googlecode/jsonrpc4j/spring/AutoJsonRpcServiceExporter.java:153-162 | true exactly when the path is not yet a key of the map |
| ServiceExporter.Put | src/main/java/com/googlecode/jsonrpc4j/spring/AutoJsonRpcServiceExporter.java:116 | `put` maps the path to the bean, leaves every other path alone, and keeps paths unique |
| ServiceExporter.ScanFirstWins | src/main/java/com/googlecode/jsonrpc4j/spring/AutoJsonRpcServiceExporter.java:103-118 | within one factory, unannotated beans and beans outside the packages contribute nothing, and each path goes to the first bean claiming it; the scan fails exactly when a claiming bean's class cannot be loaded |
| ServiceExporter.MergeParent | src/main/java/com/googlecode/jsonrpc4j/spring/AutoJsonRpcServiceExporter.java:141-150 | the merge keeps paths unique, and adds only paths of the parent's map |
| ServiceExporter.MergeParentOverlays | src/main/java/com/googlecode/jsonrpc4j/spring/AutoJsonRpcServiceExporter.java:145-148 | when no parent bean name is a path, every parent entry ends up in the map, replacing a child entry with the same path, and other child paths keep their beans |
| ServiceExporter.MergeParentSkipsOnBeanName | src/main/java/com/googlecode/jsonrpc4j/spring/AutoJsonRpcServiceExporter.java:145-148 | for all inputs: a parent entry whose bean name is a path of the child's map is dropped, and its path keeps whatever the child's map gives it |
| ServiceExporter.MergeParentFrame | src/main/java/com/googlecode/jsonrpc4j/spring/AutoJsonRpcServiceExporter.java:145-148 | a path that no parent entry claims keeps its bean through the merge |
| ServiceExporter.ParentEntryOverwritesChild | src/main/java/com/googlecode/jsonrpc4j/spring/AutoJsonRpcServiceExporter.java:145-148 | a parent entry replaces the child's bean for the same path |
| ServiceExporter.ParentEntrySkippedOnBeanName | src/main/java/com/googlecode/jsonrpc4j/spring/AutoJsonRpcServiceExporter.java:147-148 | a parent entry whose bean name is a child path is dropped, although its own path is free |
| ServiceExporter.FindServiceBeans | src/main/java/com/googlecode/jsonrpc4j/spring/AutoJsonRpcServiceExporter.java:100-121 | paths are unique; an unloadable claiming class fails; without a parent, each path belongs to the first bean that claims it |
| ServiceExporter.FindBeanDefinition | src/main/java/com/googlecode/jsonrpc4j/spring/AutoJsonRpcServiceExporter.java:237-243 | the local definition when the factory itself has the name; otherwise the definition of the nearest ancestor that has it; nothing (the source throws) exactly when no factory on the parent chain has it |
| ServiceExporter.RegisterAll | src/main/java/com/googlecode/jsonrpc4j/spring/AutoJsonRpcServiceExporter.java:171-199 | one registration per entry, under `addPrefixAndDistinct(path)` (the same function the client uses), referring to the entry's bean with its first annotated interface; fails exactly when some entry's bean is gone or its class cannot be loaded |
| ServiceExporter.PostProcessBeanFactory | src/main/java/com/googlecode/jsonrpc4j/spring/AutoJsonRpcServiceExporter.java:168-174 | exactly one registration per entry of the path map, under the prefixed path, for that entry's bean |
| ClientProxyCreator.ResolvePackageToScan | src/main/java/com/googlecode/jsonrpc4j/spring/AutoJsonRpcClientProxyCreator.java:86-88 | the pattern is "classpath:", then the package with every `.` as `/`, then "/**/*.class" |
| ClientProxyCreator.ProxyPath | src/main/java/com/googlecode/jsonrpc4j/spring/AutoJsonRpcClientProxyCreator.java:68-72 | the annotation value, or `className2Path(className)` when it is empty |
| ClientProxyCreator.RegisterJsonProxyBean | src/main/java/com/googlecode/jsonrpc4j/spring/AutoJsonRpcClientProxyCreator.java:93-125 | the bean is named className + "-clientProxy"; with an empty service id the URL is the base URL resolved against the path and no service id is set, otherwise the service id is set and the URL is the raw path; mapper and content type are copied only when non-null; fails exactly when URL resolution fails |
| ClientProxyCreator.ScanResources | src/main/java/com/googlecode/jsonrpc4j/spring/AutoJsonRpcClientProxyCreator.java:60-77 | unreadable resources and unannotated classes are skipped; every annotated class yields its proxy definition, in order; fails exactly when some readable resource cannot be read or defined |
| ClientProxyCreator.PostProcessBeanFactory | src/main/java/com/googlecode/jsonrpc4j/spring/AutoJsonRpcClientProxyCreator.java:54-81 | a failed listing fails with the scan pattern; on success there is one definition per annotated class, and each bean name ends in "-clientProxy" |
| ProxyFactoryBean.ResolveObjectMapper | src/main/java/com/googlecode/jsonrpc4j/spring/JsonProxyFactoryBean.java:73-85 | an explicit mapper is kept; a fresh one is made exactly when no mapper is available |
| ProxyFactoryBean.ObjectMapperPrecedence | src/main/java/com/googlecode/jsonrpc4j/spring/JsonProxyFactoryBean.java:73-85 | the mapper is the first available of: the explicit one, the bean named "objectMapper", a bean of the type; a fresh one otherwise |
| ProxyFactoryBean.AfterPropertiesSet | src/main/java/com/googlecode/jsonrpc4j/spring/JsonProxyFactoryBean.java:69-107 | the client gets the resolved mapper, `extraHttpHeaders` as its default headers, and the SSL settings; with an empty service id only the parsed static URL is set, otherwise the load balancer, service id, service path = service URL and the tracer; the content type is overridden only when set; fails exactly when a static URL is malformed |
| ProxyFactoryBean.DispatchCall | src/main/java/com/googlecode/jsonrpc4j/spring/JsonProxyFactoryBean.java:130-141 | exactly `Object.toString` is answered locally, as class name + "@" + identity hash; every other method is forwarded with its name, parsed arguments, generic (else raw) return type and `extraHttpHeaders` |
| ProxyFactoryBean.InvokeProxy | src/main/java/com/googlecode/jsonrpc4j/spring/JsonProxyFactoryBean.java:130-141 | `Object.toString` is answered locally; a forwarded call is traced with the marshalled arguments as its "params" tag, and every header of `extraHttpHeaders` reaches the connection with its own value |
| ProxyFactoryBean.ToStringStaysLocal | src/main/java/com/googlecode/jsonrpc4j/spring/JsonProxyFactoryBean.java:133-135 | `Object.toString` gives the same local answer whatever the network would do |
| PathChain.FactoryPropsOf | src/main/java/com/googlecode/jsonrpc4j/spring/AutoJsonRpcClientProxyCreator.java:94-111 | the factory bean carries the proxy definition's interface, URL, service id, mapper and content type, and empty extra headers |
| PathChain.ClientFor | src/main/java/com/googlecode/jsonrpc4j/spring/AutoJsonRpcClientProxyCreator.java:93-113 | without a service id a client exists exactly when the base URL and the interface's path combine into a URL that parses, and it calls that URL untraced; with one a client always exists, with the interface's path as service path, the load balancer and the tracer; it has no default headers, the resolved mapper, and the configured or default content type |
| PathChain.DiscoveryPathChain | src/main/java/com/googlecode/jsonrpc4j/spring/JsonProxyFactoryBean.java:94-99 | with a service id the client is always built, its service path is the interface's path, it is traced, and each call resolves context path + prefixed path against the chosen instance |
| PathChain.StaticPathChain | src/main/java/com/googlecode/jsonrpc4j/spring/JsonProxyFactoryBean.java:92-93 | without a service id each call goes to the parsed base-URL-plus-path, whatever the load balancer answers |
| PathChain.StaticModeIsUntraced | src/main/java/com/googlecode/jsonrpc4j/JsonRpcHttpClient.java:151-158 | a client built without a service id starts and closes no span, and sends the "not sampled" header under the call's extras |
| PathChain.ForwardedExtrasWin | src/main/java/com/googlecode/jsonrpc4j/spring/JsonProxyFactoryBean.java:137-140 | every header in `extraHttpHeaders` reaches the connection of a forwarded call with its own value |
| PathChain.ClientAndServerAgreeOnPath | src/main/java/com/googlecode/jsonrpc4j/spring/AutoJsonRpcServiceExporter.java:109-113 | a bean implementing an annotated interface is exported under the same path a client proxy of that interface uses |
| PathChain.RequestedPathIsExportedName | src/main/java/com/googlecode/jsonrpc4j/spring/AutoJsonRpcServiceExporter.java:171-173 | a discovery client of the interface requests the instance's context path followed by exactly the bean name the exporter registers the implementing bean under |

## Left out

- Real HTTP I/O is not modelled. This covers `openConnection`, `connect`, the request and response streams, gzip decompression, SSL contexts and hostname verifiers. Their outcomes are inputs (`IoScript`): whether opening or connecting throws, whether the connection is HTTPS, the `Content-Encoding` header, what each stream read yields for a given gzip flag, and the error-stream characters or the absence of an error stream.
- `getStream` is the gzip flag handed to the stream-read inputs. Decompression itself is not modelled.
- The JSON-RPC codec is an input. `super.invoke` writing the request and `super.readResponse` decoding a stream are outcomes; `JSONUtil.toJSON` of a tag is the tagged value itself.
- `Util.addPrefixAndDistinct` is not part of this model. It is one function parameter, of type `PrefixAndDistinct`, with no assumed behaviour. The exporter and the client receive the same function.
- `new URL(base, spec)` and `new URL(spec)` are function parameters. They return the URL's text or `None` for `MalformedURLException`.
- Spring machinery is modelled as data. Bean factories, metadata readers and class loading become bean definitions that carry their annotation value and first annotated interface. Resource scanning becomes a list of resources. A listing that throws becomes `None`.
- HttpClient.Invoke: the span `tracer.createSpan(serviceId)` creates is an input (`IoScript.newSpan`). Its name is not tied to the client's service id, and its ids are not tied to the tracer's state.
- Sleuth's `Tracer` and `Span` are reduced to what the headers carry. `inject` only logs, and `joinTrace` always returns `null`, so neither is modelled.
- HexId.HexRoundTrip: Sleuth's `Span.idToHex`/`Span.hexToId` are not part of this model. A fixed-width sixteen-digit two's-complement codec, proved bijective, stands in for them. This codec accepts exactly sixteen lower-case hexadecimal digits; Sleuth's codec may accept other forms, which are not modelled.
- The process-wide statics `servicePackages` and `loadBalancerClient` are explicit parameters. Thread safety of the header map is not modelled.
- Logging, `Util.main` and `hasScanPackages` are left out because they only log.
- A `null` class name given to `className2Path`, and a `null` scan package, are left out. The source throws for both, and the model takes a non-null string.
- The iteration order of a `HashMap` is modelled as insertion order. `RegisterAll` and `PostProcessBeanFactory` follow that order, where the program follows the map's hash order. The order decides three things. It decides the outcome of the parent merge when a bean name equals a path. It decides the order of the exporter's `registerBeanDefinition` calls. And when several entries cannot be registered, it decides which entry's exception surfaces; the model reports the first failing entry in insertion order. Exporter definitions registered during the loop are not added to the factory, so a later `findBeanDefinition` never sees them (see the line on registrations below).
- Request properties are keyed by exact header name. The JDK's header store compares names ignoring case, which is not modelled.
- A stream close that throws anything other than an `IOException` after a value was decoded is not modelled. A JDK input stream's `close` only throws `IOException`.
- HttpClient.UseGzip: `equalsIgnoreCase` is modelled for ASCII letters and the dotted and dotless `i`. These are the only characters that can fold to a letter of "gzip".
- A service URL whose connection is not an `HttpURLConnection` is not modelled. The source would throw a `ClassCastException`.
- The `requestListener`, and the exporter's pass-through bean properties, are left out. The pass-through properties are `objectMapper`, `errorResolver`, `invocationListener`, `registerTraceInterceptor`, `httpStatusCodeProvider`, `convertedParameterTransformer` and the boolean flags. All of them are copied unchanged.
- Two definitions registered under one bean name are not modelled: registrations are listed rather than stored in a factory. The same applies to the partial registrations that remain after a scan aborts.
- `UrlBasedRemoteAccessor.afterPropertiesSet` (a required `serviceUrl`) and `ProxyFactory.getProxy` are left out. The service URL is a non-null string.
- ProxyFactoryBean.DispatchCall: the identity hash code is an input, already written in decimal.
