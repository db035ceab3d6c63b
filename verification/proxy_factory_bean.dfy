/** `JsonProxyFactoryBean`: builds the `JsonRpcHttpClient` behind a proxy of a
    service interface, and turns each call on the proxy into a JSON-RPC call. */
module ProxyFactoryBean {
  import opened Common
  import HttpClient

  const ObjectMapperBeanName: string := "objectMapper"

  /** The application context, as far as the mapper lookup sees it: the bean
      named "objectMapper" if there is one, and the single `ObjectMapper`
      bean found by type (`None` when there is none or the lookup throws). */
  datatype AppContext = AppContext(namedMapper: Option<Ref>, mapperOfType: Option<Ref>)

  /** The factory bean's properties. */
  datatype FactoryBeanProps = FactoryBeanProps(
    serviceInterface: string,
    serviceUrl: string,
    serviceId: NullableString,
    objectMapper: Option<Ref>,
    extraHttpHeaders: Headers,
    contentType: NullableString,
    sslContext: Option<Ref>,
    hostNameVerifier: Option<Ref>,
    tracer: Option<Ref>)

  /** `afterPropertiesSet` wraps the `MalformedURLException` of a static
      service URL in a `RuntimeException`. */
  datatype FactoryError = MalformedServiceUrl(url: string)

  /** The first present value of a sequence of lookups. */
  function FirstSome(lookups: seq<Option<Ref>>): (r: Option<Ref>)
    ensures r.None? <==> forall i :: 0 <= i < |lookups| ==> lookups[i].None?
    ensures r.Some? ==> exists i :: 0 <= i < |lookups| && lookups[i] == r
                          && forall j :: 0 <= j < i ==> lookups[j].None?
  {
    if lookups == [] then None
    else if lookups[0].Some? then lookups[0]
    else
      var r := FirstSome(lookups[1..]);
      assert forall i :: 1 <= i < |lookups| ==> lookups[1..][i - 1] == lookups[i];
      r
  }

  /** The mapper lookups in the order `afterPropertiesSet` tries them: the
      explicit property, the bean named "objectMapper", a bean of type
      `ObjectMapper`. Without an application context only the first applies. */
  function MapperLookups(explicit: Option<Ref>, ctx: Option<AppContext>): seq<Option<Ref>> {
    match ctx
    case None => [explicit]
    case Some(c) => [explicit, c.namedMapper, c.mapperOfType]
  }

  /** The mapper the client gets, step by step as `afterPropertiesSet` decides it. */
  function ResolveObjectMapper(explicit: Option<Ref>, ctx: Option<AppContext>): (m: HttpClient.Mapper)
    ensures explicit.Some? ==> m == HttpClient.SharedMapper(explicit.value)
    ensures m.FreshMapper? <==>
              explicit.None? && (ctx.None? || (ctx.value.namedMapper.None? && ctx.value.mapperOfType.None?))
  {
    var mapper := explicit;
    var mapper := if mapper.None? && ctx.Some? && ctx.value.namedMapper.Some? then ctx.value.namedMapper else mapper;
    var mapper := if mapper.None? && ctx.Some? then ctx.value.mapperOfType else mapper;
    if mapper.None? then HttpClient.FreshMapper else HttpClient.SharedMapper(mapper.value)
  }

  /** Mapper precedence: the first available of the explicit value, the bean
      named "objectMapper" and a bean of the type wins, and only when none is
      available is a fresh mapper constructed. */
  lemma {:induction false} ObjectMapperPrecedence(explicit: Option<Ref>, ctx: Option<AppContext>)
    ensures ResolveObjectMapper(explicit, ctx) ==
              match FirstSome(MapperLookups(explicit, ctx))
              case None => HttpClient.FreshMapper
              case Some(r) => HttpClient.SharedMapper(r)
  {
    var lookups := MapperLookups(explicit, ctx);
    if ctx.Some? {
      var rest := [ctx.value.namedMapper, ctx.value.mapperOfType];
      assert lookups[1..] == rest;
      assert rest[1..] == [ctx.value.mapperOfType];
      assert FirstSome([ctx.value.mapperOfType]) == ctx.value.mapperOfType;
      assert FirstSome(rest) == if rest[0].Some? then rest[0] else FirstSome(rest[1..]);
    }
  }

  /** `afterPropertiesSet`. The client gets the resolved mapper and
      `extraHttpHeaders` as its default headers, and the SSL context and
      hostname verifier as they are. Without a service id only the static
      URL is set (parsed by `parseUrl`, `new URL(spec)`); with one, the load
      balancer, the service id, the service URL as the service path, and the
      tracer are set instead. The content type is overridden only when set. */
  function AfterPropertiesSet(p: FactoryBeanProps, ctx: Option<AppContext>, loadBalancer: Option<Ref>,
                              parseUrl: string -> Option<string>)
    : (r: Result<HttpClient.ClientConfig, FactoryError>)
    ensures r.Err? <==> IsEmpty(p.serviceId) && parseUrl(p.serviceUrl).None?
    ensures r.Err? ==> r.error == MalformedServiceUrl(p.serviceUrl)
    ensures r.Ok? ==>
              var c := r.value;
              && c.mapper == ResolveObjectMapper(p.objectMapper, ctx)
              && c.headers == p.extraHttpHeaders
              && c.sslContext == p.sslContext && c.hostNameVerifier == p.hostNameVerifier
              && c.contentType == (if p.contentType.Some? then p.contentType else Some(HttpClient.JsonRpcContentType))
              && c.connectionTimeoutMillis == 60000 && c.readTimeoutMillis == 120000
              && c.proxy == HttpClient.NoProxy
    ensures r.Ok? && IsEmpty(p.serviceId) ==>
              var c := r.value;
              && c.serviceUrl == parseUrl(p.serviceUrl)
              && c.loadBalancer.None? && c.serviceId.None? && c.servicePath.None? && c.tracer.None?
    ensures r.Ok? && !IsEmpty(p.serviceId) ==>
              var c := r.value;
              && c.serviceUrl.None?
              && c.loadBalancer == loadBalancer && c.serviceId == p.serviceId
              && c.servicePath == Some(p.serviceUrl) && c.tracer == p.tracer
  {
    var client := HttpClient.NewClient(ResolveObjectMapper(p.objectMapper, ctx), None, p.extraHttpHeaders);
    var client := client.(sslContext := p.sslContext, hostNameVerifier := p.hostNameVerifier);
    var wired :=
      if IsEmpty(p.serviceId) then
        match parseUrl(p.serviceUrl)
        case None => Err(MalformedServiceUrl(p.serviceUrl))
        case Some(url) => Ok(client.(serviceUrl := Some(url)))
      else
        Ok(client.(loadBalancer := loadBalancer, serviceId := p.serviceId,
                   servicePath := Some(p.serviceUrl), tracer := p.tracer));
    match wired
    case Err(e) => Err(e)
    case Ok(c) => Ok(if p.contentType.Some? then c.(contentType := p.contentType) else c)
  }

  /** The reflective view of an intercepted method. */
  datatype Method = Method(declaringClass: string, name: string, genericReturnType: Option<JavaType>, returnType: JavaType)

  const ObjectClassName: string := "java.lang.Object"

  /** The proxy object's class name and its identity hash code in decimal. */
  datatype ProxyIdentity = ProxyIdentity(className: string, identityHash: string)

  /** What `invoke` does with an intercepted call: answer it locally, or
      forward it to the client. */
  datatype Dispatch = Answered(text: string) | Forwarded(call: HttpClient.Call)

  /** True for `Object.toString` itself, not for a `toString` an interface declares. */
  predicate IsObjectToString(m: Method) {
    m.declaringClass == ObjectClassName && m.name == "toString"
  }

  /** `invoke`, up to the client call. `Object.toString` is answered with the
      proxy's class name, "@" and its identity hash; every other method is
      forwarded with its name, the arguments as `parseArguments` marshals
      them, its generic return type (the raw one when there is none) and the
      factory's `extraHttpHeaders` as the per-call headers. */
  function DispatchCall(p: FactoryBeanProps, identity: ProxyIdentity, m: Method, args: seq<JavaObject>,
                        parseArguments: (Method, seq<JavaObject>) -> Option<JavaObject>)
    : (d: Dispatch)
    ensures d.Answered? <==> IsObjectToString(m)
    ensures d.Answered? ==> d.text == identity.className + "@" + identity.identityHash
    ensures d.Forwarded? ==>
              && d.call.methodName == m.name
              && d.call.argument == parseArguments(m, args)
              && d.call.returnType == Some(if m.genericReturnType.Some? then m.genericReturnType.value else m.returnType)
              && d.call.extraHeaders == p.extraHttpHeaders
  {
    if IsObjectToString(m) then Answered(identity.className + "@" + identity.identityHash)
    else
      var retType := if m.genericReturnType.Some? then m.genericReturnType.value else m.returnType;
      Forwarded(HttpClient.Call(m.name, parseArguments(m, args), Some(retType), p.extraHttpHeaders))
  }

  /** The outcome of a call on the proxy: the local answer, or the client's invocation. */
  datatype ProxyAnswer = LocalAnswer(text: string) | RemoteAnswer(invocation: HttpClient.Invocation)

  /** `invoke` including the client call it forwards to. A forwarded call is
      traced with the marshalled arguments as its "params" tag, and every
      one of the factory's `extraHttpHeaders` reaches the connection with its
      own value, whatever the client's default headers, content type or span
      headers say. */
  function InvokeProxy(p: FactoryBeanProps, client: HttpClient.ClientConfig, env: HttpClient.Env,
                       identity: ProxyIdentity, m: Method, args: seq<JavaObject>,
                       parseArguments: (Method, seq<JavaObject>) -> Option<JavaObject>,
                       io: HttpClient.IoScript)
    : (a: ProxyAnswer)
    ensures a.LocalAnswer? <==> IsObjectToString(m)
    ensures a.LocalAnswer? ==> a.text == identity.className + "@" + identity.identityHash
    ensures a.RemoteAnswer? ==>
              a.invocation.effects.paramsTag == if client.tracer.Some? then Some(parseArguments(m, args)) else None
    ensures a.RemoteAnswer? && a.invocation.effects.connection.Some? ==>
              var props := a.invocation.effects.connection.value.requestProperties;
              forall k :: k in p.extraHttpHeaders ==> k in props && props[k] == p.extraHttpHeaders[k]
  {
    match DispatchCall(p, identity, m, args, parseArguments)
    case Answered(text) => LocalAnswer(text)
    case Forwarded(call) =>
      var inv := HttpClient.Invoke(client, env, call, io);
      assert inv.effects.connection.Some? ==>
               var props := inv.effects.connection.value.requestProperties;
               forall k :: k in p.extraHttpHeaders ==> k in props && props[k] == p.extraHttpHeaders[k]
      by {
        if inv.effects.connection.Some? {
          forall k | k in p.extraHttpHeaders
            ensures k in inv.effects.connection.value.requestProperties
            ensures inv.effects.connection.value.requestProperties[k] == p.extraHttpHeaders[k]
          {
            HttpClient.AppliedHeaderPrecedence(client, env, call, io, k);
          }
        }
      }
      RemoteAnswer(inv)
  }

  /** `Object.toString` never reaches the network: whatever the network
      would answer, the proxy answers the same text and opens no connection. */
  lemma ToStringStaysLocal(p: FactoryBeanProps, client: HttpClient.ClientConfig, env: HttpClient.Env,
                           identity: ProxyIdentity, m: Method, args: seq<JavaObject>,
                           parseArguments: (Method, seq<JavaObject>) -> Option<JavaObject>,
                           io1: HttpClient.IoScript, io2: HttpClient.IoScript)
    requires IsObjectToString(m)
    ensures InvokeProxy(p, client, env, identity, m, args, parseArguments, io1)
         == InvokeProxy(p, client, env, identity, m, args, parseArguments, io2)
         == LocalAnswer(identity.className + "@" + identity.identityHash)
  {
  }
}
