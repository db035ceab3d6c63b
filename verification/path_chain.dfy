/** How the pieces fit together: a `@JsonRpcService` annotation becomes a
    proxy definition, the definition's properties become a client, and the
    client's configuration decides the endpoint and the headers of each call. */
module PathChain {
  import opened Common
  import Util
  import SpanInjector
  import HttpClient
  import ServiceExporter
  import ClientProxyCreator
  import ProxyFactoryBean

  /** The factory bean Spring builds from a proxy definition: the properties
      the definition sets, and the declared defaults for the rest
      (`extraHttpHeaders` is an empty map). The tracer is autowired. */
  function FactoryPropsOf(d: ClientProxyCreator.ProxyDefinition, tracer: Option<Ref>): (p: ProxyFactoryBean.FactoryBeanProps)
    ensures p.serviceInterface == d.serviceInterface && p.serviceUrl == d.serviceUrl
    ensures p.serviceId == d.serviceId && p.objectMapper == d.objectMapper && p.contentType == d.contentType
    ensures p.extraHttpHeaders == map[] && p.tracer == tracer
  {
    ProxyFactoryBean.FactoryBeanProps(d.serviceInterface, d.serviceUrl, d.serviceId, d.objectMapper,
                                      map[], d.contentType, None, None, tracer)
  }

  /** The client a creator configuration builds for one annotated interface:
      without a service id it exists exactly when the base URL combines with
      the interface's path into a URL that parses, and it calls that URL
      untraced; with one it always exists and asks the load balancer for the
      interface's path, traced. Either way it has no default headers, the
      creator's mapper as resolved, and the creator's content type or the
      JSON-RPC default. */
  function ClientFor(cfg: ClientProxyCreator.CreatorConfig, meta: ClientProxyCreator.ClassMetadata,
                     resolve: UrlResolver, ctx: Option<ProxyFactoryBean.AppContext>, loadBalancer: Option<Ref>,
                     parseUrl: string -> Option<string>, tracer: Option<Ref>)
    : (r: Option<HttpClient.ClientConfig>)
    requires meta.service.Some?
    ensures var path := ClientProxyCreator.ProxyPath(meta);
            IsEmpty(cfg.serviceId) ==>
              && (r.Some? <==> resolve(cfg.baseUrl, path).Some? && parseUrl(resolve(cfg.baseUrl, path).value).Some?)
              && (r.Some? ==>
                    && r.value.serviceUrl == parseUrl(resolve(cfg.baseUrl, path).value)
                    && r.value.serviceId.None? && r.value.loadBalancer.None? && r.value.tracer.None?)
    ensures !IsEmpty(cfg.serviceId) ==>
              && r.Some?
              && r.value.serviceUrl.None?
              && r.value.serviceId == cfg.serviceId
              && r.value.servicePath == Some(ClientProxyCreator.ProxyPath(meta))
              && r.value.loadBalancer == loadBalancer && r.value.tracer == tracer
    ensures r.Some? ==>
              && r.value.headers == map[]
              && r.value.mapper == ProxyFactoryBean.ResolveObjectMapper(cfg.objectMapper, ctx)
              && r.value.contentType == (if cfg.contentType.Some? then cfg.contentType else Some(HttpClient.JsonRpcContentType))
  {
    match ClientProxyCreator.RegisterJsonProxyBean(cfg, meta.className, ClientProxyCreator.ProxyPath(meta), resolve)
    case Err(_) => None
    case Ok(d) =>
      match ProxyFactoryBean.AfterPropertiesSet(FactoryPropsOf(d, tracer), ctx, loadBalancer, parseUrl)
      case Err(_) => None
      case Ok(c) => Some(c)
  }

  /** Discovery mode end to end: with a service id, the client always gets
      built, its service path is the interface's path (the annotation value,
      or the class name with slashes), and each call goes to that path,
      prefixed and placed after the instance's context path, resolved against
      the URI of the instance the load balancer chose. */
  lemma DiscoveryPathChain(cfg: ClientProxyCreator.CreatorConfig, meta: ClientProxyCreator.ClassMetadata,
                           resolve: UrlResolver, ctx: Option<ProxyFactoryBean.AppContext>, loadBalancer: Option<Ref>,
                           parseUrl: string -> Option<string>, tracer: Option<Ref>,
                           env: HttpClient.Env, chosen: HttpClient.Instance)
    requires meta.service.Some? && !IsEmpty(cfg.serviceId) && loadBalancer.Some?
    ensures var c := ClientFor(cfg, meta, resolve, ctx, loadBalancer, parseUrl, tracer);
            && c.Some?
            && c.value.servicePath == Some(ClientProxyCreator.ProxyPath(meta))
            && c.value.serviceId == cfg.serviceId
            && c.value.tracer == tracer
            && HttpClient.GetServiceUrl(c.value, env, Some(chosen)) ==
                 var contextPath := GetStringOr(chosen.metadata, HttpClient.ContextPathKey, Some(""));
                 var spec := contextPath.value + env.addPrefixAndDistinct(Some(ClientProxyCreator.ProxyPath(meta)));
                 match env.resolveUrl(Some(chosen.uri), spec)
                 case None => Err(HttpClient.MalformedUrl)
                 case Some(url) => Ok(Some(url))
  {
  }

  /** Static mode end to end: without a service id, a call goes to the base
      URL resolved against the interface's path, whatever the load balancer
      would answer. */
  lemma StaticPathChain(cfg: ClientProxyCreator.CreatorConfig, meta: ClientProxyCreator.ClassMetadata,
                        resolve: UrlResolver, ctx: Option<ProxyFactoryBean.AppContext>, loadBalancer: Option<Ref>,
                        parseUrl: string -> Option<string>, tracer: Option<Ref>,
                        env: HttpClient.Env, chosen: Option<HttpClient.Instance>)
    requires meta.service.Some? && IsEmpty(cfg.serviceId)
    requires resolve(cfg.baseUrl, ClientProxyCreator.ProxyPath(meta)).Some?
    requires parseUrl(resolve(cfg.baseUrl, ClientProxyCreator.ProxyPath(meta)).value).Some?
    ensures var c := ClientFor(cfg, meta, resolve, ctx, loadBalancer, parseUrl, tracer);
            && c.Some?
            && HttpClient.GetServiceUrl(c.value, env, chosen) ==
                 Ok(parseUrl(resolve(cfg.baseUrl, ClientProxyCreator.ProxyPath(meta)).value))
  {
  }

  /** Tracing is wired only in discovery mode: a client built without a
      service id starts no span, so every call carries the "not sampled"
      marker (unless the call's own headers replace it) and closes no span. */
  lemma StaticModeIsUntraced(p: ProxyFactoryBean.FactoryBeanProps, ctx: Option<ProxyFactoryBean.AppContext>,
                             loadBalancer: Option<Ref>, parseUrl: string -> Option<string>,
                             env: HttpClient.Env, call: HttpClient.Call, io: HttpClient.IoScript)
    requires IsEmpty(p.serviceId) && parseUrl(p.serviceUrl).Some?
    ensures var c := ProxyFactoryBean.AfterPropertiesSet(p, ctx, loadBalancer, parseUrl);
            && c.Ok?
            && HttpClient.RequestHeaders(c.value, call, io) ==
                 map[SpanInjector.SampledName := Some(SpanInjector.SpanNotSampled)] + call.extraHeaders
            && HttpClient.Invoke(c.value, env, call, io).effects.spanStarted.None?
            && !HttpClient.Invoke(c.value, env, call, io).effects.spanClosed
  {
  }

  /** A call forwarded by the proxy carries the factory's `extraHttpHeaders`
      both as the client's default headers and as the per-call extras, so on
      the connection every one of them has its own value, over the content
      type and the span headers alike. */
  lemma ForwardedExtrasWin(p: ProxyFactoryBean.FactoryBeanProps, ctx: Option<ProxyFactoryBean.AppContext>,
                           loadBalancer: Option<Ref>, parseUrl: string -> Option<string>,
                           env: HttpClient.Env, identity: ProxyFactoryBean.ProxyIdentity,
                           m: ProxyFactoryBean.Method, args: seq<JavaObject>,
                           parseArguments: (ProxyFactoryBean.Method, seq<JavaObject>) -> Option<JavaObject>,
                           io: HttpClient.IoScript, key: string)
    requires ProxyFactoryBean.AfterPropertiesSet(p, ctx, loadBalancer, parseUrl).Ok?
    requires !ProxyFactoryBean.IsObjectToString(m)
    requires key in p.extraHttpHeaders
    ensures var c := ProxyFactoryBean.AfterPropertiesSet(p, ctx, loadBalancer, parseUrl).value;
            var a := ProxyFactoryBean.InvokeProxy(p, c, env, identity, m, args, parseArguments, io);
            && a.RemoteAnswer?
            && (a.invocation.effects.connection.Some? ==>
                  && key in a.invocation.effects.connection.value.requestProperties
                  && a.invocation.effects.connection.value.requestProperties[key] == p.extraHttpHeaders[key])
  {
    var c := ProxyFactoryBean.AfterPropertiesSet(p, ctx, loadBalancer, parseUrl).value;
    var call := ProxyFactoryBean.DispatchCall(p, identity, m, args, parseArguments).call;
    if HttpClient.Invoke(c, env, call, io).effects.connection.Some? {
      HttpClient.AppliedHeaderPrecedence(c, env, call, io, key);
    }
  }

  /** The client and the server derive the same path from the same
      annotation: a bean implementing an interface annotated with value `v`
      is exported under the path a client proxy of that interface uses, both
      when `v` is set and when it is empty and the path comes from the
      interface's class name. */
  lemma ClientAndServerAgreeOnPath(b: ServiceExporter.BeanDef, meta: ClientProxyCreator.ClassMetadata)
    requires b.service.Some? && b.service == meta.service
    requires b.interfaces == ServiceExporter.Loaded(Some(meta.className))
    ensures ServiceExporter.ServicePath(b) == Some(ClientProxyCreator.ProxyPath(meta))
  {
  }

  /** The exporter registers the bean under `addPrefixAndDistinct` of its
      path, and a discovery client of the interface requests exactly that
      name after the instance's context path: both sides prefix the same
      path with the same function. */
  lemma RequestedPathIsExportedName(b: ServiceExporter.BeanDef, cfg: ClientProxyCreator.CreatorConfig,
                                    meta: ClientProxyCreator.ClassMetadata, resolve: UrlResolver,
                                    ctx: Option<ProxyFactoryBean.AppContext>, loadBalancer: Option<Ref>,
                                    parseUrl: string -> Option<string>, tracer: Option<Ref>,
                                    f: ServiceExporter.BeanFactory, env: HttpClient.Env,
                                    instance: HttpClient.Instance)
    requires b.service.Some? && b.service == meta.service
    requires b.interfaces == ServiceExporter.Loaded(Some(meta.className))
    requires !IsEmpty(cfg.serviceId)
    requires ServiceExporter.RegisterAll(f, [ServiceExporter.Entry(ServiceExporter.ServicePath(b).value, b.name)],
                                         env.addPrefixAndDistinct).Ok?
    ensures var regs := ServiceExporter.RegisterAll(f, [ServiceExporter.Entry(ServiceExporter.ServicePath(b).value, b.name)],
                                                    env.addPrefixAndDistinct).value;
            var c := ClientFor(cfg, meta, resolve, ctx, loadBalancer, parseUrl, tracer).value;
            HttpClient.InstancePath(c, env, instance) ==
              GetStringOr(instance.metadata, HttpClient.ContextPathKey, Some("")).value + regs[0].beanName
  {
    ClientAndServerAgreeOnPath(b, meta);
  }
}
