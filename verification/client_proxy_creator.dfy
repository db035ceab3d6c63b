/** `AutoJsonRpcClientProxyCreator`: scan a package for interfaces annotated
    with `@JsonRpcService` and define one client proxy bean per interface. The
    classpath scan itself is an input: the resources found, in order. */
module ClientProxyCreator {
  import opened Common
  import Util

  /** `ResourceUtils.CLASSPATH_URL_PREFIX`. */
  const ClasspathUrlPrefix: string := "classpath:"
  const ClassFilePattern: string := "/**/*.class"
  const ProxyBeanSuffix: string := "-clientProxy"

  /** The creator's properties. */
  datatype CreatorConfig = CreatorConfig(
    scanPackage: string,
    baseUrl: NullableString,
    objectMapper: Option<Ref>,
    contentType: NullableString,
    serviceId: NullableString)

  /** What the metadata reader tells about a class: its name and the `value`
      of its `@JsonRpcService` annotation (`None` when not annotated). */
  datatype ClassMetadata = ClassMetadata(className: string, service: Option<string>)

  /** A resource found by the scan: whether it is readable, and its metadata
      (`None` when reading it throws an `IOException`). */
  datatype Resource = Resource(readable: bool, metadata: Option<ClassMetadata>)

  datatype CreatorError =
    | CannotScan(pattern: string)
    | CannotCombineUrls(baseUrl: NullableString, path: string)

  /** A `JsonProxyFactoryBean` definition. A property that is not set is `None`. */
  datatype ProxyDefinition = ProxyDefinition(
    beanName: string,
    serviceInterface: string,
    serviceUrl: string,
    serviceId: Option<string>,
    objectMapper: Option<Ref>,
    contentType: Option<string>)

  /** `resolvePackageToScan`: the `classpath:` pattern of every class file
      under the package, with the package's dots turned into slashes. */
  function ResolvePackageToScan(scanPackage: string): (pattern: string)
    ensures |pattern| == |ClasspathUrlPrefix| + |scanPackage| + |ClassFilePattern|
    ensures pattern[..|ClasspathUrlPrefix|] == ClasspathUrlPrefix
    ensures pattern[|pattern| - |ClassFilePattern|..] == ClassFilePattern
    ensures forall i :: 0 <= i < |scanPackage| ==>
              pattern[|ClasspathUrlPrefix| + i] == (if scanPackage[i] == '.' then '/' else scanPackage[i])
  {
    var middle := Util.ClassName2Path(scanPackage);
    var pattern := ClasspathUrlPrefix + middle + ClassFilePattern;
    assert pattern[..|ClasspathUrlPrefix|] == ClasspathUrlPrefix;
    assert pattern[|pattern| - |ClassFilePattern|..] == ClassFilePattern;
    pattern
  }

  /** The path of an annotated interface: the annotation value, or
      `className2Path` of the class name when the value is empty. */
  function ProxyPath(meta: ClassMetadata): (path: string)
    requires meta.service.Some?
    ensures meta.service.value != "" ==> path == meta.service.value
    ensures meta.service.value == "" ==> path == Util.ClassName2Path(meta.className)
  {
    if IsEmpty(meta.service) then Util.ClassName2Path(meta.className) else meta.service.value
  }

  /** `registerJsonProxyBean`. Without a service id the service URL is the
      base URL resolved against the path and no service id is set; with one,
      the service id is set and the service URL is the raw path. The object
      mapper and the content type are set only when non-null, and the bean is
      always named after the interface with the "-clientProxy" suffix. */
  function RegisterJsonProxyBean(cfg: CreatorConfig, className: string, path: string, resolve: UrlResolver)
    : (r: Result<ProxyDefinition, CreatorError>)
    ensures r.Err? <==> IsEmpty(cfg.serviceId) && resolve(cfg.baseUrl, path).None?
    ensures r.Ok? ==>
              var d := r.value;
              && d.beanName == className + "-clientProxy"
              && d.serviceInterface == className
              && (IsEmpty(cfg.serviceId) ==> d.serviceId.None? && Some(d.serviceUrl) == resolve(cfg.baseUrl, path))
              && (!IsEmpty(cfg.serviceId) ==> d.serviceId == cfg.serviceId && d.serviceUrl == path)
              && d.objectMapper == cfg.objectMapper
              && d.contentType == cfg.contentType
  {
    var url :=
      if IsEmpty(cfg.serviceId) then
        match resolve(cfg.baseUrl, path)
        case None => Err(CannotCombineUrls(cfg.baseUrl, path))
        case Some(u) => Ok(u)
      else Ok(path);
    match url
    case Err(e) => Err(e)
    case Ok(u) =>
      Ok(ProxyDefinition(className + ProxyBeanSuffix, className, u,
                         if IsEmpty(cfg.serviceId) then None else cfg.serviceId,
                         cfg.objectMapper, cfg.contentType))
  }

  /** The interfaces the scan turns into proxies: readable resources whose
      class is annotated, in scan order. */
  function Annotated(resources: seq<Resource>): (metas: seq<ClassMetadata>)
    ensures forall m :: m in metas ==> m.service.Some?
  {
    if resources == [] then []
    else
      var r := resources[0];
      if r.readable && r.metadata.Some? && r.metadata.value.service.Some? then
        [r.metadata.value] + Annotated(resources[1..])
      else Annotated(resources[1..])
  }

  /** A resource whose processing throws: it is readable and either its
      metadata cannot be read or it is annotated and its proxy cannot be
      defined. */
  predicate Fails(cfg: CreatorConfig, res: Resource, resolve: UrlResolver) {
    && res.readable
    && (|| res.metadata.None?
        || (&& res.metadata.value.service.Some?
            && RegisterJsonProxyBean(cfg, res.metadata.value.className, ProxyPath(res.metadata.value), resolve).Err?))
  }

  /** One iteration of the loop of `postProcessBeanFactory`: nothing for an
      unreadable resource or a class without the annotation, a proxy
      definition for an annotated class, or a failure. */
  function ProcessResource(cfg: CreatorConfig, res: Resource, resolve: UrlResolver)
    : (r: Result<Option<ProxyDefinition>, CreatorError>)
    ensures r.Err? <==> Fails(cfg, res, resolve)
    ensures r.Ok? ==> (r.value.None? <==> !(res.readable && res.metadata.Some? && res.metadata.value.service.Some?))
    ensures r.Ok? && r.value.Some? ==>
              RegisterJsonProxyBean(cfg, res.metadata.value.className, ProxyPath(res.metadata.value), resolve)
                == Ok(r.value.value)
  {
    if !res.readable then Ok(None)
    else match res.metadata
      case None => Err(CannotScan(ResolvePackageToScan(cfg.scanPackage)))
      case Some(meta) =>
        if meta.service.None? then Ok(None)
        else match RegisterJsonProxyBean(cfg, meta.className, ProxyPath(meta), resolve)
          case Err(e) => Err(e)
          case Ok(d) => Ok(Some(d))
  }

  /** The loop of `postProcessBeanFactory` over the resources. Unreadable
      resources and classes without the annotation are skipped; a metadata
      read failure or a failed definition aborts the scan. */
  function ScanResources(cfg: CreatorConfig, resources: seq<Resource>, resolve: UrlResolver)
    : (r: Result<seq<ProxyDefinition>, CreatorError>)
    ensures r.Err? <==> exists i :: 0 <= i < |resources| && Fails(cfg, resources[i], resolve)
    ensures r.Ok? ==>
              var metas := Annotated(resources);
              && |r.value| == |metas|
              && forall i :: 0 <= i < |metas| ==>
                   RegisterJsonProxyBean(cfg, metas[i].className, ProxyPath(metas[i]), resolve) == Ok(r.value[i])
    decreases |resources|
  {
    if resources == [] then Ok([])
    else
      var tail := resources[1..];
      assert forall i :: 1 <= i < |resources| ==> tail[i - 1] == resources[i];
      match ProcessResource(cfg, resources[0], resolve)
      case Err(e) => Err(e)
      case Ok(d) =>
        match ScanResources(cfg, tail, resolve)
        case Err(e) =>
          assert exists i :: 0 <= i < |tail| && Fails(cfg, tail[i], resolve);
          Err(e)
        case Ok(rest) =>
          assert Annotated(resources) == (if d.Some? then [resources[0].metadata.value] else []) + Annotated(tail);
          Ok(if d.Some? then [d.value] + rest else rest)
  }

  /** `postProcessBeanFactory`: list the resources under the scan pattern
      (`None` when listing throws an `IOException`) and define the proxies. */
  function PostProcessBeanFactory(cfg: CreatorConfig, listing: Option<seq<Resource>>, resolve: UrlResolver)
    : (r: Result<seq<ProxyDefinition>, CreatorError>)
    ensures listing.None? ==> r == Err(CannotScan(ResolvePackageToScan(cfg.scanPackage)))
    ensures r.Ok? ==> listing.Some? && |r.value| == |Annotated(listing.value)|
    ensures r.Ok? ==> forall d :: d in r.value ==>
                        |d.beanName| >= |ProxyBeanSuffix| && d.beanName[|d.beanName| - |ProxyBeanSuffix|..] == ProxyBeanSuffix
  {
    match listing
    case None => Err(CannotScan(ResolvePackageToScan(cfg.scanPackage)))
    case Some(resources) =>
      var r := ScanResources(cfg, resources, resolve);
      if r.Ok? then
        forall d | d in r.value
          ensures |d.beanName| >= |ProxyBeanSuffix| && d.beanName[|d.beanName| - |ProxyBeanSuffix|..] == ProxyBeanSuffix
        {
          var i :| 0 <= i < |r.value| && r.value[i] == d;
          var meta := Annotated(resources)[i];
          assert d.beanName == meta.className + ProxyBeanSuffix;
        }
        r
      else r
  }
}
