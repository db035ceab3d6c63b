/** `AutoJsonRpcServiceExporter`: which beans of a bean factory (and its
    ancestors) are exported as JSON-RPC services, under which paths. A bean
    factory is plain data here: its bean definitions in registration order and
    an optional parent. */
module ServiceExporter {
  import opened Common
  import Util

  /** What `getBeanInterfaces` finds for a bean class: the name of the first
      interface carrying `@JsonRpcService` (if any), or a class that cannot be
      loaded. */
  datatype Interfaces = Loaded(firstAnnotated: Option<string>) | ClassNotFound

  /** A bean definition: its name, its class name (possibly `null`), the
      value of its `@JsonRpcService` annotation (`None` when it has none), and
      its class's interfaces. */
  datatype BeanDef = BeanDef(name: string, className: NullableString, service: Option<string>, interfaces: Interfaces)

  /** A configurable listable bean factory. A parent of any other kind is `None`. */
  datatype BeanFactory = BeanFactory(beans: seq<BeanDef>, parent: Option<BeanFactory>)

  datatype ExportError = BeanClassNotFound(className: NullableString) | BeanNoLongerFound(beanName: string)

  // ---------------------------------------------------------------------
  // Package filter

  /** Position `k` ends a package prefix of `name`: `name[..k]` is the whole
      name or stops just before a dot. */
  predicate PrefixEnd(name: string, k: int) {
    0 <= k <= |name| && (k == |name| || name[k] == '.')
  }

  /** The class name, or one of its prefixes ending before a dot, is a
      scanned package. */
  predicate InScannedPackage(name: string, packages: set<string>) {
    exists k :: 0 <= k <= |name| && PrefixEnd(name, k) && name[..k] in packages
  }

  /** When a bean class belongs to the exported packages: never for an empty or
      `null` class name; always when no package is configured. */
  predicate InPackage(className: NullableString, packages: set<string>) {
    !IsEmpty(className) && (packages == {} || InScannedPackage(className.value, packages))
  }

  /** `String.lastIndexOf(char)`. */
  function LastIndexOf(s: string, c: char): (i: int)
    ensures -1 <= i < |s|
    ensures i == -1 ==> forall j :: 0 <= j < |s| ==> s[j] != c
    ensures i >= 0 ==> s[i] == c && forall j :: i < j < |s| ==> s[j] != c
  {
    if |s| == 0 then -1
    else if s[|s| - 1] == c then |s| - 1
    else LastIndexOf(s[..|s| - 1], c)
  }

  /** `isInPackage`: strip the last dotted segment until what is left is a
      scanned package or has no dot. `packages` is the process-wide
      `servicePackages` set. */
  method IsInPackage(className: NullableString, packages: set<string>) returns (r: bool)
    ensures r <==> InPackage(className, packages)
  {
    if IsEmpty(className) {
      return false;
    }
    if |packages| == 0 {
      return true;
    }
    var full := className.value;
    var name := full;
    while name !in packages
      invariant |name| <= |full| && name == full[..|name|]
      invariant PrefixEnd(full, |name|)
      invariant forall k :: |name| < k <= |full| && PrefixEnd(full, k) ==> full[..k] !in packages
      decreases |name|
    {
      var end := LastIndexOf(name, '.');
      if end == -1 {
        break;
      }
      assert full[..end] == name[..end];
      name := name[..end];
    }
    r := name in packages;
    if r {
      assert PrefixEnd(full, |name|) && full[..|name|] in packages;
    }
  }

  /** A bean the scan considers: annotated, and in the exported packages. */
  predicate Eligible(b: BeanDef, packages: set<string>) {
    b.service.Some? && InPackage(b.className, packages)
  }

  /** `getServiceInterfaceName`: the name of the first interface of the bean
      class that carries `@JsonRpcService`, or the bean name when there is
      none; loading the bean class can fail. */
  function GetServiceInterfaceName(b: BeanDef): (r: Result<string, ExportError>)
    ensures r.Err? <==> b.interfaces.ClassNotFound?
    ensures r.Err? ==> r.error == BeanClassNotFound(b.className)
    ensures r.Ok? && b.interfaces.firstAnnotated.Some? ==> r.value == b.interfaces.firstAnnotated.value
    ensures r.Ok? && b.interfaces.firstAnnotated.None? ==> r.value == b.name
  {
    match b.interfaces
    case ClassNotFound => Err(BeanClassNotFound(b.className))
    case Loaded(first) => Ok(if first.Some? then first.value else b.name)
  }

  /** The path a bean claims: the annotation value, or when that is empty
      `className2Path` of the first annotated interface, or of the bean name
      when there is none. `None` when the bean class cannot be loaded. */
  function ServicePath(b: BeanDef): (p: Option<string>)
    requires b.service.Some?
    ensures p.None? <==> b.service.value == "" && b.interfaces.ClassNotFound?
    ensures b.service.value != "" ==> p == b.service
    ensures b.service.value == "" && b.interfaces.Loaded? && b.interfaces.firstAnnotated.Some? ==>
              p == Some(Util.ClassName2Path(b.interfaces.firstAnnotated.value))
    ensures b.service.value == "" && b.interfaces.Loaded? && b.interfaces.firstAnnotated.None? ==>
              p == Some(Util.ClassName2Path(b.name))
  {
    if !IsEmpty(b.service) then b.service
    else
      match GetServiceInterfaceName(b)
      case Err(_) => None
      case Ok(name) => Some(Util.ClassName2Path(name))
  }

  // ---------------------------------------------------------------------
  // The path-to-bean map, kept in insertion order

  datatype Entry = Entry(path: string, bean: string)

  /** The `HashMap<String, String>` from path to bean name. Its entries are
      kept in insertion order, which stands for the map's iteration order. */
  type PathMap = seq<Entry>

  function Paths(m: PathMap): (ps: set<string>)
    ensures forall e :: e in m ==> e.path in ps
  {
    if m == [] then {} else {m[0].path} + Paths(m[1..])
  }

  /** No path occurs twice, as in a map. */
  predicate UniquePaths(m: PathMap) {
    m == [] || (m[0].path !in Paths(m[1..]) && UniquePaths(m[1..]))
  }

  /** `get`: the bean stored under a path. */
  function Lookup(m: PathMap, path: string): (r: Option<string>)
    ensures r.Some? <==> path in Paths(m)
    ensures r.Some? ==> Entry(path, r.value) in m
  {
    if m == [] then None
    else if m[0].path == path then Some(m[0].bean)
    else Lookup(m[1..], path)
  }

  /** `put`: replace the bean of an existing path in place, or append. */
  function Put(m: PathMap, path: string, bean: string): (r: PathMap)
    ensures Lookup(r, path) == Some(bean)
    ensures forall p :: p != path ==> Lookup(r, p) == Lookup(m, p)
    ensures Paths(r) == Paths(m) + {path}
    ensures UniquePaths(m) ==> UniquePaths(r)
    ensures |r| == if path in Paths(m) then |m| else |m| + 1
  {
    if m == [] then [Entry(path, bean)]
    else if m[0].path == path then [Entry(path, bean)] + m[1..]
    else
      var rest := Put(m[1..], path, bean);
      assert ([m[0]] + rest)[1..] == rest;
      [m[0]] + rest
  }

  /** `isNotDuplicateService(map, beanName, pathValue)`: the path is not yet
      a key of the map. The bean name only goes into a log message. */
  function IsNotDuplicateService(m: PathMap, beanName: string, pathValue: string): (r: bool)
    ensures r <==> pathValue !in Paths(m)
  {
    Lookup(m, pathValue).None?
  }

  // ---------------------------------------------------------------------
  // Scanning one factory

  /** The loop of `findServiceBeanDefinitions` over the remaining beans,
      starting from the map built so far: an eligible bean's path is put only
      when no earlier bean holds it (`isNotDuplicateService`). */
  function ScanBeans(beans: seq<BeanDef>, packages: set<string>, acc: PathMap): (r: Result<PathMap, ExportError>)
    decreases |beans|
  {
    if beans == [] then Ok(acc)
    else
      var b := beans[0];
      if !Eligible(b, packages) then ScanBeans(beans[1..], packages, acc)
      else
        match ServicePath(b)
        case None => Err(BeanClassNotFound(b.className))
        case Some(path) =>
          ScanBeans(beans[1..], packages, if IsNotDuplicateService(acc, b.name, path) then Put(acc, path, b.name) else acc)
  }

  /** The first eligible bean claiming `path`, if any. */
  function FirstClaim(beans: seq<BeanDef>, packages: set<string>, path: string): Option<string> {
    if beans == [] then None
    else if Eligible(beans[0], packages) && ServicePath(beans[0]) == Some(path) then Some(beans[0].name)
    else FirstClaim(beans[1..], packages, path)
  }

  /** Some eligible bean's class cannot be loaded when its path is needed. */
  predicate HasUnloadableClaim(beans: seq<BeanDef>, packages: set<string>) {
    exists i :: 0 <= i < |beans| && Eligible(beans[i], packages) && ServicePath(beans[i]).None?
  }

  /** First wins: after the scan, each path belongs to the bean that held it
      before the scan, or else to the first eligible bean that claims it;
      beans that are not annotated or not in the packages contribute nothing,
      and a later bean never overwrites an earlier one. The scan fails exactly
      when an eligible bean's class cannot be loaded. */
  lemma {:induction false} ScanFirstWins(beans: seq<BeanDef>, packages: set<string>, acc: PathMap)
    requires UniquePaths(acc)
    ensures ScanBeans(beans, packages, acc).Err? <==> HasUnloadableClaim(beans, packages)
    ensures ScanBeans(beans, packages, acc).Ok? ==>
              var m := ScanBeans(beans, packages, acc).value;
              && UniquePaths(m)
              && forall path :: Lookup(m, path) ==
                   if Lookup(acc, path).Some? then Lookup(acc, path) else FirstClaim(beans, packages, path)
    decreases |beans|
  {
    if beans != [] {
      var b := beans[0];
      assert HasUnloadableClaim(beans, packages) <==>
               (Eligible(b, packages) && ServicePath(b).None?) || HasUnloadableClaim(beans[1..], packages)
      by {
        if HasUnloadableClaim(beans[1..], packages) {
          var i :| 0 <= i < |beans[1..]| && Eligible(beans[1..][i], packages) && ServicePath(beans[1..][i]).None?;
          assert beans[i + 1] == beans[1..][i];
        }
        if HasUnloadableClaim(beans, packages) {
          var i :| 0 <= i < |beans| && Eligible(beans[i], packages) && ServicePath(beans[i]).None?;
          if i > 0 {
            assert beans[1..][i - 1] == beans[i];
          }
        }
      }
      if !Eligible(b, packages) {
        ScanFirstWins(beans[1..], packages, acc);
      } else if ServicePath(b).Some? {
        var path := ServicePath(b).value;
        var next := if Lookup(acc, path).Some? then acc else Put(acc, path, b.name);
        ScanFirstWins(beans[1..], packages, next);
      }
    }
  }

  // ---------------------------------------------------------------------
  // Parents

  /** The loop of `collectFromParentBeans`, modelled as written: the
      duplicate test receives the parent entry's key and value in swapped
      order, so it asks whether the parent's BEAN NAME is already a path of
      the map, and otherwise puts the parent entry, replacing any child entry
      with the same path. */
  function MergeParent(m: PathMap, parentEntries: PathMap): (r: PathMap)
    ensures UniquePaths(m) ==> UniquePaths(r)
    ensures Paths(m) <= Paths(r) <= Paths(m) + Paths(parentEntries)
    decreases |parentEntries|
  {
    if parentEntries == [] then m
    else
      var e := parentEntries[0];
      var next := if IsNotDuplicateService(m, e.path, e.bean) then Put(m, e.path, e.bean) else m;
      MergeParent(next, parentEntries[1..])
  }

  /** When no parent bean name collides with a path, every parent entry lands
      in the result: a parent entry replaces a child entry with the same path,
      and child paths the parent does not claim keep their beans. */
  lemma {:induction false} MergeParentOverlays(m: PathMap, parentEntries: PathMap)
    requires UniquePaths(parentEntries)
    requires forall e :: e in parentEntries ==> e.bean !in Paths(m) + Paths(parentEntries)
    ensures forall e :: e in parentEntries ==> Lookup(MergeParent(m, parentEntries), e.path) == Some(e.bean)
    ensures forall p :: p !in Paths(parentEntries) ==> Lookup(MergeParent(m, parentEntries), p) == Lookup(m, p)
    decreases |parentEntries|
  {
    if parentEntries != [] {
      var e := parentEntries[0];
      var rest := parentEntries[1..];
      var next := Put(m, e.path, e.bean);
      assert forall x :: x in rest ==> x in parentEntries;
      MergeParentOverlays(next, rest);
    }
  }

  /** The skip rule for all inputs: a parent entry whose bean name is a path
      of the child's map is never put, so the lookup of its own path gives
      what the child's map gives (possibly nothing). Other parent entries
      only touch other paths, and paths only ever get added. */
  lemma {:induction false} MergeParentSkipsOnBeanName(m: PathMap, parentEntries: PathMap, e: Entry)
    requires UniquePaths(parentEntries)
    requires e in parentEntries && e.bean in Paths(m)
    ensures Lookup(MergeParent(m, parentEntries), e.path) == Lookup(m, e.path)
    decreases |parentEntries|
  {
    var first := parentEntries[0];
    var rest := parentEntries[1..];
    var next := if IsNotDuplicateService(m, first.path, first.bean) then Put(m, first.path, first.bean) else m;
    if first == e {
      assert next == m;
      MergeParentFrame(next, rest, e.path);
    } else {
      assert e in rest;
      assert e.path in Paths(rest) && first.path != e.path;
      MergeParentSkipsOnBeanName(next, rest, e);
    }
  }

  /** A path no parent entry claims keeps its lookup through the merge. */
  lemma {:induction false} MergeParentFrame(m: PathMap, parentEntries: PathMap, path: string)
    requires path !in Paths(parentEntries)
    ensures Lookup(MergeParent(m, parentEntries), path) == Lookup(m, path)
    decreases |parentEntries|
  {
    if parentEntries != [] {
      var first := parentEntries[0];
      var next := if IsNotDuplicateService(m, first.path, first.bean) then Put(m, first.path, first.bean) else m;
      MergeParentFrame(next, parentEntries[1..], path);
    }
  }

  /** A child's service can be taken over by its parent's: the child maps
      "calc" to "childCalc", the parent maps "calc" to "parentCalc", and the
      merged map answers "parentCalc". */
  lemma ParentEntryOverwritesChild()
    ensures Lookup(MergeParent([Entry("calc", "childCalc")], [Entry("calc", "parentCalc")]), "calc") == Some("parentCalc")
  {
    assert Lookup([Entry("calc", "childCalc")], "parentCalc") == None;
  }

  /** And a parent's service can be dropped although its path is free: the
      child maps "calc" to "calcImpl", the parent maps "stats" to a bean
      named "calc", and "stats" stays unmapped because "calc" is a path. */
  lemma ParentEntrySkippedOnBeanName()
    ensures Lookup(MergeParent([Entry("calc", "calcImpl")], [Entry("stats", "calc")]), "stats") == None
  {
    assert Lookup([Entry("calc", "calcImpl")], "calc") == Some("calcImpl");
  }

  /** `findServiceBeanDefinitions`: scan the factory's own beans, then merge
      the map of its parent (computed the same way, recursively). */
  function FindServiceBeans(f: BeanFactory, packages: set<string>): (r: Result<PathMap, ExportError>)
    ensures r.Ok? ==> UniquePaths(r.value)
    ensures HasUnloadableClaim(f.beans, packages) ==> r.Err?
    ensures r.Ok? && f.parent.None? ==>
              forall path :: Lookup(r.value, path) == FirstClaim(f.beans, packages, path)
    decreases f
  {
    ScanFirstWins(f.beans, packages, []);
    match ScanBeans(f.beans, packages, [])
    case Err(e) => Err(e)
    case Ok(local) =>
      match f.parent
      case None => Ok(local)
      case Some(p) =>
        match FindServiceBeans(p, packages)
        case Err(e) => Err(e)
        case Ok(inherited) => Ok(MergeParent(local, inherited))
  }

  // ---------------------------------------------------------------------
  // Registration

  /** An exporter bean definition: registered under `beanName`, referring to
      the service bean, with the service interface when one was found. */
  datatype Registration = Registration(beanName: string, serviceBean: string, serviceInterface: Option<string>)

  /** The factory and its ancestors, nearest first. */
  function Chain(f: BeanFactory): (fs: seq<BeanFactory>)
    ensures |fs| >= 1 && fs[0] == f
    decreases f
  {
    [f] + if f.parent.Some? then Chain(f.parent.value) else []
  }

  /** The factory itself defines a bean of that name (`containsLocalBean`). */
  predicate DefinesLocally(f: BeanFactory, name: string) {
    exists i :: 0 <= i < |f.beans| && f.beans[i].name == name
  }

  /** `findBeanDefinition`: the factory's own definition, else the nearest
      ancestor's. It finds nothing (the source throws "can no longer be
      found") exactly when no factory on the parent chain defines the name;
      otherwise it is a definition of the first factory on the chain that
      does. */
  function FindBeanDefinition(f: BeanFactory, name: string): (r: Option<BeanDef>)
    ensures r.Some? ==> r.value.name == name
    ensures r.None? <==> forall j :: 0 <= j < |Chain(f)| ==> !DefinesLocally(Chain(f)[j], name)
    ensures r.Some? ==>
              exists j :: 0 <= j < |Chain(f)| && r.value in Chain(f)[j].beans
                          && DefinesLocally(Chain(f)[j], name)
                          && forall k :: 0 <= k < j ==> !DefinesLocally(Chain(f)[k], name)
    ensures DefinesLocally(f, name) ==> r == Some(FirstNamed(f.beans, name))
    decreases f
  {
    if DefinesLocally(f, name) then
      assert Chain(f)[0] == f && DefinesLocally(Chain(f)[0], name);
      assert !forall j :: 0 <= j < |Chain(f)| ==> !DefinesLocally(Chain(f)[j], name);
      Some(FirstNamed(f.beans, name))
    else if f.parent.Some? then
      var p := f.parent.value;
      var r := FindBeanDefinition(p, name);
      assert Chain(f)[1..] == Chain(p);
      assert forall j :: 1 <= j < |Chain(f)| ==> Chain(f)[j] == Chain(p)[j - 1];
      if r.Some? then
        var j :| 0 <= j < |Chain(p)| && r.value in Chain(p)[j].beans && DefinesLocally(Chain(p)[j], name)
                 && forall k :: 0 <= k < j ==> !DefinesLocally(Chain(p)[k], name);
        assert Chain(f)[j + 1] == Chain(p)[j];
        r
      else r
    else
      assert Chain(f) == [f];
      None
  }

  function FirstNamed(beans: seq<BeanDef>, name: string): (b: BeanDef)
    requires exists i :: 0 <= i < |beans| && beans[i].name == name
    ensures b in beans && b.name == name
  {
    if beans[0].name == name then beans[0]
    else
      assert exists i :: 0 <= i < |beans[1..]| && beans[1..][i].name == name by {
        var i :| 0 <= i < |beans| && beans[i].name == name;
        assert beans[1..][i - 1] == beans[i];
      }
      FirstNamed(beans[1..], name)
  }

  /** An entry `registerServiceProxy` throws on: its bean can no longer be
      found, or the bean's class cannot be loaded. */
  predicate Unregistrable(f: BeanFactory, e: Entry) {
    FindBeanDefinition(f, e.bean).None? || FindBeanDefinition(f, e.bean).value.interfaces.ClassNotFound?
  }

  /** `registerServiceProxy` for each entry in turn, under
      `makeUrlPath(path)`, i.e. `addPrefixAndDistinct(path)`, referring to the
      entry's bean and naming the bean's first annotated interface. It fails
      exactly when some entry's bean cannot be registered. */
  function RegisterAll(f: BeanFactory, entries: PathMap, addPrefixAndDistinct: PrefixAndDistinct)
    : (r: Result<seq<Registration>, ExportError>)
    ensures r.Err? <==> exists i :: 0 <= i < |entries| && Unregistrable(f, entries[i])
    ensures r.Ok? ==>
              && |r.value| == |entries|
              && forall i :: 0 <= i < |entries| ==>
                   && r.value[i].beanName == addPrefixAndDistinct(Some(entries[i].path))
                   && r.value[i].serviceBean == entries[i].bean
                   && r.value[i].serviceInterface == FindBeanDefinition(f, entries[i].bean).value.interfaces.firstAnnotated
    decreases |entries|
  {
    if entries == [] then Ok([])
    else
      var e := entries[0];
      match FindBeanDefinition(f, e.bean)
      case None => Err(BeanNoLongerFound(e.bean))
      case Some(def) =>
        match def.interfaces
        case ClassNotFound => Err(BeanClassNotFound(def.className))
        case Loaded(first) =>
          assert forall i :: 1 <= i < |entries| ==> entries[1..][i - 1] == entries[i];
          match RegisterAll(f, entries[1..], addPrefixAndDistinct)
          case Err(err) => Err(err)
          case Ok(rest) => Ok([Registration(addPrefixAndDistinct(Some(e.path)), e.bean, first)] + rest)
  }

  /** `postProcessBeanFactory`: one exporter registration per entry of the
      path map, under the prefixed path, for the bean found for that path. */
  function PostProcessBeanFactory(f: BeanFactory, packages: set<string>, addPrefixAndDistinct: PrefixAndDistinct)
    : (r: Result<seq<Registration>, ExportError>)
    ensures r.Ok? ==> FindServiceBeans(f, packages).Ok?
    ensures r.Ok? ==>
              var m := FindServiceBeans(f, packages).value;
              && |r.value| == |m|
              && forall i :: 0 <= i < |m| ==>
                   r.value[i].beanName == addPrefixAndDistinct(Some(m[i].path)) && r.value[i].serviceBean == m[i].bean
  {
    match FindServiceBeans(f, packages)
    case Err(e) => Err(e)
    case Ok(m) => RegisterAll(f, m, addPrefixAndDistinct)
  }
}
