/**
 * `Fuel\Foundation\Application`: one configured application, holding its
 * name, namespace and root path, the collaborators it builds once at
 * construction, and the stack of requests currently being handled.
 */
module Foundation {
  import opened Wrappers
  import opened Exceptions
  import opened RequestStack
  import opened Filesystem
  import opened Collaborators
  import opened Ascii
  import Properties

  /** The service name the router is resolved under. */
  const RouterService: string := "Fuel\\Foundation\\Router"

  /** What a getter reached through `__get` returns. */
  datatype Value =
    | Text(text: string)               // the name, the namespace or the path
    | Collaborator(handle: Handle)     // config, environment, router or view manager
    | Active(request: Option<Request>) // the active request, or null
    | RequestFromInput                 // a request `getRequest()` builds from the global input

  /** The exception the constructor throws for a path that is not a directory. */
  function PathDoesNotExist(path: string): Exception {
    InvalidArgumentException("Application path \"" + path + "\" does not exist.")
  }

  /**
   * The config container: resolved, given the application path to load
   * from and the global config as its parent.
   */
  function ConfigSetup(base: nat, path: string, globalConfig: Handle): seq<Call> {
    var config := Handle("config", base);
    [Resolved("config", []), PathAdded(config, path), ParentSet(config, globalConfig)]
  }

  /** The environment, built for this application, the environment name and the config. */
  function EnvironmentSetup(base: nat, environment: string): seq<Call> {
    [Resolved("environment", [Self, Scalar(environment), Ref(Handle("config", base))]),
     Resolved("security", [Self])]
  }

  /**
   * The view manager: a finder over the application path is resolved first,
   * being an argument, then the view manager with a cache directory under
   * the path, then the PHP parser, which is registered on it as "php".
   */
  function ViewSetup(base: nat, path: string): seq<Call> {
    [Resolved("finder", [Paths([path])]),
     Resolved("view", [Ref(Handle("finder", base + 5)), Options(map["cache" := path + "cache"])]),
     Resolved("parser.php", []),
     ParserRegistered(Handle("view", base + 6), "php", Handle("parser.php", base + 7))]
  }

  /**
   * The calls the constructor makes once the path is accepted, starting at
   * position `base` of the trace: config, environment and security, view
   * manager, and last the router.
   */
  function Boot(base: nat, path: string, environment: string, globalConfig: Handle): seq<Call> {
    ConfigSetup(base, path, globalConfig) + EnvironmentSetup(base, environment) +
    ViewSetup(base, path) + [Resolved(RouterService, [Self])]
  }

  lemma ConfigResolutions(base: nat, path: string, globalConfig: Handle)
    ensures Resolutions(ConfigSetup(base, path, globalConfig)) == ["config"]
  {
    var c := ConfigSetup(base, path, globalConfig);
    ResolutionsFrom(c, 2);
    ResolutionsFrom(c, 1);
    ResolutionsFrom(c, 0);
    assert c[3..] == [] && c[0..] == c;
  }

  lemma EnvironmentResolutions(base: nat, environment: string)
    ensures Resolutions(EnvironmentSetup(base, environment)) == ["environment", "security"]
  {
    var e := EnvironmentSetup(base, environment);
    ResolutionsFrom(e, 1);
    ResolutionsFrom(e, 0);
    assert e[2..] == [] && e[0..] == e;
  }

  lemma ViewResolutions(base: nat, path: string)
    ensures Resolutions(ViewSetup(base, path)) == ["finder", "view", "parser.php"]
  {
    var v := ViewSetup(base, path);
    ResolutionsFrom(v, 3);
    ResolutionsFrom(v, 2);
    ResolutionsFrom(v, 1);
    ResolutionsFrom(v, 0);
    assert v[4..] == [] && v[0..] == v;
  }

  /**
   * The services the constructor resolves, in order: the finder before the
   * view manager it is passed to, the parser before the call that registers
   * it.
   */
  lemma BootResolutions(base: nat, path: string, environment: string, globalConfig: Handle)
    ensures Resolutions(Boot(base, path, environment, globalConfig)) ==
            ["config", "environment", "security", "finder", "view", "parser.php", RouterService]
  {
    var c := ConfigSetup(base, path, globalConfig);
    var e := EnvironmentSetup(base, environment);
    var v := ViewSetup(base, path);
    var r := [Resolved(RouterService, [Self])];
    ConfigResolutions(base, path, globalConfig);
    EnvironmentResolutions(base, environment);
    ViewResolutions(base, path);
    assert Resolutions(r) == [RouterService] by {
      assert r[1..] == [];
    }
    ResolutionsAppend(c, e);
    ResolutionsAppend(c + e, v);
    ResolutionsAppend(c + e + v, r);
  }

  class Application {
    const appName: string
    const appNamespace: string
    const appPath: DirPath
    const config: Handle
    const environment: Handle
    const security: Handle
    const view: Handle
    const router: Handle
    var requests: Stack

    /**
     * Construction once the path has been checked (`Create` does the
     * check): name and namespace are kept as given, the path is kept as its
     * `realpath` plus a separator, and the collaborators are built, each
     * exactly once, through the calls `Boot` lists.
     */
    constructor (name: string, path: string, namespace: string, environmentName: string,
                 fs: FileSystem, deps: Container, globalConfig: Handle)
      requires fs.IsDir(path)
      modifies deps
      ensures appName == name && appNamespace == namespace
      ensures appPath == fs.RealPath(path) + [DS]
      ensures requests == []
      ensures deps.trace == old(deps.trace) + Boot(|old(deps.trace)|, appPath, environmentName, globalConfig)
      ensures var base := |old(deps.trace)|;
              config == Handle("config", base) && environment == Handle("environment", base + 3) &&
              security == Handle("security", base + 4) && view == Handle("view", base + 6) &&
              router == Handle(RouterService, base + 9)
    {
      appName := name;
      appNamespace := namespace;
      var root := fs.RealPath(path) + [DS];
      appPath := root;
      var c := deps.Resolve("config", []);
      deps.AddPath(c, root);
      deps.SetParent(c, globalConfig);
      config := c;
      var e := deps.Resolve("environment", [Self, Scalar(environmentName), Ref(c)]);
      environment := e;
      var s := deps.Resolve("security", [Self]);
      security := s;
      var finder := deps.Resolve("finder", [Paths([root])]);
      var v := deps.Resolve("view", [Ref(finder), Options(map["cache" := root + "cache"])]);
      view := v;
      var parser := deps.Resolve("parser.php", []);
      deps.RegisterParser(v, "php", parser);
      var rt := deps.Resolve(RouterService, [Self]);
      router := rt;
      requests := [];
    }

    /** `__get($property)`: the value of the getter the property names, or the exception. */
    function Get(property: string): (r: Result<Value, Exception>)
      reads this
      ensures r.Failure? <==> Properties.Dispatch(property).Failure?
      ensures r.Failure? ==> r.error == Properties.NotAvailable(property)
    {
      match Properties.Dispatch(property)
      case Success(m) => Success(Invoke(m))
      case Failure(e) => Failure(e)
    }

    /** Calls the getter `m` with no arguments. */
    function Invoke(m: Properties.Method): Value
      reads this
      requires Properties.IsGetter(m)
    {
      match m
      case GetConfig => Collaborator(config)
      case GetEnvironment => Collaborator(environment)
      case GetRequest => RequestFromInput
      case GetRouter => Collaborator(router)
      case GetName => Text(appName)
      case GetNamespace => Text(appNamespace)
      case GetPath => Text(appPath)
      case GetViewManager => Collaborator(view)
      case GetActiveRequest => Active(Peek(requests))
    }

    function GetConfig(): (h: Handle)
      reads this
      ensures forall p :: Lower(p) == "config" ==> Get(p) == Success(Collaborator(h))
    {
      assert forall p :: Lower(p) == "config" ==> Properties.Dispatch(p) == Success(Properties.GetConfig) by {
        forall p | Lower(p) == "config" { Properties.ReachedBy(p, Properties.GetConfig); }
      }
      config
    }

    function GetEnvironment(): (h: Handle)
      reads this
      ensures forall p :: Lower(p) == "environment" ==> Get(p) == Success(Collaborator(h))
    {
      assert forall p :: Lower(p) == "environment" ==> Properties.Dispatch(p) == Success(Properties.GetEnvironment) by {
        forall p | Lower(p) == "environment" { Properties.ReachedBy(p, Properties.GetEnvironment); }
      }
      environment
    }

    function GetRouter(): (h: Handle)
      reads this
      ensures forall p :: Lower(p) == "router" ==> Get(p) == Success(Collaborator(h))
    {
      assert forall p :: Lower(p) == "router" ==> Properties.Dispatch(p) == Success(Properties.GetRouter) by {
        forall p | Lower(p) == "router" { Properties.ReachedBy(p, Properties.GetRouter); }
      }
      router
    }

    function GetName(): (name: string)
      reads this
      ensures forall p :: Lower(p) == "name" ==> Get(p) == Success(Text(name))
    {
      assert forall p :: Lower(p) == "name" ==> Properties.Dispatch(p) == Success(Properties.GetName) by {
        forall p | Lower(p) == "name" { Properties.ReachedBy(p, Properties.GetName); }
      }
      appName
    }

    function GetNamespace(): (namespace: string)
      reads this
      ensures forall p :: Lower(p) == "namespace" ==> Get(p) == Success(Text(namespace))
    {
      assert forall p :: Lower(p) == "namespace" ==> Properties.Dispatch(p) == Success(Properties.GetNamespace) by {
        forall p | Lower(p) == "namespace" { Properties.ReachedBy(p, Properties.GetNamespace); }
      }
      appNamespace
    }

    /** The root path, which always ends with the directory separator. */
    function GetPath(): (path: string)
      reads this
      ensures |path| > 0 && path[|path| - 1] == DS
      ensures forall p :: Lower(p) == "path" ==> Get(p) == Success(Text(path))
    {
      assert |appPath| > 0 && appPath[|appPath| - 1] == DS;
      assert forall p :: Lower(p) == "path" ==> Properties.Dispatch(p) == Success(Properties.GetPath) by {
        forall p | Lower(p) == "path" { Properties.ReachedBy(p, Properties.GetPath); }
      }
      appPath
    }

    function GetViewManager(): (h: Handle)
      reads this
      ensures forall p :: Lower(p) == "viewmanager" ==> Get(p) == Success(Collaborator(h))
    {
      assert forall p :: Lower(p) == "viewmanager" ==> Properties.Dispatch(p) == Success(Properties.GetViewManager) by {
        forall p | Lower(p) == "viewmanager" { Properties.ReachedBy(p, Properties.GetViewManager); }
      }
      view
    }

    /** The top of the request stack, or null when the stack is empty or its top entry is null. */
    function GetActiveRequest(): (r: Option<Request>)
      reads this
      ensures r == Peek(requests)
      ensures forall p :: Lower(p) == "activerequest" ==> Get(p) == Success(Active(r))
    {
      assert forall p :: Lower(p) == "activerequest" ==> Properties.Dispatch(p) == Success(Properties.GetActiveRequest) by {
        forall p | Lower(p) == "activerequest" { Properties.ReachedBy(p, Properties.GetActiveRequest); }
      }
      Peek(requests)
    }

    /** `$app->request` builds a new request from the global input; it is not the active request. */
    lemma RequestProperty(p: string)
      requires Lower(p) == "request"
      ensures Get(p) == Success(RequestFromInput)
    {
      Properties.ReachedBy(p, Properties.GetRequest);
    }

    /** Pushes `request`, which may be null, and returns this application for chaining. */
    method SetActiveRequest(request: Option<Request>) returns (self: Application)
      modifies this
      ensures requests == Push(old(requests), request)
      ensures GetActiveRequest() == request
      ensures self == this
    {
      requests := requests + [request];
      self := this;
    }

    /** Pops the top entry, if there is one, and returns this application for chaining. */
    method ResetActiveRequest() returns (self: Application)
      modifies this
      ensures requests == Pop(old(requests))
      ensures old(requests) == [] ==> requests == []
      ensures old(requests) != [] ==> requests + [old(requests)[|old(requests)| - 1]] == old(requests)
      ensures self == this
    {
      if |requests| != 0 {
        requests := requests[..|requests| - 1];
      }
      self := this;
    }
  }

  /**
   * `new Application($appName, $appPath, $namespace, $environment)`: throws
   * `InvalidArgumentException` when the path is not a directory, before any
   * collaborator is resolved; otherwise constructs the application.
   */
  method Create(name: string, path: string, namespace: string, environmentName: string,
                fs: FileSystem, deps: Container, globalConfig: Handle)
    returns (r: Result<Application, Exception>)
    modifies deps
    ensures r.Failure? <==> !fs.IsDir(path)
    ensures r.Failure? ==> r.error == PathDoesNotExist(path) && deps.trace == old(deps.trace)
    ensures r.Success? ==>
              fresh(r.value) &&
              r.value.appName == name && r.value.appNamespace == namespace &&
              r.value.appPath == fs.RealPath(path) + [DS] && r.value.requests == [] &&
              deps.trace == old(deps.trace) + Boot(|old(deps.trace)|, r.value.appPath, environmentName, globalConfig) &&
              r.value.config == Handle("config", |old(deps.trace)|) &&
              r.value.environment == Handle("environment", |old(deps.trace)| + 3) &&
              r.value.security == Handle("security", |old(deps.trace)| + 4) &&
              r.value.view == Handle("view", |old(deps.trace)| + 6) &&
              r.value.router == Handle(RouterService, |old(deps.trace)| + 9)
  {
    if !fs.IsDir(path) {
      return Failure(PathDoesNotExist(path));
    }
    var app := new Application(name, path, namespace, environmentName, fs, deps, globalConfig);
    return Success(app);
  }

  /**
   * Requests nest: a sub-request pushed on top of a request and reset again
   * leaves the outer request active, and the calls chain on one object.
   */
  method NestedRequests(app: Application, outer: Request, inner: Request)
    modifies app
    ensures app.requests == old(app.requests) + [Some(outer)]
    ensures app.GetActiveRequest() == Some(outer)
  {
    var a := app.SetActiveRequest(Some(outer));
    var b := a.SetActiveRequest(Some(inner));
    assert b.GetActiveRequest() == Some(inner);
    var c := b.ResetActiveRequest();
    assert c == app;
  }
}
