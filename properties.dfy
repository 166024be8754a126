/**
 * The magic getter `Application::__get`: a property name `p` is served by
 * the method `'get'.ucfirst(p)` when the class has a method of that name,
 * and raises `OutOfBoundsException` otherwise. PHP compares method names
 * without regard to (ASCII) case, both in `method_exists` and in the call
 * that follows, so the lookup here is case-insensitive.
 */
module Properties {
  import opened Wrappers
  import opened Exceptions
  import opened Ascii

  /** Every method the `Application` class declares. */
  datatype Method =
    | Construct
    | MagicGet
    | GetConfig
    | GetEnvironment
    | GetRequest
    | GetRouter
    | GetName
    | GetNamespace
    | GetPath
    | GetViewManager
    | SetActiveRequest
    | GetActiveRequest
    | ResetActiveRequest

  /** The method's name as declared. */
  function Name(m: Method): string {
    match m
    case Construct => "__construct"
    case MagicGet => "__get"
    case GetConfig => "getConfig"
    case GetEnvironment => "getEnvironment"
    case GetRequest => "getRequest"
    case GetRouter => "getRouter"
    case GetName => "getName"
    case GetNamespace => "getNamespace"
    case GetPath => "getPath"
    case GetViewManager => "getViewManager"
    case SetActiveRequest => "setActiveRequest"
    case GetActiveRequest => "getActiveRequest"
    case ResetActiveRequest => "resetActiveRequest"
  }

  /**
   * The key under which PHP's method table stores `m`: its name
   * lower-cased when the class is declared.
   */
  function Key(m: Method): string {
    match m
    case Construct => "__construct"
    case MagicGet => "__get"
    case GetConfig => "getconfig"
    case GetEnvironment => "getenvironment"
    case GetRequest => "getrequest"
    case GetRouter => "getrouter"
    case GetName => "getname"
    case GetNamespace => "getnamespace"
    case GetPath => "getpath"
    case GetViewManager => "getviewmanager"
    case SetActiveRequest => "setactiverequest"
    case GetActiveRequest => "getactiverequest"
    case ResetActiveRequest => "resetactiverequest"
  }

  /** The stored key is the declared name, lower-cased. */
  lemma KeyIsLowerName(m: Method)
    ensures Key(m) == Lower(Name(m))
  {
    if m.Construct? || m.MagicGet? || m.SetActiveRequest? || m.ResetActiveRequest? {
      KeysLowerCased1(m);
    } else if m.GetConfig? || m.GetEnvironment? || m.GetRequest? {
      KeysLowerCased2(m);
    } else if m.GetRouter? || m.GetName? || m.GetNamespace? {
      KeysLowerCased3(m);
    } else {
      KeysLowerCased4(m);
    }
  }

  lemma KeysLowerCased1(m: Method)
    requires m.Construct? || m.MagicGet? || m.SetActiveRequest? || m.ResetActiveRequest?
    ensures Key(m) == Lower(Name(m))
  {
    match m
    case Construct => assert Lower("__construct") == "__construct";
    case MagicGet => assert Lower("__get") == "__get";
    case SetActiveRequest => assert Lower("setActiveRequest") == "setactiverequest";
    case ResetActiveRequest => assert Lower("resetActiveRequest") == "resetactiverequest";
  }

  lemma KeysLowerCased2(m: Method)
    requires m.GetConfig? || m.GetEnvironment? || m.GetRequest?
    ensures Key(m) == Lower(Name(m))
  {
    match m
    case GetConfig => assert Lower("getConfig") == "getconfig";
    case GetEnvironment => assert Lower("getEnvironment") == "getenvironment";
    case GetRequest => assert Lower("getRequest") == "getrequest";
  }

  lemma KeysLowerCased3(m: Method)
    requires m.GetRouter? || m.GetName? || m.GetNamespace?
    ensures Key(m) == Lower(Name(m))
  {
    match m
    case GetRouter => assert Lower("getRouter") == "getrouter";
    case GetName => assert Lower("getName") == "getname";
    case GetNamespace => assert Lower("getNamespace") == "getnamespace";
  }

  lemma KeysLowerCased4(m: Method)
    requires m.GetPath? || m.GetViewManager? || m.GetActiveRequest?
    ensures Key(m) == Lower(Name(m))
  {
    match m
    case GetPath => assert Lower("getPath") == "getpath";
    case GetViewManager => assert Lower("getViewManager") == "getviewmanager";
    case GetActiveRequest => assert Lower("getActiveRequest") == "getactiverequest";
  }

  /** No two methods are stored under the same key. */
  lemma KeysDistinct(m: Method, n: Method)
    ensures Key(m) == Key(n) ==> m == n
  {
  }

  /** No two methods of the class have names that differ only in case. */
  lemma NamesDistinct(m: Method, n: Method)
    ensures SameName(Name(m), Name(n)) ==> m == n
  {
    KeyIsLowerName(m);
    KeyIsLowerName(n);
    KeysDistinct(m, n);
  }

  /** The class's method table, in declaration order. */
  const Methods: seq<Method> := [
    Construct, MagicGet, GetConfig, GetEnvironment, GetRequest, GetRouter, GetName,
    GetNamespace, GetPath, GetViewManager, SetActiveRequest, GetActiveRequest, ResetActiveRequest
  ]

  /** The getters: the methods whose names start with `get`. */
  predicate IsGetter(m: Method) {
    !(m.Construct? || m.MagicGet? || m.SetActiveRequest? || m.ResetActiveRequest?)
  }

  lemma AllListed(m: Method)
    ensures m in Methods
  {
  }

  /** Searches `table` for the method stored under `key`. */
  function Find(table: seq<Method>, key: string): (r: Option<Method>)
    ensures r.Some? ==> r.value in table && Key(r.value) == key
    ensures r.None? ==> forall m :: m in table ==> Key(m) != key
  {
    if table == [] then None
    else if Key(table[0]) == key then Some(table[0])
    else Find(table[1..], key)
  }

  /** `method_exists`: the lower-cased name looked up among the stored keys. */
  function MethodExists(name: string): (r: Option<Method>)
    ensures r.Some? ==> Key(r.value) == Lower(name)
    ensures r.None? ==> forall m :: Key(m) != Lower(name)
  {
    assert forall m :: m in Methods by {
      forall m ensures m in Methods { AllListed(m); }
    }
    Find(Methods, Lower(name))
  }

  /**
   * `method_exists` finds exactly the method whose declared name equals the
   * given one ignoring case.
   */
  lemma MethodExistsIgnoresCase(name: string)
    ensures forall m :: MethodExists(name) == Some(m) <==> SameName(Name(m), name)
  {
    forall m ensures Key(m) == Lower(Name(m)) { KeyIsLowerName(m); }
    forall m, n ensures Key(m) == Key(n) ==> m == n { KeysDistinct(m, n); }
  }

  /** The method name `__get` looks for: `'get'.ucfirst($property)`. */
  function GetterName(property: string): string {
    "get" + UcFirst(property)
  }

  /** The exception `__get` throws for a property it cannot serve. */
  function NotAvailable(property: string): Exception {
    OutOfBoundsException("Property \"" + property + "\" not available on the application.")
  }

  /** Only the getters are stored under a key that starts with `get`. */
  lemma GetterKeys(m: Method)
    ensures |Key(m)| >= 3 && Key(m)[..3] == "get" ==> IsGetter(m)
  {
    if !IsGetter(m) {
      assert Key(m)[0] != 'g';
    }
  }

  /**
   * The method `__get($property)` calls, or the exception it throws. The
   * lookup is for `get` followed by the property lower-cased, so `ucfirst`
   * plays no part in it, and what it finds is always one of the getters: no
   * property name reaches the constructor, `__get` itself or the two
   * request-stack mutators.
   */
  function Dispatch(property: string): (r: Result<Method, Exception>)
    ensures r.Success? ==> IsGetter(r.value) && Key(r.value) == "get" + Lower(property)
    ensures r.Failure? ==> r.error == NotAvailable(property)
    ensures r.Failure? ==> forall m :: Key(m) != "get" + Lower(property)
  {
    LowerGetterName(property);
    match MethodExists(GetterName(property))
    case Some(m) =>
      GetterKeys(m);
      assert ("get" + Lower(property))[..3] == "get";
      Success(m)
    case None => Failure(NotAvailable(property))
  }

  /** Lower-casing the name `__get` builds gives `get` and the lower-cased property. */
  lemma {:induction false} LowerGetterName(property: string)
    ensures Lower(GetterName(property)) == "get" + Lower(property)
  {
    LowerAppend("get", UcFirst(property));
    LowerUcFirst(property);
  }

  /**
   * Stated over declared names: `__get(p)` calls `m` exactly when `m`'s name
   * equals `'get'.ucfirst(p)` ignoring case.
   */
  lemma DispatchFindsNamedMethod(property: string)
    ensures forall m :: Dispatch(property) == Success(m) <==> SameName(Name(m), GetterName(property))
  {
    LowerGetterName(property);
    forall m ensures Key(m) == Lower(Name(m)) { KeyIsLowerName(m); }
    forall m, n ensures Key(m) == Key(n) ==> m == n { KeysDistinct(m, n); }
  }

  /**
   * Only the lower-cased property name decides what `__get` does:
   * `$app->NAME`, `$app->name` and `$app->Name` all reach `getName`.
   */
  lemma DispatchIgnoresCase(p: string, q: string)
    requires Lower(p) == Lower(q)
    ensures Dispatch(p).Success? == Dispatch(q).Success?
    ensures Dispatch(p).Success? ==> Dispatch(p).value == Dispatch(q).value
  {
    if Dispatch(p).Success? {
      KeysDistinct(Dispatch(p).value, Dispatch(q).value);
    }
  }

  /**
   * Every spelling of a property that lower-cases to the rest of a method's
   * key reaches that method: `$app->viewManager` and `$app->VIEWMANAGER`
   * both call `getViewManager`.
   */
  lemma ReachedBy(property: string, m: Method)
    requires "get" + Lower(property) == Key(m)
    ensures Dispatch(property) == Success(m)
  {
    if Dispatch(property).Success? {
      KeysDistinct(Dispatch(property).value, m);
    }
  }

  /** `$app->NAME` calls `getName` too: the lookup ignores case. */
  lemma UpperCaseProperty()
    ensures Dispatch("NAME") == Success(GetName)
  {
    ReachedBy("NAME", GetName);
  }

  /** `$app->foo` throws, naming the property in the message. */
  lemma UnknownProperty()
    ensures Dispatch("foo") == Failure(NotAvailable("foo"))
  {
    var key := "get" + Lower("foo");
    assert |key| == 6;
    forall m ensures Key(m) != key { }
  }

  /** The protected field `appName` is not reachable under its own name. */
  lemma AppNameIsNotAProperty()
    ensures Dispatch("appName").Failure?
  {
    var key := "get" + Lower("appName");
    assert |key| == 10 && key[3] == 'a';
    forall m ensures Key(m) != key {
      if m == GetRequest { assert Key(m)[3] == 'r'; }
    }
  }

  /** The protected field `requests` is not reachable under its own name. */
  lemma RequestsIsNotAProperty()
    ensures Dispatch("requests").Failure?
  {
    var key := "get" + Lower("requests");
    assert |key| == 11 && key[0] == 'g';
    forall m ensures Key(m) != key { }
  }

  /** The empty property name looks for a method called `get`, which does not exist. */
  lemma EmptyProperty()
    ensures Dispatch("").Failure?
  {
    var key := "get" + Lower("");
    assert |key| == 3;
    forall m ensures Key(m) != key { }
  }
}
