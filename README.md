# Fuel Foundation `Application`, modelled in Dafny

This project models the `Application` class of FuelPHP 2.0's foundation
package (`src/Fuel/Foundation/Application.php`). An application object
wraps one application package. It has a name, a base namespace and a root
path, plus the collaborators it builds once at construction: config
container, environment, security container, view manager and router. It
also keeps a stack of the requests being handled, for requests that start
sub-requests.

The model has eight modules in seven files:

- `Wrappers` and `Exceptions` (wrappers.dfy): PHP's `null` as `Option.None`.
  A thrown exception is `Result.Failure` carrying `InvalidArgumentException`
  or `OutOfBoundsException` with the message the source builds.
- `Ascii` (ascii.dfy): PHP's `ucfirst` and the ASCII lower-casing PHP uses
  to compare method names.
- `RequestStack` (request_stack.dfy): the active-request stack as a value.
  It is a `seq<Option<Request>>` with push, peek and pop, and the laws that
  relate them. A `Request` is known only by its identity.
- `Filesystem` (filesystem.dfy): `is_dir` and `realpath`, answered from a
  snapshot map from directory paths to their real paths. `DS` is `'/'`.
- `Collaborators` (collaborators.dfy): the dependency container
  (`\Dependency::resolve`) and the calls made on the objects it builds.
  Each call is recorded in a trace, and each resolution returns an opaque
  handle.
- `Properties` (properties.dfy): the magic getter `__get`. It maps a
  property name to the method `'get'.ucfirst($property)` through a
  case-insensitive `method_exists` over the class's 13 methods.
- `Foundation` (application.dfy): the class `Application`.
  - Its name, namespace, path and collaborators are `const` fields, set
    once by the constructor.
  - `requests` is the one mutable field.
  - `SetActiveRequest` and `ResetActiveRequest` are methods proved against
    `RequestStack.Push` and `RequestStack.Pop`.
  - The getters and `__get` are functions.
  - `Create` models `new Application(...)`, including the exception thrown
    for a path that is not a directory.

Decisions:

- **Method names compare case-insensitively.** `method_exists` and the
  call that follows it both ignore case, as in PHP. So `$app->NAME`
  reaches `getName`. `DispatchIgnoresCase` proves that only the lower-cased
  property name matters, which makes `ucfirst` immaterial.
- **Every method is in the table.** The method table holds all of the
  class's methods, not just the getters. `Dispatch` proves that no
  property name can reach `__construct`, `__get`, `setActiveRequest` or
  `resetActiveRequest`.
- **Exceptions and the stored path follow the source.**
  - Construction throws `InvalidArgumentException` with the message
    `Application path "<path>" does not exist.` (Application.php:110).
  - `__get` throws `OutOfBoundsException` with the message
    `Property "<name>" not available on the application.` (Application.php:158).
  - The stored path is exactly `realpath($appPath).DS`. For the root
    directory that is `//`, which is not a normalized path.
- **Constructor and `Create` are split.** A Dafny constructor cannot
  throw. `Create` performs the directory check of lines 108-111 and then
  calls the constructor, which requires the check to have passed.
  Assigning name and namespace before the check (lines 102-105) cannot be
  observed through `new Application(...)`, because a constructor that
  throws leaves no object to the caller.

## Model

| member | source | states |
|---|---|---|
| `RequestStack.Push` | src/Fuel/Foundation/Application.php:273-277 | `setActiveRequest` appends its argument, null included: length grows by one, every earlier entry is kept, the new last entry is the argument |
| `RequestStack.Peek` | src/Fuel/Foundation/Application.php:286-289 | the active request is null exactly when the stack is empty or its top entry is null; otherwise it is the top entry |
| `RequestStack.Pop` | src/Fuel/Foundation/Application.php:298-305 | a reset on an empty stack leaves it empty; otherwise it removes exactly the last entry (a request or null) and keeps the rest in order |
| `RequestStack.PeekAfterPush` | src/Fuel/Foundation/Application.php:273-289 | right after a push, the active request is the entry pushed |
| `RequestStack.PopAfterPush` | src/Fuel/Foundation/Application.php:273-305 | a reset right after a push restores the previous stack |
| `RequestStack.NullTop` | src/Fuel/Foundation/Application.php:273-305 | a pushed null reads like an empty stack, yet the stack is not empty and the next reset removes that null |
| `RequestStack.PushAllAppends` | src/Fuel/Foundation/Application.php:273-277 | a run of pushes appends the pushed entries in order |
| `RequestStack.PopNTakesPrefix` | src/Fuel/Foundation/Application.php:298-305 | M resets keep the first length−M entries, or none when M exceeds the length |
| `RequestStack.PushesThenResets` | src/Fuel/Foundation/Application.php:273-305 | from an empty stack, N pushes then M resets leave the first N−M entries pushed (none when M ≥ N), and the active request is the (N−M)-th entry pushed, or null |
| `Foundation.Application.SetActiveRequest` | src/Fuel/Foundation/Application.php:273-277 | the new stack is the old one with the argument pushed, the argument is now the active request, and the application itself is returned for chaining |
| `Foundation.Application.ResetActiveRequest` | src/Fuel/Foundation/Application.php:298-305 | the new stack is the old one popped (unchanged when empty), and the application itself is returned for chaining |
| `Foundation.Application.GetActiveRequest` | src/Fuel/Foundation/Application.php:286-289 | returns `Peek` of the request stack (null exactly when the stack is empty or its top is null, the top entry otherwise), and the same value `__get` returns for `activeRequest` in any letter case |
| `Foundation.NestedRequests` | src/Fuel/Foundation/Application.php:273-305 | chained calls act on the one application: pushing an outer request, then an inner one, then resetting leaves the outer request pushed and active |
| `Ascii.Lower` | src/Fuel/Foundation/Application.php:153 | the lower-casing under which method names are compared keeps the length and lower-cases each character on its own |
| `Ascii.UcFirst` | src/Fuel/Foundation/Application.php:153 | `ucfirst` upper-cases the first character and keeps the rest |
| `Ascii.LowerUpper` | src/Fuel/Foundation/Application.php:153 | lower-casing an upper-cased character gives the character lower-cased |
| `Ascii.LowerAppend` | src/Fuel/Foundation/Application.php:153 | lower-casing distributes over concatenation |
| `Ascii.LowerUcFirst` | src/Fuel/Foundation/Application.php:153 | `ucfirst` is invisible to a case-insensitive comparison |
| `Properties.KeyIsLowerName` | src/Fuel/Foundation/Application.php:153 | each method is stored under its declared name, lower-cased |
| `Properties.KeysDistinct` | src/Fuel/Foundation/Application.php:153 | no two methods are stored under the same key |
| `Properties.NamesDistinct` | src/Fuel/Foundation/Application.php:153 | no two methods of the class have names that differ only in case, so a lookup finds at most one |
| `Properties.Find` | src/Fuel/Foundation/Application.php:153 | the table search returns a method stored under the key, or none exactly when no method is |
| `Properties.MethodExists` | src/Fuel/Foundation/Application.php:153 | `method_exists` finds the method stored under the given name lower-cased, and reports none exactly when no method is stored there |
| `Properties.MethodExistsIgnoresCase` | src/Fuel/Foundation/Application.php:153 | `method_exists` finds method m exactly when m's declared name equals the given name ignoring case |
| `Properties.Dispatch` | src/Fuel/Foundation/Application.php:151-159 | `__get(p)` calls the method stored under `get` followed by p lower-cased, which is always a getter; when there is none it throws `OutOfBoundsException` naming p |
| `Properties.GetterKeys` | src/Fuel/Foundation/Application.php:153 | only getters are stored under a key starting with `get` |
| `Properties.DispatchFindsNamedMethod` | src/Fuel/Foundation/Application.php:151-159 | `__get(p)` calls method m exactly when m's declared name equals `'get'.ucfirst(p)` ignoring case |
| `Properties.LowerGetterName` | src/Fuel/Foundation/Application.php:153 | the name `__get` looks for, lower-cased, is `get` followed by the property lower-cased |
| `Properties.DispatchIgnoresCase` | src/Fuel/Foundation/Application.php:151-159 | two property names equal ignoring case reach the same method, or both throw |
| `Properties.ReachedBy` | src/Fuel/Foundation/Application.php:151-159 | every spelling of a property that lower-cases to the rest of a method's key reaches that method |
| `Properties.UpperCaseProperty` | src/Fuel/Foundation/Application.php:151-159 | `$app->NAME` calls `getName` |
| `Properties.UnknownProperty` | src/Fuel/Foundation/Application.php:151-159 | `$app->foo` throws `OutOfBoundsException` with the message naming `foo` |
| `Properties.AppNameIsNotAProperty` | src/Fuel/Foundation/Application.php:151-159 | the protected field `appName` is not readable under its own name |
| `Properties.RequestsIsNotAProperty` | src/Fuel/Foundation/Application.php:151-159 | the protected field `requests` is not readable under its own name |
| `Properties.EmptyProperty` | src/Fuel/Foundation/Application.php:151-159 | the empty property name throws: there is no method called `get` |
| `Foundation.Application.Get` | src/Fuel/Foundation/Application.php:151-159 | `__get` throws exactly when no getter matches, with the message naming the property; otherwise it returns the getter's value |
| `Foundation.Application.GetConfig` | src/Fuel/Foundation/Application.php:168-171| returns the config container, the same value `__get` returns for `config` in any letter case |
| `Foundation.Application.GetEnvironment` | src/Fuel/Foundation/Application.php:180-183| returns the environment, the same value `__get` returns for `environment` in any letter case |
| `Foundation.Application.RequestProperty` | src/Fuel/Foundation/Application.php:196-202 | `$app->request`, in any letter case, calls `getRequest`, which builds a new request and does not return the active one |
| `Foundation.Application.GetRouter` | src/Fuel/Foundation/Application.php:211-214| returns the router, the same value `__get` returns for `router` in any letter case |
| `Foundation.Application.GetName` | src/Fuel/Foundation/Application.php:223-226| returns the application name, the same value `__get` returns for `name` in any letter case |
| `Foundation.Application.GetNamespace` | src/Fuel/Foundation/Application.php:235-238| returns the base namespace, the same value `__get` returns for `namespace` in any letter case |
| `Foundation.Application.GetPath` | src/Fuel/Foundation/Application.php:247-250 | the root path is non-empty and ends with the directory separator, and is what `__get` returns for `path` in any letter case |
| `Foundation.Application.GetViewManager` | src/Fuel/Foundation/Application.php:259-262| returns the view manager, the same value `__get` returns for `viewManager` in any letter case |
| `Foundation.Application.constructor` | src/Fuel/Foundation/Application.php:99-140 | name and namespace are stored verbatim, the path as `realpath(path).DS`, the stack starts empty, and each collaborator is resolved once, through exactly the calls `Boot` lists |
| `Foundation.Create` | src/Fuel/Foundation/Application.php:99-112 | construction throws `InvalidArgumentException` naming the path exactly when the path is not a directory, and then makes no call to the container; otherwise it yields a new application with the constructor's fields, the constructor's trace, and collaborator handles equal to the config, environment, security, view and router resolutions in that trace |
| `Foundation.BootResolutions` | src/Fuel/Foundation/Application.php:115-139 | construction resolves config, environment, security, finder, view, `parser.php` and the router, in that order: the finder before the view manager it is passed to, the parser before it is registered |
| `Collaborators.ResolutionsAppend` | src/Fuel/Foundation/Application.php:115-139 | the services resolved by two runs of calls are those of the first followed by those of the second |
| `Collaborators.Container.Resolve` | src/Fuel/Foundation/Application.php:115 | a resolution is recorded with its arguments, and the handle's serial is the call's position in the trace |
| `Collaborators.Container.AddPath` | src/Fuel/Foundation/Application.php:116 | `addPath` on the config container is recorded with its path |
| `Collaborators.Container.SetParent` | src/Fuel/Foundation/Application.php:117 | `setParent` on the config container is recorded with the parent |
| `Collaborators.Container.RegisterParser` | src/Fuel/Foundation/Application.php:136 | `registerParser` on the view manager is recorded with its key and parser |

## Left out

- Subclasses of this base class are not modelled. A subclass constructor
  that catches the exception from `parent::__construct` keeps a half-built
  object, with `appName` and `appNamespace` set and `appPath` null. And
  `method_exists($this, ...)` at line 153 searches the object's actual
  class, so `__get` would also reach a subclass's own `getX` methods;
  `Properties.Dispatch` sees only this class's 13 methods.

- src/Fuel/Foundation/ServicesProvider.php is not part of this model. It
  only registers factory closures with a container base class and builds
  classes that are outside these files.
- `getRequest` (lines 196-202): its body reads the global `\Input`
  singleton, calls the security container's `cleanUri` and resolves a
  request, all foreign code. Through `__get` it yields the opaque value
  `RequestFromInput`.
- Collaborators are opaque handles. What the config container, environment,
  security container, finder, view manager, parser and router do with
  their arguments is not modelled.
- Collaborator failures are not modelled: `Resolve` always succeeds. An
  exception raised inside `\Dependency::resolve` or inside a collaborator
  would leave construction half done.
- `\Config::getInstance()` (line 117), a global singleton, is passed in as
  the handle `globalConfig`.
- `is_dir` and `realpath` are read from a fixed snapshot. `realpath`
  returning `false` for a directory it cannot resolve is not modelled.
- `DS` is fixed to `'/'`. On Windows it would be `'\\'`.
- `ucfirst` and the method-name lower-casing are ASCII-only. Older PHP
  versions made `ucfirst` depend on the locale.
- `__get` with a property that is not a string, which PHP would convert
  first, is not modelled.
- The unused protected field `$request` (line 78) is not modelled.
- PHP's internal array pointer, which `end()` moves in `getActiveRequest`,
  is not modelled. Nothing in the class reads that pointer.
- `setActiveRequest` has the type hint `Request $request = null`. Callers
  passing anything other than a request or null is excluded by the type
  `Option<Request>`.
