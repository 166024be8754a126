/**
 * The objects the application hands work to. The dependency container
 * (`\Dependency::resolve`) and the collaborators it builds are foreign
 * code: here each call made to them is recorded, in order, with its
 * arguments, and each resolution yields a handle that stands for the
 * object built.
 */
module Collaborators {

  /** An object built by the container, known by its service name and a serial number. */
  datatype Handle = Handle(service: string, serial: nat)

  /** An argument passed to the container or to a collaborator. */
  datatype Arg =
    | Self                               // the application being constructed, `$this`
    | Scalar(text: string)               // a scalar such as the environment name
    | Ref(handle: Handle)                // an object built earlier
    | Paths(paths: seq<string>)          // a list of search paths
    | Options(options: map<string, string>)

  /** One call out of the application, as it was made. */
  datatype Call =
    | Resolved(service: string, args: seq<Arg>)                    // the container builds a service
    | PathAdded(config: Handle, path: string)                      // a config container gets a load path
    | ParentSet(config: Handle, parent: Handle)                    // a config container gets a parent
    | ParserRegistered(view: Handle, key: string, parser: Handle)  // a view manager gets a template parser

  /** The service names resolved by a sequence of calls, in order. */
  function Resolutions(calls: seq<Call>): seq<string> {
    if calls == [] then []
    else (if calls[0].Resolved? then [calls[0].service] else []) + Resolutions(calls[1..])
  }

  /** The resolutions of two runs of calls, one after the other. */
  lemma {:induction false} ResolutionsAppend(a: seq<Call>, b: seq<Call>)
    ensures Resolutions(a + b) == Resolutions(a) + Resolutions(b)
  {
    if a != [] {
      assert (a + b)[0] == a[0];
      assert (a + b)[1..] == a[1..] + b;
      ResolutionsAppend(a[1..], b);
      var head := if a[0].Resolved? then [a[0].service] else [];
      assert head + (Resolutions(a[1..]) + Resolutions(b)) == (head + Resolutions(a[1..])) + Resolutions(b);
    } else {
      assert a + b == b;
    }
  }

  /** `Resolutions` read one call at a time from position `k`. */
  lemma ResolutionsFrom(calls: seq<Call>, k: nat)
    requires k < |calls|
    ensures Resolutions(calls[k..]) ==
            (if calls[k].Resolved? then [calls[k].service] else []) + Resolutions(calls[k + 1..])
  {
    assert calls[k..][1..] == calls[k + 1..];
  }

  /** The container together with the record of every call made out of the application. */
  class Container {
    var trace: seq<Call>

    constructor ()
      ensures trace == []
    {
      trace := [];
    }

    /** Records the resolution of `service` with its arguments; the handle's serial is the call's position in the trace. */
    method Resolve(service: string, args: seq<Arg>) returns (h: Handle)
      modifies this
      ensures trace == old(trace) + [Resolved(service, args)]
      ensures h == Handle(service, |old(trace)|)
    {
      h := Handle(service, |trace|);
      trace := trace + [Resolved(service, args)];
    }

    method AddPath(config: Handle, path: string)
      modifies this
      ensures trace == old(trace) + [PathAdded(config, path)]
    {
      trace := trace + [PathAdded(config, path)];
    }

    method SetParent(config: Handle, parent: Handle)
      modifies this
      ensures trace == old(trace) + [ParentSet(config, parent)]
    {
      trace := trace + [ParentSet(config, parent)];
    }

    method RegisterParser(view: Handle, key: string, parser: Handle)
      modifies this
      ensures trace == old(trace) + [ParserRegistered(view, key, parser)]
    {
      trace := trace + [ParserRegistered(view, key, parser)];
    }
  }
}
