/** The discovery-backed dispatcher (`GoogleApiClient`): it resolves a
    resource path and a method name against the service's discovery document,
    filters the caller's keyword arguments down to the method's declared
    parameters plus `body` and `media_body`, and hands the call to the remote
    service. The service proxy and `.execute()` are the oracle `Remote`. */
module Dispatcher {
  import opened Wrappers
  import opened Values
  import opened Errors

  /** A declared parameter; `required` is never consulted by the dispatcher. */
  datatype Param = Param(required: bool)
  /** A method entry; `parameters` is None when the entry has no such key. */
  datatype Method = Method(parameters: Option<map<string, Param>>)
  /** A resource entry with its optional `resources` and `methods` tables. */
  datatype Resource = Resource(resources: Option<map<string, Resource>>, methods: Option<map<string, Method>>)
  /** The decoded discovery document, of which only `resources` is read. */
  datatype Discovery = Discovery(resources: Option<map<string, Resource>>)

  /** The `resource` argument: one resource name, or a list of nested ones. */
  datatype ResourceArg = Name(name: string) | Names(names: seq<string>)

  /** The call the dispatcher makes once names and parameters are checked. */
  datatype Invocation = Invocation(path: seq<string>, methodName: string, params: Bag)

  /** What `.execute()` gives back: a decoded body, or an `HttpError`. */
  datatype Reply = Response(body: Value) | Failed(error: HttpError)

  /** The remote service; the `nat` is the logical clock, in seconds, at
      which the call is made. */
  type Remote = (Invocation, nat) -> Reply

  /** A built dispatcher: its discovery document and the service behind it. */
  datatype Service = Service(doc: Discovery, remote: Remote)

  /** How a client authenticates; acquiring the credential itself is I/O. */
  datatype Credentials = ApplicationDefault | ServiceAccountKey(account: Value, keyFile: Value, scope: Value)

  const DiscoveryPrefix := "https://www.googleapis.com/discovery/v1/apis/"

  /** The URI the discovery document of `api` at `version` is fetched from. */
  function DiscoveryUri(api: string, version: string): (uri: string)
    ensures |uri| == |DiscoveryPrefix| + |api| + |version| + 6
    ensures uri[..|DiscoveryPrefix|] == DiscoveryPrefix
    ensures uri[|DiscoveryPrefix|..|DiscoveryPrefix| + |api|] == api
    ensures uri[|DiscoveryPrefix| + |api|] == '/'
    ensures uri[|DiscoveryPrefix| + |api| + 1..|uri| - 5] == version
    ensures uri[|uri| - 5..] == "/rest"
  {
    DiscoveryPrefix + api + "/" + version + "/rest"
  }

  /** Distinct APIs or versions fetch distinct documents (names without '/'). */
  lemma DiscoveryUriInjective(a1: string, v1: string, a2: string, v2: string)
    requires '/' !in a1 && '/' !in a2
    requires DiscoveryUri(a1, v1) == DiscoveryUri(a2, v2)
    ensures a1 == a2 && v1 == v2
  {
    var u := DiscoveryUri(a1, v1);
    var n := |DiscoveryPrefix|;
    assert u[n + |a1|] == '/';
    assert u[n + |a2|] == '/';
  }

  function Segments(arg: ResourceArg): (path: seq<string>)
    ensures arg.Name? ==> path == [arg.name]
    ensures arg.Names? ==> path == arg.names
  {
    match arg
    case Name(n) => [n]
    case Names(ns) => ns
  }

  /** The inputs the model covers: with an empty list of names the source
      looks 'methods' up in the top-level resources table itself, which fails
      with KeyError unless a resource is literally called "methods". */
  predicate Dispatchable(doc: Discovery, arg: ResourceArg) {
    !(Segments(arg) == [] && doc.resources.Some? && "methods" in doc.resources.value)
  }

  /** The left-to-right walk: the first segment in `table`, each later one in
      the `resources` table of the resource found before it. */
  function ResolveIn(table: map<string, Resource>, path: seq<string>): Result<Resource, Error>
    requires |path| > 0
    decreases |path|
  {
    if path[0] !in table then Failure(ResourceNameError(path[0]))
    else if |path| == 1 then Success(table[path[0]])
    else match table[path[0]].resources
      case None => Failure(KeyError("resources"))
      case Some(nested) => ResolveIn(nested, path[1..])
  }

  /** Once a prefix of the path fails, the segments after it are never
      examined: the whole path fails the same way. */
  lemma {:induction false} ResolveFailedPrefix(table: map<string, Resource>, p: seq<string>, q: seq<string>)
    requires |p| > 0 && ResolveIn(table, p).Failure?
    ensures ResolveIn(table, p + q) == ResolveIn(table, p)
    decreases |p|
  {
    assert (p + q)[0] == p[0];
    if p[0] in table && |p| > 1 {
      assert (p + q)[1..] == p[1..] + q;
      if table[p[0]].resources.Some? {
        ResolveFailedPrefix(table[p[0]].resources.value, p[1..], q);
      }
    }
  }

  /** One more segment is looked up in the `resources` table of the resource
      the path so far resolved to. */
  lemma {:induction false} ResolveExtend(table: map<string, Resource>, p: seq<string>, seg: string, found: Resource)
    requires |p| > 0 && ResolveIn(table, p) == Success(found)
    ensures ResolveIn(table, p + [seg]) ==
              match found.resources
              case None => Failure(KeyError("resources"))
              case Some(nested) =>
                if seg in nested then Success(nested[seg]) else Failure(ResourceNameError(seg))
    decreases |p|
  {
    assert (p + [seg])[0] == p[0];
    if |p| == 1 {
      assert (p + [seg])[1..] == [seg];
    } else {
      assert (p + [seg])[1..] == p[1..] + [seg];
      ResolveExtend(table[p[0]].resources.value, p[1..], seg, found);
    }
  }

  /** The parameter bag: the caller's arguments that the method declares,
      plus `body` and `media_body` whenever they are given. */
  function FilterParams(declared: set<string>, kwargs: Bag): (bag: Bag)
    ensures forall k :: k in bag <==> k in kwargs && (k in declared || k == "body" || k == "media_body")
    ensures forall k :: k in bag ==> bag[k] == kwargs[k]
  {
    map k | k in kwargs && (k in declared || k == "body" || k == "media_body") :: kwargs[k]
  }

  /** `GoogleApiClient.request` up to the remote call: the invocation it would
      make, or the error it raises first. */
  function Dispatch(doc: Discovery, arg: ResourceArg, methodName: string, kwargs: Bag): Result<Invocation, Error>
    requires Dispatchable(doc, arg)
  {
    var path := Segments(arg);
    if doc.resources.None? then Failure(KeyError("resources"))
    else if path == [] then Failure(KeyError("methods"))
    else
      var found :- ResolveIn(doc.resources.value, path);
      if found.methods.None? then Failure(KeyError("methods"))
      else if methodName !in found.methods.value then Failure(MethodNameError(methodName))
      else
        var m := found.methods.value[methodName];
        if m.parameters.None? then Failure(KeyError("parameters"))
        else Success(Invocation(path, methodName, FilterParams(m.parameters.value.Keys, kwargs)))
  }

  /** The method the path and name designate, when the document has one. */
  ghost function Target(doc: Discovery, path: seq<string>, methodName: string): Option<Method>
  {
    if doc.resources.None? || path == [] then None
    else match ResolveIn(doc.resources.value, path)
      case Failure(_) => None
      case Success(found) =>
        if found.methods.Some? && methodName in found.methods.value
        then Some(found.methods.value[methodName]) else None
  }

  /** A single resource name is the one-element path. */
  lemma SingleNameIsOnePath(doc: Discovery, name: string, methodName: string, kwargs: Bag)
    ensures Dispatch(doc, Name(name), methodName, kwargs) == Dispatch(doc, Names([name]), methodName, kwargs)
  {
  }

  /** A path that resolves but whose resource lacks the method fails with
      MethodNameError naming the method. */
  lemma UnknownMethod(doc: Discovery, arg: ResourceArg, methodName: string, kwargs: Bag, found: Resource)
    requires doc.resources.Some? && Segments(arg) != []
    requires ResolveIn(doc.resources.value, Segments(arg)) == Success(found)
    requires found.methods.Some? && methodName !in found.methods.value
    ensures Dispatch(doc, arg, methodName, kwargs) == Failure(MethodNameError(methodName))
  {
  }

  /** The first segment missing at its level is the one ResourceNameError
      names, whatever the segments after it are. */
  lemma {:induction false} FirstMissingSegment(doc: Discovery, arg: ResourceArg, methodName: string, kwargs: Bag, i: nat, found: Resource)
    requires doc.resources.Some? && i < |Segments(arg)|
    requires i > 0 ==> ResolveIn(doc.resources.value, Segments(arg)[..i]) == Success(found)
    requires i > 0 ==> found.resources.Some? && Segments(arg)[i] !in found.resources.value
    requires i == 0 ==> Segments(arg)[0] !in doc.resources.value
    ensures Dispatch(doc, arg, methodName, kwargs) == Failure(ResourceNameError(Segments(arg)[i]))
  {
    var path := Segments(arg);
    var top := doc.resources.value;
    if i > 0 {
      ResolveExtend(top, path[..i], path[i], found);
      assert path[..i] + [path[i]] == path[..i + 1];
      assert path[..i + 1] + path[i + 1..] == path;
      ResolveFailedPrefix(top, path[..i + 1], path[i + 1..]);
    } else {
      assert [path[0]] + path[1..] == path;
    }
  }

  /** What a successful dispatch forwards: exactly the caller's declared
      arguments and `body`/`media_body`, with their values unchanged, whether
      or not the method marks a parameter as required. */
  lemma DispatchForwards(doc: Discovery, arg: ResourceArg, methodName: string, kwargs: Bag, inv: Invocation)
    requires Dispatchable(doc, arg)
    requires Dispatch(doc, arg, methodName, kwargs) == Success(inv)
    ensures inv.path == Segments(arg) && inv.methodName == methodName
    ensures Target(doc, inv.path, methodName).Some?
    ensures Target(doc, inv.path, methodName).value.parameters.Some?
    ensures forall k :: k in inv.params <==>
              k in kwargs && (k in Target(doc, inv.path, methodName).value.parameters.value || k == "body" || k == "media_body")
    ensures forall k :: k in inv.params ==> inv.params[k] == kwargs[k]
  {
  }

  /** Declared parameters that the caller leaves out, required or not, do not
      stop this dispatcher: `request` itself checks nothing, and the check
      that the generated client method makes before any HTTP call lies
      outside this model. */
  lemma NoRequiredParameterCheck(doc: Discovery, arg: ResourceArg, methodName: string, m: Method)
    requires Dispatchable(doc, arg) && Segments(arg) != []
    requires Target(doc, Segments(arg), methodName) == Some(m) && m.parameters.Some?
    ensures Dispatch(doc, arg, methodName, map[]).Success?
    ensures Dispatch(doc, arg, methodName, map[]).value.params == map[]
  {
  }

  /** `request` with the remote call: a transport error propagates from this
      layer unchanged, any other failure is a local one. */
  function Call(svc: Service, now: nat, arg: ResourceArg, methodName: string, kwargs: Bag): (r: Result<Value, Error>)
    requires Dispatchable(svc.doc, arg)
    ensures Dispatch(svc.doc, arg, methodName, kwargs).Failure? ==> r == Failure(Dispatch(svc.doc, arg, methodName, kwargs).error)
    ensures Dispatch(svc.doc, arg, methodName, kwargs).Success? ==>
              match svc.remote(Dispatch(svc.doc, arg, methodName, kwargs).value, now)
              case Response(body) => r == Success(body)
              case Failed(e) => r == Failure(Http(e))
  {
    var inv :- Dispatch(svc.doc, arg, methodName, kwargs);
    match svc.remote(inv, now)
    case Response(body) => Success(body)
    case Failed(e) => Failure(Http(e))
  }

  /** A dispatch never raises an HttpError itself. */
  lemma DispatchIsLocal(doc: Discovery, arg: ResourceArg, methodName: string, kwargs: Bag)
    requires Dispatchable(doc, arg)
    requires Dispatch(doc, arg, methodName, kwargs).Failure?
    ensures var e := Dispatch(doc, arg, methodName, kwargs).error;
              e.ResourceNameError? || e == MethodNameError(methodName) ||
              e == KeyError("resources") || e == KeyError("methods") || e == KeyError("parameters")
  {
    var path := Segments(arg);
    if doc.resources.Some? && path != [] && ResolveIn(doc.resources.value, path).Failure? {
      ResolveErrors(doc.resources.value, path);
    }
  }

  lemma {:induction false} ResolveErrors(table: map<string, Resource>, path: seq<string>)
    requires |path| > 0 && ResolveIn(table, path).Failure?
    ensures ResolveIn(table, path).error.ResourceNameError? || ResolveIn(table, path).error == KeyError("resources")
    decreases |path|
  {
    if path[0] in table && |path| > 1 && table[path[0]].resources.Some? {
      ResolveErrors(table[path[0]].resources.value, path[1..]);
    }
  }

  /** The dispatcher object: its options, fixed at construction, then the
      credentials `auth` sets and the document `build` sets. */
  class GoogleApiClient {
    var serviceAccount: Value
    var privateKey: Value
    var projectId: Value
    var scope: Value
    var credentials: Option<Credentials>
    var discoveryUri: Option<string>
    var restDescription: Option<Discovery>

    constructor (options: Bag)
      ensures serviceAccount == Get(options, "service_account", Null)
      ensures privateKey == Get(options, "private_key", Null)
      ensures projectId == Get(options, "project_id", Null)
      ensures scope == Get(options, "scope", Null)
      ensures credentials == None && discoveryUri == None && restDescription == None
    {
      serviceAccount := Get(options, "service_account", Null);
      privateKey := Get(options, "private_key", Null);
      projectId := Get(options, "project_id", Null);
      scope := Get(options, "scope", Null);
      credentials := None;
      discoveryUri := None;
      restDescription := None;
    }

    /** A service account when one is configured, else the ambient credentials. */
    method Auth()
      modifies this`credentials
      ensures serviceAccount != Null ==> credentials == Some(ServiceAccountKey(serviceAccount, privateKey, scope))
      ensures serviceAccount == Null ==> credentials == Some(ApplicationDefault)
    {
      if serviceAccount != Null {
        credentials := Some(ServiceAccountKey(serviceAccount, privateKey, scope));
      } else {
        credentials := Some(ApplicationDefault);
      }
    }

    /** Records the discovery URI and the document fetched from it. */
    method Build(api: string, version: string, fetched: Discovery)
      modifies this`discoveryUri, this`restDescription
      ensures discoveryUri == Some(DiscoveryUri(api, version))
      ensures restDescription == Some(fetched)
    {
      discoveryUri := Some(DiscoveryUri(api, version));
      restDescription := Some(fetched);
    }

    /** The path walk and the parameter filtering of `request`, as the loops
        the source runs; before `build` there is no document to walk. */
    method Request(arg: ResourceArg, methodName: string, kwargs: Bag) returns (r: Result<Invocation, Error>)
      requires restDescription.Some? ==> Dispatchable(restDescription.value, arg)
      ensures restDescription.None? ==> r == Failure(AttributeError("rest_description"))
      ensures restDescription.Some? ==> r == Dispatch(restDescription.value, arg, methodName, kwargs)
    {
      if restDescription.None? {
        return Failure(AttributeError("rest_description"));
      }
      var doc := restDescription.value;
      var resources := Segments(arg);
      if doc.resources.None? {
        return Failure(KeyError("resources"));
      }
      if |resources| == 0 {
        // the walk never leaves the top-level table, which has no "methods" entry
        return Failure(KeyError("methods"));
      }
      var walked := Walk(doc.resources.value, resources);
      if walked.Failure? {
        return Failure(walked.error);
      }
      var current := walked.value;
      if current.methods.None? {
        return Failure(KeyError("methods"));
      }
      if methodName !in current.methods.value {
        return Failure(MethodNameError(methodName));
      }
      var m := current.methods.value[methodName];
      if m.parameters.None? {
        return Failure(KeyError("parameters"));
      }
      var parameters := FillParameters(m.parameters.value.Keys, kwargs);
      r := Success(Invocation(resources, methodName, parameters));
    }
  }

  /** The `for` loop of `request` that walks the path: each segment after
      the first is looked up in the `resources` table of the one before. */
  method Walk(top: map<string, Resource>, resources: seq<string>) returns (r: Result<Resource, Error>)
    requires |resources| > 0
    ensures r == ResolveIn(top, resources)
  {
    var table := top;
    var current := Resource(None, None);
    var i := 0;
    while i < |resources|
      invariant 0 <= i <= |resources|
      invariant i == 0 ==> table == top
      invariant i > 0 ==> ResolveIn(top, resources[..i]) == Success(current)
    {
      assert resources[..i] + [resources[i]] == resources[..i + 1];
      if i != 0 {
        if current.resources.None? {
          ResolveExtend(top, resources[..i], resources[i], current);
          FailAt(top, resources, i);
          return Failure(KeyError("resources"));
        }
        table := current.resources.value;
      }
      if i > 0 {
        ResolveExtend(top, resources[..i], resources[i], current);
      } else {
        assert resources[..1] == [resources[0]];
      }
      if resources[i] !in table {
        FailAt(top, resources, i);
        return Failure(ResourceNameError(resources[i]));
      }
      current := table[resources[i]];
      i := i + 1;
    }
    assert resources[..i] == resources;
    r := Success(current);
  }

  /** The loop that copies the declared parameters the caller passed, then
      `body` and `media_body`. */
  method FillParameters(declared: set<string>, kwargs: Bag) returns (parameters: Bag)
    ensures parameters == FilterParams(declared, kwargs)
  {
    parameters := map[];
    var remaining := declared;
    while remaining != {}
      invariant remaining <= declared
      invariant parameters == map k | k in declared - remaining && k in kwargs :: kwargs[k]
      decreases |remaining|
    {
      var p :| p in remaining;
      if p in kwargs {
        parameters := parameters[p := kwargs[p]];
      }
      remaining := remaining - {p};
    }
    if "body" in kwargs {
      parameters := parameters["body" := kwargs["body"]];
    }
    if "media_body" in kwargs {
      parameters := parameters["media_body" := kwargs["media_body"]];
    }
  }

  /** A walk that fails at segment `i` fails the whole path there. */
  lemma FailAt(top: map<string, Resource>, path: seq<string>, i: nat)
    requires i < |path| && ResolveIn(top, path[..i + 1]).Failure?
    ensures ResolveIn(top, path) == ResolveIn(top, path[..i + 1])
  {
    ResolveFailedPrefix(top, path[..i + 1], path[i + 1..]);
    assert path[..i + 1] + path[i + 1..] == path;
  }
}
