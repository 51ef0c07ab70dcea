/** The exceptions the clients raise, and the Python subscripting and
    iteration whose failures (KeyError, TypeError, IndexError) the clients let
    propagate. */
module Errors {
  import opened Wrappers
  import opened Values

  /** `googleapiclient.errors.HttpError`: the HTTP status and `str(e)`, the
      text the classifiers search. */
  datatype HttpError = HttpError(status: int, message: string)

  datatype Error =
    // google_api_clients/errors.py: local validation against the discovery document
    | ResourceNameError(resourceName: string)
    | MethodNameError(methodName: string)
    // a transport error re-raised unchanged
    | Http(cause: HttpError)
    // bigquery/errors.py and pubsub/errors.py, each wrapping the transport error
    | AlreadyExistsError(cause: HttpError)
    | NotFoundError(cause: HttpError)
    | ParameterError(cause: HttpError)
    | DatasetIsNotEmptyError(cause: HttpError)
    | Http4xxError(cause: HttpError)
    | Http5xxError(cause: HttpError)
    | AcknowledgeError(cause: HttpError)
    // an error embedded in a successful BigQuery response body
    | BigQueryError(payload: Value)
    | LoadError(message: string)
    | JobWaitTimeoutError(message: string)
    // Python's own exceptions on a missing key, a wrong type or an empty list
    | KeyError(key: string)
    | TypeError
    | IndexError
    | AttributeError(name: string)
    // not a Python exception: the model's bound on unbounded recursion ran out
    | OutOfFuel

  /** `v[key]` on a response or a kwargs dict. */
  function Index(v: Value, key: string): (r: Result<Value, Error>)
    ensures r.Success? <==> Has(v, key)
    ensures r.Success? ==> r.value == v.fields[key]
    ensures v.Dict? && key !in v.fields ==> r == Failure(KeyError(key))
  {
    if !v.Dict? then Failure(TypeError)
    else if key in v.fields then Success(v.fields[key])
    else Failure(KeyError(key))
  }

  /** `v[k1][k2]`. */
  function Index2(v: Value, k1: string, k2: string): Result<Value, Error>
  {
    var inner :- Index(v, k1);
    Index(inner, k2)
  }

  /** The items a `for` loop or comprehension iterates over. */
  function Items(v: Value): (r: Result<seq<Value>, Error>)
    ensures r.Success? <==> v.List?
    ensures r.Success? ==> r.value == v.items
  {
    if v.List? then Success(v.items) else Failure(TypeError)
  }

  /** `[f(x) for x in items]`: every item mapped in order, and the first
      item whose `f` raises makes the whole comprehension raise. */
  function MapItems<T>(f: Value -> Result<T, Error>, items: seq<Value>): (r: Result<seq<T>, Error>)
    ensures r.Success? <==> forall i :: 0 <= i < |items| ==> f(items[i]).Success?
    ensures r.Success? ==> |r.value| == |items|
    ensures r.Success? ==> forall i :: 0 <= i < |items| ==> f(items[i]) == Success(r.value[i])
    ensures r.Failure? ==> exists i :: 0 <= i < |items| && f(items[i]) == Failure(r.error)
                            && forall j :: 0 <= j < i ==> f(items[j]).Success?
  {
    if |items| == 0 then Success([])
    else
      match f(items[0])
      case Failure(e) => Failure(e)
      case Success(x) =>
        match MapItems(f, items[1..])
        case Failure(e) => (ghost var i :| 0 <= i < |items| - 1 && f(items[1..][i]) == Failure(e)
                                            && forall j :: 0 <= j < i ==> f(items[1..][j]).Success?;
                            assert f(items[i + 1]) == Failure(e);
                            Failure(e))
        case Success(rest) => Success([x] + rest)
  }

  /** Mapping one more item: the comprehension so far, then that item. */
  lemma {:induction false} MapItemsSnoc<T>(f: Value -> Result<T, Error>, items: seq<Value>, x: Value)
    ensures MapItems(f, items + [x]) ==
              match MapItems(f, items)
              case Failure(e) => Failure(e)
              case Success(done) =>
                match f(x)
                case Failure(e) => Failure(e)
                case Success(y) => Success(done + [y])
  {
    if |items| == 0 {
      assert items + [x] == [x];
      assert [x][1..] == [];
      assert MapItems(f, [x][1..]) == Success([]);
      if f(x).Success? {
        assert [f(x).value] + [] == [] + [f(x).value];
      }
    } else {
      assert (items + [x])[0] == items[0];
      assert (items + [x])[1..] == items[1..] + [x];
      MapItemsSnoc(f, items[1..], x);
      if f(items[0]).Success? && MapItems(f, items[1..]).Success? && f(x).Success? {
        assert [f(items[0]).value] + (MapItems(f, items[1..]).value + [f(x).value])
            == ([f(items[0]).value] + MapItems(f, items[1..]).value) + [f(x).value];
      }
    }
  }

  /** The first item that raises decides the comprehension's error. */
  lemma {:induction false} MapItemsStopsAt<T>(f: Value -> Result<T, Error>, items: seq<Value>, i: nat)
    requires i < |items| && MapItems(f, items[..i]).Success? && f(items[i]).Failure?
    ensures MapItems(f, items) == Failure(f(items[i]).error)
    decreases i
  {
    if i > 0 {
      assert items[..i][0] == items[0];
      assert items[..i][1..] == items[1..][..i - 1];
      MapItemsStopsAt(f, items[1..], i - 1);
    }
  }
}
