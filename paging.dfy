/** Page-token pagination, shared by every listing of both clients. The
    source recurses once per page (`ret.extend(self.show_datasets(**options))`);
    the model states that recursion as `Paginate`, bounded by `fuel` since
    nothing in the source bounds it, and runs it as the loop `PaginateLoop`. */
module Paging {
  import opened Wrappers
  import opened Values
  import opened Errors

  /** The outcome of fetching one page: its items, and the state for the next
      request when the page asks for a continuation. */
  datatype Step<S, T> = Last(items: seq<T>) | More(items: seq<T>, next: S)

  /** The items of one page followed by the rest of the listing; a page that
      raises makes the whole listing raise, whatever came before. */
  function Prepend<T>(items: seq<T>, rest: Result<seq<T>, Error>): Result<seq<T>, Error>
  {
    match rest
    case Success(tail) => Success(items + tail)
    case Failure(e) => Failure(e)
  }

  /** The listing as the source's recursion computes it. */
  function Paginate<S, T>(step: S -> Result<Step<S, T>, Error>, s: S, fuel: nat): Result<seq<T>, Error>
    decreases fuel
  {
    if fuel == 0 then Failure(OutOfFuel)
    else match step(s)
      case Failure(e) => Failure(e)
      case Success(Last(items)) => Success(items)
      case Success(More(items, next)) => Prepend(items, Paginate(step, next, fuel - 1))
  }

  /** The listing as a loop that accumulates page after page. */
  method PaginateLoop<S, T>(step: S -> Result<Step<S, T>, Error>, s: S, fuel: nat) returns (r: Result<seq<T>, Error>)
    ensures r == Paginate(step, s, fuel)
  {
    var acc: seq<T> := [];
    var current := s;
    var left := fuel;
    match Paginate(step, s, fuel) {
      case Success(tail) => assert [] + tail == tail;
      case Failure(_) =>
    }
    while left > 0
      invariant Paginate(step, s, fuel) == Prepend(acc, Paginate(step, current, left))
      decreases left
    {
      var outcome := step(current);
      if outcome.Failure? {
        return Failure(outcome.error);
      }
      match outcome.value {
        case Last(items) =>
          return Success(acc + items);
        case More(items, next) =>
          PrependAssoc(acc, items, Paginate(step, next, left - 1));
          acc := acc + items;
          current := next;
          left := left - 1;
      }
    }
    r := Failure(OutOfFuel);
  }

  lemma PrependAssoc<T>(acc: seq<T>, items: seq<T>, rest: Result<seq<T>, Error>)
    ensures Prepend(acc, Prepend(items, rest)) == Prepend(acc + items, rest)
  {
    if rest.Success? {
      assert acc + (items + rest.value) == (acc + items) + rest.value;
    }
  }

  function Concat<T>(pages: seq<seq<T>>): seq<T>
  {
    if |pages| == 0 then [] else pages[0] + Concat(pages[1..])
  }

  /** The states visited and the pages obtained by a listing that ends after
      `|pages|` requests. */
  ghost predicate Chain<S, T>(step: S -> Result<Step<S, T>, Error>, states: seq<S>, pages: seq<seq<T>>)
  {
    && |states| == |pages| > 0
    && (forall k :: 0 <= k < |states| - 1 ==> step(states[k]) == Success(More(pages[k], states[k + 1])))
    && step(states[|states| - 1]) == Success(Last(pages[|pages| - 1]))
  }

  /** A listing that ends after n requests returns the pages' items in page
      order, once fuel covers the n requests. */
  lemma {:induction false} PaginateChain<S, T>(step: S -> Result<Step<S, T>, Error>, states: seq<S>, pages: seq<seq<T>>, fuel: nat)
    requires Chain(step, states, pages) && |states| <= fuel
    ensures Paginate(step, states[0], fuel) == Success(Concat(pages))
    decreases |states|
  {
    if |states| > 1 {
      assert Chain(step, states[1..], pages[1..]) by {
        forall k | 0 <= k < |states| - 2
          ensures step(states[1..][k]) == Success(More(pages[1..][k], states[1..][k + 1]))
        {
          assert step(states[k + 1]) == Success(More(pages[k + 1], states[k + 2]));
        }
      }
      PaginateChain(step, states[1..], pages[1..], fuel - 1);
      assert states[1..][0] == states[1];
      assert step(states[0]) == Success(More(pages[0], states[1]));
      assert Concat(pages) == pages[0] + Concat(pages[1..]);
    } else {
      assert step(states[0]) == Success(Last(pages[0]));
      assert pages[1..] == [];
      assert Concat(pages) == pages[0] + Concat(pages[1..]) == pages[0];
    }
  }

  /** How a listing reads a response: the key of its items, the key of its
      continuation token, and whether it also advances `start_index`. */
  datatype Listing = Listing(itemKey: string, tokenKey: string, advanceStart: bool)

  /** The options of the next request: `options['page_token']` set to the
      token and, for row listings, `options['start_index']` advanced by this
      page's row count (`options.get('start_index', 0) + len(rows)`). */
  function NextOptions(o: Bag, token: Value, count: nat, advanceStart: bool): (r: Result<Bag, Error>)
    ensures r.Success? ==> r.value.Keys == o.Keys + {"page_token"} + (if advanceStart then {"start_index"} else {})
    ensures r.Success? ==> r.value["page_token"] == token
    ensures r.Success? ==> forall k :: k in o && k != "page_token" && k != "start_index" ==> r.value[k] == o[k]
    ensures !advanceStart ==> r.Success? && (forall k :: k in o && k != "page_token" ==> r.value[k] == o[k])
    ensures advanceStart && "start_index" !in o ==> r.Success? && r.value["start_index"] == Int(count)
    ensures advanceStart && "start_index" in o && o["start_index"].Int? ==>
              r.Success? && r.value["start_index"] == Int(o["start_index"].i + count)
    ensures advanceStart && "start_index" in o && !o["start_index"].Int? && !o["start_index"].Bool? ==> r == Failure(TypeError)
  {
    var withToken := o["page_token" := token];
    if !advanceStart then Success(withToken)
    else match Get(o, "start_index", Int(0))
      case Int(n) => Success(withToken["start_index" := Int(n + count)])
      case Bool(b) => Success(withToken["start_index" := Int((if b then 1 else 0) + count)])
      case _ => Failure(TypeError)
  }

  /** One page of a token-driven listing: no item key gives no items and no
      continuation; otherwise every item is extracted, and a token asks for
      the next page. */
  function ListStep<T>(fetch: Bag -> Result<Value, Error>, l: Listing, extract: Value -> Result<T, Error>, o: Bag)
    : Result<Step<Bag, T>, Error>
  {
    var res :- fetch(o);
    if !Has(res, l.itemKey) then Success(Last([]))
    else
      var items :- Items(res.fields[l.itemKey]);
      var ids :- MapItems(extract, items);
      if Has(res, l.tokenKey) then
        var next :- NextOptions(o, res.fields[l.tokenKey], |items|, l.advanceStart);
        Success(More(ids, next))
      else Success(Last(ids))
  }

  /** A token-driven listing. */
  function List<T>(fetch: Bag -> Result<Value, Error>, l: Listing, extract: Value -> Result<T, Error>, o: Bag, fuel: nat)
    : Result<seq<T>, Error>
  {
    Paginate((o': Bag) => ListStep(fetch, l, extract, o'), o, fuel)
  }

  /** A response page the listing can read: items, when present, form a list
      every element of which `extract` accepts. */
  ghost predicate Readable<T>(res: Value, l: Listing, extract: Value -> Result<T, Error>)
  {
    Has(res, l.itemKey) ==>
      res.fields[l.itemKey].List? &&
      forall i :: 0 <= i < |res.fields[l.itemKey].items| ==> extract(res.fields[l.itemKey].items[i]).Success?
  }

  /** The items a readable page contributes. */
  ghost function PageItems<T>(res: Value, l: Listing, extract: Value -> Result<T, Error>): seq<T>
    requires Readable(res, l, extract)
  {
    if !Has(res, l.itemKey) then []
    else MapItems(extract, res.fields[l.itemKey].items).value
  }

  function RowCount(res: Value, l: Listing): nat {
    if Has(res, l.itemKey) && res.fields[l.itemKey].List? then |res.fields[l.itemKey].items| else 0
  }

  /** The service answers the request made with options `o` with `resps[0]`,
      and each following request, made with the previous page's token, with
      the next response; the last response has no token or no items. */
  ghost predicate Pages<T>(fetch: Bag -> Result<Value, Error>, l: Listing, extract: Value -> Result<T, Error>, o: Bag, resps: seq<Value>)
    decreases |resps|
  {
    && |resps| > 0
    && fetch(o) == Success(resps[0])
    && Readable(resps[0], l, extract)
    && if |resps| == 1 then !Has(resps[0], l.itemKey) || !Has(resps[0], l.tokenKey)
       else
         && Has(resps[0], l.itemKey) && Has(resps[0], l.tokenKey)
         && var next := NextOptions(o, resps[0].fields[l.tokenKey], RowCount(resps[0], l), l.advanceStart);
            next.Success? && Pages(fetch, l, extract, next.value, resps[1..])
  }

  ghost function AllItems<T>(resps: seq<Value>, l: Listing, extract: Value -> Result<T, Error>): seq<T>
    requires forall i :: 0 <= i < |resps| ==> Readable(resps[i], l, extract)
  {
    if |resps| == 0 then [] else PageItems(resps[0], l, extract) + AllItems(resps[1..], l, extract)
  }

  lemma {:induction false} PagesReadable<T>(fetch: Bag -> Result<Value, Error>, l: Listing, extract: Value -> Result<T, Error>, o: Bag, resps: seq<Value>)
    requires Pages(fetch, l, extract, o, resps)
    ensures forall i :: 0 <= i < |resps| ==> Readable(resps[i], l, extract)
    decreases |resps|
  {
    if |resps| > 1 {
      var next := NextOptions(o, resps[0].fields[l.tokenKey], RowCount(resps[0], l), l.advanceStart);
      PagesReadable(fetch, l, extract, next.value, resps[1..]);
      forall i | 1 <= i < |resps| ensures Readable(resps[i], l, extract) {
        assert resps[i] == resps[1..][i - 1];
      }
    }
  }

  /** A listing over `n` responses makes `n` requests, each after the first
      carrying the previous page's token, and returns every page's items
      concatenated in page order. */
  lemma {:induction false} ListConcatenatesPages<T>(fetch: Bag -> Result<Value, Error>, l: Listing, extract: Value -> Result<T, Error>, o: Bag, resps: seq<Value>, fuel: nat)
    requires Pages(fetch, l, extract, o, resps) && |resps| <= fuel
    ensures forall i :: 0 <= i < |resps| ==> Readable(resps[i], l, extract)
    ensures List(fetch, l, extract, o, fuel) == Success(AllItems(resps, l, extract))
    decreases |resps|
  {
    PagesReadable(fetch, l, extract, o, resps);
    var res := resps[0];
    if Has(res, l.itemKey) {
      MapItemsReadable(res, l, extract);
    }
    if |resps| > 1 {
      var next := NextOptions(o, res.fields[l.tokenKey], RowCount(res, l), l.advanceStart);
      ListConcatenatesPages(fetch, l, extract, next.value, resps[1..], fuel - 1);
      assert ListStep(fetch, l, extract, o) == Success(More(PageItems(res, l, extract), next.value));
    } else {
      var step := (o': Bag) => ListStep(fetch, l, extract, o');
      assert step(o) == ListStep(fetch, l, extract, o) == Success(Last(PageItems(res, l, extract)));
      assert List(fetch, l, extract, o, fuel) == Paginate(step, o, fuel) == Success(PageItems(res, l, extract));
      assert resps[1..] == [];
      assert AllItems(resps[1..], l, extract) == [];
      assert AllItems(resps, l, extract) == PageItems(res, l, extract) + [] == PageItems(res, l, extract);
    }
  }

  lemma MapItemsReadable<T>(res: Value, l: Listing, extract: Value -> Result<T, Error>)
    requires Readable(res, l, extract) && Has(res, l.itemKey)
    ensures MapItems(extract, res.fields[l.itemKey].items).Success?
  {
  }

  /** A page without the item key contributes nothing and ends the listing,
      even when it carries a token. */
  lemma MissingItemKeyStops<T>(fetch: Bag -> Result<Value, Error>, l: Listing, extract: Value -> Result<T, Error>, o: Bag, res: Value, fuel: nat)
    requires fuel > 0 && fetch(o) == Success(res) && !Has(res, l.itemKey)
    ensures List(fetch, l, extract, o, fuel) == Success([])
  {
  }

  /** A listing that does not advance `start_index`, over a service that
      answers the request after a page with that same page, repeats the page
      for as long as it is allowed to. */
  lemma {:induction false} RepeatedPageNeverEnds<T>(fetch: Bag -> Result<Value, Error>, l: Listing, extract: Value -> Result<T, Error>, o: Bag, res: Value, fuel: nat)
    requires !l.advanceStart && Readable(res, l, extract) && Has(res, l.itemKey) && Has(res, l.tokenKey)
    requires fetch(o) == Success(res) && fetch(o["page_token" := res.fields[l.tokenKey]]) == Success(res)
    ensures List(fetch, l, extract, o, fuel) == Failure(OutOfFuel)
    decreases fuel
  {
    if fuel > 0 {
      var next := o["page_token" := res.fields[l.tokenKey]];
      MapItemsReadable(res, l, extract);
      assert NextOptions(o, res.fields[l.tokenKey], |res.fields[l.itemKey].items|, false) == Success(next);
      assert next["page_token" := res.fields[l.tokenKey]] == next;
      RepeatedPageNeverEnds(fetch, l, extract, next, res, fuel - 1);
      assert ListStep(fetch, l, extract, o) == Success(More(MapItems(extract, res.fields[l.itemKey].items).value, next));
    }
  }
}
