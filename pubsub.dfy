/** The Pub/Sub client (`google_api_clients/pubsub`): the two-rule error
    classification around the dispatcher, the resource-name strings, the
    topic and subscription helpers, the listings, `publish` with its base 64
    message data, `pull` and `acknowledge`. */
module PubSub {
  import opened Wrappers
  import opened Values
  import opened Text
  import opened Errors
  import opened Dispatcher
  import opened Paging
  import opened Base64

  const MaxMessages: int := 100000
  const AckDeadlineSeconds: int := 10

  /** A built client: its dispatcher and its default project. */
  datatype Client = Client(api: Service, projectId: string)

  const Topics := Names(["projects", "topics"])
  const Subscriptions := Names(["projects", "subscriptions"])
  const TopicSubscriptions := Names(["projects", "topics", "subscriptions"])

  /** The two rules: 404 with "not found" and 409 with "already exists"; any
      other transport error is re-raised as it is, with no 4xx/5xx wrapping. */
  function Classify(e: HttpError): (r: Error)
    ensures r.NotFoundError? <==> e.status == 404 && ContainsIgnoreCase(e.message, "not found")
    ensures r.AlreadyExistsError? <==> e.status == 409 && ContainsIgnoreCase(e.message, "already exists")
    ensures r.NotFoundError? || r.AlreadyExistsError? || r.Http?
    ensures r.cause == e
  {
    if e.status == 404 && ContainsIgnoreCase(e.message, "not found") then NotFoundError(e)
    else if e.status == 409 && ContainsIgnoreCase(e.message, "already exists") then AlreadyExistsError(e)
    else Http(e)
  }

  /** `PubSub.request`. */
  function Request(c: Client, now: nat, arg: ResourceArg, methodName: string, kwargs: Bag): Result<Value, Error>
    requires Dispatchable(c.api.doc, arg)
  {
    match Call(c.api, now, arg, methodName, kwargs)
    case Failure(Http(e)) => Failure(Classify(e))
    case Failure(err) => Failure(err)
    case Success(res) => Success(res)
  }

  /** Only a transport error is classified; the body of a reply comes back as
      the service sent it, whatever it holds. */
  lemma RequestOutcome(c: Client, now: nat, arg: ResourceArg, methodName: string, kwargs: Bag, inv: Invocation)
    requires Dispatchable(c.api.doc, arg)
    requires Dispatch(c.api.doc, arg, methodName, kwargs) == Success(inv)
    ensures match c.api.remote(inv, now)
            case Failed(e) => Request(c, now, arg, methodName, kwargs) == Failure(Classify(e))
            case Response(body) => Request(c, now, arg, methodName, kwargs) == Success(body)
  {
  }

  // ----- resource names -----

  /** `options.get('project_id', self.project_id)`, which the name builders
      concatenate: anything but a string is a TypeError there. */
  function ProjectOf(c: Client, o: Bag): (r: Result<string, Error>)
    ensures "project_id" !in o ==> r == Success(c.projectId)
    ensures "project_id" in o ==> (r.Success? <==> o["project_id"].Str?)
    ensures "project_id" in o && o["project_id"].Str? ==> r == Success(o["project_id"].s)
    ensures r.Failure? ==> r.error == TypeError
  {
    match Get(o, "project_id", Str(c.projectId))
    case Str(p) => Success(p)
    case _ => Failure(TypeError)
  }

  function ProjectPath(p: string): string {
    "projects/" + p
  }

  function TopicPath(p: string, topic: string): string {
    "projects/" + p + "/topics/" + topic
  }

  function SubscriptionPath(p: string, subscription: string): string {
    "projects/" + p + "/subscriptions/" + subscription
  }

  /** A topic or subscription name gives back its project and its short name:
      the last segment of the name is the short name, and the rest is fixed
      by the project, so different projects or different names never give
      the same string. */
  lemma NamesRoundTrip(p: string, name: string)
    requires '/' !in name
    ensures LastSegment(TopicPath(p, name)) == name
    ensures LastSegment(SubscriptionPath(p, name)) == name
    ensures TopicPath(p, name) == ProjectPath(p) + "/topics/" + name
  {
    assert TopicPath(p, name) == ("projects/" + p + "/topics") + "/" + name;
    assert SubscriptionPath(p, name) == ("projects/" + p + "/subscriptions") + "/" + name;
    LastSegmentAfterSlash("projects/" + p + "/topics", name);
    LastSegmentAfterSlash("projects/" + p + "/subscriptions", name);
  }

  lemma TopicPathInjective(p1: string, t1: string, p2: string, t2: string)
    requires '/' !in p1 && '/' !in p2 && '/' !in t1 && '/' !in t2
    requires TopicPath(p1, t1) == TopicPath(p2, t2)
    ensures p1 == p2 && t1 == t2
  {
    NamesRoundTrip(p1, t1);
    NamesRoundTrip(p2, t2);
    var s := TopicPath(p1, t1);
    assert |p1| == |p2| by {
      assert |s| == 9 + |p1| + 8 + |t1| == 9 + |p2| + 8 + |t2|;
    }
    assert p1 == s[9..9 + |p1|];
    assert p2 == s[9..9 + |p2|];
  }

  // ----- topics and subscriptions -----

  function TopicArgs(c: Client, key: string, topic: string, o: Bag): Result<Bag, Error> {
    var p :- ProjectOf(c, o);
    Success(map[key := Str(TopicPath(p, topic))])
  }

  function SubscriptionArgs(c: Client, subscription: string, o: Bag): Result<Bag, Error> {
    var p :- ProjectOf(c, o);
    Success(map["subscription" := Str(SubscriptionPath(p, subscription))])
  }

  /** `except NotFoundError: return {}` and `except AlreadyExistsError: return {}`. */
  function Swallow(r: Result<Value, Error>, notFound: bool): (s: Result<Value, Error>)
    ensures r.Failure? && (if notFound then r.error.NotFoundError? else r.error.AlreadyExistsError?) ==> s == Success(EmptyDict)
    ensures !(r.Failure? && (if notFound then r.error.NotFoundError? else r.error.AlreadyExistsError?)) ==> s == r
  {
    if r.Failure? && (if notFound then r.error.NotFoundError? else r.error.AlreadyExistsError?) then Success(EmptyDict) else r
  }

  function InfoTopic(c: Client, now: nat, topic: string, o: Bag): Result<Value, Error> {
    var kwargs :- TopicArgs(c, "topic", topic, o);
    Swallow(Request(c, now, Topics, "get", kwargs), true)
  }

  function ExistsTopic(c: Client, now: nat, topic: string, o: Bag): Result<bool, Error> {
    var res :- InfoTopic(c, now, topic, o);
    Success(Truthy(res))
  }

  function DropTopic(c: Client, now: nat, topic: string, o: Bag): Result<Value, Error> {
    var kwargs :- TopicArgs(c, "topic", topic, o);
    Swallow(Request(c, now, Topics, "delete", kwargs), true)
  }

  function CreateTopic(c: Client, now: nat, topic: string, o: Bag): Result<Value, Error> {
    var kwargs :- TopicArgs(c, "name", topic, o);
    Swallow(Request(c, now, Topics, "create", kwargs["body" := EmptyDict]), false)
  }

  function InfoSubscription(c: Client, now: nat, subscription: string, o: Bag): Result<Value, Error> {
    var kwargs :- SubscriptionArgs(c, subscription, o);
    Swallow(Request(c, now, Subscriptions, "get", kwargs), true)
  }

  function ExistsSubscription(c: Client, now: nat, subscription: string, o: Bag): Result<bool, Error> {
    var res :- InfoSubscription(c, now, subscription, o);
    Success(Truthy(res))
  }

  function DropSubscription(c: Client, now: nat, subscription: string, o: Bag): Result<Value, Error> {
    var kwargs :- SubscriptionArgs(c, subscription, o);
    Swallow(Request(c, now, Subscriptions, "delete", kwargs), true)
  }

  function CreateSubscriptionArgs(p: string, subscription: string, topic: string, o: Bag): Bag {
    map["name" := Str(SubscriptionPath(p, subscription)),
        "body" := Dict(map[
          "topic" := Str(TopicPath(p, topic)),
          "pushConfig" := Get(o, "push_config", Null),
          "ackDeadlineSeconds" := Get(o, "ack_deadline_seconds", Int(AckDeadlineSeconds))])]
  }

  function CreateSubscription(c: Client, now: nat, subscription: string, topic: string, o: Bag): Result<Value, Error> {
    var p :- ProjectOf(c, o);
    Swallow(Request(c, now, Subscriptions, "create", CreateSubscriptionArgs(p, subscription, topic, o)), false)
  }

  /** The reply the remote gives to a dispatched call, or None when the
      dispatch itself fails. */
  function ReplyTo(c: Client, now: nat, arg: ResourceArg, methodName: string, kwargs: Bag): Option<Reply>
    requires Dispatchable(c.api.doc, arg)
  {
    match Dispatch(c.api.doc, arg, methodName, kwargs)
    case Success(inv) => Some(c.api.remote(inv, now))
    case Failure(_) => None
  }

  /** What the helpers do with a transport error: creating what exists, and
      reading or dropping what is missing, return the falsy `{}` (so
      `exists_*` is false); every other error reaches the caller classified. */
  lemma HelpersSwallowExpectedErrors(c: Client, now: nat, topic: string, subscription: string, o: Bag, p: string)
    requires ProjectOf(c, o) == Success(p)
    ensures var kwargs := map["name" := Str(TopicPath(p, topic)), "body" := EmptyDict];
            var reply := ReplyTo(c, now, Topics, "create", kwargs);
            reply.Some? && reply.value.Failed? ==>
              CreateTopic(c, now, topic, o) ==
                if Classify(reply.value.error).AlreadyExistsError? then Success(EmptyDict) else Failure(Classify(reply.value.error))
    ensures var reply := ReplyTo(c, now, Topics, "get", map["topic" := Str(TopicPath(p, topic))]);
            reply.Some? && reply.value.Failed? ==>
              && InfoTopic(c, now, topic, o) ==
                   (if Classify(reply.value.error).NotFoundError? then Success(EmptyDict) else Failure(Classify(reply.value.error)))
              && ExistsTopic(c, now, topic, o) ==
                   (if Classify(reply.value.error).NotFoundError? then Success(false) else Failure(Classify(reply.value.error)))
    ensures var reply := ReplyTo(c, now, Topics, "delete", map["topic" := Str(TopicPath(p, topic))]);
            reply.Some? && reply.value.Failed? ==>
              DropTopic(c, now, topic, o) ==
                if Classify(reply.value.error).NotFoundError? then Success(EmptyDict) else Failure(Classify(reply.value.error))
    ensures var reply := ReplyTo(c, now, Subscriptions, "create", CreateSubscriptionArgs(p, subscription, topic, o));
            reply.Some? && reply.value.Failed? ==>
              CreateSubscription(c, now, subscription, topic, o) ==
                if Classify(reply.value.error).AlreadyExistsError? then Success(EmptyDict) else Failure(Classify(reply.value.error))
    ensures var reply := ReplyTo(c, now, Subscriptions, "get", map["subscription" := Str(SubscriptionPath(p, subscription))]);
            reply.Some? && reply.value.Failed? ==>
              && InfoSubscription(c, now, subscription, o) ==
                   (if Classify(reply.value.error).NotFoundError? then Success(EmptyDict) else Failure(Classify(reply.value.error)))
              && ExistsSubscription(c, now, subscription, o) ==
                   (if Classify(reply.value.error).NotFoundError? then Success(false) else Failure(Classify(reply.value.error)))
    ensures var reply := ReplyTo(c, now, Subscriptions, "delete", map["subscription" := Str(SubscriptionPath(p, subscription))]);
            reply.Some? && reply.value.Failed? ==>
              DropSubscription(c, now, subscription, o) ==
                if Classify(reply.value.error).NotFoundError? then Success(EmptyDict) else Failure(Classify(reply.value.error))
  {
  }

  /** `exists_*` is whether the `info_*` result is non-empty. */
  lemma ExistsMeansNonEmptyInfo(c: Client, now: nat, topic: string, subscription: string, o: Bag)
    ensures ExistsTopic(c, now, topic, o).Success? <==> InfoTopic(c, now, topic, o).Success?
    ensures ExistsTopic(c, now, topic, o).Success? ==>
              (ExistsTopic(c, now, topic, o).value <==> Truthy(InfoTopic(c, now, topic, o).value))
    ensures ExistsSubscription(c, now, subscription, o).Success? <==> InfoSubscription(c, now, subscription, o).Success?
    ensures ExistsSubscription(c, now, subscription, o).Success? ==>
              (ExistsSubscription(c, now, subscription, o).value <==> Truthy(InfoSubscription(c, now, subscription, o).value))
  {
  }

  /** A name that is not a string fails before any request is made. */
  lemma ProjectMustBeAString(c: Client, now: nat, topic: string, o: Bag)
    requires "project_id" in o && !o["project_id"].Str?
    ensures InfoTopic(c, now, topic, o) == Failure(TypeError)
    ensures CreateTopic(c, now, topic, o) == Failure(TypeError)
  {
  }

  // ----- listings -----

  const TopicListing := Listing("topics", "nextPageToken", false)
  const SubscriptionListing := Listing("subscriptions", "nextPageToken", false)

  /** `x.split('/')[-1]` of a name string. */
  function ShortName(name: Value): (r: Result<Value, Error>)
    ensures r.Success? <==> name.Str?
    ensures name.Str? ==> r == Success(Str(LastSegment(name.s)))
  {
    match name
    case Str(s) => Success(Str(LastSegment(s)))
    case _ => Failure(AttributeError("split"))
  }

  /** `x['name'].split('/')[-1]` of a listed resource. */
  function ShortNameOf(resource: Value): Result<Value, Error> {
    var name :- Index(resource, "name");
    ShortName(name)
  }

  function ListArgs(c: Client, o: Bag): Result<Bag, Error> {
    var p :- ProjectOf(c, o);
    Success(map["project" := Str(ProjectPath(p)), "pageSize" := Get(o, "page_size", Null),
                "pageToken" := Get(o, "page_token", Null)])
  }

  function ListFetch(c: Client, now: nat, arg: ResourceArg): Bag -> Result<Value, Error>
    requires Dispatchable(c.api.doc, arg)
  {
    (o: Bag) => var kwargs :- ListArgs(c, o); Request(c, now, arg, "list", kwargs)
  }

  function ListTopics(c: Client, now: nat, o: Bag, fuel: nat): Result<seq<Value>, Error> {
    Paging.List(ListFetch(c, now, Topics), TopicListing, ShortNameOf, o, fuel)
  }

  function ListSubscriptions(c: Client, now: nat, o: Bag, fuel: nat): Result<seq<Value>, Error> {
    Paging.List(ListFetch(c, now, Subscriptions), SubscriptionListing, ShortNameOf, o, fuel)
  }

  /** list_topics: the short names of every page, in page order, each request
      after the first carrying the previous `nextPageToken`. */
  lemma ListTopicsConcatenatesPages(c: Client, now: nat, o: Bag, resps: seq<Value>, fuel: nat)
    requires Pages(ListFetch(c, now, Topics), TopicListing, ShortNameOf, o, resps) && |resps| <= fuel
    ensures forall i :: 0 <= i < |resps| ==> Readable(resps[i], TopicListing, ShortNameOf)
    ensures ListTopics(c, now, o, fuel) == Success(AllItems(resps, TopicListing, ShortNameOf))
  {
    ListConcatenatesPages(ListFetch(c, now, Topics), TopicListing, ShortNameOf, o, resps, fuel);
  }

  /** list_subscriptions: the same for subscriptions. */
  lemma ListSubscriptionsConcatenatesPages(c: Client, now: nat, o: Bag, resps: seq<Value>, fuel: nat)
    requires Pages(ListFetch(c, now, Subscriptions), SubscriptionListing, ShortNameOf, o, resps) && |resps| <= fuel
    ensures forall i :: 0 <= i < |resps| ==> Readable(resps[i], SubscriptionListing, ShortNameOf)
    ensures ListSubscriptions(c, now, o, fuel) == Success(AllItems(resps, SubscriptionListing, ShortNameOf))
  {
    ListConcatenatesPages(ListFetch(c, now, Subscriptions), SubscriptionListing, ShortNameOf, o, resps, fuel);
  }

  /** A listed name built by the name builders is listed as its short name. */
  lemma ListedNameIsShortName(p: string, topic: string)
    requires '/' !in topic
    ensures ShortNameOf(Dict(map["name" := Str(TopicPath(p, topic))])) == Success(Str(topic))
    ensures ShortName(Str(SubscriptionPath(p, topic))) == Success(Str(topic))
  {
    NamesRoundTrip(p, topic);
  }

  /** The request that follows a page carries its token, and is otherwise the
      same request. */
  lemma ListFollowUp(c: Client, o: Bag, token: Value)
    ensures var next := NextOptions(o, token, 0, false);
            next.Success? && ListArgs(c, next.value).Success? == ListArgs(c, o).Success?
            && (ListArgs(c, o).Success? ==> ListArgs(c, next.value).value == ListArgs(c, o).value["pageToken" := token])
  {
  }

  // ----- list_topic_subscriptions -----

  /** The kwargs of `list_topic_subscriptions`. As written (`sendToken`
      false) they hold the topic alone; the corrected request also sends
      `pageToken`. */
  function TopicSubscriptionsArgs(c: Client, topic: string, o: Bag, sendToken: bool): Result<Bag, Error> {
    var kwargs :- TopicArgs(c, "topic", topic, o);
    if sendToken then Success(kwargs["pageToken" := Get(o, "page_token", Null)]) else Success(kwargs)
  }

  /** One request of the recursion. A NotFoundError in a follow-up call
      returns `{}`, which `ret.extend` treats as a page without items. */
  function TopicSubscriptionsFetch(c: Client, now: nat, topic: string, sendToken: bool): Bag -> Result<Value, Error> {
    (o: Bag) => var kwargs :- TopicSubscriptionsArgs(c, topic, o, sendToken);
                Swallow(Request(c, now, TopicSubscriptions, "list", kwargs), true)
  }

  function TopicSubscriptionsWith(c: Client, now: nat, topic: string, o: Bag, fuel: nat, sendToken: bool): Result<Value, Error> {
    var kwargs :- TopicSubscriptionsArgs(c, topic, o, sendToken);
    var first := Request(c, now, TopicSubscriptions, "list", kwargs);
    if first.Failure? && first.error.NotFoundError? then Success(EmptyDict)
    else
      var names :- Paging.List(TopicSubscriptionsFetch(c, now, topic, sendToken), SubscriptionListing, ShortName, o, fuel);
      Success(List(names))
  }

  /** `list_topic_subscriptions` as written. */
  function ListTopicSubscriptions(c: Client, now: nat, topic: string, o: Bag, fuel: nat): Result<Value, Error> {
    TopicSubscriptionsWith(c, now, topic, o, fuel, false)
  }

  /** `list_topic_subscriptions` with the token sent on. */
  function FixedListTopicSubscriptions(c: Client, now: nat, topic: string, o: Bag, fuel: nat): Result<Value, Error> {
    TopicSubscriptionsWith(c, now, topic, o, fuel, true)
  }

  /** As written, the request made after a page is the request made before
      it: the token the page carries goes into the options only. */
  lemma TopicSubscriptionsIgnoresToken(c: Client, topic: string, o: Bag, token: Value)
    ensures TopicSubscriptionsArgs(c, topic, NextOptions(o, token, 0, false).value, false) == TopicSubscriptionsArgs(c, topic, o, false)
  {
  }

  /** So a first page that carries a token is fetched again and again: for
      any bound on the recursion the listing never reaches its end. */
  lemma TopicSubscriptionsNeverEnd(c: Client, now: nat, topic: string, o: Bag, res: Value, fuel: nat)
    requires TopicSubscriptionsFetch(c, now, topic, false)(o) == Success(res)
    requires Readable(res, SubscriptionListing, ShortName)
    requires Has(res, "subscriptions") && Has(res, "nextPageToken")
    ensures Paging.List(TopicSubscriptionsFetch(c, now, topic, false), SubscriptionListing, ShortName, o, fuel) == Failure(OutOfFuel)
  {
    var token := res.fields["nextPageToken"];
    TopicSubscriptionsIgnoresToken(c, topic, o, token);
    SameArgsSameFetch(c, now, topic, o, o["page_token" := token]);
    RepeatedPageNeverEnds(TopicSubscriptionsFetch(c, now, topic, false), SubscriptionListing, ShortName, o, res, fuel);
  }

  lemma SameArgsSameFetch(c: Client, now: nat, topic: string, o: Bag, o': Bag)
    requires TopicSubscriptionsArgs(c, topic, o, false) == TopicSubscriptionsArgs(c, topic, o', false)
    ensures TopicSubscriptionsFetch(c, now, topic, false)(o) == TopicSubscriptionsFetch(c, now, topic, false)(o')
  {
  }

  /** The listing as written, with a first page that carries a token, does
      not return. */
  lemma ListTopicSubscriptionsNeverEnds(c: Client, now: nat, topic: string, o: Bag, res: Value, fuel: nat)
    requires TopicSubscriptionsArgs(c, topic, o, false).Success?
    requires Request(c, now, TopicSubscriptions, "list", TopicSubscriptionsArgs(c, topic, o, false).value) == Success(res)
    requires Readable(res, SubscriptionListing, ShortName)
    requires Has(res, "subscriptions") && Has(res, "nextPageToken")
    ensures ListTopicSubscriptions(c, now, topic, o, fuel) == Failure(OutOfFuel)
  {
    assert TopicSubscriptionsFetch(c, now, topic, false)(o) == Success(res);
    TopicSubscriptionsNeverEnd(c, now, topic, o, res, fuel);
  }

  /** Corrected, the request after a page carries that page's token. */
  lemma FixedTopicSubscriptionsSendsToken(c: Client, topic: string, o: Bag, token: Value)
    requires TopicSubscriptionsArgs(c, topic, o, true).Success?
    ensures var next := TopicSubscriptionsArgs(c, topic, NextOptions(o, token, 0, false).value, true);
            next.Success? && next.value == TopicSubscriptionsArgs(c, topic, o, true).value["pageToken" := token]
  {
  }

  /** Corrected, the listing returns the short names of every page in page
      order, or `{}` when the topic is not found. */
  lemma FixedListTopicSubscriptionsConcatenatesPages(c: Client, now: nat, topic: string, o: Bag, resps: seq<Value>, fuel: nat)
    requires Pages(TopicSubscriptionsFetch(c, now, topic, true), SubscriptionListing, ShortName, o, resps) && |resps| <= fuel
    ensures forall i :: 0 <= i < |resps| ==> Readable(resps[i], SubscriptionListing, ShortName)
    ensures var kwargs := TopicSubscriptionsArgs(c, topic, o, true);
            kwargs.Success? &&
            var first := Request(c, now, TopicSubscriptions, "list", kwargs.value);
            FixedListTopicSubscriptions(c, now, topic, o, fuel) ==
              if first.Failure? && first.error.NotFoundError? then Success(EmptyDict)
              else Success(List(AllItems(resps, SubscriptionListing, ShortName)))
  {
    ListConcatenatesPages(TopicSubscriptionsFetch(c, now, topic, true), SubscriptionListing, ShortName, o, resps, fuel);
  }

  // ----- publish, pull, acknowledge -----

  /** `str(x)` as bytes: a string is its own bytes, integers and booleans
      their decimal or `True`/`False` text, None is `None`; the `repr` of a
      container is left to `containerText`. */
  function Payload(x: Value, containerText: Value -> seq<byte>): seq<byte>
    requires x.Str? ==> IsByteString(x.s)
  {
    match x
    case Str(s) => BytesOf(s)
    case Int(i) => DecimalIsByteString(i); BytesOf(IntToString(i))
    case Bool(b) => BytesOf(if b then "True" else "False")
    case Null => BytesOf("None")
    case _ => containerText(x)
  }

  lemma DecimalIsByteString(i: int)
    ensures IsByteString(IntToString(i))
  {
    var s := IntToString(i);
    if i < 0 {
      assert forall k :: 1 <= k < |s| ==> s[k] == NatToString(-i)[k - 1];
    }
  }

  /** The messages a Pub/Sub value stands for: every string among them a
      Python 2 byte string. */
  predicate ByteStrings(messages: seq<Value>) {
    forall i :: 0 <= i < |messages| ==> messages[i].Str? ==> IsByteString(messages[i].s)
  }

  /** `[{'data': base64.b64encode(str(x))} for x in messages]`. */
  function EncodeMessages(messages: seq<Value>, containerText: Value -> seq<byte>): (r: seq<Value>)
    requires ByteStrings(messages)
    ensures |r| == |messages|
    ensures forall i :: 0 <= i < |messages| ==>
              r[i] == Dict(map["data" := Str(Encode(Payload(messages[i], containerText)))])
  {
    seq(|messages|, i requires 0 <= i < |messages| => Dict(map["data" := Str(Encode(Payload(messages[i], containerText)))]))
  }

  function PublishArgs(p: string, topic: string, messages: seq<Value>, containerText: Value -> seq<byte>): Bag
    requires ByteStrings(messages)
  {
    map["topic" := Str(TopicPath(p, topic)),
        "body" := Dict(map["messages" := List(EncodeMessages(messages, containerText))])]
  }

  /** `publish`: a list is published as given, any other value as the only
      message. */
  function Publish(c: Client, now: nat, topic: string, message: Value, o: Bag, containerText: Value -> seq<byte>)
    : Result<Value, Error>
    requires ByteStrings(AsList(message))
  {
    var p :- ProjectOf(c, o);
    Request(c, now, Topics, "publish", PublishArgs(p, topic, AsList(message), containerText))
  }

  /** The published body has one entry per message, in order, and decoding
      each entry's data gives back the message: the string itself, or the
      text of an integer. */
  lemma PublishDataDecodes(p: string, topic: string, message: Value, containerText: Value -> seq<byte>)
    requires ByteStrings(AsList(message))
    ensures var messages := AsList(message);
            var sent := PublishArgs(p, topic, messages, containerText)["body"].fields["messages"].items;
            && |sent| == (if message.List? then |message.items| else 1)
            && forall i :: 0 <= i < |messages| ==>
                 && Decode(sent[i].fields["data"].s) == Some(Payload(messages[i], containerText))
                 && (messages[i].Str? ==> TextOf(Decode(sent[i].fields["data"].s).value) == messages[i].s)
                 && (messages[i].Int? ==> TextOf(Decode(sent[i].fields["data"].s).value) == IntToString(messages[i].i))
  {
    var messages := AsList(message);
    forall i | 0 <= i < |messages|
      ensures Decode(Encode(Payload(messages[i], containerText))) == Some(Payload(messages[i], containerText))
      ensures messages[i].Str? ==> TextOf(Payload(messages[i], containerText)) == messages[i].s
      ensures messages[i].Int? ==> TextOf(Payload(messages[i], containerText)) == IntToString(messages[i].i)
    {
      DecodeEncode(Payload(messages[i], containerText));
      if messages[i].Str? {
        TextOfBytesOf(messages[i].s);
      }
      if messages[i].Int? {
        DecimalIsByteString(messages[i].i);
        TextOfBytesOf(IntToString(messages[i].i));
      }
    }
  }

  function PullArgs(p: string, subscription: string, o: Bag): Bag {
    map["subscription" := Str(SubscriptionPath(p, subscription)),
        "body" := Dict(map[
          "returnImmediately" := Get(o, "return_immediately", Bool(true)),
          "maxMessages" := Get(o, "max_messages", Int(MaxMessages))])]
  }

  function Pull(c: Client, now: nat, subscription: string, o: Bag): Result<Value, Error> {
    var p :- ProjectOf(c, o);
    Request(c, now, Subscriptions, "pull", PullArgs(p, subscription, o))
  }

  /** `pull` returns at once with up to 100000 messages unless told otherwise. */
  lemma PullDefaults(p: string, subscription: string, o: Bag)
    ensures var body := PullArgs(p, subscription, o)["body"].fields;
            && body["returnImmediately"] == (if "return_immediately" in o then o["return_immediately"] else Bool(true))
            && body["maxMessages"] == (if "max_messages" in o then o["max_messages"] else Int(100000))
  {
  }

  function AcknowledgeArgs(p: string, subscription: string, ackId: Value): Bag {
    map["subscription" := Str(SubscriptionPath(p, subscription)),
        "body" := Dict(map["ackIds" := List(AsList(ackId))])]
  }

  /** `except NotFoundError: raise` / `except HttpError as e: raise
      AcknowledgeError(e)`. */
  function RewrapAcknowledge(r: Result<Value, Error>): (s: Result<Value, Error>)
    ensures r.Failure? && r.error.Http? ==> s == Failure(AcknowledgeError(r.error.cause))
    ensures !(r.Failure? && r.error.Http?) ==> s == r
  {
    if r.Failure? && r.error.Http? then Failure(AcknowledgeError(r.error.cause)) else r
  }

  function Acknowledge(c: Client, now: nat, subscription: string, ackId: Value, o: Bag): Result<Value, Error> {
    var p :- ProjectOf(c, o);
    RewrapAcknowledge(Request(c, now, Subscriptions, "acknowledge", AcknowledgeArgs(p, subscription, ackId)))
  }

  /** `ack` is `acknowledge` under another name: a project that is not a
      string raises TypeError before anything is sent; otherwise the ids go
      to the subscription's `acknowledge`, a success returns the body, a
      not-found raises NotFoundError, and any other transport error that
      `request` leaves unclassified raises AcknowledgeError. */
  function Ack(c: Client, now: nat, subscription: string, ackId: Value, o: Bag): (r: Result<Value, Error>)
    ensures ProjectOf(c, o).Failure? ==> r == Failure(TypeError)
    ensures ProjectOf(c, o).Success? ==>
              var reply := ReplyTo(c, now, Subscriptions, "acknowledge", AcknowledgeArgs(ProjectOf(c, o).value, subscription, ackId));
              && (reply.Some? && reply.value.Response? ==> r == Success(reply.value.body))
              && (reply.Some? && reply.value.Failed? ==>
                    var e := reply.value.error;
                    r == if e.status == 404 && ContainsIgnoreCase(e.message, "not found") then Failure(NotFoundError(e))
                         else if e.status == 409 && ContainsIgnoreCase(e.message, "already exists") then Failure(AlreadyExistsError(e))
                         else Failure(AcknowledgeError(e)))
  {
    Acknowledge(c, now, subscription, ackId, o)
  }

  /** acknowledge sends the ids in the given order (a single id as a
      one-element list); a not-found subscription raises NotFoundError, any
      other transport error that `request` leaves unclassified becomes
      AcknowledgeError with the transport error attached. */
  lemma AcknowledgeOutcome(c: Client, now: nat, subscription: string, ackId: Value, o: Bag, p: string)
    requires ProjectOf(c, o) == Success(p)
    ensures AcknowledgeArgs(p, subscription, ackId)["body"].fields["ackIds"] ==
              (if ackId.List? then ackId else List([ackId]))
    ensures var reply := ReplyTo(c, now, Subscriptions, "acknowledge", AcknowledgeArgs(p, subscription, ackId));
            reply.Some? && reply.value.Failed? ==>
              Acknowledge(c, now, subscription, ackId, o) ==
                var e := reply.value.error;
                if e.status == 404 && ContainsIgnoreCase(e.message, "not found") then Failure(NotFoundError(e))
                else if e.status == 409 && ContainsIgnoreCase(e.message, "already exists") then Failure(AlreadyExistsError(e))
                else Failure(AcknowledgeError(e))
    ensures var reply := ReplyTo(c, now, Subscriptions, "acknowledge", AcknowledgeArgs(p, subscription, ackId));
            reply.Some? && reply.value.Response? ==> Acknowledge(c, now, subscription, ackId, o) == Success(reply.value.body)
  {
  }
}
