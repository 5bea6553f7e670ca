/** Frames, requests and replies of the client protocol (src/websocket/mod.rs), after NIP-01
    "Communication between clients and relays". */
module Protocol {
  import opened Base
  import opened Events
  import opened Filters

  /** A JSON value as far as the dispatcher looks: a string, or another value with what it parses as. */
  datatype Value =
    | StringValue(s: string)
    | OtherValue(asEvent: Option<NostrEvent>, asFilter: Option<Filter>)

  datatype Body = NotJson | NotArray | ArrayBody(items: seq<Value>)

  datatype Frame = TextFrame(body: Body) | PingFrame | CloseFrame | OtherFrame

  /** Why a NOTICE is sent. */
  datatype Complaint = BadMessage | TooManyFilters | TooManySubscriptions

  datatype Request =
    | BadRequest
    | EventRequest(event: NostrEvent)
    | ReqRequest(sub: string, filters: seq<Filter>)
    | CloseRequest(sub: string)

  datatype Msg =
    | EventMsg(sub: string, event: NostrEvent)
    | OkMsg(id: string, why: Option<Refusal>)
    | NoticeMsg(complaint: Complaint)
    | EoseMsg(sub: string)

  /** All of `items` as filters, `None` if one is not. */
  function ParseFilters(items: seq<Value>): Option<seq<Filter>> {
    if items == [] then Some([])
    else if !items[0].OtherValue? || items[0].asFilter.None? then None
    else match ParseFilters(items[1..])
      case None => None
      case Some(fs) => Some([items[0].asFilter.value] + fs)
  }

  /** Every item must parse, and they come out in order. */
  lemma {:induction false} ParseFiltersMeans(items: seq<Value>)
    ensures ParseFilters(items).Some? <==> forall v :: v in items ==> v.OtherValue? && v.asFilter.Some?
    ensures ParseFilters(items).Some? ==>
      && |ParseFilters(items).value| == |items|
      && forall i :: 0 <= i < |items| ==>
           items[i].OtherValue? && Some(ParseFilters(items).value[i]) == items[i].asFilter
  {
    if items != [] {
      ParseFiltersMeans(items[1..]);
      assert forall v :: v in items <==> v == items[0] || v in items[1..];
    }
  }

  /** `dispatch_message` and the argument checks of the three handlers. */
  function Parse(body: Body): Request {
    match body
    case NotJson => BadRequest
    case NotArray => BadRequest
    case ArrayBody(items) =>
      if items == [] || !items[0].StringValue? then BadRequest
      else match items[0].s
        case "EVENT" =>
          if |items| < 2 || !items[1].OtherValue? || items[1].asEvent.None? then BadRequest
          else EventRequest(items[1].asEvent.value)
        case "REQ" =>
          if |items| < 2 || !items[1].StringValue? then BadRequest
          else (match ParseFilters(items[2..])
            case None => BadRequest
            case Some(fs) => ReqRequest(items[1].s, fs))
        case "CLOSE" =>
          if |items| < 2 || !items[1].StringValue? then BadRequest else CloseRequest(items[1].s)
        case _ => BadRequest
  }

  /** The frames that ask for a request: `["EVENT", <event>, ...]`, `["REQ", <id>, <filter>...]` and
      `["CLOSE", <id>, ...]`; the rest asks for nothing. */
  ghost predicate AsksFor(body: Body, request: Request) {
    match request
    case EventRequest(e) =>
      exists v: Value, more: seq<Value> ::
        body == ArrayBody([StringValue("EVENT"), v] + more) && v.OtherValue? && v.asEvent == Some(e)
    case ReqRequest(sub, filters) =>
      exists items: seq<Value> ::
        body == ArrayBody([StringValue("REQ"), StringValue(sub)] + items) && |items| == |filters| &&
        forall i :: 0 <= i < |items| ==> items[i].OtherValue? && items[i].asFilter == Some(filters[i])
    case CloseRequest(sub) =>
      exists more :: body == ArrayBody([StringValue("CLOSE"), StringValue(sub)] + more)
    case BadRequest => false
  }

  /** Parsing undoes exactly these layouts, and a frame of none of them is bad. */
  lemma ParseMeans(body: Body, request: Request)
    ensures !request.BadRequest? ==> (Parse(body) == request <==> AsksFor(body, request))
    ensures Parse(body).BadRequest? <==> forall r :: !AsksFor(body, r)
  {
    hide ParseFilters;
    ParseAsks(body);
    forall r | AsksFor(body, r) ensures Parse(body) == r {
      AskParses(body, r);
    }
  }

  lemma ParseAsks(body: Body)
    ensures Parse(body).BadRequest? || AsksFor(body, Parse(body))
  {
    if body.ArrayBody? && |body.items| >= 2 {
      var items := body.items;
      assert items == [items[0], items[1]] + items[2..];
      ParseFiltersMeans(items[2..]);
    }
  }

  lemma AskParses(body: Body, request: Request)
    requires AsksFor(body, request)
    ensures Parse(body) == request
  {
    match request
    case EventRequest(e) =>
      var v: Value, more: seq<Value> :|
        body == ArrayBody([StringValue("EVENT"), v] + more) && v.OtherValue? && v.asEvent == Some(e);
      assert body.items[0] == StringValue("EVENT") && body.items[1] == v;
    case ReqRequest(sub, filters) =>
      ReqParses(body, sub, filters);
    case CloseRequest(sub) =>
      var more :| body == ArrayBody([StringValue("CLOSE"), StringValue(sub)] + more);
      assert body.items[0] == StringValue("CLOSE") && body.items[1] == StringValue(sub);
  }

  lemma ReqParses(body: Body, sub: string, filters: seq<Filter>)
    requires AsksFor(body, ReqRequest(sub, filters))
    ensures Parse(body) == ReqRequest(sub, filters)
  {
    hide ParseFilters;
    var items: seq<Value> :|
      body == ArrayBody([StringValue("REQ"), StringValue(sub)] + items) && |items| == |filters| &&
      forall i :: 0 <= i < |items| ==> items[i].OtherValue? && items[i].asFilter == Some(filters[i]);
    ParseFiltersMeans(items);
    assert ParseFilters(items).value == filters;
    assert body.items[0] == StringValue("REQ") && body.items[1] == StringValue(sub) && body.items[2..] == items;
  }

  /** The most rows a filter may fetch: the smaller of its own limit, 100 by default, and the cap. */
  function HistoryLimit(env: Env, f: Filter): (n: nat)
    ensures n <= env.maxSubscriptions * 50 && (f.limit.Some? ==> n <= f.limit.value) && (f.limit.None? ==> n <= 100)
    ensures n == env.maxSubscriptions * 50 || f.limit == Some(n) || (f.limit.None? && n == 100)
  {
    var asked := match f.limit case Some(n) => n case None => 100;
    if asked < env.maxSubscriptions * 50 then asked else env.maxSubscriptions * 50
  }
}
