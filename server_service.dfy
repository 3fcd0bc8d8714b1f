/**
  The `ServerService` class: the state it keeps (the default timeout, the
  one-shot unauthorized latch and the notification logs), how it prepares a
  request, how it maps a response, and how it handles a failed call.
 */
module Service {
  import opened Wrappers
  import opened QueryBuilder
  import opened Request
  import opened ErrorClassifier

  /** A successful HTTP response: its status and its body parsed as JSON. */
  datatype Response = Response(status: int, body: JsonValue)

  /** What a successful call resolves with: the empty string, or the parsed body. */
  datatype Mapped = EmptyText | Json(value: JsonValue)

  /** What the transport answered: a response, or an error (a timeout included). */
  datatype Reply = Answered(response: Response) | Raised(error: ErrorEvent)

  /** How a call settles: resolved with a mapped response, or rejected. */
  datatype CallOutcome = Resolved(value: Mapped) | Rejected(thrown: Thrown)

  /** The HTTP verbs of the five public request methods. */
  datatype Verb = Get | Put | Post | Patch | Delete

  /** The URL and headers a call is issued with. */
  datatype PreparedRequest = PreparedRequest(headers: Headers, url: string)

  /** What the service hands to the transport for one call. */
  datatype Sent = Sent(verb: Verb, url: string, headers: Headers, body: Option<JsonValue>, timeout: Option<int>)

  /** Truthiness of an optional number: absent and `0` are falsy. */
  predicate TruthyNumber(n: Option<int>)
  {
    n.Some? && n.value != 0
  }

  /** `resMap`: a 204 response becomes `''`, any other response its parsed body. */
  function ResMap(res: Response): (m: Mapped)
    ensures m.EmptyText? <==> res.status == 204
    ensures m.Json? ==> m.value == res.body
  {
    if res.status == 204 then EmptyText else Json(res.body)
  }

  /** The body of a 204 response is never looked at; any other body is passed on unchanged. */
  lemma ResMapBody(status: int, b1: JsonValue, b2: JsonValue)
    ensures status == 204 ==> ResMap(Response(status, b1)) == ResMap(Response(status, b2))
    ensures status != 204 && b1 != b2 ==> ResMap(Response(status, b1)) != ResMap(Response(status, b2))
  {
  }

  /**
    The default timeout the constructor stores: `timeoutToAll || 8000`, but only
    when `timeoutToAll` is truthy, so the `8000` is never chosen.
   */
  function InitialTimeout(timeoutToAll: Option<int>): (t: Option<int>)
    ensures t == if TruthyNumber(timeoutToAll) then timeoutToAll else None
    ensures t != Some(0)
  {
    if TruthyNumber(timeoutToAll) then Some(if timeoutToAll.value != 0 then timeoutToAll.value else 8000)
    else None
  }

  class ServerService {
    /** `_timeout`: fixed by the constructor, `None` when never assigned. */
    const defaultTimeout: Option<int>
    /** `reqUnauthorizedMsgShow`: unset until the first unauthorized call. */
    var reqUnauthorizedMsgShow: bool
    /** What was emitted on `onUnauthorized`, `onInvalidToken` and `onTimeout`, oldest first. */
    var onUnauthorized: seq<JsonValue>
    var onInvalidToken: seq<JsonValue>
    var onTimeout: seq<string>

    function Snapshot(): Channels
      reads this
    {
      Channels(reqUnauthorizedMsgShow, onTimeout, onInvalidToken, onUnauthorized)
    }

    ghost predicate Valid()
      reads this
    {
      defaultTimeout != Some(0) && WellFormed(Snapshot())
    }

    constructor (timeoutToAll: Option<int>)
      ensures Valid()
      ensures defaultTimeout == InitialTimeout(timeoutToAll)
      ensures Snapshot() == Initial
    {
      defaultTimeout := InitialTimeout(timeoutToAll);
      reqUnauthorizedMsgShow := false;
      onUnauthorized, onInvalidToken, onTimeout := [], [], [];
    }

    /** `getTimeout`: the stored default, which is never a zero timeout. */
    function GetTimeout(): (t: Option<int>)
      requires Valid()
      reads this
      ensures t.Some? ==> t.value != 0
    {
      defaultTimeout
    }

    /**
      `timeout ? timeout : this._timeout`: the per-call timeout wins when truthy,
      a falsy one falls back to the stored default; `undefined` (`None`) is
      passed to `timeout` only when neither is set, and a zero timeout never is.
     */
    function EffectiveTimeout(timeout: Option<int>): (t: Option<int>)
      requires Valid()
      reads this
      ensures TruthyNumber(timeout) ==> t == timeout
      ensures !TruthyNumber(timeout) ==> t == GetTimeout()
      ensures t.None? <==> !TruthyNumber(timeout) && GetTimeout().None?
      ensures t != Some(0)
    {
      if TruthyNumber(timeout) then timeout else defaultTimeout
    }

    /**
      `errorAF`: classifies one failed call, emits its notifications, moves the
      latch at most once from unset to set, and returns what the call rejects with.
     */
    method ErrorAF(error: ErrorEvent) returns (thrown: Thrown)
      requires Valid()
      modifies this
      ensures Valid()
      ensures Snapshot() == Classify(old(Snapshot()), error).after
      ensures thrown == Classify(old(Snapshot()), error).thrown
    {
      if error.name.Some? && error.name.value == TimeoutName {
        onTimeout := onTimeout + [error.name.value];
        return Payload(Record(None, error.name));
      }
      if error.body.None? {
        return HandlerFault(SyntaxError);
      }
      var resJson := error.body.value;
      if resJson.Record? && resJson.status.Some? && resJson.status.value == UnauthorizedStatus {
        if resJson.message.None? {
          return HandlerFault(TypeError);
        }
        if Contains(resJson.message.value, InvalidTokenMarker) {
          onInvalidToken := onInvalidToken + [resJson];
        }
        if !reqUnauthorizedMsgShow {
          reqUnauthorizedMsgShow := true;
          onUnauthorized := onUnauthorized + [resJson];
        }
      }
      thrown := Payload(OrServerError(resJson));
    }

    /**
      `prepareRequest`: the URL always gets the query string; the headers are the
      caller's object (or a new one) with the token appended when authenticated,
      and a new empty set when the authentication lookup failed.
     */
    method PrepareRequest(url: string, params: Params, headers: Headers?, auth: AuthOutcome)
      returns (request: PreparedRequest)
      modifies headers
      ensures request.url == url + QueryString(params)
      ensures request.headers.entries == PreparedHeaders(if headers == null then [] else old(headers.entries), auth)
      ensures !auth.Failed? && headers != null ==> request.headers == headers
      ensures auth.Failed? || headers == null ==> fresh(request.headers)
      ensures !auth.Authenticated? && headers != null ==> unchanged(headers)
    {
      if auth.Failed? {
        var empty := new Headers();
        var query := BuildParams(params);
        return PreparedRequest(empty, url + query);
      }
      var h: Headers;
      if headers == null {
        h := new Headers();
      } else {
        h := headers;
      }
      if auth.Authenticated? {
        h.Append(AuthorizationName, auth.accessToken);
      }
      var query := BuildParams(params);
      request := PreparedRequest(h, url + query);
    }

    /**
      One call of `get`, `put`, `post`, `patch` or `delete`: prepare the request,
      choose the timeout, then map the transport's response or hand its error to
      `ErrorAF`.
     */
    method Perform(verb: Verb, url: string, body: Option<JsonValue>, timeout: Option<int>,
                   params: Params, headers: Headers?, auth: AuthOutcome, reply: Reply)
      returns (sent: Sent, outcome: CallOutcome)
      requires Valid()
      modifies this, headers
      ensures Valid()
      ensures sent.verb == verb && sent.body == body
      ensures sent.url == url + QueryString(params)
      ensures sent.timeout == EffectiveTimeout(timeout)
      ensures sent.headers.entries == PreparedHeaders(if headers == null then [] else old(headers.entries), auth)
      ensures !auth.Failed? && headers != null ==> sent.headers == headers
      ensures auth.Failed? || headers == null ==> fresh(sent.headers)
      ensures !auth.Authenticated? && headers != null ==> unchanged(headers)
      ensures reply.Answered? ==> outcome == Resolved(ResMap(reply.response)) && Snapshot() == old(Snapshot())
      ensures reply.Raised? ==>
                outcome == Rejected(Classify(old(Snapshot()), reply.error).thrown) &&
                Snapshot() == Classify(old(Snapshot()), reply.error).after
    {
      var request := PrepareRequest(url, params, headers, auth);
      sent := Sent(verb, request.url, request.headers, body, EffectiveTimeout(timeout));
      match reply
      case Answered(response) =>
        outcome := Resolved(ResMap(response));
      case Raised(error) =>
        var thrown := ErrorAF(error);
        outcome := Rejected(thrown);
    }
  }

  /**
    Two calls that share one caller header object while authenticated: `append`
    changes that object in place, so both requests carry the same object and it
    ends up with two `Authorization` headers.
   */
  method PrepareTwiceWithSharedHeaders(service: ServerService, h: Headers, url: string, params: Params, token: string)
    returns (first: PreparedRequest, second: PreparedRequest)
    modifies h
    ensures first.headers == h && second.headers == h
    ensures h.entries == old(h.entries) + [Header(AuthorizationName, token), Header(AuthorizationName, token)]
  {
    first := service.PrepareRequest(url, params, h, Authenticated(token));
    second := service.PrepareRequest(url, params, h, Authenticated(token));
  }
}
