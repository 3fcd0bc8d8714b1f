/**
  The error handler of the service (`errorAF`) as a step function over the
  emitted notifications and the one-shot "unauthorized already shown" latch,
  and the effect of a whole sequence of failed calls.
 */
module ErrorClassifier {
  import opened Wrappers

  /**
    A parsed JSON document as the handler inspects it. `FalsyValue` is a document
    that parses to `null`, `false`, `0` or `""`; every other document is a
    `Record`, whose `status` and `message` are `Some` only when that property
    holds a string.
   */
  datatype JsonValue = FalsyValue | Record(status: Option<string>, message: Option<string>)

  /**
    The error the HTTP pipeline hands to the handler: its `name` (a timeout error
    is named `TimeoutError`) and its `_body` parsed as JSON, `None` when the
    body is `undefined` or not valid JSON (so `JSON.parse` throws). A body of
    `null` parses to `null`, which is `Some(FalsyValue)`.
   */
  datatype ErrorEvent = ErrorEvent(name: Option<string>, body: Option<JsonValue>)

  /** An exception the handler itself raises instead of returning. */
  datatype Fault = SyntaxError | TypeError

  /** What the failed call rejects with. */
  datatype Thrown = Payload(value: JsonValue) | HandlerFault(fault: Fault)

  /**
    The observable state of the handler: the latch and the three logs of
    emitted notifications (`onTimeout`, `onInvalidToken`, `onUnauthorized`).
   */
  datatype Channels = Channels(latch: bool, timeouts: seq<string>,
                               invalidTokens: seq<JsonValue>, unauthorized: seq<JsonValue>)

  /** The state after one call of the handler, and what the call rejects with. */
  datatype Handled = Handled(after: Channels, thrown: Thrown)

  const TimeoutName := "TimeoutError"
  const UnauthorizedStatus := "Unauthorized"
  const InvalidTokenMarker := "Invalid token"
  const ServerError := Record(None, Some("Server Error"))

  /** No notification has been emitted and the latch is unset. */
  const Initial := Channels(false, [], [], [])

  /** `sub` occurs in `s` starting at index `i`. */
  predicate OccursAt(s: string, sub: string, i: int)
  {
    0 <= i && i + |sub| <= |s| && s[i..i + |sub|] == sub
  }

  /** JavaScript's `s.includes(sub)`. */
  predicate Contains(s: string, sub: string)
  {
    exists i :: 0 <= i <= |s| - |sub| && OccursAt(s, sub, i)
  }

  /** `parsed || {message: 'Server Error'}`. */
  function OrServerError(v: JsonValue): JsonValue
  {
    if v.FalsyValue? then ServerError else v
  }

  predicate IsTimeout(e: ErrorEvent)
  {
    e.name == Some(TimeoutName)
  }

  /** A body that the handler classifies as unauthorized. */
  predicate IsUnauthorizedBody(v: JsonValue)
  {
    v.Record? && v.status == Some(UnauthorizedStatus)
  }

  /** An unauthorized body whose message names an invalid token. */
  predicate IsInvalidTokenBody(v: JsonValue)
  {
    IsUnauthorizedBody(v) && v.message.Some? && Contains(v.message.value, InvalidTokenMarker)
  }

  /**
    A call that reaches the latch: not a timeout, and its body parses to an
    unauthorized record with a string message (without one, `.includes` throws first).
   */
  predicate Latches(e: ErrorEvent)
  {
    !IsTimeout(e) && e.body.Some? && IsUnauthorizedBody(e.body.value) && e.body.value.message.Some?
  }

  /** A call that emits `onInvalidToken`. */
  predicate ReportsInvalidToken(e: ErrorEvent)
  {
    !IsTimeout(e) && e.body.Some? && IsInvalidTokenBody(e.body.value)
  }

  /** What the notification logs may hold: each entry is of its kind, and `onUnauthorized` fired iff the latch is set. */
  predicate WellFormed(c: Channels)
  {
    |c.unauthorized| <= 1 && (c.latch <==> |c.unauthorized| == 1) &&
    (forall k :: 0 <= k < |c.timeouts| ==> c.timeouts[k] == TimeoutName) &&
    (forall k :: 0 <= k < |c.invalidTokens| ==> IsInvalidTokenBody(c.invalidTokens[k])) &&
    (forall k :: 0 <= k < |c.unauthorized| ==> IsUnauthorizedBody(c.unauthorized[k]))
  }

  /** One call of the handler on a state of the notification logs. */
  function Classify(c: Channels, e: ErrorEvent): (h: Handled)
    ensures h.after.latch == (c.latch || Latches(e))
    ensures h.after.timeouts == c.timeouts + (if IsTimeout(e) then [TimeoutName] else [])
    ensures h.after.invalidTokens == c.invalidTokens + (if ReportsInvalidToken(e) then [e.body.value] else [])
    ensures h.after.unauthorized == c.unauthorized + (if !c.latch && Latches(e) then [e.body.value] else [])
    ensures WellFormed(c) ==> WellFormed(h.after)
    ensures IsTimeout(e) ==> h.thrown == Payload(Record(None, Some(TimeoutName)))
    ensures !IsTimeout(e) && e.body.None? ==> h.thrown == HandlerFault(SyntaxError)
    ensures !IsTimeout(e) && e.body.Some? && IsUnauthorizedBody(e.body.value) && e.body.value.message.None? ==>
              h.thrown == HandlerFault(TypeError)
    ensures !IsTimeout(e) && e.body.Some? && !(IsUnauthorizedBody(e.body.value) && e.body.value.message.None?) ==>
              h.thrown == Payload(OrServerError(e.body.value))
  {
    if e.name.Some? && e.name.value == TimeoutName then
      Handled(c.(timeouts := c.timeouts + [e.name.value]), Payload(Record(None, e.name)))
    else if e.body.None? then
      Handled(c, HandlerFault(SyntaxError))
    else
      var resJson := e.body.value;
      if resJson.Record? && resJson.status.Some? && resJson.status.value == UnauthorizedStatus then
        if resJson.message.None? then
          Handled(c, HandlerFault(TypeError))
        else
          var c1 := if Contains(resJson.message.value, InvalidTokenMarker)
                    then c.(invalidTokens := c.invalidTokens + [resJson]) else c;
          var c2 := if !c1.latch then c1.(latch := true, unauthorized := c1.unauthorized + [resJson]) else c1;
          Handled(c2, Payload(OrServerError(resJson)))
      else
        Handled(c, Payload(OrServerError(resJson)))
  }

  /** The state after the handler has seen the failed calls `es`, in order. */
  function Run(c: Channels, es: seq<ErrorEvent>): Channels
    decreases |es|
  {
    if es == [] then c else Run(Classify(c, es[0]).after, es[1..])
  }

  /** The body of the first call in `es` that reaches the latch, if any. */
  function FirstLatching(es: seq<ErrorEvent>): seq<JsonValue>
  {
    if es == [] then []
    else if Latches(es[0]) then [es[0].body.value]
    else FirstLatching(es[1..])
  }

  /** The bodies of the calls in `es` that report an invalid token, in order. */
  function InvalidTokenBodies(es: seq<ErrorEvent>): seq<JsonValue>
  {
    if es == [] then []
    else (if ReportsInvalidToken(es[0]) then [es[0].body.value] else []) + InvalidTokenBodies(es[1..])
  }

  /** The number of timeouts in `es`. */
  function TimeoutCount(es: seq<ErrorEvent>): nat
  {
    if es == [] then 0 else (if IsTimeout(es[0]) then 1 else 0) + TimeoutCount(es[1..])
  }

  /**
    The latch is one-way: after a sequence of calls it is set exactly when it was
    set before or some call reached it, and `onUnauthorized` gained the body of
    the first such call only if the latch was unset, and nothing otherwise.
   */
  lemma {:induction false} RunUnauthorized(c: Channels, es: seq<ErrorEvent>)
    ensures Run(c, es).latch == (c.latch || exists k :: 0 <= k < |es| && Latches(es[k]))
    ensures Run(c, es).unauthorized == c.unauthorized + (if c.latch then [] else FirstLatching(es))
    decreases |es|
  {
    if es != [] {
      var c1 := Classify(c, es[0]).after;
      RunUnauthorized(c1, es[1..]);
      if exists k :: 0 <= k < |es| && Latches(es[k]) {
        var k :| 0 <= k < |es| && Latches(es[k]);
        if k > 0 {
          assert Latches(es[1..][k - 1]);
        }
      }
      if exists k :: 0 <= k < |es[1..]| && Latches(es[1..][k]) {
        var k :| 0 <= k < |es[1..]| && Latches(es[1..][k]);
        assert Latches(es[k + 1]);
      }
    }
  }

  /**
    Over the lifetime of a handler that starts with no notification, `onUnauthorized`
    fires at most once, and it fires exactly when some call reached the latch.
   */
  lemma UnauthorizedAtMostOnce(es: seq<ErrorEvent>)
    ensures |Run(Initial, es).unauthorized| <= 1
    ensures |Run(Initial, es).unauthorized| == 1 <==> exists k :: 0 <= k < |es| && Latches(es[k])
  {
    RunUnauthorized(Initial, es);
    FirstLatchingFound(es);
  }

  lemma {:induction false} FirstLatchingFound(es: seq<ErrorEvent>)
    ensures |FirstLatching(es)| <= 1
    ensures |FirstLatching(es)| == 1 <==> exists k :: 0 <= k < |es| && Latches(es[k])
  {
    if es != [] {
      FirstLatchingFound(es[1..]);
      if exists k :: 0 <= k < |es[1..]| && Latches(es[1..][k]) {
        var k :| 0 <= k < |es[1..]| && Latches(es[1..][k]);
        assert Latches(es[k + 1]);
      }
      if !Latches(es[0]) && exists k :: 0 <= k < |es| && Latches(es[k]) {
        var k :| 0 <= k < |es| && Latches(es[k]);
        assert Latches(es[1..][k - 1]);
      }
    }
  }

  /** `onInvalidToken` fires once for every call that reports an invalid token, latch or not. */
  lemma {:induction false} RunInvalidTokens(c: Channels, es: seq<ErrorEvent>)
    ensures Run(c, es).invalidTokens == c.invalidTokens + InvalidTokenBodies(es)
    decreases |es|
  {
    if es != [] {
      RunInvalidTokens(Classify(c, es[0]).after, es[1..]);
    }
  }

  /** `onTimeout` fires once for every timeout, and always with the name `TimeoutError`. */
  lemma {:induction false} RunTimeouts(c: Channels, es: seq<ErrorEvent>)
    requires WellFormed(c)
    ensures WellFormed(Run(c, es))
    ensures |Run(c, es).timeouts| == |c.timeouts| + TimeoutCount(es)
    decreases |es|
  {
    if es != [] {
      RunTimeouts(Classify(c, es[0]).after, es[1..]);
    }
  }

  /**
    The literal case: a first error whose body is `{"status":"Unauthorized","message":"Invalid token here"}`
    emits both `onInvalidToken` and `onUnauthorized` and rejects with that body.
   */
  lemma FirstInvalidToken()
    ensures var body := Record(Some("Unauthorized"), Some("Invalid token here"));
            Classify(Initial, ErrorEvent(None, Some(body))) == Handled(Channels(true, [], [body], [body]), Payload(body))
  {
    assert OccursAt("Invalid token here", InvalidTokenMarker, 0);
  }
}
