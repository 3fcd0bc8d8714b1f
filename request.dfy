/**
  Request headers and the outcome of the authentication lookup that decides
  whether an `Authorization` header is added before a call.
 */
module Request {

  /** A header as `Headers.append(name, value)` records it. */
  datatype Header = Header(name: string, value: string)

  /** The mutable header collection a caller may hand to the service. */
  class Headers {
    var entries: seq<Header>

    constructor ()
      ensures entries == []
    {
      entries := [];
    }

    method Append(name: string, value: string)
      modifies this
      ensures entries == old(entries) + [Header(name, value)]
    {
      entries := entries + [Header(name, value)];
    }
  }

  /**
    How the authentication lookup before a call ended: logged in with a token,
    not logged in, or the lookup (or the token read) was rejected.
   */
  datatype AuthOutcome = Authenticated(accessToken: string) | NotAuthenticated | Failed

  const AuthorizationName := "Authorization"

  /**
    The headers a request carries, given the caller's headers (empty when none
    were passed): the caller's plus the token when authenticated, the caller's
    alone when not, and a fresh empty set when the lookup failed.
   */
  function PreparedHeaders(caller: seq<Header>, auth: AuthOutcome): seq<Header>
  {
    match auth
    case Authenticated(token) => caller + [Header(AuthorizationName, token)]
    case NotAuthenticated => caller
    case Failed => []
  }

  /** How many headers carry the given name. */
  function CountNamed(hs: seq<Header>, name: string): nat
  {
    if hs == [] then 0 else (if hs[0].name == name then 1 else 0) + CountNamed(hs[1..], name)
  }

  lemma {:induction false} CountNamedAppend(a: seq<Header>, b: seq<Header>, name: string)
    ensures CountNamed(a + b, name) == CountNamed(a, name) + CountNamed(b, name)
  {
    if a == [] {
      assert a + b == b;
    } else {
      assert (a + b)[1..] == a[1..] + b;
      CountNamedAppend(a[1..], b, name);
    }
  }

  /**
    Exactly one `Authorization` header is added, and only when authenticated;
    otherwise the caller's headers pass through, or are dropped when the lookup failed.
   */
  lemma AuthorizationAddedOnce(caller: seq<Header>, auth: AuthOutcome)
    ensures CountNamed(PreparedHeaders(caller, auth), AuthorizationName)
         == if auth.Failed? then 0
            else CountNamed(caller, AuthorizationName) + (if auth.Authenticated? then 1 else 0)
  {
    if auth.Authenticated? {
      CountNamedAppend(caller, [Header(AuthorizationName, auth.accessToken)], AuthorizationName);
    }
  }

  /**
    Unless the lookup failed, the caller's headers come first and unchanged, and
    anything after them is the one `Authorization` header carrying the access token.
   */
  lemma CallerHeadersKept(caller: seq<Header>, auth: AuthOutcome)
    ensures !auth.Failed? ==> PreparedHeaders(caller, auth)[..|caller|] == caller
    ensures |PreparedHeaders(caller, auth)| == match auth
      case Authenticated(_) => |caller| + 1
      case NotAuthenticated => |caller|
      case Failed => 0
    ensures forall k :: |caller| <= k < |PreparedHeaders(caller, auth)| ==>
      auth.Authenticated? && PreparedHeaders(caller, auth)[k] == Header(AuthorizationName, auth.accessToken)
  {
  }

  /**
    `append` adds to the caller's own header object, so a header object reused for
    two authenticated calls carries two `Authorization` headers on the second one.
   */
  lemma ReusedHeadersAccumulate(caller: seq<Header>, token: string)
    ensures CountNamed(PreparedHeaders(PreparedHeaders(caller, Authenticated(token)), Authenticated(token)), AuthorizationName)
         == CountNamed(caller, AuthorizationName) + 2
  {
    AuthorizationAddedOnce(caller, Authenticated(token));
    AuthorizationAddedOnce(PreparedHeaders(caller, Authenticated(token)), Authenticated(token));
  }
}
