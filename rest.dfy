/**
 * `twilioRequest` (src/component/utils.ts and the identical older copy in
 * src/twilio/utils.ts): builds the request for a path under the account's REST
 * base URL, authenticates it with HTTP Basic credentials (section 2 of RFC 7617),
 * attaches the form body only to a POST, sends it, and throws unless the response
 * is ok. The network is a parameter: a function from the request to the response.
 */
module Rest {
  import opened Wrappers
  import opened JsObject
  import Base64

  datatype HttpMethod = Post | Get

  /**
   * What `fetch` receives: the URL and the request init. The body is the form that
   * `new URLSearchParams(body)` serialises; that serialisation is not modelled.
   */
  datatype Request = Request(
    verb: HttpMethod,
    url: string,
    authorization: string,
    contentType: string,
    body: Option<Record>)

  /** What `fetch` resolves to (`Received`), or its rejection (`Failed`); `payload` is `response.json()`. */
  datatype Response<J> = Failed | Received(ok: bool, status: int, payload: J)

  const ApiBase := "https://api.twilio.com/2010-04-01/Accounts/"
  const FormContentType := "application/x-www-form-urlencoded"
  const BasicPrefix := "Basic "

  /** The text `btoa` encodes: the user-id and password joined by a colon. */
  function UserPass(accountSid: string, authToken: string): string
  {
    accountSid + ":" + authToken
  }

  /** Splits a text at its first colon, as section 2 of RFC 7617 reads a user-pass. */
  function SplitAtColon(s: string): (r: Option<(string, string)>)
    ensures r.None? <==> ':' !in s
    ensures r.Some? ==> r.value.0 + ":" + r.value.1 == s && ':' !in r.value.0
  {
    if s == [] then None
    else if s[0] == ':' then Some(([], s[1..]))
    else match SplitAtColon(s[1..])
      case None => None
      case Some((u, p)) =>
        assert s == [s[0]] + s[1..];
        Some(([s[0]] + u, p))
  }

  /** A user-id without a colon is recovered from the joined text, and so is the password. */
  lemma {:induction false} SplitUserPass(user: string, pass: string)
    requires ':' !in user
    ensures SplitAtColon(user + ":" + pass) == Some((user, pass))
  {
    if user != [] {
      assert (user + ":" + pass)[1..] == user[1..] + ":" + pass;
      SplitUserPass(user[1..], pass);
      assert [user[0]] + user[1..] == user;
    }
  }

  /** The credentials a server reads back from an Authorization header, if it is Basic. */
  function BasicCredentials(header: string): Option<(string, string)>
  {
    if |header| < |BasicPrefix| || header[..|BasicPrefix|] != BasicPrefix then None
    else match Base64.Atob(header[|BasicPrefix|..])
      case None => None
      case Some(userPass) => SplitAtColon(userPass)
  }

  /**
   * The request `twilioRequest` hands to `fetch`, or the exception `btoa` throws
   * when the SID or token holds a character above U+00FF.
   */
  function RequestFor(path: string, accountSid: string, authToken: string, body: Record, verb: HttpMethod)
    : (r: Result<Request>)
    ensures r.Err? <==> !Base64.IsLatin1(UserPass(accountSid, authToken))
    ensures r.Err? ==> r.error == InvalidCharacter
    ensures r.Ok? ==> r.value.verb == verb
    ensures r.Ok? ==> r.value.url == ApiBase + accountSid + "/" + path
    ensures r.Ok? ==> r.value.contentType == FormContentType
    ensures r.Ok? ==> (r.value.body.Some? <==> verb == Post)
    ensures r.Ok? && verb == Post ==> r.value.body == Some(body)
    ensures r.Ok? ==> |r.value.authorization| >= |BasicPrefix| && r.value.authorization[..|BasicPrefix|] == BasicPrefix
    ensures r.Ok? ==> Base64.Atob(r.value.authorization[|BasicPrefix|..]) == Some(UserPass(accountSid, authToken))
  {
    if !Base64.IsLatin1(UserPass(accountSid, authToken)) then Err(InvalidCharacter)
    else
      var authorization := BasicPrefix + Base64.Btoa(UserPass(accountSid, authToken));
      assert authorization[|BasicPrefix|..] == Base64.Btoa(UserPass(accountSid, authToken));
      Ok(Request(verb, ApiBase + accountSid + "/" + path, authorization, FormContentType,
                 if verb == Post then Some(body) else None))
  }

  /**
   * A server decoding the Authorization header gets back exactly the account SID
   * and the auth token (an account SID never holds a colon).
   */
  lemma AuthorizationRecoversCredentials(path: string, accountSid: string, authToken: string, body: Record,
                                         verb: HttpMethod)
    requires ':' !in accountSid
    requires RequestFor(path, accountSid, authToken, body, verb).Ok?
    ensures BasicCredentials(RequestFor(path, accountSid, authToken, body, verb).value.authorization)
         == Some((accountSid, authToken))
  {
    var header := RequestFor(path, accountSid, authToken, body, verb).value.authorization;
    assert |header| >= |BasicPrefix|;
    SplitUserPass(accountSid, authToken);
  }

  /** Distinct credentials give distinct Authorization headers. */
  lemma AuthorizationInjective(path: string, sid1: string, token1: string, sid2: string, token2: string,
                               body: Record, verb: HttpMethod)
    requires ':' !in sid1 && ':' !in sid2
    requires RequestFor(path, sid1, token1, body, verb).Ok?
    requires RequestFor(path, sid2, token2, body, verb).Ok?
    requires RequestFor(path, sid1, token1, body, verb).value.authorization
          == RequestFor(path, sid2, token2, body, verb).value.authorization
    ensures sid1 == sid2 && token1 == token2
  {
    AuthorizationRecoversCredentials(path, sid1, token1, body, verb);
    AuthorizationRecoversCredentials(path, sid2, token2, body, verb);
  }

  /** Builds the request object, then attaches the body when the method is POST. */
  method BuildRequest(path: string, accountSid: string, authToken: string, body: Record, verb: HttpMethod)
    returns (r: Result<Request>)
    ensures r == RequestFor(path, accountSid, authToken, body, verb)
  {
    var url := ApiBase + accountSid + "/" + path;
    if !Base64.IsLatin1(UserPass(accountSid, authToken)) {
      return Err(InvalidCharacter);
    }
    var auth := Base64.Btoa(UserPass(accountSid, authToken));
    var request := Request(verb, url, BasicPrefix + auth, FormContentType, None);
    if verb == Post {
      request := request.(body := Some(body));
    }
    r := Ok(request);
  }

  /** How a response ends the call: its JSON when ok, otherwise an exception. */
  function Outcome<J>(response: Response<J>): (r: Result<J>)
    ensures r.Ok? <==> response.Received? && response.ok
    ensures r.Ok? ==> r.value == response.payload
    ensures response.Failed? ==> r == Err(NetworkFailure)
    ensures response.Received? && !response.ok ==> r == Err(RequestFailed)
  {
    match response
    case Failed => Err(NetworkFailure)
    case Received(ok, _, payload) => if ok then Ok(payload) else Err(RequestFailed)
  }

  /**
   * The outcome of `twilioRequest` for a built request: `btoa`'s exception when
   * the request could not be built, otherwise the outcome of its response.
   */
  function Call<J>(fetch: Request -> Response<J>, request: Result<Request>): (r: Result<J>)
    ensures request.Err? ==> r == Err(request.error)
    ensures request.Ok? ==> r == Outcome(fetch(request.value))
    ensures r.Ok? ==> request.Ok? && fetch(request.value).Received? && fetch(request.value).ok
  {
    if request.Err? then Err(request.error) else Outcome(fetch(request.value))
  }

  /** The requests that reach the network: the built request, if it could be built. */
  function Sent(request: Result<Request>): (r: seq<Request>)
    ensures |r| <= 1
    ensures r == [] <==> request.Err?
  {
    if request.Ok? then [request.value] else []
  }

  /**
   * `twilioRequest`: the parsed JSON of an ok response; "Failed to send request to
   * Twilio" for any other status. `sent` lists the request that went out, if any.
   */
  method TwilioRequest<J>(fetch: Request -> Response<J>, path: string, accountSid: string, authToken: string,
                          body: Record, verb: HttpMethod)
    returns (r: Result<J>, ghost sent: seq<Request>)
    ensures r == Call(fetch, RequestFor(path, accountSid, authToken, body, verb))
    ensures sent == Sent(RequestFor(path, accountSid, authToken, body, verb))
  {
    var request := BuildRequest(path, accountSid, authToken, body, verb);
    if request.Err? {
      return Err(request.error), [];
    }
    sent := [request.value];
    var response := fetch(request.value);
    if response.Failed? {
      return Err(NetworkFailure), sent;
    }
    if !response.ok {
      return Err(RequestFailed), sent;
    }
    r := Ok(response.payload);
  }
}
