/**
 * The client façade (src/client/index.ts): `twilioClient` resolves the credentials
 * and the route prefix once, then offers two webhook routes and the calls an app
 * makes. Its calls match the older generation's API (`updateStatus` with an auth
 * token, `insertIncoming`), so they are wired to the `LegacyMessages` store and
 * the `LegacyPhoneNumbers` operations here.
 */
module Client {
  import opened Wrappers
  import opened Store
  import JsObject
  import Seqs
  import Rest
  import Schema
  import LegacySchema
  import LegacyMessages
  import Messages
  import PhoneNumbers
  import LegacyPhoneNumbers

  /** The form pairs of a webhook body, in order, duplicates kept (`URLSearchParams`). */
  type Form = seq<(string, string)>

  /** What the caller passes to `twilioClient`; `None` for an option left out. */
  datatype Options = Options(
    accountSid: Option<string>,
    authToken: Option<string>,
    httpPrefix: Option<string>,
    defaultFrom: Option<string>,
    incomingMessageCallback: bool)

  /** `twilioClient(api)` with no options at all. */
  const NoOptions := Options(None, None, None, None, false)

  /** The process environment's TWILIO_ACCOUNT_SID and TWILIO_AUTH_TOKEN. */
  datatype Env = Env(accountSid: Option<string>, authToken: Option<string>)

  /** A constructed client: resolved credentials and prefix, and the options it keeps consulting. */
  datatype Client = Client(
    accountSid: string,
    authToken: string,
    httpPrefix: string,
    defaultFrom: Option<string>,
    incomingMessageCallback: bool)

  /** The response a route handler returns. */
  datatype HttpResponse = HttpResponse(status: int, body: Option<string>)

  /** `new Response(null, { status: 200 })`. */
  const EmptyOk := HttpResponse(200, None)

  /** JavaScript truthiness of an optional string: present and not empty. */
  predicate Truthy(s: Option<string>)
  {
    s.Some? && s.value != ""
  }

  /** `a ?? b`: the first when it is defined, else the second. */
  function Coalesce(a: Option<string>, b: Option<string>): Option<string>
  {
    if a.Some? then a else b
  }

  const DefaultPrefix := "/twilio"
  const MessageStatusSuffix := "/message-status"
  const IncomingMessageSuffix := "/incoming-message"

  /**
   * `twilioClient`: each credential is the explicit option when given (even an
   * empty one) and otherwise the environment's; construction throws "Missing
   * Twilio credentials" when either resolved value is absent or empty. The route
   * prefix is the option when given, else "/twilio".
   */
  function ResolveClient(options: Options, env: Env): (r: Result<Client>)
    ensures r.Err? <==> !Truthy(Coalesce(options.accountSid, env.accountSid))
                        || !Truthy(Coalesce(options.authToken, env.authToken))
    ensures r.Err? ==> r.error == MissingCredentials
    ensures options.accountSid == Some("") || options.authToken == Some("") ==> r.Err?
    ensures r.Ok? && options.accountSid.Some? ==> r.value.accountSid == options.accountSid.value
    ensures r.Ok? && options.accountSid.None? ==> r.value.accountSid == env.accountSid.value
    ensures r.Ok? && options.authToken.Some? ==> r.value.authToken == options.authToken.value
    ensures r.Ok? && options.authToken.None? ==> r.value.authToken == env.authToken.value
    ensures r.Ok? ==> r.value.accountSid != "" && r.value.authToken != ""
    ensures r.Ok? && options.httpPrefix.Some? ==> r.value.httpPrefix == options.httpPrefix.value
    ensures r.Ok? && options.httpPrefix.None? ==> r.value.httpPrefix == DefaultPrefix
    ensures r.Ok? ==> r.value.defaultFrom == options.defaultFrom
                      && r.value.incomingMessageCallback == options.incomingMessageCallback
  {
    var accountSid := Coalesce(options.accountSid, env.accountSid);
    var authToken := Coalesce(options.authToken, env.authToken);
    if !Truthy(accountSid) || !Truthy(authToken) then Err(MissingCredentials)
    else Ok(Client(accountSid.value, authToken.value, options.httpPrefix.GetOr(DefaultPrefix),
                   options.defaultFrom, options.incomingMessageCallback))
  }

  /** The path of the status-callback route. */
  function StatusRoute(prefix: string): (path: string)
    ensures |path| == |prefix| + |MessageStatusSuffix|
    ensures path[..|prefix|] == prefix && path[|prefix|..] == MessageStatusSuffix
  {
    prefix + MessageStatusSuffix
  }

  /** The path of the incoming-message route. */
  function IncomingRoute(prefix: string): (path: string)
    ensures |path| == |prefix| + |IncomingMessageSuffix|
    ensures path[..|prefix|] == prefix && path[|prefix|..] == IncomingMessageSuffix
  {
    prefix + IncomingMessageSuffix
  }

  /** `registerRoutes`: the two POST routes, which never collide whatever the prefix. */
  function Routes(c: Client): (paths: seq<string>)
    ensures |paths| == 2 && paths[0] != paths[1]
    ensures paths[0] == StatusRoute(c.httpPrefix) && paths[1] == IncomingRoute(c.httpPrefix)
  {
    assert |StatusRoute(c.httpPrefix)| != |IncomingRoute(c.httpPrefix)|;
    [StatusRoute(c.httpPrefix), IncomingRoute(c.httpPrefix)]
  }

  /** `process.env.CONVEX_SITE_URL` as string concatenation sees it: "undefined" when unset. */
  function SiteUrlText(siteUrl: Option<string>): string
  {
    if siteUrl.Some? then siteUrl.value else "undefined"
  }

  /** The `status_callback` that `sendMessage` hands to Twilio: the site URL followed by the status route. */
  function StatusCallbackUrl(siteUrl: Option<string>, prefix: string): (url: string)
    ensures |url| == |SiteUrlText(siteUrl)| + |StatusRoute(prefix)|
    ensures url[..|SiteUrlText(siteUrl)|] == SiteUrlText(siteUrl)
    ensures url[|SiteUrlText(siteUrl)|..] == StatusRoute(prefix)
  {
    var site, route := SiteUrlText(siteUrl), StatusRoute(prefix);
    assert (site + route)[|site|..] == route;
    site + route
  }

  /** The `sms_url` that `registerIncomingSmsHandler` hands to Twilio: the site URL followed by the incoming route. */
  function SmsUrl(siteUrl: Option<string>, prefix: string): (url: string)
    ensures |url| == |SiteUrlText(siteUrl)| + |IncomingRoute(prefix)|
    ensures url[..|SiteUrlText(siteUrl)|] == SiteUrlText(siteUrl)
    ensures url[|SiteUrlText(siteUrl)|..] == IncomingRoute(prefix)
  {
    var site, route := SiteUrlText(siteUrl), IncomingRoute(prefix);
    assert (site + route)[|site|..] == route;
    site + route
  }

  /**
   * The URLs Twilio is given point at the routes the same client registers, and the
   * two never coincide.
   */
  lemma CallbackUrlsHitRoutes(c: Client, siteUrl: Option<string>)
    ensures StatusCallbackUrl(siteUrl, c.httpPrefix) == SiteUrlText(siteUrl) + Routes(c)[0]
    ensures SmsUrl(siteUrl, c.httpPrefix) == SiteUrlText(siteUrl) + Routes(c)[1]
    ensures StatusCallbackUrl(siteUrl, c.httpPrefix) != SmsUrl(siteUrl, c.httpPrefix)
  {
    var site := SiteUrlText(siteUrl);
    var status := StatusCallbackUrl(siteUrl, c.httpPrefix);
    var sms := SmsUrl(siteUrl, c.httpPrefix);
    assert status == status[..|site|] + status[|site|..];
    assert sms == sms[..|site|] + sms[|site|..];
  }

  /** `URLSearchParams.get(key)`: the value of the first pair with that key, or null. */
  function FormGet(form: Form, key: string): (r: Option<string>)
    ensures r.None? <==> forall i :: 0 <= i < |form| ==> form[i].0 != key
    ensures r.Some? ==> exists i :: 0 <= i < |form| && form[i] == (key, r.value)
                          && forall j :: 0 <= j < i ==> form[j].0 != key
  {
    var found := Seqs.FirstIndex(form, (kv: (string, string)) => kv.0 == key);
    if found.None? then None else Some(form[found.value].1)
  }

  /**
   * The status route's guard: the (MessageSid, MessageStatus) it updates with, or
   * `None` when either is missing or empty, in which case nothing is written.
   */
  function StatusRequest(form: Form): (r: Option<(string, string)>)
    ensures r.Some? <==> Truthy(FormGet(form, "MessageSid")) && Truthy(FormGet(form, "MessageStatus"))
    ensures r.Some? ==> r.value == (FormGet(form, "MessageSid").value, FormGet(form, "MessageStatus").value)
  {
    var sid := FormGet(form, "MessageSid");
    var status := FormGet(form, "MessageStatus");
    if Truthy(sid) && Truthy(status) then Some((sid.value, status.value)) else None
  }

  /**
   * A status callback that leads with a non-empty MessageSid and MessageStatus
   * triggers an update with exactly those values, whatever pairs follow.
   */
  lemma {:induction false} StatusRequestOfLeadingPairs(sid: string, status: string, rest: Form)
    requires sid != "" && status != ""
    ensures StatusRequest([("MessageSid", sid), ("MessageStatus", status)] + rest) == Some((sid, status))
  {
    var form := [("MessageSid", sid), ("MessageStatus", status)] + rest;
    assert form[0] == ("MessageSid", sid);
    assert form[1] == ("MessageStatus", status) && form[0].0 != "MessageStatus";
    var s := FormGet(form, "MessageSid");
    var i :| 0 <= i < |form| && form[i] == ("MessageSid", s.value) && forall j :: 0 <= j < i ==> form[j].0 != "MessageSid";
    assert i == 0;
    var t := FormGet(form, "MessageStatus");
    var k :| 0 <= k < |form| && form[k] == ("MessageStatus", t.value) && forall j :: 0 <= j < k ==> form[j].0 != "MessageStatus";
    assert k == 1;
  }

  /**
   * The status route: when both fields are present it calls `updateStatus` once,
   * with the client's credentials, and a "Message not found" from it propagates;
   * otherwise it writes nothing. Either way it answers 200 with an empty body.
   */
  method HandleMessageStatus(store: LegacyMessages.LegacyStore, c: Client, form: Form) returns (r: Result<HttpResponse>)
    requires store.Valid()
    modifies store
    ensures store.Valid() && store.incoming == old(store.incoming) && store.nextId == old(store.nextId)
    ensures StatusRequest(form).None? ==> r == Ok(EmptyOk) && store.messages == old(store.messages)
    ensures StatusRequest(form).Some? ==>
              var (sid, status) := StatusRequest(form).value;
              var updated := LegacyMessages.StatusUpdated(old(store.messages), sid, status);
              (updated.Err? ==> r == Err(MessageNotFound) && store.messages == old(store.messages))
              && (updated.Ok? ==> r == Ok(EmptyOk) && store.messages == updated.value)
  {
    var request := StatusRequest(form);
    if request.Some? {
      var (sid, status) := request.value;
      var updated := store.UpdateStatus(c.accountSid, c.authToken, sid, status);
      if updated.Err? {
        return Err(updated.error);
      }
    }
    r := Ok(EmptyOk);
  }

  /** The object the incoming route builds by assigning every form pair in order. */
  method CopyForm(form: Form) returns (record: JsObject.Record)
    ensures record == JsObject.FromPairs(form)
  {
    record := JsObject.EmptyObject;
    for i := 0 to |form|
      invariant record == JsObject.FromPairs(form[..i])
    {
      assert form[..i + 1][..i] == form[..i];
      record := JsObject.Set(record, form[i].0, form[i].1);
    }
    assert form[..|form|] == form;
  }

  /**
   * The incoming-message route: copies the form into an object (a later duplicate
   * key overwriting an earlier one, a `__proto__` key dropped), inserts it into
   * `incoming_messages`, passes the same object to the app's callback only when one
   * is configured, and answers 200. `appCallback` says whether the app's callback
   * resolves for that object; when it rejects, the route throws with the row
   * already stored. `callback` is the object handed to the callback, if it was called.
   */
  method HandleIncomingMessage(store: LegacyMessages.LegacyStore, c: Client, form: Form, now: int,
                               appCallback: JsObject.Record -> bool)
    returns (r: Result<HttpResponse>, callback: Option<JsObject.Record>)
    requires store.Valid()
    modifies store
    ensures store.Valid() && store.messages == old(store.messages)
    ensures var record := JsObject.FromPairs(form);
            var row := LegacySchema.IncomingFromRecord(record);
            (row.None? ==> r == Err(SchemaMismatch) && callback == None
                           && store.incoming == old(store.incoming) && store.nextId == old(store.nextId))
            && (row.Some? ==> store.incoming == old(store.incoming) + [Doc(old(store.nextId), now, row.value)]
                              && callback == (if c.incomingMessageCallback then Some(record) else None))
            && (row.Some? && c.incomingMessageCallback && !appCallback(record) ==> r == Err(CallbackFailed))
            && (row.Some? && (!c.incomingMessageCallback || appCallback(record)) ==> r == Ok(EmptyOk))
  {
    var record := CopyForm(form);
    var inserted := store.InsertIncoming(record, now);
    if inserted.Err? {
      return Err(inserted.error), None;
    }
    callback := None;
    if c.incomingMessageCallback {
      callback := Some(record);
      if !appCallback(record) {
        return Err(CallbackFailed), callback;
      }
    }
    r := Ok(EmptyOk);
  }

  /** Twilio's webhook form for an incoming message is stored as exactly that message. */
  lemma IncomingWebhookStoresMessage(m: LegacySchema.IncomingMessage)
    ensures LegacySchema.IncomingFromRecord(JsObject.FromPairs(LegacySchema.IncomingRecord(m))) == Some(m)
  {
    ProtoNotAnIncomingField();
    JsObject.FromPairsOfRecord(LegacySchema.IncomingRecord(m));
    LegacySchema.IncomingRoundTrip(m);
  }

  /** None of the 19 columns of `incoming_messages` is `__proto__`. */
  lemma ProtoNotAnIncomingField()
    ensures JsObject.ProtoKey !in LegacySchema.IncomingFields
  {
    forall i | 0 <= i < |LegacySchema.IncomingFields|
      ensures LegacySchema.IncomingFields[i] != JsObject.ProtoKey
    {
      assert LegacySchema.IncomingFields[i][0] != '_';
    }
  }

  /**
   * A `__proto__` pair added to Twilio's form changes nothing: the copied object,
   * and so the stored row, are those of the form without it.
   */
  lemma ProtoPairIgnored(form: Form, value: string)
    ensures JsObject.FromPairs(form + [(JsObject.ProtoKey, value)]) == JsObject.FromPairs(form)
  {
    assert (form + [(JsObject.ProtoKey, value)])[..|form|] == form;
  }

  /**
   * The "from" rule of `sendMessage` and `getDefaultPhoneNumber`: "Missing from
   * number" when the argument is falsy and there is no truthy default; otherwise
   * the argument when it is defined (even when empty), else the default.
   */
  function FromNumber(given: Option<string>, defaultFrom: Option<string>): (r: Result<string>)
    ensures r.Err? <==> !Truthy(given) && !Truthy(defaultFrom)
    ensures r.Err? ==> r.error == MissingFromNumber
    ensures r.Ok? && given.Some? ==> r.value == given.value
    ensures r.Ok? && given.None? ==> r.value == defaultFrom.value && r.value != ""
  {
    if !Truthy(given) && !Truthy(defaultFrom) then Err(MissingFromNumber)
    else Ok(Coalesce(given, defaultFrom).value)
  }

  /** An empty "from" argument is sent as the empty string when a default exists. */
  lemma EmptyFromIsSent(defaultFrom: string)
    requires defaultFrom != ""
    ensures FromNumber(Some(""), Some(defaultFrom)) == Ok("")
  {
  }

  /**
   * `sendMessage`: applies the "from" rule, then calls `messages.create` with the
   * client's credentials and a status callback at this client's status route.
   */
  method SendMessage(store: LegacyMessages.LegacyStore, fetch: Rest.Request -> Rest.Response<LegacySchema.LegacyMessage>,
                     c: Client, to: string, body: string, from: Option<string>, siteUrl: Option<string>, now: int)
    returns (r: Result<LegacySchema.LegacyMessage>, ghost sent: seq<Rest.Request>)
    requires store.Valid()
    modifies store
    ensures store.Valid() && store.incoming == old(store.incoming)
    ensures FromNumber(from, c.defaultFrom).Err? ==>
              r == Err(MissingFromNumber) && sent == []
              && store.messages == old(store.messages) && store.nextId == old(store.nextId)
    ensures FromNumber(from, c.defaultFrom).Ok? ==>
              var request := Rest.RequestFor("Messages.json", c.accountSid, c.authToken,
                                             Messages.SendForm(FromNumber(from, c.defaultFrom).value, to, body,
                                                              StatusCallbackUrl(siteUrl, c.httpPrefix)), Rest.Post);
              var response := Rest.Call(fetch, request);
              sent == Rest.Sent(request) && r == response
              && (response.Err? ==> store.messages == old(store.messages) && store.nextId == old(store.nextId))
              && (response.Ok? ==> store.messages == old(store.messages) + [Doc(old(store.nextId), now, response.value)])
  {
    var sender := FromNumber(from, c.defaultFrom);
    if sender.Err? {
      return Err(sender.error), [];
    }
    r, sent := store.Create(fetch, c.accountSid, c.authToken, sender.value, to, body,
                            StatusCallbackUrl(siteUrl, c.httpPrefix), now);
  }

  /**
   * `registerIncomingSmsHandler`: the older `updateSmsUrl` with the client's
   * credentials and an `sms_url` at this client's incoming route. On success the
   * patched row points Twilio at that route; a number already cached gains no row.
   */
  method RegisterIncomingSmsHandler(table: PhoneNumbers.PhoneNumberTable,
                                    fetch: Rest.Request -> Rest.Response<Schema.PhoneNumber>,
                                    c: Client, sid: string, siteUrl: Option<string>, now: int)
    returns (r: Result<()>, ghost sent: seq<Rest.Request>, ghost target: Id)
    requires table.Valid()
    modifies table
    ensures table.Valid()
    ensures LegacyPhoneNumbers.Get(old(table.rows), sid).Some? ==>
              target == LegacyPhoneNumbers.Get(old(table.rows), sid).value.id && table.nextId == old(table.nextId)
    ensures r.Ok? ==> PositionOf(table.rows, target).Some?
                      && table.rows[PositionOf(table.rows, target).value].value.sms_url == SmsUrl(siteUrl, c.httpPrefix)
  {
    r, sent, target := LegacyPhoneNumbers.UpdateSmsUrl(table, fetch, c.accountSid, c.authToken, sid,
                                                       SmsUrl(siteUrl, c.httpPrefix), now);
  }

  /**
   * `getDefaultPhoneNumber`: applies the "from" rule to the number, then calls
   * `getByPhoneNumber` with the client's credentials; a cached number comes back
   * with no request to Twilio.
   */
  method GetDefaultPhoneNumber(table: PhoneNumbers.PhoneNumberTable,
                               fetch: Rest.Request -> Rest.Response<PhoneNumbers.PhoneNumberList>,
                               encodeUriComponent: string -> string,
                               c: Client, number: Option<string>, now: int)
    returns (r: Result<PhoneNumbers.Identified>, ghost sent: seq<Rest.Request>)
    requires table.Valid()
    modifies table
    ensures table.Valid()
    ensures FromNumber(number, c.defaultFrom).Err? ==>
              r == Err(MissingFromNumber) && sent == [] && table.rows == old(table.rows) && table.nextId == old(table.nextId)
    ensures FromNumber(number, c.defaultFrom).Ok? ==>
              var hit := LegacyPhoneNumbers.QueryByPhoneNumber(old(table.rows), FromNumber(number, c.defaultFrom).value,
                                                               c.accountSid);
              hit.Some? ==>
                r == Ok(PhoneNumbers.Identified(hit.value.id, Some(hit.value.creationTime), hit.value.value))
                && sent == [] && table.rows == old(table.rows) && table.nextId == old(table.nextId)
    ensures FromNumber(number, c.defaultFrom).Ok? ==>
              var phoneNumber := FromNumber(number, c.defaultFrom).value;
              var hit := LegacyPhoneNumbers.QueryByPhoneNumber(old(table.rows), phoneNumber, c.accountSid);
              var request := Rest.RequestFor(PhoneNumbers.ListPath(encodeUriComponent, phoneNumber), c.accountSid,
                                             c.authToken, JsObject.EmptyObject, Rest.Get);
              var fetched := Rest.Call(fetch, request);
              hit.None? ==>
                sent == Rest.Sent(request)
                && (fetched.Err? ==> r == Err(fetched.error) && table.rows == old(table.rows))
                && (fetched.Ok? && fetched.value.incoming_phone_numbers == [] ==>
                      r == Err(PhoneNumberNotFound) && table.rows == old(table.rows))
                && (fetched.Ok? && fetched.value.incoming_phone_numbers != [] ==>
                      var first := fetched.value.incoming_phone_numbers[0];
                      r == Ok(PhoneNumbers.Identified(old(table.nextId), None, first))
                      && table.rows == old(table.rows) + [Doc(old(table.nextId), now, first)])
  {
    var phoneNumber := FromNumber(number, c.defaultFrom);
    if phoneNumber.Err? {
      return Err(phoneNumber.error), [];
    }
    r, sent := LegacyPhoneNumbers.GetByPhoneNumber(table, fetch, encodeUriComponent, c.accountSid, c.authToken,
                                                   phoneNumber.value, now);
  }
}
