/**
 * The older generation's phone-number cache (src/twilio/phone_numbers.ts). It
 * works on the same `phone_numbers` table as the component, and its `insert`,
 * `patch` and `create` are the same code; what differs is how it finds a row:
 * `get` filters on the SID alone, across accounts, and `queryByPhoneNumber` reads
 * the `by_phone_number` index on the number and then filters on the account.
 */
module LegacyPhoneNumbers {
  import opened Wrappers
  import opened Store
  import opened Schema
  import JsObject
  import Seqs
  import Rest
  import PhoneNumbers

  type Rows = seq<Doc<PhoneNumber>>

  /** `get`: the first document with this SID, whichever account it belongs to, or null. */
  function Get(rows: Rows, sid: string): (r: Option<Doc<PhoneNumber>>)
    ensures r.None? <==> forall i :: 0 <= i < |rows| ==> rows[i].value.sid != sid
    ensures r.Some? ==> exists i :: 0 <= i < |rows| && rows[i] == r.value
                          && forall j :: 0 <= j < i ==> rows[j].value.sid != sid
    ensures r.Some? ==> r.value.value.sid == sid
  {
    var found := Seqs.FirstIndex(rows, (d: Doc<PhoneNumber>) => d.value.sid == sid);
    if found.None? then None else Some(rows[found.value])
  }

  /**
   * The older `get` crosses tenants: a table holding one account's number answers
   * the SID for any caller, where the component's account-scoped `get` finds nothing.
   */
  lemma GetCrossesAccounts(p: PhoneNumber, caller: string)
    requires caller != p.account_sid
    ensures Get([Doc(0, 0, p)], p.sid) == Some(Doc(0, 0, p))
    ensures PhoneNumbers.Get([Doc(0, 0, p)], caller, p.sid) == None
  {
    assert !PhoneNumbers.HasSid([Doc(0, 0, p)][0].value, caller, p.sid);
  }

  /** The component's `queryByPhoneNumber` picks the first document that has both the account and the number. */
  lemma ComponentQueryIsFirst(rows: Rows, number: string, account: string, both: Doc<PhoneNumber> -> bool)
    requires forall d :: both(d) == PhoneNumbers.HasNumber(d.value, account, number)
    ensures PhoneNumbers.QueryByPhoneNumber(rows, number, account) == Seqs.First(rows, both)
  {
    var component := PhoneNumbers.QueryByPhoneNumber(rows, number, account);
    if component.Some? {
      var i :| 0 <= i < |rows| && rows[i] == component.value
               && forall j :: 0 <= j < i ==> !PhoneNumbers.HasNumber(rows[j].value, account, number);
      Seqs.FirstIsFilterHead(rows, both, i);
    }
  }

  /**
   * `queryByPhoneNumber`: the first document of the `by_phone_number` range for the
   * number that also has the account, or null. It selects the same document as the
   * component's two-field index.
   */
  function QueryByPhoneNumber(rows: Rows, number: string, account: string): (r: Option<Doc<PhoneNumber>>)
    ensures r == PhoneNumbers.QueryByPhoneNumber(rows, number, account)
  {
    var byNumber := (d: Doc<PhoneNumber>) => d.value.phone_number == number;
    var ofAccount := (d: Doc<PhoneNumber>) => d.value.account_sid == account;
    var both := (d: Doc<PhoneNumber>) => PhoneNumbers.HasNumber(d.value, account, number);
    Seqs.FirstOfFilter(rows, byNumber, ofAccount, both);
    ComponentQueryIsFirst(rows, number, account, both);
    Seqs.First(Seqs.Filter(rows, byNumber), ofAccount)
  }

  /** `insert`: appends exactly one document and returns its id. */
  method Insert(table: PhoneNumbers.PhoneNumberTable, phoneNumber: PhoneNumber, now: int) returns (id: Id)
    requires table.Valid()
    modifies table
    ensures table.Valid()
    ensures id == old(table.nextId) && table.nextId == old(table.nextId) + 1
    ensures table.rows == old(table.rows) + [Doc(id, now, phoneNumber)]
  {
    id := table.Insert(phoneNumber, now);
  }

  /** `patch`: sets `sms_url` of the document with that id; an unknown id throws. */
  method Patch(table: PhoneNumbers.PhoneNumberTable, id: Id, smsUrl: string) returns (r: Result<()>)
    requires table.Valid()
    modifies table
    ensures table.Valid() && table.nextId == old(table.nextId)
    ensures PhoneNumbers.SmsUrlPatched(old(table.rows), id, smsUrl).Err? ==>
              r == Err(DocumentNotFound) && table.rows == old(table.rows)
    ensures PhoneNumbers.SmsUrlPatched(old(table.rows), id, smsUrl).Ok? ==>
              r == Ok(()) && table.rows == PhoneNumbers.SmsUrlPatched(old(table.rows), id, smsUrl).value
  {
    r := table.Patch(id, smsUrl);
  }

  /**
   * `create`: POSTs `{ PhoneNumber }` to IncomingPhoneNumbers.json, inserts what
   * Twilio returns and hands it back with `_id` set to the new document's id.
   */
  method Create(table: PhoneNumbers.PhoneNumberTable, fetch: Rest.Request -> Rest.Response<PhoneNumber>,
                account: string, authToken: string, number: string, now: int)
    returns (r: Result<PhoneNumbers.Identified>, ghost sent: seq<Rest.Request>)
    requires table.Valid()
    modifies table
    ensures table.Valid()
    ensures var request := Rest.RequestFor("IncomingPhoneNumbers.json", account, authToken,
                                           PhoneNumbers.CreateForm(number), Rest.Post);
            var response := Rest.Call(fetch, request);
            sent == Rest.Sent(request)
            && (response.Err? ==> r == Err(response.error) && table.rows == old(table.rows)
                                  && table.nextId == old(table.nextId))
            && (response.Ok? ==> r == Ok(PhoneNumbers.Identified(old(table.nextId), None, response.value))
                                 && table.rows == old(table.rows) + [Doc(old(table.nextId), now, response.value)])
  {
    r, sent := table.Create(fetch, account, authToken, number, now);
  }

  /**
   * `updateSmsUrl`: finds the first document with the SID in any account, fetching
   * and inserting it on a miss; POSTs the new `SmsUrl` to Twilio; then patches the
   * document's `sms_url`. `target` is the id the patch goes to.
   */
  method UpdateSmsUrl(table: PhoneNumbers.PhoneNumberTable, fetch: Rest.Request -> Rest.Response<PhoneNumber>,
                      account: string, authToken: string, sid: string, smsUrl: string, now: int)
    returns (r: Result<()>, ghost sent: seq<Rest.Request>, ghost target: Id)
    requires table.Valid()
    modifies table
    ensures table.Valid()
    ensures var hit := Get(old(table.rows), sid);
            var postRequest := Rest.RequestFor(PhoneNumbers.NumberPath(sid), account, authToken,
                                               PhoneNumbers.SmsUrlForm(smsUrl), Rest.Post);
            var posted := Rest.Call(fetch, postRequest);
            hit.Some? ==>
              target == hit.value.id && table.nextId == old(table.nextId)
              && sent == Rest.Sent(postRequest)
              && (posted.Err? ==> r == Err(posted.error) && table.rows == old(table.rows))
              && (posted.Ok? ==> r == Ok(()) && PhoneNumbers.SmsUrlPatched(old(table.rows), target, smsUrl) == Ok(table.rows))
    ensures var hit := Get(old(table.rows), sid);
            var getRequest := Rest.RequestFor(PhoneNumbers.NumberPath(sid), account, authToken,
                                              JsObject.EmptyObject, Rest.Get);
            var fetched := Rest.Call(fetch, getRequest);
            hit.None? && fetched.Err? ==>
              r == Err(fetched.error) && table.rows == old(table.rows) && table.nextId == old(table.nextId)
              && sent == Rest.Sent(getRequest)
    ensures var hit := Get(old(table.rows), sid);
            var getRequest := Rest.RequestFor(PhoneNumbers.NumberPath(sid), account, authToken,
                                              JsObject.EmptyObject, Rest.Get);
            var postRequest := Rest.RequestFor(PhoneNumbers.NumberPath(sid), account, authToken,
                                               PhoneNumbers.SmsUrlForm(smsUrl), Rest.Post);
            var fetched := Rest.Call(fetch, getRequest);
            var posted := Rest.Call(fetch, postRequest);
            hit.None? && fetched.Ok? ==>
              var inserted := old(table.rows) + [Doc(old(table.nextId), now, fetched.value)];
              target == old(table.nextId) && table.nextId == old(table.nextId) + 1
              && sent == Rest.Sent(getRequest) + Rest.Sent(postRequest)
              && (posted.Err? ==> r == Err(posted.error) && table.rows == inserted)
              && (posted.Ok? ==> r == Ok(()) && PhoneNumbers.SmsUrlPatched(inserted, target, smsUrl) == Ok(table.rows))
    ensures r.Ok? ==> PositionOf(table.rows, target).Some?
                      && table.rows[PositionOf(table.rows, target).value].value.sms_url == smsUrl
  {
    var phoneNumber := Get(table.rows, sid);
    var found;
    ghost var fetchSent;
    found, fetchSent := table.LocalId(phoneNumber, fetch, account, authToken, sid, now);
    if found.Err? {
      return Err(found.error), fetchSent, table.nextId;
    }
    target := found.value;
    ghost var postSent;
    r, postSent := table.PushSmsUrl(fetch, account, authToken, sid, smsUrl, found.value);
    sent := fetchSent + postSent;
    assert [] + postSent == postSent;
  }

  /**
   * `getByPhoneNumber`: the stored document on a hit, with no request to Twilio;
   * on a miss, the first number of Twilio's filtered list, inserted and handed
   * back with `_id`; "Phone number not found" when that list is empty.
   */
  method GetByPhoneNumber(table: PhoneNumbers.PhoneNumberTable, fetch: Rest.Request -> Rest.Response<PhoneNumbers.PhoneNumberList>,
                          encodeUriComponent: string -> string,
                          account: string, authToken: string, number: string, now: int)
    returns (r: Result<PhoneNumbers.Identified>, ghost sent: seq<Rest.Request>)
    requires table.Valid()
    modifies table
    ensures table.Valid()
    ensures var hit := QueryByPhoneNumber(old(table.rows), number, account);
            hit.Some? ==>
              r == Ok(PhoneNumbers.Identified(hit.value.id, Some(hit.value.creationTime), hit.value.value))
              && sent == [] && table.rows == old(table.rows) && table.nextId == old(table.nextId)
    ensures var hit := QueryByPhoneNumber(old(table.rows), number, account);
            var request := Rest.RequestFor(PhoneNumbers.ListPath(encodeUriComponent, number), account, authToken,
                                           JsObject.EmptyObject, Rest.Get);
            var fetched := Rest.Call(fetch, request);
            hit.None? ==>
              sent == Rest.Sent(request)
              && (fetched.Err? ==> r == Err(fetched.error) && table.rows == old(table.rows)
                                   && table.nextId == old(table.nextId))
              && (fetched.Ok? && fetched.value.incoming_phone_numbers == [] ==>
                    r == Err(PhoneNumberNotFound) && table.rows == old(table.rows) && table.nextId == old(table.nextId))
              && (fetched.Ok? && fetched.value.incoming_phone_numbers != [] ==>
                    var first := fetched.value.incoming_phone_numbers[0];
                    r == Ok(PhoneNumbers.Identified(old(table.nextId), None, first))
                    && table.rows == old(table.rows) + [Doc(old(table.nextId), now, first)])
  {
    r, sent := table.GetByPhoneNumber(fetch, encodeUriComponent, account, authToken, number, now);
  }
}
