/**
 * The component's `phone_numbers` table used as a cache of Twilio's incoming
 * phone numbers (src/component/phone_numbers.ts): look the number up locally,
 * otherwise fetch it from Twilio and insert it, and for `updateSmsUrl` push the
 * new `sms_url` to Twilio and then patch the local row.
 */
module PhoneNumbers {
  import opened Wrappers
  import opened Store
  import opened Schema
  import JsObject
  import Seqs
  import Rest

  type Rows = seq<Doc<PhoneNumber>>

  /**
   * What `create` and `getByPhoneNumber` hand back: a record with `_id` set, and
   * `_creationTime` only when the record was read from the table.
   */
  datatype Identified = Identified(id: Id, creationTime: Option<int>, value: PhoneNumber)

  /** The body of Twilio's `IncomingPhoneNumbers.json?PhoneNumber=...` list. */
  datatype PhoneNumberList = PhoneNumberList(incoming_phone_numbers: seq<PhoneNumber>)

  /** The phone number with this SID in this account. */
  predicate HasSid(p: PhoneNumber, account: string, sid: string)
  {
    p.account_sid == account && p.sid == sid
  }

  /** The phone number with this E.164 number in this account. */
  predicate HasNumber(p: PhoneNumber, account: string, number: string)
  {
    p.account_sid == account && p.phone_number == number
  }

  /** A two-field range holds exactly the phone numbers with both keys. */
  lemma InRangeOfTwo(p: PhoneNumber, index: Index<PhoneNumberField>, k0: IndexKey, k1: IndexKey)
    requires |index.fields| == 2
    ensures PhoneNumberInRange(p, index, [k0, k1])
        <==> PhoneNumberKey(p, index.fields[0]) == k0 && PhoneNumberKey(p, index.fields[1]) == k1
  {
    if PhoneNumberKey(p, index.fields[0]) == k0 && PhoneNumberKey(p, index.fields[1]) == k1 {
      forall i | 0 <= i < 2 ensures PhoneNumberKey(p, index.fields[i]) == [k0, k1][i] {
        if i == 0 { } else { }
      }
    }
  }

  /** `get`: the first document of the `by_sid` range for (account, sid), or null. */
  function Get(rows: Rows, account: string, sid: string): (r: Option<Doc<PhoneNumber>>)
    ensures r.None? <==> forall i :: 0 <= i < |rows| ==> !HasSid(rows[i].value, account, sid)
    ensures r.Some? ==> exists i :: 0 <= i < |rows| && rows[i] == r.value
                          && forall j :: 0 <= j < i ==> !HasSid(rows[j].value, account, sid)
    ensures r.Some? ==> HasSid(r.value.value, account, sid)
  {
    forall i | 0 <= i < |rows|
      ensures PhoneNumberInRange(rows[i].value, PhoneNumbersBySid, [Str(account), Str(sid)])
          <==> HasSid(rows[i].value, account, sid)
    {
      InRangeOfTwo(rows[i].value, PhoneNumbersBySid, Str(account), Str(sid));
    }
    var found := Seqs.FirstIndex(rows,
      (d: Doc<PhoneNumber>) => PhoneNumberInRange(d.value, PhoneNumbersBySid, [Str(account), Str(sid)]));
    if found.None? then None else Some(rows[found.value])
  }

  /** `queryByPhoneNumber`: the first document of the `by_phone_number` range for (account, number), or null. */
  function QueryByPhoneNumber(rows: Rows, number: string, account: string): (r: Option<Doc<PhoneNumber>>)
    ensures r.None? <==> forall i :: 0 <= i < |rows| ==> !HasNumber(rows[i].value, account, number)
    ensures r.Some? ==> exists i :: 0 <= i < |rows| && rows[i] == r.value
                          && forall j :: 0 <= j < i ==> !HasNumber(rows[j].value, account, number)
    ensures r.Some? ==> HasNumber(r.value.value, account, number)
  {
    forall i | 0 <= i < |rows|
      ensures PhoneNumberInRange(rows[i].value, PhoneNumbersByPhoneNumber, [Str(account), Str(number)])
          <==> HasNumber(rows[i].value, account, number)
    {
      InRangeOfTwo(rows[i].value, PhoneNumbersByPhoneNumber, Str(account), Str(number));
    }
    var found := Seqs.FirstIndex(rows,
      (d: Doc<PhoneNumber>) => PhoneNumberInRange(d.value, PhoneNumbersByPhoneNumber, [Str(account), Str(number)]));
    if found.None? then None else Some(rows[found.value])
  }

  /**
   * `patch(convexId, { sms_url })` on the table's documents: the document with that
   * id gets the new `sms_url` and nothing else changes; an unknown id throws.
   */
  function SmsUrlPatched(rows: Rows, id: Id, smsUrl: string): (r: Result<Rows>)
    requires DistinctIds(rows)
    ensures r.Err? <==> forall i :: 0 <= i < |rows| ==> rows[i].id != id
    ensures r.Err? ==> r.error == DocumentNotFound
    ensures r.Ok? ==> |r.value| == |rows|
    ensures r.Ok? ==> forall j :: 0 <= j < |rows| ==>
              r.value[j].id == rows[j].id && r.value[j].creationTime == rows[j].creationTime
              && r.value[j].value == rows[j].value.(sms_url := r.value[j].value.sms_url)
    ensures r.Ok? ==> forall j :: 0 <= j < |rows| ==>
              if rows[j].id == id then r.value[j].value.sms_url == smsUrl else r.value[j] == rows[j]
  {
    match PositionOf(rows, id)
    case None => Err(DocumentNotFound)
    case Some(i) =>
      Ok(rows[i := rows[i].(value := rows[i].value.(sms_url := smsUrl))])
  }

  /** The form `create` posts: `{ PhoneNumber }`. */
  function CreateForm(number: string): (form: JsObject.Record)
    ensures JsObject.Keys(form) == ["PhoneNumber"] && JsObject.Get(form, "PhoneNumber") == Some(number)
  {
    var form := [("PhoneNumber", number)];
    assert JsObject.Keys(form) == ["PhoneNumber"];
    form
  }

  /** The form `updateSmsUrl` posts: `{ SmsUrl }`. */
  function SmsUrlForm(smsUrl: string): (form: JsObject.Record)
    ensures JsObject.Keys(form) == ["SmsUrl"] && JsObject.Get(form, "SmsUrl") == Some(smsUrl)
  {
    var form := [("SmsUrl", smsUrl)];
    assert JsObject.Keys(form) == ["SmsUrl"];
    form
  }

  /** The path of one incoming phone number. */
  function NumberPath(sid: string): string
  {
    "IncomingPhoneNumbers/" + sid + ".json"
  }

  /** The path of the list filtered on a number that `encodeURIComponent` has percent-encoded. */
  function ListPath(encodeUriComponent: string -> string, number: string): string
  {
    "IncomingPhoneNumbers.json?PhoneNumber=" + encodeUriComponent(number)
  }

  /** The `phone_numbers` table: its documents in insertion order and the next id to hand out. */
  class PhoneNumberTable {
    var rows: Rows
    var nextId: Id

    predicate Valid()
      reads this
    {
      WellFormed(rows, nextId)
    }

    constructor()
      ensures Valid() && rows == []
    {
      rows := [];
      nextId := 0;
    }

    /** `insert`: appends exactly one document and returns its id. */
    method Insert(phoneNumber: PhoneNumber, now: int) returns (id: Id)
      requires Valid()
      modifies this
      ensures Valid()
      ensures id == old(nextId) && nextId == old(nextId) + 1
      ensures rows == old(rows) + [Doc(id, now, phoneNumber)]
    {
      id := nextId;
      AppendFresh(rows, nextId, now, phoneNumber);
      rows := rows + [Doc(id, now, phoneNumber)];
      nextId := nextId + 1;
    }

    /** `patch`: sets `sms_url` of the document with that id; an unknown id throws. */
    method Patch(id: Id, smsUrl: string) returns (r: Result<()>)
      requires Valid()
      modifies this
      ensures Valid() && nextId == old(nextId)
      ensures SmsUrlPatched(old(rows), id, smsUrl).Err? ==> r == Err(DocumentNotFound) && rows == old(rows)
      ensures SmsUrlPatched(old(rows), id, smsUrl).Ok? ==> r == Ok(()) && rows == SmsUrlPatched(old(rows), id, smsUrl).value
    {
      var position := PositionOf(rows, id);
      if position.None? {
        return Err(DocumentNotFound);
      }
      var i := position.value;
      ReplaceKeepsIds(rows, nextId, i, rows[i].value.(sms_url := smsUrl));
      rows := rows[i := rows[i].(value := rows[i].value.(sms_url := smsUrl))];
      r := Ok(());
    }

    /**
     * `create`: POSTs `{ PhoneNumber }` to IncomingPhoneNumbers.json, inserts what
     * Twilio returns and hands it back with `_id` set to the new document's id.
     */
    method Create(fetch: Rest.Request -> Rest.Response<PhoneNumber>, account: string, authToken: string,
                  number: string, now: int)
      returns (r: Result<Identified>, ghost sent: seq<Rest.Request>)
      requires Valid()
      modifies this
      ensures Valid()
      ensures var request := Rest.RequestFor("IncomingPhoneNumbers.json", account, authToken, CreateForm(number), Rest.Post);
              var response := Rest.Call(fetch, request);
              sent == Rest.Sent(request)
              && (response.Err? ==> r == Err(response.error) && rows == old(rows) && nextId == old(nextId))
              && (response.Ok? ==> r == Ok(Identified(old(nextId), None, response.value))
                                   && rows == old(rows) + [Doc(old(nextId), now, response.value)])
    {
      var data;
      data, sent := Rest.TwilioRequest(fetch, "IncomingPhoneNumbers.json", account, authToken,
                                       CreateForm(number), Rest.Post);
      if data.Err? {
        return Err(data.error), sent;
      }
      var id := Insert(data.value, now);
      r := Ok(Identified(id, None, data.value));
    }

    /** The tail of `updateSmsUrl`: POSTs the new `SmsUrl`, then patches document `id`. */
    method PushSmsUrl(fetch: Rest.Request -> Rest.Response<PhoneNumber>, account: string, authToken: string,
                      sid: string, smsUrl: string, id: Id)
      returns (r: Result<()>, ghost sent: seq<Rest.Request>)
      requires Valid() && PositionOf(rows, id).Some?
      modifies this
      ensures Valid() && nextId == old(nextId)
      ensures var request := Rest.RequestFor(NumberPath(sid), account, authToken, SmsUrlForm(smsUrl), Rest.Post);
              var posted := Rest.Call(fetch, request);
              sent == Rest.Sent(request)
              && (posted.Err? ==> r == Err(posted.error) && rows == old(rows))
              && (posted.Ok? ==> r == Ok(()) && SmsUrlPatched(old(rows), id, smsUrl) == Ok(rows))
      ensures r.Ok? ==> PositionOf(rows, id).Some? && rows[PositionOf(rows, id).value].value.sms_url == smsUrl
    {
      var response;
      response, sent := Rest.TwilioRequest(fetch, NumberPath(sid), account, authToken, SmsUrlForm(smsUrl), Rest.Post);
      if response.Err? {
        return Err(response.error), sent;
      }
      r := Patch(id, smsUrl);
    }

    /**
     * The first half of `updateSmsUrl`: the id of the local document `hit` when
     * there is one; otherwise GETs the number from Twilio, inserts it and gives the
     * new id.
     */
    method LocalId(hit: Option<Doc<PhoneNumber>>, fetch: Rest.Request -> Rest.Response<PhoneNumber>,
                   account: string, authToken: string, sid: string, now: int)
      returns (found: Result<Id>, ghost sent: seq<Rest.Request>)
      requires Valid() && (hit.Some? ==> hit.value in rows)
      modifies this
      ensures Valid()
      ensures hit.Some? ==> found == Ok(hit.value.id) && sent == [] && rows == old(rows) && nextId == old(nextId)
      ensures var getRequest := Rest.RequestFor(NumberPath(sid), account, authToken, JsObject.EmptyObject, Rest.Get);
              var fetched := Rest.Call(fetch, getRequest);
              hit.None? ==>
                sent == Rest.Sent(getRequest)
                && (fetched.Err? ==> found == Err(fetched.error) && rows == old(rows) && nextId == old(nextId))
                && (fetched.Ok? ==> found == Ok(old(nextId)) && nextId == old(nextId) + 1
                                    && rows == old(rows) + [Doc(old(nextId), now, fetched.value)])
      ensures found.Ok? ==> PositionOf(rows, found.value).Some?
    {
      if hit.Some? {
        return Ok(hit.value.id), [];
      }
      var data;
      data, sent := Rest.TwilioRequest(fetch, NumberPath(sid), account, authToken, JsObject.EmptyObject, Rest.Get);
      if data.Err? {
        return Err(data.error), sent;
      }
      var id := Insert(data.value, now);
      assert rows[|rows| - 1].id == id;
      found := Ok(id);
    }

    /**
     * `updateSmsUrl`: finds the local document for (account, sid), fetching and
     * inserting it on a miss; POSTs the new `SmsUrl` to Twilio; then patches the
     * document's `sms_url`. `target` is the id the patch goes to.
     */
    method UpdateSmsUrl(fetch: Rest.Request -> Rest.Response<PhoneNumber>, account: string, authToken: string,
                        sid: string, smsUrl: string, now: int)
      returns (r: Result<()>, ghost sent: seq<Rest.Request>, ghost target: Id)
      requires Valid()
      modifies this
      ensures Valid()
      ensures var hit := Get(old(rows), account, sid);
              var postRequest := Rest.RequestFor(NumberPath(sid), account, authToken, SmsUrlForm(smsUrl), Rest.Post);
              var posted := Rest.Call(fetch, postRequest);
              hit.Some? ==>
                target == hit.value.id && nextId == old(nextId)
                && sent == Rest.Sent(postRequest)
                && (posted.Err? ==> r == Err(posted.error) && rows == old(rows))
                && (posted.Ok? ==> r == Ok(()) && SmsUrlPatched(old(rows), target, smsUrl) == Ok(rows))
      ensures var hit := Get(old(rows), account, sid);
              var getRequest := Rest.RequestFor(NumberPath(sid), account, authToken, JsObject.EmptyObject, Rest.Get);
              var fetched := Rest.Call(fetch, getRequest);
              hit.None? && fetched.Err? ==>
                r == Err(fetched.error) && rows == old(rows) && nextId == old(nextId) && sent == Rest.Sent(getRequest)
      ensures var hit := Get(old(rows), account, sid);
              var getRequest := Rest.RequestFor(NumberPath(sid), account, authToken, JsObject.EmptyObject, Rest.Get);
              var postRequest := Rest.RequestFor(NumberPath(sid), account, authToken, SmsUrlForm(smsUrl), Rest.Post);
              var fetched := Rest.Call(fetch, getRequest);
              var posted := Rest.Call(fetch, postRequest);
              hit.None? && fetched.Ok? ==>
                var inserted := old(rows) + [Doc(old(nextId), now, fetched.value)];
                target == old(nextId) && nextId == old(nextId) + 1
                && sent == Rest.Sent(getRequest) + Rest.Sent(postRequest)
                && (posted.Err? ==> r == Err(posted.error) && rows == inserted)
                && (posted.Ok? ==> r == Ok(()) && SmsUrlPatched(inserted, target, smsUrl) == Ok(rows))
      ensures r.Ok? ==> PositionOf(rows, target).Some? && rows[PositionOf(rows, target).value].value.sms_url == smsUrl
    {
      var phoneNumber := Get(rows, account, sid);
      var found;
      ghost var fetchSent;
      found, fetchSent := LocalId(phoneNumber, fetch, account, authToken, sid, now);
      if found.Err? {
        return Err(found.error), fetchSent, nextId;
      }
      target := found.value;
      ghost var postSent;
      r, postSent := PushSmsUrl(fetch, account, authToken, sid, smsUrl, found.value);
      sent := fetchSent + postSent;
      assert [] + postSent == postSent;
    }

    /**
     * `getByPhoneNumber`: the stored document on a hit, with no request to Twilio;
     * on a miss, the first number of Twilio's filtered list, inserted and handed
     * back with `_id`; "Phone number not found" when that list is empty.
     */
    method GetByPhoneNumber(fetch: Rest.Request -> Rest.Response<PhoneNumberList>,
                            encodeUriComponent: string -> string,
                            account: string, authToken: string, number: string, now: int)
      returns (r: Result<Identified>, ghost sent: seq<Rest.Request>)
      requires Valid()
      modifies this
      ensures Valid()
      ensures var hit := QueryByPhoneNumber(old(rows), number, account);
              hit.Some? ==>
                r == Ok(Identified(hit.value.id, Some(hit.value.creationTime), hit.value.value))
                && sent == [] && rows == old(rows) && nextId == old(nextId)
      ensures var hit := QueryByPhoneNumber(old(rows), number, account);
              var request := Rest.RequestFor(ListPath(encodeUriComponent, number), account, authToken,
                                             JsObject.EmptyObject, Rest.Get);
              var fetched := Rest.Call(fetch, request);
              hit.None? ==>
                sent == Rest.Sent(request)
                && (fetched.Err? ==> r == Err(fetched.error) && rows == old(rows) && nextId == old(nextId))
                && (fetched.Ok? && fetched.value.incoming_phone_numbers == [] ==>
                      r == Err(PhoneNumberNotFound) && rows == old(rows) && nextId == old(nextId))
                && (fetched.Ok? && fetched.value.incoming_phone_numbers != [] ==>
                      var first := fetched.value.incoming_phone_numbers[0];
                      r == Ok(Identified(old(nextId), None, first))
                      && rows == old(rows) + [Doc(old(nextId), now, first)])
    {
      var phoneNumber := QueryByPhoneNumber(rows, number, account);
      if phoneNumber.Some? {
        var d := phoneNumber.value;
        return Ok(Identified(d.id, Some(d.creationTime), d.value)), [];
      }
      var path := ListPath(encodeUriComponent, number);
      var data;
      data, sent := Rest.TwilioRequest(fetch, path, account, authToken, JsObject.EmptyObject, Rest.Get);
      if data.Err? {
        return Err(data.error), sent;
      }
      if |data.value.incoming_phone_numbers| == 0 {
        return Err(PhoneNumberNotFound), sent;
      }
      var first := data.value.incoming_phone_numbers[0];
      var id := Insert(first, now);
      r := Ok(Identified(id, None, first));
    }
  }
}
