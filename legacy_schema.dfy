/**
 * The older generation's tables (src/twilio/schema.ts): a `messages` table whose
 * never-filled columns are typed as always null, a separate `incoming_messages`
 * table with the webhook's PascalCase form fields, and the same `phone_numbers`
 * row as the component. None of its indexes is scoped by account.
 */
module LegacySchema {
  import opened Wrappers
  import opened Store
  import opened JsObject
  import Schema

  datatype LegacySubresources = LegacySubresources(media: string)

  /** A row of the older `messages` table. */
  datatype LegacyMessage = LegacyMessage(
    account_sid: string,
    api_version: string,
    body: string,
    date_created: string,
    date_sent: Schema.Null,
    date_updated: string,
    direction: string,
    error_code: Schema.Null,
    error_message: Schema.Null,
    from: string,
    messaging_service_sid: Schema.Null,
    num_media: string,
    num_segments: string,
    price: Schema.Null,
    price_unit: string,
    sid: string,
    status: string,
    subresource_uris: LegacySubresources,
    to: string,
    uri: string)

  /** A row of `incoming_messages`: the fields of Twilio's incoming-message webhook form. */
  datatype IncomingMessage = IncomingMessage(
    AccountSid: string,
    ApiVersion: string,
    Body: string,
    From: string,
    FromCity: string,
    FromCountry: string,
    FromState: string,
    FromZip: string,
    MessageSid: string,
    NumMedia: string,
    NumSegments: string,
    SmsMessageSid: string,
    SmsSid: string,
    SmsStatus: string,
    To: string,
    ToCity: string,
    ToCountry: string,
    ToState: string,
    ToZip: string)

  /** The column names of `incoming_messages`, in schema order. */
  const IncomingFields: seq<string> := ["AccountSid", "ApiVersion", "Body", "From", "FromCity", "FromCountry",
    "FromState", "FromZip", "MessageSid", "NumMedia", "NumSegments", "SmsMessageSid", "SmsSid", "SmsStatus",
    "To", "ToCity", "ToCountry", "ToState", "ToZip"]

  /** The values of an incoming message, in the order of `IncomingFields`. */
  function IncomingValues(m: IncomingMessage): (v: seq<string>)
    ensures |v| == |IncomingFields|
  {
    [m.AccountSid, m.ApiVersion, m.Body, m.From, m.FromCity, m.FromCountry, m.FromState, m.FromZip,
     m.MessageSid, m.NumMedia, m.NumSegments, m.SmsMessageSid, m.SmsSid, m.SmsStatus, m.To, m.ToCity,
     m.ToCountry, m.ToState, m.ToZip]
  }

  /** The incoming message with these values, in the order of `IncomingFields`. */
  function IncomingOfValues(v: seq<string>): (m: IncomingMessage)
    requires |v| == |IncomingFields|
    ensures IncomingValues(m) == v
  {
    IncomingMessage(v[0], v[1], v[2], v[3], v[4], v[5], v[6], v[7], v[8], v[9], v[10], v[11], v[12], v[13],
                    v[14], v[15], v[16], v[17], v[18])
  }

  /** An incoming message as the object the webhook builds from its form. */
  function IncomingRecord(m: IncomingMessage): (r: Record)
    ensures Keys(r) == IncomingFields
    ensures forall i :: 0 <= i < |IncomingFields| ==> r[i] == (IncomingFields[i], IncomingValues(m)[i])
  {
    var r := seq(|IncomingFields|, i requires 0 <= i < |IncomingFields| => (IncomingFields[i], IncomingValues(m)[i]));
    assert Keys(r) == IncomingFields;
    r
  }

  /** An object fits `incoming_messages` when its keys are exactly the table's columns. */
  predicate FitsIncoming(r: Record)
  {
    |r| == |IncomingFields| && forall i :: 0 <= i < |IncomingFields| ==> IncomingFields[i] in Keys(r)
  }

  /**
   * The row the store makes of an object inserted into `incoming_messages`, or
   * `None` when the object does not fit the table's validator (a missing column or
   * an extra field).
   */
  function IncomingFromRecord(r: Record): (m: Option<IncomingMessage>)
    ensures m.Some? <==> FitsIncoming(r)
  {
    if !FitsIncoming(r) then None
    else Some(IncomingOfValues(FieldValues(r)))
  }

  /** The record's value under each column of `incoming_messages`, `""` where it has none. */
  function FieldValues(r: Record): (v: seq<string>)
    ensures |v| == |IncomingFields|
  {
    seq(|IncomingFields|, i requires 0 <= i < |IncomingFields| => Get(r, IncomingFields[i]).GetOr(""))
  }

  /** Each column of the stored row holds the object's value under that column's name. */
  lemma IncomingFromRecordFields(r: Record)
    requires IncomingFromRecord(r).Some?
    ensures forall i :: 0 <= i < |IncomingFields| ==>
              Get(r, IncomingFields[i]) == Some(IncomingValues(IncomingFromRecord(r).value)[i])
  {
    var v := FieldValues(r);
    assert IncomingValues(IncomingFromRecord(r).value) == v;
    forall i | 0 <= i < |IncomingFields|
      ensures Get(r, IncomingFields[i]) == Some(v[i])
    {
      assert IncomingFields[i] in Keys(r);
    }
  }

  /** Storing the object built from an incoming message gives back that message. */
  lemma IncomingRoundTrip(m: IncomingMessage)
    ensures IncomingFromRecord(IncomingRecord(m)) == Some(m)
  {
    var r := IncomingRecord(m);
    forall i | 0 <= i < |IncomingFields|
      ensures IncomingFields[i] in Keys(r) && Get(r, IncomingFields[i]) == Some(IncomingValues(m)[i])
    {
      assert r[i] in r;
      assert Keys(r)[i] == IncomingFields[i];
    }
    var m' := IncomingFromRecord(r).value;
    assert IncomingValues(m') == IncomingValues(m);
  }

  /** The fields the older indexes are keyed on. */
  datatype LegacyField = MessageSidField | MessageAccountSid | MessageTo
                       | IncomingSmsSid | IncomingAccountSid | IncomingFrom
                       | PhoneNumberField

  const LegacyMessageIndexes: seq<Index<LegacyField>> := [
    Index("by_sid", [MessageSidField]), Index("by_account_sid", [MessageAccountSid]), Index("by_to", [MessageTo])]
  const LegacyIncomingIndexes: seq<Index<LegacyField>> := [
    Index("by_SmsSid", [IncomingSmsSid]), Index("by_AccountSid", [IncomingAccountSid]), Index("by_From", [IncomingFrom])]
  const LegacyPhoneNumberIndexes: seq<Index<LegacyField>> := [Index("by_phone_number", [PhoneNumberField])]

  /** The account-id fields of the older tables. */
  predicate IsAccountField(f: LegacyField)
  {
    f == MessageAccountSid || f == IncomingAccountSid
  }

  /**
   * Each older index is keyed on a single field, and apart from the explicit
   * by-account indexes none of them involves an account at all.
   */
  lemma LegacyIndexesUnscoped()
    ensures forall i :: 0 <= i < |LegacyMessageIndexes| ==> |LegacyMessageIndexes[i].fields| == 1
    ensures forall i :: 0 <= i < |LegacyIncomingIndexes| ==> |LegacyIncomingIndexes[i].fields| == 1
    ensures forall i :: 0 <= i < |LegacyPhoneNumberIndexes| ==> |LegacyPhoneNumberIndexes[i].fields| == 1
    ensures forall i :: 0 <= i < |LegacyMessageIndexes| && LegacyMessageIndexes[i].name != "by_account_sid" ==>
              !IsAccountField(LegacyMessageIndexes[i].fields[0])
    ensures forall i :: 0 <= i < |LegacyIncomingIndexes| && LegacyIncomingIndexes[i].name != "by_AccountSid" ==>
              !IsAccountField(LegacyIncomingIndexes[i].fields[0])
    ensures !IsAccountField(LegacyPhoneNumberIndexes[0].fields[0])
  {
  }
}
