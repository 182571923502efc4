/**
 * The component's tables (src/component/schema.ts). A nullable column
 * (`v.union(..., v.null())`) and an optional one (`v.optional(...)`) are both an
 * `Option`: `None` stands for `null` in the first case and for an absent field in
 * the second. A column typed `v.null()` holds the single value `Null`.
 */
module Schema {
  import opened Wrappers
  import opened Store

  /** The only value of a `v.null()` column. */
  datatype Null = Null

  /** `subresource_uris` of a message: `media` always, `feedback` optionally. */
  datatype MessageSubresources = MessageSubresources(media: string, feedback: Option<string>)

  /** A row of `messages`. */
  datatype Message = Message(
    account_sid: string,
    api_version: string,
    body: string,
    counterparty: Option<string>,        // optional
    date_created: string,
    date_sent: Option<string>,           // nullable
    date_updated: Option<string>,        // nullable
    direction: string,
    error_code: Option<int>,             // nullable
    error_message: Option<string>,       // nullable
    from: string,
    messaging_service_sid: Option<string>, // nullable
    num_media: string,
    num_segments: string,
    price: Option<string>,               // nullable
    price_unit: Option<string>,          // nullable
    sid: string,
    status: string,
    subresource_uris: Option<MessageSubresources>, // nullable
    to: string,
    uri: string)

  /** The four capability flags of a phone number, and no others. */
  datatype Capabilities = Capabilities(fax: bool, mms: bool, sms: bool, voice: bool)

  datatype PhoneSubresources = PhoneSubresources(assigned_add_ons: string)

  /** A row of `phone_numbers`. */
  datatype PhoneNumber = PhoneNumber(
    account_sid: string,
    address_requirements: string,
    address_sid: Null,
    api_version: string,
    beta: bool,
    bundle_sid: Null,
    capabilities: Capabilities,
    date_created: string,
    date_updated: string,
    emergency_address_sid: Null,
    emergency_address_status: string,
    emergency_status: string,
    friendly_name: string,
    identity_sid: Null,
    origin: string,
    phone_number: string,
    sid: string,
    sms_application_sid: string,
    sms_fallback_method: string,
    sms_fallback_url: string,
    sms_method: string,
    sms_url: string,
    status: string,
    status_callback: string,
    status_callback_method: string,
    subresource_uris: PhoneSubresources,
    trunk_sid: Null,
    uri: string,
    voice_application_sid: string,
    voice_caller_id_lookup: bool,
    voice_fallback_method: string,
    voice_fallback_url: string,
    voice_method: string,
    voice_url: string)

  /** The `messages` fields that an index is keyed on. */
  datatype MessageField = AccountSid | Sid | Direction | To | From | Counterparty

  /** The index key a message has for a field; an absent `counterparty` is `undefined`. */
  function MessageKey(m: Message, f: MessageField): (k: IndexKey)
    ensures f != Counterparty ==> k.Str?
    ensures f == AccountSid ==> k == Str(m.account_sid)
  {
    match f
    case AccountSid => Str(m.account_sid)
    case Sid => Str(m.sid)
    case Direction => Str(m.direction)
    case To => Str(m.to)
    case From => Str(m.from)
    case Counterparty => if m.counterparty.Some? then Str(m.counterparty.value) else Undefined
  }

  const MessagesBySid: Index<MessageField> := Index("by_sid", [AccountSid, Sid])
  const MessagesByAccountSid: Index<MessageField> := Index("by_account_sid", [AccountSid])
  const MessagesByAccountSidAndDirection: Index<MessageField> :=
    Index("by_account_sid_and_direction", [AccountSid, Direction])
  const MessagesByTo: Index<MessageField> := Index("by_to", [AccountSid, To])
  const MessagesByFrom: Index<MessageField> := Index("by_from", [AccountSid, From])
  const MessagesByCounterparty: Index<MessageField> := Index("by_counterparty", [AccountSid, Counterparty])

  const MessageIndexes: seq<Index<MessageField>> := [MessagesBySid, MessagesByAccountSid,
    MessagesByAccountSidAndDirection, MessagesByTo, MessagesByFrom, MessagesByCounterparty]

  /** A message lies in the index range that fixes every field of the index to `keys`. */
  predicate MessageInRange(m: Message, index: Index<MessageField>, keys: seq<IndexKey>)
  {
    |keys| == |index.fields| && forall i :: 0 <= i < |keys| ==> MessageKey(m, index.fields[i]) == keys[i]
  }

  /**
   * Every `messages` index leads with `account_sid`, so a range that fixes the
   * leading key to an account holds only that account's messages.
   */
  lemma MessageIndexesScopedByAccount(index: Index<MessageField>, keys: seq<IndexKey>, m: Message, account: string)
    requires index in MessageIndexes
    requires |keys| > 0 && keys[0] == Str(account)
    requires MessageInRange(m, index, keys)
    ensures m.account_sid == account
  {
    assert index.fields[0] == AccountSid;
    assert MessageKey(m, index.fields[0]) == keys[0];
  }

  /** The `phone_numbers` fields that an index is keyed on. */
  datatype PhoneNumberField = PhoneAccountSid | PhoneNumberValue | PhoneSid

  function PhoneNumberKey(p: PhoneNumber, f: PhoneNumberField): (k: IndexKey)
    ensures f == PhoneAccountSid ==> k == Str(p.account_sid)
    ensures f == PhoneNumberValue ==> k == Str(p.phone_number)
    ensures f == PhoneSid ==> k == Str(p.sid)
  {
    match f
    case PhoneAccountSid => Str(p.account_sid)
    case PhoneNumberValue => Str(p.phone_number)
    case PhoneSid => Str(p.sid)
  }

  const PhoneNumbersByPhoneNumber: Index<PhoneNumberField> :=
    Index("by_phone_number", [PhoneAccountSid, PhoneNumberValue])
  const PhoneNumbersBySid: Index<PhoneNumberField> := Index("by_sid", [PhoneAccountSid, PhoneSid])

  const PhoneNumberIndexes: seq<Index<PhoneNumberField>> := [PhoneNumbersByPhoneNumber, PhoneNumbersBySid]

  predicate PhoneNumberInRange(p: PhoneNumber, index: Index<PhoneNumberField>, keys: seq<IndexKey>)
  {
    |keys| == |index.fields| && forall i :: 0 <= i < |keys| ==> PhoneNumberKey(p, index.fields[i]) == keys[i]
  }

  /** Both `phone_numbers` indexes lead with `account_sid` as well. */
  lemma PhoneNumberIndexesScopedByAccount(index: Index<PhoneNumberField>, keys: seq<IndexKey>, p: PhoneNumber,
                                          account: string)
    requires index in PhoneNumberIndexes
    requires |keys| > 0 && keys[0] == Str(account)
    requires PhoneNumberInRange(p, index, keys)
    ensures p.account_sid == account
  {
    assert index.fields[0] == PhoneAccountSid;
    assert PhoneNumberKey(p, index.fields[0]) == keys[0];
  }
}
