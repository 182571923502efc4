# Twilio component for Convex, modelled in Dafny

This project models the core of the Convex Twilio component: a thin layer of
Convex handlers that sends SMS through Twilio's REST API and caches what
Twilio returns in two tables. It covers two generations of the server code
and the client façade:

- **Request construction and webhook signatures** (`Rest`, `Signature`):
  - `twilioRequest` builds the URL, a Basic-auth header (Base64 of `sid:token`)
    and the form body, then sends them. The body goes only with POST, and a
    non-ok response throws.
  - `validateTwilioSignature` signs the URL followed by every parameter in
    ascending key order. It compares the result with Base64 of HMAC-SHA1 over
    the UTF-8 octets.
  - Base64 (section 4 of RFC 4648), `btoa`'s Latin-1 restriction, UTF-8 and
    JavaScript's UTF-16 string order are modelled concretely.
  - HMAC-SHA1 is a function parameter.
- **The component's message table** (`Schema`, `Messages`), a class over
  documents in insertion order:
  - `insert` derives the counterparty.
  - `updateStatus` patches only `status`.
  - The seven account-scoped read queries are modelled, with
    `takeOrCollectFields` and `withoutSystemFields`.
  - `create` and `getFromTwilioBySidAndInsert` ask Twilio, then insert.
- **The component's phone-number cache** (`PhoneNumbers`):
  - `get`, `queryByPhoneNumber`, `insert` and `patch` are modelled.
  - `create`, `updateSmsUrl` and `getByPhoneNumber` look the number up
    locally, ask Twilio on a miss, insert, and then patch `sms_url`.
- **The older `src/twilio` generation** (`LegacySchema`, `LegacyMessages`,
  `LegacyPhoneNumbers`):
  - It has the same shapes, plus a separate `incoming_messages` table.
  - Its SID lookups are not scoped by account. The lemmas
    `StatusUpdateCrossesAccounts` and `GetCrossesAccounts` exhibit this.
- **The client façade** (`Client`):
  - credential and route-prefix resolution;
  - the status and incoming-message webhook handlers;
  - the "from" number rule;
  - the callback URLs;
  - `sendMessage`, `registerIncomingSmsHandler` and `getDefaultPhoneNumber`.

  The client's calls have the older generation's shapes (`updateStatus` with
  an auth token, `insertIncoming`), so they are wired to the older store.

How the model represents the environment:

- **Twilio.** Each endpoint is an oracle `Request -> Response<J>`. A response
  is a network failure or a status with a payload of the endpoint's JSON type.
  Each operation returns a ghost `sent` trace of the requests it issued.
- **Tables.** Each table is a class holding `seq<Doc<T>>` and the next id.
  `Doc` carries `_id` and `_creationTime`.
- **Clock and environment.** The clock is a `now` parameter. The environment
  variables are a `Client.Env` value and a `siteUrl` parameter.
- **Encoding.** `encodeURIComponent` is a function parameter.

### Behaviour worth noting

- **Status webhook.** When `MessageSid` or `MessageStatus` is missing or
  empty, the status route writes nothing and still answers 200 with an empty
  body (src/client/index.ts:66-80). `Client.HandleMessageStatus` does the same.
- **No signature check in the webhooks.** Neither route checks Twilio's
  signature. `validateTwilioSignature` is a standalone export, and the model
  keeps it standalone.
- **`btoa` on wide characters.** A character above U+00FF makes `btoa` throw.
  `Rest.RequestFor` models this as the error `InvalidCharacter` rather than as
  a precondition.
- **Older `get` and `updateStatus`.** Both match by SID alone. `get` takes no
  account argument at all; `updateStatus` receives `account_sid` and ignores
  it. The model reproduces this.

## Model

| member | source | states |
|---|---|---|
| Signature.CanonicalString | src/component/utils.ts:20-25 | the signed text starts with the URL, and with no parameters it is exactly the URL |
| Signature.SortedKeysAscending | src/component/utils.ts:21 | the sorted keys are strictly ascending in UTF-16 code-unit order and are exactly the parameter keys, each once |
| Signature.CanonicalStringIgnoresOrder | src/component/utils.ts:21-25 | two parameter objects holding the same key/value pairs in any insertion order give the same signed text |
| Signature.AppendPieces | src/component/utils.ts:23-25 | the loop appends each key immediately followed by its value, in the given key order, with no separators |
| Signature.DataToSign | src/component/utils.ts:21-25 | the string the sort-and-append loop builds is the canonical string |
| Signature.ExpectedSignature | src/component/utils.ts:28-41 | Base64-decoding the expected header gives the HMAC of the UTF-8 auth token and the UTF-8 canonical string |
| Signature.ValidateTwilioSignature | src/component/utils.ts:14-44 | the result is true iff the header equals the expected signature exactly, so feeding the expected value back yields true |
| Strings.Sort | src/component/utils.ts:21 | `.sort()` returns the keys sorted in UTF-16 order and as a permutation of its input |
| Strings.SortIgnoresOrder | src/component/utils.ts:21 | sorting depends only on the multiset of keys, not on their order |
| Strings.SortedUnique | src/component/utils.ts:21 | two sorted sequences with the same elements are equal |
| Utf8.EncodeChar | src/component/utils.ts:28-30 | `TextEncoder` writes one to four octets per character, a single octet exactly for characters below U+0080 |
| Utf8.Encode | src/component/utils.ts:28-30 | the octets of a string number between one and four per character, exactly one per character for an all-ASCII string |
| Utf8.DecodeEncode | src/component/utils.ts:28-30 | reading the octets back character by character gives the string back |
| Utf8.EncodeInjective | src/component/utils.ts:28-30 | distinct auth tokens or signed texts give distinct octets to HMAC |
| Base64.Btoa | src/component/utils.ts:54 | `btoa` of a Latin-1 string has length 4 * ceil(n / 3) and `atob` gives the string back |
| Base64.BtoaOfCharCodes | src/component/utils.ts:41 | `btoa(String.fromCharCode(...digest))` is the RFC 4648 Base64 encoding of the digest octets |
| Base64.DecodeEncode | src/component/utils.ts:41 | decoding the Base64 encoding of any octet string gives it back |
| Base64.EncodeInjective | src/component/utils.ts:41 | distinct digests have distinct Base64 encodings |
| Rest.RequestFor | src/component/utils.ts:53-71 | the URL is the API base + sid + "/" + path; the method is the one given; the content type is always the form type; a body is present iff the method is POST, and then it is the given form; the header is "Basic " followed by Base64 of "sid:token"; a non-Latin-1 credential throws |
| Rest.AuthorizationRecoversCredentials | src/component/utils.ts:54-65 | for a SID without ':', the Basic header decodes back to exactly (sid, token) |
| Rest.AuthorizationInjective | src/twilio/utils.ts:9-20 | different credentials (SIDs without ':') never give the same Authorization header |
| Rest.BuildRequest | src/twilio/utils.ts:8-26 | the request object built, with the body set in place only for POST, is the request described by `RequestFor` |
| Rest.Outcome | src/twilio/utils.ts:27-31 | an ok response yields its JSON; a non-ok one throws "Failed to send request to Twilio"; a failed fetch is an error |
| Rest.Call | src/component/utils.ts:72-78 | a successful call means the request was built, sent, and answered ok, and the result is the response's payload |
| Rest.TwilioRequest | src/component/utils.ts:46-79 | the outcome is the oracle's answer to the constructed request, and exactly that request is sent (none when construction throws) |
| Store.WithoutSystemFields | src/component/messages.ts:242-247 | stripping `_id` and `_creationTime` loses nothing else: putting them back gives the document |
| Store.Values | src/component/messages.ts:239 | the mapped results have the same length and each is the corresponding document's record |
| Seqs.TakeOrCollect | src/component/messages.ts:229-240 | with a truthy limit the result is a prefix of at most `limit` rows, otherwise all rows |
| Store.AppendFresh | src/component/messages.ts:55 | inserting under the next id keeps ids below the counter and pairwise distinct |
| Store.PositionOf | src/component/phone_numbers.ts:54 | the lookup `db.patch` does: the position of the document with that id, or none when no document has it |
| Schema.MessageKey | src/component/schema.ts:9-36 | every message index key is a string except `counterparty`, which is `undefined` when absent; the account key is the message's account SID |
| Schema.MessageIndexesScopedByAccount | src/component/schema.ts:31-36 | every message index leads with `account_sid`, so a range fixed on an account holds only that account's messages |
| Schema.PhoneNumberKey | src/component/schema.ts:81-82 | the phone-number index keys are the account SID, the number and the SID |
| Schema.PhoneNumberIndexesScopedByAccount | src/component/schema.ts:81-82 | both phone-number indexes lead with `account_sid`, so a range fixed on an account holds only that account's numbers |
| Messages.WithCounterparty | src/component/messages.ts:51-54 | the counterparty is `from` for direction "inbound" and `to` for every other direction, overwriting any given value; no other field changes |
| Messages.MessageTable.Insert | src/component/messages.ts:45-58 | appends exactly one document holding the message with its derived counterparty, returns that message, and keeps the counterparty rule |
| Messages.InsertDoesNotDeduplicate | src/component/messages.ts:55 | inserting a message whose (account, SID) is already stored adds a second match |
| Messages.List | src/component/messages.ts:60-76 | only the account's messages, in insertion order, limited by `takeOrCollectFields` |
| Messages.ListIncoming | src/component/messages.ts:78-94 | only the account's messages whose direction is exactly "inbound" |
| Messages.ListOutgoing | src/component/messages.ts:95-111 | only the account's messages whose direction is exactly "outbound-api" |
| Messages.IncomingOutgoingDisjoint | src/component/messages.ts:85-106 | no message is both incoming and outgoing, and one with any other direction appears in neither list |
| Messages.GetBySid | src/component/messages.ts:113-128 | null iff the account has no message with the SID; otherwise the first such message, without system fields |
| Messages.GetTo | src/component/messages.ts:130-147 | only the account's messages sent to `to` |
| Messages.GetFrom | src/component/messages.ts:149-166 | only the account's messages sent from `from` |
| Messages.GetByCounterparty | src/component/messages.ts:168-187 | only the account's messages with that counterparty |
| Messages.StatusUpdated | src/component/messages.ts:196-206 | "Message not found" iff no (account, SID) match; otherwise only the first match's `status` changes, every other document is unchanged, and other accounts are untouched |
| Messages.MessageTable.UpdateStatus | src/component/messages.ts:189-208 | the table becomes exactly `StatusUpdated` of the old table, or stays unchanged when it throws; ids and the counterparty rule are kept |
| Messages.StatusUpdateIdempotent | src/component/messages.ts:197-206 | applying the same status update twice gives the same table as applying it once |
| Messages.GetBySidAfterUpdate | src/component/messages.ts:206 | after a successful update, `getBySid` reports the new status |
| Messages.StatusUpdateKeepsCounterparty | src/component/messages.ts:206 | a status update keeps the counterparty rule of every document |
| Messages.SendForm | src/component/messages.ts:34-39 | the posted form has exactly the keys From, To, Body and StatusCallback, with the given values |
| Messages.MessageTable.Create | src/component/messages.ts:19-43 | on a successful POST to Messages.json the response is inserted and the stored message returned; on failure the table is unchanged |
| Messages.MessageTable.GetFromTwilioBySidAndInsert | src/component/messages.ts:210-227 | GETs Messages/<sid>.json with no body; on success inserts the response with its derived counterparty and returns it, on failure inserts nothing |
| PhoneNumbers.Get | src/component/phone_numbers.ts:58-79 | null iff no document has (account, SID); otherwise the first such document |
| PhoneNumbers.QueryByPhoneNumber | src/component/phone_numbers.ts:81-104 | null iff no document has (account, number); otherwise the first such document |
| PhoneNumbers.SmsUrlPatched | src/component/phone_numbers.ts:48-56 | an unknown id throws; otherwise only that document's `sms_url` changes |
| PhoneNumbers.CreateForm | src/component/phone_numbers.ts:21-23 | the posted form is exactly `{ PhoneNumber }` |
| PhoneNumbers.SmsUrlForm | src/component/phone_numbers.ts:136-138 | the posted form is exactly `{ SmsUrl }` |
| PhoneNumbers.PhoneNumberTable.Insert | src/component/phone_numbers.ts:38-46 | appends exactly one document and returns its fresh id |
| PhoneNumbers.PhoneNumberTable.Patch | src/component/phone_numbers.ts:48-56 | the table becomes `SmsUrlPatched` of the old table, or stays unchanged when it throws |
| PhoneNumbers.PhoneNumberTable.Create | src/component/phone_numbers.ts:13-36 | on success the response is inserted and returned with `_id` set to the new id; on failure nothing is inserted |
| PhoneNumbers.PhoneNumberTable.LocalId | src/component/phone_numbers.ts:114-135 | a local hit gives its id with no request and no change; a miss sends one GET and, when it succeeds, inserts the fetched number under the next id; a failed GET changes nothing |
| PhoneNumbers.PhoneNumberTable.PushSmsUrl | src/component/phone_numbers.ts:136-149 | the local `sms_url` is patched only after the POST succeeds, and afterwards the row holds the new URL |
| PhoneNumbers.PhoneNumberTable.UpdateSmsUrl | src/component/phone_numbers.ts:106-151 | on a hit, no row is added and no GET is sent; on a miss, the fetched number is inserted (nothing when the GET fails); a failed POST patches nothing; on success the target row's `sms_url` is the argument |
| PhoneNumbers.PhoneNumberTable.GetByPhoneNumber | src/component/phone_numbers.ts:153-198 | a hit returns the stored document with no request; a miss GETs the list filtered on the encoded number: an empty list throws "Phone number not found" with no insert, otherwise the first entry is inserted and returned with `_id` |
| LegacySchema.IncomingRecord | src/twilio/schema.ts:32-52 | an incoming message as an object has exactly the table's columns, in schema order, with the message's values |
| LegacySchema.IncomingFromRecord | src/twilio/schema.ts:32-52 | the store accepts an object iff its keys are exactly the `incoming_messages` columns |
| LegacySchema.IncomingFromRecordFields | src/twilio/schema.ts:32-52 | each column of the stored row holds the object's value for that key |
| LegacySchema.IncomingRoundTrip | src/twilio/messages.ts:76-84 | storing the object built from an incoming message gives back that message |
| LegacySchema.LegacyIndexesUnscoped | src/twilio/schema.ts:28-30 | every older index keys on a single field, and apart from the two by-account indexes none involves an account |
| LegacyMessages.List | src/twilio/messages.ts:36-45 | exactly the `messages` documents of the account, in insertion order: the documents at the positions that have the account, each once, in position order |
| LegacyMessages.ListIncoming | src/twilio/messages.ts:47-56 | exactly the `incoming_messages` documents whose `AccountSid` is the account, each once, in insertion order |
| LegacyMessages.StatusUpdated | src/twilio/messages.ts:65-72 | "Message not found" iff no document has the SID; otherwise only the `status` of the first document with the SID, in any account, changes |
| LegacyMessages.StatusUpdateCrossesAccounts | src/twilio/messages.ts:65-68 | a call made for one account patches another account's message that has the SID |
| LegacyMessages.LegacyStore.Insert | src/twilio/messages.ts:27-34 | appends the record unchanged (no counterparty derivation) and returns its id |
| LegacyMessages.LegacyStore.InsertIncoming | src/twilio/messages.ts:76-84 | appends the object unchanged to `incoming_messages`, or throws and stores nothing when it does not fit the table |
| LegacyMessages.LegacyStore.UpdateStatus | src/twilio/messages.ts:58-74 | the table becomes `StatusUpdated` of the old table; the account and auth token are not consulted |
| LegacyMessages.LegacyStore.Create | src/twilio/messages.ts:6-25 | POSTs From/To/Body/StatusCallback, inserts the response, and returns the response as received |
| LegacyPhoneNumbers.Get | src/twilio/phone_numbers.ts:43-52 | null iff no document has the SID; otherwise the first document with it, in any account |
| LegacyPhoneNumbers.GetCrossesAccounts | src/twilio/phone_numbers.ts:43-52 | the older `get` finds another account's number, where the component's account-scoped `get` finds nothing |
| LegacyPhoneNumbers.QueryByPhoneNumber | src/twilio/phone_numbers.ts:54-65 | filtering the `by_phone_number` range on the account selects the same document as the component's (account, number) lookup |
| LegacyPhoneNumbers.Insert | src/twilio/phone_numbers.ts:24-31 | appends exactly one document and returns its fresh id |
| LegacyPhoneNumbers.Patch | src/twilio/phone_numbers.ts:33-41 | only `sms_url` of the document with that id changes; an unknown id throws |
| LegacyPhoneNumbers.Create | src/twilio/phone_numbers.ts:6-22 | on success the response is inserted and returned with `_id`; on failure nothing is inserted |
| LegacyPhoneNumbers.UpdateSmsUrl | src/twilio/phone_numbers.ts:67-92 | a SID-only hit adds no row; a miss inserts the fetched number; a failed POST patches nothing; on success the target row's `sms_url` is the argument |
| LegacyPhoneNumbers.GetByPhoneNumber | src/twilio/phone_numbers.ts:94-125 | a hit returns the stored document with no request; on a miss an empty list throws "Phone number not found" with no insert, otherwise the first result is inserted and returned with `_id` |
| Client.ResolveClient | src/client/index.ts:48-59 | explicit options take precedence over the environment, even when empty; construction throws "Missing Twilio credentials" iff the resolved SID or token is absent or empty; the prefix defaults to "/twilio" |
| Client.Routes | src/client/index.ts:62-86 | the two routes are prefix + "/message-status" and prefix + "/incoming-message", and never coincide |
| Client.StatusCallbackUrl | src/client/index.ts:124-125 | the status callback is the site URL ("undefined" when unset) followed by the status route |
| Client.SmsUrl | src/client/index.ts:134-135 | the SMS URL is the site URL followed by the incoming-message route |
| Client.CallbackUrlsHitRoutes | src/client/index.ts:62-136 | the URLs given to Twilio point at the routes the same client registers, and differ from each other |
| Client.FormGet | src/client/index.ts:67-69 | `URLSearchParams.get` gives the value of the first pair with the key, or null when there is none |
| Client.StatusRequest | src/client/index.ts:67-71 | the status route updates iff both MessageSid and MessageStatus are non-empty, and then with their values |
| Client.StatusRequestOfLeadingPairs | src/client/index.ts:67-77 | a form leading with non-empty MessageSid and MessageStatus updates with exactly those values, whatever follows |
| Client.HandleMessageStatus | src/client/index.ts:66-82 | one `updateStatus` with the form's values iff both are present, else no write; the reply is 200 with an empty body; "Message not found" propagates |
| Client.CopyForm | src/client/index.ts:91-94 | the `forEach` loop builds the object that assigning every pair in order builds |
| JsObject.FromPairsLastWins | src/client/index.ts:91-94 | in the copied object each key holds the value of its last pair, so a later duplicate overwrites an earlier one; `__proto__` is never an own key |
| JsObject.FromPairsKeys | src/client/index.ts:91-94 | the copied object has exactly the keys that occur in the form, except `__proto__` |
| JsObject.Set | src/client/index.ts:93 | the assignment sets that key and leaves every other key's value as it was; assigning a string to `__proto__` goes to the inherited setter, which ignores it, so the object does not change |
| Client.ProtoPairIgnored | src/client/index.ts:91-94 | a `__proto__` pair added to the form leaves the copied object, and so what is stored, unchanged |
| Client.HandleIncomingMessage | src/client/index.ts:88-103 | inserts the copied object (SchemaMismatch and no callback when it does not fit); calls the callback with it only when one is configured and the insert succeeded; a rejecting callback makes the route throw with the row kept; otherwise answers 200 |
| Client.IncomingWebhookStoresMessage | src/client/index.ts:89-97 | Twilio's form for an incoming message is stored as exactly that message |
| Client.FromNumber | src/client/index.ts:115-119 | "Missing from number" iff the argument is falsy and there is no truthy default; otherwise the argument when defined (even empty), else the default |
| Client.EmptyFromIsSent | src/client/index.ts:119 | an empty "from" argument is sent as "" when a default exists |
| Client.SendMessage | src/client/index.ts:107-127 | applies the from rule, then creates the message with the client's credentials and a status callback at its own status route |
| Client.RegisterIncomingSmsHandler | src/client/index.ts:129-137 | on success the number's cached row has `sms_url` at this client's incoming-message route; a cached number gains no row |
| Client.GetDefaultPhoneNumber | src/client/index.ts:175-189 | applies the same from rule, then a cached number comes back with no request, and a miss behaves as `getByPhoneNumber` |

## Left out

- HMAC-SHA1, Web Crypto and `TextEncoder` are not modelled concretely. HMAC is a function parameter, and UTF-8 is modelled concretely. The parameter is total, so Web Crypto's refusal of a zero-length key (`importKey` rejects when the auth token is empty, so `validateTwilioSignature` throws instead of answering) is not modelled.
- Strings are sequences of Unicode scalar values. A JavaScript string holding a lone surrogate has no counterpart, so `Utf8.Encode` (which would write U+FFFD for it) and `Strings.Utf16` do not cover such strings.
- `fetch` and `response.json()` are network I/O. They are an oracle from the request to a failure or to (ok, status, typed payload). The logging of the status and text on failure is dropped.
- The JSON Twilio returns is assumed to have the shape the tables expect. The store's schema validation is modelled only for `incoming_messages`, whose input is the webhook form.
- The Convex runtime is not modelled. This covers `runQuery`, `runMutation`, validators, `httpActionGeneric`, `HttpRouter`, transactions, and concurrency between requests (last write wins). Calls become direct method calls on in-memory tables.
- Index ordering is taken to be insertion order. Every modelled index read fixes all of its key fields, so Convex returns the range in creation order.
- `URLSearchParams` serialisation and `encodeURIComponent` are library codecs. Bodies are kept as objects, and `encodeURIComponent` is a parameter.
- `process.env`, `console.log` and the global `Convex` check (src/client/index.ts:18-22) are not modelled. The environment is a parameter, and logging and the check are dropped.
- `attemptToParse` (src/component/utils.ts:84-99) wraps a parser from another package, which is not part of this model.
- Client calls with no target in either generation's API are not modelled: `getMessageBySid` without an account, `getIncomingMessageBySid`, `getMessagesByTo` and `getIncomingMessagesByFrom`.
- The client's `list` and `listIncoming` are not modelled separately. They only pass the client's account SID to the queries, which are modelled.
- `twilioRequest`'s `method` argument defaults to "POST" in both generations (src/component/utils.ts:51, src/twilio/utils.ts:6). In the model it is a required argument, and every call site passes it explicitly, `Rest.Post` where the source relies on the default.
- `limit` is a non-negative integer. Negative and fractional numbers are not modelled.
- JavaScript numbers are unbounded integers. The `_id` strings Convex uses are natural numbers.
- Client.RegisterIncomingSmsHandler: states only the success-path facts and the hit case. The request-by-request cases are stated in full on `LegacyPhoneNumbers.UpdateSmsUrl`, which it calls with this client's credentials and URL.
- PhoneNumbers.PhoneNumberTable.GetByPhoneNumber: on a miss the model returns the inserted number with `_id` and no `_creationTime`. The action's `returns` validator (src/component/phone_numbers.ts:159-163) demands `_creationTime`, so in Convex that path inserts the row and then fails return validation; validators are not modelled.
- The incoming-message callback is an oracle saying whether it resolves for the object. What it does with `ctx` is not modelled, and when it rejects the model's error stands for whatever it threw. A Twilio retry after such a failure inserts the message again, since `insertIncoming` does not deduplicate.
- The older generation's `create` and `getByPhoneNumber` are modelled on the same table class as the component's. The two generations define the same `phone_numbers` columns.
