/**
 * The older generation's message functions (src/twilio/messages.ts) over two
 * tables, `messages` and `incoming_messages`. Its lookups scan the table with a
 * filter instead of an account-scoped index, so `updateStatus` finds a message by
 * SID alone.
 */
module LegacyMessages {
  import opened Wrappers
  import opened Store
  import opened LegacySchema
  import opened JsObject
  import Seqs
  import Rest
  import Messages

  /** The filter of `list`: documents whose `account_sid` is the account. */
  function OfAccount(account: string): Doc<LegacyMessage> -> bool
  {
    (d: Doc<LegacyMessage>) => d.value.account_sid == account
  }

  /** The filter of `listIncoming`: documents whose `AccountSid` is the account. */
  function IncomingOfAccount(account: string): Doc<IncomingMessage> -> bool
  {
    (d: Doc<IncomingMessage>) => d.value.AccountSid == account
  }

  /**
   * `list`: exactly the `messages` documents of the account, in insertion order:
   * the documents at the positions that have the account, each once, in position order.
   */
  function List(rows: seq<Doc<LegacyMessage>>, account: string): (r: seq<Doc<LegacyMessage>>)
    ensures forall i :: 0 <= i < |r| ==> r[i] in rows && r[i].value.account_sid == account
    ensures forall i :: 0 <= i < |rows| && rows[i].value.account_sid == account ==> rows[i] in r
    ensures var pos := Seqs.Positions(rows, OfAccount(account));
            |r| == |pos| && forall i :: 0 <= i < |r| ==> r[i] == rows[pos[i]]
  {
    Seqs.FilterAtPositions(rows, OfAccount(account));
    Seqs.Filter(rows, OfAccount(account))
  }

  /**
   * `listIncoming`: exactly the `incoming_messages` documents whose `AccountSid` is
   * the account, each once, in insertion order.
   */
  function ListIncoming(rows: seq<Doc<IncomingMessage>>, account: string): (r: seq<Doc<IncomingMessage>>)
    ensures forall i :: 0 <= i < |r| ==> r[i] in rows && r[i].value.AccountSid == account
    ensures forall i :: 0 <= i < |rows| && rows[i].value.AccountSid == account ==> rows[i] in r
    ensures var pos := Seqs.Positions(rows, IncomingOfAccount(account));
            |r| == |pos| && forall i :: 0 <= i < |r| ==> r[i] == rows[pos[i]]
  {
    Seqs.FilterAtPositions(rows, IncomingOfAccount(account));
    Seqs.Filter(rows, IncomingOfAccount(account))
  }

  /** The position of the first `messages` document with this SID, in any account. */
  function FirstWithSid(rows: seq<Doc<LegacyMessage>>, sid: string): (r: Option<nat>)
    ensures r.None? <==> forall i :: 0 <= i < |rows| ==> rows[i].value.sid != sid
    ensures r.Some? ==> r.value < |rows| && rows[r.value].value.sid == sid
    ensures r.Some? ==> forall j :: 0 <= j < r.value ==> rows[j].value.sid != sid
  {
    Seqs.FirstIndex(rows, (d: Doc<LegacyMessage>) => d.value.sid == sid)
  }

  /**
   * `updateStatus` on the `messages` documents: "Message not found" when no
   * document has the SID; otherwise only the `status` of the first document with
   * that SID changes, whichever account it belongs to.
   */
  function StatusUpdated(rows: seq<Doc<LegacyMessage>>, sid: string, status: string)
    : (r: Result<seq<Doc<LegacyMessage>>>)
    ensures r.Err? <==> forall i :: 0 <= i < |rows| ==> rows[i].value.sid != sid
    ensures r.Err? ==> r.error == MessageNotFound
    ensures r.Ok? ==> |r.value| == |rows|
    ensures r.Ok? ==> forall j :: 0 <= j < |rows| ==>
              r.value[j].id == rows[j].id && r.value[j].creationTime == rows[j].creationTime
              && r.value[j].value == rows[j].value.(status := r.value[j].value.status)
    ensures r.Ok? ==> var i := FirstWithSid(rows, sid).value;
              r.value[i].value.status == status
              && forall j :: 0 <= j < |rows| && j != i ==> r.value[j] == rows[j]
  {
    match FirstWithSid(rows, sid)
    case None => Err(MessageNotFound)
    case Some(i) => Ok(rows[i := rows[i].(value := rows[i].value.(status := status))])
  }

  /**
   * The older `updateStatus` crosses tenants: a call made for one account patches
   * the message of another account that has the SID.
   */
  lemma StatusUpdateCrossesAccounts(m: LegacyMessage, caller: string, status: string)
    requires caller != m.account_sid
    ensures var rows := [Doc(0, 0, m)];
            StatusUpdated(rows, m.sid, status) == Ok([Doc(0, 0, m.(status := status))])
            && rows[0].value.account_sid != caller
  {
    var rows := [Doc(0, 0, m)];
    assert FirstWithSid(rows, m.sid) == Some(0);
    assert rows[0 := rows[0].(value := rows[0].value.(status := status))] == [Doc(0, 0, m.(status := status))];
  }

  /** The older tables: `messages` and `incoming_messages`, and the next id to hand out. */
  class LegacyStore {
    var messages: seq<Doc<LegacyMessage>>
    var incoming: seq<Doc<IncomingMessage>>
    var nextId: Id

    predicate Valid()
      reads this
    {
      WellFormed(messages, nextId) && WellFormed(incoming, nextId)
    }

    constructor()
      ensures Valid() && messages == [] && incoming == []
    {
      messages := [];
      incoming := [];
      nextId := 0;
    }

    /** `insert`: appends the record unchanged and returns its id. */
    method Insert(message: LegacyMessage, now: int) returns (id: Id)
      requires Valid()
      modifies this
      ensures Valid() && incoming == old(incoming)
      ensures id == old(nextId) && nextId == old(nextId) + 1
      ensures messages == old(messages) + [Doc(id, now, message)]
    {
      id := nextId;
      AppendFresh(messages, nextId, now, message);
      messages := messages + [Doc(id, now, message)];
      nextId := nextId + 1;
    }

    /** Appends a row that fits `incoming_messages` under the next id. */
    method AppendIncoming(message: IncomingMessage, now: int) returns (id: Id)
      requires Valid()
      modifies this
      ensures Valid() && messages == old(messages)
      ensures id == old(nextId) && nextId == old(nextId) + 1
      ensures incoming == old(incoming) + [Doc(id, now, message)]
    {
      id := nextId;
      AppendFresh(incoming, nextId, now, message);
      incoming := incoming + [Doc(id, now, message)];
      nextId := nextId + 1;
    }

    /**
     * `insertIncoming`: appends the object to `incoming_messages` unchanged; the
     * store refuses an object that does not fit the table.
     */
    method InsertIncoming(message: Record, now: int) returns (r: Result<Id>)
      requires Valid()
      modifies this
      ensures Valid() && messages == old(messages)
      ensures IncomingFromRecord(message).None? ==>
                r == Err(SchemaMismatch) && incoming == old(incoming) && nextId == old(nextId)
      ensures IncomingFromRecord(message).Some? ==>
                r == Ok(old(nextId)) && nextId == old(nextId) + 1
                && incoming == old(incoming) + [Doc(old(nextId), now, IncomingFromRecord(message).value)]
    {
      var row := IncomingFromRecord(message);
      if row.None? {
        return Err(SchemaMismatch);
      }
      var id := AppendIncoming(row.value, now);
      r := Ok(id);
    }

    /**
     * `updateStatus`: patches the status of the first message with the SID; the
     * account and the auth token it receives are not consulted.
     */
    method UpdateStatus(account: string, authToken: string, sid: string, status: string) returns (r: Result<()>)
      requires Valid()
      modifies this
      ensures Valid() && incoming == old(incoming) && nextId == old(nextId)
      ensures StatusUpdated(old(messages), sid, status).Err? ==> r == Err(MessageNotFound) && messages == old(messages)
      ensures StatusUpdated(old(messages), sid, status).Ok? ==>
                r == Ok(()) && messages == StatusUpdated(old(messages), sid, status).value
    {
      var found := FirstWithSid(messages, sid);
      if found.None? {
        return Err(MessageNotFound);
      }
      var message := messages[found.value];
      PositionOfUnique(messages, nextId, found.value);
      var position := PositionOf(messages, message.id);
      ReplaceKeepsIds(messages, nextId, position.value, message.value.(status := status));
      messages := messages[position.value := messages[position.value].(value := message.value.(status := status))];
      r := Ok(());
    }

    /**
     * `create`: POSTs From, To, Body and StatusCallback to Messages.json, inserts
     * the response unchanged and returns the response as received.
     */
    method Create(fetch: Rest.Request -> Rest.Response<LegacyMessage>, account: string, authToken: string,
                  from: string, to: string, body: string, statusCallback: string, now: int)
      returns (r: Result<LegacyMessage>, ghost sent: seq<Rest.Request>)
      requires Valid()
      modifies this
      ensures Valid() && incoming == old(incoming)
      ensures var request := Rest.RequestFor("Messages.json", account, authToken,
                                             Messages.SendForm(from, to, body, statusCallback), Rest.Post);
              var response := Rest.Call(fetch, request);
              sent == Rest.Sent(request)
              && r == response
              && (response.Err? ==> messages == old(messages) && nextId == old(nextId))
              && (response.Ok? ==> messages == old(messages) + [Doc(old(nextId), now, response.value)])
    {
      var form := Messages.SendForm(from, to, body, statusCallback);
      var message;
      message, sent := Rest.TwilioRequest(fetch, "Messages.json", account, authToken, form, Rest.Post);
      if message.Err? {
        return message, sent;
      }
      var id := Insert(message.value, now);
      r := message;
    }
  }
}
