/**
 * The component's `messages` table (src/component/messages.ts). Every query goes
 * through an index whose leading key is `account_sid`, and every range fixes all
 * of the index's fields, so a range lists its documents in creation order. The
 * read-only queries are functions of the table's documents; the mutations and the
 * actions that end in a mutation are methods of `MessageTable`.
 */
module Messages {
  import opened Wrappers
  import opened Store
  import opened Schema
  import opened JsObject
  import Seqs
  import Rest

  type Rows = seq<Doc<Message>>

  /** The counterparty rule: the other party is `from` for an inbound message and `to` otherwise. */
  predicate HasCounterparty(m: Message)
  {
    m.counterparty == Some(if m.direction == "inbound" then m.from else m.to)
  }

  /**
   * The record `insert` stores: the given one with `counterparty` derived from
   * `direction` (any supplied value is overwritten), and every other field kept.
   */
  function WithCounterparty(m: Message): (r: Message)
    ensures HasCounterparty(r)
    ensures r.(counterparty := m.counterparty) == m
    ensures m.direction == "inbound" ==> r.counterparty == Some(m.from)
    ensures m.direction != "inbound" ==> r.counterparty == Some(m.to)
  {
    m.(counterparty := Some(if m.direction == "inbound" then m.from else m.to))
  }

  /** The documents of an index range, in creation order. */
  function Range(rows: Rows, index: Index<MessageField>, keys: seq<IndexKey>): seq<Doc<Message>>
  {
    Seqs.Filter(rows, (d: Doc<Message>) => MessageInRange(d.value, index, keys))
  }

  /** A two-field range holds exactly the messages with both keys. */
  lemma InRangeOfTwo(m: Message, index: Index<MessageField>, k0: IndexKey, k1: IndexKey)
    requires |index.fields| == 2
    ensures MessageInRange(m, index, [k0, k1])
        <==> MessageKey(m, index.fields[0]) == k0 && MessageKey(m, index.fields[1]) == k1
  {
    if MessageKey(m, index.fields[0]) == k0 && MessageKey(m, index.fields[1]) == k1 {
      forall i | 0 <= i < 2 ensures MessageKey(m, index.fields[i]) == [k0, k1][i] {
        if i == 0 { } else { }
      }
    }
  }

  /** The message with this SID in this account. */
  predicate IsMessage(m: Message, account: string, sid: string)
  {
    m.account_sid == account && m.sid == sid
  }

  /** The position of the first document of the `by_sid` range for (account, sid). */
  function FirstBySid(rows: Rows, account: string, sid: string): (r: Option<nat>)
    ensures r.None? <==> forall i :: 0 <= i < |rows| ==> !IsMessage(rows[i].value, account, sid)
    ensures r.Some? ==> r.value < |rows| && IsMessage(rows[r.value].value, account, sid)
    ensures r.Some? ==> forall j :: 0 <= j < r.value ==> !IsMessage(rows[j].value, account, sid)
  {
    forall i | 0 <= i < |rows|
      ensures MessageInRange(rows[i].value, MessagesBySid, [Str(account), Str(sid)])
          <==> IsMessage(rows[i].value, account, sid)
    {
      InRangeOfTwo(rows[i].value, MessagesBySid, Str(account), Str(sid));
    }
    Seqs.FirstIndex(rows, (d: Doc<Message>) => MessageInRange(d.value, MessagesBySid, [Str(account), Str(sid)]))
  }

  /** `list`: the account's messages, at most `limit` of them when `limit` is truthy. */
  function List(rows: Rows, account: string, limit: Option<nat>): (r: seq<Message>)
    ensures forall i :: 0 <= i < |r| ==> r[i].account_sid == account
    ensures r == Seqs.TakeOrCollect(Values(Seqs.Filter(rows, (d: Doc<Message>) => d.value.account_sid == account)), limit)
  {
    forall i | 0 <= i < |rows|
      ensures MessageInRange(rows[i].value, MessagesByAccountSid, [Str(account)])
          <==> rows[i].value.account_sid == account
    {
      assert MessageKey(rows[i].value, MessagesByAccountSid.fields[0]) == Str(rows[i].value.account_sid);
    }
    Seqs.FilterExt(rows, (d: Doc<Message>) => MessageInRange(d.value, MessagesByAccountSid, [Str(account)]),
                   (d: Doc<Message>) => d.value.account_sid == account);
    Seqs.TakeOrCollect(Values(Range(rows, MessagesByAccountSid, [Str(account)])), limit)
  }

  /** The documents of an (account, direction) range. */
  function ByDirection(rows: Rows, account: string, direction: string): (r: seq<Doc<Message>>)
    ensures forall i :: 0 <= i < |r| ==> r[i].value.account_sid == account && r[i].value.direction == direction
    ensures r == Seqs.Filter(rows, (d: Doc<Message>) => d.value.account_sid == account && d.value.direction == direction)
  {
    forall i | 0 <= i < |rows|
      ensures MessageInRange(rows[i].value, MessagesByAccountSidAndDirection, [Str(account), Str(direction)])
          <==> rows[i].value.account_sid == account && rows[i].value.direction == direction
    {
      InRangeOfTwo(rows[i].value, MessagesByAccountSidAndDirection, Str(account), Str(direction));
    }
    Seqs.FilterExt(rows,
      (d: Doc<Message>) => MessageInRange(d.value, MessagesByAccountSidAndDirection, [Str(account), Str(direction)]),
      (d: Doc<Message>) => d.value.account_sid == account && d.value.direction == direction);
    Range(rows, MessagesByAccountSidAndDirection, [Str(account), Str(direction)])
  }

  /** `listIncoming`: the account's messages whose direction is exactly "inbound". */
  function ListIncoming(rows: Rows, account: string, limit: Option<nat>): (r: seq<Message>)
    ensures forall i :: 0 <= i < |r| ==> r[i].account_sid == account && r[i].direction == "inbound"
    ensures r == Seqs.TakeOrCollect(Values(Seqs.Filter(rows,
                   (d: Doc<Message>) => d.value.account_sid == account && d.value.direction == "inbound")), limit)
  {
    Seqs.TakeOrCollect(Values(ByDirection(rows, account, "inbound")), limit)
  }

  /** `listOutgoing`: the account's messages whose direction is exactly "outbound-api". */
  function ListOutgoing(rows: Rows, account: string, limit: Option<nat>): (r: seq<Message>)
    ensures forall i :: 0 <= i < |r| ==> r[i].account_sid == account && r[i].direction == "outbound-api"
    ensures r == Seqs.TakeOrCollect(Values(Seqs.Filter(rows,
                   (d: Doc<Message>) => d.value.account_sid == account && d.value.direction == "outbound-api")), limit)
  {
    Seqs.TakeOrCollect(Values(ByDirection(rows, account, "outbound-api")), limit)
  }

  /** `getBySid`: the first message of the account with that SID, or null. */
  function GetBySid(rows: Rows, account: string, sid: string): (r: Option<Message>)
    ensures r.None? <==> forall i :: 0 <= i < |rows| ==> !IsMessage(rows[i].value, account, sid)
    ensures r.Some? ==> IsMessage(r.value, account, sid)
    ensures r.Some? ==> r.value == rows[FirstBySid(rows, account, sid).value].value
  {
    match FirstBySid(rows, account, sid)
    case None => None
    case Some(i) => Some(WithoutSystemFields(rows[i]))
  }

  /** `getTo`: the account's messages sent to `to`. */
  function GetTo(rows: Rows, account: string, to: string, limit: Option<nat>): (r: seq<Message>)
    ensures forall i :: 0 <= i < |r| ==> r[i].account_sid == account && r[i].to == to
    ensures r == Seqs.TakeOrCollect(Values(Seqs.Filter(rows,
                   (d: Doc<Message>) => d.value.account_sid == account && d.value.to == to)), limit)
  {
    forall i | 0 <= i < |rows|
      ensures MessageInRange(rows[i].value, MessagesByTo, [Str(account), Str(to)])
          <==> rows[i].value.account_sid == account && rows[i].value.to == to
    {
      InRangeOfTwo(rows[i].value, MessagesByTo, Str(account), Str(to));
    }
    Seqs.FilterExt(rows, (d: Doc<Message>) => MessageInRange(d.value, MessagesByTo, [Str(account), Str(to)]),
                   (d: Doc<Message>) => d.value.account_sid == account && d.value.to == to);
    Seqs.TakeOrCollect(Values(Range(rows, MessagesByTo, [Str(account), Str(to)])), limit)
  }

  /** `getFrom`: the account's messages sent from `from`. */
  function GetFrom(rows: Rows, account: string, from: string, limit: Option<nat>): (r: seq<Message>)
    ensures forall i :: 0 <= i < |r| ==> r[i].account_sid == account && r[i].from == from
    ensures r == Seqs.TakeOrCollect(Values(Seqs.Filter(rows,
                   (d: Doc<Message>) => d.value.account_sid == account && d.value.from == from)), limit)
  {
    forall i | 0 <= i < |rows|
      ensures MessageInRange(rows[i].value, MessagesByFrom, [Str(account), Str(from)])
          <==> rows[i].value.account_sid == account && rows[i].value.from == from
    {
      InRangeOfTwo(rows[i].value, MessagesByFrom, Str(account), Str(from));
    }
    Seqs.FilterExt(rows, (d: Doc<Message>) => MessageInRange(d.value, MessagesByFrom, [Str(account), Str(from)]),
                   (d: Doc<Message>) => d.value.account_sid == account && d.value.from == from);
    Seqs.TakeOrCollect(Values(Range(rows, MessagesByFrom, [Str(account), Str(from)])), limit)
  }

  /**
   * `getByCounterparty`: the account's messages whose counterparty is present and
   * equal to the argument.
   */
  function GetByCounterparty(rows: Rows, account: string, counterparty: string, limit: Option<nat>)
    : (r: seq<Message>)
    ensures forall i :: 0 <= i < |r| ==> r[i].account_sid == account && r[i].counterparty == Some(counterparty)
    ensures r == Seqs.TakeOrCollect(Values(Seqs.Filter(rows,
                   (d: Doc<Message>) => d.value.account_sid == account && d.value.counterparty == Some(counterparty))),
                   limit)
  {
    forall i | 0 <= i < |rows|
      ensures MessageInRange(rows[i].value, MessagesByCounterparty, [Str(account), Str(counterparty)])
          <==> rows[i].value.account_sid == account && rows[i].value.counterparty == Some(counterparty)
    {
      InRangeOfTwo(rows[i].value, MessagesByCounterparty, Str(account), Str(counterparty));
    }
    Seqs.FilterExt(rows,
      (d: Doc<Message>) => MessageInRange(d.value, MessagesByCounterparty, [Str(account), Str(counterparty)]),
      (d: Doc<Message>) => d.value.account_sid == account && d.value.counterparty == Some(counterparty));
    Seqs.TakeOrCollect(Values(Range(rows, MessagesByCounterparty, [Str(account), Str(counterparty)])), limit)
  }

  /**
   * A message in `listIncoming` is not in `listOutgoing` and vice versa; a message
   * with any other direction ("outbound-reply", say) is in neither.
   */
  lemma IncomingOutgoingDisjoint(rows: Rows, account: string, limit: Option<nat>, m: Message)
    ensures !(m in ListIncoming(rows, account, limit) && m in ListOutgoing(rows, account, limit))
    ensures m.direction != "inbound" && m.direction != "outbound-api" ==>
              m !in ListIncoming(rows, account, limit) && m !in ListOutgoing(rows, account, limit)
  {
  }

  /**
   * `updateStatus` on the table's documents: "Message not found" when the account
   * has no message with that SID; otherwise only the `status` of the first such
   * message changes.
   */
  function StatusUpdated(rows: Rows, account: string, sid: string, status: string): (r: Result<Rows>)
    ensures r.Err? <==> forall i :: 0 <= i < |rows| ==> !IsMessage(rows[i].value, account, sid)
    ensures r.Err? ==> r.error == MessageNotFound
    ensures r.Ok? ==> |r.value| == |rows|
    ensures r.Ok? ==> forall j :: 0 <= j < |rows| ==>
              r.value[j].id == rows[j].id && r.value[j].creationTime == rows[j].creationTime
              && r.value[j].value == rows[j].value.(status := r.value[j].value.status)
    ensures r.Ok? ==> var i := FirstBySid(rows, account, sid).value;
              r.value[i].value.status == status
              && forall j :: 0 <= j < |rows| && j != i ==> r.value[j] == rows[j]
    ensures r.Ok? ==> forall j :: 0 <= j < |rows| && rows[j].value.account_sid != account ==> r.value[j] == rows[j]
  {
    match FirstBySid(rows, account, sid)
    case None => Err(MessageNotFound)
    case Some(i) => Ok(rows[i := rows[i].(value := rows[i].value.(status := status))])
  }

  /** Setting the same status twice leaves the table as setting it once. */
  lemma StatusUpdateIdempotent(rows: Rows, account: string, sid: string, status: string)
    requires StatusUpdated(rows, account, sid, status).Ok?
    ensures StatusUpdated(StatusUpdated(rows, account, sid, status).value, account, sid, status)
         == StatusUpdated(rows, account, sid, status)
  {
    var once := StatusUpdated(rows, account, sid, status).value;
    var i := FirstBySid(rows, account, sid).value;
    assert forall j :: 0 <= j < |rows| ==> IsMessage(once[j].value, account, sid) == IsMessage(rows[j].value, account, sid);
    Seqs.FirstIndexAlike(once,
      (d: Doc<Message>) => MessageInRange(d.value, MessagesBySid, [Str(account), Str(sid)]),
      rows,
      (d: Doc<Message>) => MessageInRange(d.value, MessagesBySid, [Str(account), Str(sid)]));
    assert FirstBySid(once, account, sid) == Some(i);
    assert once[i := once[i].(value := once[i].value.(status := status))] == once;
  }

  /** After a successful update, `getBySid` reports the new status. */
  lemma GetBySidAfterUpdate(rows: Rows, account: string, sid: string, status: string)
    requires StatusUpdated(rows, account, sid, status).Ok?
    ensures GetBySid(StatusUpdated(rows, account, sid, status).value, account, sid).Some?
    ensures GetBySid(StatusUpdated(rows, account, sid, status).value, account, sid).value.status == status
  {
    var once := StatusUpdated(rows, account, sid, status).value;
    assert forall j :: 0 <= j < |rows| ==> IsMessage(once[j].value, account, sid) == IsMessage(rows[j].value, account, sid);
    Seqs.FirstIndexAlike(once,
      (d: Doc<Message>) => MessageInRange(d.value, MessagesBySid, [Str(account), Str(sid)]),
      rows,
      (d: Doc<Message>) => MessageInRange(d.value, MessagesBySid, [Str(account), Str(sid)]));
  }

  /** Updating a status keeps the counterparty rule of every document. */
  lemma StatusUpdateKeepsCounterparty(rows: Rows, account: string, sid: string, status: string)
    requires forall j :: 0 <= j < |rows| ==> HasCounterparty(rows[j].value)
    requires StatusUpdated(rows, account, sid, status).Ok?
    ensures forall j :: 0 <= j < |rows| ==> HasCounterparty(StatusUpdated(rows, account, sid, status).value[j].value)
  {
  }

  /**
   * Inserting a message whose SID the account already has adds a second document
   * to that SID's range: `insert` does not deduplicate.
   */
  lemma InsertDoesNotDeduplicate(rows: Rows, d: Doc<Message>)
    ensures |Seqs.Filter(rows + [d], (e: Doc<Message>) => IsMessage(e.value, d.value.account_sid, d.value.sid))|
         == |Seqs.Filter(rows, (e: Doc<Message>) => IsMessage(e.value, d.value.account_sid, d.value.sid))| + 1
  {
    Seqs.FilterAppend(rows, d, (e: Doc<Message>) => IsMessage(e.value, d.value.account_sid, d.value.sid));
  }

  /** The `messages` table: its documents in insertion order and the next id to hand out. */
  class MessageTable {
    var rows: Rows
    var nextId: Id

    /** Ids are fresh and distinct, and every stored message obeys the counterparty rule. */
    predicate Valid()
      reads this
    {
      WellFormed(rows, nextId) && forall i :: 0 <= i < |rows| ==> HasCounterparty(rows[i].value)
    }

    constructor()
      ensures Valid() && rows == []
    {
      rows := [];
      nextId := 0;
    }

    /**
     * `insert`: sets `counterparty` on the record, appends exactly one document and
     * returns the stored record.
     */
    method Insert(message: Message, now: int) returns (stored: Message)
      requires Valid()
      modifies this
      ensures Valid()
      ensures stored == WithCounterparty(message)
      ensures rows == old(rows) + [Doc(old(nextId), now, stored)] && nextId == old(nextId) + 1
    {
      stored := message.(counterparty := if message.direction == "inbound" then Some(message.from) else Some(message.to));
      AppendFresh(rows, nextId, now, stored);
      rows := rows + [Doc(nextId, now, stored)];
      nextId := nextId + 1;
    }

    /** `updateStatus`: looks up the first (account, sid) match and patches its status by id. */
    method UpdateStatus(account: string, sid: string, status: string) returns (r: Result<()>)
      requires Valid()
      modifies this
      ensures Valid()
      ensures StatusUpdated(old(rows), account, sid, status).Err? ==>
                r == Err(MessageNotFound) && rows == old(rows)
      ensures StatusUpdated(old(rows), account, sid, status).Ok? ==>
                r == Ok(()) && rows == StatusUpdated(old(rows), account, sid, status).value
      ensures nextId == old(nextId)
    {
      var found := FirstBySid(rows, account, sid);
      if found.None? {
        return Err(MessageNotFound);
      }
      var message := rows[found.value];
      PositionOfUnique(rows, nextId, found.value);
      var position := PositionOf(rows, message.id);
      ReplaceKeepsIds(rows, nextId, position.value, message.value.(status := status));
      rows := rows[position.value := rows[position.value].(value := message.value.(status := status))];
      r := Ok(());
    }

    /**
     * `create`: POSTs From, To, Body and StatusCallback to Messages.json and inserts
     * the message Twilio returns; nothing is inserted when the request fails.
     */
    method Create(fetch: Rest.Request -> Rest.Response<Message>, account: string, authToken: string,
                  from: string, to: string, body: string, statusCallback: string, now: int)
      returns (r: Result<Message>, ghost sent: seq<Rest.Request>)
      requires Valid()
      modifies this
      ensures Valid()
      ensures var request := Rest.RequestFor("Messages.json", account, authToken, SendForm(from, to, body, statusCallback), Rest.Post);
              var response := Rest.Call(fetch, request);
              sent == Rest.Sent(request)
              && (response.Err? ==> r == Err(response.error) && rows == old(rows) && nextId == old(nextId))
              && (response.Ok? ==> r == Ok(WithCounterparty(response.value))
                                   && rows == old(rows) + [Doc(old(nextId), now, r.value)])
    {
      var form := SendForm(from, to, body, statusCallback);
      var message;
      message, sent := Rest.TwilioRequest(fetch, "Messages.json", account, authToken, form, Rest.Post);
      if message.Err? {
        return Err(message.error), sent;
      }
      var stored := Insert(message.value, now);
      r := Ok(stored);
    }

    /** `getFromTwilioBySidAndInsert`: GETs Messages/<sid>.json and inserts what Twilio returns. */
    method GetFromTwilioBySidAndInsert(fetch: Rest.Request -> Rest.Response<Message>, account: string,
                                       authToken: string, sid: string, now: int)
      returns (r: Result<Message>, ghost sent: seq<Rest.Request>)
      requires Valid()
      modifies this
      ensures Valid()
      ensures var request := Rest.RequestFor("Messages/" + sid + ".json", account, authToken, EmptyObject, Rest.Get);
              var response := Rest.Call(fetch, request);
              sent == Rest.Sent(request)
              && (response.Err? ==> r == Err(response.error) && rows == old(rows) && nextId == old(nextId))
              && (response.Ok? ==> r == Ok(WithCounterparty(response.value))
                                   && rows == old(rows) + [Doc(old(nextId), now, r.value)])
    {
      var message;
      message, sent := Rest.TwilioRequest(fetch, "Messages/" + sid + ".json", account, authToken,
                                          EmptyObject, Rest.Get);
      if message.Err? {
        return Err(message.error), sent;
      }
      var stored := Insert(message.value, now);
      r := Ok(stored);
    }
  }

  /** The form `create` posts: `{ From, To, Body, StatusCallback }`. */
  function SendForm(from: string, to: string, body: string, statusCallback: string): (form: Record)
    ensures Keys(form) == ["From", "To", "Body", "StatusCallback"]
    ensures Get(form, "From") == Some(from) && Get(form, "To") == Some(to)
    ensures Get(form, "Body") == Some(body) && Get(form, "StatusCallback") == Some(statusCallback)
  {
    var form := [("From", from), ("To", to), ("Body", body), ("StatusCallback", statusCallback)];
    assert Keys(form) == ["From", "To", "Body", "StatusCallback"];
    form
  }
}
