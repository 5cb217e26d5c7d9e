/**
 * webhook-server.js: the Meta webhook endpoint. GET /webhook answers the
 * subscription handshake; POST /webhook stores every inbound WhatsApp message
 * of the envelope as a "received" row of the local store.
 *
 * The parsed JSON arrives as the datatypes below (a missing key is None); the
 * wall clock is a parameter giving the ISO timestamp taken for the n-th
 * message of the request.
 */
module Webhook {
  import opened Wrappers
  import opened JsString
  import Store

  /** An HTTP response: status and body (`sendStatus(n)` sends the status text). */
  datatype Reply = Reply(status: int, body: string)

  const OkReply := Reply(200, "OK")
  const ForbiddenReply := Reply(403, "Forbidden")
  const ServerErrorReply := Reply(500, "Internal Server Error")

  /**
   * `process.env.WA_VERIFY_TOKEN || builtIn`, where `builtIn` is the token
   * written into the server: with a non-empty built-in token, the token is
   * never empty.
   */
  function VerifyToken(env: Option<string>, builtIn: string): (t: string)
    ensures builtIn != "" ==> t != ""
    ensures env.Some? && env.value != "" ==> t == env.value
    ensures env.None? || env.value == "" ==> t == builtIn
  {
    OrElse(env, builtIn)
  }

  // ---------------------------------------------------------------------------
  // GET /webhook

  /**
   * The handshake: the challenge is echoed with 200 exactly when the mode is
   * "subscribe" and the token is the configured one; anything else is a 403.
   */
  function Verify(mode: Option<string>, token: Option<string>, challenge: Option<string>, verifyToken: string): (r: Reply)
    ensures r.status == 200 <==> mode == Some("subscribe") && token == Some(verifyToken)
    ensures r.status == 200 ==> r.body == challenge.GetOr("")
    ensures r.status != 200 ==> r == ForbiddenReply
  {
    if mode == Some("subscribe") && token == Some(verifyToken) then Reply(200, challenge.GetOr(""))
    else ForbiddenReply
  }

  /** Without `WA_VERIFY_TOKEN` the built-in token completes the handshake, and no other token does. */
  lemma DefaultTokenHandshake(token: string, challenge: string, builtIn: string)
    ensures Verify(Some("subscribe"), Some(token), Some(challenge), VerifyToken(None, builtIn)) ==
      if token == builtIn then Reply(200, challenge) else ForbiddenReply
  {
  }

  // ---------------------------------------------------------------------------
  // POST /webhook: the envelope

  /** An `image`, `video` or `document` object of an inbound message. */
  datatype MediaObject = MediaObject(link: Option<string>)

  /** One element of `value.messages`; `textBody` is `text?.body`. */
  datatype InboundMessage = InboundMessage(
    from: Option<string>, textBody: Option<string>,
    image: Option<MediaObject>, video: Option<MediaObject>, document: Option<MediaObject>)

  datatype ChangeValue = ChangeValue(messages: Option<seq<InboundMessage>>)

  datatype Change = Change(field: Option<string>, value: Option<ChangeValue>)

  datatype Entry = Entry(changes: Option<seq<Change>>)

  datatype Envelope = Envelope(objectType: Option<string>, entry: Option<seq<Entry>>)

  /** `message.text?.body || ''`. */
  function TextOf(m: InboundMessage): string {
    OrElse(m.textBody, "")
  }

  /** `o?.link`. */
  function Link(o: Option<MediaObject>): Option<string> {
    if o.Some? then o.value.link else None
  }

  /** `image?.link || video?.link || document?.link || null`: the first non-empty link. */
  function MediaUrlOf(m: InboundMessage): (r: Option<string>)
    ensures r.None? <==> !Truthy(Link(m.image)) && !Truthy(Link(m.video)) && !Truthy(Link(m.document))
    ensures r.Some? ==> r.value != "" && (r == Link(m.image) || r == Link(m.video) || r == Link(m.document))
    ensures Truthy(Link(m.image)) ==> r == Link(m.image)
    ensures !Truthy(Link(m.image)) && Truthy(Link(m.video)) ==> r == Link(m.video)
  {
    if Truthy(Link(m.image)) then Link(m.image)
    else if Truthy(Link(m.video)) then Link(m.video)
    else OrNull(Link(m.document))
  }

  /** The media type, read from which media object is present (with or without a link). */
  function MediaTypeOf(m: InboundMessage): (r: Option<Store.MediaKind>)
    ensures r == Some(Store.Image) <==> m.image.Some?
    ensures r == Some(Store.Video) <==> m.image.None? && m.video.Some?
    ensures r == Some(Store.Document) <==> m.image.None? && m.video.None? && m.document.Some?
    ensures r.None? <==> m.image.None? && m.video.None? && m.document.None?
  {
    if m.image.Some? then Some(Store.Image)
    else if m.video.Some? then Some(Store.Video)
    else if m.document.Some? then Some(Store.Document)
    else None
  }

  /**
   * The type and the link are read independently: an image object without a
   * link next to a video with one stores the video's link typed "image".
   */
  lemma TypeAndLinkIndependent(from: Option<string>, link: string)
    requires link != ""
    ensures var m := InboundMessage(from, None, Some(MediaObject(None)), Some(MediaObject(Some(link))), None);
      MediaUrlOf(m) == Some(link) && MediaTypeOf(m) == Some(Store.Image)
  {
  }

  /** `change.field === 'messages' && change.value?.messages?.length`. */
  predicate Processed(c: Change) {
    c.field == Some("messages") && c.value.Some? && c.value.value.messages.Some? && |c.value.value.messages.value| > 0
  }

  function ChangeMessages(c: Change): seq<InboundMessage> {
    if Processed(c) then c.value.value.messages.value else []
  }

  function ChangesMessages(cs: seq<Change>): seq<InboundMessage> {
    if cs == [] then [] else ChangeMessages(cs[0]) + ChangesMessages(cs[1..])
  }

  /** The messages of one entry (`entry.changes || []`). */
  function EntryMessages(e: Entry): seq<InboundMessage> {
    ChangesMessages(e.changes.GetOr([]))
  }

  function EntriesMessages(es: seq<Entry>): seq<InboundMessage> {
    if es == [] then [] else EntryMessages(es[0]) + EntriesMessages(es[1..])
  }

  /** Every message the POST handler visits, in the order it visits them. */
  function Inbound(body: Envelope): (r: seq<InboundMessage>)
    ensures body.objectType != Some("whatsapp_business_account") ==> r == []
  {
    if body.objectType == Some("whatsapp_business_account") then EntriesMessages(body.entry.GetOr([])) else []
  }

  /** Changes of other fields, or with an empty message list, contribute nothing. */
  lemma {:induction false} UnprocessedChangesIgnored(cs: seq<Change>)
    requires forall i :: 0 <= i < |cs| ==> !Processed(cs[i])
    ensures ChangesMessages(cs) == []
  {
    if cs != [] {
      assert !Processed(cs[0]);
      UnprocessedChangesIgnored(cs[1..]);
    }
  }

  /** The position of the first message without a sender, or the length when all have one. */
  function FirstMissingPhone(ms: seq<InboundMessage>): (k: nat)
    ensures k <= |ms|
    ensures forall i :: 0 <= i < k ==> ms[i].from.Some?
    ensures k < |ms| ==> ms[k].from.None?
  {
    if ms == [] then 0
    else if ms[0].from.None? then 0
    else
      var k := FirstMissingPhone(ms[1..]);
      assert forall i :: 1 <= i < k + 1 ==> ms[i] == ms[1..][i - 1];
      k + 1
  }

  // ---------------------------------------------------------------------------
  // POST /webhook: what is stored

  /** The order the sender's phone belongs to, or 0: webhook rows are never given a new order. */
  function OrderIdFor(orders: seq<Store.Order>, from: Option<string>): int {
    if from.None? then 0
    else
      match Store.FindByPhone(orders, from.value)
      case Some(o) => o.id
      case None => 0
  }

  lemma OrderIdForFacts(orders: seq<Store.Order>, from: Option<string>)
    ensures var id := OrderIdFor(orders, from);
      && (from.None? ==> id == 0)
      && (from.Some? && (forall x :: x in orders ==> x.phone != from.value) ==> id == 0)
      && (from.Some? && (exists x :: x in orders && x.phone == from.value) ==>
            exists x :: x in orders && x.phone == from.value && x.id == id)
  {
  }

  /** The `media_type` column: the media type's name, or NULL. */
  function MediaTypeName(m: InboundMessage): (r: Option<string>)
    ensures r.None? <==> MediaTypeOf(m).None?
    ensures r.Some? ==> r.value == Store.KindName(MediaTypeOf(m).value)
  {
    var kind := MediaTypeOf(m);
    if kind.Some? then Some(Store.KindName(kind.value)) else None
  }

  /** The values bound for one inbound message whose `from` is `phone`. */
  function ReceivedRecord(orders: seq<Store.Order>, phone: Option<string>, m: InboundMessage, at: string)
    : Store.MessageRecord
  {
    Store.MessageRecord(
      Some(OrderIdFor(orders, phone)), phone, Some(TextOf(m)), Some("received"), Some("received"),
      MediaUrlOf(m), MediaTypeName(m), Some(at))
  }

  /** A message that was stored: its sender, the message, the id it was given and its timestamp. */
  datatype Arrival = Arrival(phone: string, message: InboundMessage, id: int, at: string)

  /** The row stored for an arrival. */
  function ArrivalRow(orders: seq<Store.Order>, a: Arrival): Store.Message {
    Store.MessageRow(a.id, ReceivedRecord(orders, Some(a.phone), a.message, a.at))
  }

  /**
   * A received row keeps the sender's phone as sent, the text or "", the first
   * non-empty link and the media type, is marked "received" in both direction
   * and status, and belongs to an existing order with that phone, or to order 0
   * when there is none.
   */
  lemma ArrivalRowFields(orders: seq<Store.Order>, a: Arrival)
    ensures var r := ArrivalRow(orders, a);
      && r.id == a.id && r.phone == a.phone && r.text == TextOf(a.message)
      && r.direction == "received" && r.status == "received"
      && r.mediaUrl == MediaUrlOf(a.message) && r.mediaType == MediaTypeName(a.message) && r.createdAt == a.at
      && ((forall x :: x in orders ==> x.phone != a.phone) ==> r.orderId == 0)
      && ((exists x :: x in orders && x.phone == a.phone) ==>
            exists x :: x in orders && x.phone == a.phone && x.id == r.orderId)
  {
    OrderIdForFacts(orders, Some(a.phone));
  }

  /** The rows stored for a run of arrivals, in order. */
  function Rows(orders: seq<Store.Order>, arrivals: seq<Arrival>): (rows: seq<Store.Message>)
    ensures |rows| == |arrivals|
    decreases |arrivals|
  {
    if arrivals == [] then [] else [ArrivalRow(orders, arrivals[0])] + Rows(orders, arrivals[1..])
  }

  lemma {:induction false} RowsAppend(orders: seq<Store.Order>, a: seq<Arrival>, b: seq<Arrival>)
    ensures Rows(orders, a + b) == Rows(orders, a) + Rows(orders, b)
    decreases |a|
  {
    if a == [] {
      assert a + b == b;
    } else {
      assert (a + b)[0] == a[0];
      assert (a + b)[1..] == a[1..] + b;
      RowsAppend(orders, a[1..], b);
    }
  }

  /** One row per arrival, the i-th row being the i-th arrival's. */
  lemma {:induction false} RowsFacts(orders: seq<Store.Order>, arrivals: seq<Arrival>)
    ensures var rows := Rows(orders, arrivals);
      forall i :: 0 <= i < |arrivals| ==> rows[i] == ArrivalRow(orders, arrivals[i])
    decreases |arrivals|
  {
    if arrivals != [] {
      RowsFacts(orders, arrivals[1..]);
    }
  }

  /** What a run of stores leaves behind: the arrivals, and whether every message was stored. */
  datatype Intake = Intake(arrivals: seq<Arrival>, complete: bool)

  /** `arrivals` continued by the run `t`: the arrivals of both, complete when `t` is. */
  function Then(arrivals: seq<Arrival>, t: Intake): Intake {
    Intake(arrivals + t.arrivals, t.complete)
  }

  lemma ThenThen(a: seq<Arrival>, b: seq<Arrival>, t: Intake)
    ensures Then(a, Then(b, t)) == Then(a + b, t)
  {
    assert a + (b + t.arrivals) == (a + b) + t.arrivals;
  }

  /**
   * What storing the messages `ms` one by one from position `i` on does: the
   * message at position `p` gets id `base + 1 + p` and the timestamp the clock
   * gives for position `p`; the first message without a sender stops the run.
   */
  function Receive(ms: seq<InboundMessage>, i: nat, base: int, clock: nat -> string): (r: Intake)
    ensures i <= |ms| ==> |r.arrivals| <= |ms| - i
    ensures r.complete ==> i >= |ms| || |r.arrivals| == |ms| - i
    decreases |ms| - i
  {
    if i >= |ms| then Intake([], true)
    else if ms[i].from.None? then Intake([], false)
    else Then([Arrival(ms[i].from.value, ms[i], base + i + 1, clock(i))], Receive(ms, i + 1, base, clock))
  }

  /**
   * The run from position `i` stores exactly the messages before the first one
   * without a sender, each under the next id, and is complete exactly when
   * every message from `i` on has a sender.
   */
  lemma {:induction false} ReceiveFacts(ms: seq<InboundMessage>, i: nat, base: int, clock: nat -> string)
    requires i <= |ms|
    ensures var r := Receive(ms, i, base, clock); var k := FirstMissingPhone(ms[i..]);
      && |r.arrivals| == k
      && (r.complete <==> k == |ms| - i)
      && forall j :: 0 <= j < k ==>
           r.arrivals[j] == Arrival(ms[i + j].from.value, ms[i + j], base + i + j + 1, clock(i + j))
    decreases |ms| - i
  {
    if i < |ms| && ms[i].from.Some? {
      ReceiveFacts(ms, i + 1, base, clock);
      assert ms[i..][1..] == ms[i + 1..];
      var r := Receive(ms, i, base, clock);
      var k := FirstMissingPhone(ms[i..]);
      forall j | 1 <= j < k
        ensures r.arrivals[j] == Arrival(ms[i + j].from.value, ms[i + j], base + i + j + 1, clock(i + j))
      {
        assert r.arrivals[j] == Receive(ms, i + 1, base, clock).arrivals[j - 1];
      }
    }
  }

  /**
   * What the POST handler stores for the messages `ms`: one row for each
   * message before the first one without a sender, the j-th under id
   * `base + 1 + j`; the request succeeds exactly when every message has one.
   */
  lemma StoredRows(orders: seq<Store.Order>, ms: seq<InboundMessage>, base: int, clock: nat -> string)
    ensures var t := Receive(ms, 0, base, clock); var rows := Rows(orders, t.arrivals); var k := FirstMissingPhone(ms);
      && |rows| == k
      && (t.complete <==> k == |ms|)
      && forall j :: 0 <= j < k ==> rows[j] == ArrivalRow(orders, Arrival(ms[j].from.value, ms[j], base + j + 1, clock(j)))
  {
    var t := Receive(ms, 0, base, clock);
    ReceiveFacts(ms, 0, base, clock);
    RowsFacts(orders, t.arrivals);
    assert ms[0..] == ms;
    forall j | 0 <= j < FirstMissingPhone(ms)
      ensures Rows(orders, t.arrivals)[j] == ArrivalRow(orders, Arrival(ms[j].from.value, ms[j], base + j + 1, clock(j)))
    {
      assert t.arrivals[j] == Arrival(ms[j].from.value, ms[j], base + j + 1, clock(j));
    }
  }

  /** One stored message moves the run forward by one position. */
  lemma Advance(done: seq<Arrival>, ms: seq<InboundMessage>, i: nat, base: int, clock: nat -> string)
    requires i < |ms| && ms[i].from.Some?
    ensures Then(done, Receive(ms, i, base, clock)) ==
      Then(done + [Arrival(ms[i].from.value, ms[i], base + i + 1, clock(i))], Receive(ms, i + 1, base, clock))
  {
    ThenThen(done, [Arrival(ms[i].from.value, ms[i], base + i + 1, clock(i))], Receive(ms, i + 1, base, clock));
  }

  /** One turn of the loop of StoreInbound: the run and the store both move past message `i`. */
  lemma StoreStep(before: Store.Snapshot, mid: Store.Snapshot, now: Store.Snapshot,
                  prev: seq<Arrival>, ms: seq<InboundMessage>, i: nat, clock: nat -> string, target: Intake)
    requires i < |ms| && ms[i].from.Some? && i == |prev|
    requires target == Then(prev, Receive(ms, i, before.messageSeq, clock))
    requires Store.Grown(mid, before, Rows(before.orders, prev))
    requires Store.Grown(now, mid, Rows(mid.orders, [Arrival(ms[i].from.value, ms[i], mid.messageSeq + 1, clock(i))]))
    ensures var a := Arrival(ms[i].from.value, ms[i], before.messageSeq + i + 1, clock(i));
      && target == Then(prev + [a], Receive(ms, i + 1, before.messageSeq, clock))
      && Store.Grown(now, before, Rows(before.orders, prev + [a]))
  {
    var a := Arrival(ms[i].from.value, ms[i], before.messageSeq + i + 1, clock(i));
    Store.GrownTrans(before, mid, now, Rows(before.orders, prev), Rows(before.orders, [a]));
    RowsAppend(before.orders, prev, [a]);
    Advance(prev, ms, i, before.messageSeq, clock);
  }

  /** The store is valid, and is `before` with `rows` appended to its messages. */
  ghost predicate Appended(db: Store.Database, before: Store.Snapshot, rows: seq<Store.Message>)
    reads db
  {
    db.Valid() && Store.Grown(Store.SnapshotOf(db), before, rows)
  }

  /** The body of the innermost loop: look up the sender's order, then store the message. */
  method StoreReceived(db: Store.Database, message: InboundMessage, at: string) returns (r: Outcome<Store.StoreError>)
    requires db.Valid()
    modifies db
    ensures r.Pass? <==> message.from.Some?
    ensures r.Pass? ==>
      Appended(db, old(Store.SnapshotOf(db)), Rows(old(db.orders), [Arrival(message.from.value, message, old(db.messageSeq) + 1, at)]))
    ensures r.Fail? ==> Appended(db, old(Store.SnapshotOf(db)), [])
  {
    var phone := message.from;
    var order := db.GetOrderByPhone(phone);
    var orderId := if order.Some? then order.value.id else 0;
    var kind := MediaTypeOf(message);
    var rec := Store.MessageRecord(
      Some(orderId), phone, Some(TextOf(message)), Some("received"), Some("received"),
      MediaUrlOf(message), if kind.Some? then Some(Store.KindName(kind.value)) else None, Some(at));
    assert rec == ReceivedRecord(db.orders, phone, message, at);
    r := db.StoreMessage(rec);
    if r.Pass? {
      ghost var a := Arrival(message.from.value, message, old(db.messageSeq) + 1, at);
      assert Rows(old(db.orders), [a]) == [ArrivalRow(old(db.orders), a)];
    }
  }

  /**
   * One turn of the innermost loop, at position `i` of the run that started
   * from the store `before` and has stored `prev` so far: the message is
   * stored, and the run moves past it, or it has no sender and the run stops.
   */
  method StoreAt(db: Store.Database, ms: seq<InboundMessage>, i: nat, clock: nat -> string,
                 ghost before: Store.Snapshot, ghost prev: seq<Arrival>, ghost target: Intake)
    returns (stored: bool)
    requires i < |ms| && i == |prev|
    requires target == Then(prev, Receive(ms, i, before.messageSeq, clock))
    requires Appended(db, before, Rows(before.orders, prev))
    modifies db
    ensures stored <==> ms[i].from.Some?
    ensures !stored ==> target == Intake(prev, false) && Appended(db, before, Rows(before.orders, prev))
    ensures stored ==>
      var a := Arrival(ms[i].from.value, ms[i], before.messageSeq + i + 1, clock(i));
      && target == Then(prev + [a], Receive(ms, i + 1, before.messageSeq, clock))
      && Appended(db, before, Rows(before.orders, prev + [a]))
  {
    ghost var mid := Store.SnapshotOf(db);
    var r := StoreReceived(db, ms[i], clock(i));
    stored := r.Pass?;
    if stored {
      StoreStep(before, mid, Store.SnapshotOf(db), prev, ms, i, clock, target);
    } else {
      assert prev + [] == prev;
    }
  }

  /**
   * The nested `for` loops of the POST handler, over the messages in the
   * order they visit them (`Inbound`): each message is stored in turn, and the
   * first one that fails ends the loop.
   */
  method StoreInbound(db: Store.Database, messages: seq<InboundMessage>, clock: nat -> string)
    returns (complete: bool)
    requires db.Valid()
    modifies db
    ensures var t := Receive(messages, 0, old(db.messageSeq), clock);
      complete == t.complete && Appended(db, old(Store.SnapshotOf(db)), Rows(old(db.orders), t.arrivals))
  {
    ghost var before := Store.SnapshotOf(db);
    ghost var target := Receive(messages, 0, before.messageSeq, clock);
    ghost var arrivals: seq<Arrival> := [];
    var i := 0;
    while i < |messages|
      invariant i <= |messages| && i == |arrivals|
      invariant target == Then(arrivals, Receive(messages, i, before.messageSeq, clock))
      invariant Appended(db, before, Rows(before.orders, arrivals))
    {
      var stored := StoreAt(db, messages, i, clock, before, arrivals, target);
      if !stored {
        return false;
      }
      arrivals := arrivals + [Arrival(messages[i].from.value, messages[i], before.messageSeq + i + 1, clock(i))];
      i := i + 1;
    }
    assert arrivals + [] == arrivals;
    complete := true;
  }

  /**
   * The POST handler. Messages are stored one by one in envelope order; a
   * message without a sender fails the NOT NULL constraint on `phone`, which
   * answers 500 and keeps the rows already stored. Otherwise the answer is 200.
   * The orders table is never touched: a message from an unknown phone is
   * stored under order id 0.
   */
  method HandleWebhook(db: Store.Database, body: Envelope, clock: nat -> string) returns (reply: Reply)
    requires db.Valid()
    modifies db
    ensures db.Valid()
    ensures var t := Receive(Inbound(body), 0, old(db.messageSeq), clock);
      && reply == (if t.complete then OkReply else ServerErrorReply)
      && db.messages == old(db.messages) + Rows(old(db.orders), t.arrivals)
      && db.messageSeq == old(db.messageSeq) + |t.arrivals|
    ensures db.orders == old(db.orders) && db.orderSeq == old(db.orderSeq)
    ensures db.templates == old(db.templates) && db.templateSeq == old(db.templateSeq)
  {
    if body.objectType == Some("whatsapp_business_account") {
      var complete := StoreInbound(db, EntriesMessages(body.entry.GetOr([])), clock);
      if !complete {
        return ServerErrorReply;
      }
    }
    return OkReply;
  }
}
