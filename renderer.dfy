/**
 * renderer.js: the decision logic of the desktop window. The module-level
 * state (`selectedOrder`, `currentPage`) and the order list it fills are the
 * fields of `Session`; the WooCommerce feed, the WhatsApp API and the clock
 * are parameters, exactly as in the models of api.js and webhook-server.js.
 */
module Renderer {
  import opened Wrappers
  import opened JsString
  import Store
  import Api

  /** `ordersPerPage`. */
  const OrdersPerPage := 30

  /** The notice shown when a fetch fails. */
  const FailedNotice := "Failed to load orders"

  /** The notice shown for an empty page. */
  const EmptyNotice := "No orders found"

  /** One element of the order list: an order, or a notice replacing the list. */
  datatype ListEntry =
    | OrderEntry(orderId: Option<int>, number: string, name: string, phone: string)
    | Notice(text: string)

  /** The entry listed for one fetched order (`orderNumber || 'N/A'`, `customerName || 'Unknown'`). */
  function EntryOf(o: Store.OrderRecord): ListEntry {
    OrderEntry(o.id, OrElse(o.orderNumber, "N/A"), OrElse(o.customerName, "Unknown"), o.phone.GetOr(""))
  }

  /** The entries listed for a page: one per order with a phone, in page order. */
  function Listed(page: seq<Store.OrderRecord>): (r: seq<ListEntry>)
    ensures |r| <= |page|
  {
    if page == [] then []
    else Listed(page[..|page| - 1]) + (if Truthy(page[|page| - 1].phone) then [EntryOf(page[|page| - 1])] else [])
  }

  /** Every listed entry is an order entry with a non-empty phone. */
  lemma {:induction false} ListedHavePhones(page: seq<Store.OrderRecord>)
    ensures forall e :: e in Listed(page) ==> e.OrderEntry? && e.phone != ""
  {
    if page != [] {
      ListedHavePhones(page[..|page| - 1]);
    }
  }

  /** An order of the page is listed exactly when it has a phone. */
  lemma {:induction false} ListedComplete(page: seq<Store.OrderRecord>)
    ensures forall i :: 0 <= i < |page| ==> (EntryOf(page[i]) in Listed(page) <==> Truthy(page[i].phone))
  {
    ListedHavePhones(page);
    if page != [] {
      var front := page[..|page| - 1];
      ListedComplete(front);
      assert forall i :: 0 <= i < |front| ==> front[i] == page[i];
    }
  }

  /** Every listed entry is the entry of an order of the page that has a phone. */
  lemma {:induction false} ListedSound(page: seq<Store.OrderRecord>)
    ensures forall e :: e in Listed(page) ==>
      exists i :: 0 <= i < |page| && Truthy(page[i].phone) && e == EntryOf(page[i])
  {
    if page != [] {
      var front := page[..|page| - 1];
      ListedSound(front);
      forall e | e in Listed(page)
        ensures exists i :: 0 <= i < |page| && Truthy(page[i].phone) && e == EntryOf(page[i])
      {
        if e in Listed(front) {
          var i :| 0 <= i < |front| && Truthy(front[i].phone) && e == EntryOf(front[i]);
          assert page[i] == front[i];
        } else {
          assert e == EntryOf(page[|page| - 1]);
        }
      }
    }
  }

  /** `input.value || select.value`: the typed text, or else the chosen template. */
  function ChosenText(input: string, template: string): (r: string)
    ensures r == "" <==> input == "" && template == ""
    ensures input != "" ==> r == input
    ensures input == "" ==> r == template
  {
    if input != "" then input else template
  }

  /** A message handed to `storeMessage` after a send: recipient, text, receipt, id and timestamp. */
  datatype Delivery = Delivery(order: Store.Order, text: string, receipt: Api.Receipt, id: int, at: string)

  /** `r.mediaType || null`: the name of the media type, or NULL. */
  function MediaName(k: Option<Store.MediaKind>): (r: Option<string>)
    ensures r.None? <==> k.None?
    ensures r.Some? ==> r.value == Store.KindName(k.value)
  {
    if k.Some? then Some(Store.KindName(k.value)) else None
  }

  /** The values bound for a sent message. */
  function SentRecord(d: Delivery): Store.MessageRecord {
    Store.MessageRecord(
      Some(d.order.id), Some(d.order.phone), Some(d.text), Some("sent"), Some("sent"),
      OrNull(d.receipt.mediaUrl), MediaName(d.receipt.mediaType), Some(d.at))
  }

  /** The row a delivery becomes. */
  function SentRow(d: Delivery): Store.Message {
    Store.MessageRow(d.id, SentRecord(d))
  }

  /**
   * A sent row belongs to the recipient's order and phone, holds the text,
   * is "sent" in both direction and status, and keeps the media fields of
   * the receipt, with "" as NULL.
   */
  lemma SentRowFields(d: Delivery)
    ensures var r := SentRow(d);
      && r.id == d.id && r.orderId == d.order.id && r.phone == d.order.phone && r.text == d.text
      && r.direction == "sent" && r.status == "sent" && r.createdAt == d.at
      && r.mediaUrl == OrNull(d.receipt.mediaUrl) && (r.mediaType.None? <==> d.receipt.mediaType.None?)
      && (r.mediaType.Some? ==> r.mediaType.value == Store.KindName(d.receipt.mediaType.value))
  {
  }

  function SentRows(ds: seq<Delivery>): (rows: seq<Store.Message>)
    ensures |rows| == |ds|
    decreases |ds|
  {
    if ds == [] then [] else [SentRow(ds[0])] + SentRows(ds[1..])
  }

  lemma {:induction false} SentRowsAppend(a: seq<Delivery>, b: seq<Delivery>)
    ensures SentRows(a + b) == SentRows(a) + SentRows(b)
    decreases |a|
  {
    if a == [] {
      assert a + b == b;
    } else {
      assert (a + b)[0] == a[0];
      assert (a + b)[1..] == a[1..] + b;
      SentRowsAppend(a[1..], b);
    }
  }

  // ---------------------------------------------------------------------------
  // The send form

  /**
   * One send of `text` to the order's phone followed, when it is delivered,
   * by the row to store under the id after `counter`.
   */
  function Attempt(order: Store.Order, text: string, file: Option<Api.MediaFile>, cfg: Api.Config,
                   posts: seq<Api.PostOutcome>, counter: int, at: string): Result<Delivery, Api.SendError>
    requires Api.Resolves(posts, cfg.retryAttempts, 0)
  {
    match Api.SendSpec(cfg, order.phone, text, file, None, posts).result
    case Err(e) => Err(e)
    case Ok(receipt) => Ok(Delivery(order, text, receipt, counter + 1, at))
  }

  /** What a submit of the send form ends in. */
  datatype SubmitOutcome =
    | NoOrderSelected
    | EmptyMessage
    | SendFailed(error: Api.SendError)
    | Sent(delivery: Delivery)

  /**
   * The submit handler, for the selected order, the two text fields, the
   * attached file and the answers `posts` of the API; `counter` is the
   * message table's sequence value. The file is passed to the send but no
   * link is, so the send fails for every attachment.
   */
  function Submit(selected: Option<Store.Order>, input: string, template: string, file: Option<Api.MediaFile>,
                  cfg: Api.Config, posts: seq<Api.PostOutcome>, counter: int, at: string): (r: SubmitOutcome)
    requires Api.Resolves(posts, cfg.retryAttempts, 0)
    ensures r == NoOrderSelected <==> selected.None?
    ensures r == EmptyMessage <==> selected.Some? && input == "" && template == "" && file.None?
    ensures r.Sent? ==>
      && r.delivery == Delivery(selected.value, ChosenText(input, template), r.delivery.receipt, counter + 1, at)
      && r.delivery.text != "" && file.None?
    ensures r.Sent? || r.SendFailed? ==>
      var d := Api.SendSpec(cfg, selected.value.phone, ChosenText(input, template), file, None, posts);
      && (r.Sent? <==> d.result.Ok?) && (r.SendFailed? ==> r.error == d.result.error)
      && (r.Sent? ==> r.delivery.receipt == d.result.value)
  {
    if selected.None? then NoOrderSelected
    else
      var text := ChosenText(input, template);
      if text == "" && file.None? then EmptyMessage
      else
        match Attempt(selected.value, text, file, cfg, posts, counter, at)
        case Err(e) => SendFailed(e)
        case Ok(d) => Sent(d)
  }

  /** The form sends text only: a sent message never carries media. */
  lemma SubmitSendsTextOnly(selected: Option<Store.Order>, input: string, template: string, file: Option<Api.MediaFile>,
                            cfg: Api.Config, posts: seq<Api.PostOutcome>, counter: int, at: string)
    requires Api.Resolves(posts, cfg.retryAttempts, 0)
    requires Submit(selected, input, template, file, cfg, posts, counter, at).Sent?
    ensures var row := SentRow(Submit(selected, input, template, file, cfg, posts, counter, at).delivery);
      row.mediaUrl.None? && row.mediaType.None?
  {
  }

  /** An attachment is never sent: the send rejects it before any POST, or the credentials are missing. */
  lemma AttachmentRejected(selected: Store.Order, input: string, template: string, file: Api.MediaFile,
                           cfg: Api.Config, posts: seq<Api.PostOutcome>, counter: int, at: string)
    requires Api.Resolves(posts, cfg.retryAttempts, 0)
    ensures var r := Submit(Some(selected), input, template, Some(file), cfg, posts, counter, at);
      r == SendFailed(Api.UploadNotImplemented) || r == SendFailed(Api.CredentialsMissing)
  {
  }

  // ---------------------------------------------------------------------------
  // Broadcast

  /** What a broadcast submit ends in. */
  datatype BroadcastOutcome = EmptyBroadcast | BroadcastSent

  /** The API answers every recipient's send with a script that ends its retry loop. */
  ghost predicate Answered(cfg: Api.Config, api: nat -> seq<Api.PostOutcome>) {
    forall k: nat :: Api.Resolves(api(k), cfg.retryAttempts, 0)
  }

  /** The send to `phone` succeeds. */
  predicate Delivers(cfg: Api.Config, phone: string, text: string, posts: seq<Api.PostOutcome>)
    requires Api.Resolves(posts, cfg.retryAttempts, 0)
  {
    Api.SendSpec(cfg, phone, text, None, None, posts).result.Ok?
  }

  /**
   * The broadcast from position `i` of the order list on: each order with a
   * phone is sent `text` with the answers `api(k)` for its position `k`; each
   * successful send is stored under the next id after `counter`, and a failed
   * one is skipped.
   */
  function Deliveries(orders: seq<Store.Order>, i: nat, counter: int, text: string,
                      cfg: Api.Config, api: nat -> seq<Api.PostOutcome>, clock: nat -> string): (r: seq<Delivery>)
    requires Answered(cfg, api)
    ensures i <= |orders| ==> |r| <= |orders| - i
    ensures forall j :: 0 <= j < |r| ==> r[j].text == text && r[j].order.phone != ""
    decreases |orders| - i
  {
    if i >= |orders| then []
    else if orders[i].phone == "" then Deliveries(orders, i + 1, counter, text, cfg, api, clock)
    else
      match Attempt(orders[i], text, None, cfg, api(i), counter, clock(i))
      case Err(_) => Deliveries(orders, i + 1, counter, text, cfg, api, clock)
      case Ok(d) => [d] + Deliveries(orders, i + 1, counter + 1, text, cfg, api, clock)
  }

  /** The broadcast sends text only: no delivery of it carries a link or a media type. */
  lemma {:induction false} BroadcastSendsTextOnly(orders: seq<Store.Order>, i: nat, counter: int, text: string,
                                                 cfg: Api.Config, api: nat -> seq<Api.PostOutcome>, clock: nat -> string)
    requires Answered(cfg, api)
    ensures var ds := Deliveries(orders, i, counter, text, cfg, api, clock);
      forall j :: 0 <= j < |ds| ==> ds[j].receipt == Api.Receipt(None, None)
    decreases |orders| - i
  {
    if i < |orders| {
      if orders[i].phone == "" {
        assert Deliveries(orders, i, counter, text, cfg, api, clock) == Deliveries(orders, i + 1, counter, text, cfg, api, clock);
        BroadcastSendsTextOnly(orders, i + 1, counter, text, cfg, api, clock);
      } else {
        var r := Attempt(orders[i], text, None, cfg, api(i), counter, clock(i));
        DeliveriesAt(orders, i, counter, text, cfg, api, clock);
        if r.Ok? {
          Api.DeliveredReceipt(cfg, orders[i].phone, text, None, api(i));
          BroadcastSendsTextOnly(orders, i + 1, counter + 1, text, cfg, api, clock);
        } else {
          BroadcastSendsTextOnly(orders, i + 1, counter, text, cfg, api, clock);
        }
      }
    }
  }

  /** A position below an ascending run of positions can be put in front of it. */
  lemma PositionsCons(i: nat, rest: seq<nat>, bound: int)
    requires i < bound
    requires forall j :: 0 <= j < |rest| ==> i + 1 <= rest[j] < bound
    requires forall a, b :: 0 <= a < b < |rest| ==> rest[a] < rest[b]
    ensures var p := [i] + rest;
      && (forall j :: 0 <= j < |p| ==> i <= p[j] < bound)
      && (forall a, b :: 0 <= a < b < |p| ==> p[a] < p[b])
      && (forall k :: k in p <==> k == i || k in rest)
  {
    assert forall j :: 1 <= j < |rest| + 1 ==> ([i] + rest)[j] == rest[j - 1];
  }

  /**
   * The positions, from `i` on, of the orders a broadcast reaches: in
   * ascending order, exactly those with a phone whose send succeeds.
   */
  function Recipients(orders: seq<Store.Order>, i: nat, text: string, cfg: Api.Config, api: nat -> seq<Api.PostOutcome>)
    : (p: seq<nat>)
    requires Answered(cfg, api)
    ensures forall j :: 0 <= j < |p| ==> i <= p[j] < |orders|
    ensures forall a, b :: 0 <= a < b < |p| ==> p[a] < p[b]
    ensures forall k :: k in p <==> i <= k < |orders| && orders[k].phone != "" && Delivers(cfg, orders[k].phone, text, api(k))
    decreases |orders| - i
  {
    if i >= |orders| then []
    else
      var rest := Recipients(orders, i + 1, text, cfg, api);
      if orders[i].phone != "" && Delivers(cfg, orders[i].phone, text, api(i)) then
        PositionsCons(i, rest, |orders|);
        [i] + rest
      else rest
  }

  /**
   * The j-th delivery of `ds` is to the order at position `p[j]` of the list,
   * with `text`, the j-th id after `counter` and the timestamp of that position.
   */
  ghost predicate Follow(ds: seq<Delivery>, p: seq<nat>, orders: seq<Store.Order>, text: string,
                         counter: int, clock: nat -> string)
  {
    && |ds| == |p|
    && forall j :: 0 <= j < |ds| ==>
         && p[j] < |orders| && ds[j].order == orders[p[j]] && ds[j].text == text
         && ds[j].id == counter + 1 + j && ds[j].at == clock(p[j])
  }

  lemma FollowCons(d: Delivery, ds: seq<Delivery>, i: nat, p: seq<nat>, orders: seq<Store.Order>, text: string,
                   counter: int, clock: nat -> string)
    requires Follow(ds, p, orders, text, counter + 1, clock)
    requires i < |orders| && d.order == orders[i] && d.text == text && d.id == counter + 1 && d.at == clock(i)
    ensures Follow([d] + ds, [i] + p, orders, text, counter, clock)
  {
    forall j | 1 <= j < |ds| + 1
      ensures ([d] + ds)[j] == ds[j - 1] && ([i] + p)[j] == p[j - 1]
    {
    }
  }

  /**
   * One row per successful send, in order-list order: the j-th delivery is to
   * the j-th recipient, with the next id and the timestamp of its position.
   */
  lemma {:induction false} DeliveriesFollowRecipients(orders: seq<Store.Order>, i: nat, counter: int, text: string,
                                                      cfg: Api.Config, api: nat -> seq<Api.PostOutcome>, clock: nat -> string)
    requires Answered(cfg, api)
    ensures Follow(Deliveries(orders, i, counter, text, cfg, api, clock), Recipients(orders, i, text, cfg, api),
                   orders, text, counter, clock)
    decreases |orders| - i
  {
    if i < |orders| {
      if orders[i].phone != "" && Delivers(cfg, orders[i].phone, text, api(i)) {
        DeliveriesFollowRecipients(orders, i + 1, counter + 1, text, cfg, api, clock);
        var a := Attempt(orders[i], text, None, cfg, api(i), counter, clock(i));
        FollowCons(a.value, Deliveries(orders, i + 1, counter + 1, text, cfg, api, clock), i,
                   Recipients(orders, i + 1, text, cfg, api), orders, text, counter, clock);
      } else {
        DeliveriesFollowRecipients(orders, i + 1, counter, text, cfg, api, clock);
      }
    }
  }

  /** The broadcast at a position with a phone: the send there, then the rest. */
  lemma DeliveriesAt(orders: seq<Store.Order>, i: nat, counter: int, text: string,
                     cfg: Api.Config, api: nat -> seq<Api.PostOutcome>, clock: nat -> string)
    requires Answered(cfg, api) && i < |orders| && orders[i].phone != ""
    ensures var r := Attempt(orders[i], text, None, cfg, api(i), counter, clock(i));
      Deliveries(orders, i, counter, text, cfg, api, clock)
        == (if r.Ok? then [r.value] else []) + Deliveries(orders, i + 1, if r.Ok? then counter + 1 else counter, text, cfg, api, clock)
  {
    var r := Attempt(orders[i], text, None, cfg, api(i), counter, clock(i));
    if r.Err? {
      assert [] + Deliveries(orders, i + 1, counter, text, cfg, api, clock) == Deliveries(orders, i + 1, counter, text, cfg, api, clock);
    }
  }

  /**
   * One broadcast step with a phone: the deliveries so far, extended by the
   * one to position `i` when its send succeeds, are stored, and the rest of
   * the broadcast starts after it.
   */
  lemma BroadcastStep(before: Store.Snapshot, mid: Store.Snapshot, now: Store.Snapshot, prev: seq<Delivery>,
                      orders: seq<Store.Order>, i: nat, msg: string, cfg: Api.Config,
                      api: nat -> seq<Api.PostOutcome>, clock: nat -> string,
                      r: Result<Delivery, Api.SendError>, target: seq<Delivery>)
    returns (next: seq<Delivery>)
    requires Answered(cfg, api) && i < |orders| && orders[i].phone != ""
    requires target == prev + Deliveries(orders, i, mid.messageSeq, msg, cfg, api, clock)
    requires Store.Grown(mid, before, SentRows(prev))
    requires r == Attempt(orders[i], msg, None, cfg, api(i), mid.messageSeq, clock(i))
    requires Store.Grown(now, mid, if r.Ok? then [SentRow(r.value)] else [])
    ensures next == if r.Ok? then prev + [r.value] else prev
    ensures Store.Grown(now, before, SentRows(next))
    ensures target == next + Deliveries(orders, i + 1, now.messageSeq, msg, cfg, api, clock)
  {
    var head := DeliveriesStep(prev, orders, i, mid.messageSeq, msg, cfg, api, clock, target);
    assert SentRows(head) == if r.Ok? then [SentRow(r.value)] else [];
    GrownStep(before, mid, now, prev, head);
    next := prev + head;
    assert r.Err? ==> next == prev;
  }

  /** The rows stored so far, followed by this step's, are the rows of all deliveries so far. */
  lemma GrownStep(before: Store.Snapshot, mid: Store.Snapshot, now: Store.Snapshot, prev: seq<Delivery>, head: seq<Delivery>)
    requires Store.Grown(mid, before, SentRows(prev)) && Store.Grown(now, mid, SentRows(head))
    ensures Store.Grown(now, before, SentRows(prev + head))
  {
    Store.GrownTrans(before, mid, now, SentRows(prev), SentRows(head));
    SentRowsAppend(prev, head);
  }

  /** Position `i` moves its delivery, if any, from the rest of the broadcast to the deliveries so far. */
  lemma DeliveriesStep(prev: seq<Delivery>, orders: seq<Store.Order>, i: nat, counter: int, msg: string,
                       cfg: Api.Config, api: nat -> seq<Api.PostOutcome>, clock: nat -> string, target: seq<Delivery>)
    returns (head: seq<Delivery>)
    requires Answered(cfg, api) && i < |orders| && orders[i].phone != ""
    requires target == prev + Deliveries(orders, i, counter, msg, cfg, api, clock)
    ensures var r := Attempt(orders[i], msg, None, cfg, api(i), counter, clock(i));
      head == if r.Ok? then [r.value] else []
    ensures target == (prev + head) + Deliveries(orders, i + 1, counter + |head|, msg, cfg, api, clock)
  {
    var r := Attempt(orders[i], msg, None, cfg, api(i), counter, clock(i));
    head := if r.Ok? then [r.value] else [];
    DeliveriesAt(orders, i, counter, msg, cfg, api, clock);
    Regroup(prev, head, Deliveries(orders, i + 1, counter + |head|, msg, cfg, api, clock));
  }

  /** Concatenation regrouped, kept apart from the broadcast's facts. */
  lemma Regroup<T>(a: seq<T>, b: seq<T>, c: seq<T>)
    ensures a + (b + c) == (a + b) + c
  {
  }

  // ---------------------------------------------------------------------------
  // The window's state

  class Session {
    /** The local store the window reads and writes. */
    const db: Store.Database
    /** `selectedOrder`: the order whose chat is open. */
    var selectedOrder: Option<Store.Order>
    /** `currentPage`: the page of the order feed the next sync asks for. */
    var currentPage: int
    /** The rows of `#order-list`. */
    var orderList: seq<ListEntry>

    ghost predicate Valid()
      reads this, db
    {
      db.Valid()
    }

    /** The state at start-up: nothing selected, page 1, an empty list. */
    constructor (db: Store.Database)
      requires db.Valid()
      ensures Valid() && this.db == db
      ensures selectedOrder.None? && currentPage == 1 && orderList == []
    {
      this.db := db;
      selectedOrder := None;
      currentPage := 1;
      orderList := [];
    }

    /**
     * One sync step for `page`, between the state before a call and after it:
     * the stored maximum id is the `lastStoredId` of the request; a failed
     * request or an empty page replaces the list by a notice and stores
     * nothing; otherwise the orders with a phone are listed after the current
     * entries and every fetched order is stored, with or without a phone.
     */
    twostate predicate Synced(page: int, feed: Api.Query -> Api.FeedReply)
      reads this, db
      requires old(db.Valid())
    {
      var fetched := Api.FetchOrdersPaginated(page, OrdersPerPage, old(db.LastStoredOrderId()), feed);
      && db.Valid()
      && selectedOrder == old(selectedOrder)
      && db.messages == old(db.messages) && db.messageSeq == old(db.messageSeq)
      && db.templates == old(db.templates) && db.templateSeq == old(db.templateSeq)
      && (fetched.Err? ==> orderList == [Notice(FailedNotice)])
      && (fetched.Ok? && fetched.value == [] ==> orderList == [Notice(EmptyNotice)])
      && (fetched.Err? || fetched.value == [] ==> db.orders == old(db.orders) && db.orderSeq == old(db.orderSeq))
      && (fetched.Ok? && fetched.value != [] ==>
            && orderList == old(orderList) + Listed(fetched.value)
            && Store.OrdersTable(db.orders, db.orderSeq)
                 == Store.StoreAll(Store.OrdersTable(old(db.orders), old(db.orderSeq)), fetched.value))
    }

    /** The `for (const order of orders)` loop: an entry for each order with a phone. */
    method ListPage(orders: seq<Store.OrderRecord>)
      modifies this
      ensures orderList == old(orderList) + Listed(orders)
      ensures selectedOrder == old(selectedOrder) && currentPage == old(currentPage)
    {
      for i := 0 to |orders|
        invariant orderList == old(orderList) + Listed(orders[..i])
        invariant selectedOrder == old(selectedOrder) && currentPage == old(currentPage)
      {
        assert orders[..i + 1][..i] == orders[..i];
        if Truthy(orders[i].phone) {
          orderList := orderList + [EntryOf(orders[i])];
        }
      }
      assert orders[..|orders|] == orders;
    }

    /** `fetchAndDisplayOrders()`. */
    method FetchAndDisplayOrders(feed: Api.Query -> Api.FeedReply)
      requires Valid()
      modifies this, db
      ensures Synced(old(currentPage), feed)
      ensures currentPage == old(currentPage)
    {
      var lastStoredId := db.LastStoredOrderId();
      var fetched := Api.FetchOrdersPaginated(currentPage, OrdersPerPage, lastStoredId, feed);
      if fetched.Err? {
        orderList := [Notice(FailedNotice)];
        return;
      }
      var orders := fetched.value;
      if |orders| == 0 {
        orderList := [Notice(EmptyNotice)];
        return;
      }
      ListPage(orders);
      db.StoreOrders(orders);
    }

    /** The "load more" button: the page number goes up before the sync. */
    method LoadMore(feed: Api.Query -> Api.FeedReply)
      requires Valid()
      modifies this, db
      ensures currentPage == old(currentPage) + 1
      ensures Synced(old(currentPage) + 1, feed)
    {
      currentPage := currentPage + 1;
      FetchAndDisplayOrders(feed);
    }

    /** A click on an order: `selectedOrder = getOrder(parseInt(orderId))`. */
    method SelectOrder(orderId: Option<int>)
      requires Valid()
      modifies this
      ensures selectedOrder == (if orderId.Some? then db.GetOrder(orderId.value) else None)
      ensures currentPage == old(currentPage) && orderList == old(orderList)
    {
      selectedOrder := if orderId.Some? then db.GetOrder(orderId.value) else None;
    }

    /**
     * The `try` block of both submit handlers: the send, then, when it is
     * delivered, `storeMessage` of one "sent" row. A failed send stores nothing.
     */
    method Deliver(order: Store.Order, text: string, file: Option<Api.MediaFile>,
                   cfg: Api.Config, posts: seq<Api.PostOutcome>, at: string)
      returns (r: Result<Delivery, Api.SendError>)
      requires db.Valid() && Api.Resolves(posts, cfg.retryAttempts, 0)
      modifies db
      ensures db.Valid()
      ensures r == Attempt(order, text, file, cfg, posts, old(db.messageSeq), at)
      ensures Store.Grown(Store.SnapshotOf(db), old(Store.SnapshotOf(db)), if r.Ok? then [SentRow(r.value)] else [])
    {
      var sent, payload, made, waits := Api.SendWhatsAppMessage(cfg, order.phone, text, order.id, file, None, posts);
      if sent.Err? {
        return Err(sent.error);
      }
      var rec := Store.MessageRecord(
        Some(order.id), Some(order.phone), Some(text), Some("sent"), Some("sent"),
        OrNull(sent.value.mediaUrl), MediaName(sent.value.mediaType), Some(at));
      var d := Delivery(order, text, sent.value, db.messageSeq + 1, at);
      assert rec == SentRecord(d);
      var stored := db.StoreMessage(rec);
      r := Ok(d);
    }

    /**
     * The submit handler of the send form: a delivered message is stored as
     * one "sent" row; every other outcome leaves the store as it was.
     */
    method SubmitMessage(input: string, template: string, file: Option<Api.MediaFile>,
                         cfg: Api.Config, posts: seq<Api.PostOutcome>, at: string)
      returns (outcome: SubmitOutcome)
      requires Valid() && Api.Resolves(posts, cfg.retryAttempts, 0)
      modifies db
      ensures Valid()
      ensures outcome == Submit(selectedOrder, input, template, file, cfg, posts, old(db.messageSeq), at)
      ensures Store.Grown(Store.SnapshotOf(db), old(Store.SnapshotOf(db)),
                          if outcome.Sent? then [SentRow(outcome.delivery)] else [])
    {
      if selectedOrder.None? {
        return NoOrderSelected;
      }
      var msg := ChosenText(input, template);
      if msg == "" && file.None? {
        return EmptyMessage;
      }
      var r := Deliver(selectedOrder.value, msg, file, cfg, posts, at);
      outcome := if r.Ok? then Sent(r.value) else SendFailed(r.error);
    }

    /** The body of the broadcast loop: the send to the order at position `i`, when it has a phone. */
    method BroadcastAt(orders: seq<Store.Order>, i: nat, msg: string, cfg: Api.Config,
                       api: nat -> seq<Api.PostOutcome>, clock: nat -> string,
                       ghost before: Store.Snapshot, ghost done: seq<Delivery>, ghost target: seq<Delivery>)
      returns (ghost next: seq<Delivery>)
      requires db.Valid() && Answered(cfg, api) && i < |orders|
      requires Store.Grown(Store.SnapshotOf(db), before, SentRows(done))
      requires target == done + Deliveries(orders, i, db.messageSeq, msg, cfg, api, clock)
      modifies db
      ensures db.Valid()
      ensures Store.Grown(Store.SnapshotOf(db), before, SentRows(next))
      ensures target == next + Deliveries(orders, i + 1, db.messageSeq, msg, cfg, api, clock)
    {
      next := done;
      if orders[i].phone != "" {
        ghost var mid := Store.SnapshotOf(db);
        var r := Deliver(orders[i], msg, None, cfg, api(i), clock(i));
        next := BroadcastStep(before, mid, Store.SnapshotOf(db), done, orders, i, msg, cfg, api, clock, r, target);
      }
    }

    /**
     * The submit handler of the broadcast form: an absent or empty text is
     * rejected; otherwise every order with a phone is sent the text in
     * `getAllOrders` order, a failed send is skipped, and each delivered one
     * is stored as a "sent" row.
     */
    method Broadcast(text: Option<string>, cfg: Api.Config, api: nat -> seq<Api.PostOutcome>, clock: nat -> string)
      returns (outcome: BroadcastOutcome)
      requires Valid() && Answered(cfg, api)
      modifies db
      ensures Valid()
      ensures outcome == BroadcastSent <==> Truthy(text)
      ensures Store.Grown(Store.SnapshotOf(db), old(Store.SnapshotOf(db)),
                          if Truthy(text) then SentRows(Deliveries(old(db.orders), 0, old(db.messageSeq), text.value, cfg, api, clock))
                          else [])
    {
      if !Truthy(text) {
        return EmptyBroadcast;
      }
      var msg := text.value;
      var orders := db.GetAllOrders();
      ghost var before := Store.SnapshotOf(db);
      ghost var target := Deliveries(orders, 0, before.messageSeq, msg, cfg, api, clock);
      ghost var done: seq<Delivery> := [];
      for i := 0 to |orders|
        invariant db.Valid()
        invariant Store.Grown(Store.SnapshotOf(db), before, SentRows(done))
        invariant target == done + Deliveries(orders, i, db.messageSeq, msg, cfg, api, clock)
      {
        done := BroadcastAt(orders, i, msg, cfg, api, clock, before, done, target);
      }
      assert done + [] == done;
      outcome := BroadcastSent;
    }
  }
}
