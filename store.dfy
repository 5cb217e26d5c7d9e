/**
 * The local SQLite store of db.js: the tables `orders`, `messages` and
 * `templates` and the queries the bridge runs against them.
 *
 * Each table is a sequence of rows in rowid order. Every table declares
 * `id INTEGER PRIMARY KEY AUTOINCREMENT`, so `id` is the rowid and a NULL id is
 * replaced by one more than the largest id the table has ever held; that
 * largest id (SQLite's `sqlite_sequence` entry) is kept beside each table.
 * The only statement failures modelled are the schema's NOT NULL constraints.
 */
module Store {
  import opened Wrappers

  // ---------------------------------------------------------------------------
  // Rows and the values bound to the INSERT statements

  /** A row of `orders`. */
  datatype Order = Order(id: int, phone: string, customerName: string, orderNumber: string, date: string)

  /** The values `storeOrders` binds for one order; None binds NULL. */
  datatype OrderRecord = OrderRecord(
    id: Option<int>, phone: Option<string>, customerName: Option<string>,
    orderNumber: Option<string>, date: Option<string>)

  /** A row of `messages`. */
  datatype Message = Message(
    id: int, orderId: int, phone: string, text: string, direction: string, status: string,
    mediaUrl: Option<string>, mediaType: Option<string>, createdAt: string)

  /** The values `storeMessage` binds; None binds NULL. */
  datatype MessageRecord = MessageRecord(
    orderId: Option<int>, phone: Option<string>, text: Option<string>,
    direction: Option<string>, status: Option<string>,
    mediaUrl: Option<string>, mediaType: Option<string>, createdAt: Option<string>)

  /** A row of `templates`. */
  datatype Template = Template(id: int, name: string, text: string)

  /** The error a statement fails with: "NOT NULL constraint failed: <table>.<column>". */
  datatype StoreError = NotNullFailed(column: string)

  /** The media types the bridge writes into `messages.media_type`. */
  datatype MediaKind = Image | Video | Document

  function KindName(k: MediaKind): (r: string)
    ensures r in {"image", "video", "document"}
  {
    match k
    case Image => "image"
    case Video => "video"
    case Document => "document"
  }

  // ---------------------------------------------------------------------------
  // The orders table

  /** The rows of `orders` with the table's AUTOINCREMENT counter. */
  datatype OrdersTable = OrdersTable(rows: seq<Order>, counter: int)

  predicate OrderIdsAscending(rows: seq<Order>) {
    forall i, j :: 0 <= i < j < |rows| ==> rows[i].id < rows[j].id
  }

  predicate HasOrderId(rows: seq<Order>, id: int) {
    exists i :: 0 <= i < |rows| && rows[i].id == id
  }

  /**
   * The table invariant: rows in ascending id (rowid) order, no id above the
   * counter, and no id 0 (a zero id is bound as NULL, and fresh ids start at 1).
   */
  predicate OrdersValid(t: OrdersTable) {
    && OrderIdsAscending(t.rows)
    && t.counter >= 0
    && forall i :: 0 <= i < |t.rows| ==> t.rows[i].id <= t.counter && t.rows[i].id != 0
  }

  /** Two rows of an ascending table never share an id. */
  lemma AscendingIdsUnique(rows: seq<Order>, x: Order, y: Order)
    requires OrderIdsAscending(rows)
    requires x in rows && y in rows && x.id == y.id
    ensures x == y
  {
    var i :| 0 <= i < |rows| && rows[i] == x;
    var j :| 0 <= j < |rows| && rows[j] == y;
    if i < j {
      assert rows[i].id < rows[j].id;
    } else if j < i {
      assert rows[j].id < rows[i].id;
    }
  }

  /** The rows after the first of an ascending table are ascending and have larger ids. */
  lemma OrderTail(rows: seq<Order>)
    requires OrderIdsAscending(rows) && rows != []
    ensures OrderIdsAscending(rows[1..])
    ensures forall x :: x in rows[1..] ==> rows[0].id < x.id
  {
    forall x | x in rows[1..] ensures rows[0].id < x.id {
      var k :| 0 <= k < |rows[1..]| && rows[1..][k] == x;
      assert rows[k + 1] == x;
    }
  }

  lemma OrderCons(o: Order, rows: seq<Order>)
    requires OrderIdsAscending(rows)
    requires forall x :: x in rows ==> o.id < x.id
    ensures OrderIdsAscending([o] + rows)
  {
    var r := [o] + rows;
    forall i, j | 0 <= i < j < |r| ensures r[i].id < r[j].id {
      if i == 0 {
        assert r[j] == rows[j - 1];
        assert rows[j - 1] in rows;
      }
    }
  }

  /** `INSERT OR REPLACE` of a complete row: the row with the same id, if any, is replaced. */
  function Upsert(rows: seq<Order>, o: Order): (r: seq<Order>)
    requires OrderIdsAscending(rows)
    ensures OrderIdsAscending(r)
    ensures forall x :: x in r <==> x == o || (x in rows && x.id != o.id)
  {
    if rows == [] then [o]
    else
      OrderTail(rows);
      assert rows == [rows[0]] + rows[1..];
      if rows[0].id < o.id then
        var rest := Upsert(rows[1..], o);
        OrderCons(rows[0], rest);
        [rows[0]] + rest
      else if rows[0].id == o.id then
        OrderCons(o, rows[1..]);
        [o] + rows[1..]
      else
        OrderCons(o, rows);
        [o] + rows
  }

  /** Replacing keeps the row count; inserting a new id adds one row. */
  lemma {:induction false} UpsertLength(rows: seq<Order>, o: Order)
    requires OrderIdsAscending(rows)
    ensures |Upsert(rows, o)| == if HasOrderId(rows, o.id) then |rows| else |rows| + 1
  {
    if rows != [] {
      OrderTail(rows);
      if rows[0].id < o.id {
        UpsertLength(rows[1..], o);
        assert HasOrderId(rows, o.id) == HasOrderId(rows[1..], o.id) by {
          if HasOrderId(rows, o.id) {
            var k :| 0 <= k < |rows| && rows[k].id == o.id;
            assert rows[1..][k - 1].id == o.id;
          }
          if HasOrderId(rows[1..], o.id) {
            var k :| 0 <= k < |rows[1..]| && rows[1..][k].id == o.id;
            assert rows[k + 1].id == o.id;
          }
        }
      } else if rows[0].id > o.id {
        assert !HasOrderId(rows, o.id) by {
          forall k | 0 <= k < |rows| ensures rows[k].id != o.id {
            if k > 0 {
              assert rows[k] in rows[1..];
            }
          }
        }
      }
    }
  }

  lemma ConsSnoc<T>(s: seq<T>, y: T)
    requires s != []
    ensures [s[0]] + (s[1..] + [y]) == s + [y]
  {
    assert s == [s[0]] + s[1..];
  }

  /** Below the new id, the first row stays first and the rest of the table is updated. */
  lemma UpsertBelow(rows: seq<Order>, o: Order)
    requires OrderIdsAscending(rows) && rows != [] && rows[0].id < o.id
    ensures OrderIdsAscending(rows[1..])
    ensures Upsert(rows, o) == [rows[0]] + Upsert(rows[1..], o)
  {
    OrderTail(rows);
  }

  /** An order whose id is larger than every stored id is appended at the end. */
  lemma {:induction false} UpsertLargest(rows: seq<Order>, o: Order)
    requires OrderIdsAscending(rows)
    requires forall i :: 0 <= i < |rows| ==> rows[i].id < o.id
    ensures Upsert(rows, o) == rows + [o]
  {
    if rows != [] {
      var tail := rows[1..];
      UpsertBelow(rows, o);
      assert forall i :: 0 <= i < |tail| ==> tail[i].id < o.id by {
        assert forall i :: 0 <= i < |tail| ==> tail[i] == rows[i + 1];
      }
      UpsertLargest(tail, o);
      ConsSnoc(rows, o);
    }
  }

  /** `order.id || null`: an absent or zero id binds NULL. */
  function BoundId(id: Option<int>): (r: Option<int>)
    ensures r.Some? <==> id.Some? && id.value != 0
    ensures r.Some? ==> r == id
  {
    if id.Some? && id.value != 0 then id else None
  }

  /** The first NOT NULL column of `orders`, in schema order, that the record leaves NULL. */
  function OrderNullColumn(rec: OrderRecord): (r: Option<string>)
    ensures r.None? <==> rec.phone.Some? && rec.customerName.Some? && rec.orderNumber.Some? && rec.date.Some?
  {
    if rec.phone.None? then Some("orders.phone")
    else if rec.customerName.None? then Some("orders.customerName")
    else if rec.orderNumber.None? then Some("orders.orderNumber")
    else if rec.date.None? then Some("orders.date")
    else None
  }

  /** The id a record is stored under: its own, or the next AUTOINCREMENT value. */
  function AssignedId(t: OrdersTable, rec: OrderRecord): (id: int)
    requires OrdersValid(t)
    ensures id != 0
    ensures BoundId(rec.id).None? ==> !HasOrderId(t.rows, id)
  {
    match BoundId(rec.id)
    case Some(id) => id
    case None =>
      assert forall i :: 0 <= i < |t.rows| ==> t.rows[i].id != t.counter + 1;
      t.counter + 1
  }

  /** The row a complete record becomes. */
  function OrderRow(id: int, rec: OrderRecord): Order
    requires OrderNullColumn(rec).None?
  {
    Order(id, rec.phone.value, rec.customerName.value, rec.orderNumber.value, rec.date.value)
  }

  /**
   * One run of storeOrders' prepared `INSERT OR REPLACE`. A NOT NULL violation
   * aborts the statement (the columns have no default to fall back on), so the
   * table is left as it was.
   */
  function InsertOrReplace(t: OrdersTable, rec: OrderRecord): (r: OrdersTable)
    requires OrdersValid(t)
    ensures OrdersValid(r)
    ensures OrderNullColumn(rec).Some? ==> r == t
  {
    if OrderNullColumn(rec).Some? then t
    else
      var id := AssignedId(t, rec);
      var rows := Upsert(t.rows, OrderRow(id, rec));
      var r := OrdersTable(rows, if id > t.counter then id else t.counter);
      assert forall i :: 0 <= i < |rows| ==> rows[i] in rows;
      r
  }

  /**
   * Storing an order whose id is already in the table replaces that row:
   * afterwards exactly one row has the id, it holds the new fields, the other
   * rows are the same and the row count is unchanged.
   */
  lemma ReplaceExisting(t: OrdersTable, rec: OrderRecord, k: int)
    requires OrdersValid(t) && OrderNullColumn(rec).None?
    requires BoundId(rec.id) == Some(k) && HasOrderId(t.rows, k)
    ensures var r := InsertOrReplace(t, rec);
      && OrderRow(k, rec) in r.rows
      && (forall x :: x in r.rows && x.id == k ==> x == OrderRow(k, rec))
      && (forall x: Order :: x.id != k ==> (x in r.rows <==> x in t.rows))
      && |r.rows| == |t.rows|
  {
    UpsertLength(t.rows, OrderRow(k, rec));
  }

  /**
   * An order with a falsy id gets a fresh id, different from every id in the
   * table, and is appended after the existing rows, which are unchanged.
   */
  lemma FreshIdForNull(t: OrdersTable, rec: OrderRecord)
    requires OrdersValid(t) && OrderNullColumn(rec).None?
    requires BoundId(rec.id).None?
    ensures var r := InsertOrReplace(t, rec);
      && r.rows == t.rows + [OrderRow(t.counter + 1, rec)]
      && !HasOrderId(t.rows, t.counter + 1)
      && r.counter == t.counter + 1
  {
    UpsertLargest(t.rows, OrderRow(t.counter + 1, rec));
  }

  /** The table after storeOrders has run its statement once per record, in order. */
  function StoreAll(t: OrdersTable, batch: seq<OrderRecord>): (r: OrdersTable)
    requires OrdersValid(t)
    ensures OrdersValid(r)
    decreases |batch|
  {
    if batch == [] then t
    else InsertOrReplace(StoreAll(t, batch[..|batch| - 1]), batch[|batch| - 1])
  }

  /** The records of a batch that satisfy every NOT NULL constraint. */
  function Complete(batch: seq<OrderRecord>): (r: seq<OrderRecord>)
    ensures forall x :: x in r <==> x in batch && OrderNullColumn(x).None?
    decreases |batch|
  {
    if batch == [] then []
    else
      var last := batch[|batch| - 1];
      var prev := Complete(batch[..|batch| - 1]);
      assert batch == batch[..|batch| - 1] + [last];
      if OrderNullColumn(last).None? then prev + [last] else prev
  }

  /**
   * A record that violates a constraint is only logged: the batch stores exactly
   * what its complete records alone would store.
   */
  lemma {:induction false} StoreAllSkipsIncomplete(t: OrdersTable, batch: seq<OrderRecord>)
    requires OrdersValid(t)
    ensures StoreAll(t, batch) == StoreAll(t, Complete(batch))
    decreases |batch|
  {
    if batch != [] {
      var init := batch[..|batch| - 1];
      var last := batch[|batch| - 1];
      StoreAllSkipsIncomplete(t, init);
      var c := Complete(init);
      if OrderNullColumn(last).None? {
        assert Complete(batch) == c + [last];
        assert (c + [last])[..|c + [last]| - 1] == c;
      } else {
        assert Complete(batch) == c;
      }
    }
  }

  /**
   * The last complete record of a batch with a given (truthy) id decides that
   * row: later records with other ids, later id-less records, which get
   * fresh ids, and later incomplete records, which are skipped, leave it alone.
   */
  lemma {:induction false} LastWriteWins(t: OrdersTable, batch: seq<OrderRecord>, j: nat, k: int)
    requires OrdersValid(t)
    requires j < |batch| && OrderNullColumn(batch[j]).None? && BoundId(batch[j].id) == Some(k)
    requires forall l :: j < l < |batch| && BoundId(batch[l].id) == Some(k) ==> OrderNullColumn(batch[l]).Some?
    ensures var r := StoreAll(t, batch);
      OrderRow(k, batch[j]) in r.rows && forall x :: x in r.rows && x.id == k ==> x == OrderRow(k, batch[j])
    decreases |batch|
  {
    var init := batch[..|batch| - 1];
    var last := batch[|batch| - 1];
    var prev := StoreAll(t, init);
    var o := OrderRow(k, batch[j]);
    if j == |batch| - 1 {
      var r := InsertOrReplace(prev, last);
      assert r.rows == Upsert(prev.rows, o);
    } else {
      assert init[j] == batch[j];
      LastWriteWins(t, init, j, k);
      var r := InsertOrReplace(prev, last);
      assert o in prev.rows;
      if OrderNullColumn(last).None? {
        var id := AssignedId(prev, last);
        assert id != k by {
          if BoundId(last.id).None? {
            var i :| 0 <= i < |prev.rows| && prev.rows[i] == o;
            assert k <= prev.counter;
          }
        }
        assert r.rows == Upsert(prev.rows, OrderRow(id, last));
        assert o in r.rows;
        forall x | x in r.rows && x.id == k ensures x == o {
          AscendingIdsUnique(prev.rows, x, o);
        }
      }
    }
  }

  /** Storing two versions of one order leaves one row, holding the later version. */
  lemma LaterVersionWins(t: OrdersTable, a: OrderRecord, b: OrderRecord, k: int)
    requires OrdersValid(t)
    requires OrderNullColumn(a).None? && OrderNullColumn(b).None?
    requires BoundId(a.id) == Some(k) && BoundId(b.id) == Some(k)
    ensures var r := StoreAll(t, [a, b]);
      OrderRow(k, b) in r.rows && forall x :: x in r.rows && x.id == k ==> x == OrderRow(k, b)
  {
    LastWriteWins(t, [a, b], 1, k);
  }

  /** `SELECT * FROM orders WHERE id = ?` on an ascending table. */
  function FindById(rows: seq<Order>, id: int): (r: Option<Order>)
    ensures r.Some? ==> r.value in rows && r.value.id == id
    ensures r.None? <==> !HasOrderId(rows, id)
  {
    if rows == [] then None
    else if rows[0].id == id then Some(rows[0])
    else
      var r := FindById(rows[1..], id);
      assert HasOrderId(rows, id) ==> HasOrderId(rows[1..], id) by {
        if HasOrderId(rows, id) {
          var k :| 0 <= k < |rows| && rows[k].id == id;
          assert rows[1..][k - 1].id == id;
        }
      }
      assert r.Some? ==> HasOrderId(rows, id) by {
        if r.Some? {
          var k :| 0 <= k < |rows[1..]| && rows[1..][k] == r.value;
          assert rows[k + 1].id == id;
        }
      }
      r
  }

  /** `SELECT * FROM orders WHERE phone = ?`: the first matching row of a table scan. */
  function FindByPhone(rows: seq<Order>, phone: string): (r: Option<Order>)
    ensures r.Some? ==> r.value in rows && r.value.phone == phone
    ensures r.None? <==> forall x :: x in rows ==> x.phone != phone
  {
    if rows == [] then None
    else if rows[0].phone == phone then Some(rows[0])
    else
      assert rows == [rows[0]] + rows[1..];
      FindByPhone(rows[1..], phone)
  }

  // ---------------------------------------------------------------------------
  // The messages table

  predicate MessageIdsAscending(rows: seq<Message>) {
    forall i, j :: 0 <= i < j < |rows| ==> rows[i].id < rows[j].id
  }

  predicate MessagesValid(rows: seq<Message>, counter: int) {
    && MessageIdsAscending(rows)
    && counter >= 0
    && forall i :: 0 <= i < |rows| ==> rows[i].id <= counter
  }

  /** The first NOT NULL column of `messages`, in schema order, that the record leaves NULL. */
  function MessageNullColumn(rec: MessageRecord): (r: Option<string>)
    ensures r.None? <==>
      && rec.orderId.Some? && rec.phone.Some? && rec.text.Some?
      && rec.direction.Some? && rec.status.Some? && rec.createdAt.Some?
  {
    if rec.orderId.None? then Some("messages.order_id")
    else if rec.phone.None? then Some("messages.phone")
    else if rec.text.None? then Some("messages.message")
    else if rec.direction.None? then Some("messages.direction")
    else if rec.status.None? then Some("messages.status")
    else if rec.createdAt.None? then Some("messages.created_at")
    else None
  }

  /** The row a complete message record becomes under a given id. */
  function MessageRow(id: int, rec: MessageRecord): Message
    requires MessageNullColumn(rec).None?
  {
    Message(id, rec.orderId.value, rec.phone.value, rec.text.value, rec.direction.value,
            rec.status.value, rec.mediaUrl, rec.mediaType, rec.createdAt.value)
  }

  lemma MessageTail(rows: seq<Message>)
    requires rows != []
    ensures MessageIdsAscending(rows) ==> MessageIdsAscending(rows[1..])
    ensures MessageIdsAscending(rows) ==> forall x :: x in rows[1..] ==> rows[0].id < x.id
    ensures forall x :: x in rows <==> x == rows[0] || x in rows[1..]
  {
    assert rows == [rows[0]] + rows[1..];
    if MessageIdsAscending(rows) {
      forall x | x in rows[1..] ensures rows[0].id < x.id {
        var k :| 0 <= k < |rows[1..]| && rows[1..][k] == x;
        assert rows[k + 1] == x;
      }
    }
  }

  lemma MessageCons(m: Message, rows: seq<Message>)
    requires MessageIdsAscending(rows)
    requires forall x :: x in rows ==> m.id < x.id
    ensures MessageIdsAscending([m] + rows)
  {
    var r := [m] + rows;
    forall i, j | 0 <= i < j < |r| ensures r[i].id < r[j].id {
      if i == 0 {
        assert r[j] == rows[j - 1];
        assert rows[j - 1] in rows;
      }
    }
  }

  /** The messages of one phone thread, in table order (`WHERE phone = ?`). */
  function Thread(rows: seq<Message>, phone: string): (r: seq<Message>)
    ensures forall x :: x in r <==> x in rows && x.phone == phone
    ensures MessageIdsAscending(rows) ==> MessageIdsAscending(r)
  {
    if rows == [] then []
    else
      var rest := Thread(rows[1..], phone);
      MessageTail(rows);
      if rows[0].phone == phone then
        if MessageIdsAscending(rows) then MessageCons(rows[0], rest); [rows[0]] + rest
        else [rows[0]] + rest
      else rest
  }

  /** `DELETE FROM messages WHERE phone = ?`: the rows of every other phone, in order. */
  function WithoutThread(rows: seq<Message>, phone: string): (r: seq<Message>)
    ensures forall x :: x in r <==> x in rows && x.phone != phone
    ensures MessageIdsAscending(rows) ==> MessageIdsAscending(r)
  {
    if rows == [] then []
    else
      var rest := WithoutThread(rows[1..], phone);
      MessageTail(rows);
      if rows[0].phone != phone then
        if MessageIdsAscending(rows) then MessageCons(rows[0], rest); [rows[0]] + rest
        else [rows[0]] + rest
      else rest
  }

  /** Deleting a thread and keeping it split the table's rows between them. */
  lemma {:induction false} ThreadSplit(rows: seq<Message>, phone: string)
    ensures multiset(Thread(rows, phone)) + multiset(WithoutThread(rows, phone)) == multiset(rows)
  {
    if rows != [] {
      ThreadSplit(rows[1..], phone);
      assert rows == [rows[0]] + rows[1..];
      assert multiset(rows) == multiset{rows[0]} + multiset(rows[1..]);
      var t, w := Thread(rows[1..], phone), WithoutThread(rows[1..], phone);
      if rows[0].phone == phone {
        assert Thread(rows, phone) == [rows[0]] + t;
        assert WithoutThread(rows, phone) == w;
      } else {
        assert Thread(rows, phone) == t;
        assert WithoutThread(rows, phone) == [rows[0]] + w;
      }
    }
  }

  // ---------------------------------------------------------------------------
  // ORDER BY created_at: TEXT compared under the BINARY collation

  /** Code-point-wise lexicographic order, which is the byte order of the UTF-8 encoding. */
  predicate TextLe(a: string, b: string)
    decreases |a|
  {
    a == [] || (b != [] && (a[0] < b[0] || (a[0] == b[0] && TextLe(a[1..], b[1..]))))
  }

  lemma {:induction false} TextLeTotal(a: string, b: string)
    ensures TextLe(a, b) || TextLe(b, a)
    decreases |a|
  {
    if a != [] && b != [] && a[0] == b[0] {
      TextLeTotal(a[1..], b[1..]);
    }
  }

  lemma {:induction false} TextLeTransitive(a: string, b: string, c: string)
    requires TextLe(a, b) && TextLe(b, c)
    ensures TextLe(a, c)
    decreases |a|
  {
    if a != [] && b != [] && c != [] && a[0] == b[0] && b[0] == c[0] {
      TextLeTransitive(a[1..], b[1..], c[1..]);
    }
  }

  predicate SortedAscending(s: seq<Message>) {
    forall i, j :: 0 <= i < j < |s| ==> TextLe(s[i].createdAt, s[j].createdAt)
  }

  predicate SortedDescending(s: seq<Message>) {
    forall i, j :: 0 <= i < j < |s| ==> TextLe(s[j].createdAt, s[i].createdAt)
  }

  lemma SortedCons(m: Message, s: seq<Message>)
    requires SortedAscending(s)
    requires s != [] ==> TextLe(m.createdAt, s[0].createdAt)
    ensures SortedAscending([m] + s)
  {
    var r := [m] + s;
    forall i, j | 0 <= i < j < |r| ensures TextLe(r[i].createdAt, r[j].createdAt) {
      if i == 0 && j > 1 {
        TextLeTransitive(m.createdAt, s[0].createdAt, s[j - 1].createdAt);
      }
    }
  }

  /** Insertion of one row into a thread already sorted by time. */
  function InsertByTime(m: Message, s: seq<Message>): (r: seq<Message>)
    requires SortedAscending(s)
    ensures SortedAscending(r)
    ensures multiset(r) == multiset(s) + multiset{m}
  {
    if s == [] then [m]
    else if TextLe(m.createdAt, s[0].createdAt) then
      SortedCons(m, s);
      [m] + s
    else
      TextLeTotal(m.createdAt, s[0].createdAt);
      var rest := InsertByTime(m, s[1..]);
      assert s == [s[0]] + s[1..];
      assert rest[0] in multiset(s[1..]) + multiset{m};
      assert rest[0] == m || rest[0] in s[1..];
      SortedCons(s[0], rest);
      [s[0]] + rest
  }

  /** A stable insertion sort by `created_at`. */
  function SortByTime(s: seq<Message>): (r: seq<Message>)
    ensures SortedAscending(r)
    ensures multiset(r) == multiset(s)
  {
    if s == [] then []
    else
      assert s == [s[0]] + s[1..];
      InsertByTime(s[0], SortByTime(s[1..]))
  }

  function Reverse(s: seq<Message>): (r: seq<Message>)
    ensures |r| == |s|
    ensures forall i :: 0 <= i < |s| ==> r[i] == s[|s| - 1 - i]
    ensures multiset(r) == multiset(s)
  {
    if s == [] then []
    else
      assert s == [s[0]] + s[1..];
      Reverse(s[1..]) + [s[0]]
  }

  /** Reading an ascending order backwards gives a descending one. */
  lemma ReverseDescending(s: seq<Message>)
    requires SortedAscending(s)
    ensures SortedDescending(Reverse(s))
  {
    var r := Reverse(s);
    forall i, j | 0 <= i < j < |r| ensures TextLe(r[j].createdAt, r[i].createdAt) {
      assert r[i] == s[|s| - 1 - i] && r[j] == s[|s| - 1 - j];
    }
  }

  // ---------------------------------------------------------------------------
  // The templates table

  predicate TemplateIdsAscending(rows: seq<Template>) {
    forall i, j :: 0 <= i < j < |rows| ==> rows[i].id < rows[j].id
  }

  predicate TemplatesValid(rows: seq<Template>, counter: int) {
    && TemplateIdsAscending(rows)
    && counter >= 0
    && forall i :: 0 <= i < |rows| ==> rows[i].id <= counter
  }

  lemma TemplateTail(rows: seq<Template>)
    requires rows != []
    ensures TemplateIdsAscending(rows) ==> TemplateIdsAscending(rows[1..])
    ensures TemplateIdsAscending(rows) ==> forall x :: x in rows[1..] ==> rows[0].id < x.id
    ensures forall x :: x in rows <==> x == rows[0] || x in rows[1..]
  {
    assert rows == [rows[0]] + rows[1..];
    if TemplateIdsAscending(rows) {
      forall x | x in rows[1..] ensures rows[0].id < x.id {
        var k :| 0 <= k < |rows[1..]| && rows[1..][k] == x;
        assert rows[k + 1] == x;
      }
    }
  }

  lemma TemplateCons(t: Template, rows: seq<Template>)
    requires TemplateIdsAscending(rows)
    requires forall x :: x in rows ==> t.id < x.id
    ensures TemplateIdsAscending([t] + rows)
  {
    var r := [t] + rows;
    forall i, j | 0 <= i < j < |r| ensures r[i].id < r[j].id {
      if i == 0 {
        assert r[j] == rows[j - 1];
        assert rows[j - 1] in rows;
      }
    }
  }

  /** `DELETE FROM templates WHERE id = ?`. */
  function WithoutTemplate(rows: seq<Template>, id: int): (r: seq<Template>)
    ensures forall x :: x in r <==> x in rows && x.id != id
    ensures TemplateIdsAscending(rows) ==> TemplateIdsAscending(r)
  {
    if rows == [] then []
    else
      var rest := WithoutTemplate(rows[1..], id);
      TemplateTail(rows);
      if rows[0].id != id then
        if TemplateIdsAscending(rows) then TemplateCons(rows[0], rest); [rows[0]] + rest
        else [rows[0]] + rest
      else rest
  }

  // ---------------------------------------------------------------------------
  // The database connection

  class Database {
    var orders: seq<Order>
    var orderSeq: int
    var messages: seq<Message>
    var messageSeq: int
    var templates: seq<Template>
    var templateSeq: int

    ghost predicate Valid()
      reads this
    {
      && OrdersValid(OrdersTable(orders, orderSeq))
      && MessagesValid(messages, messageSeq)
      && TemplatesValid(templates, templateSeq)
    }

    /** The three `CREATE TABLE IF NOT EXISTS` statements on a new database file. */
    constructor ()
      ensures Valid()
      ensures orders == [] && messages == [] && templates == []
    {
      orders, orderSeq := [], 0;
      messages, messageSeq := [], 0;
      templates, templateSeq := [], 0;
    }

    /** One run of storeOrders' prepared statement. */
    method InsertOrderRow(rec: OrderRecord) returns (r: Outcome<StoreError>)
      requires Valid()
      modifies this
      ensures Valid()
      ensures OrdersTable(orders, orderSeq) == InsertOrReplace(OrdersTable(old(orders), old(orderSeq)), rec)
      ensures r == match OrderNullColumn(rec) case Some(c) => Fail(NotNullFailed(c)) case None => Pass
      ensures messages == old(messages) && messageSeq == old(messageSeq)
      ensures templates == old(templates) && templateSeq == old(templateSeq)
    {
      var t := InsertOrReplace(OrdersTable(orders, orderSeq), rec);
      orders, orderSeq := t.rows, t.counter;
      match OrderNullColumn(rec)
      case Some(c) => r := Fail(NotNullFailed(c));
      case None => r := Pass;
    }

    /**
     * `storeOrders`: the statement runs once per order; a failing order is only
     * logged and the call still resolves.
     */
    method StoreOrders(batch: seq<OrderRecord>)
      requires Valid()
      modifies this
      ensures Valid()
      ensures OrdersTable(orders, orderSeq) == StoreAll(OrdersTable(old(orders), old(orderSeq)), batch)
      ensures messages == old(messages) && messageSeq == old(messageSeq)
      ensures templates == old(templates) && templateSeq == old(templateSeq)
    {
      for i := 0 to |batch|
        invariant Valid()
        invariant OrdersTable(orders, orderSeq) == StoreAll(OrdersTable(old(orders), old(orderSeq)), batch[..i])
        invariant messages == old(messages) && messageSeq == old(messageSeq)
        invariant templates == old(templates) && templateSeq == old(templateSeq)
      {
        var logged := InsertOrderRow(batch[i]);
        assert batch[..i + 1][..i] == batch[..i];
      }
      assert batch[..|batch|] == batch;
    }

    /** `getOrder(orderId)`: the row with that id, if there is one. */
    function GetOrder(orderId: int): (r: Option<Order>)
      reads this
      requires Valid()
      ensures r.Some? ==> r.value in orders && r.value.id == orderId
      ensures r.None? <==> forall x :: x in orders ==> x.id != orderId
    {
      FindById(orders, orderId)
    }

    /**
     * `getOrderByPhone(phone)`: some row with that phone, or none when no row
     * has it. An absent phone binds NULL, and `phone = NULL` matches no row.
     */
    function GetOrderByPhone(phone: Option<string>): (r: Option<Order>)
      reads this
      requires Valid()
      ensures r.Some? ==> phone.Some? && r.value in orders && r.value.phone == phone.value
      ensures r.None? <==> phone.None? || forall x :: x in orders ==> x.phone != phone.value
    {
      if phone.None? then None else FindByPhone(orders, phone.value)
    }

    /** `getAllOrders()`: every row once, in ascending id order. */
    function GetAllOrders(): (r: seq<Order>)
      reads this
      requires Valid()
      ensures OrderIdsAscending(r)
      ensures forall x :: x in r <==> x in orders
    {
      orders
    }

    /** `getLastStoredOrderId()`: `MAX(id)`, or 0 for an empty table. */
    function LastStoredOrderId(): (r: int)
      reads this
      requires Valid()
      ensures orders == [] ==> r == 0
      ensures orders != [] ==> HasOrderId(orders, r) && forall x :: x in orders ==> x.id <= r
    {
      if orders == [] then 0
      else
        assert forall x :: x in orders ==> x.id <= orders[|orders| - 1].id by {
          forall x | x in orders ensures x.id <= orders[|orders| - 1].id {
            var i :| 0 <= i < |orders| && orders[i] == x;
          }
        }
        orders[|orders| - 1].id
    }

    /** `storeMessage(message)`: appends exactly one row, or fails on a NULL column. */
    method StoreMessage(rec: MessageRecord) returns (r: Outcome<StoreError>)
      requires Valid()
      modifies this
      ensures Valid()
      ensures r == match MessageNullColumn(rec) case Some(c) => Fail(NotNullFailed(c)) case None => Pass
      ensures r.Pass? ==> messages == old(messages) + [MessageRow(old(messageSeq) + 1, rec)] && messageSeq == old(messageSeq) + 1
      ensures r.Fail? ==> messages == old(messages) && messageSeq == old(messageSeq)
      ensures orders == old(orders) && orderSeq == old(orderSeq)
      ensures templates == old(templates) && templateSeq == old(templateSeq)
    {
      match MessageNullColumn(rec)
      case Some(c) =>
        r := Fail(NotNullFailed(c));
      case None =>
        messages := messages + [MessageRow(messageSeq + 1, rec)];
        messageSeq := messageSeq + 1;
        r := Pass;
    }

    /** `getMessages(phone)`: the thread, ordered by `created_at` ascending. */
    function GetMessages(phone: string): (r: seq<Message>)
      reads this
      requires Valid()
      ensures SortedAscending(r)
      ensures multiset(r) == multiset(Thread(messages, phone))
      ensures forall x :: x in r <==> x in messages && x.phone == phone
    {
      var r := SortByTime(Thread(messages, phone));
      assert forall x :: x in r <==> x in multiset(r);
      r
    }

    /** `getAllMessages()`: every row, ordered by `created_at` descending. */
    function GetAllMessages(): (r: seq<Message>)
      reads this
      requires Valid()
      ensures SortedDescending(r)
      ensures multiset(r) == multiset(messages)
    {
      var s := SortByTime(messages);
      ReverseDescending(s);
      Reverse(s)
    }

    /** `addTemplate(name, text)`: appends one row, or fails on a NULL column. */
    method AddTemplate(name: Option<string>, text: Option<string>) returns (r: Outcome<StoreError>)
      requires Valid()
      modifies this
      ensures Valid()
      ensures name.None? ==> r == Fail(NotNullFailed("templates.template_name"))
      ensures name.Some? && text.None? ==> r == Fail(NotNullFailed("templates.template_text"))
      ensures r.Pass? <==> name.Some? && text.Some?
      ensures r.Pass? ==> templates == old(templates) + [Template(old(templateSeq) + 1, name.value, text.value)]
                          && templateSeq == old(templateSeq) + 1
      ensures r.Fail? ==> templates == old(templates) && templateSeq == old(templateSeq)
      ensures orders == old(orders) && orderSeq == old(orderSeq)
      ensures messages == old(messages) && messageSeq == old(messageSeq)
    {
      if name.None? {
        r := Fail(NotNullFailed("templates.template_name"));
      } else if text.None? {
        r := Fail(NotNullFailed("templates.template_text"));
      } else {
        templates := templates + [Template(templateSeq + 1, name.value, text.value)];
        templateSeq := templateSeq + 1;
        r := Pass;
      }
    }

    /** `getTemplates()`: every row once, in ascending id order. */
    function GetTemplates(): (r: seq<Template>)
      reads this
      requires Valid()
      ensures TemplateIdsAscending(r)
      ensures forall x :: x in r <==> x in templates
    {
      templates
    }

    /** `deleteTemplate(id)`: removes the template with that id and no other. */
    method DeleteTemplate(id: int)
      requires Valid()
      modifies this
      ensures Valid()
      ensures templates == WithoutTemplate(old(templates), id)
      ensures forall x :: x in templates <==> x in old(templates) && x.id != id
      ensures templateSeq == old(templateSeq)
      ensures orders == old(orders) && orderSeq == old(orderSeq)
      ensures messages == old(messages) && messageSeq == old(messageSeq)
    {
      var kept := WithoutTemplate(templates, id);
      assert forall i :: 0 <= i < |kept| ==> kept[i] in templates;
      templates := kept;
    }

    /** `deleteMessages(phone)`: removes every row of that phone and no other row. */
    method DeleteMessages(phone: string)
      requires Valid()
      modifies this
      ensures Valid()
      ensures messages == WithoutThread(old(messages), phone)
      ensures forall x :: x in messages <==> x in old(messages) && x.phone != phone
      ensures messageSeq == old(messageSeq)
      ensures orders == old(orders) && orderSeq == old(orderSeq)
      ensures templates == old(templates) && templateSeq == old(templateSeq)
    {
      var kept := WithoutThread(messages, phone);
      assert forall i :: 0 <= i < |kept| ==> kept[i] in messages;
      messages := kept;
    }
  }

  // ---------------------------------------------------------------------------
  // The whole store at one moment

  /** The tables and counters of a database at one moment. */
  datatype Snapshot = Snapshot(
    orders: seq<Order>, orderSeq: int, messages: seq<Message>, messageSeq: int,
    templates: seq<Template>, templateSeq: int)

  ghost function SnapshotOf(db: Database): Snapshot
    reads db
  {
    Snapshot(db.orders, db.orderSeq, db.messages, db.messageSeq, db.templates, db.templateSeq)
  }

  /** `now` is `before` with `rows` appended to its messages, and nothing else changed. */
  predicate Grown(now: Snapshot, before: Snapshot, rows: seq<Message>) {
    && now.messages == before.messages + rows
    && now.messageSeq == before.messageSeq + |rows|
    && now.orders == before.orders && now.orderSeq == before.orderSeq
    && now.templates == before.templates && now.templateSeq == before.templateSeq
  }

  lemma GrownTrans(a: Snapshot, b: Snapshot, c: Snapshot, r1: seq<Message>, r2: seq<Message>)
    requires Grown(b, a, r1) && Grown(c, b, r2)
    ensures Grown(c, a, r1 + r2)
  {
    assert a.messages + r1 + r2 == a.messages + (r1 + r2);
  }
}
