# WhatsApp / WooCommerce bridge: a Dafny model of its core

The bridge is a small desktop tool. It pulls orders from a WooCommerce shop and keeps them in a local SQLite file. It sends order customers WhatsApp messages through the Meta Cloud API, and it records inbound WhatsApp messages that Meta posts to a webhook. This project models the four pieces of sequential logic behind it, and proves what each one promises:

- `store.dfy` (module `Store`) is the local store of `db.js`. The class `Database` holds the tables `orders`, `messages` and `templates` as sequences of rows in rowid order, each with the AUTOINCREMENT counter SQLite keeps in `sqlite_sequence`.
  - Inserts, the `INSERT OR REPLACE` upsert and the deletes are methods that change these fields.
  - The queries are functions that read them.
  - The only statement failures modelled are the schema's NOT NULL constraints.
- `api.js` is modelled by modules `Api` and `JsString`:
  - `api.dfy` (module `Api`) holds the order-feed normalisation, the payload construction and media classification, the bounded retry loop of the WhatsApp send, and the chat view over the store. The WooCommerce feed is a function from the query to its reply. The WhatsApp API is a script of per-POST outcomes. The pause between attempts is counted.
  - `jsstring.dfy` (module `JsString`) holds the JavaScript string built-ins the code relies on: digit stripping, `trim`, `includes` and `||` on strings.
- `webhook.dfy` (module `Webhook`) is `webhook-server.js`:
  - the GET handshake decision;
  - the POST handler, which walks the envelope (entries, then changes, then messages) and appends one "received" row per message.
- `renderer.dfy` (module `Renderer`) is the non-DOM logic of `renderer.js`. The class `Session` holds the module state (`selectedOrder`, `currentPage`) and the entries of the order list. Its methods are:
  - the sync step;
  - "load more";
  - order selection;
  - the send-form submit handler;
  - the broadcast submit handler.
- `wrappers.dfy` (module `Wrappers`) holds `Option`, `Result` and `Outcome`.

The clock is a parameter in all three places that take timestamps:
- the webhook takes a function from a message's position in the request to the ISO timestamp taken for it;
- the send form takes the timestamp of its one message (`at` of `Renderer.Submit` and `Renderer.Session.SubmitMessage`);
- the broadcast takes a function from an order's position in the list.

Three behaviours of the code are worth stating:
- A webhook message from a phone that matches no order is stored under order id 0. No order is created, and `orders` is never touched (`Webhook.OrderIdForFacts`, `Webhook.HandleWebhook`).
- In the send's retry loop, an answer that is neither thrown nor a 200 uses no attempt, so the loop posts again (`Api.NonOkResponseIsNoAttempt`).
- In the webhook's POST handler, a failure storing one message ends the loops: the handler answers 500, and the messages after it are not stored (`Webhook.StoredRows`).

A sync step adds the listed entries after the ones already on screen instead of replacing them (`Renderer.Session.Synced`). Each request sends `after_id` set to the largest stored id when that id is positive, and leaves it out on an empty table. The same orders are listed a second time only when the shop answers with orders it has already sent, for example one that ignores `after_id`. The model keeps this behaviour.

## Model

| member | source | states |
|---|---|---|
| Store.Database.constructor | db.js:13-45 | A new database has three empty tables and satisfies the table invariants. |
| Store.OrderNullColumn | db.js:15-21 | The statement fails exactly when one of phone, customerName, orderNumber or date is NULL. |
| Store.BoundId | db.js:57 | `order.id \|\| null`: an absent or zero id binds NULL, and any other id is bound as given. |
| Store.FindById | db.js:83-85 | The lookup returns a row with the requested id, and returns none exactly when no row has that id. |
| Store.Upsert | db.js:50-53 | `INSERT OR REPLACE` on the rowid-ordered table: ids stay ascending. The rows afterwards are the new row plus every old row with another id. |
| Store.UpsertLength | db.js:51-53 | Replacing keeps the row count; inserting a new id adds exactly one row. |
| Store.InsertOrReplace | db.js:50-67 | One run of the upsert keeps the table invariant (ascending ids, ids within the counter, no id 0). A record with a NULL column leaves the table unchanged. |
| Store.ReplaceExisting | db.js:50-61 | Storing an order whose id is already present leaves exactly one row with that id, holding the new fields. Every row with another id is kept, and no row is added. |
| Store.FreshIdForNull | db.js:51-57 | An order with a falsy id gets an id that no stored row has (`Store.AssignedId`). It is appended after the existing rows, which are unchanged, and the counter advances by one. |
| Store.StoreAll | db.js:55-68 | The `for` loop over the batch, one statement per record, keeps the table invariant. |
| Store.StoreAllSkipsIncomplete | db.js:55-67 | A batch stores exactly what its complete records alone store: a record that breaks a NOT NULL constraint is skipped, and the others are still stored. |
| Store.LastWriteWins | db.js:55-68 | Within a batch, the last complete record carrying a given id decides the row with that id. Later records with other ids, later records without an id and later incomplete records with the same id all leave it alone. |
| Store.LaterVersionWins | db.js:50-68 | Two versions of one order leave a single row, holding the later version. |
| Store.Database.InsertOrderRow | db.js:56-67 | One statement run: the orders table becomes `InsertOrReplace` of the old table, the outcome names the NULL column, and the other tables are unchanged. |
| Store.Database.StoreOrders | db.js:47-79 | The orders table becomes the old table with every record of the batch stored in order. Messages and templates are unchanged. |
| Store.Database.GetOrder | db.js:81-94 | The order returned is a stored row with the requested id, and none is returned exactly when no row has that id. |
| Store.Database.GetOrderByPhone | db.js:96-109 | Some stored order with that phone, or none exactly when no order has it. An absent phone binds NULL and matches no row. |
| Store.Database.GetAllOrders | db.js:111-122 | Exactly the stored orders, in ascending id order. |
| Store.MessageNullColumn | db.js:24-36 | A message fails exactly when order_id, phone, message, direction, status or created_at is NULL. media_url and media_type may be NULL. |
| Store.Database.StoreMessage | db.js:124-147 | A complete record appends exactly one row under the next id, with the given fields, and leaves the existing rows alone. A record with a NULL column fails and changes nothing. |
| Store.SortByTime | db.js:165 | The result is sorted by created_at under byte order, and it is a permutation of the input. |
| Store.ReverseDescending | db.js:180 | Reading an ascending order backwards gives a descending one. |
| Store.Database.GetMessages | db.js:162-175 | A permutation of exactly the rows with that phone, sorted by created_at ascending. |
| Store.Database.GetAllMessages | db.js:177-190 | A permutation of all rows, sorted by created_at descending. |
| Store.Database.AddTemplate | db.js:192-206 | Appends one template under the next id, or fails on a NULL name or text and changes nothing. |
| Store.Database.GetTemplates | db.js:208-219 | Exactly the stored templates, in ascending id order. |
| Store.Database.DeleteTemplate | db.js:221-232 | Removes the template with that id and no other. |
| Store.Database.DeleteMessages | db.js:234-245 | Removes every row with that phone and no row of any other phone. The counter is unchanged. |
| Store.ThreadSplit | db.js:234-245 | The rows of one phone and the rows that its deletion keeps together make up the whole table, as multisets. |
| Store.Database.LastStoredOrderId | db.js:247-258 | The largest stored id, or 0 for an empty table. |
| JsString.DigitsOnly | api.js:36 | `replace(/[^0-9]/g, '')`: the result holds digits only and is no longer than the input. |
| Api.NormalizePhone | api.js:36 | The normalised phone holds digits only. A missing billing object or phone gives "". |
| JsString.DigitsOnlyIsSubsequence | api.js:36 | The digits are kept in their original order. |
| JsString.DigitsOnlyCounts | api.js:36 | Every digit keeps its number of occurrences, and every other character is removed. |
| JsString.DigitsOnlyIdempotent | api.js:36 | Stripping non-digits twice gives the same result as once. |
| Api.NormalizePhoneIdempotent | api.js:36 | Normalising an already normalised phone leaves it as it is. |
| Api.NormalizePhoneExample | api.js:36 | "+1 23" normalises to "123". |
| JsString.Trim | api.js:37 | The trimmed name has no white space at either end, and it is empty exactly when the input is all white space. |
| JsString.TrimIsSlice | api.js:37 | `trim` removes white space from the two ends and nothing else. |
| JsString.TrimIdempotent | api.js:37 | Trimming twice gives the same result as once. |
| Api.CustomerName | api.js:37-41 | The name is `trim(first + " " + last)`, with missing parts as "", or "Unknown" when nothing but white space is left. It is never empty. |
| Api.NormalizePage | api.js:35-45 | One record per fetched order, in the same order. Each carries the order's id, `number` as orderNumber and `date_created` as date. Its phone is the normalised billing phone, digits only. Its name is the billing name from `CustomerName`, which is never empty. |
| Api.NormalizedOrderStoredIff | api.js:38-44 | A normalised order always has a phone and a name, so the store rejects it exactly when the number or the date is missing. |
| Api.OrdersQuery | api.js:19-25 | The query carries the page and page size, and `after_id` is sent exactly when lastStoredId is positive. |
| Api.FetchOrdersPaginated | api.js:16-53 | A page becomes its normalised records, so an empty page gives []. A failed request becomes the "Failed to fetch orders: " error. |
| Api.Classify | api.js:76-82 | The type is image when the link contains "image". Otherwise it is video when the link contains "video", and document otherwise. |
| Api.ClassifyExamples | api.js:76-82 | A link naming both an image and a video is an image, a ".mp4" link under /video/ is a video, and a PDF name is a document. |
| Api.BuildPayload | api.js:64-92 | Exactly one shape is built. With a truthy link, it has the link's type and `{link, caption: message \|\| null}`. Without one, it has type "text" and the message as body. |
| Api.RetryLoop | api.js:102-123 | The retry loop as a function of the POST script: at most one POST per scripted outcome, and at most one pause per POST. `Api.RetryRunFacts` states where it stops. |
| Api.PostWithRetry | api.js:102-123 | The imperative `while` loop gives exactly the run `Api.RetryLoop` describes: delivered, last error, POSTs made and pauses. |
| Api.RetryRunFacts | api.js:102-123 | The loop stops at the first 200, or at the throw that uses up the attempts. Only throws count as attempts. A failure carries the last error and takes `retryAttempts - 1` pauses, with none after the last throw. |
| Api.RetryDeliversWithinBudget | api.js:106-112 | A 200 that comes before the attempts are used up is always reached. |
| Api.NonOkResponseIsNoAttempt | api.js:108-113 | A response that is neither 200 nor thrown is posted again without using an attempt. |
| Api.EarlyErrors | api.js:60-74 | Missing credentials give the credentials error. A local file gives the "not implemented" error. Both happen before any POST and build no payload. |
| Api.NoAttemptsAllowed | api.js:102-123 | With retryAttempts at or below 0, the send fails at once, with no POST and no pause. |
| Api.DeliveredReceipt | api.js:70-111 | A delivered send reports the link it was given and that link's classification, or no media at all for text. |
| Api.TwoThrowsExhaustTwoAttempts | api.js:106-123 | With two attempts, two throws fail the send with the second error after one pause. |
| Api.ThrowThenOk | api.js:106-121 | With two attempts, a throw followed by a 200 succeeds on the second POST after one pause. |
| Api.SendSpec | api.js:55-124 | The send as a function. No payload is built exactly when the credentials are missing or a local file is given, and then nothing is posted and the send fails. At most one POST per scripted outcome. |
| Api.SendWhatsAppMessage | api.js:55-124 | The imperative send, with its `while` loop, gives the result, payload, POST count and pause count that `SendSpec` describes. |
| Api.FetchWhatsAppMessages | api.js:126-139 | One chat entry per row of the phone's thread, in order, carrying the row's text, media_url and media_type. |
| Webhook.VerifyToken | webhook-server.js:9 | The verify token is the environment's when set and non-empty, and the built-in token otherwise. |
| Webhook.Verify | webhook-server.js:14-26 | The reply is 200 with the challenge exactly when the mode is "subscribe" and the token matches. Any other request gets 403. No state is involved. |
| Webhook.DefaultTokenHandshake | webhook-server.js:9-21 | Without the environment variable, the built-in token completes the handshake and no other token does. |
| Webhook.MediaUrlOf | webhook-server.js:41-42 | The first non-empty link among image, video and document, in that order, or NULL when none has one. |
| Webhook.MediaTypeOf | webhook-server.js:43-49 | The type of the first media object present, among image, video and document in that order, or NULL when none is present. |
| Webhook.TypeAndLinkIndependent | webhook-server.js:41-49 | The type and the link are read independently: an image object without a link beside a video with one stores the video's link, typed "image". |
| Webhook.MediaTypeName | webhook-server.js:43-49 | The media_type column holds the name of the media type, or NULL exactly when there is none. |
| Webhook.Inbound | webhook-server.js:34-38 | The messages the nested loops visit, in visiting order. An envelope for another kind of object contributes none. |
| Webhook.UnprocessedChangesIgnored | webhook-server.js:37 | Changes of another field, or with an empty message list, contribute nothing. |
| Webhook.FirstMissingPhone | webhook-server.js:39 | The position of the first message without a sender: every earlier message has one. |
| Webhook.OrderIdForFacts | webhook-server.js:51-52 | order_id is the id of an order with the sender's phone, or 0 when no order has it. No order is created. |
| Webhook.ArrivalRowFields | webhook-server.js:39-63 | A received row keeps the sender's phone, and its text or "" (`Webhook.TextOf`). It holds the prioritised link and type, is "received" in both direction and status, and belongs to the sender's order or to order 0. |
| Webhook.Receive | webhook-server.js:35-66 | The run of the loops from a position: at most one row per remaining message, and a complete run has one row for each. |
| Webhook.ReceiveFacts | webhook-server.js:35-66 | From any position, the run stores exactly the messages before the first one without a sender, each under the next id. It is complete exactly when every message has a sender. |
| Webhook.StoredRows | webhook-server.js:35-66 | The j-th stored row belongs to the j-th message, under id `base + 1 + j`, for every message before the first without a sender. The request succeeds exactly when all have one. |
| Webhook.StoreReceived | webhook-server.js:51-63 | One message is stored as its received row, or, without a sender, fails the NOT NULL constraint and changes nothing. |
| Webhook.StoreInbound | webhook-server.js:35-69 | The loops leave the store with the rows of the run appended, in envelope order, and nothing else changed. They report whether every message was stored. |
| Webhook.HandleWebhook | webhook-server.js:29-77 | The reply is 200 when every message was stored and 500 otherwise. The rows stored before a failure remain. The orders and templates tables are untouched, and another object type stores nothing. |
| Renderer.Listed | renderer.js:87-100 | At most one entry per fetched order. |
| Renderer.ListedHavePhones | renderer.js:87-100 | Every listed entry is an order entry with a non-empty phone, so an order without a phone is hidden. |
| Renderer.ListedComplete | renderer.js:87-100 | A fetched order's entry is listed exactly when the order has a phone. |
| Renderer.ListedSound | renderer.js:87-100 | Every listed entry comes from a fetched order with a phone. It shows the order number or "N/A" and the name or "Unknown" (`Renderer.EntryOf`). |
| Renderer.Session.constructor | renderer.js:7-10 | The module state starts with no selected order, page 1 and an empty list, over a valid store. |
| Renderer.Session.ListPage | renderer.js:87-100 | The loop appends the entries of the page's orders with a phone, in page order. |
| Renderer.Session.FetchAndDisplayOrders | renderer.js:74-107 | The stored maximum id is the request's lastStoredId. A failure or an empty page shows a notice and stores nothing. Otherwise the orders with a phone are listed, and every fetched order is stored, with or without a phone. |
| Renderer.Session.LoadMore | renderer.js:63-66 | The page number goes up by one before the sync, and the sync asks for the new page. |
| Renderer.Session.SelectOrder | renderer.js:115-116 | The selected order is the stored order with the clicked id, if there is one. |
| Renderer.ChosenText | renderer.js:199 | The typed text if non-empty, else the template's, so it is empty only when both are. |
| Renderer.Submit | renderer.js:195-224 | The send is rejected when no order is selected, or when the text and the file are both empty. Otherwise its outcome is the send's: a sent message carries the send's receipt, and a failure carries its error. |
| Renderer.SubmitSendsTextOnly | renderer.js:204-215 | A message sent from the form never carries media fields. |
| Renderer.AttachmentRejected | renderer.js:200-204 | A submit with an attached file always fails, because of missing credentials or because uploads are not implemented. |
| Renderer.MediaName | renderer.js:213-214 | `r.mediaType \|\| null`: NULL exactly when there is no type, and the classified type's name otherwise. |
| Renderer.SentRowFields | renderer.js:206-215 | A sent row holds the recipient order's id and phone and the text. It is "sent" in both direction and status. It keeps the receipt's link, and its media_type is the name of the receipt's type. |
| Renderer.Session.Deliver | renderer.js:203-215 | A delivered send appends exactly one sent row under the next id. A failed send stores nothing. |
| Renderer.Session.SubmitMessage | renderer.js:195-224 | The outcome is `Submit`'s. A sent message appends its row, and every other outcome leaves the store as it was. |
| Renderer.Deliveries | renderer.js:281-299 | The sent messages of a broadcast from a position: at most one per remaining order, each carrying the broadcast text and going to an order with a phone. |
| Renderer.BroadcastSendsTextOnly | renderer.js:284-293 | The broadcast sends text only: every delivery's receipt has no link and no media type, so its stored media_url and media_type are NULL. |
| Renderer.Recipients | renderer.js:281-284 | The positions a broadcast reaches, in ascending order, are exactly the orders with a phone whose send succeeds. |
| Renderer.DeliveriesFollowRecipients | renderer.js:280-299 | The j-th stored broadcast row goes to the j-th recipient, with the text, the j-th next id and that position's timestamp. |
| Renderer.DeliveriesAt | renderer.js:282-297 | At a position with a phone, the broadcast is the send there, kept when it succeeds, followed by the rest. |
| Renderer.Session.BroadcastAt | renderer.js:282-297 | One turn of the broadcast loop stores the rows the specification gives for that position, and only those. |
| Renderer.Session.Broadcast | renderer.js:274-305 | An absent or empty text is rejected. Otherwise each order with a phone is sent the text, a failure does not stop the rest, and exactly one sent row per successful send is stored, in order-list order. |

## Left out

- HTTP is not modelled: axios, express, body-parser, timeouts and status handling beyond the replies shown. The order feed and the WhatsApp API are parameters (a reply function and a per-POST script).
- The two-second `setTimeout` between attempts is counted as a pause, not timed.
- The `setInterval` timers are left out: the five-minute order refresh and the thirty-second chat polling. They only call the modelled sync step or the read-only `getMessages` again.
- The DOM is left out: the HTML built for the list, chat, logs and templates pages, `alert`/`confirm`, navigation and `toLocaleString`. The outcomes the alerts report are the `SubmitOutcome` and `BroadcastOutcome` values.
- `loadMessageHistory`, `initLogs`, the clear-chat button and the template page's handlers only render, or call store operations that are modelled (`GetMessages`, `GetAllMessages`, `DeleteMessages`, `AddTemplate`, `DeleteTemplate`, `GetTemplates`).
- electron-store and the hard-coded settings are parameters (`Api.Config`). So are the environment's `WA_VERIFY_TOKEN` and the verify token written into the server (`Webhook.VerifyToken`).
- `PORT` and the listening socket are not modelled, because no behaviour of the handlers depends on them.
- SQLite engine failures (I/O, locking, a failing `finalize`) and the rejections they cause are not modelled. So is cross-process access to the shared database file. The only statement failures are NOT NULL violations.
- `messageExists` (db.js:149-160) is not modelled. Its query has three placeholders but binds two values, so what it returns depends on how SQLite treats the unbound parameter.
- Integer width is not modelled: ids are unbounded integers, not SQLite's 64-bit rowids.
- The absence of the list element in `fetchAndDisplayOrders` is a DOM condition and is not modelled.
- Store.Database.GetOrderByPhone: the query has no ORDER BY. The model returns the first match in rowid order, and its contract claims only "some order with that phone".
- Store.Database.GetMessages: ties in created_at are ordered by a stable sort. The contract states sortedness and permutation only, because SQLite leaves the order of ties open.
- Api.SendWhatsAppMessage: requires that the POST script ends the retry loop (`Api.Resolves`). In the source, a server that keeps answering with a status other than 200, without throwing, is posted to for ever, because such an answer uses no attempt.
- Api.PostWithRetry, Api.SendSpec and Api.RetryLoop: the same `Resolves` requirement, for the same reason.
- Renderer.Submit: the same `Resolves` requirement on the script of its one send.
- Renderer.Session.SubmitMessage: the same `Resolves` requirement.
- Renderer.Session.Deliver: the same `Resolves` requirement.
- Renderer.Session.Broadcast: requires the same of the script for every recipient (`Renderer.Answered`), for the same reason.
- Webhook.StoreInbound: the three nested `for` loops of the POST handler are modelled as one loop over the messages in the order the nested loops visit them (`Webhook.Inbound`).
- Renderer.Session.FetchAndDisplayOrders: the catch-all `catch` also replaces the list by the failure notice when `getLastStoredOrderId` or `storeOrders` rejects. Those rejections come from engine errors, which are not modelled.
- JSON that does not fit the datatypes is not modelled, for example a `messages` field that is not an array, or a billing object of the wrong shape. In the source such a body throws a TypeError, so the webhook answers 500 and the order fetch gives its error (api.js:49-52).
- Interleaving of the asynchronous handlers is not modelled. In the source, a timer-driven sync, a submit and a broadcast may overlap at their `await` points. The model runs each handler from start to end without interruption.
- main.js (window lifecycle) and manual-customers.js (a one-off seed script) are not part of this model.
