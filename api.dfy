/**
 * api.js: the WooCommerce order fetch with its normalisation, the WhatsApp
 * send with payload construction and bounded retry, and the chat view over
 * the local store.
 *
 * HTTP is replaced by oracles: the order feed is a function from the query to
 * its reply, and the messaging API is a script giving the outcome of each
 * POST in turn. The two-second pause between attempts is counted, not timed.
 */
module Api {
  import opened Wrappers
  import opened JsString
  import Store

  // ---------------------------------------------------------------------------
  // fetchOrdersPaginated

  /** The `billing` object of a WooCommerce order. */
  datatype Billing = Billing(phone: Option<string>, firstName: Option<string>, lastName: Option<string>)

  /** The fields of a WooCommerce order the bridge reads. */
  datatype RawOrder = RawOrder(id: Option<int>, number: Option<string>, dateCreated: Option<string>, billing: Option<Billing>)

  /** The query parameters of one page request (the consumer key and secret are configuration). */
  datatype Query = Query(perPage: int, page: int, afterId: Option<int>)

  /** What the order feed answers: a page of orders, or a failure (timeout, non-2xx, network). */
  datatype FeedReply = Page(orders: seq<RawOrder>) | FeedFailed(reason: string)

  /** `order?.billing?.phone?.replace(/[^0-9]/g, '') || ''`. */
  function NormalizePhone(billing: Option<Billing>): (r: string)
    ensures AllDigits(r)
    ensures billing.None? || billing.value.phone.None? ==> r == ""
  {
    if billing.Some? && billing.value.phone.Some? then DigitsOnly(billing.value.phone.value) else ""
  }

  /** `${first_name || ''} ${last_name || ''}` before trimming. */
  function FullName(billing: Option<Billing>): string {
    var first := if billing.Some? then OrElse(billing.value.firstName, "") else "";
    var last := if billing.Some? then OrElse(billing.value.lastName, "") else "";
    first + " " + last
  }

  /** The trimmed full name, or "Unknown" when nothing but white space is left. */
  function CustomerName(billing: Option<Billing>): (r: string)
    ensures r != ""
    ensures Trim(r) == r
    ensures AllSpace(FullName(billing)) ==> r == "Unknown"
    ensures !AllSpace(FullName(billing)) ==> r == Trim(FullName(billing))
  {
    var name := Trim(FullName(billing));
    if name == "" then
      assert LeadingSpace("Unknown") == 0;
      assert TrailingSpace("Unknown") == 0;
      assert "Unknown"[0..][..|"Unknown"| - 0] == "Unknown";
      "Unknown"
    else
      TrimIdempotent(FullName(billing));
      name
  }

  /** The record one fetched order becomes. */
  function NormalizeOrder(raw: RawOrder): Store.OrderRecord {
    Store.OrderRecord(raw.id, Some(NormalizePhone(raw.billing)), Some(CustomerName(raw.billing)), raw.number, raw.dateCreated)
  }

  /** The `pageOrders.map(...)` of fetchOrdersPaginated. */
  function NormalizePage(page: seq<RawOrder>): (r: seq<Store.OrderRecord>)
    ensures |r| == |page|
    ensures forall i :: 0 <= i < |r| ==>
      && r[i].id == page[i].id
      && r[i].orderNumber == page[i].number
      && r[i].date == page[i].dateCreated
      && r[i].phone == Some(NormalizePhone(page[i].billing)) && AllDigits(r[i].phone.value)
      && r[i].customerName == Some(CustomerName(page[i].billing)) && r[i].customerName.value != ""
  {
    seq(|page|, i requires 0 <= i < |page| => NormalizeOrder(page[i]))
  }

  /**
   * A normalised order always carries a phone and a name, so the store rejects
   * it exactly when WooCommerce left out its number or its creation date.
   */
  lemma NormalizedOrderStoredIff(raw: RawOrder)
    ensures Store.OrderNullColumn(NormalizeOrder(raw)).None? <==> raw.number.Some? && raw.dateCreated.Some?
  {
  }

  /** A normalised phone normalises to itself. */
  lemma NormalizePhoneIdempotent(b: Billing)
    ensures NormalizePhone(Some(b.(phone := Some(NormalizePhone(Some(b)))))) == NormalizePhone(Some(b))
  {
    DigitsOnlyFixesDigits(NormalizePhone(Some(b)));
  }

  /** A formatted number keeps its digits only. */
  lemma NormalizePhoneExample()
    ensures DigitsOnly("+1 23") == "123"
  {
    assert DigitsOnly("3") == "3";
    assert "+1 23"[1..] == "1 23" && "1 23"[1..] == " 23" && " 23"[1..] == "23" && "23"[1..] == "3";
  }

  /** The query of one page request: `after_id` is sent only for a positive last id. */
  function OrdersQuery(page: int, perPage: int, lastStoredId: int): (q: Query)
    ensures q.page == page && q.perPage == perPage
    ensures q.afterId.Some? <==> lastStoredId > 0
    ensures q.afterId.Some? ==> q.afterId.value == lastStoredId
  {
    Query(perPage, page, if lastStoredId > 0 then Some(lastStoredId) else None)
  }

  /**
   * `fetchOrdersPaginated(page, perPage, lastStoredId)`: one page request, its
   * orders normalised in order; an empty page is an empty result, a failed
   * request an error.
   */
  function FetchOrdersPaginated(page: int, perPage: int, lastStoredId: int, feed: Query -> FeedReply)
    : (r: Result<seq<Store.OrderRecord>, string>)
    ensures var reply := feed(OrdersQuery(page, perPage, lastStoredId));
      && (r.Ok? <==> reply.Page?)
      && (r.Ok? ==> r.value == NormalizePage(reply.orders))
      && (r.Err? ==> r.error == "Failed to fetch orders: " + reply.reason)
  {
    match feed(OrdersQuery(page, perPage, lastStoredId))
    case FeedFailed(reason) => Err("Failed to fetch orders: " + reason)
    case Page(orders) =>
      if |orders| == 0 then
        assert NormalizePage(orders) == [];
        Ok([])
      else Ok(NormalizePage(orders))
  }

  // ---------------------------------------------------------------------------
  // sendWhatsAppMessage

  /** The stored settings the send reads (`wa_access_token`, `wa_phone_id`, `wa_retry_attempts`). */
  datatype Config = Config(accessToken: Option<string>, phoneId: Option<string>, retryAttempts: int)

  /** A local file picked for upload. */
  datatype MediaFile = MediaFile(name: string)

  /** The body of the payload: a `text` object, or an object keyed by the media type. */
  datatype Content = Text(body: string) | Media(kind: Store.MediaKind, link: string, caption: Option<string>)

  /** The JSON posted to `/<phoneId>/messages`; `messaging_product` is always "whatsapp". */
  datatype Payload = Payload(to: string, content: Content)

  /** What one POST does: it answers with a status, or it throws with a detail. */
  datatype PostOutcome = Responded(status: int) | Threw(detail: string)

  datatype SendError = CredentialsMissing | UploadNotImplemented | DeliveryFailed(attempts: int, lastError: string)

  /** What a successful send resolves with besides `success: true`. */
  datatype Receipt = Receipt(mediaUrl: Option<string>, mediaType: Option<Store.MediaKind>)

  /** The retry loop's result, the POSTs it made and the pauses it took. */
  datatype RetryRun = RetryRun(delivered: bool, lastError: string, posts: nat, waits: nat)

  /** Everything a send does: its result, the payload it posts (if any), its POSTs and pauses. */
  datatype Dispatch = Dispatch(result: Result<Receipt, SendError>, payload: Option<Payload>, posts: nat, waits: nat)

  /** The `type` field of the payload. */
  function TypeField(c: Content): string {
    match c
    case Text(_) => "text"
    case Media(kind, _, _) => Store.KindName(kind)
  }

  /** The media type of a link, read from the words "image" and "video" in it. */
  function Classify(url: string): (k: Store.MediaKind)
    ensures k == Store.Image <==> Includes(url, "image")
    ensures k == Store.Video <==> !Includes(url, "image") && Includes(url, "video")
    ensures k == Store.Document <==> !Includes(url, "image") && !Includes(url, "video")
  {
    if Includes(url, "image") then Store.Image
    else if Includes(url, "video") then Store.Video
    else Store.Document
  }

  /** A link naming both an image and a video is sent as an image; a PDF link as a document. */
  lemma ClassifyExamples()
    ensures Classify("https://cdn/video/image.png") == Store.Image
    ensures Classify("https://cdn/video.mp4") == Store.Video
    ensures Classify("a.pdf") == Store.Document
  {
    assert OccursAt("https://cdn/video/image.png", "image", 18);
    assert OccursAt("https://cdn/video.mp4", "video", 12);
    NotIncludedByChar("https://cdn/video.mp4", "image", 'g');
    NotIncludedByChar("a.pdf", "image", 'g');
    NotIncludedByChar("a.pdf", "video", 'v');
  }

  /** The payload of a send: media when there is a link, text otherwise, never both. */
  function BuildPayload(phone: string, message: string, mediaUrl: Option<string>): (p: Payload)
    ensures p.to == phone
    ensures p.content.Text? <==> !Truthy(mediaUrl)
    ensures p.content.Text? ==> p.content.body == message && TypeField(p.content) == "text"
    ensures p.content.Media? ==>
      && p.content.link == mediaUrl.value
      && TypeField(p.content) == Store.KindName(Classify(mediaUrl.value))
      && p.content.caption == OrNull(Some(message))
  {
    if Truthy(mediaUrl) then
      Payload(phone, Media(Classify(mediaUrl.value), mediaUrl.value, OrNull(Some(message))))
    else Payload(phone, Text(message))
  }

  /** The number of POSTs in `s` that threw. */
  function Throws(s: seq<PostOutcome>): (n: nat)
    ensures n <= |s|
  {
    if s == [] then 0 else (if s[0].Threw? then 1 else 0) + Throws(s[1..])
  }

  lemma {:induction false} ThrowsMonotone(s: seq<PostOutcome>, i: nat, j: nat)
    requires i <= j <= |s|
    ensures Throws(s[..i]) <= Throws(s[..j])
    decreases j
  {
    if i < j {
      ThrowsMonotone(s, i, j - 1);
      ThrowsSnoc(s[..j - 1], s[j - 1]);
      assert s[..j] == s[..j - 1] + [s[j - 1]];
    }
  }

  lemma {:induction false} ThrowsSnoc(s: seq<PostOutcome>, x: PostOutcome)
    ensures Throws(s + [x]) == Throws(s) + (if x.Threw? then 1 else 0)
  {
    if s != [] {
      assert (s + [x])[1..] == s[1..] + [x];
      ThrowsSnoc(s[1..], x);
    } else {
      assert [] + [x] == [x];
    }
  }

  /** No POST in `s` answered 200. */
  predicate NoOk(s: seq<PostOutcome>) {
    forall i :: 0 <= i < |s| ==> s[i] != Responded(200)
  }

  /**
   * The script ends the loop: a 200 comes, or `retryAttempts` throws do.
   * Without it the source would post for ever, since a response other than 200
   * does not count as an attempt.
   */
  predicate Resolves(posts: seq<PostOutcome>, retryAttempts: int, attempt: int)
    decreases |posts|
  {
    || attempt >= retryAttempts
    || (posts != [] && (posts[0] == Responded(200) ||
          Resolves(posts[1..], retryAttempts, if posts[0].Threw? then attempt + 1 else attempt)))
  }

  /** The `while (attempt < retryAttempts && !success)` loop, from a given attempt count. */
  function RetryLoop(posts: seq<PostOutcome>, retryAttempts: int, attempt: int, lastError: string): (r: RetryRun)
    requires Resolves(posts, retryAttempts, attempt)
    ensures r.posts <= |posts| && r.waits <= r.posts
    decreases |posts|
  {
    if attempt >= retryAttempts then RetryRun(false, lastError, 0, 0)
    else
      match posts[0]
      case Responded(status) =>
        if status == 200 then RetryRun(true, lastError, 1, 0)
        else
          var rest := RetryLoop(posts[1..], retryAttempts, attempt, lastError);
          rest.(posts := rest.posts + 1)
      case Threw(detail) =>
        var rest := RetryLoop(posts[1..], retryAttempts, attempt + 1, detail);
        rest.(posts := rest.posts + 1, waits := rest.waits + if attempt + 1 < retryAttempts then 1 else 0)
  }

  lemma PrefixCons<T>(s: seq<T>, m: nat)
    requires m < |s|
    ensures s[..m + 1] == [s[0]] + s[1..][..m]
  {
  }

  /**
   * What a run of the retry loop that made `run.posts` POSTs did: it stopped
   * at the first 200 or at the throw that used up the attempts. Only throws
   * count as attempts; every throw but the last is followed by a pause, so a
   * failed send pauses `retryAttempts - 1` times.
   */
  predicate RunShape(posts: seq<PostOutcome>, retryAttempts: int, attempt: int, run: RetryRun) {
    var n := run.posts;
    && 1 <= n <= |posts|
    && NoOk(posts[..n - 1])
    && (run.delivered ==>
          && posts[n - 1] == Responded(200)
          && Throws(posts[..n - 1]) < retryAttempts - attempt
          && run.waits == Throws(posts[..n - 1]))
    && (!run.delivered ==>
          && posts[n - 1].Threw? && run.lastError == posts[n - 1].detail
          && Throws(posts[..n]) == retryAttempts - attempt
          && run.waits == retryAttempts - attempt - 1)
  }

  /** A response other than 200 is one more POST in front of the rest of the run. */
  lemma RunAfterResponse(posts: seq<PostOutcome>, retryAttempts: int, attempt: int, lastError: string)
    requires 0 <= attempt < retryAttempts && Resolves(posts, retryAttempts, attempt)
    requires posts[0].Responded? && posts[0].status != 200
    requires RunShape(posts[1..], retryAttempts, attempt, RetryLoop(posts[1..], retryAttempts, attempt, lastError))
    ensures RunShape(posts, retryAttempts, attempt, RetryLoop(posts, retryAttempts, attempt, lastError))
  {
    var m := RetryLoop(posts[1..], retryAttempts, attempt, lastError).posts;
    PrefixCons(posts, m - 1);
    PrefixCons(posts, m);
  }

  /** A throw that leaves attempts over is one more POST and one pause in front of the rest of the run. */
  lemma RunAfterThrow(posts: seq<PostOutcome>, retryAttempts: int, attempt: int, lastError: string)
    requires 0 <= attempt && attempt + 1 < retryAttempts && Resolves(posts, retryAttempts, attempt)
    requires posts[0].Threw?
    requires RunShape(posts[1..], retryAttempts, attempt + 1,
                      RetryLoop(posts[1..], retryAttempts, attempt + 1, posts[0].detail))
    ensures RunShape(posts, retryAttempts, attempt, RetryLoop(posts, retryAttempts, attempt, lastError))
  {
    var m := RetryLoop(posts[1..], retryAttempts, attempt + 1, posts[0].detail).posts;
    PrefixCons(posts, m - 1);
    PrefixCons(posts, m);
  }

  /** Every run that the script ends has the shape `RunShape` describes. */
  lemma {:induction false} RetryRunFacts(posts: seq<PostOutcome>, retryAttempts: int, attempt: int, lastError: string)
    requires 0 <= attempt < retryAttempts && Resolves(posts, retryAttempts, attempt)
    ensures RunShape(posts, retryAttempts, attempt, RetryLoop(posts, retryAttempts, attempt, lastError))
    decreases |posts|
  {
    match posts[0]
    case Responded(status) =>
      if status != 200 {
        RetryRunFacts(posts[1..], retryAttempts, attempt, lastError);
        RunAfterResponse(posts, retryAttempts, attempt, lastError);
      }
    case Threw(detail) =>
      if attempt + 1 < retryAttempts {
        RetryRunFacts(posts[1..], retryAttempts, attempt + 1, detail);
        RunAfterThrow(posts, retryAttempts, attempt, lastError);
      } else {
        assert posts[..1] == [posts[0]];
      }
  }

  lemma RetryDeliversWithinBudget(posts: seq<PostOutcome>, retryAttempts: int, attempt: int, lastError: string, j: nat)
    requires 0 <= attempt < retryAttempts && Resolves(posts, retryAttempts, attempt)
    requires j < |posts| && posts[j] == Responded(200) && Throws(posts[..j]) < retryAttempts - attempt
    ensures RetryLoop(posts, retryAttempts, attempt, lastError).delivered
  {
    RetryRunFacts(posts, retryAttempts, attempt, lastError);
    var run := RetryLoop(posts, retryAttempts, attempt, lastError);
    if !run.delivered && j >= run.posts {
      ThrowsMonotone(posts, run.posts, j);
    }
  }

  /** A response that is neither 200 nor thrown is posted again without using an attempt. */
  lemma NonOkResponseIsNoAttempt(status: int, posts: seq<PostOutcome>, retryAttempts: int, attempt: int, lastError: string)
    requires status != 200 && attempt < retryAttempts
    requires Resolves([Responded(status)] + posts, retryAttempts, attempt)
    ensures Resolves(posts, retryAttempts, attempt)
    ensures var rest := RetryLoop(posts, retryAttempts, attempt, lastError);
      RetryLoop([Responded(status)] + posts, retryAttempts, attempt, lastError) == rest.(posts := rest.posts + 1)
  {
    assert ([Responded(status)] + posts)[1..] == posts;
  }

  /** The whole of sendWhatsAppMessage, with the POSTs answered by `posts` in turn. */
  function SendSpec(cfg: Config, phone: string, message: string, mediaFile: Option<MediaFile>,
                    mediaUrl: Option<string>, posts: seq<PostOutcome>): (d: Dispatch)
    requires Resolves(posts, cfg.retryAttempts, 0)
    ensures d.payload.None? <==> !Truthy(cfg.accessToken) || !Truthy(cfg.phoneId) || mediaFile.Some?
    ensures d.payload.None? ==> d.posts == 0 && d.waits == 0 && d.result.Err?
    ensures d.posts <= |posts| && d.waits <= d.posts
  {
    if !Truthy(cfg.accessToken) || !Truthy(cfg.phoneId) then Dispatch(Err(CredentialsMissing), None, 0, 0)
    else if mediaFile.Some? then Dispatch(Err(UploadNotImplemented), None, 0, 0)
    else
      var payload := BuildPayload(phone, message, mediaUrl);
      var receipt := if Truthy(mediaUrl) then Receipt(mediaUrl, Some(Classify(mediaUrl.value))) else Receipt(None, None);
      var run := RetryLoop(posts, cfg.retryAttempts, 0, "");
      var result := if run.delivered then Ok(receipt) else Err(DeliveryFailed(cfg.retryAttempts, run.lastError));
      Dispatch(result, Some(payload), run.posts, run.waits)
  }

  /** Missing credentials or a local file fail before anything is posted. */
  lemma EarlyErrors(cfg: Config, phone: string, message: string, mediaFile: Option<MediaFile>,
                    mediaUrl: Option<string>, posts: seq<PostOutcome>)
    requires Resolves(posts, cfg.retryAttempts, 0)
    ensures var d := SendSpec(cfg, phone, message, mediaFile, mediaUrl, posts);
      && (!Truthy(cfg.accessToken) || !Truthy(cfg.phoneId) ==> d.result == Err(CredentialsMissing))
      && (Truthy(cfg.accessToken) && Truthy(cfg.phoneId) && mediaFile.Some? ==> d.result == Err(UploadNotImplemented))
      && (d.result == Err(CredentialsMissing) || d.result == Err(UploadNotImplemented) ==> d.posts == 0 && d.payload.None?)
  {
  }

  /** With no attempts allowed the send fails at once, without any POST. */
  lemma NoAttemptsAllowed(cfg: Config, phone: string, message: string, mediaUrl: Option<string>, posts: seq<PostOutcome>)
    requires Truthy(cfg.accessToken) && Truthy(cfg.phoneId) && cfg.retryAttempts <= 0
    ensures Resolves(posts, cfg.retryAttempts, 0)
    ensures SendSpec(cfg, phone, message, None, mediaUrl, posts)
      == Dispatch(Err(DeliveryFailed(cfg.retryAttempts, "")), Some(BuildPayload(phone, message, mediaUrl)), 0, 0)
  {
  }

  /**
   * A delivered send reports the link it was given and that link's media type,
   * or no media at all for a text message.
   */
  lemma DeliveredReceipt(cfg: Config, phone: string, message: string, mediaUrl: Option<string>, posts: seq<PostOutcome>)
    requires Resolves(posts, cfg.retryAttempts, 0)
    requires SendSpec(cfg, phone, message, None, mediaUrl, posts).result.Ok?
    ensures var receipt := SendSpec(cfg, phone, message, None, mediaUrl, posts).result.value;
      && (Truthy(mediaUrl) ==> receipt == Receipt(mediaUrl, Some(Classify(mediaUrl.value))))
      && (!Truthy(mediaUrl) ==> receipt == Receipt(None, None))
  {
  }

  /** Two attempts that both throw: the send fails with the second error after one pause. */
  lemma TwoThrowsExhaustTwoAttempts(cfg: Config, phone: string, message: string, e1: string, e2: string)
    requires Truthy(cfg.accessToken) && Truthy(cfg.phoneId) && cfg.retryAttempts == 2
    ensures Resolves([Threw(e1), Threw(e2)], 2, 0)
    ensures SendSpec(cfg, phone, message, None, None, [Threw(e1), Threw(e2)])
      == Dispatch(Err(DeliveryFailed(2, e2)), Some(Payload(phone, Text(message))), 2, 1)
  {
    var s := [Threw(e1), Threw(e2)];
    assert s[1..] == [Threw(e2)] && s[1..][1..] == [];
    assert RetryLoop(s[1..][1..], 2, 2, e2) == RetryRun(false, e2, 0, 0);
    assert RetryLoop(s[1..], 2, 1, e1) == RetryRun(false, e2, 1, 0);
    assert RetryLoop(s, 2, 0, "") == RetryRun(false, e2, 2, 1);
  }

  /** One throw and then a 200: the send succeeds on its second POST after one pause. */
  lemma ThrowThenOk(cfg: Config, phone: string, message: string, e1: string)
    requires Truthy(cfg.accessToken) && Truthy(cfg.phoneId) && cfg.retryAttempts == 2
    ensures Resolves([Threw(e1), Responded(200)], 2, 0)
    ensures SendSpec(cfg, phone, message, None, None, [Threw(e1), Responded(200)])
      == Dispatch(Ok(Receipt(None, None)), Some(Payload(phone, Text(message))), 2, 1)
  {
    var s := [Threw(e1), Responded(200)];
    assert s[1..] == [Responded(200)];
    assert RetryLoop(s[1..], 2, 1, e1) == RetryRun(true, e1, 1, 0);
    assert RetryLoop(s, 2, 0, "") == RetryRun(true, e1, 2, 1);
  }

  /**
   * `sendWhatsAppMessage(phone, message, orderId, mediaFile, mediaUrl)`.
   * `orderId` is not used by the send, as in the source.
   */
  method SendWhatsAppMessage(cfg: Config, phone: string, message: string, orderId: int,
                             mediaFile: Option<MediaFile>, mediaUrl: Option<string>, posts: seq<PostOutcome>)
    returns (r: Result<Receipt, SendError>, payload: Option<Payload>, postsMade: nat, waits: nat)
    requires Resolves(posts, cfg.retryAttempts, 0)
    ensures Dispatch(r, payload, postsMade, waits) == SendSpec(cfg, phone, message, mediaFile, mediaUrl, posts)
  {
    postsMade, waits := 0, 0;
    if !Truthy(cfg.accessToken) || !Truthy(cfg.phoneId) {
      return Err(CredentialsMissing), None, 0, 0;
    }
    var mediaType: Option<Store.MediaKind> := None;
    var storedMediaUrl: Option<string> := None;
    var content: Content;
    if mediaFile.Some? {
      return Err(UploadNotImplemented), None, 0, 0;
    } else if Truthy(mediaUrl) {
      var kind := Classify(mediaUrl.value);
      mediaType := Some(kind);
      content := Media(kind, mediaUrl.value, OrNull(Some(message)));
      storedMediaUrl := mediaUrl;
    } else {
      content := Text(message);
    }
    payload := Some(Payload(phone, content));

    var delivered, errorMessage;
    delivered, errorMessage, postsMade, waits := PostWithRetry(posts, cfg.retryAttempts);
    if delivered {
      r := Ok(Receipt(storedMediaUrl, mediaType));
    } else {
      r := Err(DeliveryFailed(cfg.retryAttempts, errorMessage));
    }
  }

  /**
   * The retry loop of sendWhatsAppMessage: POSTs until a 200 or until
   * `retryAttempts` of them have thrown, pausing after every throw but the last.
   */
  method PostWithRetry(posts: seq<PostOutcome>, retryAttempts: int)
    returns (delivered: bool, errorMessage: string, postsMade: nat, waits: nat)
    requires Resolves(posts, retryAttempts, 0)
    ensures RetryRun(delivered, errorMessage, postsMade, waits) == RetryLoop(posts, retryAttempts, 0, "")
  {
    postsMade, waits := 0, 0;
    var attempt := 0;
    errorMessage := "";
    // `success` of the source is set just before its `return`, so the loop never sees it true.
    while attempt < retryAttempts
      invariant 0 <= attempt && postsMade <= |posts|
      invariant Resolves(posts[postsMade..], retryAttempts, attempt)
      invariant var rest := RetryLoop(posts[postsMade..], retryAttempts, attempt, errorMessage);
        var all := RetryLoop(posts, retryAttempts, 0, "");
        && all.delivered == rest.delivered && all.lastError == rest.lastError
        && all.posts == postsMade + rest.posts && all.waits == waits + rest.waits
      decreases |posts| - postsMade
    {
      var outcome := posts[postsMade];
      assert posts[postsMade..][1..] == posts[postsMade + 1..];
      postsMade := postsMade + 1;
      match outcome
      case Responded(status) =>
        if status == 200 {
          return true, errorMessage, postsMade, waits;
        }
      case Threw(detail) =>
        attempt := attempt + 1;
        errorMessage := detail;
        if attempt < retryAttempts {
          waits := waits + 1;
        }
    }
    delivered := false;
  }

  // ---------------------------------------------------------------------------
  // fetchWhatsAppMessages

  /** One message of the chat view. */
  datatype ChatEntry = ChatEntry(text: string, mediaUrl: Option<string>, mediaType: Option<string>)

  /** `fetchWhatsAppMessages(phone)`: the thread of getMessages, one entry per row, in order. */
  function FetchWhatsAppMessages(db: Store.Database, phone: string): (r: seq<ChatEntry>)
    reads db
    requires db.Valid()
    ensures var rows := db.GetMessages(phone);
      && |r| == |rows|
      && forall i :: 0 <= i < |r| ==>
           r[i].text == rows[i].text && r[i].mediaUrl == rows[i].mediaUrl && r[i].mediaType == rows[i].mediaType
  {
    var rows := db.GetMessages(phone);
    seq(|rows|, i requires 0 <= i < |rows| => ChatEntry(rows[i].text, rows[i].mediaUrl, rows[i].mediaType))
  }
}
