/**
 * The state machine of the remote-image provider, as values.
 *
 * The provider keeps four tables (the FIFO download queue, the pending
 * subscriptions per URL, the bitmap cache and the list of URLs whose
 * download failed once) plus the name of the current activity, which scopes
 * all four. Completion messages sent to handlers are recorded in an
 * append-only outbox. Each operation of the provider is a function from
 * the old state to the new one; the class in ImageProviderService runs the
 * same steps in place and is proved to agree with these functions.
 */
module ImageCache {
  import opened Optional
  import opened JavaText

  type Url = string

  /** A subscriber (an `ImageNotifyHandler`), compared by identity. */
  datatype Handler = Handler(id: nat)

  /** A decoded image, compared by identity. */
  datatype Bitmap = Bitmap(id: nat)

  /** One message sent to `handler` saying that `url` has been downloaded. */
  datatype Notification = Notification(handler: Handler, url: Url)

  /** What one download attempt produced: a bitmap, a null result (no
      entity, or a payload that does not decode), an `Exception` caught by
      the retry path, or a throwable that `downloadBitmap` does not catch
      (`Escaped`): the `IllegalArgumentException` a malformed URL raises in
      the `HttpGet` constructor, which runs before the `try`, or an `Error`
      such as running out of memory while decoding. An escaped throwable
      also ends the worker thread's loop. */
  datatype Outcome = Ok(image: Bitmap) | NullResult | Exception | Escaped

  datatype State = State(
    queue: seq<Url>,                          // the download queue, head first
    subscriptions: map<Url, seq<Handler>>,    // pending entries, in subscription order
    cache: map<Url, Bitmap>,
    timedOut: seq<Url>,                       // URLs whose download threw once
    currentActivity: Option<string>,
    outbox: seq<Notification>)

  /** The state right after class loading. */
  function Initial(): State {
    State([], map[], map[], [], Some(""), [])
  }

  predicate NoDup<T(==)>(q: seq<T>) {
    forall i, j :: 0 <= i < j < |q| ==> q[i] != q[j]
  }

  /** How many times `u` occurs in `q`. */
  function Count(q: seq<Url>, u: Url): (n: nat)
    ensures n <= |q|
    ensures n > 0 <==> u in q
  {
    if q == [] then 0 else (if q[0] == u then 1 else 0) + Count(q[1..], u)
  }

  predicate EmptyTables(s: State) {
    s.queue == [] && s.subscriptions == map[] && s.cache == map[] && s.timedOut == []
  }

  /** Shape facts every operation keeps: the failed list and each pending
      entry hold no duplicates. */
  predicate WellFormed(s: State) {
    && NoDup(s.timedOut)
    && forall u :: u in s.subscriptions ==> NoDup(s.subscriptions[u])
  }

  /** A URL is never pending and cached at once: a request for a cached
      URL returns before subscribing, and a successful download removes the
      entry as it caches the bitmap. */
  predicate PendingNotCached(s: State) {
    forall u :: u in s.subscriptions ==> u !in s.cache
  }

  /** The deduplication guarantee: a URL is queued at most once, and only
      while it has a pending entry. */
  predicate Deduplicated(s: State) {
    && NoDup(s.queue)
    && forall i :: 0 <= i < |s.queue| ==> s.queue[i] in s.subscriptions
  }

  /** `clear`: the four tables are emptied; the activity name and the
      messages already sent stay. */
  function Clear(s: State): (r: State)
    ensures EmptyTables(r)
    ensures r.currentActivity == s.currentActivity && r.outbox == s.outbox
    ensures WellFormed(r) && Deduplicated(r) && PendingNotCached(r)
  {
    s.(queue := [], subscriptions := map[], cache := map[], timedOut := [])
  }

  /** The subscription reset done by `initialize`: only the pending entries
      are dropped, the queue is kept. */
  function ResetSubscriptions(s: State): (r: State)
    ensures r.subscriptions == map[]
    ensures r.queue == s.queue && r.cache == s.cache && r.timedOut == s.timedOut
    ensures r.currentActivity == s.currentActivity && r.outbox == s.outbox
  {
    s.(subscriptions := map[])
  }

  /** `cacheBitmap`: stores only a non-null key with a non-null bitmap. */
  function CacheBitmap(s: State, key: Option<Url>, b: Option<Bitmap>): (r: State)
    ensures key.Some? && b.Some? ==> r.cache == s.cache[key.value := b.value]
    ensures key.None? || b.None? ==> r == s
    ensures r.queue == s.queue && r.subscriptions == s.subscriptions
    ensures r.timedOut == s.timedOut && r.outbox == s.outbox
    ensures r.currentActivity == s.currentActivity
  {
    if key.Some? && b.Some? then s.(cache := s.cache[key.value := b.value]) else s
  }

  /** True when a request naming `activityName` invalidates the session:
      the current name is non-empty and differs ignoring case. */
  predicate SwitchesSession(s: State, activityName: Option<string>) {
    s.currentActivity.Some? && s.currentActivity.value != ""
    && !EqualsIgnoreCase(s.currentActivity.value, activityName)
  }

  /** The session check that opens `getBitmap`. */
  function SessionCheck(s: State, activityName: Option<string>): (r: State)
    ensures s.currentActivity.None? || s.currentActivity == Some("") ==>
      r == s.(currentActivity := activityName)
    ensures SwitchesSession(s, activityName) ==>
      EmptyTables(r) && r.currentActivity == activityName && r.outbox == s.outbox
    ensures (s.currentActivity.Some? && s.currentActivity.value != ""
             && EqualsIgnoreCase(s.currentActivity.value, activityName)) ==> r == s
  {
    if s.currentActivity.None? || EqualsIgnoreCase(s.currentActivity.value, Some("")) then
      s.(currentActivity := activityName)
    else if !EqualsIgnoreCase(s.currentActivity.value, activityName) then
      Clear(s).(currentActivity := activityName)
    else
      s
  }

  /** Adding a (possibly null) handler to a pending entry: a null handler
      or one already present leaves the entry as it is. */
  function Subscribe(entry: seq<Handler>, handler: Option<Handler>): (r: seq<Handler>)
    ensures |entry| <= |r| <= |entry| + 1 && r[..|entry|] == entry
    ensures forall x :: x in r <==> x in entry || handler == Some(x)
    ensures handler.None? || handler.value in entry ==> r == entry
    ensures NoDup(entry) ==> NoDup(r)
  {
    if handler.None? || handler.value in entry then entry else entry + [handler.value]
  }

  /** `getBitmap(url, handler, activityName)`: the new state and the bitmap
      returned (`None` for `null`). */
  function GetBitmap(s: State, url: Url, handler: Option<Handler>, activityName: Option<string>)
    : (r: (State, Option<Bitmap>))
    ensures var t := SessionCheck(s, activityName);
      && r.0.cache == t.cache && r.0.timedOut == t.timedOut
      && r.0.currentActivity == t.currentActivity && r.0.outbox == s.outbox
      && (r.1.Some? <==> url in t.cache)
      && (url in t.cache ==> r.1.value == t.cache[url] && r.0 == t)
      && (url !in t.cache ==> url in r.0.subscriptions
                              && (handler.Some? ==> handler.value in r.0.subscriptions[url]))
      && (url !in t.cache && url in t.subscriptions ==>
            r.0.queue == t.queue && r.0.subscriptions[url] == Subscribe(t.subscriptions[url], handler))
      && (url !in t.cache && url !in t.subscriptions ==>
            r.0.queue == t.queue + [url] && r.0.subscriptions[url] == Subscribe([], handler))
      && (forall v :: v != url ==>
            (v in r.0.subscriptions <==> v in t.subscriptions)
            && (v in t.subscriptions ==> r.0.subscriptions[v] == t.subscriptions[v]))
  {
    var t := SessionCheck(s, activityName);
    if url in t.cache then
      (t, Some(t.cache[url]))
    else if url in t.subscriptions then
      (t.(subscriptions := t.subscriptions[url := Subscribe(t.subscriptions[url], handler)]), None)
    else
      (t.(subscriptions := t.subscriptions[url := Subscribe([], handler)], queue := t.queue + [url]), None)
  }

  /** The messages sent, in order, to the handlers of one resolved entry. */
  function Notifications(handlers: seq<Handler>, url: Url): (r: seq<Notification>)
    ensures |r| == |handlers|
    ensures forall k :: 0 <= k < |r| ==> r[k] == Notification(handlers[k], url)
  {
    if handlers == [] then [] else [Notification(handlers[0], url)] + Notifications(handlers[1..], url)
  }

  /** The pending entry of `url`, or no handlers when there is none. */
  function EntryOf(s: State, url: Url): seq<Handler> {
    if url in s.subscriptions then s.subscriptions[url] else []
  }

  /** A successful download of `url` (already popped): the pending entry is
      removed, then the bitmap is cached, then each captured handler is sent
      one message. */
  function Complete(s: State, url: Url, image: Bitmap): (r: State)
    ensures url !in r.subscriptions && url in r.cache && r.cache[url] == image
    ensures r.subscriptions == s.subscriptions - {url}
    ensures r.cache == s.cache[url := image]
    ensures r.outbox == s.outbox + Notifications(EntryOf(s, url), url)
    ensures r.queue == s.queue && r.timedOut == s.timedOut && r.currentActivity == s.currentActivity
  {
    var entry := EntryOf(s, url);
    var removed := s.(subscriptions := s.subscriptions - {url});
    var cached := CacheBitmap(removed, Some(url), Some(image));
    cached.(outbox := cached.outbox + Notifications(entry, url))
  }

  /** An exception while downloading `url` (already popped): it is queued
      again and marked, unless it was marked before. */
  function RetryOnce(s: State, url: Url): (r: State)
    ensures url !in s.timedOut ==> r.queue == s.queue + [url] && r.timedOut == s.timedOut + [url]
    ensures url in s.timedOut ==> r == s
    ensures url in r.timedOut
    ensures r.subscriptions == s.subscriptions && r.cache == s.cache
    ensures r.outbox == s.outbox && r.currentActivity == s.currentActivity
  {
    if url !in s.timedOut then s.(queue := s.queue + [url], timedOut := s.timedOut + [url]) else s
  }

  /** One iteration of a download worker: take the head of the queue and,
      unless it is empty, download it with the given outcome. `take` blocks
      on an empty queue, so a step needs a queued URL. After an `Escaped`
      outcome this is the worker's last iteration; its effect on the tables
      is that of a null result. */
  function WorkerStep(s: State, outcome: Outcome): (r: State)
    requires |s.queue| > 0
    ensures r.currentActivity == s.currentActivity
    ensures s.queue[0] == "" ==> r == s.(queue := s.queue[1..])
    ensures s.queue[0] != "" && outcome.Ok? ==>
      && s.queue[0] !in r.subscriptions && s.queue[0] in r.cache && r.cache[s.queue[0]] == outcome.image
      && r.subscriptions == s.subscriptions - {s.queue[0]}
      && r.cache == s.cache[s.queue[0] := outcome.image]
      && r.queue == s.queue[1..] && r.timedOut == s.timedOut
      && r.outbox == s.outbox + Notifications(EntryOf(s, s.queue[0]), s.queue[0])
    ensures !outcome.Ok? ==>
      r.subscriptions == s.subscriptions && r.cache == s.cache && r.outbox == s.outbox
    ensures outcome.NullResult? || outcome.Escaped? ==> r.queue == s.queue[1..] && r.timedOut == s.timedOut
    ensures s.queue[0] != "" && outcome.Exception? && s.queue[0] !in s.timedOut ==>
      r.queue == s.queue[1..] + [s.queue[0]] && r.timedOut == s.timedOut + [s.queue[0]]
    ensures outcome.Exception? && s.queue[0] in s.timedOut ==>
      r.queue == s.queue[1..] && r.timedOut == s.timedOut
  {
    var url := s.queue[0];
    var popped := s.(queue := s.queue[1..]);
    if |url| == 0 then popped
    else match outcome
      case Ok(image) => Complete(popped, url, image)
      case NullResult => popped
      case Exception => RetryOnce(popped, url)
      case Escaped => popped
  }

}
