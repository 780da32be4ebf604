# Remote-image provider of NinjaExamples, modelled in Dafny

The example application loads list-row images through `ImageProvider`, a
process-wide service with four tables: a FIFO download queue, a map from
URL to the handlers waiting for it (the pending entry), a bitmap cache, and
a list of URLs whose download threw once. A current activity name scopes
all four tables. A request either answers from the cache or subscribes its
handler and queues the URL once. Download workers take URLs from the queue
and cache the bitmaps. They send one message per waiting handler, and retry
a URL once after an exception caught inside `downloadBitmap`. A throwable
that escapes it (a malformed URL rejected before the `try`, or an `Error`)
drops the URL unretried and, under plain Java thread semantics, ends that
worker thread; there are two. The list view shows the provider's bitmap, a
"loading" placeholder while the image is pending, or a "coming soon" image
when a row has no URL. The base activity calls `clear` whenever it pauses
(BaseImageActivity.java line 110).

The model has these modules:

- `ImageCache` (`image_cache.dfy`) holds the state as a value (`State`) and
  each operation as a function from the old state to the new one.
  `GetBitmap` is request intake. `WorkerStep` is one iteration of a worker's
  loop, with the download's result given as `Outcome`: `Ok(bitmap)`,
  `NullResult`, a caught `Exception`, or a throwable that escapes
  (`Escaped`). The module also has `Clear`, `CacheBitmap`
  and the subscription reset of `initialize`. Handler messages go into an
  append-only `outbox`.
- `ImageProviderService` (`image_provider.dfy`) has the class
  `ImageProvider`. Its fields are the tables, updated in place. Each method
  that has a matching `ImageCache` function (`Initialize`, `Clear`,
  `CacheBitmap`, `CheckSession`, `GetBitmap`, `DownloadBitmap`,
  `CompleteDownload`, `WorkerStep`) is proved to move `Snapshot()` exactly
  as that function does. `SetCurrentActivity` and `Reclaim` state their
  one-field update directly, and the three accessors change nothing. The
  notification loop is a `while` loop with invariants.
- `ImageCacheProperties` and `RetryBudget` prove what the provider
  guarantees:
  - deduplication: a URL is queued at most once, and only while it is
    pending, and a pending URL is never cached;
  - idempotent subscription;
  - session invalidation;
  - exactly-once notification;
  - the retry-once bound: inside one session (no request naming another
    activity, no call of `clear`), whatever requests, worker steps and cache
    evictions interleave, a URL's download fails at most twice; while no
    bitmap is evicted it is also downloaded at most twice, and an eviction
    can make a third download (`EvictionAllowsThirdDownload`);
  - two escaped throwables leave no worker, after which nothing is
    downloaded again.
- `ListViewExample` (`list_view.dfy`) models the placeholder selection of
  the list view on top of `ImageProvider.GetBitmap`.
- `Scenarios` has two end-to-end runs: one download succeeds and one always
  fails.
- `JavaText` models `String.equalsIgnoreCase`. `Optional` is `Option` for
  Java's `null`.

The invariant `Deduplicated` holds after every operation except the
subscription reset of `initialize`. That reset drops the pending entries
but keeps the queue, so a later request for a still-queued URL queues it a
second time (`InitializeBreaksDeduplication`). Neither `ImageProvider.java`
nor `CALNListViewExample.java` calls `initialize`.

Some behaviour of the code is easy to misread; the model follows the code:

- On a successful download the code removes the pending entry before it
  caches the bitmap (ImageProvider.java lines 226-230), not after. In a
  sequential model the two orders give the same state.
- The session is switched whenever the current name is non-empty and
  differs from the requested one ignoring case. This also happens when the
  requested name is empty or null (`SwitchToEmptyNameClears`); one might
  expect it only for a non-empty name.
- The "unresolved count" is the queue length, not the number of pending
  entries. A URL that threw twice, or whose download returned null, stays
  pending but leaves the queue (`NullResultLeavesEntryPending`).
- The worker never caches a fallback image when a download fails.

## Model

| member | source | states |
|---|---|---|
| `JavaText.EqualsIgnoreCase` | src/com/ninja/examples/utility/images/ImageProvider.java:146-148 | a match holds exactly when the argument is non-null, of equal length, and equal letter by letter once ASCII letters are upper-cased; every string matches itself; matching `""` means being empty |
| `ImageCache.Clear` | src/com/ninja/examples/utility/images/ImageProvider.java:307-321 | all four tables are empty afterwards; the activity name and the messages already sent are kept; the result satisfies all three invariants |
| `ImageCache.ResetSubscriptions` | src/com/ninja/examples/utility/images/ImageProvider.java:85-87 | the subscription reset of `initialize` empties only the pending entries; the queue, cache, failed list and activity are kept |
| `ImageCache.CacheBitmap` | src/com/ninja/examples/utility/images/ImageProvider.java:286-290 | the bitmap is stored under the key only when both are non-null, otherwise nothing changes; no other table changes |
| `ImageCache.SessionCheck` | src/com/ninja/examples/utility/images/ImageProvider.java:146-151 | a null or empty current name adopts the new name without clearing; a non-empty name that differs ignoring case empties all four tables and adopts the new name; an equal name ignoring case changes nothing |
| `ImageCache.Subscribe` | src/com/ninja/examples/utility/images/ImageProvider.java:158-176 | the entry keeps its old handlers as a prefix and gains at most the new one; its members are the old ones plus the non-null handler; a null or present handler leaves it unchanged; no duplicates are introduced |
| `ImageCache.GetBitmap` | src/com/ninja/examples/utility/images/ImageProvider.java:144-186 | after the session check: a bitmap is returned exactly when the URL is cached, and then nothing else changes; on a miss null is returned and the handler is subscribed; a pending URL leaves the queue unchanged; a new URL is appended to the queue once and gets an entry of exactly the handler (or none); other entries, the cache and the failed list are untouched |
| `ImageCache.Notifications` | src/com/ninja/examples/utility/images/ImageProvider.java:234-244 | one message per handler, in order, each naming that handler and the URL |
| `ImageCache.Complete` | src/com/ninja/examples/utility/images/ImageProvider.java:225-247 | a successful download removes exactly the URL's entry, stores its bitmap leaving every other cache entry as it was, and appends the messages for the removed entry's handlers |
| `ImageCache.RetryOnce` | src/com/ninja/examples/utility/images/ImageProvider.java:267-275 | an exception on an unmarked URL re-appends it to the queue and marks it; on a marked URL nothing changes; either way the URL is marked afterwards and pending entries and cache are untouched |
| `ImageCache.WorkerStep` | src/com/ninja/examples/utility/images/ImageProvider.java:211-283 | the head URL is popped; an empty URL is skipped with no other effect; success removes exactly that URL's entry, stores its bitmap leaving every other cache entry as it was, and appends one message per handler; a failure or null result leaves entries, cache and outbox unchanged; a null result or an escaped throwable is neither retried nor marked; a caught exception is retried once |
| `ImageCacheProperties.AtMostOneQueuedFetch` | src/com/ninja/examples/utility/images/ImageProvider.java:158-185 | under the deduplication invariant every URL occurs at most once in the queue, and only while it has a pending entry |
| `ImageCacheProperties.SessionCheckPreservesInvariants` | src/com/ninja/examples/utility/images/ImageProvider.java:146-151 | the session check keeps all three invariants |
| `ImageCacheProperties.GetBitmapKeepsWellFormed` | src/com/ninja/examples/utility/images/ImageProvider.java:158-177 | after `getBitmap` every pending entry is still free of duplicate handlers |
| `ImageCacheProperties.GetBitmapKeepsDeduplicated` | src/com/ninja/examples/utility/images/ImageProvider.java:158-185 | after `getBitmap` the queue is still duplicate-free and holds only pending URLs |
| `ImageCacheProperties.GetBitmapKeepsPendingNotCached` | src/com/ninja/examples/utility/images/ImageProvider.java:152-177 | `getBitmap` subscribes only to a URL it did not find in the cache, so no URL becomes both pending and cached |
| `ImageCacheProperties.GetBitmapPreservesInvariants` | src/com/ninja/examples/utility/images/ImageProvider.java:144-186 | `getBitmap` keeps duplicate-free entries and failed list, keeps the queue duplicate-free and made of pending URLs, and never makes a URL both pending and cached |
| `ImageCacheProperties.PendingRequestNeverEnqueues` | src/com/ninja/examples/utility/images/ImageProvider.java:158-171 | when the URL is pending after the session check, the queue is unchanged whatever the handler, and null is returned unless cached |
| `ImageCacheProperties.SessionCheckSettles` | src/com/ninja/examples/utility/images/ImageProvider.java:146-151 | after one session check, any state with the same activity name passes a second check unchanged |
| `ImageCacheProperties.GetBitmapIdempotent` | src/com/ninja/examples/utility/images/ImageProvider.java:144-186 | repeating a request with the same URL, handler and activity changes no table and returns the same result |
| `ImageCacheProperties.SessionSwitchStartsOver` | src/com/ninja/examples/utility/images/ImageProvider.java:146-185 | on a session switch even a previously cached URL misses: the result is null, the queue is exactly that URL, its entry is the only one, the cache and failed list are empty, and the new name is current |
| `ImageCacheProperties.SwitchToEmptyNameClears` | src/com/ninja/examples/utility/images/ImageProvider.java:146-151 | a non-empty current name is switched away from by an empty or null name, after which any name is adopted without clearing |
| `ImageCacheProperties.NotificationsOncePerHandler` | src/com/ninja/examples/utility/images/ImageProvider.java:234-244 | for a duplicate-free entry the messages are duplicate-free, name only its handlers and the URL, and reach every handler |
| `ImageCacheProperties.SuccessNotifiesEachHandlerOnce` | src/com/ninja/examples/utility/images/ImageProvider.java:225-247 | a successful step keeps the old outbox as a prefix and appends exactly one message per handler of the resolved entry, each about that URL |
| `ImageCacheProperties.WorkerStepKeepsWellFormed` | src/com/ninja/examples/utility/images/ImageProvider.java:267-275 | a worker step marks a URL only when it is not marked and only removes pending entries, so the failed list and every entry stay duplicate-free |
| `ImageCacheProperties.WorkerStepKeepsDeduplicated` | src/com/ninja/examples/utility/images/ImageProvider.java:211-283 | a worker step keeps the queue duplicate-free and made of pending URLs |
| `ImageCacheProperties.WorkerStepKeepsPendingNotCached` | src/com/ninja/examples/utility/images/ImageProvider.java:225-230 | a worker step caches only the URL whose pending entry it removes, so no URL becomes both pending and cached |
| `ImageCacheProperties.WorkerStepPreservesInvariants` | src/com/ninja/examples/utility/images/ImageProvider.java:211-283 | a worker step keeps all three invariants, so the failed list never holds a URL twice |
| `ImageCacheProperties.UnresolvedAtMostPending` | src/com/ninja/examples/utility/images/ImageProvider.java:327-329 | under the deduplication invariant the queue is no longer than the number of pending entries |
| `ImageCacheProperties.NullResultLeavesEntryPending` | src/com/ninja/examples/utility/images/ImageProvider.java:254-266 | a null download result empties the queue but leaves the entry pending with its handler and sends no message |
| `ImageCacheProperties.InitializeBreaksDeduplication` | src/com/ninja/examples/utility/images/ImageProvider.java:85-87 | after the subscription reset, a request for a still-queued URL queues it a second time, breaking the deduplication invariant |
| `RetryBudget.StepSpendsBudget` | src/com/ninja/examples/utility/images/ImageProvider.java:254-275 | no worker step raises a URL's remaining attempts, and a step that downloads the URL lowers them by at least one |
| `RetryBudget.StepSpendsAllowance` | src/com/ninja/examples/utility/images/ImageProvider.java:211-283 | under the invariants no worker step raises the attempts still possible for a URL in this session, and a step that downloads it lowers them by at least one |
| `RetryBudget.RequestInSession` | src/com/ninja/examples/utility/images/ImageProvider.java:144-186 | a request that keeps the session leaves cache and failed list alone, queues the URL exactly when it was neither cached nor pending, and changes no other URL's pending status |
| `RetryBudget.RequestAllowance` | src/com/ninja/examples/utility/images/ImageProvider.java:171-182 | a request with that effect does not raise any URL's remaining attempts: a fresh URL is queued with exactly the attempts it was allowed |
| `RetryBudget.RequestKeepsAllowance` | src/com/ninja/examples/utility/images/ImageProvider.java:144-186 | a request that does not switch the session never raises a URL's remaining attempts |
| `RetryBudget.AttemptsWithinAllowance` | src/com/ninja/examples/utility/images/ImageProvider.java:144-283 | any interleaving of requests and worker steps inside one session, with no eviction, downloads a URL no more often than its allowance |
| `RetryBudget.AllowanceAtMostTwo` | src/com/ninja/examples/utility/images/ImageProvider.java:267-275 | under the deduplication invariant a URL has at most two attempts left, and at most one once it is marked failed |
| `RetryBudget.DownloadsAtMostTwiceWithoutEviction` | src/com/ninja/examples/utility/images/ImageProvider.java:144-283 | inside one session with no eviction, whatever requests and worker steps interleave, a URL is downloaded at most twice, and at most once if it already failed |
| `RetryBudget.StepSpendsFailAllowance` | src/com/ninja/examples/utility/images/ImageProvider.java:211-283 | under the deduplication invariant no worker step raises the failures still possible for a URL, and a step that downloads it without getting a bitmap lowers them by at least one |
| `RetryBudget.RequestFailAllowance` | src/com/ninja/examples/utility/images/ImageProvider.java:153-182 | a request with the in-session effect does not raise any URL's remaining failures: a pending URL is not queued again |
| `RetryBudget.RequestKeepsFailAllowance` | src/com/ninja/examples/utility/images/ImageProvider.java:144-186 | a request that does not switch the session never raises a URL's remaining failures |
| `RetryBudget.FailuresWithinAllowance` | src/com/ninja/examples/utility/images/ImageProvider.java:144-283 | any interleaving of requests, worker steps and evictions inside one session fails a URL's download no more often than its failure allowance |
| `RetryBudget.RetryAtMostOnce` | src/com/ninja/examples/utility/images/ImageProvider.java:267-275 | inside one session, whatever requests, worker steps and evictions interleave, a URL's download fails at most twice, and at most once if it already failed |
| `RetryBudget.EvictionAllowsThirdDownload` | src/com/ninja/examples/utility/images/ImageProvider.java:60-61 | in one session, a download, an eviction of its bitmap, a new request and two exceptions download the URL three times with two failures: the bound on all downloads needs the no-eviction condition |
| `RetryBudget.NoDownloadsWhileStranded` | src/com/ninja/examples/utility/images/ImageProvider.java:158-171 | a URL that is pending with no queued copy is never downloaded again in the session, whatever is requested or evicted |
| `RetryBudget.TwoFailures` | src/com/ninja/examples/utility/images/ImageProvider.java:267-275 | when the only queued URL throws twice, both steps download it; afterwards it is unqueued, marked and still pending |
| `RetryBudget.AlwaysFailingDownloadTriedTwice` | src/com/ninja/examples/utility/images/ImageProvider.java:267-275 | when the only queued URL, unmarked, throws twice, it is attempted exactly twice in the whole session whatever is requested or evicted later, and ends marked, unqueued and still pending |
| `RetryBudget.NoWorkersNoDownloads` | src/com/ninja/examples/utility/images/ImageProvider.java:211-222 | once every worker thread has ended, no event downloads anything and no worker comes back |
| `RetryBudget.TwoEscapesStopAllDownloads` | src/com/ninja/examples/utility/images/ImageProvider.java:254-256 | under plain Java thread semantics, two malformed URLs end both workers and stay pending, and no later request for any URL is ever downloaded |
| `ImageProviderService.ImageProvider.constructor` | src/com/ninja/examples/utility/images/ImageProvider.java:58-67 | all tables start empty with current activity `""`; all three invariants hold; the placeholders are the given ones |
| `ImageProviderService.ImageProvider.Initialize` | src/com/ninja/examples/utility/images/ImageProvider.java:85-87 | the in-place subscription reset agrees with `ResetSubscriptions`, keeps the shape invariant and leaves nothing pending |
| `ImageProviderService.ImageProvider.Clear` | src/com/ninja/examples/utility/images/ImageProvider.java:307-321 | the in-place clear agrees with `Clear`: all tables empty, activity untouched |
| `ImageProviderService.ImageProvider.SetCurrentActivity` | src/com/ninja/examples/utility/images/ImageProvider.java:323-325 | only the current activity changes; nothing is cleared |
| `ImageProviderService.ImageProvider.GetUnresolvedCount` | src/com/ninja/examples/utility/images/ImageProvider.java:327-329 | returns the queue length, which under the deduplication invariant is at most the number of pending entries |
| `ImageProviderService.ImageProvider.GetTimeoutCount` | src/com/ninja/examples/utility/images/ImageProvider.java:331-333 | returns the length of the failed list |
| `ImageProviderService.ImageProvider.GetBitmapFromCache` | src/com/ninja/examples/utility/images/ImageProvider.java:335-338 | returns a bitmap exactly when the URL is cached, and then the cached one |
| `ImageProviderService.ImageProvider.Reclaim` | src/com/ninja/examples/utility/images/ImageProvider.java:60-61 | the memory reclaimer drops one cache entry and nothing else |
| `ImageProviderService.ImageProvider.CacheBitmap` | src/com/ninja/examples/utility/images/ImageProvider.java:286-290 | the in-place store agrees with `CacheBitmap` |
| `ImageProviderService.ImageProvider.CheckSession` | src/com/ninja/examples/utility/images/ImageProvider.java:146-151 | the in-place session check agrees with `SessionCheck` |
| `ImageProviderService.ImageProvider.GetBitmap` | src/com/ninja/examples/utility/images/ImageProvider.java:144-186 | the in-place request agrees with `GetBitmap` in new state and result, and keeps all three invariants |
| `ImageProviderService.ImageProvider.DownloadBitmap` | src/com/ninja/examples/utility/images/ImageProvider.java:254-283 | returns the bitmap only for a successful outcome; a caught exception applies `RetryOnce`; `thrown` reports exactly the throwables that escape, which change nothing; otherwise nothing changes |
| `ImageProviderService.ImageProvider.NotifySubscribers` | src/com/ninja/examples/utility/images/ImageProvider.java:232-246 | the loop appends exactly `Notifications(handlers, url)` to the outbox and changes nothing else |
| `ImageProviderService.ImageProvider.CompleteDownload` | src/com/ninja/examples/utility/images/ImageProvider.java:225-247 | the in-place success path (remove the entry, cache, notify) agrees with `Complete` |
| `ImageProviderService.ImageProvider.WorkerStep` | src/com/ninja/examples/utility/images/ImageProvider.java:211-250 | the in-place worker iteration agrees with `WorkerStep`, ends the loop exactly when a throwable escapes for a non-empty URL, and keeps all three invariants |
| `ListViewExample.Displayed` | src/com/ninja/examples/CALNListViewExample.java:117-134 | no URL gives the coming-soon image (the loading image if that is null); a non-null provider answer is shown unchanged; a null answer gives the loading image; a non-null loading image makes the result non-null |
| `ListViewExample.SolveBitmapCrisis` | src/com/ninja/examples/CALNListViewExample.java:117-134 | without a URL the provider is untouched; with one, the provider moves exactly as `GetBitmap` with the row's handler and session `"BaseImageActivity"`, and the row shows `Displayed` of its answer; never null when the loading image is non-null |
| `ListViewExample.CacheHitShowsCachedBitmap` | src/com/ninja/examples/CALNListViewExample.java:120-133 | on a provider cache hit the row shows the cached bitmap itself, with no queue or subscription change |
| `ListViewExample.MissShowsLoadingImage` | src/com/ninja/examples/CALNListViewExample.java:129-132 | on a miss the row shows the loading image and its handler is subscribed to the URL |
| `Scenarios.SuccessfulDownload` | src/com/ninja/examples/utility/images/ImageProvider.java:144-250 | request, successful step, request again: the first returns null and queues once, the step sends one message, and the second is answered from the cache with no change |
| `Scenarios.FailingDownload` | src/com/ninja/examples/utility/images/ImageProvider.java:254-283 | a download that always throws is attempted twice, leaves one failed URL and an empty queue, and later requests keep showing the loading image without queueing it again |

## Left out

- RetryBudget.Next follows plain Java thread semantics: a throwable that escapes a worker ends that thread only. The source installs no uncaught-exception handler, and on Android the default handler ends the whole process, so after the first escape none of the four tables survives and the one-worker state is not reached there. `TwoEscapesStopAllDownloads` and `NoWorkersNoDownloads` describe the plain-JVM behaviour.
- RetryBudget.RetryAtMostOnce: the bound holds inside one session only; a request naming another activity, or a call of `clear`, empties the failed list, after which a URL may fail twice more. It bounds failed downloads; all downloads are bounded (by `DownloadsAtMostTwiceWithoutEviction`) only while nothing is evicted.
- Threads are modelled only as a count of live workers (`RetryBudget.Pool`): their creation and start-up, `TakeThreadStackAction`, thread priorities and daemon flags are not. A second `initialize` would try to restart a thread that has ended, which throws; this is not modelled. Each worker iteration is one atomic sequential step, so the race-dependent fall-through of the synchronized block in `getBitmap` cannot happen.
- `ImageCache.WorkerStep` and `ImageProvider.WorkerStep` require a non-empty queue, because `take()` blocks on an empty queue. An interrupted `take()` leaves the URL null and the iteration does nothing, so it is not modelled.
- DownloadBitmap: which URLs are malformed and when decoding runs out of memory are not modelled; the `Escaped` outcome stands for both, and its effect on the tables is that of a null result. The end of the worker thread is reported by `thrown` and counted in `RetryBudget.Pool`, not propagated as a Java throwable.
- HTTP and image decoding are replaced by the `Outcome` parameter. This covers `getBitmapImageOffThread` and its coming-soon fallback, which the worker never uses, and all of `APIRequest.java`.
- Memory-pressure eviction from the weak-reference cache is driven by the runtime. It is reduced to an explicit `Reclaim` method.
- Android message delivery and `ImageNotifyHandler` are replaced by the outbox. The worker's check that a handler is non-null is always true here, because handlers are never stored null.
- The placeholder images are not decoded from resources. They are constructor parameters, read through the `loadingImage` and `comingSoonImage` fields. Those fields stand in for `getLoadingImage` and `getComingSoonImage`.
- `ImageCache.GetBitmap` takes a non-null URL. A null URL makes the source throw a NullPointerException at the pending-entry lookup, and the list view never passes one.
- `JavaText.EqualsIgnoreCase` folds case for ASCII letters only. Java also maps other Unicode letters.
- Logging, `_applicationContext` set-up, the UI screens, the adapters, `BaseImageActivity`'s lifecycle handling, `CALNSingleImageExample.java` and the test data in `ImageBO.java` are not part of this model.
