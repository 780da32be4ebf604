/**
 * The image provider as an object whose tables are updated in place. The
 * source keeps them in static fields; here they are the fields of one
 * instance. Every method is proved to move `Snapshot()` exactly as the
 * corresponding function of ImageCache does, so the lemmas about those
 * functions (ImageCacheProperties, RetryBudget) hold of the object.
 */
module ImageProviderService {
  import opened Optional
  import opened JavaText
  import opened ImageCache
  import ImageCacheProperties

  class ImageProvider {
    var downloadQueue: seq<Url>
    var downloadSubscriptions: map<Url, seq<Handler>>
    var imageCache: map<Url, Bitmap>
    var timedOutCache: seq<Url>
    var currentActivity: Option<string>
    /** Messages sent to handlers, oldest first. */
    var outbox: seq<Notification>

    /** The placeholders decoded from resources by `initialize`. */
    const loadingImage: Option<Bitmap>
    const comingSoonImage: Option<Bitmap>

    function Snapshot(): State
      reads this
    {
      State(downloadQueue, downloadSubscriptions, imageCache, timedOutCache, currentActivity, outbox)
    }

    /** All tables empty and the current activity `""`, as after class loading. */
    constructor (loading: Option<Bitmap>, comingSoon: Option<Bitmap>)
      ensures Snapshot() == Initial()
      ensures WellFormed(Snapshot()) && Deduplicated(Snapshot()) && PendingNotCached(Snapshot())
      ensures loadingImage == loading && comingSoonImage == comingSoon
    {
      downloadQueue := [];
      downloadSubscriptions := map[];
      imageCache := map[];
      timedOutCache := [];
      currentActivity := Some("");
      outbox := [];
      loadingImage := loading;
      comingSoonImage := comingSoon;
    }

    /** The subscription reset of `initialize`; the queue is left alone. */
    method Initialize()
      modifies this
      ensures Snapshot() == ResetSubscriptions(old(Snapshot()))
      ensures WellFormed(old(Snapshot())) ==> WellFormed(Snapshot())
      ensures PendingNotCached(Snapshot())
    {
      downloadSubscriptions := map[];
    }

    method Clear()
      modifies this
      ensures Snapshot() == ImageCache.Clear(old(Snapshot()))
      ensures EmptyTables(Snapshot()) && currentActivity == old(currentActivity)
    {
      timedOutCache := [];
      downloadSubscriptions := map[];
      downloadQueue := [];
      imageCache := map[];
    }

    method SetCurrentActivity(name: Option<string>)
      modifies this
      ensures Snapshot() == old(Snapshot()).(currentActivity := name)
    {
      currentActivity := name;
    }

    method GetUnresolvedCount() returns (n: nat)
      ensures n == |downloadQueue|
      ensures Deduplicated(Snapshot()) ==> n <= |downloadSubscriptions|
    {
      n := |downloadQueue|;
      if Deduplicated(Snapshot()) {
        ImageCacheProperties.UnresolvedAtMostPending(Snapshot());
      }
    }

    method GetTimeoutCount() returns (n: nat)
      ensures n == |timedOutCache|
    {
      n := |timedOutCache|;
    }

    method GetBitmapFromCache(url: Url) returns (bitmap: Option<Bitmap>)
      ensures bitmap.Some? <==> url in imageCache
      ensures bitmap.Some? ==> bitmap.value == imageCache[url]
    {
      bitmap := if url in imageCache then Some(imageCache[url]) else None;
    }

    /** The memory reclaimer dropping a cache entry. */
    method Reclaim(url: Url)
      modifies this
      ensures Snapshot() == old(Snapshot()).(cache := old(imageCache) - {url})
    {
      imageCache := imageCache - {url};
    }

    method CacheBitmap(key: Option<Url>, b: Option<Bitmap>)
      modifies this
      ensures Snapshot() == ImageCache.CacheBitmap(old(Snapshot()), key, b)
    {
      if key.Some? && b.Some? {
        imageCache := imageCache[key.value := b.value];
      }
    }

    /** The session check that opens a request: adopt the name over an
        empty one, or clear everything when it differs ignoring case. */
    method CheckSession(activityName: Option<string>)
      modifies this
      ensures Snapshot() == SessionCheck(old(Snapshot()), activityName)
    {
      if currentActivity.None? || EqualsIgnoreCase(currentActivity.value, Some("")) {
        currentActivity := activityName;
      } else if !EqualsIgnoreCase(currentActivity.value, activityName) {
        Clear();
        currentActivity := activityName;
      }
    }

    /** Request intake: returns the cached bitmap, or `None` after merging
        the handler into the pending entry or creating one and queueing the
        URL. */
    method GetBitmap(url: Url, handler: Option<Handler>, activityName: Option<string>)
      returns (bitmap: Option<Bitmap>)
      modifies this
      ensures (Snapshot(), bitmap) == ImageCache.GetBitmap(old(Snapshot()), url, handler, activityName)
      ensures WellFormed(old(Snapshot())) ==> WellFormed(Snapshot())
      ensures Deduplicated(old(Snapshot())) ==> Deduplicated(Snapshot())
      ensures PendingNotCached(old(Snapshot())) ==> PendingNotCached(Snapshot())
    {
      ImageCacheProperties.GetBitmapPreservesInvariants(Snapshot(), url, handler, activityName);
      CheckSession(activityName);

      if url in imageCache {
        return Some(imageCache[url]);
      }

      if url in downloadSubscriptions {
        var subscriptions := downloadSubscriptions[url];
        if handler.None? || handler.value in subscriptions {
          assert downloadSubscriptions[url := subscriptions] == downloadSubscriptions;
          return None;
        }
        downloadSubscriptions := downloadSubscriptions[url := subscriptions + [handler.value]];
        return None;
      }

      var subscriptions := [];
      if handler.Some? {
        subscriptions := subscriptions + [handler.value];
      }
      downloadSubscriptions := downloadSubscriptions[url := subscriptions];
      downloadQueue := downloadQueue + [url];
      return None;
    }

    /** The download of one URL, with its outcome given: an exception
        re-queues and marks the URL unless it is marked already; `thrown`
        reports a throwable that leaves the method uncaught. */
    method DownloadBitmap(url: Url, outcome: Outcome) returns (bitmap: Option<Bitmap>, thrown: bool)
      modifies this
      ensures bitmap == if outcome.Ok? then Some(outcome.image) else None
      ensures thrown <==> outcome.Escaped?
      ensures Snapshot() == if outcome.Exception? then RetryOnce(old(Snapshot()), url) else old(Snapshot())
    {
      bitmap, thrown := None, false;
      match outcome
      case Ok(image) =>
        bitmap := Some(image);
      case NullResult =>
      case Exception =>
        if url !in timedOutCache {
          downloadQueue := downloadQueue + [url];
          timedOutCache := timedOutCache + [url];
        }
      case Escaped =>
        thrown := true;
    }

    /** Sends one message naming `url` to each handler, in order. */
    method NotifySubscribers(subscriptions: seq<Handler>, url: Url)
      modifies this`outbox
      ensures outbox == old(outbox) + Notifications(subscriptions, url)
    {
      var i := 0;
      while i < |subscriptions|
        invariant 0 <= i <= |subscriptions|
        invariant outbox == old(outbox) + Notifications(subscriptions[..i], url)
      {
        outbox := outbox + [Notification(subscriptions[i], url)];
        i := i + 1;
        assert Notifications(subscriptions[..i], url)
            == Notifications(subscriptions[..i - 1], url) + [Notification(subscriptions[i - 1], url)];
      }
      assert subscriptions[..i] == subscriptions;
    }

    /** The success path of a worker iteration: remove the pending entry,
        cache the bitmap, then notify the handlers the entry held. */
    method CompleteDownload(url: Url, image: Bitmap)
      modifies this
      ensures Snapshot() == Complete(old(Snapshot()), url, image)
    {
      var subscriptions := None;
      if url in downloadSubscriptions {
        subscriptions := Some(downloadSubscriptions[url]);
        downloadSubscriptions := downloadSubscriptions - {url};
      }
      CacheBitmap(Some(url), Some(image));
      if subscriptions.Some? {
        NotifySubscribers(subscriptions.value, url);
      }
    }

    /** One iteration of a download worker's loop; `continues` is false
        when a throwable escaped and the worker thread has ended. */
    method WorkerStep(outcome: Outcome) returns (continues: bool)
      requires |downloadQueue| > 0
      modifies this
      ensures Snapshot() == ImageCache.WorkerStep(old(Snapshot()), outcome)
      ensures continues <==> old(downloadQueue[0]) == "" || !outcome.Escaped?
      ensures WellFormed(old(Snapshot())) ==> WellFormed(Snapshot())
      ensures Deduplicated(old(Snapshot())) ==> Deduplicated(Snapshot())
      ensures PendingNotCached(old(Snapshot())) ==> PendingNotCached(Snapshot())
    {
      ImageCacheProperties.WorkerStepPreservesInvariants(Snapshot(), outcome);
      var url := downloadQueue[0];
      downloadQueue := downloadQueue[1..];
      continues := true;
      if |url| > 0 {
        var downloaded, thrown := DownloadBitmap(url, outcome);
        if thrown {
          return false;
        }
        if downloaded.Some? {
          CompleteDownload(url, downloaded.value);
        }
      }
    }
  }

}
