/**
 * Two end-to-end runs of the provider from its initial state: a download
 * that succeeds, and one that always throws.
 */
module Scenarios {
  import opened Optional
  import opened ImageCache
  import opened RetryBudget
  import opened ListViewExample

  /** A first request misses and queues the URL; one successful step caches
      the bitmap and sends the handler one message; the next request is
      answered from the cache without queueing anything. */
  lemma SuccessfulDownload(handler: Handler, image: Bitmap)
    ensures var url := "a.png";
      var (s1, b1) := ImageCache.GetBitmap(Initial(), url, Some(handler), Some(SessionName));
      var s2 := WorkerStep(s1, Ok(image));
      var (s3, b3) := ImageCache.GetBitmap(s2, url, Some(handler), Some(SessionName));
      && b1 == None && s1.queue == [url]
      && s2.outbox == [Notification(handler, url)]
      && s2.queue == [] && s2.subscriptions == map[]
      && b3 == Some(image) && s3 == s2
  {
  }

  /** A download that always throws is tried twice, leaves one failed URL,
      and the row keeps showing the loading image for good: the pending
      entry is never resolved and is never queued again. */
  lemma FailingDownload(handler: Handler, comingSoon: Option<Bitmap>, loading: Option<Bitmap>)
    ensures var url := "bad.png";
      var p1 := Pool(ImageCache.GetBitmap(Initial(), url, Some(handler), Some(SessionName)).0,
                     DownloadThreadCount);
      var failures := [Step(Exception), Step(Exception)];
      var s3 := Run(p1, failures).state;
      var (s4, b4) := ImageCache.GetBitmap(s3, url, Some(handler), Some(SessionName));
      && AttemptCount(p1, failures, url) == 2
      && |s3.timedOut| == 1 && s3.queue == []
      && s4 == s3
      && Displayed(Some(url), b4, comingSoon, loading) == loading
  {
  }

}
