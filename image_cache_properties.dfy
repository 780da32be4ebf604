/**
 * What the provider's operations guarantee together: the deduplication
 * invariant, idempotent subscription, session invalidation, exactly-once
 * notification, and how the queue length relates to the pending entries.
 */
module ImageCacheProperties {
  import opened Optional
  import opened ImageCache

  lemma {:induction false} NoDupCount(q: seq<Url>, u: Url)
    requires NoDup(q)
    ensures Count(q, u) <= 1
  {
    if q != [] {
      assert NoDup(q[1..]) by {
        forall i, j | 0 <= i < j < |q[1..]| ensures q[1..][i] != q[1..][j] {
          assert q[1..][i] == q[i + 1] && q[1..][j] == q[j + 1];
        }
      }
      NoDupCount(q[1..], u);
      if q[0] == u {
        assert u !in q[1..] by {
          forall k | 0 <= k < |q[1..]| ensures q[1..][k] != u {
            assert q[1..][k] == q[k + 1];
          }
        }
      }
    }
  }

  /** While the deduplication invariant holds, no URL has more than one
      queued fetch. */
  lemma AtMostOneQueuedFetch(s: State, u: Url)
    requires Deduplicated(s)
    ensures Count(s.queue, u) <= 1
    ensures u in s.queue ==> u in s.subscriptions
  {
    NoDupCount(s.queue, u);
  }

  lemma SessionCheckPreservesInvariants(s: State, activityName: Option<string>)
    ensures WellFormed(s) ==> WellFormed(SessionCheck(s, activityName))
    ensures Deduplicated(s) ==> Deduplicated(SessionCheck(s, activityName))
    ensures PendingNotCached(s) ==> PendingNotCached(SessionCheck(s, activityName))
  {
  }

  lemma AppendKeepsNoDup<T>(q: seq<T>, x: T)
    requires NoDup(q) && x !in q
    ensures NoDup(q + [x])
  {
    forall i, j | 0 <= i < j < |q + [x]| ensures (q + [x])[i] != (q + [x])[j] {
      assert (q + [x])[i] == q[i];
    }
  }

  /** `getBitmap` keeps every pending entry free of duplicates. */
  lemma GetBitmapKeepsWellFormed(s: State, url: Url, handler: Option<Handler>, activityName: Option<string>)
    requires WellFormed(s)
    ensures WellFormed(GetBitmap(s, url, handler, activityName).0)
  {
    SessionCheckPreservesInvariants(s, activityName);
    var t := SessionCheck(s, activityName);
    var r := GetBitmap(s, url, handler, activityName).0;
    forall u | u in r.subscriptions ensures NoDup(r.subscriptions[u]) {
      if u != url {
        assert r.subscriptions[u] == t.subscriptions[u];
      } else if url !in t.cache && url in t.subscriptions {
        assert NoDup(t.subscriptions[url]);
      } else if url !in t.cache {
        assert NoDup<Handler>([]);
      }
    }
  }

  /** `getBitmap` never queues a second fetch: it queues a URL only when it
      has no pending entry, and gives it one at the same time. */
  lemma GetBitmapKeepsDeduplicated(s: State, url: Url, handler: Option<Handler>, activityName: Option<string>)
    requires Deduplicated(s)
    ensures Deduplicated(GetBitmap(s, url, handler, activityName).0)
  {
    SessionCheckPreservesInvariants(s, activityName);
    var t := SessionCheck(s, activityName);
    var r := GetBitmap(s, url, handler, activityName).0;
    assert t.subscriptions.Keys <= r.subscriptions.Keys;
    if url !in t.cache && url !in t.subscriptions {
      assert url !in t.queue;
      AppendKeepsNoDup(t.queue, url);
      forall i | 0 <= i < |r.queue| ensures r.queue[i] in r.subscriptions {
        if i < |t.queue| {
          assert r.queue[i] == t.queue[i];
        }
      }
    }
  }

  /** `getBitmap` subscribes only to a URL it did not find in the cache. */
  lemma GetBitmapKeepsPendingNotCached(s: State, url: Url, handler: Option<Handler>, activityName: Option<string>)
    requires PendingNotCached(s)
    ensures PendingNotCached(GetBitmap(s, url, handler, activityName).0)
  {
    SessionCheckPreservesInvariants(s, activityName);
  }

  /** `getBitmap` keeps all three invariants. */
  lemma GetBitmapPreservesInvariants(s: State, url: Url, handler: Option<Handler>, activityName: Option<string>)
    ensures WellFormed(s) ==> WellFormed(GetBitmap(s, url, handler, activityName).0)
    ensures Deduplicated(s) ==> Deduplicated(GetBitmap(s, url, handler, activityName).0)
    ensures PendingNotCached(s) ==> PendingNotCached(GetBitmap(s, url, handler, activityName).0)
  {
    if PendingNotCached(s) {
      GetBitmapKeepsPendingNotCached(s, url, handler, activityName);
    }
    if WellFormed(s) {
      GetBitmapKeepsWellFormed(s, url, handler, activityName);
    }
    if Deduplicated(s) {
      GetBitmapKeepsDeduplicated(s, url, handler, activityName);
    }
  }

  /** No duplicate enqueue: whenever `url` already has a pending entry after
      the session check, `getBitmap` leaves the queue as it was, whatever
      handler is passed. */
  lemma PendingRequestNeverEnqueues(s: State, url: Url, handler: Option<Handler>, activityName: Option<string>)
    requires url in SessionCheck(s, activityName).subscriptions
    ensures GetBitmap(s, url, handler, activityName).0.queue == SessionCheck(s, activityName).queue
    ensures Count(GetBitmap(s, url, handler, activityName).0.queue, url)
         == Count(SessionCheck(s, activityName).queue, url)
    ensures GetBitmap(s, url, handler, activityName).1 == None
         || url in SessionCheck(s, activityName).cache
  {
  }

  /** A session check followed by anything that keeps the activity name
      finds nothing more to do. */
  lemma {:induction false} SessionCheckSettles(s: State, s': State, activityName: Option<string>)
    requires s'.currentActivity == SessionCheck(s, activityName).currentActivity
    ensures SessionCheck(s', activityName) == s'
  {
  }

  /** Idempotent subscription: repeating a request with the same URL,
      handler and activity changes nothing and returns the same result. */
  lemma {:induction false} GetBitmapIdempotent(s: State, url: Url, handler: Option<Handler>, activityName: Option<string>)
    ensures var (s1, b1) := GetBitmap(s, url, handler, activityName);
      GetBitmap(s1, url, handler, activityName) == (s1, b1)
  {
    var (s1, b1) := GetBitmap(s, url, handler, activityName);
    SessionCheckSettles(s, s1, activityName);
    var t := SessionCheck(s, activityName);
    if url !in t.cache {
      assert url in s1.subscriptions;
      assert handler.Some? ==> handler.value in s1.subscriptions[url];
      assert Subscribe(s1.subscriptions[url], handler) == s1.subscriptions[url];
      assert s1.subscriptions[url := s1.subscriptions[url]] == s1.subscriptions;
    }
  }

  /** Session invalidation: a request naming a different activity than a
      non-empty current one starts from empty tables, so even a URL cached
      under the old activity misses and is queued afresh. */
  lemma SessionSwitchStartsOver(s: State, url: Url, handler: Option<Handler>, activityName: Option<string>)
    requires SwitchesSession(s, activityName)
    ensures var (s1, b) := GetBitmap(s, url, handler, activityName);
      && b == None
      && s1.queue == [url]
      && s1.subscriptions == map[url := Subscribe([], handler)]
      && s1.cache == map[] && s1.timedOut == []
      && s1.currentActivity == activityName
      && s1.outbox == s.outbox
  {
  }

  /** The switch is decided by the current name only: it also happens when
      the new name is empty, and then the next request adopts any name
      without clearing. */
  lemma SwitchToEmptyNameClears(s: State)
    requires s.currentActivity.Some? && s.currentActivity.value != ""
    ensures SwitchesSession(s, Some(""))
    ensures SwitchesSession(s, None)
    ensures forall a :: SessionCheck(SessionCheck(s, Some("")), a)
                     == SessionCheck(s, Some("")).(currentActivity := a)
  {
  }

  /** The messages for one entry name only that entry's handlers and URL,
      one per handler. */
  lemma NotificationsOncePerHandler(handlers: seq<Handler>, url: Url)
    requires NoDup(handlers)
    ensures var sent := Notifications(handlers, url);
      && NoDup(sent)
      && (forall n :: n in sent ==> n.url == url && n.handler in handlers)
      && (forall h :: h in handlers ==> Notification(h, url) in sent)
  {
  }

  /** Exactly-once notification: a successful step sends each handler of
      the resolved entry one message about that URL, and no other message. */
  lemma SuccessNotifiesEachHandlerOnce(s: State, image: Bitmap)
    requires WellFormed(s) && |s.queue| > 0 && s.queue[0] != ""
    ensures var u := s.queue[0];
      var r := WorkerStep(s, Ok(image));
      && |s.outbox| <= |r.outbox| && r.outbox[..|s.outbox|] == s.outbox
      && NoDup(r.outbox[|s.outbox|..])
      && (forall n :: n in r.outbox[|s.outbox|..] ==> n.url == u && n.handler in EntryOf(s, u))
      && (forall h :: h in EntryOf(s, u) ==> Notification(h, u) in r.outbox[|s.outbox|..])
  {
    var u := s.queue[0];
    var r := WorkerStep(s, Ok(image));
    var sent := Notifications(EntryOf(s, u), u);
    assert r.outbox == s.outbox + sent;
    assert r.outbox[|s.outbox|..] == sent;
    assert r.outbox[..|s.outbox|] == s.outbox;
    NotificationsOncePerHandler(EntryOf(s, u), u);
  }

  lemma {:induction false} NoDupTail(q: seq<Url>)
    requires NoDup(q) && |q| > 0
    ensures NoDup(q[1..]) && q[0] !in q[1..]
  {
  }

  /** A worker step keeps the failed list free of duplicates: a URL is
      marked only when it is not marked yet. */
  lemma WorkerStepKeepsWellFormed(s: State, outcome: Outcome)
    requires |s.queue| > 0 && WellFormed(s)
    ensures WellFormed(WorkerStep(s, outcome))
  {
    var u := s.queue[0];
    if outcome.Exception? && u != "" && u !in s.timedOut {
      AppendKeepsNoDup(s.timedOut, u);
    }
  }

  /** A worker step keeps the queue duplicate-free and made of pending
      URLs: success removes the entry of the URL it pops, whose only queued
      copy is gone, and a retry re-queues the URL it just popped. */
  lemma WorkerStepKeepsDeduplicated(s: State, outcome: Outcome)
    requires |s.queue| > 0 && Deduplicated(s)
    ensures Deduplicated(WorkerStep(s, outcome))
  {
    var u := s.queue[0];
    var rest := s.queue[1..];
    var r := WorkerStep(s, outcome);
    NoDupTail(s.queue);
    assert forall k :: 0 <= k < |rest| ==> rest[k] == s.queue[k + 1];
    if u != "" && outcome.Exception? && u !in s.timedOut {
      AppendKeepsNoDup(rest, u);
    }
    forall i | 0 <= i < |r.queue| ensures r.queue[i] in r.subscriptions {
      if i < |rest| {
        assert r.queue[i] == rest[i] && rest[i] != u;
      }
    }
  }

  /** A worker step caches only the URL whose entry it removes. */
  lemma WorkerStepKeepsPendingNotCached(s: State, outcome: Outcome)
    requires |s.queue| > 0 && PendingNotCached(s)
    ensures PendingNotCached(WorkerStep(s, outcome))
  {
  }

  /** A worker step keeps all three invariants. */
  lemma WorkerStepPreservesInvariants(s: State, outcome: Outcome)
    requires |s.queue| > 0
    ensures WellFormed(s) ==> WellFormed(WorkerStep(s, outcome))
    ensures Deduplicated(s) ==> Deduplicated(WorkerStep(s, outcome))
    ensures PendingNotCached(s) ==> PendingNotCached(WorkerStep(s, outcome))
  {
    if PendingNotCached(s) {
      WorkerStepKeepsPendingNotCached(s, outcome);
    }
    if WellFormed(s) {
      WorkerStepKeepsWellFormed(s, outcome);
    }
    if Deduplicated(s) {
      WorkerStepKeepsDeduplicated(s, outcome);
    }
  }

  lemma {:induction false} NoDupCardinality(q: seq<Url>)
    requires NoDup(q)
    ensures |set i | 0 <= i < |q| :: q[i]| == |q|
  {
    if q != [] {
      NoDupTail(q);
      NoDupCardinality(q[1..]);
      var tail := set i | 0 <= i < |q[1..]| :: q[1..][i];
      var all := set i | 0 <= i < |q| :: q[i];
      assert all == {q[0]} + tail by {
        forall x | x in all ensures x in {q[0]} + tail {
          var i :| 0 <= i < |q| && q[i] == x;
          if i > 0 { assert q[1..][i - 1] == x; }
        }
        forall x | x in tail ensures x in all {
          var i :| 0 <= i < |q[1..]| && q[1..][i] == x;
          assert q[i + 1] == x;
        }
      }
      assert q[0] !in tail;
    }
  }

  /** The unresolved count (the queue length) never exceeds the number of
      pending entries while the deduplication invariant holds. */
  lemma UnresolvedAtMostPending(s: State)
    requires Deduplicated(s)
    ensures |s.queue| <= |s.subscriptions|
  {
    NoDupCardinality(s.queue);
    var queued := set i | 0 <= i < |s.queue| :: s.queue[i];
    assert queued <= s.subscriptions.Keys;
    assert |queued| <= |s.subscriptions.Keys| by {
      SubsetCardinality(queued, s.subscriptions.Keys);
    }
  }

  lemma SubsetCardinality(a: set<Url>, b: set<Url>)
    requires a <= b
    ensures |a| <= |b|
  {
    assert b == a + (b - a);
  }

  /** The converse does not hold: a URL whose download returned null stays
      pending but leaves the queue, so a zero unresolved count does not
      mean that every request was answered. */
  lemma NullResultLeavesEntryPending(url: Url, handler: Handler)
    requires url != ""
    ensures var s1 := GetBitmap(Initial(), url, Some(handler), Some("ListView")).0;
      var s2 := WorkerStep(s1, NullResult);
      && s2.queue == []
      && s2.subscriptions == map[url := [handler]]
      && s2.outbox == []
  {
  }

  /** `initialize` drops the pending entries but keeps the queue, so a
      later request for a still-queued URL queues it a second time: the
      deduplication invariant holds for every operation except this one. */
  lemma InitializeBreaksDeduplication(url: Url, activityName: string)
    requires activityName != ""
    ensures var s := State([url], map[url := []], map[], [], Some(activityName), []);
      var r := GetBitmap(ResetSubscriptions(s), url, None, Some(activityName)).0;
      && Deduplicated(s)
      && r.queue == [url, url]
      && Count(r.queue, url) == 2
      && !Deduplicated(r)
  {
  }

}
