/**
 * The retry-once bound, over runs that interleave requests, worker steps
 * and evictions from the cache. A session ends when a request names a
 * different activity or when `clear` is called (the base activity calls it
 * when it pauses); the bounds hold inside one session.
 *
 * - Failed downloads: a URL fails at most twice per session, and at most
 *   once after it was marked. A failure on a marked URL, or a null result,
 *   leaves it pending and unqueued for the rest of the session; the first
 *   exception marks it for the rest of the session.
 * - All downloads: while no cached bitmap is evicted, a URL is downloaded at
 *   most twice per session. An eviction lets a later request download it
 *   again (`EvictionAllowsThirdDownload`).
 *
 * The download threads are counted too: there are two, and under plain
 * Java thread semantics a throwable that escapes `downloadBitmap` ends the
 * thread that met it.
 */
module RetryBudget {
  import opened Optional
  import opened ImageCache
  import opened ImageCacheProperties

  /** The number of download threads `initialize` starts. */
  const DownloadThreadCount: nat := 2

  /** What happens next to the provider: a `getBitmap` call, one iteration
      of some live worker with the outcome of its download, the runtime
      dropping a cached bitmap, or a call of `clear`. */
  datatype Event =
    | Request(url: Url, handler: Option<Handler>, activityName: Option<string>)
    | Step(outcome: Outcome)
    | Evict(url: Url)
    | ClearTables

  /** The provider's tables together with the number of live workers. */
  datatype Pool = Pool(state: State, workers: nat)

  /** The invariants the bound relies on. */
  predicate Invariant(s: State) {
    Deduplicated(s) && PendingNotCached(s)
  }

  /** True when the next worker step downloads `u`. */
  predicate Attempts(s: State, u: Url) {
    |s.queue| > 0 && s.queue[0] == u && u != ""
  }

  /** A step happens only while some worker is alive and the queue is
      non-empty (otherwise every worker is blocked in `take`, or none is
      left). An escaped throwable on a non-empty URL ends one worker, as a
      plain Java thread without an uncaught-exception handler would. */
  function Next(p: Pool, e: Event): Pool {
    match e
    case Request(v, h, a) => Pool(GetBitmap(p.state, v, h, a).0, p.workers)
    case Step(o) =>
      if p.workers == 0 || |p.state.queue| == 0 then p
      else Pool(WorkerStep(p.state, o),
                if p.state.queue[0] != "" && o.Escaped? then p.workers - 1 else p.workers)
    case Evict(v) => Pool(p.state.(cache := p.state.cache - {v}), p.workers)
    case ClearTables => Pool(Clear(p.state), p.workers)
  }

  /** True when `e`, applied to `p`, downloads `u`. */
  predicate Downloads(p: Pool, e: Event, u: Url) {
    e.Step? && p.workers > 0 && Attempts(p.state, u)
  }

  /** True when `e`, applied to `p`, downloads `u` and gets no bitmap. */
  predicate Fails(p: Pool, e: Event, u: Url) {
    Downloads(p, e, u) && !e.outcome.Ok?
  }

  function Run(p: Pool, events: seq<Event>): Pool
    decreases |events|
  {
    if events == [] then p else Run(Next(p, events[0]), events[1..])
  }

  /** How many events of the run download `u`. */
  function AttemptCount(p: Pool, events: seq<Event>, u: Url): nat
    decreases |events|
  {
    if events == [] then 0
    else (if Downloads(p, events[0], u) then 1 else 0) + AttemptCount(Next(p, events[0]), events[1..], u)
  }

  /** How many events of the run download `u` and get no bitmap. */
  function FailureCount(p: Pool, events: seq<Event>, u: Url): nat
    decreases |events|
  {
    if events == [] then 0
    else (if Fails(p, events[0], u) then 1 else 0) + FailureCount(Next(p, events[0]), events[1..], u)
  }

  /** The run stays in one session: no request switches it and `clear` is
      not called. */
  predicate InSession(p: Pool, events: seq<Event>)
    decreases |events|
  {
    events == []
    || (!events[0].ClearTables?
        && (events[0].Request? ==> !SwitchesSession(p.state, events[0].activityName))
        && InSession(Next(p, events[0]), events[1..]))
  }

  predicate NoEviction(events: seq<Event>) {
    forall i :: 0 <= i < |events| ==> !events[i].Evict?
  }

  /** The most download attempts of `u` that worker steps alone can still
      make from `s`. */
  function Budget(s: State, u: Url): nat {
    Count(s.queue, u) + (if Count(s.queue, u) > 0 && u !in s.timedOut then 1 else 0)
  }

  /** The most download attempts of `u` still possible in this session
      while nothing is evicted: none once cached, the budget while pending,
      and what a fresh request would give it otherwise. */
  function Allowance(s: State, u: Url): nat {
    if u in s.cache then 0
    else if u in s.subscriptions then Budget(s, u)
    else if u in s.timedOut then 1
    else 2
  }

  /** The most failed downloads of `u` still possible in this session: none
      once it is pending with no queued copy (nothing will queue it again),
      one once it is marked, two otherwise. */
  function FailAllowance(s: State, u: Url): nat {
    if u in s.subscriptions && u !in s.queue then 0
    else if u in s.timedOut then 1
    else 2
  }

  lemma {:induction false} CountAppend(q: seq<Url>, v: Url, u: Url)
    ensures Count(q + [v], u) == Count(q, u) + (if v == u then 1 else 0)
  {
    if q == [] {
      assert [v][1..] == [];
    } else {
      assert (q + [v])[1..] == q[1..] + [v];
      CountAppend(q[1..], v, u);
    }
  }

  /** One worker step never raises the budget of `u`, and lowers it by at
      least one when it downloads `u`. */
  lemma StepSpendsBudget(s: State, outcome: Outcome, u: Url)
    requires |s.queue| > 0
    ensures Budget(WorkerStep(s, outcome), u) + (if Attempts(s, u) then 1 else 0) <= Budget(s, u)
  {
    var head := s.queue[0];
    var rest := s.queue[1..];
    var r := WorkerStep(s, outcome);
    assert Count(s.queue, u) == (if head == u then 1 else 0) + Count(rest, u);
    if head != "" && outcome.Exception? && head !in s.timedOut {
      // popped and re-queued: the copies stay, the one extra attempt is spent
      CountAppend(rest, head, u);
      assert r.queue == rest + [head] && r.timedOut == s.timedOut + [head];
    } else {
      // popped for good: one copy fewer, no new mark on another URL
      assert r.queue == rest;
      assert u in r.timedOut ==> u in s.timedOut || u == head;
    }
  }

  /** One worker step never raises the allowance of `u`, and lowers it by at
      least one when it downloads `u`. */
  lemma StepSpendsAllowance(s: State, outcome: Outcome, u: Url)
    requires |s.queue| > 0 && Invariant(s)
    ensures Allowance(WorkerStep(s, outcome), u) + (if Attempts(s, u) then 1 else 0) <= Allowance(s, u)
  {
    var head := s.queue[0];
    var r := WorkerStep(s, outcome);
    assert head in s.subscriptions;
    if u in s.subscriptions {
      StepSpendsBudget(s, outcome, u);
      if Attempts(s, u) {
        assert Budget(s, u) >= 1;
      }
    } else if u in s.cache {
      assert u in r.cache;
    } else {
      // neither pending nor cached, so not queued: the step is about another URL
      assert u != head;
      assert u !in r.subscriptions && u !in r.cache;
      assert u in r.timedOut ==> u in s.timedOut;
    }
  }

  /** A request that keeps the session never raises the allowance of `u`:
      a fresh request queues a URL with exactly the attempts it was
      allowed, and a request for another URL leaves `u`'s copies alone. */
  lemma RequestKeepsAllowance(s: State, v: Url, h: Option<Handler>, a: Option<string>, u: Url)
    requires Invariant(s) && !SwitchesSession(s, a)
    ensures Allowance(GetBitmap(s, v, h, a).0, u) <= Allowance(s, u)
  {
    RequestInSession(s, v, h, a);
    RequestAllowance(s, GetBitmap(s, v, h, a).0, v, u);
  }

  /** The allowance argument of `RequestKeepsAllowance`, on the effect
      `RequestInSession` states. */
  lemma RequestAllowance(s: State, r: State, v: Url, u: Url)
    requires Invariant(s)
    requires r.cache == s.cache && r.timedOut == s.timedOut
    requires v in s.cache || v in s.subscriptions ==> r.queue == s.queue
    requires v !in s.cache && v !in s.subscriptions ==> r.queue == s.queue + [v]
    requires v !in s.cache ==> v in r.subscriptions
    requires forall w :: w != v ==> (w in r.subscriptions <==> w in s.subscriptions)
    ensures Allowance(r, u) <= Allowance(s, u)
  {
    if u in s.cache {
      assert Allowance(r, u) == 0;
    } else if u == v && u !in s.subscriptions {
      // a fresh request: one copy, and the retry unless already marked
      CountAppend(s.queue, u, u);
      assert Count(s.queue, u) == 0;
    } else {
      if v !in s.cache && v !in s.subscriptions {
        CountAppend(s.queue, v, u);
      }
      assert Count(r.queue, u) == Count(s.queue, u);
    }
  }

  /** What a request that keeps the session does to the tables the
      allowance reads. */
  lemma RequestInSession(s: State, v: Url, h: Option<Handler>, a: Option<string>)
    requires !SwitchesSession(s, a)
    ensures var r := GetBitmap(s, v, h, a).0;
      && r.cache == s.cache && r.timedOut == s.timedOut
      && (v in s.cache || v in s.subscriptions ==> r.queue == s.queue)
      && (v in s.cache ==> r.subscriptions == s.subscriptions)
      && (v !in s.cache && v !in s.subscriptions ==> r.queue == s.queue + [v])
      && (v !in s.cache ==> v in r.subscriptions)
      && (forall w :: w != v ==> (w in r.subscriptions <==> w in s.subscriptions))
  {
    var t := SessionCheck(s, a);
    assert t == s.(currentActivity := t.currentActivity);
  }

  /** The allowance bounds the attempts of any run inside one session in
      which nothing is evicted. */
  lemma {:induction false} AttemptsWithinAllowance(p: Pool, events: seq<Event>, u: Url)
    requires Invariant(p.state) && InSession(p, events) && NoEviction(events)
    ensures AttemptCount(p, events, u) <= Allowance(p.state, u)
    decreases |events|
  {
    if events != [] {
      var e := events[0];
      assert NoEviction(events[1..]) by {
        forall i | 0 <= i < |events[1..]| ensures !events[1..][i].Evict? {
          assert events[1..][i] == events[i + 1];
        }
      }
      assert !e.Evict? && !e.ClearTables?;
      if e.Request? {
        RequestKeepsAllowance(p.state, e.url, e.handler, e.activityName, u);
        GetBitmapPreservesInvariants(p.state, e.url, e.handler, e.activityName);
      } else if p.workers > 0 && |p.state.queue| > 0 {
        StepSpendsAllowance(p.state, e.outcome, u);
        WorkerStepPreservesInvariants(p.state, e.outcome);
      }
      AttemptsWithinAllowance(Next(p, e), events[1..], u);
    }
  }

  lemma AllowanceAtMostTwo(s: State, u: Url)
    requires Deduplicated(s)
    ensures Allowance(s, u) <= 2
    ensures u in s.timedOut ==> Allowance(s, u) <= 1
  {
    AtMostOneQueuedFetch(s, u);
  }

  /** Inside one session in which nothing is evicted, whatever requests and
      worker steps interleave, a URL is downloaded at most twice, and at
      most once when it has already failed once. */
  lemma DownloadsAtMostTwiceWithoutEviction(p: Pool, events: seq<Event>, u: Url)
    requires Invariant(p.state) && InSession(p, events) && NoEviction(events)
    ensures AttemptCount(p, events, u) <= 2
    ensures u in p.state.timedOut ==> AttemptCount(p, events, u) <= 1
  {
    AllowanceAtMostTwo(p.state, u);
    AttemptsWithinAllowance(p, events, u);
  }

  /** One worker step never raises the failure allowance of `u`, and lowers
      it by at least one when it downloads `u` and gets no bitmap. */
  lemma StepSpendsFailAllowance(s: State, outcome: Outcome, u: Url)
    requires |s.queue| > 0 && Deduplicated(s)
    ensures FailAllowance(WorkerStep(s, outcome), u) + (if Attempts(s, u) && !outcome.Ok? then 1 else 0)
         <= FailAllowance(s, u)
  {
    var head := s.queue[0];
    var rest := s.queue[1..];
    var r := WorkerStep(s, outcome);
    assert Count(s.queue, u) == (if head == u then 1 else 0) + Count(rest, u);
    assert r.queue == rest || r.queue == rest + [head];
    if head == u {
      // the only queued copy is popped; it comes back only by a first exception
      AtMostOneQueuedFetch(s, u);
      assert u !in rest;
    } else {
      assert u in r.queue <==> u in s.queue;
      assert u in r.subscriptions <==> u in s.subscriptions;
      assert u in r.timedOut <==> u in s.timedOut;
    }
  }

  /** A request that keeps the session never raises the failure allowance
      of any URL. */
  lemma RequestKeepsFailAllowance(s: State, v: Url, h: Option<Handler>, a: Option<string>, u: Url)
    requires !SwitchesSession(s, a)
    ensures FailAllowance(GetBitmap(s, v, h, a).0, u) <= FailAllowance(s, u)
  {
    RequestInSession(s, v, h, a);
    RequestFailAllowance(s, GetBitmap(s, v, h, a).0, v, u);
  }

  /** The argument of `RequestKeepsFailAllowance`, on the effect
      `RequestInSession` states. */
  lemma RequestFailAllowance(s: State, r: State, v: Url, u: Url)
    requires r.cache == s.cache && r.timedOut == s.timedOut
    requires v in s.cache || v in s.subscriptions ==> r.queue == s.queue
    requires v in s.cache ==> r.subscriptions == s.subscriptions
    requires v !in s.cache && v !in s.subscriptions ==> r.queue == s.queue + [v]
    requires v !in s.cache ==> v in r.subscriptions
    requires forall w :: w != v ==> (w in r.subscriptions <==> w in s.subscriptions)
    ensures FailAllowance(r, u) <= FailAllowance(s, u)
  {
    if u != v {
      assert u in r.queue <==> u in s.queue;
    } else if u !in s.cache && u !in s.subscriptions {
      assert u in r.queue;
    }
  }

  /** The failure allowance bounds the failed downloads of any run inside
      one session, evictions included. */
  lemma {:induction false} FailuresWithinAllowance(p: Pool, events: seq<Event>, u: Url)
    requires Deduplicated(p.state) && InSession(p, events)
    ensures FailureCount(p, events, u) <= FailAllowance(p.state, u)
    decreases |events|
  {
    if events != [] {
      var e := events[0];
      match e
      case Request(v, h, a) =>
        RequestKeepsFailAllowance(p.state, v, h, a, u);
        GetBitmapPreservesInvariants(p.state, v, h, a);
        FailuresWithinAllowance(Next(p, e), events[1..], u);
      case Step(o) =>
        if p.workers > 0 && |p.state.queue| > 0 {
          StepSpendsFailAllowance(p.state, o, u);
          WorkerStepPreservesInvariants(p.state, o);
        }
        FailuresWithinAllowance(Next(p, e), events[1..], u);
      case Evict(v) =>
        FailuresWithinAllowance(Next(p, e), events[1..], u);
    }
  }

  /** Retry-once bound: inside one session, whatever requests, worker steps
      and evictions interleave, a URL's download fails at most twice, and at
      most once when it has already failed once. */
  lemma RetryAtMostOnce(p: Pool, events: seq<Event>, u: Url)
    requires Deduplicated(p.state) && InSession(p, events)
    ensures FailureCount(p, events, u) <= 2
    ensures u in p.state.timedOut ==> FailureCount(p, events, u) <= 1
  {
    FailuresWithinAllowance(p, events, u);
  }

  /** Counting over a run split in two. */
  lemma {:induction false} RunAppend(p: Pool, a: seq<Event>, b: seq<Event>, u: Url)
    ensures Run(p, a + b) == Run(Run(p, a), b)
    ensures AttemptCount(p, a + b, u) == AttemptCount(p, a, u) + AttemptCount(Run(p, a), b, u)
    ensures FailureCount(p, a + b, u) == FailureCount(p, a, u) + FailureCount(Run(p, a), b, u)
    ensures InSession(p, a) && InSession(Run(p, a), b) ==> InSession(p, a + b)
    decreases |a|
  {
    if a == [] {
      assert a + b == b;
    } else {
      assert (a + b)[0] == a[0] && (a + b)[1..] == a[1..] + b;
      RunAppend(Next(p, a[0]), a[1..], b, u);
    }
  }

  /** Eviction is why the bound on all downloads needs `NoEviction`: a
      bitmap downloaded, evicted and requested again is downloaded anew,
      and may then fail twice, so one session downloads it three times. */
  lemma EvictionAllowsThirdDownload(u: Url, image: Bitmap)
    requires u != ""
    ensures var events := [Request(u, None, Some("ListView")), Step(Ok(image)), Evict(u),
                           Request(u, None, Some("ListView")), Step(Exception), Step(Exception)];
      var p := Pool(Initial(), DownloadThreadCount);
      && InSession(p, events)
      && AttemptCount(p, events, u) == 3
      && FailureCount(p, events, u) == 2
  {
    var first := [Request(u, None, Some("ListView")), Step(Ok(image)), Evict(u)];
    var again := [Request(u, None, Some("ListView")), Step(Exception), Step(Exception)];
    var p := Pool(Initial(), DownloadThreadCount);
    DownloadThenEvict(u, image);
    FreshRequestFailingTwice(Run(p, first), u);
    RunAppend(p, first, again, u);
    assert first + again == [Request(u, None, Some("ListView")), Step(Ok(image)), Evict(u),
                             Request(u, None, Some("ListView")), Step(Exception), Step(Exception)];
  }

  /** The first half of `EvictionAllowsThirdDownload`: one successful
      download, then the bitmap is evicted. */
  lemma DownloadThenEvict(u: Url, image: Bitmap)
    requires u != ""
    ensures var p := Pool(Initial(), DownloadThreadCount);
      var events := [Request(u, None, Some("ListView")), Step(Ok(image)), Evict(u)];
      var r := Run(p, events);
      && InSession(p, events) && AttemptCount(p, events, u) == 1 && FailureCount(p, events, u) == 0
      && r.workers == DownloadThreadCount && r.state.queue == []
      && u !in r.state.cache && u !in r.state.subscriptions && u !in r.state.timedOut
      && r.state.currentActivity == Some("ListView")
  {
    var p := Pool(Initial(), DownloadThreadCount);
    var download := [Request(u, None, Some("ListView")), Step(Ok(image))];
    FirstDownload(u, image);
    var q := Run(p, download);
    var e2 := Evict(u);
    var r := Next(q, e2);
    assert [e2][1..] == [];
    assert !Downloads(q, e2, u) && AttemptCount(r, [], u) == 0 && FailureCount(r, [], u) == 0;
    assert AttemptCount(q, [e2], u) == 0 && FailureCount(q, [e2], u) == 0;
    assert Run(q, [e2]) == r && InSession(q, [e2]);
    RunAppend(p, download, [e2], u);
    assert download + [e2] == [Request(u, None, Some("ListView")), Step(Ok(image)), Evict(u)];
  }

  /** A first request from the initial state and a successful download. */
  lemma FirstDownload(u: Url, image: Bitmap)
    requires u != ""
    ensures var p := Pool(Initial(), DownloadThreadCount);
      var events := [Request(u, None, Some("ListView")), Step(Ok(image))];
      var r := Run(p, events);
      && InSession(p, events) && AttemptCount(p, events, u) == 1 && FailureCount(p, events, u) == 0
      && r.workers == DownloadThreadCount && r.state.queue == []
      && u !in r.state.subscriptions && u !in r.state.timedOut
      && r.state.currentActivity == Some("ListView")
  {
    var e0, e1 := Request(u, None, Some("ListView")), Step(Ok(image));
    var p0 := Pool(Initial(), DownloadThreadCount);
    var p1 := Next(p0, e0);
    assert p1.state.queue == [u] && p1.state.timedOut == [];
    var p2 := Next(p1, e1);
    assert [e1][1..] == [];
    assert [e0, e1][1..] == [e1];
    assert Downloads(p1, e1, u) && !Fails(p1, e1, u) && AttemptCount(p2, [], u) == 0;
    assert AttemptCount(p1, [e1], u) == 1 + AttemptCount(p2, [e1][1..], u);
    assert Run(p1, [e1]) == p2 && AttemptCount(p1, [e1], u) == 1 && FailureCount(p1, [e1], u) == 0;
    assert InSession(p1, [e1]);
  }

  /** The second half of `EvictionAllowsThirdDownload`: a URL that is
      neither cached, pending nor marked is requested in the current
      session and its download throws twice. */
  lemma FreshRequestFailingTwice(p: Pool, u: Url)
    requires u != "" && p.workers > 0 && p.state.queue == []
    requires u !in p.state.cache && u !in p.state.subscriptions && u !in p.state.timedOut
    requires p.state.currentActivity == Some("ListView")
    ensures var events := [Request(u, None, Some("ListView")), Step(Exception), Step(Exception)];
      InSession(p, events) && AttemptCount(p, events, u) == 2 && FailureCount(p, events, u) == 2
  {
    var e0, e1, e2 := Request(u, None, Some("ListView")), Step(Exception), Step(Exception);
    assert !SwitchesSession(p.state, Some("ListView"));
    var p1 := Next(p, e0);
    assert p1.state.queue == [u];
    var p2 := Next(p1, e1);
    assert p2.state.queue == [u];
    assert [e2][1..] == [];
    assert [e1, e2][1..] == [e2];
    assert [e0, e1, e2][1..] == [e1, e2];
    assert AttemptCount(p2, [e2], u) == 1 && FailureCount(p2, [e2], u) == 1 && InSession(p2, [e2]);
    assert AttemptCount(p1, [e1, e2], u) == 2 && FailureCount(p1, [e1, e2], u) == 2 && InSession(p1, [e1, e2]);
  }

  /** A URL that is pending with no queued copy is never downloaded again in
      this session, whatever is requested or evicted. */
  lemma {:induction false} NoDownloadsWhileStranded(p: Pool, events: seq<Event>, u: Url)
    requires u in p.state.subscriptions && u !in p.state.queue && InSession(p, events)
    ensures AttemptCount(p, events, u) == 0
    decreases |events|
  {
    if events != [] {
      var e := events[0];
      var s := p.state;
      var r := Next(p, e).state;
      match e {
        case Request(v, h, a) =>
          RequestInSession(s, v, h, a);
        case Step(o) =>
          if p.workers > 0 && |s.queue| > 0 {
            assert r.queue == s.queue[1..] || r.queue == s.queue[1..] + [s.queue[0]];
            assert u != s.queue[0];
          }
        case Evict(v) =>
      }
      NoDownloadsWhileStranded(Next(p, e), events[1..], u);
    }
  }

  /** A download that always throws is tried exactly twice: once, then once
      more from the re-queued copy. After that the URL is out of the queue,
      marked failed, and its pending entry is never resolved in this
      session, whatever is requested later. */
  lemma AlwaysFailingDownloadTriedTwice(p: Pool, events: seq<Event>, u: Url)
    requires p.state.queue == [u] && u != "" && u !in p.state.timedOut
    requires Invariant(p.state) && p.workers > 0
    requires |events| >= 2 && events[0] == Step(Exception) && events[1] == Step(Exception)
    requires InSession(p, events)
    ensures AttemptCount(p, events, u) == 2
    ensures var r := Run(p, events[..2]).state;
      r.queue == [] && r.timedOut == p.state.timedOut + [u]
      && r.subscriptions == p.state.subscriptions && r.cache == p.state.cache && r.outbox == p.state.outbox
  {
    var p1 := Next(p, Step(Exception));
    var p2 := Next(p1, Step(Exception));
    TwoFailures(p);
    var tail := events[2..];
    assert events[1..][1..] == tail;
    assert InSession(p2, tail);
    NoDownloadsWhileStranded(p2, tail, u);
    assert AttemptCount(p, events, u) == 2 + AttemptCount(p2, tail, u);
    assert events[..2] == [Step(Exception), Step(Exception)];
    assert [Step(Exception), Step(Exception)][1..] == [Step(Exception)];
  }

  /** The two failing steps of `AlwaysFailingDownloadTriedTwice`, one at a
      time. */
  lemma TwoFailures(p: Pool)
    requires |p.state.queue| == 1 && p.state.queue[0] != "" && p.state.queue[0] !in p.state.timedOut
    requires Invariant(p.state) && p.workers > 0
    ensures var u := p.state.queue[0];
      var p1 := Next(p, Step(Exception));
      var p2 := Next(p1, Step(Exception));
      && Attempts(p.state, u) && p1.workers == p.workers && Attempts(p1.state, u)
      && p2.state.queue == [] && p2.state.timedOut == p.state.timedOut + [u]
      && p2.state.subscriptions == p.state.subscriptions && p2.state.cache == p.state.cache
      && p2.state.outbox == p.state.outbox
      && Invariant(p2.state) && u in p2.state.subscriptions
  {
    var u := p.state.queue[0];
    var p1 := Next(p, Step(Exception));
    assert p1.state.queue == [u];
    WorkerStepPreservesInvariants(p.state, Exception);
    WorkerStepPreservesInvariants(p1.state, Exception);
    assert u in p.state.subscriptions;
  }

  /** Once no worker is left, nothing is downloaded again, whatever is
      requested: the queue only grows. */
  lemma {:induction false} NoWorkersNoDownloads(p: Pool, events: seq<Event>, u: Url)
    requires p.workers == 0
    ensures AttemptCount(p, events, u) == 0 && Run(p, events).workers == 0
    decreases |events|
  {
    if events != [] {
      NoWorkersNoDownloads(Next(p, events[0]), events[1..], u);
    }
  }

  /** Under plain Java thread semantics, two malformed URLs end both
      download threads: their entries stay pending, and no later request,
      for them or any other URL, is ever downloaded. (On Android the first
      escape ends the whole process instead.) */
  lemma TwoEscapesStopAllDownloads(u1: Url, u2: Url, later: seq<Event>, u: Url)
    requires u1 != "" && u2 != "" && u1 != u2
    ensures var p := Run(Pool(Initial(), DownloadThreadCount),
                         [Request(u1, None, Some("ListView")), Request(u2, None, Some("ListView")),
                          Step(Escaped), Step(Escaped)]);
      && p.workers == 0 && p.state.queue == []
      && u1 in p.state.subscriptions && u2 in p.state.subscriptions
      && AttemptCount(p, later, u) == 0
  {
    var events := [Request(u1, None, Some("ListView")), Request(u2, None, Some("ListView")),
                   Step(Escaped), Step(Escaped)];
    var p0 := Pool(Initial(), DownloadThreadCount);
    var p1 := Next(p0, events[0]);
    var p2 := Next(p1, events[1]);
    assert p2.state.queue == [u1, u2];
    var p3 := Next(p2, events[2]);
    assert p3.state.queue == [u2] && p3.workers == 1;
    var p4 := Next(p3, events[3]);
    assert events[1..] == [events[1], events[2], events[3]];
    assert [events[1], events[2], events[3]][1..] == [events[2], events[3]];
    assert [events[2], events[3]][1..] == [events[3]];
    assert [events[3]][1..] == [];
    assert Run(p3, [events[3]]) == p4;
    assert Run(p2, [events[2], events[3]]) == p4;
    assert Run(p1, [events[1], events[2], events[3]]) == p4;
    assert Run(p0, events) == p4;
    NoWorkersNoDownloads(p4, later, u);
  }

}
