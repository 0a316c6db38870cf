/**
 * What one save and one drain of the offline queue do to the local index and the queue,
 * as functions of the state before and of the result of each attempt. The imperative
 * service worker (module ServiceWorker) is proved to follow these definitions; the
 * properties of the engine are proved here, about them.
 */
module Reconcile {
  import opened Wrappers
  import opened Records
  import opened AppsScript

  /** An item whose counter reaches this value after a failure is dropped. */
  const MaxRetries: nat := 5
  /** The longest wait before a retry, in milliseconds. */
  const MaxDelay: nat := 30000

  /** `Math.pow(2, n)` for a counter `n`. */
  function Pow2(n: nat): nat {
    if n == 0 then 1 else 2 * Pow2(n - 1)
  }

  /** `Math.min(1000 * Math.pow(2, retryCount), 30000)`, in milliseconds. */
  function BackoffDelay(n: nat): (d: nat)
    ensures d <= MaxDelay
  {
    if 1000 * Pow2(n) < MaxDelay then 1000 * Pow2(n) else MaxDelay
  }

  /** The wait before an attempt: none on the first attempt, the backoff delay on a retry. */
  function WaitBefore(retryCount: nat): (d: nat)
    ensures retryCount == 0 ==> d == 0
    ensures d <= MaxDelay
  {
    if retryCount > 0 then BackoffDelay(retryCount) else 0
  }

  lemma {:induction false} Pow2AtLeast32(n: nat)
    requires n >= 5
    ensures Pow2(n) >= 32
  {
    if n > 5 { Pow2AtLeast32(n - 1); }
  }

  /** The retry schedule: 2, 4, 8 and 16 seconds for counters 1 to 4, then 30 seconds. */
  lemma BackoffSchedule(n: nat)
    ensures n == 1 ==> WaitBefore(n) == 2000
    ensures n == 2 ==> WaitBefore(n) == 4000
    ensures n == 3 ==> WaitBefore(n) == 8000
    ensures n == 4 ==> WaitBefore(n) == 16000
    ensures n >= 5 ==> WaitBefore(n) == MaxDelay
  {
    if n >= 5 { Pow2AtLeast32(n); }
  }

  lemma {:induction false} Pow2Monotone(n: nat, m: nat)
    requires n <= m
    ensures Pow2(n) <= Pow2(m)
    decreases m
  {
    if n < m { Pow2Monotone(n, m - 1); }
  }

  /** A later retry never waits less than an earlier one. */
  lemma BackoffMonotone(n: nat, m: nat)
    requires n <= m
    ensures BackoffDelay(n) <= BackoffDelay(m)
  {
    Pow2Monotone(n, m);
  }

  /** What the drain does for one item: the wait before the attempt, then the request it sends. */
  datatype Try = Try(wait: nat, request: Option<Request>)

  /**
   * The tries of one pass, one per item in queue order: each waits `WaitBefore` of the item's
   * counter and re-sends the item's stored payload under its stored mode.
   */
  function Tries(settings: Settings, queue: seq<QueueItem>): (t: seq<Try>)
    ensures |t| == |queue|
    ensures forall i :: 0 <= i < |queue| ==>
      t[i] == Try(WaitBefore(queue[i].retryCount), RequestFor(settings, queue[i].payload, queue[i].mode))
    decreases |queue|
  {
    if queue == [] then []
    else
      var n := |queue| - 1;
      Tries(settings, queue[..n]) + [Try(WaitBefore(queue[n].retryCount), RequestFor(settings, queue[n].payload, queue[n].mode))]
  }

  /**
   * With the endpoint configured, the i-th attempt of a pass sends the i-th stored item under
   * the mode it was queued with; the local index is not consulted again.
   */
  lemma DrainResendsStoredItems(settings: Settings, queue: seq<QueueItem>)
    requires Configured(settings)
    ensures forall i :: 0 <= i < |queue| ==>
      Tries(settings, queue)[i].request ==
        Some(Request(settings.appsScriptUrl, settings.token, queue[i].mode, queue[i].payload))
  {
  }

  /** Every item of a stored queue has been tried fewer than `MaxRetries` times. */
  ghost predicate Bounded(queue: seq<QueueItem>) {
    forall i :: 0 <= i < |queue| ==> queue[i].retryCount < MaxRetries
  }

  /** `item.retryCount++`: nothing else of the item changes. */
  function Bumped(item: QueueItem): (b: QueueItem)
    ensures b.payload == item.payload && b.mode == item.mode && b.timestamp == item.timestamp
    ensures b.retryCount == item.retryCount + 1
  {
    item.(retryCount := item.retryCount + 1)
  }

  /** The item is kept for the next pass: its attempt failed and its new counter is below the ceiling. */
  predicate Keeps(item: QueueItem, r: PostResult) {
    r.Failed? && item.retryCount + 1 < MaxRetries
  }

  /** What one item contributes to `newQueue`. */
  function Survivor(item: QueueItem, r: PostResult): seq<QueueItem> {
    if Keeps(item, r) then [Bumped(item)] else []
  }

  /** `newQueue` after a pass over `queue`, the i-th attempt having had result `results[i]`. */
  function Survivors(queue: seq<QueueItem>, results: seq<PostResult>): seq<QueueItem>
    requires |queue| == |results|
    decreases |queue|
  {
    if queue == [] then []
    else
      var n := |queue| - 1;
      Survivors(queue[..n], results[..n]) + Survivor(queue[n], results[n])
  }

  /** The local index after one attempt: written on success only, at the item's profile URL. */
  function Recorded(index: LocalIndex, item: QueueItem, r: PostResult, now: string): LocalIndex {
    if r.Posted? then index[item.payload.profileUrl := Entry(r.rowId, now)] else index
  }

  /** The local index after a pass over `queue`. */
  function IndexAfter(index: LocalIndex, queue: seq<QueueItem>, results: seq<PostResult>, now: string): LocalIndex
    requires |queue| == |results|
    decreases |queue|
  {
    if queue == [] then index
    else
      var n := |queue| - 1;
      Recorded(IndexAfter(index, queue[..n], results[..n], now), queue[n], results[n], now)
  }

  /** Extending a pass by the next item adds that item's survivor and its index write. */
  lemma PassStep(settings: Settings, index: LocalIndex, queue: seq<QueueItem>, results: seq<PostResult>, now: string, i: nat)
    requires |queue| == |results| && i < |queue|
    ensures Survivors(queue[..i + 1], results[..i + 1]) ==
      Survivors(queue[..i], results[..i]) + Survivor(queue[i], results[i])
    ensures IndexAfter(index, queue[..i + 1], results[..i + 1], now) ==
      Recorded(IndexAfter(index, queue[..i], results[..i], now), queue[i], results[i], now)
    ensures Tries(settings, queue[..i + 1]) ==
      Tries(settings, queue[..i]) + [Try(WaitBefore(queue[i].retryCount), RequestFor(settings, queue[i].payload, queue[i].mode))]
  {
    assert queue[..i + 1][..i] == queue[..i] && results[..i + 1][..i] == results[..i];
  }

  /** The result of every attempt of a pass, one response per item. */
  function Outcomes(settings: Settings, responses: seq<Response>): (rs: seq<PostResult>)
    ensures |rs| == |responses|
    ensures forall i :: 0 <= i < |responses| ==> rs[i] == PostRow(settings, responses[i])
  {
    seq(|responses|, i requires 0 <= i < |responses| => PostRow(settings, responses[i]))
  }

  // ---------------------------------------------------------------------------
  // The queue after a pass

  /** The positions in `queue` of the items that survive, in queue order. */
  function SurvivorPositions(queue: seq<QueueItem>, results: seq<PostResult>): seq<nat>
    requires |queue| == |results|
    decreases |queue|
  {
    if queue == [] then []
    else
      var n := |queue| - 1;
      SurvivorPositions(queue[..n], results[..n]) + (if Keeps(queue[n], results[n]) then [n] else [])
  }

  /** Each survivor is the bumped copy of the item at its position, which failed and stays below the ceiling. */
  lemma {:induction false} SurvivorsAtPositions(queue: seq<QueueItem>, results: seq<PostResult>)
    requires |queue| == |results|
    ensures var s, ps := Survivors(queue, results), SurvivorPositions(queue, results);
      && |ps| == |s|
      && forall k :: 0 <= k < |ps| ==>
           ps[k] < |queue| && Keeps(queue[ps[k]], results[ps[k]]) && s[k] == Bumped(queue[ps[k]])
    decreases |queue|
  {
    if queue != [] {
      var n := |queue| - 1;
      SurvivorsAtPositions(queue[..n], results[..n]);
      var ps' := SurvivorPositions(queue[..n], results[..n]);
      forall k | 0 <= k < |ps'|
        ensures queue[..n][ps'[k]] == queue[ps'[k]] && results[..n][ps'[k]] == results[ps'[k]]
      {
      }
    }
  }

  /** The survivors' positions rise strictly: survivors keep their relative order. */
  lemma {:induction false} SurvivorPositionsIncrease(queue: seq<QueueItem>, results: seq<PostResult>)
    requires |queue| == |results|
    ensures forall k :: 0 <= k < |SurvivorPositions(queue, results)| ==>
      SurvivorPositions(queue, results)[k] < |queue|
    ensures forall k, l :: 0 <= k < l < |SurvivorPositions(queue, results)| ==>
      SurvivorPositions(queue, results)[k] < SurvivorPositions(queue, results)[l]
    decreases |queue|
  {
    if queue != [] {
      var n := |queue| - 1;
      SurvivorPositionsIncrease(queue[..n], results[..n]);
      var ps' := SurvivorPositions(queue[..n], results[..n]);
      assert SurvivorPositions(queue, results) == ps' + (if Keeps(queue[n], results[n]) then [n] else []);
      assert forall k :: 0 <= k < |ps'| ==> ps'[k] < n;
    }
  }

  /** A position survives exactly when its item is kept. */
  lemma {:induction false} SurvivorPositionsExact(queue: seq<QueueItem>, results: seq<PostResult>)
    requires |queue| == |results|
    ensures forall i :: 0 <= i < |queue| ==>
      (i in SurvivorPositions(queue, results) <==> Keeps(queue[i], results[i]))
    decreases |queue|
  {
    if queue != [] {
      var n := |queue| - 1;
      SurvivorPositionsExact(queue[..n], results[..n]);
      SurvivorPositionsIncrease(queue[..n], results[..n]);
      var ps' := SurvivorPositions(queue[..n], results[..n]);
      var ps := SurvivorPositions(queue, results);
      assert ps == ps' + (if Keeps(queue[n], results[n]) then [n] else []);
      assert n !in ps';
      forall i | 0 <= i < |queue|
        ensures i in ps <==> Keeps(queue[i], results[i])
      {
        if i < n {
          assert queue[..n][i] == queue[i] && results[..n][i] == results[i];
          assert i in ps <==> i in ps';
        }
      }
    }
  }

  /**
   * A pass keeps exactly the items whose attempt failed and whose new counter is below the
   * ceiling, each with its counter one higher and its payload and mode unchanged, in their
   * original relative order; succeeded items are gone.
   */
  lemma SurvivorsAre(queue: seq<QueueItem>, results: seq<PostResult>)
    requires |queue| == |results|
    ensures var s, ps := Survivors(queue, results), SurvivorPositions(queue, results);
      && |ps| == |s|
      && (forall k :: 0 <= k < |ps| ==>
           && ps[k] < |queue|
           && results[ps[k]].Failed?
           && s[k].payload == queue[ps[k]].payload
           && s[k].mode == queue[ps[k]].mode
           && s[k].timestamp == queue[ps[k]].timestamp
           && s[k].retryCount == queue[ps[k]].retryCount + 1 < MaxRetries)
      && (forall k, l :: 0 <= k < l < |ps| ==> ps[k] < ps[l])
      && (forall i :: 0 <= i < |queue| ==> (i in ps <==> Keeps(queue[i], results[i])))
  {
    SurvivorsAtPositions(queue, results);
    SurvivorPositionsIncrease(queue, results);
    SurvivorPositionsExact(queue, results);
  }

  /** A pass never makes the queue longer. */
  lemma DrainNeverGrows(queue: seq<QueueItem>, results: seq<PostResult>)
    requires |queue| == |results|
    ensures |Survivors(queue, results)| <= |queue|
  {
    SurvivorsAre(queue, results);
    var ps := SurvivorPositions(queue, results);
    PositionsFit(ps, |queue|);
  }

  /** A strictly increasing sequence of positions below `n` has at most `n` elements. */
  lemma {:induction false} PositionsFit(ps: seq<nat>, n: nat)
    requires forall k :: 0 <= k < |ps| ==> ps[k] < n
    requires forall k, l :: 0 <= k < l < |ps| ==> ps[k] < ps[l]
    ensures |ps| <= n
    decreases n
  {
    if ps != [] {
      var m := |ps| - 1;
      assert forall k :: 0 <= k < m ==> ps[..m][k] < ps[m];
      PositionsFit(ps[..m], ps[m]);
    }
  }

  /** Whatever the stored queue held, every item left after a pass is below the ceiling. */
  lemma DrainKeepsBound(queue: seq<QueueItem>, results: seq<PostResult>)
    requires |queue| == |results|
    ensures Bounded(Survivors(queue, results))
  {
    SurvivorsAre(queue, results);
  }

  /** An item whose counter is already `MaxRetries - 1` and fails again is dropped. */
  lemma LastFailureDrops(item: QueueItem, e: PostError)
    requires item.retryCount == MaxRetries - 1
    ensures Survivor(item, Failed(e)) == []
  {
  }

  // ---------------------------------------------------------------------------
  // The index after a pass

  /** The attempt at position `i` succeeded for profile `url`. */
  ghost predicate PostedFor(queue: seq<QueueItem>, results: seq<PostResult>, i: nat, url: string)
    requires |queue| == |results|
  {
    i < |queue| && results[i].Posted? && queue[i].payload.profileUrl == url
  }

  /** The last position of the pass whose attempt succeeded for `url`, if any. */
  function LastPosted(queue: seq<QueueItem>, results: seq<PostResult>, url: string): (r: Option<nat>)
    requires |queue| == |results|
    ensures r.Some? ==>
      r.value < |queue| && results[r.value].Posted? && queue[r.value].payload.profileUrl == url
    decreases |queue|
  {
    if queue == [] then None
    else
      var n := |queue| - 1;
      if results[n].Posted? && queue[n].payload.profileUrl == url then Some(n)
      else LastPosted(queue[..n], results[..n], url)
  }

  /** `LastPosted` finds a success for `url` that no later success for `url` follows, and finds none only when there is none. */
  lemma {:induction false} LastPostedIs(queue: seq<QueueItem>, results: seq<PostResult>, url: string)
    requires |queue| == |results|
    ensures var r := LastPosted(queue, results, url);
      && (r.Some? ==> PostedFor(queue, results, r.value, url)
                      && forall j :: r.value < j < |queue| ==> !PostedFor(queue, results, j, url))
      && (r.None? ==> forall j :: 0 <= j < |queue| ==> !PostedFor(queue, results, j, url))
    decreases |queue|
  {
    if queue != [] {
      var n := |queue| - 1;
      LastPostedIs(queue[..n], results[..n], url);
      assert forall j :: 0 <= j < n ==>
        (PostedFor(queue, results, j, url) <==> PostedFor(queue[..n], results[..n], j, url));
    }
  }

  /**
   * After a pass, the entry of a profile is the one its last successful attempt wrote, and
   * a profile with no successful attempt keeps its entry (or its absence): a failure never
   * writes the index and nothing is deleted.
   */
  lemma {:induction false} IndexAfterLookup(index: LocalIndex, queue: seq<QueueItem>, results: seq<PostResult>, now: string, url: string)
    requires |queue| == |results|
    ensures Lookup(IndexAfter(index, queue, results, now), url) ==
      match LastPosted(queue, results, url)
      case None => Lookup(index, url)
      case Some(i) => Some(Entry(results[i].rowId, now))
    decreases |queue|
  {
    if queue != [] {
      var n := |queue| - 1;
      IndexAfterLookup(index, queue[..n], results[..n], now, url);
    }
  }

  /** A pass in which every attempt fails leaves the index exactly as it was. */
  lemma {:induction false} AllFailedKeepsIndex(index: LocalIndex, queue: seq<QueueItem>, results: seq<PostResult>, now: string)
    requires |queue| == |results|
    requires forall i :: 0 <= i < |results| ==> results[i].Failed?
    ensures IndexAfter(index, queue, results, now) == index
    decreases |queue|
  {
    if queue != [] {
      var n := |queue| - 1;
      AllFailedKeepsIndex(index, queue[..n], results[..n], now);
    }
  }

  /** The index only grows during a pass. */
  lemma {:induction false} IndexAfterGrows(index: LocalIndex, queue: seq<QueueItem>, results: seq<PostResult>, now: string)
    requires |queue| == |results|
    ensures index.Keys <= IndexAfter(index, queue, results, now).Keys
    decreases |queue|
  {
    if queue != [] {
      var n := |queue| - 1;
      IndexAfterGrows(index, queue[..n], results[..n], now);
    }
  }

  /**
   * One pass over three fresh items where the first attempt gets a 503, the second succeeds
   * and the third gets a 400: the 400 is retried like the 503, and only the second profile
   * reaches the index.
   */
  lemma MixedPass(a: Payload, b: Payload, c: Payload, t: string, row: RowId, now: string)
    ensures var queue := [QueueItem(a, Append, t, 0), QueueItem(b, Append, t, 0), QueueItem(c, Update, t, 0)];
      var results := [Failed(ServerError(503)), Posted(row, None), Failed(HttpError(400))];
      && Survivors(queue, results) == [QueueItem(a, Append, t, 1), QueueItem(c, Update, t, 1)]
      && IndexAfter(map[], queue, results, now) == map[b.profileUrl := Entry(row, now)]
  {
    var queue := [QueueItem(a, Append, t, 0), QueueItem(b, Append, t, 0), QueueItem(c, Update, t, 0)];
    var results := [Failed(ServerError(503)), Posted(row, None), Failed(HttpError(400))];
    assert queue[..1][..0] == [] && results[..1][..0] == [];
    assert Survivors(queue[..1], results[..1]) == [QueueItem(a, Append, t, 1)];
    assert IndexAfter(map[], queue[..1], results[..1], now) == map[];
    assert queue[..2][..1] == queue[..1] && results[..2][..1] == results[..1];
    assert Survivors(queue[..2], results[..2]) == [QueueItem(a, Append, t, 1)];
    assert IndexAfter(map[], queue[..2], results[..2], now) == map[b.profileUrl := Entry(row, now)];
    assert queue[..2] == queue[..|queue| - 1] && results[..2] == results[..|results| - 1];
  }

  // ---------------------------------------------------------------------------
  // Bounded retries across passes

  /** What remains of `item` after one pass per error in `errors`, each attempt failing with it. */
  function AfterFailures(item: QueueItem, errors: seq<PostError>): seq<QueueItem>
    decreases |errors|
  {
    if errors == [] then [item]
    else
      var before := AfterFailures(item, errors[..|errors| - 1]);
      if before == [] then [] else Survivor(before[0], Failed(errors[|errors| - 1]))
  }

  /**
   * A queued item survives `k` failed passes exactly while its counter plus `k` stays below
   * the ceiling, and then its counter has grown by `k`.
   */
  lemma {:induction false} AfterFailuresCount(item: QueueItem, errors: seq<PostError>)
    requires item.retryCount < MaxRetries
    ensures AfterFailures(item, errors) ==
      if item.retryCount + |errors| < MaxRetries
      then [item.(retryCount := item.retryCount + |errors|)]
      else []
    decreases |errors|
  {
    if errors != [] {
      AfterFailuresCount(item, errors[..|errors| - 1]);
    }
  }

  /**
   * An item enqueued with counter 0 is still queued for its `k + 1`-th attempt exactly when
   * `k < MaxRetries`: it is attempted at most `MaxRetries` times in all.
   */
  lemma AtMostFiveAttempts(item: QueueItem, errors: seq<PostError>)
    requires item.retryCount == 0
    ensures AfterFailures(item, errors) != [] <==> |errors| < MaxRetries
  {
    AfterFailuresCount(item, errors);
  }

  // ---------------------------------------------------------------------------
  // One save (`handleSaveRow`)

  /** What the popup receives: `{success: true, mode}`, `{success: false, error, queued: true}`, or nothing. */
  datatype SaveReply = Saved(mode: Mode) | Queued(error: string) | NoReply

  /** The persisted state a save touches. */
  datatype Store = Store(index: LocalIndex, queue: seq<QueueItem>)

  /** The save as intended: a failure is queued with the mode chosen before the attempt. */
  function SaveOutcome(store: Store, payload: Payload, r: PostResult, now: string): (out: (Store, SaveReply))
  {
    var mode := ChooseMode(store.index, payload.profileUrl);
    if r.Posted? then
      (Store(store.index[payload.profileUrl := Entry(r.rowId, now)], store.queue), Saved(mode))
    else
      (Store(store.index, store.queue + [QueueItem(payload, mode, now, 0)]), Queued(ErrorMessage(r.error)))
  }

  /**
   * The save as written: `mode` is declared inside the `try` block, so the `catch` block's
   * `enqueue(payload, mode)` throws a ReferenceError before it enqueues anything and
   * `sendResponse` is never called.
   */
  function SaveOutcomeAsWritten(store: Store, payload: Payload, r: PostResult, now: string): (out: (Store, SaveReply))
  {
    var mode := ChooseMode(store.index, payload.profileUrl);
    if r.Posted? then
      (Store(store.index[payload.profileUrl := Entry(r.rowId, now)], store.queue), Saved(mode))
    else
      (store, NoReply)
  }

  /**
   * The two agree on a success; on a failure the code as written loses the write (nothing
   * is queued and the popup gets no answer) where the intended save queues exactly one item.
   */
  lemma AsWrittenLosesFailedSave(store: Store, payload: Payload, r: PostResult, now: string)
    ensures r.Posted? ==> SaveOutcomeAsWritten(store, payload, r, now) == SaveOutcome(store, payload, r, now)
    ensures r.Failed? ==>
      && SaveOutcomeAsWritten(store, payload, r, now) == (store, NoReply)
      && |SaveOutcome(store, payload, r, now).0.queue| == |store.queue| + 1
      && SaveOutcome(store, payload, r, now).1.Queued?
  {
  }

  /**
   * A successful save reports an update exactly when the profile was already indexed, and
   * afterwards the next save of it is an update; a failed save leaves the next mode as it was.
   */
  lemma SaveModeRoundTrip(store: Store, payload: Payload, r: PostResult, now: string)
    ensures r.Posted? ==> (SaveOutcome(store, payload, r, now).1 == Saved(Update) <==> payload.profileUrl in store.index)
    ensures r.Posted? ==> (SaveOutcome(store, payload, r, now).1 == Saved(Append) <==> payload.profileUrl !in store.index)
    ensures r.Posted? ==> ChooseMode(SaveOutcome(store, payload, r, now).0.index, payload.profileUrl) == Update
    ensures r.Failed? ==>
      ChooseMode(SaveOutcome(store, payload, r, now).0.index, payload.profileUrl) == ChooseMode(store.index, payload.profileUrl)
  {
  }

  /**
   * A successful save writes the profile's entry and nothing else, and queues nothing; a
   * failed one leaves the index alone and adds exactly one item at the tail of the queue,
   * with the payload, the mode chosen before the attempt and counter 0.
   */
  lemma SaveEffects(store: Store, payload: Payload, r: PostResult, now: string, other: string)
    requires other != payload.profileUrl
    ensures var (after, reply) := SaveOutcome(store, payload, r, now);
      && Lookup(after.index, other) == Lookup(store.index, other)
      && (r.Posted? ==>
            && after.queue == store.queue
            && Lookup(after.index, payload.profileUrl) == Some(Entry(r.rowId, now))
            && reply == Saved(ChooseMode(store.index, payload.profileUrl)))
      && (r.Failed? ==>
            && after.index == store.index
            && |after.queue| == |store.queue| + 1
            && after.queue[..|store.queue|] == store.queue
            && after.queue[|store.queue|] ==
                 QueueItem(payload, ChooseMode(store.index, payload.profileUrl), now, 0)
            && reply == Queued(ErrorMessage(r.error)))
  {
  }

  /** A save keeps every stored item below the ceiling. */
  lemma SaveKeepsBound(store: Store, payload: Payload, r: PostResult, now: string)
    requires Bounded(store.queue)
    ensures Bounded(SaveOutcome(store, payload, r, now).0.queue)
  {
  }
}
