/**
 * The background service worker's write path: the persisted local index and offline queue,
 * the in-memory mirror of the queue, the re-entrancy flag of the drain, and the settings
 * cache. Storage is modelled as fields that each operation reads and rewrites whole; the
 * network's answer to every attempt is an argument.
 */
module ServiceWorker {
  import opened Wrappers
  import opened Records
  import opened AppsScript
  import opened Reconcile

  /** The message types the worker answers, and what it does with the others. */
  datatype Route = SaveRow | TestAppsScript | ConnectClicked | Unknown(error: string)

  /** `switch (message.type)` in the message listener. */
  function RouteMessage(messageType: string): (r: Route)
    ensures r.Unknown? <==> messageType !in {"SAVE_ROW", "TEST_APPS_SCRIPT", "CONNECT_CLICKED"}
    ensures r.Unknown? ==> r.error == "Unknown message type"
    ensures r == SaveRow <==> messageType == "SAVE_ROW"
  {
    match messageType
    case "SAVE_ROW" => SaveRow
    case "TEST_APPS_SCRIPT" => TestAppsScript
    case "CONNECT_CLICKED" => ConnectClicked
    case _ => Unknown("Unknown message type")
  }

  /**
   * A worker that restarted without loading its settings has the default cache: every
   * attempt then fails as not configured, so a queued item is gone once the drain has made
   * the passes left before its ceiling, whatever the endpoint would have answered.
   */
  lemma RestartedDrainDropsQueue(item: QueueItem, errors: seq<PostError>)
    requires item.retryCount < MaxRetries
    requires item.retryCount + |errors| >= MaxRetries
    ensures forall r :: PostRow(DefaultSettings, r) == Failed(NotConfigured)
    ensures AfterFailures(item, errors) == []
  {
    AfterFailuresCount(item, errors);
  }

  class Worker {
    /** `chrome.storage.local` key `localIndex`. */
    var localIndex: LocalIndex
    /** `chrome.storage.local` key `offlineQueue`. */
    var storedQueue: seq<QueueItem>
    /** The global `offlineQueue`, the in-memory copy of the stored queue. */
    var offlineQueue: seq<QueueItem>
    /** The global `isProcessingQueue`. */
    var isProcessingQueue: bool
    /** The global settings cache. */
    var settings: Settings

    /** Every stored item has been tried fewer than `MaxRetries` times. */
    ghost predicate Valid()
      reads this
    {
      Bounded(storedQueue)
    }

    /** A fresh installation: empty storage, default (unconfigured) settings. */
    constructor ()
      ensures Valid()
      ensures localIndex == map[] && storedQueue == [] && offlineQueue == []
      ensures !isProcessingQueue && settings == DefaultSettings
    {
      localIndex := map[];
      storedQueue := [];
      offlineQueue := [];
      isProcessingQueue := false;
      settings := DefaultSettings;
    }

    /** The worker is torn down and started again: the globals are reset, storage survives. */
    method Restart()
      modifies this
      ensures localIndex == old(localIndex) && storedQueue == old(storedQueue)
      ensures offlineQueue == [] && !isProcessingQueue && settings == DefaultSettings
    {
      offlineQueue := [];
      isProcessingQueue := false;
      settings := DefaultSettings;
    }

    /**
     * A restart followed by a settings load, as installation and activation do: storage
     * survives, the globals are reset, and the cache holds the synced settings.
     */
    method Wake(synced: Settings)
      modifies this
      ensures localIndex == old(localIndex) && storedQueue == old(storedQueue)
      ensures offlineQueue == [] && !isProcessingQueue && settings == synced
    {
      Restart();
      LoadSettings(synced);
    }

    /** `loadSettings`: the synced settings replace the cache. */
    method LoadSettings(synced: Settings)
      modifies this`settings
      ensures settings == synced
    {
      settings := synced;
    }

    /** `checkExistingProfile(profileUrl)`: the stored entry for the URL, or null. */
    method CheckExistingProfile(url: string) returns (e: Option<Entry>)
      ensures e.Some? <==> url in localIndex
      ensures e.Some? ==> e.value == localIndex[url]
    {
      e := Lookup(localIndex, url);
    }

    /** `updateLocalIndex(profileUrl, data)`: sets one key, keeps every other, deletes nothing. */
    method UpdateLocalIndex(url: string, data: Entry)
      modifies this`localIndex
      ensures localIndex == old(localIndex)[url := data]
      ensures Lookup(localIndex, url) == Some(data)
      ensures forall k :: k != url ==> Lookup(localIndex, k) == Lookup(old(localIndex), k)
      ensures old(localIndex).Keys <= localIndex.Keys
    {
      localIndex := localIndex[url := data];
    }

    /** `enqueue(payload, mode)`: one new item at the tail, counter 0; the mirror is the stored queue. */
    method Enqueue(payload: Payload, mode: Mode, now: string)
      requires Valid()
      modifies this`storedQueue, this`offlineQueue
      ensures Valid()
      ensures storedQueue == old(storedQueue) + [QueueItem(payload, mode, now, 0)]
      ensures offlineQueue == storedQueue
    {
      var queue := storedQueue;
      queue := queue + [QueueItem(payload, mode, now, 0)];
      storedQueue := queue;
      offlineQueue := queue;
    }

    /**
     * `handleSaveRow(payload)`, with the `catch` block enqueueing under the mode chosen
     * before the attempt. `response` is the network's answer to the one request; `sent` is
     * that request.
     */
    method SaveRow(payload: Payload, response: Response, now: string) returns (reply: SaveReply, sent: Option<Request>)
      requires Valid()
      modifies this`localIndex, this`storedQueue, this`offlineQueue
      ensures Valid()
      ensures (Store(localIndex, storedQueue), reply) ==
        SaveOutcome(Store(old(localIndex), old(storedQueue)), payload, PostRow(settings, response), now)
      ensures reply.Queued? ==> offlineQueue == storedQueue
      ensures reply.Saved? ==> offlineQueue == old(offlineQueue)
      ensures sent == RequestFor(settings, payload, ChooseMode(old(localIndex), payload.profileUrl))
    {
      var existing := CheckExistingProfile(payload.profileUrl);
      var mode := if existing.Some? then Update else Append;
      sent := RequestFor(settings, payload, mode);
      var result := PostRow(settings, response);
      if result.Posted? {
        UpdateLocalIndex(payload.profileUrl, Entry(result.rowId, now));
        reply := Saved(mode);
      } else {
        Enqueue(payload, mode, now);
        reply := Queued(ErrorMessage(result.error));
      }
    }

    /**
     * `flushQueue()`: one pass over the stored queue in order, the i-th attempt answered by
     * `responses[i]`. Returns, for each attempt, the wait before it in milliseconds and the
     * request it sent.
     */
    method FlushQueue(responses: seq<Response>, now: string) returns (tries: seq<Try>)
      requires Valid()
      requires |responses| == |storedQueue|
      modifies this`localIndex, this`storedQueue, this`offlineQueue, this`isProcessingQueue
      ensures Valid()
      ensures isProcessingQueue == old(isProcessingQueue)
      // a drain requested while one is running, or over an empty queue, changes nothing
      ensures old(isProcessingQueue) || old(storedQueue) == [] ==>
        && localIndex == old(localIndex) && storedQueue == old(storedQueue)
        && offlineQueue == old(offlineQueue) && tries == []
      // otherwise the survivors are the new queue and each success wrote the index
      ensures !old(isProcessingQueue) && old(storedQueue) != [] ==>
        && storedQueue == Survivors(old(storedQueue), Outcomes(settings, responses))
        && offlineQueue == storedQueue
        && localIndex == IndexAfter(old(localIndex), old(storedQueue), Outcomes(settings, responses), now)
        && tries == Tries(settings, old(storedQueue))
    {
      tries := [];
      if isProcessingQueue {
        return;
      }
      isProcessingQueue := true;
      var queue := storedQueue;
      if |queue| == 0 {
        isProcessingQueue := false;
        return;
      }
      var newQueue: seq<QueueItem>;
      newQueue, tries := DrainPass(queue, responses, now);
      DrainKeepsBound(queue, Outcomes(settings, responses));
      storedQueue := newQueue;
      offlineQueue := newQueue;
      isProcessingQueue := false;
    }

    /** The `for (const item of queue)` loop of `flushQueue`: one attempt per item, in order. */
    method DrainPass(queue: seq<QueueItem>, responses: seq<Response>, now: string)
      returns (newQueue: seq<QueueItem>, tries: seq<Try>)
      requires |responses| == |queue|
      modifies this`localIndex
      ensures newQueue == Survivors(queue, Outcomes(settings, responses))
      ensures localIndex == IndexAfter(old(localIndex), queue, Outcomes(settings, responses), now)
      ensures tries == Tries(settings, queue)
    {
      ghost var results := Outcomes(settings, responses);
      newQueue := [];
      tries := [];
      var i := 0;
      while i < |queue|
        invariant 0 <= i <= |queue|
        invariant newQueue == Survivors(queue[..i], results[..i])
        invariant localIndex == IndexAfter(old(localIndex), queue[..i], results[..i], now)
        invariant tries == Tries(settings, queue[..i])
      {
        newQueue, tries := Visit(queue, responses, now, i, newQueue, tries, old(localIndex));
        i := i + 1;
      }
      assert queue[..i] == queue && results[..i] == results;
    }

    /** The body of the loop for the `i`-th item: its wait, its attempt, and what it leaves. */
    method Visit(queue: seq<QueueItem>, responses: seq<Response>, now: string, i: nat,
                 newQueue: seq<QueueItem>, tries: seq<Try>, ghost start: LocalIndex)
      returns (newQueue': seq<QueueItem>, tries': seq<Try>)
      requires |responses| == |queue| && i < |queue|
      requires newQueue == Survivors(queue[..i], Outcomes(settings, responses)[..i])
      requires localIndex == IndexAfter(start, queue[..i], Outcomes(settings, responses)[..i], now)
      requires tries == Tries(settings, queue[..i])
      modifies this`localIndex
      ensures newQueue' == Survivors(queue[..i + 1], Outcomes(settings, responses)[..i + 1])
      ensures localIndex == IndexAfter(start, queue[..i + 1], Outcomes(settings, responses)[..i + 1], now)
      ensures tries' == Tries(settings, queue[..i + 1])
    {
      var item := queue[i];
      var delay := BackoffDelay(item.retryCount);
      var kept, sent := Attempt(item, responses[i], now);
      tries' := tries + [Try(if item.retryCount > 0 then delay else 0, sent)];
      newQueue' := newQueue + kept;
      PassStep(settings, start, queue, Outcomes(settings, responses), now, i);
    }

    /**
     * One attempt of that loop: the item is posted under its stored mode; a success writes
     * the index, a failure is bumped and kept below the ceiling.
     */
    method Attempt(item: QueueItem, response: Response, now: string) returns (kept: seq<QueueItem>, sent: Option<Request>)
      modifies this`localIndex
      ensures sent == RequestFor(settings, item.payload, item.mode)
      ensures kept == Survivor(item, PostRow(settings, response))
      ensures localIndex == Recorded(old(localIndex), item, PostRow(settings, response), now)
    {
      kept := [];
      sent := RequestFor(settings, item.payload, item.mode);
      var result := PostRow(settings, response);
      if result.Posted? {
        UpdateLocalIndex(item.payload.profileUrl, Entry(result.rowId, now));
      } else {
        var retried := item.(retryCount := item.retryCount + 1);
        if retried.retryCount < MaxRetries {
          kept := [retried];
        }
      }
    }
  }
}
