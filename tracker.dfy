/**
 * The tracker (`UmamiTracker`): its configuration, the queue and flush
 * timer it owns, and the operations that change them: `init`, `track`,
 * the timer callback that runs `flushQueue`, and the property merges.
 */
module UmamiTracker {
  import opened Optional
  import opened Backoff
  import opened DeliveryQueue
  import opened Flush

  /** What the optional reachability probe (`network.isOnline`) did. */
  datatype Probe = NoProbe | Answered(online: bool) | NonBoolean | Threw

  /**
   * `isOnline`: the probe's boolean answer, and "online" when there is no
   * probe, when it answers something else, or when it throws.
   */
  function IsOnline(probe: Probe): (online: bool)
    ensures !online <==> probe == Answered(false)
  {
    match probe
    case Answered(b) => b
    case _ => true
  }

  /** JavaScript truthiness of an optional string: present and non-empty. */
  predicate Truthy(s: Option<string>) {
    s.Some? && s.value != ""
  }

  /**
   * `hostUrl.replace(/\/$/, '')`: drops one trailing slash, if there is
   * one, and nothing else.
   */
  function NormalizeHostUrl(url: string): (r: string)
    ensures r <= url && |url| <= |r| + 1
    ensures |r| < |url| <==> |url| > 0 && url[|url| - 1] == '/'
  {
    if |url| > 0 && url[|url| - 1] == '/' then url[..|url| - 1] else url
  }

  /** A host URL given with a trailing slash still yields the plain endpoint URL. */
  lemma NormalizedEndpoint(host: string, path: string)
    requires |host| > 0 ==> host[|host| - 1] != '/'
    ensures NormalizeHostUrl(host + "/") + path == host + path
    ensures NormalizeHostUrl(host) == host
  {
    assert (host + "/")[..|host|] == host;
  }

  /** The host URL given with a trailing slash still yields the plain send endpoint. */
  lemma TrailingSlashHost()
    ensures NormalizeHostUrl("https://umami.local/") + "/api/send" == "https://umami.local/api/send"
  {
    NormalizedEndpoint("https://umami.local", "/api/send");
  }

  const DEFAULT_SEND_PATH := "/api/send"
  const DEFAULT_BATCH_PATH := "/api/send/batch"

  /** The tracking payload fields this model keeps. */
  datatype TrackPayload = TrackPayload(
    name: Option<string>,
    url: Option<string>,
    referrer: Option<string>,
    title: Option<string>)

  datatype EventType = Event | Pageview

  /** The body's `type`: an event when the payload has a name, a pageview otherwise. */
  function TypeOf(payload: TrackPayload): (t: EventType)
    ensures t == Event <==> payload.name.Some? && payload.name.value != ""
  {
    if Truthy(payload.name) then Event else Pageview
  }

  /**
   * `{ ...(current ?? {}), ...update }`: every key of either map, the
   * update's value winning where both have one.
   */
  function Merge<V>(current: Option<map<string, V>>, update: map<string, V>): (m: map<string, V>)
    ensures m.Keys == update.Keys + current.GetOr(map[]).Keys
    ensures forall k :: k in update ==> m[k] == update[k]
    ensures forall k :: k in current.GetOr(map[]) && k !in update ==> m[k] == current.GetOr(map[])[k]
  {
    current.GetOr(map[]) + update
  }

  /** The `retry` options of `init`, every field optional. */
  datatype RetryOptions = RetryOptions(
    retries: Option<nat>,
    minDelayMs: Option<nat>,
    maxDelayMs: Option<nat>,
    factor: Option<nat>,
    jitter: Option<bool>)

  /** The `batching` options of `init`, every field optional. */
  datatype BatchingOptions = BatchingOptions(
    enabled: Option<bool>,
    maxBatchSize: Option<nat>,
    maxIntervalMs: Option<nat>)

  /** `v` is the option given, when one is, and the default `d` otherwise (`given ?? d`). */
  predicate Defaulted<T(==)>(given: Option<T>, v: T, d: T) {
    (given.Some? ==> v == given.value) && (given.None? ==> v == d)
  }

  /**
   * The retry policy `init` stores: each option given, and for each one
   * omitted (or no `retry` options at all) its default: 5 retries,
   * 1000 ms to 30000 ms, factor 2, jitter on.
   */
  function RetryPolicyOf(o: Option<RetryOptions>): (p: RetryPolicy)
    ensures Defaulted(if o.Some? then o.value.retries else None, p.retries, 5)
    ensures Defaulted(if o.Some? then o.value.minDelayMs else None, p.minDelayMs, 1000)
    ensures Defaulted(if o.Some? then o.value.maxDelayMs else None, p.maxDelayMs, 30000)
    ensures Defaulted(if o.Some? then o.value.factor else None, p.factor, 2)
    ensures Defaulted(if o.Some? then o.value.jitter else None, p.jitter, true)
  {
    var d := DEFAULT_RETRY_POLICY;
    match o
    case None => d
    case Some(r) =>
      RetryPolicy(r.retries.GetOr(d.retries), r.minDelayMs.GetOr(d.minDelayMs), r.maxDelayMs.GetOr(d.maxDelayMs),
                  r.factor.GetOr(d.factor), r.jitter.GetOr(d.jitter))
  }

  /**
   * The batching policy `init` stores: each option given, and for each one
   * omitted its default: batching off, batches of 20, a 10000 ms interval.
   */
  function BatchingPolicyOf(o: Option<BatchingOptions>): (b: BatchingPolicy)
    ensures Defaulted(if o.Some? then o.value.enabled else None, b.enabled, false)
    ensures Defaulted(if o.Some? then o.value.maxBatchSize else None, b.maxBatchSize, 20)
    ensures Defaulted(if o.Some? then o.value.maxIntervalMs else None, b.maxIntervalMs, 10000)
  {
    var d := DEFAULT_BATCHING_POLICY;
    match o
    case None => d
    case Some(b) =>
      BatchingPolicy(b.enabled.GetOr(d.enabled), b.maxBatchSize.GetOr(d.maxBatchSize),
                     b.maxIntervalMs.GetOr(d.maxIntervalMs))
  }

  /** How a `track` call ended. */
  datatype TrackOutcome =
    | NotInitialized     // the "Not initialized" error was thrown
    | Enqueued           // queued as a fresh record (batch mode or offline)
    | SentImmediately    // the immediate send succeeded
    | Requeued           // the immediate send failed and the body was queued for retry

  /**
   * The tracker's module state. `B` is the type of enriched event bodies,
   * `V` that of user-property and custom-dimension values.
   */
  class Tracker<B, V> {
    var websiteId: Option<string>
    var hostUrl: Option<string>
    var sendPath: string
    var batchPath: string
    var retry: RetryPolicy
    var batching: BatchingPolicy
    var userProperties: Option<map<string, V>>
    var customDimensions: Option<map<string, V>>
    var queue: seq<Queued<B>>
    var timer: Option<nat>    // the delay of the armed flush timer, if any

    /** The state when the module is loaded. */
    constructor ()
      ensures websiteId == None && hostUrl == None
      ensures sendPath == DEFAULT_SEND_PATH && batchPath == DEFAULT_BATCH_PATH
      ensures retry == DEFAULT_RETRY_POLICY && batching == DEFAULT_BATCHING_POLICY
      ensures userProperties == None && customDimensions == None
      ensures queue == [] && timer == None
    {
      websiteId, hostUrl := None, None;
      sendPath, batchPath := DEFAULT_SEND_PATH, DEFAULT_BATCH_PATH;
      retry, batching := DEFAULT_RETRY_POLICY, DEFAULT_BATCHING_POLICY;
      userProperties, customDimensions := None, None;
      queue, timer := [], None;
    }

    /** `isInitialized`: both the website id and the host URL are set and non-empty. */
    predicate IsInitialized(): (initialized: bool)
      reads this
      ensures initialized <==> websiteId.Some? && websiteId.value != "" && hostUrl.Some? && hostUrl.value != ""
    {
      Truthy(websiteId) && Truthy(hostUrl)
    }

    /**
     * `init`: stores the website id and the host URL without its trailing
     * slash, and the policies and paths with their defaults. The queue, the
     * timer and the merged properties are left as they were.
     */
    method Init(websiteId: string, hostUrl: string, batching: Option<BatchingOptions>,
                retry: Option<RetryOptions>, sendPath: Option<string>, batchPath: Option<string>)
      modifies this
      ensures this.websiteId == Some(websiteId) && this.hostUrl == Some(NormalizeHostUrl(hostUrl))
      ensures this.batching == BatchingPolicyOf(batching) && this.retry == RetryPolicyOf(retry)
      ensures this.sendPath == sendPath.GetOr(DEFAULT_SEND_PATH)
      ensures this.batchPath == batchPath.GetOr(DEFAULT_BATCH_PATH)
      ensures queue == old(queue) && timer == old(timer)
      ensures userProperties == old(userProperties) && customDimensions == old(customDimensions)
      ensures IsInitialized() <==> websiteId != "" && NormalizeHostUrl(hostUrl) != ""
    {
      this.websiteId := Some(websiteId);
      this.hostUrl := Some(NormalizeHostUrl(hostUrl));
      this.batching := BatchingPolicyOf(batching);
      this.retry := RetryPolicyOf(retry);
      this.sendPath := sendPath.GetOr(DEFAULT_SEND_PATH);
      this.batchPath := batchPath.GetOr(DEFAULT_BATCH_PATH);
    }

    /** `scheduleFlush`: arms the timer unless one is already armed. */
    method ScheduleFlush(afterMs: Option<nat>)
      modifies this`timer
      ensures timer == Schedule(old(timer), afterMs, batching)
      ensures timer.Some? && (old(timer).Some? ==> timer == old(timer))
    {
      if timer.Some? {
        return;
      }
      timer := Some(afterMs.GetOr(if batching.enabled then batching.maxIntervalMs else 0));
    }

    /**
     * The timer callback: clears the timer and runs one flush round
     * (`flushQueue`) at time `now`. Returns the bodies handed to the
     * transport, none when no send was attempted.
     */
    method Fire(now: nat, probe: Probe, sendOk: bool, draws: seq<Draw>) returns (sent: seq<B>)
      requires timer.Some? && |draws| >= |queue|
      modifies this`queue, this`timer
      ensures var r := Round(old(queue), retry, batching, now, IsOnline(probe), sendOk, draws);
        queue == r.queue && timer == r.timer && sent == r.sent
    {
      timer := None;
      sent := [];
      if |queue| == 0 {
        return;
      }
      if !IsOnline(probe) {
        ScheduleFlush(Some(OFFLINE_RETRY_MS));
        return;
      }
      var sel := Selection(queue, now, batching);
      if sel != [] {
        sent := Bodies(queue, sel);
        Settle(sel, sendOk, now, draws);
      }
      // the `finally` block
      if |queue| > 0 {
        ScheduleFlush(Some(RearmDelay(queue, now)));
      }
    }

    /**
     * The record updates after the transport call, record by record in
     * queue order: after a success each selected record is spliced out;
     * after a failure its attempt count is raised and it is spliced out past
     * `retries` or rescheduled otherwise. `removed` counts the records
     * spliced out so far, so that `sel[k] - removed` is where the k-th
     * selected record now sits (what `indexOf` finds).
     */
    method Settle(sel: seq<nat>, sendOk: bool, now: nat, draws: seq<Draw>)
      requires Increasing(sel) && (forall j :: 0 <= j < |sel| ==> sel[j] < |queue|)
      requires |draws| >= |queue|
      modifies this`queue
      ensures queue == AfterSend(old(queue), sel, sendOk, retry, now, draws)
    {
      ghost var q0 := queue;
      var removed := 0;
      var k := 0;
      while k < |sel|
        invariant 0 <= k <= |sel|
        invariant Settling(queue, removed) == SettleSteps(q0, sel, sendOk, retry, now, draws, k)
      {
        var j := sel[k];
        if removed <= j && j - removed < |queue| {
          var gone := SettleAt(j - removed, sendOk, now, draws[j]);
          if gone {
            removed := removed + 1;
          }
        }
        k := k + 1;
      }
      SettleStepsDone(q0, sel, sendOk, retry, now, draws);
    }

    /**
     * The update of the selected record at `idx`: spliced out after a
     * success; after a failure its attempt count is raised, and it is
     * spliced out past `retries` or rescheduled otherwise.
     */
    method SettleAt(idx: nat, sendOk: bool, now: nat, draw: Draw) returns (gone: bool)
      requires idx < |queue|
      modifies this`queue
      ensures var settled := SettledRecord(old(queue)[idx], sendOk, retry, now, draw);
        queue == SpliceAt(old(queue), idx, Present(settled)) && gone == settled.None?
    {
      if sendOk {
        queue := queue[..idx] + queue[idx + 1..];
        return true;
      }
      var attempt := queue[idx].attempt + 1;
      if attempt > retry.retries {
        queue := queue[..idx] + queue[idx + 1..];
        return true;
      }
      queue := queue[idx := queue[idx].(attempt := attempt, nextAttemptAt := now + Delay(retry, attempt, draw))];
      return false;
    }

    /**
     * `track` with the enriched `body`, at time `now`. `probe` is what the
     * reachability probe does if asked, `sendOk` whether an immediate send
     * succeeds, `draw` the random draw of its backoff delay.
     */
    method Track(body: B, now: nat, probe: Probe, sendOk: bool, draw: Draw) returns (outcome: TrackOutcome)
      modifies this`queue, this`timer
      ensures !old(IsInitialized()) ==> outcome == NotInitialized && queue == old(queue) && timer == old(timer)
      ensures old(IsInitialized()) && (batching.enabled || !IsOnline(probe)) ==>
        && outcome == Enqueued
        && queue == old(queue) + [Queued(body, 0, now)]
        && timer == Schedule(old(timer), None, batching)
      ensures old(IsInitialized()) && !batching.enabled && IsOnline(probe) && sendOk ==>
        outcome == SentImmediately && queue == old(queue) && timer == old(timer)
      ensures old(IsInitialized()) && !batching.enabled && IsOnline(probe) && !sendOk ==>
        && outcome == Requeued
        && queue == old(queue) + [Queued(body, 1, now + Delay(retry, 1, draw))]
        && timer == Schedule(old(timer), None, batching)
      ensures AttemptsBounded(old(queue), retry) ==> AttemptsBounded(queue, retry)
    {
      if !IsInitialized() {
        return NotInitialized;
      }
      if batching.enabled || !IsOnline(probe) {
        queue := queue + [Queued(body, 0, now)];
        ScheduleFlush(None);
        return Enqueued;
      }
      if sendOk {
        return SentImmediately;
      }
      queue := queue + [Queued(body, 1, now + Delay(retry, 1, draw))];
      ScheduleFlush(None);
      return Requeued;
    }

    /** `setUserProperties`: merges the new properties over the current ones. */
    method SetUserProperties(properties: map<string, V>)
      modifies this`userProperties
      ensures userProperties == Some(Merge(old(userProperties), properties))
    {
      userProperties := Some(Merge(userProperties, properties));
    }

    /** `setCustomDimensions`: merges the new dimensions over the current ones. */
    method SetCustomDimensions(dimensions: map<string, V>)
      modifies this`customDimensions
      ensures customDimensions == Some(Merge(old(customDimensions), dimensions))
    {
      customDimensions := Some(Merge(customDimensions, dimensions));
    }
  }
}
