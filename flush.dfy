/**
 * The flush scheduler: the single-flight timer (`scheduleFlush`) and one
 * flush round (`flushQueue`), as functions of the queue, the policies, the
 * time of the round, the reachability answer, the transport outcome and the
 * random draws.
 */
module Flush {
  import opened Optional
  import opened Backoff
  import opened DeliveryQueue

  /** The delay of the retry armed when a round finds the device offline. */
  const OFFLINE_RETRY_MS: nat := 2000

  /**
   * The timer after `scheduleFlush(afterMs)`: an armed timer is kept as it
   * is; otherwise a timer is armed for `afterMs`, or, when it is omitted,
   * for `maxIntervalMs` in batch mode and 0 otherwise.
   */
  function Schedule(timer: Option<nat>, afterMs: Option<nat>, b: BatchingPolicy): (armed: Option<nat>)
    ensures armed.Some?
    ensures timer.Some? ==> armed == timer
    ensures timer.None? && afterMs.Some? ==> armed == afterMs
    ensures timer.None? && afterMs.None? ==> armed.value == if b.enabled then b.maxIntervalMs else 0
  {
    if timer.Some? then timer
    else Some(afterMs.GetOr(if b.enabled then b.maxIntervalMs else 0))
  }

  /** Requesting a flush always leaves one timer armed, and requesting again changes nothing. */
  lemma ScheduleSingleFlight(timer: Option<nat>, a1: Option<nat>, a2: Option<nat>, b: BatchingPolicy)
    ensures Schedule(timer, a1, b).Some?
    ensures Schedule(Schedule(timer, a1, b), a2, b) == Schedule(timer, a1, b)
    ensures timer.None? && a1.None? ==>
      Schedule(timer, a1, b) == Some(if b.enabled then b.maxIntervalMs else 0)
  {
  }

  /** What one round leaves behind: the queue, the timer, and the bodies handed to the transport. */
  datatype RoundResult<B> = RoundResult(queue: seq<Queued<B>>, timer: Option<nat>, sent: seq<B>)

  /**
   * One flush round, run when the timer fires (the timer is then clear).
   * `online` is the reachability answer, `sendOk` whether the transport
   * call succeeded, `draws[i]` the random draw for the record at position i.
   */
  function Round<B>(q: seq<Queued<B>>, p: RetryPolicy, b: BatchingPolicy, now: nat,
                    online: bool, sendOk: bool, draws: seq<Draw>): (r: RoundResult<B>)
    requires |draws| >= |q|
    ensures |q| == 0 || !online ==> r.queue == q && r.sent == []
    ensures |r.sent| <= Limit(b) && |r.queue| <= |q|
    ensures r.timer.None? <==> r.queue == []
  {
    if |q| == 0 then RoundResult(q, None, [])
    else if !online then RoundResult(q, Schedule(None, Some(OFFLINE_RETRY_MS), b), [])
    else
      var sel := Selection(q, now, b);
      var after := if sel == [] then q else AfterSend(q, sel, sendOk, p, now, draws);
      var timer := if after == [] then None else Schedule(None, Some(RearmDelay(after, now)), b);
      RoundResult(after, timer, Bodies(q, sel))
  }

  /** A round on an empty queue sends nothing and arms nothing. */
  lemma RoundOnEmptyQueue<B>(p: RetryPolicy, b: BatchingPolicy, now: nat, online: bool, sendOk: bool,
                             draws: seq<Draw>)
    ensures Round<B>([], p, b, now, online, sendOk, draws) == RoundResult([], None, [])
  {
  }

  /** Offline, a round sends nothing, leaves every record as it was, and retries after 2000 ms. */
  lemma RoundOffline<B>(q: seq<Queued<B>>, p: RetryPolicy, b: BatchingPolicy, now: nat, sendOk: bool,
                        draws: seq<Draw>)
    requires |q| > 0 && |draws| >= |q|
    ensures Round(q, p, b, now, false, sendOk, draws) == RoundResult(q, Some(OFFLINE_RETRY_MS), [])
  {
  }

  /**
   * When nothing is selected (no record is due), the round sends nothing,
   * leaves the queue as it was, and still re-arms the timer for the moment
   * the earliest record becomes due.
   */
  lemma RoundNothingDue<B>(q: seq<Queued<B>>, p: RetryPolicy, b: BatchingPolicy, now: nat, sendOk: bool,
                           draws: seq<Draw>)
    requires |q| > 0 && |draws| >= |q|
    requires forall i :: 0 <= i < |q| ==> !IsDue(q[i], now)
    ensures var r := Round(q, p, b, now, true, sendOk, draws);
      r.queue == q && r.sent == [] && r.timer == Some(RearmDelay(q, now)) && RearmDelay(q, now) > 0
  {
    NoneDueFrom(q, now, 0);
  }

  /**
   * The effect of the transport call on the queue: the new queue lists, in
   * queue order, every unselected record unchanged; after a failure, each
   * selected record whose attempt count stays within `retries`, updated by
   * `Retried`; after a success, no selected record at all.
   */
  lemma {:induction false} AfterSendFrame<B>(q: seq<Queued<B>>, sel: seq<nat>, sent: bool, p: RetryPolicy,
                                             now: nat, draws: seq<Draw>)
    requires |draws| >= |q|
    ensures var o := Settled(q, sel, sent, p, now, draws);
      var after := AfterSend(q, sel, sent, p, now, draws);
      var ix := Survivors(o);
      && |ix| == |after|
      && Increasing(ix)
      && (forall j :: 0 <= j < |ix| ==>
            && ix[j] < |q|
            && (ix[j] !in sel ==> after[j] == q[ix[j]])
            && (ix[j] in sel ==> !sent && Retried(q[ix[j]], p, now, draws[ix[j]]) == Some(after[j])))
      && (forall i :: 0 <= i < |q| ==>
            (i in ix <==> i !in sel || (!sent && q[i].attempt + 1 <= p.retries)))
  {
    forall i | 0 <= i < |q|
      ensures IsSelected(sel, i) <==> i in sel
    {
      IsSelectedIn(sel, i);
    }
    var o := Settled(q, sel, sent, p, now, draws);
    CompactKeepsPresent(o);
    var ix := Survivors(o);
    forall i | 0 <= i < |q| && i in ix
      ensures i !in sel || (!sent && q[i].attempt + 1 <= p.retries)
    {
      var j :| 0 <= j < |ix| && ix[j] == i;
      assert o[i].Some?;
    }
  }

  /**
   * A non-batch round with a due record sends exactly the earliest due
   * record. On success that record alone leaves the queue; on failure it is
   * retried in place or dropped. Every other record keeps its place and
   * contents.
   */
  lemma {:induction false} NonBatchRound<B>(q: seq<Queued<B>>, p: RetryPolicy, b: BatchingPolicy, now: nat,
                                            sendOk: bool, draws: seq<Draw>, i: nat)
    requires !b.enabled && |draws| >= |q|
    requires i < |q| && IsDue(q[i], now) && forall l :: 0 <= l < i ==> !IsDue(q[l], now)
    ensures var r := Round(q, p, b, now, true, sendOk, draws);
      && r.sent == [q[i].body]
      && r.queue == q[..i] + (if sendOk then [] else Present(Retried(q[i], p, now, draws[i]))) + q[i + 1..]
  {
    var sel := Selection(q, now, b);
    assert sel == [i] by {
      SingleSelection(q, now, b);
    }
    var o := Settled(q, sel, sendOk, p, now, draws);
    assert o[i] == SettledRecord(q[i], sendOk, p, now, draws[i])
        && (forall l :: 0 <= l < |q| && l != i ==> o[l] == Some(q[l])) by {
      forall l | 0 <= l < |q|
        ensures IsSelected(sel, l) <==> l == i
      {
        IsSelectedIn(sel, l);
      }
    }
    assert Compact(o) == q[..i] + Present(o[i]) + q[i + 1..] by {
      assert o == o[..i] + [o[i]] + o[i + 1..];
      CompactAllPresent(o[..i], q[..i]);
      CompactAllPresent(o[i + 1..], q[i + 1..]);
      CompactAppend(o[..i], [o[i]]);
      CompactAppend(o[..i] + [o[i]], o[i + 1..]);
      assert Compact([o[i]]) == Compact([]) + Present(o[i]);
    }
  }

  /** A round keeps every record's attempt count within the policy's bound. */
  lemma RoundKeepsAttemptsBounded<B>(q: seq<Queued<B>>, p: RetryPolicy, b: BatchingPolicy, now: nat,
                                     online: bool, sendOk: bool, draws: seq<Draw>)
    requires |draws| >= |q| && AttemptsBounded(q, p)
    ensures AttemptsBounded(Round(q, p, b, now, online, sendOk, draws).queue, p)
  {
    var sel := Selection(q, now, b);
    if |q| > 0 && online && sel != [] {
      AfterSendFrame(q, sel, sendOk, p, now, draws);
    }
  }

  /** The record after failing once in each of the given rounds (time, draw), or None once dropped. */
  function FailedIn<B>(r: Queued<B>, p: RetryPolicy, rounds: seq<(nat, Draw)>): Option<Queued<B>> {
    if rounds == [] then Some(r)
    else
      var last := rounds[|rounds| - 1];
      match FailedIn(r, p, rounds[..|rounds| - 1])
      case None => None
      case Some(r') => Retried(r', p, last.0, last.1)
  }

  /** A record survives failures as long as its attempt count stays within `retries`, counting each one. */
  lemma {:induction false} SurvivesFailures<B>(r: Queued<B>, p: RetryPolicy, rounds: seq<(nat, Draw)>)
    requires r.attempt + |rounds| <= p.retries
    ensures FailedIn(r, p, rounds).Some?
    ensures FailedIn(r, p, rounds).value.attempt == r.attempt + |rounds|
    ensures FailedIn(r, p, rounds).value.body == r.body
  {
    if rounds != [] {
      SurvivesFailures(r, p, rounds[..|rounds| - 1]);
    }
  }

  /** The failure that takes the attempt count past `retries` drops the record. */
  lemma {:induction false} DroppedPastRetries<B>(r: Queued<B>, p: RetryPolicy, rounds: seq<(nat, Draw)>)
    requires r.attempt <= p.retries && |rounds| == p.retries - r.attempt + 1
    ensures FailedIn(r, p, rounds) == None
  {
    SurvivesFailures(r, p, rounds[..|rounds| - 1]);
  }

  /** The three-record queue of the batch scenario below: all three due at `now`. */
  function ThreeDue<B>(x: B, y: B, z: B, now: nat): seq<Queued<B>> {
    [Queued(x, 0, now), Queued(y, 0, now), Queued(z, 0, now)]
  }

  lemma ThreeDueSelection<B>(x: B, y: B, z: B, now: nat, interval: nat)
    ensures Selection(ThreeDue(x, y, z, now), now, BatchingPolicy(true, 2, interval)) == [0, 1]
  {
    var q := ThreeDue(x, y, z, now);
    assert DueFrom(q, now, 2) == [2];
    assert DueFrom(q, now, 1) == [1, 2];
  }

  lemma ThreeDueAfterSuccess<B>(x: B, y: B, z: B, p: RetryPolicy, now: nat, draws: seq<Draw>)
    requires |draws| >= 3
    ensures AfterSend(ThreeDue(x, y, z, now), [0, 1], true, p, now, draws) == [Queued(z, 0, now)]
  {
    var q := ThreeDue(x, y, z, now);
    var sel: seq<nat> := [0, 1];
    assert IsSelected(sel, 0) && IsSelected(sel, 1) && !IsSelected(sel, 2) by {
      assert sel[..1] == [0];
    }
    var o := Settled(q, sel, true, p, now, draws);
    assert o == [None, None, Some(q[2])];
    var none: seq<Option<Queued<B>>> := [None, None];
    assert none[..1] == [None];
    assert Compact(none) == [];
    assert o[..2] == none;
  }

  /**
   * A batch round with room for two, over three due records: the first two
   * are sent together and, on success, only the third is left, with the
   * timer re-armed to fire at once.
   */
  lemma BatchOfTwo<B>(x: B, y: B, z: B, p: RetryPolicy, interval: nat, now: nat, draws: seq<Draw>)
    requires |draws| >= 3
    ensures Round(ThreeDue(x, y, z, now), p, BatchingPolicy(true, 2, interval), now, true, true, draws)
         == RoundResult([Queued(z, 0, now)], Some(0), [x, y])
  {
    ThreeDueSelection(x, y, z, now, interval);
    ThreeDueAfterSuccess(x, y, z, p, now, draws);
    assert RearmDelay([Queued(z, 0, now)], now) == 0;
  }

  /**
   * With `retries = 2`, a record queued after a failed immediate send
   * (attempt 1) survives its first failed flush with attempt 2 and is
   * dropped at the second, its third failure in all.
   */
  lemma TwoRetriesScenario<B>(body: B, t: nat, p: RetryPolicy, first: (nat, Draw), second: (nat, Draw))
    requires p.retries == 2
    ensures FailedIn(Queued(body, 1, t), p, [first]).Some?
    ensures FailedIn(Queued(body, 1, t), p, [first]).value.attempt == 2
    ensures FailedIn(Queued(body, 1, t), p, [first, second]) == None
  {
    SurvivesFailures(Queued(body, 1, t), p, [first]);
    DroppedPastRetries(Queued(body, 1, t), p, [first, second]);
  }
}
