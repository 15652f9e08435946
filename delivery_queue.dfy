/**
 * The delivery queue and the send selector: the records waiting for
 * delivery (`Queued`, `_queue`), which of them one flush round selects,
 * and what a round does to them.
 */
module DeliveryQueue {
  import opened Optional
  import opened Backoff

  /** A queued event: its opaque body, the failed attempts so far, and the earliest time it may be sent. */
  datatype Queued<B> = Queued(body: B, attempt: nat, nextAttemptAt: nat)

  /** The batching policy, fixed by `init` (`batching` options with their defaults). */
  datatype BatchingPolicy = BatchingPolicy(enabled: bool, maxBatchSize: nat, maxIntervalMs: nat)

  const DEFAULT_BATCHING_POLICY := BatchingPolicy(false, 20, 10000)

  predicate IsDue<B>(r: Queued<B>, now: nat) {
    r.nextAttemptAt <= now
  }

  predicate Increasing(ix: seq<nat>) {
    forall j, l :: 0 <= j < l < |ix| ==> ix[j] < ix[l]
  }

  /** The positions, from `k` on, of the records due at `now`, in queue order. */
  function DueFrom<B>(q: seq<Queued<B>>, now: nat, k: nat): (due: seq<nat>)
    requires k <= |q|
    ensures forall j :: 0 <= j < |due| ==> k <= due[j] < |q| && IsDue(q[due[j]], now)
    ensures Increasing(due)
    ensures forall i :: k <= i < |q| && IsDue(q[i], now) ==> i in due
    decreases |q| - k
  {
    if k == |q| then []
    else (if IsDue(q[k], now) then [k] else []) + DueFrom(q, now, k + 1)
  }

  /** The first position in a non-empty due list is due. */
  lemma DueFromHead<B>(q: seq<Queued<B>>, now: nat, k: nat)
    requires k <= |q|
    ensures DueFrom(q, now, k) == [] || IsDue(q[DueFrom(q, now, k)[0]], now)
  {
  }

  lemma NoneDueFrom<B>(q: seq<Queued<B>>, now: nat, k: nat)
    requires k <= |q| && forall i :: k <= i < |q| ==> !IsDue(q[i], now)
    ensures DueFrom(q, now, k) == []
  {
    DueFromHead(q, now, k);
  }

  /** The positions of all records due at `now` (the `filter` on `nextAttemptAt <= now`). */
  function Due<B>(q: seq<Queued<B>>, now: nat): seq<nat> {
    DueFrom(q, now, 0)
  }

  /** How many records one round may send: `maxBatchSize` in batch mode, one otherwise. */
  function Limit(b: BatchingPolicy): (n: nat)
    ensures !b.enabled ==> n == 1
    ensures b.enabled ==> n == b.maxBatchSize
  {
    if b.enabled then b.maxBatchSize else 1
  }

  /**
   * The positions one flush round selects: the first `Limit(b)` due
   * records, in queue order (`splice(0, maxBatchSize)` of the due records
   * in batch mode, `find` of the first due record otherwise).
   */
  function Selection<B>(q: seq<Queued<B>>, now: nat, b: BatchingPolicy): (sel: seq<nat>)
    ensures |sel| == Min(Limit(b), |Due(q, now)|)
    ensures forall j :: 0 <= j < |sel| ==> sel[j] < |q| && IsDue(q[sel[j]], now)
    ensures Increasing(sel)
    ensures forall i, j :: 0 <= j < |sel| && 0 <= i < sel[j] && IsDue(q[i], now) ==> i in sel
    ensures |sel| < Limit(b) ==> forall i :: 0 <= i < |q| && IsDue(q[i], now) ==> i in sel
  {
    var due := Due(q, now);
    var sel := due[..Min(Limit(b), |due|)];
    forall i, j | 0 <= j < |sel| && 0 <= i < sel[j] && IsDue(q[i], now)
      ensures i in sel
    {
      assert i in due;
      var m :| 0 <= m < |due| && due[m] == i;
      assert sel[j] == due[j];
      IncreasingOrder(due, m, j);
    }
    sel
  }

  lemma IncreasingOrder(ix: seq<nat>, a: nat, b: nat)
    requires Increasing(ix) && a < |ix| && b < |ix| && ix[a] < ix[b]
    ensures a < b
  {
  }

  /** In non-batch mode a round selects the earliest due record, and only it. */
  lemma SingleSelection<B>(q: seq<Queued<B>>, now: nat, b: BatchingPolicy)
    requires !b.enabled
    ensures var sel := Selection(q, now, b);
      && (sel == [] <==> forall i :: 0 <= i < |q| ==> !IsDue(q[i], now))
      && (sel != [] ==> |sel| == 1 && IsDue(q[sel[0]], now)
                        && forall i :: 0 <= i < sel[0] ==> !IsDue(q[i], now))
  {
  }

  /** The bodies handed to the transport for the selected positions, in order (`toSend.map(q => q.body)`). */
  function Bodies<B>(q: seq<Queued<B>>, sel: seq<nat>): (bodies: seq<B>)
    requires forall j :: 0 <= j < |sel| ==> sel[j] < |q|
  {
    seq(|sel|, j requires 0 <= j < |sel| => q[sel[j]].body)
  }

  /** The value of `x` as a sequence of at most one element. */
  function Present<T>(x: Option<T>): seq<T> {
    if x.Some? then [x.value] else []
  }

  /** The present values of `o`, in order. */
  function Compact<T>(o: seq<Option<T>>): (c: seq<T>)
    ensures |c| <= |o|
  {
    if o == [] then [] else Compact(o[..|o| - 1]) + Present(o[|o| - 1])
  }

  lemma {:induction false} CompactAppend<T>(a: seq<Option<T>>, b: seq<Option<T>>)
    ensures Compact(a + b) == Compact(a) + Compact(b)
    decreases |b|
  {
    if b == [] {
      assert a + b == a;
    } else {
      var n := |b| - 1;
      assert (a + b)[..|a + b| - 1] == a + b[..n];
      CompactAppend(a, b[..n]);
    }
  }

  lemma {:induction false} CompactAllPresent<T>(o: seq<Option<T>>, s: seq<T>)
    requires |o| == |s| && forall i :: 0 <= i < |o| ==> o[i] == Some(s[i])
    ensures Compact(o) == s
  {
    if o != [] {
      var n := |o| - 1;
      CompactAllPresent(o[..n], s[..n]);
      assert s == s[..n] + [s[n]];
    }
  }

  /**
   * Settling one more position `j` of `o`, when the positions between
   * `done` and `j` are all present and equal to `q0`'s.
   */
  lemma CompactStep<T>(o: seq<Option<T>>, q0: seq<T>, done: nat, j: nat)
    requires done <= j < |o| == |q0|
    requires forall i :: done <= i < j ==> o[i] == Some(q0[i])
    ensures Compact(o[..j + 1]) == Compact(o[..done]) + q0[done..j] + Present(o[j])
  {
    assert o[..j + 1] == o[..done] + o[done..j] + [o[j]];
    CompactAllPresent(o[done..j], q0[done..j]);
    CompactAppend(o[..done], o[done..j]);
    CompactAppend(o[..done] + o[done..j], [o[j]]);
    assert Compact([o[j]]) == Compact([]) + Present(o[j]);
  }

  /** Replacing the element at offset `d` of the tail `rest` of `c + rest` by `x`. */
  lemma Splice<T>(c: seq<T>, rest: seq<T>, d: nat, x: seq<T>)
    requires d < |rest|
    ensures (c + rest)[..|c| + d] + x + (c + rest)[|c| + d + 1..] == c + rest[..d] + x + rest[d + 1..]
  {
    assert (c + rest)[..|c| + d] == c + rest[..d];
    assert (c + rest)[|c| + d + 1..] == rest[d + 1..];
  }

  /**
   * One step of settling `o` into the queue `cur`, which holds the settled
   * prefix of `o` followed by the unsettled tail of `q0`: replacing the
   * element for position `j` by its settled value `x` settles up to `j`.
   */
  lemma SettleOne<T>(o: seq<Option<T>>, q0: seq<T>, done: nat, j: nat, removed: nat, cur: seq<T>, x: seq<T>)
    requires done <= j < |o| == |q0| && removed <= done
    requires forall i :: done <= i < j ==> o[i] == Some(q0[i])
    requires |Compact(o[..done])| == done - removed
    requires cur == Compact(o[..done]) + q0[done..]
    requires x == Present(o[j])
    ensures j - removed < |cur| && cur[j - removed] == q0[j]
    ensures cur[..j - removed] + x + cur[j - removed + 1..] == Compact(o[..j + 1]) + q0[j + 1..]
    ensures |Compact(o[..j + 1])| == j + 1 - (removed + 1 - |x|)
  {
    CompactStep(o, q0, done, j);
    SpliceTail(Compact(o[..done]), q0, done, j, removed, cur, x);
  }

  /**
   * In `cur`, the prefix `c` followed by the tail of `q0` from `done`,
   * replacing the element for position `j` of `q0` by `x`.
   */
  lemma SpliceTail<T>(c: seq<T>, q0: seq<T>, done: nat, j: nat, removed: nat, cur: seq<T>, x: seq<T>)
    requires removed <= done <= j < |q0| && |c| == done - removed && cur == c + q0[done..]
    ensures j - removed < |cur| && cur[j - removed] == q0[j]
    ensures cur[..j - removed] + x + cur[j - removed + 1..] == c + q0[done..j] + x + q0[j + 1..]
  {
    var rest, d := q0[done..], j - done;
    assert j - removed == |c| + d;
    Splice(c, rest, d, x);
    assert rest[..d] == q0[done..j];
    assert rest[d + 1..] == q0[j + 1..];
  }

  /** Compacting the rest of `o`, when from `done` on every position is present and equal to `q0`'s. */
  lemma CompactRest<T>(o: seq<Option<T>>, q0: seq<T>, done: nat)
    requires done <= |o| == |q0|
    requires forall i :: done <= i < |o| ==> o[i] == Some(q0[i])
    ensures Compact(o) == Compact(o[..done]) + q0[done..]
  {
    assert o == o[..done] + o[done..];
    CompactAllPresent(o[done..], q0[done..]);
    CompactAppend(o[..done], o[done..]);
  }

  /** A queue being settled, and how many records were spliced out of it so far. */
  datatype Settling<T> = Settling(queue: seq<T>, removed: nat)

  /**
   * Settling in progress: `s.queue` holds the settled records of the
   * positions before `done`, of which `s.removed` were dropped, followed by
   * the untouched records of `q0` from `done` on.
   */
  ghost predicate SettledUpTo<T>(o: seq<Option<T>>, q0: seq<T>, done: nat, s: Settling<T>) {
    && s.removed <= done <= |q0| == |o|
    && |Compact(o[..done])| == done - s.removed
    && s.queue == Compact(o[..done]) + q0[done..]
  }

  /** Position `i` of `o` holds the fate of `q0`'s record there that Settled describes. */
  ghost predicate FateAt<B>(o: seq<Option<Queued<B>>>, q0: seq<Queued<B>>, sel: seq<nat>, sent: bool, p: RetryPolicy,
                            now: nat, draws: seq<Draw>, i: nat)
  {
    && i < |o| && i < |q0| && i < |draws|
    && o[i] == if IsSelected(sel, i) then SettledRecord(q0[i], sent, p, now, draws[i]) else Some(q0[i])
  }

  /** `o` holds, position by position, the fate of `q0`'s records that Settled describes. */
  ghost predicate Fates<B>(o: seq<Option<Queued<B>>>, q0: seq<Queued<B>>, sel: seq<nat>, sent: bool, p: RetryPolicy,
                           now: nat, draws: seq<Draw>)
  {
    && |o| == |q0|
    && forall i: nat :: i < |q0| ==> FateAt(o, q0, sel, sent, p, now, draws, i)
  }

  /** Settled gives, position by position, the fates Fates describes. */
  lemma SettledFates<B>(q0: seq<Queued<B>>, sel: seq<nat>, sent: bool, p: RetryPolicy, now: nat, draws: seq<Draw>)
    requires |draws| >= |q0|
    ensures Fates(Settled(q0, sel, sent, p, now, draws), q0, sel, sent, p, now, draws)
  {
  }

  /** The positions from `done` up to `hi`, short of the k-th selected one, keep their records. */
  lemma UnselectedBetween<B>(o: seq<Option<Queued<B>>>, q0: seq<Queued<B>>, sel: seq<nat>, sent: bool,
                             p: RetryPolicy, now: nat, draws: seq<Draw>, k: nat, hi: nat)
    requires Increasing(sel) && k <= |sel| && hi <= |q0|
    requires Fates(o, q0, sel, sent, p, now, draws)
    requires k < |sel| ==> hi <= sel[k]
    ensures forall i :: Reached(sel, k) <= i < hi ==> o[i] == Some(q0[i])
  {
    forall i | Reached(sel, k) <= i < hi
      ensures o[i] == Some(q0[i])
    {
      IsSelectedIn(sel, i);
      assert FateAt(o, q0, sel, sent, p, now, draws, i);
    }
  }

  /**
   * One settling step on `s`: the record of original position `j` is
   * looked up at `j - s.removed`, where it sits once those records are
   * gone, and replaced by its settled record; a lookup that finds nothing
   * changes nothing (the `idx >= 0` guard on `indexOf`).
   */
  function SettleStep<B>(s: Settling<Queued<B>>, j: nat, sent: bool, p: RetryPolicy, now: nat, draw: Draw)
    : Settling<Queued<B>>
  {
    if s.removed <= j && j - s.removed < |s.queue| then
      var settled := SettledRecord(s.queue[j - s.removed], sent, p, now, draw);
      Settling(SpliceAt(s.queue, j - s.removed, Present(settled)), if settled.None? then s.removed + 1 else s.removed)
    else
      s
  }

  /**
   * The queue, and how many records were spliced out of it, after the
   * first k selected records are settled one by one in queue order.
   */
  function SettleSteps<B>(q0: seq<Queued<B>>, sel: seq<nat>, sent: bool, p: RetryPolicy, now: nat,
                          draws: seq<Draw>, k: nat): Settling<Queued<B>>
    requires k <= |sel| && (forall j :: 0 <= j < |sel| ==> sel[j] < |q0|) && |draws| >= |q0|
  {
    if k == 0 then Settling(q0, 0)
    else SettleStep(SettleSteps(q0, sel, sent, p, now, draws, k - 1), sel[k - 1], sent, p, now, draws[sel[k - 1]])
  }

  /** The position just past the k-th selected one: how far settling has reached after k steps. */
  function Reached(sel: seq<nat>, k: nat): nat
    requires k <= |sel|
  {
    if k == 0 then 0 else sel[k - 1] + 1
  }

  /** A step whose lookup finds the record `r` splices in the settled record of `r`. */
  lemma SettleStepFinds<B>(s: Settling<Queued<B>>, j: nat, sent: bool, p: RetryPolicy, now: nat, draw: Draw,
                           r: Queued<B>)
    requires s.removed <= j && j - s.removed < |s.queue| && s.queue[j - s.removed] == r
    ensures var settled := SettledRecord(r, sent, p, now, draw);
      SettleStep(s, j, sent, p, now, draw)
      == Settling(SpliceAt(s.queue, j - s.removed, Present(settled)), if settled.None? then s.removed + 1 else s.removed)
  {
  }

  /**
   * Settling position `j`, when every position from `done` up to it keeps
   * its record, keeps settling in progress, up to `j`.
   */
  lemma SettleNext<B>(o: seq<Option<Queued<B>>>, q0: seq<Queued<B>>, sent: bool, p: RetryPolicy, now: nat,
                      draw: Draw, j: nat, done: nat, s: Settling<Queued<B>>, next: Settling<Queued<B>>,
                      upTo: nat)
    requires done <= j < |o| == |q0|
    requires forall i :: done <= i < j ==> o[i] == Some(q0[i])
    requires o[j] == SettledRecord(q0[j], sent, p, now, draw)
    requires SettledUpTo(o, q0, done, s)
    requires next == SettleStep(s, j, sent, p, now, draw)
    requires upTo == j + 1
    ensures SettledUpTo(o, q0, upTo, next)
  {
    var x := Present(o[j]);
    SettleOne(o, q0, done, j, s.removed, s.queue, x);
    SettleStepFinds(s, j, sent, p, now, draw, q0[j]);
  }

  /** Before any step, nothing is settled and the queue is untouched. */
  lemma SettleStart<T>(o: seq<Option<T>>, q0: seq<T>)
    requires |o| == |q0|
    ensures SettledUpTo(o, q0, 0, Settling(q0, 0))
  {
    assert o[..0] == [] && q0[0..] == q0;
  }

  /** The k-th step keeps settling in progress, up to the k-th selected position. */
  lemma SettleStepsNext<B>(o: seq<Option<Queued<B>>>, q0: seq<Queued<B>>, sel: seq<nat>, sent: bool,
                           p: RetryPolicy, now: nat, draws: seq<Draw>, k: nat)
    requires Increasing(sel) && 0 < k <= |sel| && (forall j :: 0 <= j < |sel| ==> sel[j] < |q0|) && |draws| >= |q0|
    requires Fates(o, q0, sel, sent, p, now, draws)
    requires SettledUpTo(o, q0, Reached(sel, k - 1), SettleSteps(q0, sel, sent, p, now, draws, k - 1))
    ensures SettledUpTo(o, q0, Reached(sel, k), SettleSteps(q0, sel, sent, p, now, draws, k))
  {
    var j := sel[k - 1];
    assert forall i :: Reached(sel, k - 1) <= i < j ==> o[i] == Some(q0[i]) by {
      UnselectedBetween(o, q0, sel, sent, p, now, draws, k - 1, j);
    }
    assert o[j] == SettledRecord(q0[j], sent, p, now, draws[j]) by {
      IsSelectedIn(sel, j);
      assert FateAt(o, q0, sel, sent, p, now, draws, j);
    }
    assert SettleSteps(q0, sel, sent, p, now, draws, k)
        == SettleStep(SettleSteps(q0, sel, sent, p, now, draws, k - 1), j, sent, p, now, draws[j]) by {
      SettleStepsUnfold(q0, sel, sent, p, now, draws, k);
    }
    SettleNext(o, q0, sent, p, now, draws[j], j, Reached(sel, k - 1), SettleSteps(q0, sel, sent, p, now, draws, k - 1),
               SettleSteps(q0, sel, sent, p, now, draws, k), Reached(sel, k));
  }

  /** The k-th step of SettleSteps is SettleStep on the k-th selected position. */
  lemma SettleStepsUnfold<B>(q0: seq<Queued<B>>, sel: seq<nat>, sent: bool, p: RetryPolicy, now: nat,
                             draws: seq<Draw>, k: nat)
    requires 0 < k <= |sel| && (forall j :: 0 <= j < |sel| ==> sel[j] < |q0|) && |draws| >= |q0|
    ensures SettleSteps(q0, sel, sent, p, now, draws, k)
         == SettleStep(SettleSteps(q0, sel, sent, p, now, draws, k - 1), sel[k - 1], sent, p, now, draws[sel[k - 1]])
  {
  }

  /**
   * After k steps, the settled records of the positions up to the k-th
   * selected one are in place, followed by the untouched rest of `q0`.
   */
  lemma {:induction false} SettleStepsProgress<B>(o: seq<Option<Queued<B>>>, q0: seq<Queued<B>>, sel: seq<nat>,
                                                 sent: bool, p: RetryPolicy, now: nat, draws: seq<Draw>, k: nat)
    requires Increasing(sel) && k <= |sel| && (forall j :: 0 <= j < |sel| ==> sel[j] < |q0|) && |draws| >= |q0|
    requires Fates(o, q0, sel, sent, p, now, draws)
    ensures SettledUpTo(o, q0, Reached(sel, k), SettleSteps(q0, sel, sent, p, now, draws, k))
  {
    if k == 0 {
      SettleStart(o, q0);
    } else {
      SettleStepsProgress(o, q0, sel, sent, p, now, draws, k - 1);
      SettleStepsNext(o, q0, sel, sent, p, now, draws, k);
    }
  }

  /** Settling the selected records one by one compacts their fates. */
  lemma SettleStepsCompact<B>(o: seq<Option<Queued<B>>>, q0: seq<Queued<B>>, sel: seq<nat>, sent: bool,
                              p: RetryPolicy, now: nat, draws: seq<Draw>)
    requires Increasing(sel) && (forall j :: 0 <= j < |sel| ==> sel[j] < |q0|) && |draws| >= |q0|
    requires Fates(o, q0, sel, sent, p, now, draws)
    ensures SettleSteps(q0, sel, sent, p, now, draws, |sel|).queue == Compact(o)
  {
    SettleStepsProgress(o, q0, sel, sent, p, now, draws, |sel|);
    UnselectedBetween(o, q0, sel, sent, p, now, draws, |sel|, |q0|);
    CompactRest(o, q0, Reached(sel, |sel|));
  }

  /**
   * Settling the selected records one by one gives the queue AfterSend
   * describes.
   */
  lemma SettleStepsDone<B>(q0: seq<Queued<B>>, sel: seq<nat>, sent: bool, p: RetryPolicy, now: nat,
                           draws: seq<Draw>)
    requires Increasing(sel) && (forall j :: 0 <= j < |sel| ==> sel[j] < |q0|) && |draws| >= |q0|
    ensures SettleSteps(q0, sel, sent, p, now, draws, |sel|).queue == AfterSend(q0, sel, sent, p, now, draws)
  {
    SettledFates(q0, sel, sent, p, now, draws);
    SettleStepsCompact(Settled(q0, sel, sent, p, now, draws), q0, sel, sent, p, now, draws);
  }

  /** The positions of `o` whose value survives compaction, in order. */
  ghost function Survivors<T>(o: seq<Option<T>>): seq<nat> {
    if o == [] then []
    else Survivors(o[..|o| - 1]) + (if o[|o| - 1].Some? then [|o| - 1] else [])
  }

  /**
   * Compaction keeps exactly the present values of `o`, each once and in
   * their order in `o`: the j-th value of Compact(o) is the value at the
   * j-th surviving position, and every present position survives.
   */
  lemma {:induction false} CompactKeepsPresent<T>(o: seq<Option<T>>)
    ensures |Survivors(o)| == |Compact(o)|
    ensures forall j :: 0 <= j < |Survivors(o)| ==>
      Survivors(o)[j] < |o| && o[Survivors(o)[j]] == Some(Compact(o)[j])
    ensures Increasing(Survivors(o))
    ensures forall i :: 0 <= i < |o| && o[i].Some? ==> i in Survivors(o)
  {
    if o != [] {
      var n := |o| - 1;
      var init := o[..n];
      CompactKeepsPresent(init);
      assert forall i :: 0 <= i < n ==> init[i] == o[i];
    }
  }

  /**
   * What a failed send does to one selected record (the body of the
   * `for (const it of items)` loop): the attempt count goes up by one; past
   * `retries` the record is dropped, otherwise it is due again after the
   * backoff delay for its new attempt count.
   */
  function Retried<B>(r: Queued<B>, p: RetryPolicy, now: nat, draw: Draw): (o: Option<Queued<B>>)
    ensures o.None? <==> r.attempt + 1 > p.retries
    ensures o.Some? ==> o.value.body == r.body && o.value.attempt == r.attempt + 1
    ensures o.Some? ==> now + Delay(p, r.attempt + 1, draw) == o.value.nextAttemptAt <= now + p.maxDelayMs
  {
    var attempt := r.attempt + 1;
    if attempt > p.retries then None
    else Some(r.(attempt := attempt, nextAttemptAt := now + Delay(p, attempt, draw)))
  }

  /** The fate of one selected record: removed after a success, retried after a failure. */
  function SettledRecord<B>(r: Queued<B>, sent: bool, p: RetryPolicy, now: nat, draw: Draw): Option<Queued<B>> {
    if sent then None else Retried(r, p, now, draw)
  }

  /** `s` with its element at `idx` replaced by the elements of `x` (a `splice`). */
  function SpliceAt<T>(s: seq<T>, idx: nat, x: seq<T>): seq<T>
    requires idx < |s|
  {
    s[..idx] + x + s[idx + 1..]
  }

  /**
   * Whether position `i` is among the selected positions `sel`; the same as
   * `i in sel` (IsSelectedIn), stated by recursion on `sel`.
   */
  predicate IsSelected(sel: seq<nat>, i: nat) {
    sel != [] && (sel[|sel| - 1] == i || IsSelected(sel[..|sel| - 1], i))
  }

  lemma {:induction false} IsSelectedIn(sel: seq<nat>, i: nat)
    ensures IsSelected(sel, i) <==> i in sel
  {
    if sel != [] {
      var n := |sel| - 1;
      IsSelectedIn(sel[..n], i);
      assert sel == sel[..n] + [sel[n]];
    }
  }

  /**
   * The fate of each queue position after the transport call: unselected
   * records stay as they are; selected ones are removed after a success and
   * retried after a failure. `draws[i]` is the random draw for position `i`.
   */
  function Settled<B>(q: seq<Queued<B>>, sel: seq<nat>, sent: bool, p: RetryPolicy, now: nat, draws: seq<Draw>)
    : (o: seq<Option<Queued<B>>>)
    requires |draws| >= |q|
    ensures |o| == |q|
    ensures forall i :: 0 <= i < |q| && !IsSelected(sel, i) ==> o[i] == Some(q[i])
    ensures sent ==> forall i :: 0 <= i < |q| && IsSelected(sel, i) ==> o[i].None?
    ensures !sent ==> forall i :: 0 <= i < |q| && IsSelected(sel, i) ==> o[i] == Retried(q[i], p, now, draws[i])
    ensures forall i :: 0 <= i < |q| && o[i].Some? ==> o[i].value.body == q[i].body
  {
    seq(|q|, i requires 0 <= i < |q| =>
      if !IsSelected(sel, i) then Some(q[i]) else SettledRecord(q[i], sent, p, now, draws[i]))
  }

  /** The queue after the transport call of one round. */
  function AfterSend<B>(q: seq<Queued<B>>, sel: seq<nat>, sent: bool, p: RetryPolicy, now: nat, draws: seq<Draw>)
    : (after: seq<Queued<B>>)
    requires |draws| >= |q|
    ensures |after| <= |q|
    ensures sel == [] ==> after == q
  {
    var o := Settled(q, sel, sent, p, now, draws);
    assert sel == [] ==> Compact(o) == q by {
      if sel == [] {
        CompactAllPresent(o, q);
      }
    }
    Compact(o)
  }

  /** The earliest `nextAttemptAt` in a non-empty queue (`Math.min(..._queue.map(...))`). */
  function EarliestAttempt<B>(q: seq<Queued<B>>): (m: nat)
    requires |q| > 0
    ensures forall i :: 0 <= i < |q| ==> m <= q[i].nextAttemptAt
    ensures exists i :: 0 <= i < |q| && q[i].nextAttemptAt == m
  {
    if |q| == 1 then q[0].nextAttemptAt
    else
      var rest := EarliestAttempt(q[1..]);
      assert forall i :: 1 <= i < |q| ==> q[i] == q[1..][i - 1];
      Min(q[0].nextAttemptAt, rest)
  }

  /**
   * The delay with which the end of a round re-arms the timer:
   * `max(0, earliest nextAttemptAt - now)`. It is zero exactly when some
   * record is already due; otherwise `now` plus it is the earliest time a
   * record becomes due.
   */
  function RearmDelay<B>(q: seq<Queued<B>>, now: nat): (d: nat)
    requires |q| > 0
    ensures d == 0 <==> exists i :: 0 <= i < |q| && IsDue(q[i], now)
    ensures d > 0 ==> (forall i :: 0 <= i < |q| ==> now + d <= q[i].nextAttemptAt)
                      && exists i :: 0 <= i < |q| && q[i].nextAttemptAt == now + d
  {
    var earliest := EarliestAttempt(q);
    if earliest <= now then 0 else earliest - now
  }

  /** No record has more failed attempts than the policy allows (one, when `retries` is zero). */
  predicate AttemptsBounded<B>(q: seq<Queued<B>>, p: RetryPolicy) {
    forall i :: 0 <= i < |q| ==> q[i].attempt <= (if p.retries == 0 then 1 else p.retries)
  }
}
