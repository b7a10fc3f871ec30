/** The Telegram long-poll loop: an offset, batches of updates, and errors at any point. */
module Polling {
  import opened Wrappers

  /** What happens in one round: the poll fails, or a batch comes back and processing may fail at one update. */
  datatype Round = PollFails | Batch(arrived: nat, limit: nat, failsAt: Option<nat>)

  datatype Attempt = Attempt(id: nat, ok: bool)

  ghost predicate Ascending(stream: seq<nat>) {
    forall i, j | 0 <= i < j < |stream| :: stream[i] < stream[j]
  }

  function AtLeast(ids: seq<nat>, offset: nat): seq<nat> {
    if ids == [] then []
    else if ids[0] >= offset then [ids[0]] + AtLeast(ids[1..], offset)
    else AtLeast(ids[1..], offset)
  }

  function Min(a: nat, b: nat): nat { if a < b then a else b }

  /** The server's answer: the first pending updates among those that have arrived,
      pending meaning not below the offset. */
  function Answer(stream: seq<nat>, offset: Option<nat>, arrived: nat, limit: nat): seq<nat> {
    var here := stream[..Min(arrived, |stream|)];
    var pending := if offset.Some? then AtLeast(here, offset.value) else here;
    pending[..Min(limit, |pending|)]
  }

  /** The offset after the first `n` updates are done. */
  function OffsetAfter(stream: seq<nat>, n: nat): Option<nat>
    requires n <= |stream|
  {
    if n == 0 then None else Some(stream[n - 1] + 1)
  }

  lemma {:induction false} AtLeastAll(ids: seq<nat>, offset: nat)
    requires forall k | 0 <= k < |ids| :: ids[k] >= offset
    ensures AtLeast(ids, offset) == ids
  {
    if ids != [] {
      AtLeastAll(ids[1..], offset);
    }
  }

  lemma {:induction false} AtLeastDrops(ids: seq<nat>, n: nat, offset: nat)
    requires n <= |ids| && (forall k | 0 <= k < n :: ids[k] < offset) && (forall k | n <= k < |ids| :: ids[k] >= offset)
    ensures AtLeast(ids, offset) == ids[n..]
  {
    if n == 0 {
      AtLeastAll(ids, offset);
      assert ids[0..] == ids;
    } else {
      AtLeastDrops(ids[1..], n - 1, offset);
      assert ids[1..][n - 1..] == ids[n..];
    }
  }

  /** After `n` updates the answer continues the stream where processing left off. */
  lemma {:induction false} AnswerContinues(stream: seq<nat>, n: nat, arrived: nat, limit: nat)
    requires Ascending(stream) && n <= |stream|
    ensures var batch := Answer(stream, OffsetAfter(stream, n), arrived, limit);
      n + |batch| <= Max(n, |stream|) && (batch != [] ==> n + |batch| <= |stream| && batch == stream[n..n + |batch|])
  {
    var a := Min(arrived, |stream|);
    var here := stream[..a];
    if n > 0 {
      var offset := stream[n - 1] + 1;
      if n <= a {
        AtLeastDrops(here, n, offset);
        assert here[n..] == stream[n..a];
      } else {
        AtLeastDrops(here, a, offset);
      }
    }
  }

  function Max(a: nat, b: nat): nat { if a > b then a else b }

  function OkCount(attempts: seq<Attempt>): nat {
    if attempts == [] then 0
    else
      var n := |attempts| - 1;
      OkCount(attempts[..n]) + if attempts[n].ok then 1 else 0
  }

  /** Every attempt is on the first update not yet done: a failing one is retried next,
      a completed one never again, and none is skipped. */
  ghost predicate InSequence(stream: seq<nat>, attempts: seq<Attempt>) {
    attempts == [] ||
    var n := |attempts| - 1;
    && InSequence(stream, attempts[..n])
    && OkCount(attempts[..n]) < |stream| && attempts[n].id == stream[OkCount(attempts[..n])]
  }

  lemma {:induction false} InSequenceAt(stream: seq<nat>, attempts: seq<Attempt>, k: nat)
    requires InSequence(stream, attempts) && k < |attempts|
    ensures OkCount(attempts[..k]) < |stream| && attempts[k].id == stream[OkCount(attempts[..k])]
  {
    var front := attempts[..|attempts| - 1];
    if k < |front| {
      InSequenceAt(stream, front, k);
      assert front[..k] == attempts[..k];
    }
  }

  lemma {:induction false} NextInSequence(stream: seq<nat>, attempts: seq<Attempt>, ok: bool)
    requires InSequence(stream, attempts) && OkCount(attempts) < |stream|
    ensures var next := attempts + [Attempt(stream[OkCount(attempts)], ok)];
      InSequence(stream, next) && OkCount(next) == OkCount(attempts) + (if ok then 1 else 0)
  {
    var next := attempts + [Attempt(stream[OkCount(attempts)], ok)];
    assert next[..|attempts|] == attempts;
  }

  /** Exactly the first updates of the stream are done, the offset is just past them,
      and the log of attempts says how it came about. */
  ghost predicate Progress(stream: seq<nat>, offset: Option<nat>, completed: seq<nat>, attempts: seq<Attempt>) {
    && |completed| <= |stream| && completed == stream[..|completed|]
    && offset == OffsetAfter(stream, |completed|)
    && InSequence(stream, attempts) && OkCount(attempts) == |completed|
  }

  /** How far a batch of the given size gets. */
  function Reached(size: nat, failsAt: Option<nat>): nat {
    if failsAt.Some? && failsAt.value < size then failsAt.value else size
  }

  /** How many updates are done after a round that began with `n` done. */
  ghost function DoneAfterRound(stream: seq<nat>, n: nat, round: Round): (r: nat)
    requires Ascending(stream) && n <= |stream|
    ensures n <= r <= |stream|
  {
    match round
    case PollFails => n
    case Batch(arrived, limit, failsAt) =>
      AnswerContinues(stream, n, arrived, limit);
      var size := |Answer(stream, OffsetAfter(stream, n), arrived, limit)|;
      n + Reached(size, failsAt)
  }

  /** How far a round gets: as far as the updates that have arrived and the limit of one poll allow, and not past the
      first update whose processing fails. */
  lemma {:induction false} RoundGoesAsFarAsItCan(stream: seq<nat>, n: nat, arrived: nat, limit: nat,
                                                 failsAt: Option<nat>)
    requires Ascending(stream) && n <= |stream|
    ensures var here := if arrived < |stream| then arrived else |stream|;
      var waiting := if n < here then here - n else 0;
      var size := if waiting < limit then waiting else limit;
      DoneAfterRound(stream, n, Batch(arrived, limit, failsAt))
        == n + if failsAt.Some? && failsAt.value < size then failsAt.value else size
  {
    AnswerContinues(stream, n, arrived, limit);
    AnswerIsFull(stream, n, arrived, limit);
  }

  lemma {:induction false} AnswerIsFull(stream: seq<nat>, n: nat, arrived: nat, limit: nat)
    requires Ascending(stream) && n <= |stream|
    ensures var a := Min(arrived, |stream|);
      |Answer(stream, OffsetAfter(stream, n), arrived, limit)| == Min(limit, if n < a then a - n else 0)
  {
    var a := Min(arrived, |stream|);
    if n > 0 {
      AtLeastDrops(stream[..a], Min(n, a), stream[n - 1] + 1);
    }
  }

  ghost predicate FailsDuring(stream: seq<nat>, n: nat, round: Round)
    requires n <= |stream|
  {
    round.Batch? &&
    var size := |Answer(stream, OffsetAfter(stream, n), round.arrived, round.limit)|;
    Reached(size, round.failsAt) < size
  }

  ghost function DoneAfter(stream: seq<nat>, rounds: seq<Round>): (r: nat)
    requires Ascending(stream)
    ensures r <= |stream|
  {
    if rounds == [] then 0
    else
      var n := |rounds| - 1;
      DoneAfterRound(stream, DoneAfter(stream, rounds[..n]), rounds[n])
  }

  /** The rounds in which processing an update failed. */
  ghost function Failures(stream: seq<nat>, rounds: seq<Round>): nat
    requires Ascending(stream)
  {
    if rounds == [] then 0
    else
      var n := |rounds| - 1;
      Failures(stream, rounds[..n]) + if FailsDuring(stream, DoneAfter(stream, rounds[..n]), rounds[n]) then 1 else 0
  }

  lemma {:induction false} OneAttempt(stream: seq<nat>, offset: Option<nat>, completed: seq<nat>,
                                      attempts: seq<Attempt>, update: nat)
    requires Progress(stream, offset, completed, attempts)
    requires |completed| < |stream| && update == stream[|completed|]
    ensures Progress(stream, offset, completed, attempts + [Attempt(update, false)])
    ensures Progress(stream, Some(update + 1), completed + [update], attempts + [Attempt(update, true)])
  {
    NextInSequence(stream, attempts, false);
    NextInSequence(stream, attempts, true);
    assert stream[..|completed| + 1] == completed + [update];
  }

  /** The batch goes on in the stream where `n` completed updates end. */
  ghost predicate Continues(stream: seq<nat>, n: nat, updates: seq<nat>) {
    forall k | 0 <= k < |updates| :: n + k < |stream| && updates[k] == stream[n + k]
  }

  /** The inner loop: process the batch until an update fails. */
  method ProcessBatch(ghost stream: seq<nat>, updates: seq<nat>, failsAt: Option<nat>,
                      offset0: Option<nat>, completed0: seq<nat>, attempts0: seq<Attempt>)
    returns (offset: Option<nat>, completed: seq<nat>, attempts: seq<Attempt>)
    requires Progress(stream, offset0, completed0, attempts0)
    requires Continues(stream, |completed0|, updates)
    ensures Progress(stream, offset, completed, attempts)
    ensures |completed| == |completed0| + Reached(|updates|, failsAt)
    ensures |attempts| == |attempts0| + Reached(|updates|, failsAt) +
      (if Reached(|updates|, failsAt) < |updates| then 1 else 0)
  {
    offset, completed, attempts := offset0, completed0, attempts0;
    for k := 0 to |updates|
      invariant Progress(stream, offset, completed, attempts)
      invariant |completed| == |completed0| + k && |attempts| == |attempts0| + k
      invariant k <= Reached(|updates|, failsAt)
    {
      var update := updates[k];
      OneAttempt(stream, offset, completed, attempts, update);
      if failsAt == Some(k) {
        attempts := attempts + [Attempt(update, false)];
        return;
      }
      attempts := attempts + [Attempt(update, true)];
      completed := completed + [update];
      offset := Some(update + 1);
    }
  }

  /** `run_telegram_bot_polling` over any pattern of errors: the completed updates are exactly the
      first ones of the stream, in order and each once; the offset is just past the last of them. */
  method RunPolling(stream: seq<nat>, rounds: seq<Round>)
    returns (offset: Option<nat>, completed: seq<nat>, attempts: seq<Attempt>)
    requires Ascending(stream)
    ensures Progress(stream, offset, completed, attempts)
    ensures |completed| == DoneAfter(stream, rounds)
    ensures |attempts| == DoneAfter(stream, rounds) + Failures(stream, rounds)
  {
    offset, completed, attempts := None, [], [];
    for round := 0 to |rounds|
      invariant Progress(stream, offset, completed, attempts)
      invariant |completed| == DoneAfter(stream, rounds[..round])
      invariant |attempts| == |completed| + Failures(stream, rounds[..round])
    {
      assert rounds[..round + 1][..round] == rounds[..round];
      if rounds[round].Batch? {
        AnswerContinues(stream, |completed|, rounds[round].arrived, rounds[round].limit);
        var updates := Answer(stream, offset, rounds[round].arrived, rounds[round].limit);
        offset, completed, attempts :=
          ProcessBatch(stream, updates, rounds[round].failsAt, offset, completed, attempts);
      }
    }
    assert rounds[..|rounds|] == rounds;
  }

  /** Consequences for the log of attempts: a failure is followed by a retry of the same update,
      a success by the next update of the stream, and no update completes twice. */
  lemma {:induction false} RetriesAndOrder(stream: seq<nat>, attempts: seq<Attempt>, k: nat)
    requires Ascending(stream) && InSequence(stream, attempts) && k + 1 < |attempts|
    ensures if attempts[k].ok then attempts[k + 1].id > attempts[k].id else attempts[k + 1].id == attempts[k].id
    ensures forall m | 0 <= m < |stream| && attempts[k].id < stream[m] :: attempts[k + 1].id <= stream[m]
  {
    assert attempts[..k + 1][..k] == attempts[..k];
    assert attempts[..k + 1][k] == attempts[k];
    InSequenceAt(stream, attempts, k);
    InSequenceAt(stream, attempts, k + 1);
  }

  /** Everything in the stream below the offset is completed, and nothing else. */
  lemma {:induction false} BelowOffsetIsDone(stream: seq<nat>, n: nat, id: nat)
    requires Ascending(stream) && n <= |stream| && id in stream
    ensures id in stream[..n] <==> OffsetAfter(stream, n).Some? && id < OffsetAfter(stream, n).value
  {
    var k :| 0 <= k < |stream| && stream[k] == id;
    if k < n {
      assert stream[..n][k] == id;
    }
  }
}
