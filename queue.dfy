/** The per-channel dispatch queue: a FIFO of post actions drained by one
    worker that keeps a minimum pause between sends and retries an action
    once after a rate-limit response.

    The worker thread's `while True` loop is modelled by `Step`, one
    iteration per call; `now` is the clock reading when `q.get()` hands the
    worker its next action, and each `Call` gives how one call of the action
    ended and how long it took. Times are milliseconds. */
module DispatchQueue {
  import opened Wrappers
  import opened SlackTypes
  import Py

  /** `ChannelQueue(client, cooldown=1.1)` */
  const DefaultCooldownMs: nat := 1100

  /** The 0.1 s added to every `Retry-After` pause. */
  const RetryBufferMs: nat := 100

  /** One call of an action's function. */
  datatype Call = Call(result: CallResult, durationMs: nat)

  /** One attempt the worker made: the position of its action in enqueue
      order, the action, when the call started and ended, and whether it was
      the retry after a 429. */
  datatype Attempt = Attempt(seqNo: nat, action: PostArgs, start: int, end: int, isRetry: bool)

  datatype StepResult =
    | Blocked         // the queue is empty (or the worker has ended): `q.get()` waits
    | Sent            // the first call returned
    | Dropped         // the first call raised a non-429 SlackApiError, which is swallowed
    | RetriedAndSent  // the first call got a 429 and the one retry returned
    | WorkerEnded     // an exception escaped the loop; the worker thread is gone

  /** The worker's side of a queue: everything but the queue's contents. */
  datatype WorkerState = WorkerState(last: int, alive: bool, completed: nat, log: seq<Attempt>, taken: nat)

  /** The worker of a new queue: running, nothing taken, `last = 0.0`. */
  const IdleWorker := WorkerState(0, true, 0, [], 0)

  /** The pause before a first attempt, `max(0.0, cooldown - (now - last))`:
      the earliest start no earlier than `now` that is at least `cooldown`
      after `last`. */
  function StartDelay(cooldown: nat, now: int, last: int): (d: nat)
    ensures now + d >= last + cooldown
    ensures d == 0 || now + d == last + cooldown
  {
    Py.Max(0, cooldown - (now - last))
  }

  /** How one worker iteration ends, given its first call and (if one is made) its retry. */
  function Outcome(first: Call, retry: Call): (r: StepResult)
    ensures r == RetriedAndSent <==>
      IsRateLimited(first.result) && RetryWaitMs(first.result.retryAfter).Some? && retry.result.Ok?
    ensures r == Dropped <==> first.result.ApiError? && !IsRateLimited(first.result)
    ensures r == Sent <==> first.result.Ok?
    ensures r != Blocked
  {
    match first.result
    case Ok(_) => Sent
    case OtherError => WorkerEnded
    case ApiError(status, retryAfter) =>
      if status != TooManyRequests then Dropped
      else if RetryWaitMs(retryAfter).None? then WorkerEnded
      else if retry.result.Ok? then RetriedAndSent
      else WorkerEnded
  }

  /** The attempts one worker iteration makes on action number `seqNo`, whose
      first call starts at `start`: the first call, then, after a 429 whose
      pause can be slept, the retry. */
  function Attempts(seqNo: nat, a: PostArgs, start: int, first: Call, retry: Call): (r: seq<Attempt>)
    ensures 1 <= |r| <= 2
    ensures r[0] == Attempt(seqNo, a, start, start + first.durationMs, false)
    ensures |r| == 2 <==> IsRateLimited(first.result) && RetryWaitMs(first.result.retryAfter).Some?
    ensures |r| == 2 ==>
              && r[1].seqNo == seqNo && r[1].action == a && r[1].isRetry
              && r[1].start == r[0].end + RetryWaitMs(first.result.retryAfter).value
              && r[1].end == r[1].start + retry.durationMs
  {
    var firstEnd := start + first.durationMs;
    var one := [Attempt(seqNo, a, start, firstEnd, false)];
    if IsRateLimited(first.result) then
      match RetryWaitMs(first.result.retryAfter)
      case None => one
      case Some(w) => one + [Attempt(seqNo, a, firstEnd + w, firstEnd + w + retry.durationMs, true)]
    else one
  }

  /** `cur` may follow `prev` in the worker's log: a retry repeats the action
      of the first attempt just before it, no earlier than 0.1 s after it;
      any other attempt is of a later action and starts at least `cooldown`
      after the previous attempt ended. */
  predicate Follows(prev: Attempt, cur: Attempt, cooldown: nat) {
    if cur.isRetry then
      cur.seqNo == prev.seqNo && !prev.isRetry && cur.start >= prev.end + RetryBufferMs
    else
      cur.seqNo > prev.seqNo && cur.start >= prev.end + cooldown
  }

  /** Attempt number `i` of `log` may follow the one before it. */
  predicate FollowsAt(log: seq<Attempt>, i: nat, cooldown: nat)
    requires 0 < i < |log|
  {
    Follows(log[i - 1], log[i], cooldown)
  }

  /** The log a worker with pause `cooldown` can write: it opens with a
      first attempt and every attempt may follow the one before it. */
  predicate WellSpaced(log: seq<Attempt>, cooldown: nat) {
    (log != [] ==> !log[0].isRetry)
    && (forall i :: 0 < i < |log| ==> FollowsAt(log, i, cooldown))
    && (forall i :: 0 <= i < |log| ==> log[i].start <= log[i].end)
  }

  /** Two well-spaced logs joined where the second may follow the first make one well-spaced log. */
  lemma ExtendWellSpaced(log: seq<Attempt>, more: seq<Attempt>, cooldown: nat)
    requires WellSpaced(log, cooldown) && WellSpaced(more, cooldown)
    requires log != [] && more != [] ==> Follows(log[|log| - 1], more[0], cooldown)
    ensures WellSpaced(log + more, cooldown)
  {
    var l := log + more;
    forall i | 0 < i < |l| ensures FollowsAt(l, i, cooldown) {
      if i < |log| {
        assert FollowsAt(log, i, cooldown);
      } else if i > |log| {
        assert FollowsAt(more, i - |log|, cooldown);
      }
    }
  }

  lemma {:induction false} SeqNoMonotone(log: seq<Attempt>, cooldown: nat, i: nat, j: nat)
    requires WellSpaced(log, cooldown)
    requires i < j < |log|
    ensures log[i].seqNo <= log[j].seqNo
    ensures !log[j].isRetry ==> log[i].seqNo < log[j].seqNo
    decreases j - i
  {
    assert FollowsAt(log, j, cooldown);
    if i < j - 1 {
      SeqNoMonotone(log, cooldown, i, j - 1);
    }
  }

  /** In a well-spaced log no action is attempted more than twice, and a
      second attempt comes right after the first. */
  lemma AtMostTwoAttempts(log: seq<Attempt>, cooldown: nat, i: nat, j: nat)
    requires WellSpaced(log, cooldown)
    requires i < j < |log| && log[i].seqNo == log[j].seqNo
    ensures j == i + 1 && log[j].isRetry && !log[i].isRetry
  {
    SeqNoMonotone(log, cooldown, i, j);
    assert log[j].isRetry;
    assert FollowsAt(log, j, cooldown);
    if i < j - 1 {
      SeqNoMonotone(log, cooldown, i, j - 1);
      assert false;
    }
  }

  /** The worker's bookkeeping agrees with what was enqueued: the queue holds
      exactly the actions not yet taken, every taken action but the one that
      killed the worker was completed, the log is well spaced and records
      only taken actions, and `last` is when the latest attempt ended. */
  ghost predicate QueueInv(cooldown: nat, enqueued: seq<PostArgs>, pending: seq<PostArgs>, taken: nat, completed: nat,
                           alive: bool, log: seq<Attempt>, last: int)
  {
    && taken <= |enqueued| && pending == enqueued[taken..]
    && completed + (if alive then 0 else 1) == taken
    && WellSpaced(log, cooldown)
    && (forall i :: 0 <= i < |log| ==> log[i].seqNo < taken && log[i].action == enqueued[log[i].seqNo])
    && (alive && log != [] ==> last == log[|log| - 1].end)
  }

  /** Enqueueing keeps the invariant. */
  lemma EnqueueKeepsInv(cooldown: nat, enqueued: seq<PostArgs>, pending: seq<PostArgs>, taken: nat, completed: nat,
                        alive: bool, log: seq<Attempt>, last: int, a: PostArgs)
    requires QueueInv(cooldown, enqueued, pending, taken, completed, alive, log, last)
    ensures QueueInv(cooldown, enqueued + [a], pending + [a], taken, completed, alive, log, last)
  {
    assert (enqueued + [a])[taken..] == enqueued[taken..] + [a];
    forall i | 0 <= i < |log| ensures log[i].action == (enqueued + [a])[log[i].seqNo] {
    }
  }

  /** A running worker that takes the next action, attempts it and records
      how that went keeps the invariant. */
  lemma AttemptKeepsInv(cooldown: nat, enqueued: seq<PostArgs>, pending: seq<PostArgs>, taken: nat, completed: nat,
                        alive: bool, log: seq<Attempt>, last: int, start: int, first: Call, retry: Call)
    requires QueueInv(cooldown, enqueued, pending, taken, completed, alive, log, last)
    requires alive && pending != [] && start >= last + cooldown
    ensures var made := Attempts(taken, pending[0], start, first, retry);
      var ended := Outcome(first, retry) == WorkerEnded;
      QueueInv(cooldown, enqueued, pending[1..], taken + 1, if ended then completed else completed + 1, !ended,
               log + made, if ended then last else made[|made| - 1].end)
  {
    var made := Attempts(taken, pending[0], start, first, retry);
    assert WellSpaced(made, cooldown) by {
      if |made| == 2 {
        assert FollowsAt(made, 1, cooldown);
      }
    }
    if log != [] {
      assert Follows(log[|log| - 1], made[0], cooldown);
    }
    ExtendWellSpaced(log, made, cooldown);
    assert enqueued[taken] == pending[0];
    var l := log + made;
    forall i | 0 <= i < |l| ensures l[i].seqNo < taken + 1 && l[i].action == enqueued[l[i].seqNo] {
      if i >= |log| {
        assert l[i] == made[i - |log|];
      }
    }
  }

  class ChannelQueue {
    /** The minimum pause between the end of one attempt and the start of the next action. */
    const cooldown: nat
    /** `self.q`: the actions enqueued and not yet taken by the worker. */
    var pending: seq<PostArgs>
    /** The worker's `last`: when its previous action finished. */
    var last: int
    /** Whether the worker thread is still running. */
    var alive: bool
    /** The number of `task_done()` calls. */
    var completed: nat
    /** The calls the worker has made, in order. */
    var log: seq<Attempt>
    /** Every action ever enqueued, in order. */
    ghost var enqueued: seq<PostArgs>
    /** How many actions the worker has taken from the queue. */
    var taken: nat

    /** The worker's side of this queue. */
    function Worker(): WorkerState
      reads this
    {
      WorkerState(last, alive, completed, log, taken)
    }

    ghost predicate Valid()
      reads this
    {
      QueueInv(cooldown, enqueued, pending, taken, completed, alive, log, last)
    }

    /** `ChannelQueue(client, cooldown)`: an empty queue whose worker is running with `last = 0.0`. */
    constructor (cooldown: nat := DefaultCooldownMs)
      ensures Valid()
      ensures this.cooldown == cooldown
      ensures pending == [] && enqueued == [] && taken == 0 && log == []
      ensures last == 0 && alive && completed == 0
      ensures Worker() == IdleWorker
    {
      this.cooldown := cooldown;
      pending, last, alive, completed, log := [], 0, true, 0, [];
      enqueued, taken := [], 0;
    }

    /** `enqueue(fn, **kwargs)`: appends and returns; nothing is removed or reordered. */
    method Enqueue(a: PostArgs)
      modifies this
      ensures old(Valid()) ==> Valid()
      ensures pending == old(pending) + [a] && enqueued == old(enqueued) + [a]
      ensures taken == old(taken) && last == old(last) && alive == old(alive)
      ensures completed == old(completed) && log == old(log)
      ensures Worker() == old(Worker())
    {
      if Valid() {
        EnqueueKeepsInv(cooldown, enqueued, pending, taken, completed, alive, log, last, a);
      }
      pending, enqueued := pending + [a], enqueued + [a];
    }

    /** One iteration of `_worker`. */
    method Step(now: int, first: Call, retry: Call) returns (res: StepResult)
      requires Valid()
      modifies this
      ensures Valid()
      ensures enqueued == old(enqueued)
      ensures !old(alive) || old(pending) == [] ==>
        res == Blocked && pending == old(pending) && taken == old(taken) && log == old(log)
        && last == old(last) && alive == old(alive) && completed == old(completed)
      ensures old(alive) && old(pending) != [] ==>
        var made := Attempts(old(taken), old(pending)[0], now + StartDelay(cooldown, now, old(last)), first, retry);
        && res == Outcome(first, retry)
        && pending == old(pending)[1..] && taken == old(taken) + 1
        && log == old(log) + made
        && alive == (res != WorkerEnded)
        && (alive ==> last == made[|made| - 1].end && completed == old(completed) + 1)
        && (!alive ==> completed == old(completed))
    {
      if !alive || pending == [] {
        return Blocked;
      }
      var start := now + StartDelay(cooldown, now, last);
      var made := Attempts(taken, pending[0], start, first, retry);
      res := Outcome(first, retry);
      AttemptKeepsInv(cooldown, enqueued, pending, taken, completed, alive, log, last, start, first, retry);
      var ended := res == WorkerEnded;
      pending, taken, log, alive := pending[1..], taken + 1, log + made, !ended;
      if !ended {
        last, completed := made[|made| - 1].end, completed + 1;
      }
    }
  }
}
