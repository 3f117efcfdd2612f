/** Tasks of the executor (`AsyncTask`): a name, a unique id, a slot holding
    the not-yet-finished computation, and the producer handle through which
    the task puts itself back on the ready queue when it is woken.

    Rust shares a task through `Arc`; here tasks live in an arena keyed by
    their id, and the ready queue holds ids. */
module Tasks {
  import opened Wrappers
  import opened Uuids
  import opened Channels

  type TaskId = Uuid

  /** The only results a task can finish with. */
  datatype AsyncTaskResult = Ok | Error(message: string)

  /** A future, reduced to what the executor can observe of it: it answers
      `Pending` to its first `pendingPolls` polls and then finishes with
      `result`. */
  datatype Computation = Computation(pendingPolls: nat, result: AsyncTaskResult)

  /** `Poll<AsyncTaskResult>`, with the future's state after a pending poll. */
  datatype PollOutcome = Pending(next: Computation) | Ready(result: AsyncTaskResult)

  /** One call of `Future::poll`. */
  function Poll(c: Computation): (p: PollOutcome)
    ensures p.Pending? <==> c.pendingPolls > 0
    ensures p.Pending? ==> p.next.result == c.result && p.next.pendingPolls + 1 == c.pendingPolls
    ensures p.Ready? ==> p.result == c.result
  {
    if c.pendingPolls > 0 then Pending(c.(pendingPolls := c.pendingPolls - 1)) else Ready(c.result)
  }

  /** The future slot after the worker has visited the task once: the future
      is taken out, polled once, and put back only if it is still pending. An
      empty slot is left empty without a poll. */
  function AfterPoll(slot: Option<Computation>): (r: Option<Computation>)
    ensures slot.None? ==> r.None?
    ensures r.Some? ==> slot.Some? && Poll(slot.value) == Pending(r.value)
    ensures slot.Some? && r.None? ==> Poll(slot.value).Ready?
  {
    match slot
    case None => None
    case Some(c) =>
      match Poll(c)
      case Pending(next) => Some(next)
      case Ready(_) => None
  }

  /** The slot after `n` visits. */
  function AfterPolls(slot: Option<Computation>, n: nat): (r: Option<Computation>)
    ensures slot.None? ==> r.None?
    ensures r.Some? ==> slot.Some? && r.value.result == slot.value.result && r.value.pendingPolls + n == slot.value.pendingPolls
    decreases n
  {
    if n == 0 then slot else AfterPolls(AfterPoll(slot), n - 1)
  }

  /** Up to its last pending answer a computation stays in the slot, one
      pending answer fewer per poll. */
  lemma {:induction false} PendingWhileScriptLasts(c: Computation, n: nat)
    requires n <= c.pendingPolls
    ensures AfterPolls(Some(c), n) == Some(c.(pendingPolls := c.pendingPolls - n))
    decreases n
  {
    if n > 0 {
      PendingWhileScriptLasts(c.(pendingPolls := c.pendingPolls - 1), n - 1);
    }
  }

  /** A computation that answers `Pending` k times leaves the slot after
      exactly k + 1 polls, and no poll after that finds anything. */
  lemma {:induction false} ReadyAfterExactly(c: Computation, extra: nat)
    ensures AfterPolls(Some(c), c.pendingPolls).Some?
    ensures AfterPolls(Some(c), c.pendingPolls + 1 + extra) == None
  {
    PendingWhileScriptLasts(c, c.pendingPolls);
    var last := Some(c.(pendingPolls := 0));
    assert AfterPoll(last) == None;
    EmptySlotStaysEmpty(extra);
    assert AfterPolls(Some(c), c.pendingPolls + 1 + extra) == AfterPolls(AfterPolls(Some(c), c.pendingPolls + 1), extra) by {
      AfterPollsSplit(Some(c), c.pendingPolls + 1, extra);
    }
    assert AfterPolls(Some(c), c.pendingPolls + 1) == AfterPolls(last, 1) by {
      AfterPollsSplit(Some(c), c.pendingPolls, 1);
    }
  }

  lemma {:induction false} AfterPollsSplit(slot: Option<Computation>, m: nat, n: nat)
    ensures AfterPolls(slot, m + n) == AfterPolls(AfterPolls(slot, m), n)
    decreases m
  {
    if m > 0 {
      AfterPollsSplit(AfterPoll(slot), m - 1, n);
    }
  }

  lemma {:induction false} EmptySlotStaysEmpty(n: nat)
    ensures AfterPolls(None, n) == None
    decreases n
  {
    if n > 0 {
      EmptySlotStaysEmpty(n - 1);
    }
  }

  /** `AsyncTask`: `future` is the slot behind the task's mutex; it is empty
      once the computation has finished. */
  datatype AsyncTask = AsyncTask(
    id: TaskId,
    name: string,
    future: Option<Computation>,
    senderHandle: SyncChannel<TaskId>)

  /** Every task that is still referenced, by id. */
  class Arena {
    var tasks: map<TaskId, AsyncTask>

    ghost predicate Valid()
      reads this
    {
      forall id :: id in tasks ==> tasks[id].id == id
    }

    /** Every id in the arena was issued before `bound`. */
    ghost predicate IdsBelow(bound: nat)
      reads this
    {
      forall id :: id in tasks ==> id < bound
    }

    constructor ()
      ensures Valid() && tasks == map[]
    {
      tasks := map[];
    }
  }

  /** `ArcWake::wake_by_ref`: the task puts its own id back at the tail of
      the ready queue it was spawned on. The task itself, and so its waker,
      is left as it was and can be woken again. A failed send is fatal in the
      source (`expect`), so a connected receiver is required; a full queue
      would block, so room is required too. */
  method WakeByRef(task: AsyncTask)
    requires task.senderHandle.Valid()
    requires task.senderHandle.receiverAlive
    requires |task.senderHandle.queue| < task.senderHandle.capacity
    modifies task.senderHandle
    ensures task.senderHandle.Valid()
    ensures task.senderHandle.State() == SendStep(old(task.senderHandle.State()), task.id).0
    ensures task.senderHandle.queue == old(task.senderHandle.queue) + [task.id]
  {
    var sent := task.senderHandle.Send(task.id);
    assert sent == Sent;
  }
}
