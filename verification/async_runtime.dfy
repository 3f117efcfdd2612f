/** The executor: a runtime that owns one worker and one spawner. The worker
    is a thread that repeatedly takes the next task id off the ready queue and
    polls that task's future once.

    Threads are abstracted away: one pass of the worker's loop is one atomic
    step. `WorkerStep` says what a pass does to the state the worker sees;
    `Worker.Step` is the pass itself, proved to agree with it. */
module AsyncRuntime {
  import opened Wrappers
  import opened Channels
  import opened Tasks
  import opened Spawning

  /** Capacity of the ready queue. */
  const MAX_QUEUED_TASKS: nat := 10_000

  datatype RuntimeStatus = Stopped | Running

  datatype WorkerStatus = Stopped | Running | Stopping

  /** Position of a status in the worker's life: Running, then Stopping,
      then Stopped. */
  function Rank(s: WorkerStatus): nat
  {
    match s
    case Running => 0
    case Stopping => 1
    case Stopped => 2
  }

  /** What a pass of the worker's loop reads and writes: the shared status
      flag, whether the thread has left its loop, the ready queue, and the
      tasks. */
  datatype WorkerState = WorkerState(
    status: WorkerStatus,
    exited: bool,
    channel: ChannelState<TaskId>,
    tasks: map<TaskId, AsyncTask>)
  {
    /** The queue respects its bound, holds only ids of existing tasks (in
        the source it holds the tasks themselves), and is gone once the
        thread has exited. */
    predicate WellFormed() {
      && channel.Bounded()
      && (forall id :: id in channel.queue ==> id in tasks)
      && (exited ==> channel.queue == [] && !channel.receiverAlive)
    }
  }

  /** The task a pass of the loop will poll, if any. */
  function Polled(s: WorkerState): set<TaskId>
  {
    if !s.exited && s.status == WorkerStatus.Running && s.channel.queue != [] then {s.channel.queue[0]} else {}
  }

  /** One pass of the worker's loop:
      - Stopped: leave the loop; the thread ends and drops the receiver;
      - Stopping: become Stopped;
      - Running: try to take the head of the queue; if there is one, take the
        future out of its slot, poll it once, and put it back if it is still
        pending; an empty or disconnected queue changes nothing.
      A thread that has exited does nothing more. */
  function WorkerStep(s: WorkerState): (r: WorkerState)
    requires s.WellFormed()
    ensures r.WellFormed()
    // the status only moves forward, and never back to Running
    ensures Rank(r.status) >= Rank(s.status)
    ensures r.status == WorkerStatus.Running ==> s.status == WorkerStatus.Running
    // after the thread has exited nothing is polled or changed
    ensures s.exited ==> r == s
    ensures !s.exited && s.status == WorkerStatus.Stopping ==>
      r == s.(status := WorkerStatus.Stopped)
    ensures !s.exited && s.status == WorkerStatus.Stopped ==>
      r.exited && r.status == s.status && r.tasks == s.tasks && r.channel == DropReceiverStep(s.channel)
    // a Running pass removes exactly the head of the queue, if any
    ensures !s.exited && s.status == WorkerStatus.Running ==>
      r.status == WorkerStatus.Running && !r.exited &&
      r.channel == s.channel.(queue := if s.channel.queue == [] then [] else s.channel.queue[1..])
    // an empty (or disconnected) queue: nothing changes
    ensures s.status == WorkerStatus.Running && s.channel.queue == [] ==> r == s
    // only the head task is touched, and only its slot: polled at most once
    ensures r.tasks.Keys == s.tasks.Keys
    ensures forall id :: id in s.tasks && id !in Polled(s) ==> r.tasks[id] == s.tasks[id]
    ensures !s.exited && s.status == WorkerStatus.Running && s.channel.queue != [] ==>
      var h := s.channel.queue[0];
      r.tasks[h] == s.tasks[h].(future := AfterPoll(s.tasks[h].future))
  {
    if s.exited then s
    else if s.status == WorkerStatus.Stopped then
      s.(exited := true, channel := DropReceiverStep(s.channel))
    else if s.status == WorkerStatus.Stopping then
      s.(status := WorkerStatus.Stopped)
    else
      var (c, got) := TryRecvStep(s.channel);
      match got
      case Received(id) =>
        var task := s.tasks[id];
        s.(channel := c, tasks := s.tasks[id := task.(future := AfterPoll(task.future))])
      case Empty => s
      case Disconnected => s
  }

  /** `n` passes of the loop. */
  function Steps(s: WorkerState, n: nat): (r: WorkerState)
    requires s.WellFormed()
    ensures r.WellFormed() && r.tasks.Keys == s.tasks.Keys
    decreases n
  {
    if n == 0 then s else Steps(WorkerStep(s), n - 1)
  }

  /** A pass treats a disconnected queue like an empty one: whether any
      sender is left changes nothing about what the pass does. */
  lemma SendersDoNotMatter(s: WorkerState, alive: bool)
    requires s.WellFormed()
    ensures s.(channel := s.channel.(sendersAlive := alive)).WellFormed()
    ensures var r := WorkerStep(s);
            WorkerStep(s.(channel := s.channel.(sendersAlive := alive))) == r.(channel := r.channel.(sendersAlive := alive))
  {
  }

  /** What `AsyncRuntime::stop` does to the worker: set the status flag to
      Stopping, whatever it was. */
  function StopWorker(s: WorkerState): (r: WorkerState)
    ensures r.status == WorkerStatus.Stopping && r.exited == s.exited
    ensures r.channel == s.channel && r.tasks == s.tasks
  {
    s.(status := WorkerStatus.Stopping)
  }

  /** A task wakes itself while its queue is this worker's queue. */
  function WakeTask(s: WorkerState, id: TaskId): (r: WorkerState)
    requires s.WellFormed() && id in s.tasks
    requires s.channel.receiverAlive && |s.channel.queue| < s.channel.capacity
    ensures r.WellFormed()
    ensures r == s.(channel := s.channel.(queue := s.channel.queue + [id]))
  {
    s.(channel := SendStep(s.channel, id).0)
  }

  /** Waking is not deduplicated: two wakes before the next poll put the id
      on the queue twice. */
  lemma WakeTwiceQueuesTwice(s: WorkerState, id: TaskId)
    requires s.WellFormed() && id in s.tasks
    requires s.channel.receiverAlive && |s.channel.queue| + 2 <= s.channel.capacity
    ensures WakeTask(WakeTask(s, id), id).channel.queue == s.channel.queue + [id, id]
  {
  }

  /** After `stop`, the worker leaves its loop within two passes, without
      polling anything on the way: the tasks are as they were, and tasks
      still queued are dropped unpolled. */
  lemma {:induction false} StopExitsWithinTwoPasses(s: WorkerState)
    requires s.WellFormed()
    ensures Steps(StopWorker(s), 2).exited
    ensures Steps(StopWorker(s), 2).tasks == s.tasks
    ensures Steps(StopWorker(s), 2).channel.queue == []
    ensures !Steps(StopWorker(s), 2).channel.receiverAlive
  {
    var s0 := StopWorker(s);
    var s1 := WorkerStep(s0);
    assert Steps(s0, 2) == Steps(s1, 1) == WorkerStep(s1);
  }

  /** Once the thread has exited, no number of further passes changes
      anything. */
  lemma {:induction false} ExitedIsFinal(s: WorkerState, n: nat)
    requires s.WellFormed() && s.exited
    ensures Steps(s, n) == s
    decreases n
  {
    if n > 0 {
      ExitedIsFinal(WorkerStep(s), n - 1);
    }
  }

  /** No number of passes brings the status back to Running. */
  lemma {:induction false} StatusNeverReturnsToRunning(s: WorkerState, n: nat)
    requires s.WellFormed()
    ensures Rank(Steps(s, n).status) >= Rank(s.status)
    ensures Steps(s, n).status == WorkerStatus.Running ==> s.status == WorkerStatus.Running
    decreases n
  {
    if n > 0 {
      StatusNeverReturnsToRunning(WorkerStep(s), n - 1);
    }
  }

  /** A slot that one poll empties. */
  predicate FinishesOnNextPoll(slot: Option<Computation>) {
    slot.None? || slot.value.pendingPolls == 0
  }

  /** A running worker whose queued tasks all finish on their first poll
      drains the queue in as many passes as it has entries: the queue ends
      empty, every queued task's slot ends empty, and no other task is
      touched. */
  lemma {:induction false} DrainImmediate(s: WorkerState)
    requires s.WellFormed() && s.status == WorkerStatus.Running && !s.exited
    requires forall id :: id in s.channel.queue ==> FinishesOnNextPoll(s.tasks[id].future)
    ensures Steps(s, |s.channel.queue|).channel.queue == []
    ensures Steps(s, |s.channel.queue|).status == WorkerStatus.Running
    ensures forall id :: id in s.channel.queue ==> Steps(s, |s.channel.queue|).tasks[id].future == None
    ensures forall id :: id in s.tasks && id !in s.channel.queue ==>
      Steps(s, |s.channel.queue|).tasks[id] == s.tasks[id]
    decreases |s.channel.queue|
  {
    if s.channel.queue != [] {
      var h := s.channel.queue[0];
      var s1 := WorkerStep(s);
      assert s1.tasks[h].future == None;
      assert forall id :: id in s1.channel.queue ==> id in s.channel.queue;
      DrainImmediate(s1);
      var r := Steps(s1, |s1.channel.queue|);
      assert r == Steps(s, |s.channel.queue|);
      forall id | id in s.channel.queue
        ensures r.tasks[id].future == None
      {
        if id !in s1.channel.queue {
          assert id == h;
        }
      }
    }
  }

  /** The state in which one task is alone on the queue of a running worker
      that can take it back after a wake. */
  predicate AloneOnQueue(s: WorkerState, id: TaskId) {
    && s.WellFormed() && s.status == WorkerStatus.Running && !s.exited
    && s.channel.queue == [id] && s.channel.receiverAlive && s.channel.capacity >= 1
  }

  /** `rounds` times: a pass of the loop, after which the task wakes itself;
      then one last pass. */
  function PollWakeRounds(s: WorkerState, id: TaskId, rounds: nat): (r: WorkerState)
    requires AloneOnQueue(s, id)
    ensures r.WellFormed()
    decreases rounds
  {
    var polled := WorkerStep(s);
    if rounds == 0 then polled else PollWakeRounds(WakeTask(polled, id), id, rounds - 1)
  }

  /** One pass over a task that is alone on the queue: the queue empties and
      only that task's slot changes, to the outcome of one poll. */
  lemma PollAlone(s: WorkerState, id: TaskId, c: Computation)
    requires AloneOnQueue(s, id) && s.tasks[id].future == Some(c)
    ensures WorkerStep(s) == s.(channel := s.channel.(queue := []),
                                tasks := s.tasks[id := s.tasks[id].(future := AfterPoll(Some(c)))])
  {
    var r := WorkerStep(s);
    var t := s.tasks[id := s.tasks[id].(future := AfterPoll(Some(c)))];
    assert Polled(s) == {id};
    assert r.tasks == t;
  }

  /** The wake round trip: a task whose computation answers Pending k times,
      and which wakes itself after each of them, is polled k + 1 times and
      then finishes: its slot ends empty, the queue ends empty, and nothing
      else about it or any other task has changed. */
  lemma {:induction false} WakeRoundTrip(s: WorkerState, id: TaskId, c: Computation)
    requires AloneOnQueue(s, id) && s.tasks[id].future == Some(c)
    ensures PollWakeRounds(s, id, c.pendingPolls).tasks == s.tasks[id := s.tasks[id].(future := None)]
    ensures PollWakeRounds(s, id, c.pendingPolls).channel.queue == []
    ensures PollWakeRounds(s, id, c.pendingPolls).status == WorkerStatus.Running
    decreases c.pendingPolls
  {
    PollAlone(s, id, c);
    if c.pendingPolls > 0 {
      var next := c.(pendingPolls := c.pendingPolls - 1);
      var woken := WakeTask(WorkerStep(s), id);
      assert woken == s.(tasks := s.tasks[id := s.tasks[id].(future := Some(next))]);
      WakeRoundTrip(woken, id, next);
    }
  }

  /** The worker: its status flag (shared with the runtime behind a mutex)
      and the consumer side of the ready queue, owned by its thread. */
  class Worker {
    var status: WorkerStatus
    /** The thread has left its loop. */
    var exited: bool
    const receiver: SyncChannel<TaskId>

    function State(arena: Arena): WorkerState
      reads this, receiver, arena
    {
      WorkerState(status, exited, receiver.State(), arena.tasks)
    }

    constructor (receiver: SyncChannel<TaskId>)
      ensures status == WorkerStatus.Running && !exited && this.receiver == receiver
    {
      status := WorkerStatus.Running;
      exited := false;
      this.receiver := receiver;
    }

    /** One pass of the loop in the worker thread (`start_thread`). */
    method Step(arena: Arena)
      requires State(arena).WellFormed()
      modifies this, receiver, arena
      ensures State(arena) == WorkerStep(old(State(arena)))
    {
      if exited {
        return;
      }
      if status == WorkerStatus.Stopped {
        exited := true;
        receiver.DropReceiver();
      } else if status == WorkerStatus.Running {
        var got := receiver.TryRecv();
        match got
        case Received(id) =>
          var task := arena.tasks[id];
          var slot := task.future;
          arena.tasks := arena.tasks[id := task.(future := None)];
          if slot.Some? {
            var outcome := Poll(slot.value);
            if outcome.Pending? {
              arena.tasks := arena.tasks[id := task.(future := Some(outcome.next))];
            }
          }
        case Empty =>
        case Disconnected =>
      } else {
        status := WorkerStatus.Stopped;
      }
    }
  }

  const NO_SPAWNER: string := "No spawner!"

  class Runtime {
    var status: RuntimeStatus
    var worker: Option<Worker>
    var spawner: Option<Spawner>

    /** A runtime has a worker exactly when it has a spawner, and the
        spawner feeds the worker's queue. */
    ghost predicate Valid()
      reads this
    {
      && (worker.Some? <==> spawner.Some?)
      && (worker.Some? ==> spawner.value.sender == worker.value.receiver)
    }

    /** `AsyncRuntime::new`: stopped, with neither worker nor spawner. */
    constructor ()
      ensures Valid()
      ensures status == RuntimeStatus.Stopped && worker == None && spawner == None
    {
      status := RuntimeStatus.Stopped;
      worker := None;
      spawner := None;
    }

    /** `start`: a new empty queue of capacity `MAX_QUEUED_TASKS`, a new
        running worker on it and a new spawner named "Runtime" for it.
        Whatever worker and spawner were there before are replaced, without
        being stopped; the runtime's own `status` field is not changed. */
    method Start() returns (r: Result<()>)
      modifies this
      ensures Valid() && r.Ok?
      ensures status == old(status)
      ensures worker.Some? && fresh(worker.value) && fresh(worker.value.receiver)
      ensures worker.value.status == WorkerStatus.Running && !worker.value.exited
      ensures worker.value.receiver.Valid()
      ensures worker.value.receiver.State() == NewChannel(MAX_QUEUED_TASKS)
      ensures spawner.Some? && fresh(spawner.value) && spawner.value.sourceName == "Runtime"
      ensures old(worker).Some? ==> unchanged(old(worker).value)
    {
      r := StartWorkerThread();
    }

    /** `start_worker_thread`. */
    method StartWorkerThread() returns (r: Result<()>)
      modifies this
      ensures Valid() && r.Ok?
      ensures status == old(status)
      ensures worker.Some? && fresh(worker.value) && fresh(worker.value.receiver)
      ensures worker.value.status == WorkerStatus.Running && !worker.value.exited
      ensures worker.value.receiver.Valid()
      ensures worker.value.receiver.State() == NewChannel(MAX_QUEUED_TASKS)
      ensures spawner.Some? && fresh(spawner.value) && spawner.value.sourceName == "Runtime"
      ensures old(worker).Some? ==> unchanged(old(worker).value)
    {
      var channel := new SyncChannel<TaskId>(MAX_QUEUED_TASKS);
      var w := new Worker(channel);
      worker := Some(w);
      var sp := new Spawner("Runtime", channel);
      spawner := Some(sp);
      r := Result.Ok(());
    }

    /** `get_spawner`: fails with "No spawner!" before the first `start`;
        otherwise a handle on the queue the current worker drains. */
    function GetSpawner(): (r: Result<Spawner>)
      requires Valid()
      reads this
      ensures r.Err? <==> worker.None?
      ensures r.Err? ==> r.error == NO_SPAWNER
      ensures r.Ok? ==> worker.Some? && r.value.sender == worker.value.receiver
    {
      match spawner
      case None => Result.Err(NO_SPAWNER)
      case Some(s) => Result.Ok(s)
    }

    /** `stop`: if there is a worker, set its status to Stopping (whatever it
        was); otherwise do nothing. It does not wait for the thread. */
    method Stop()
      modifies if worker.Some? then {worker.value} else {}
      ensures unchanged(this)
      ensures worker.Some? ==> worker.value.status == WorkerStatus.Stopping
      ensures worker.Some? ==> worker.value.exited == old(worker.value.exited)
    {
      if worker.Some? {
        worker.value.status := WorkerStatus.Stopping;
      }
    }
  }
}
