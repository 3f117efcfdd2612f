/** `Spawner`: a clonable producer handle on the executor's ready queue,
    labelled with the name of whoever created it. */
module Spawning {
  import opened Wrappers
  import opened Uuids
  import opened Channels
  import opened Tasks

  const SPAWN_ERROR_PREFIX: string := "Error spawning task: "

  /** What `send` reports when the queue's consumer is gone. */
  const SPAWN_ERROR: string := SPAWN_ERROR_PREFIX + SEND_ERROR_DISPLAY

  class Spawner {
    const sourceName: string
    const sender: SyncChannel<TaskId>

    /** `Spawner::new`. */
    constructor (sourceName: string, sender: SyncChannel<TaskId>)
      ensures this.sourceName == sourceName && this.sender == sender
    {
      this.sourceName := sourceName;
      this.sender := sender;
    }

    /** The derived `clone`: a new handle on the same queue. */
    method Clone() returns (s: Spawner)
      ensures fresh(s) && s.sourceName == sourceName && s.sender == sender
    {
      s := new Spawner(sourceName, sender);
    }

    /** `clone_sender`: a producer handle on this spawner's own queue, so a
        task resubmits itself to the queue it was spawned on. */
    function CloneSender(): (handle: SyncChannel<TaskId>)
      ensures handle == sender
    {
      sender
    }

    /** `send`: submit a task id at the tail of the queue. Succeeds exactly
        when the consumer is still there; on failure the queue is untouched
        and the error names the cause. */
    method Send(id: TaskId) returns (r: Result<()>)
      requires sender.Valid() && sender.State().SendWontBlock()
      modifies sender
      ensures sender.Valid() && sender.State() == SendStep(old(sender.State()), id).0
      ensures r.Ok? <==> old(sender.receiverAlive)
      ensures r.Ok? ==> sender.queue == old(sender.queue) + [id]
      ensures r.Err? ==> sender.queue == old(sender.queue) && r.error == SPAWN_ERROR
    {
      var sent := sender.Send(id);
      match sent
      case Sent => r := Result.Ok(());
      case Closed(_) => r := Result.Err(SPAWN_ERROR);
    }

    /** `spawn_non_blocking`: wrap the computation in exactly one new task,
        whose id was never used before, whose name is the spawner's name
        followed by " task", whose slot holds the computation and whose
        producer handle is this spawner's queue; then submit it. The task
        record is created even when the submission fails (it is then
        unreachable: no queue holds its id). */
    method SpawnNonBlocking(future: Computation, arena: Arena, uuids: Generator) returns (r: Result<()>)
      requires arena.Valid() && arena.IdsBelow(uuids.next)
      requires sender.Valid() && sender.State().SendWontBlock()
      modifies arena, sender, uuids
      ensures arena.Valid() && arena.IdsBelow(uuids.next)
      ensures old(uuids.next) !in old(arena.tasks)
      ensures arena.tasks == old(arena.tasks)[old(uuids.next) :=
        AsyncTask(old(uuids.next), sourceName + " task", Some(future), sender)]
      ensures sender.Valid() && sender.State() == SendStep(old(sender.State()), old(uuids.next)).0
      ensures r.Ok? <==> old(sender.receiverAlive)
      ensures r.Err? ==> r.error == SPAWN_ERROR
    {
      var id := uuids.NewV4();
      var task := AsyncTask(id, sourceName + " task", Some(future), CloneSender());
      arena.tasks := arena.tasks[id := task];
      r := Send(id);
    }
  }
}
