# stegop2p executor and chat view, modelled in Dafny

This project models two parts of the stegop2p chat client.

**The hand-rolled task executor** (`src/async_runtime.rs` and its
`spawner.rs` and `async_task.rs`):

- An `AsyncRuntime` owns at most one worker and the `Spawner` that feeds it.
- Starting the runtime creates a bounded task queue. This is a std
  `sync_channel` holding `MAX_QUEUED_TASKS` = 10 000 entries. Starting also
  creates a worker whose status is Running, and a spawner named "Runtime" that
  holds the queue's sending end.
- Each worker pass does one thing, depending on the worker's status:
  - Running: take at most one task off the queue, take its future out of its
    slot and poll it once. A Pending future goes back into the slot; a Ready
    one is dropped.
  - Stopping: become Stopped.
  - Stopped: leave the loop. Leaving the loop drops the receiving end of the
    queue.
- `stop` moves the worker to Stopping.
- `spawn_non_blocking` wraps a future in an `AsyncTask` with a fresh id and
  the name "<source> task", then sends it into the queue.
- A task's waker (`wake_by_ref`) sends the task itself back into the queue.

**The chat view-model and the TUI dispatcher** (`src/application/tui.rs`,
`tui/components/chat.rs`, `tui/components/message.rs`, plus the `Event` and
`Action` enums):

- The dispatcher maps each incoming event to at most one action:
  - `TerminalManagerInitialized` maps to `Start`;
  - an Esc press maps to `Stop`;
  - `Tick`, `Render` and `Error` map to the action of the same name;
  - captured input maps to `HandleOutgoing`.
- The dispatcher then lets the chat react to the event, and drains the action
  queue. While draining it updates its status and passes each action to the
  chat.
- It stops after the first pass that leaves the status at ShouldStop.
- The chat edits its input buffer on key presses:
  - Backspace drops the last character;
  - a character is appended;
  - Enter empties the buffer and emits `HandleOutgoing` with its text.
- On `HandleOutgoing` the chat records an outgoing message.
- A message is displayed as `"<sender>> <text>"`.

How the model is laid out:

- The std `sync_channel` is modelled in `channels.dfy`:
  - a pure state `ChannelState` with one step function per operation;
  - a class `SyncChannel`, the shared queue object that both the spawner and
    every task's `sender_handle` point at.
- The executor's objects that change state are classes:
  - `Arena` holds the tasks by id;
  - `Worker`, `Spawner` and `Runtime` mirror the Rust structs.
- The TUI's `Chat` and `Tui` are classes whose methods update their fields. The
  TUI's action channel is a sequence field.
- Most mutating methods are tied by their postconditions to a pure function of
  the old state:
  - `WorkerStep` for a worker pass;
  - `SendStep` and `TryRecvStep` for the queue;
  - `EditInput` for a key press;
  - `StatusAfter` and `OutgoingLog` for draining actions;
  - `StatusAfterEvent` and `PassEffect` for one loop pass;
  - `StatusAfterEvents` and `EventsEffect` for a run of events.
- The rest state their new state inline. These are `Runtime.Start`,
  `Runtime.Stop`, `Chat.Update`, `Chat.HandleNewMessage`, `Tui.Stop` and
  `Generator.NewV4`. `Runtime.Stop` makes the same change to the worker as
  `StopWorker`. `WakeByRef` appends to the queue exactly as `WakeTask` does
  to the worker's state.
- The lemmas are about those functions.

Behaviour of the code that a reader may not expect, which the model keeps:

- `start` never sets the runtime's own status to Running. It stays Stopped.
- `SyncSender::send` on a full queue blocks; it does not report an error. The
  model therefore requires the queue not to be full when it is still received
  from.
- A second `start` replaces the worker and the spawner without stopping the
  old worker, which keeps running on its own queue.
- `stop` also resets an already Stopped (but not yet exited) worker to
  Stopping.
- Tasks still queued when the worker exits are dropped without being polled.

## Model

| member | source | states |
|---|---|---|
| Channels.NewChannel | src/async_runtime.rs:59 | a new task queue is empty, has the given capacity, and both its ends are alive |
| Channels.SendStep | src/async_runtime/spawner.rs:33-38 | a send succeeds exactly when the receiver is alive; it then appends the item at the back, and otherwise leaves the queue unchanged and hands the item back; capacity, liveness and the bound are kept |
| Channels.TryRecvStep | src/async_runtime.rs:84-101 | a receive from a non-empty queue returns its head and removes it; on an empty queue it changes nothing and reports Disconnected exactly when every sender is gone, otherwise Empty |
| Channels.DropReceiverStep | src/async_runtime.rs:80-82 | dropping the receiver discards every queued item and marks the queue as no longer received from |
| Channels.SendAllAppends | src/async_runtime/spawner.rs:33-38 | a run of sends appends the items in order while the receiver is alive, and changes nothing once it is gone |
| Channels.SendAll | src/async_runtime/spawner.rs:33-38 | reference composition of `SendStep`. A run of sends keeps the capacity and liveness flags; the queue grows by one per item while the receiver is alive and not at all otherwise |
| Channels.ReceiveInOrder | src/async_runtime.rs:84-94 | n receives return the first n queued items in queue order and leave the rest |
| Channels.ReceiveN | src/async_runtime.rs:84-94 | reference composition of `TryRecvStep`. n receives from a queue holding at least n items return n items and shorten the queue by n, keeping the capacity and liveness flags |
| Channels.Fifo | src/async_runtime.rs:59 | what is sent comes out in the same order, after what was already queued; once a fresh queue holds MAX entries the next send would block |
| Channels.SyncChannel.constructor | src/async_runtime.rs:59 | the shared queue object starts in the `NewChannel` state |
| Channels.SyncChannel.Send | src/async_runtime/spawner.rs:34 | the shared queue's state and the send's result are exactly `SendStep` of the old state |
| Channels.SyncChannel.TryRecv | src/async_runtime.rs:84 | the shared queue's state and the result are exactly `TryRecvStep` of the old state |
| Channels.SyncChannel.DropReceiver | src/async_runtime.rs:80-82 | the shared queue becomes `DropReceiverStep` of its old state |
| Uuids.Generator.NewV4 | src/async_runtime/spawner.rs:24 | each call returns an id never returned before (the counter's old value) |
| Tasks.Poll | src/async_runtime.rs:91 | a computation is Pending exactly while it has polls left, and Pending leaves one poll fewer with the same eventual result |
| Tasks.AfterPoll | src/async_runtime.rs:87-94 | an empty slot stays empty; a Pending future is put back in its advanced state; a Ready future leaves the slot empty |
| Tasks.AfterPolls | src/async_runtime.rs:87-94 | reference composition of `AfterPoll`. An empty slot stays empty; a computation still in the slot after n visits has n pending polls fewer and the same eventual result |
| Tasks.PendingWhileScriptLasts | src/async_runtime.rs:91-93 | while polls are left, each poll puts the advanced future back |
| Tasks.ReadyAfterExactly | src/async_runtime.rs:87-94 | a task finishing after k pending polls still holds its future after k polls, and its slot is empty after any further poll |
| Tasks.AfterPollsSplit | src/async_runtime.rs:87-94 | polling m times then n times is the same as polling m + n times |
| Tasks.EmptySlotStaysEmpty | src/async_runtime.rs:88 | polling a task whose future was already taken never brings one back |
| Tasks.Arena.constructor | src/async_runtime/async_task.rs:10-15 | the task table starts empty and consistent |
| Tasks.WakeByRef | src/async_runtime/async_task.rs:18-25 | waking a task sends that same task back to the back of its queue |
| Spawning.Spawner.constructor | src/async_runtime/spawner.rs:43 | a spawner keeps the source name and the queue handle it was given |
| Spawning.Spawner.Clone | src/async_runtime/spawner.rs:13 | a cloned spawner has the same name and feeds the same queue |
| Spawning.Spawner.CloneSender | src/async_runtime/spawner.rs:40-42 | the handle given out is the spawner's own queue |
| Spawning.Spawner.Send | src/async_runtime/spawner.rs:33-38 | a send is Ok exactly when the worker still receives; Ok appends the id; Err leaves the queue as it was and carries the message "Error spawning task: sending on a closed channel" |
| Spawning.Spawner.SpawnNonBlocking | src/async_runtime/spawner.rs:20-31 | the new task gets an id no other task has, the name "<source> task", the given future and this spawner's queue as its waker channel; it is stored and then sent with `Send`'s outcome and error |
| AsyncRuntime.WorkerStep | src/async_runtime.rs:76-108 | one worker pass keeps the state well-formed. The status only moves from Running toward Stopped and never back. Stopping becomes Stopped. Stopped exits and drops the queue. Running takes the head of the queue and replaces only that task's slot by the result of polling it. An empty queue changes nothing |
| AsyncRuntime.Steps | src/async_runtime.rs:76-109 | any number of passes keeps the state well-formed and the set of tasks |
| AsyncRuntime.SendersDoNotMatter | src/async_runtime.rs:96-100 | a pass does the same whether or not any sender is left: a disconnected queue is handled like an empty one |
| AsyncRuntime.StopWorker | src/async_runtime.rs:120-125 | `stop` sets the worker's status to Stopping and touches nothing else |
| AsyncRuntime.WakeTask | src/async_runtime/async_task.rs:18-25 | waking a known task appends its id to the worker's queue and keeps the state well-formed |
| AsyncRuntime.WakeTwiceQueuesTwice | src/async_runtime/async_task.rs:18-25 | a task woken twice is queued twice |
| AsyncRuntime.StopExitsWithinTwoPasses | src/async_runtime.rs:103-106 | after `stop`, two passes make the worker exit whatever its status was. The queue is then dropped and every task's slot is left as it was |
| AsyncRuntime.ExitedIsFinal | src/async_runtime.rs:80-82 | once the worker has exited no pass changes anything |
| AsyncRuntime.StatusNeverReturnsToRunning | src/async_runtime.rs:79-107 | over any number of passes the status never returns to Running once it has left it |
| AsyncRuntime.DrainImmediate | src/async_runtime.rs:83-95 | when every queued task finishes on its next poll, one pass per queued task empties the queue and completes each of them, and every other task is untouched |
| AsyncRuntime.PollWakeRounds | src/async_runtime/async_task.rs:18-25 | alternating a pass with a wake of the same task keeps the worker state well-formed |
| AsyncRuntime.PollAlone | src/async_runtime.rs:84-94 | a pass over a running worker whose queue holds one task empties the queue and replaces only that task's slot by the outcome of one poll |
| AsyncRuntime.WakeRoundTrip | src/async_runtime.rs:83-95 | a task that wakes itself on each Pending poll completes after as many pass-and-wake rounds as it has pending polls, leaving its slot empty and the queue empty |
| AsyncRuntime.Worker.constructor | src/async_runtime.rs:61-65 | a new worker is Running, has not exited and owns the given queue |
| AsyncRuntime.Worker.Step | src/async_runtime.rs:76-108 | one pass over the shared queue, the task table and the worker's status is exactly `WorkerStep` of the old state |
| AsyncRuntime.Runtime.constructor | src/async_runtime.rs:43-51 | a new runtime is Stopped and has no worker and no spawner |
| AsyncRuntime.Runtime.Start | src/async_runtime.rs:53-56 | `start` succeeds. It installs a fresh Running worker on a fresh empty queue of capacity MAX_QUEUED_TASKS, and a spawner named "Runtime" on that same queue. It leaves the runtime status and any earlier worker as they were |
| AsyncRuntime.Runtime.StartWorkerThread | src/async_runtime.rs:58-71 | as `Start`: fresh queue of MAX_QUEUED_TASKS, Running worker, "Runtime" spawner sharing the queue, status untouched |
| AsyncRuntime.Runtime.GetSpawner | src/async_runtime.rs:113-118 | an error "No spawner!" exactly when the runtime was never started; otherwise a spawner feeding the worker's queue |
| AsyncRuntime.Runtime.Stop | src/async_runtime.rs:120-125 | `stop` sets the current worker (if any) to Stopping and changes nothing else |
| Wrappers.Option.ToSeq | src/application/tui.rs:208-210 | an optional side effect becomes zero or one queued actions |
| Messages.SenderDisplay | src/application/tui/components/message.rs:12-20 | a peer is shown by its name, the user as "You", the application as "System" |
| Messages.ToString | src/application/tui/components/message.rs:36-40 | the display line is the sender's display, then "> ", then the text |
| Messages.LinePerSender | src/application/tui/components/message.rs:12-20 | outgoing lines start "You> ", system lines "System> ", incoming lines start with the peer's name |
| Messages.LineDeterminesText | src/application/tui/components/message.rs:36-40 | for a given sender the displayed line determines the message text |
| Messages.IncomingCanLookOutgoing | src/application/tui/components/message.rs:15-16 | a peer named "You" is displayed exactly like the user's own messages |
| Messages.New | src/application/tui/components/message.rs:30-33 | a new message carries the given text and sender and a fresh uuid |
| Messages.StringLessIrreflexive | src/application/tui/components/message.rs:25 | the lexicographic order on message texts is irreflexive |
| Messages.StringLessTransitive | src/application/tui/components/message.rs:25 | the lexicographic order on message texts is transitive |
| Messages.StringLessTotal | src/application/tui/components/message.rs:25 | any two distinct texts are ordered one way or the other |
| Messages.StringLess | src/application/tui/components/message.rs:25 | the lexicographic order on texts (a proper prefix first) relates only distinct texts, and never puts a text before the empty one |
| Messages.SenderLess | src/application/tui/components/message.rs:5 | the derived sender order never goes against the variant order Incoming, Outgoing, System, and relates only distinct senders |
| Messages.MessageLess | src/application/tui/components/message.rs:22 | the derived message order never goes against the uuid order and relates only distinct messages |
| Messages.SenderOrder | src/application/tui/components/message.rs:5-10 | the derived sender order is a strict total order with every Incoming before Outgoing before System |
| Messages.MessageOrder | src/application/tui/components/message.rs:22-27 | the derived message order (uuid, then text, then sender) is a strict total order |
| ChatView.EditInput | src/application/tui/components/chat.rs:80-99 | only an Enter press emits an action, `HandleOutgoing` with the whole buffer, and it empties the buffer. A character press appends the character. A Backspace press drops the last character, if any. Other keys and non-press events leave the buffer alone |
| ChatView.OnEvent | src/application/tui/components/chat.rs:101-107 | an event yields an action exactly when it is an Enter press, and then it is `HandleOutgoing` of the whole line with the line emptied. Non-key events change nothing |
| ChatView.Typing | src/application/tui/components/chat.rs:91-93 | a typed text is one character press per character, in order |
| ChatView.Replay | src/application/tui/components/chat.rs:80-99 | reference composition of `EditInput` over a run of key presses; at most one action per key |
| ChatView.TypingAppends | src/application/tui/components/chat.rs:91-93 | typing a text appends exactly that text to the buffer and emits nothing |
| ChatView.TypeThenEnter | src/application/tui/components/chat.rs:86-90 | typing a text into an empty buffer and pressing Enter sends exactly that text and leaves the buffer empty |
| ChatView.BackspaceUndoesChar | src/application/tui/components/chat.rs:83-93 | Backspace right after typing a character restores the buffer |
| ChatView.Chat.constructor | src/application/tui/components/chat.rs:17-24 | a new chat has no messages and an empty input buffer |
| ChatView.Chat.HandleNewMessage | src/application/tui/components/chat.rs:60-64 | the message is appended to the list and no action follows |
| ChatView.Chat.HandleKeyEvents | src/application/tui/components/chat.rs:80-99 | the new buffer and the returned action are exactly `EditInput` of the old buffer; the messages do not change |
| ChatView.Chat.HandleEvents | src/application/tui/components/chat.rs:101-107 | key events go to the key handler; every other event changes nothing and returns no action |
| ChatView.Chat.Update | src/application/tui/components/chat.rs:109-117 | `HandleOutgoing` appends one outgoing message with that text and a fresh uuid; other actions change nothing; no action is ever returned |
| TuiApp.EventAction | src/application/tui.rs:94-147 | each event maps to the action the dispatcher queues for it. Each of Start, Stop, Tick, Render, Error and HandleOutgoing comes from exactly one kind of event (Stop only from an Esc press). Shutdown and all other keys queue nothing |
| TuiApp.ApplyAction | src/application/tui.rs:154-165 | Start sets Running, Stop sets ShouldStop, every other action keeps the status |
| TuiApp.StatusAfter | src/application/tui.rs:153-167 | the status after draining a batch is the old one, Running or ShouldStop; never Stopped unless it was already |
| TuiApp.StatusAfterEvent | src/application/tui.rs:92-171 | reference composition for one loop pass. The status is left as it was or becomes Running or ShouldStop |
| TuiApp.StatusAfterEvents | src/application/tui.rs:85-171 | reference composition of `StatusAfterEvent` over a run of events. The status is left as it was or becomes Running or ShouldStop |
| TuiApp.PassEffect | src/application/tui.rs:92-171 | what one loop pass does to the chat. At most one message is recorded: the loop's own action records one only for captured input, and the chat's answer only for an Enter press. With no event, or an event that is neither a key nor captured input, the chat is unchanged |
| TuiApp.EventsEffect | src/application/tui.rs:85-171 | reference composition of `PassEffect` over a run of events. At most one message per event is recorded; no events change nothing |
| TuiApp.RunStep | src/application/tui.rs:85-171 | handling one more event extends the run's status, input line, recorded messages and "no pass stopped yet" fact by that event's pass |
| TuiApp.QuietBeforeMeans | src/application/tui.rs:85-177 | the loop's record that no pass stopped it yet means that no shorter prefix of the run leaves the status at ShouldStop |
| TuiApp.StatusChangeNeedsControl | src/application/tui.rs:155-160 | the status becomes Running only if the batch holds a Start, and ShouldStop only if it holds a Stop |
| TuiApp.LastControl | src/application/tui.rs:153-167 | the last Start or Stop in a batch: none exactly when the batch has neither, otherwise an entry of the batch after which no Start or Stop follows |
| TuiApp.LastControlDecides | src/application/tui.rs:153-167 | after draining a batch the status is decided by its last Start or Stop alone, and is unchanged if it has none |
| TuiApp.StatusIgnoresOtherActions | src/application/tui.rs:156-164 | appending actions other than Start and Stop to a batch does not change the status it leads to |
| TuiApp.Log | src/application/tui/components/chat.rs:12 | the message log without uuids has one entry per message |
| TuiApp.LogAt | src/application/tui/components/chat.rs:12 | entry i of the log without uuids is message i's sender and text |
| TuiApp.OutgoingLog | src/application/tui/components/chat.rs:109-117 | a batch of actions records at most one message per action |
| TuiApp.OutgoingLogIsOwn | src/application/tui/components/chat.rs:111-112 | every message a batch of actions records is an outgoing one |
| TuiApp.RunOneMore | src/application/tui.rs:153-167 | draining one more action extends the status fold and the recorded messages by that action's effect |
| TuiApp.DrainOneMore | src/application/tui.rs:153-167 | executing one more drained action adds that action's outgoing message, if any, to the messages recorded so far, and applies it to the status |
| TuiApp.EventMovesStatus | src/application/tui.rs:94-171 | after one loop pass the status is ShouldStop for an Esc press and Running for `TerminalManagerInitialized`; every other event, or none, leaves it unchanged |
| TuiApp.Tui.constructor | src/application/tui.rs:68-70 | a new dispatcher is Stopped with no queued actions and a fresh, empty chat |
| TuiApp.Tui.HandleComponentEvents | src/application/tui.rs:205-220 | the chat handles the event and its side effect, if any, is queued after the actions already queued |
| TuiApp.Tui.UpdateComponents | src/application/tui.rs:222-237 | the chat handles the action; the messages only grow, by the action's outgoing message if any; nothing is queued |
| TuiApp.Tui.DrainActions | src/application/tui.rs:153-167 | every queued action is executed in order. The status becomes the fold of those actions, the chat records exactly the outgoing texts among them, and the queue ends empty |
| TuiApp.Tui.Iterate | src/application/tui.rs:92-171 | one loop pass queues the event's action, then the chat's answer, then drains. The status is `StatusAfterEvent`, the loop exits exactly when it is ShouldStop, and the chat records the outgoing texts of both actions: the new input line and the recorded messages are `PassEffect` of the old line and the event |
| TuiApp.Tui.Run | src/application/tui.rs:85-177 | events are handled in order until the first one after which the status is ShouldStop, and then the dispatcher stops. No earlier event left it at ShouldStop. If none does, all events are handled and the shutdown signal is left as it was. The action queue ends empty, the message list only grows, and the input line and the recorded messages are `EventsEffect` of the handled events |
| TuiApp.Tui.Stop | src/application/tui.rs:179-183 | `stop` signals shutdown and sets the status to Stopped |

## Left out

- Threads, `Arc`, `Mutex` and `JoinHandle`: the worker loop is one pass per call to `Worker.Step`. Concurrent interleavings with spawners on other threads, and mutex poisoning (`unwrap` on a lock), are not modelled.
- The 500 µs sleep between worker passes and the "Stopping!" console line: timing and I/O.
- Real `Future::poll`, `Context` and `waker_ref`: a future is a `Computation` that answers Pending a fixed number of times and then Ready with its result. A future that wakes itself while being polled is modelled as a separate wake after the pass (`PollWakeRounds`).
- `Uuid::new_v4` randomness: ids come from a counter (`Uuids.Generator`). This makes uniqueness certain where the source relies on it being overwhelmingly likely.
- Reference counting of queue senders: the queue can become disconnected in the source, for instance when a second `start` drops the old spawner and the old queue holds no task. The model never clears `sendersAlive` in a running system. This loses nothing observable, because the worker treats Disconnected exactly like Empty (`SendersDoNotMatter`).
- Channels.SyncChannel.Send: a send into a full, still-received queue blocks in the source. The model requires room instead of modelling the wait, so `Spawner.Send`, `Spawner.SpawnNonBlocking` and `Tasks.WakeByRef` carry that precondition. The `expect("Too many tasks queued!")` panic path of `wake_by_ref` is therefore the disconnected case only, which `WakeByRef` excludes by requiring a live receiver.
- Dropping a finished task: the source frees an `AsyncTask` when its last `Arc` goes away. The model keeps it in the `Arena` with an empty future slot. The same holds for the task of a failed submission: the source drops it at once inside the returned `SendError`, while `Spawning.Spawner.SpawnNonBlocking` leaves it in the `Arena` with its computation still in the slot. No queue holds its id, so no worker pass can reach it.
- The `TaskResult` trait and `AsyncTaskError`: declared but unused by the executor.
- Key modifiers and key state of crossterm's `KeyEvent`, and every key code other than Backspace, Enter, Esc and characters (grouped as `Other`).
- Rendering (`draw`, `render`, the list and input widgets' styling) and the `io::Result` errors that `?` propagates from it: the model's passes cannot fail.
- The terminal manager, the UI module, `application.rs`, `main.rs` and the component registry: outside this model. The chat is the only component, as in `Tui::new`.
- TuiApp.Tui.Run: handles a finite sequence of events; the source loops forever on a closed event channel, and the model stops at the end of the sequence.
- TuiApp.Tui.DrainActions: states the messages a drain records through their sender and text (`Log`). The uuid of each new message is stated by `Chat.Update` only.
- TuiApp.Log: its contract states only the length; the content of each entry is stated by `LogAt`.
- The watch channel that `stop` signals: modelled as the flag `shutdownSent`.
