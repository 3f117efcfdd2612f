/** The bounded channel behind the executor's ready queue:
    `std::sync::mpsc::sync_channel(capacity)`, a FIFO shared by any number of
    producer handles (`SyncSender`) and one consumer (`Receiver`).

    The channel is first described as a value (`ChannelState`) with one
    function per operation; the class `SyncChannel` is the shared object that
    producers and the consumer update in place, and each of its methods is
    proved to do what the corresponding function says. */
module Channels {

  /** What the consumer observes: the whole channel at one instant. */
  datatype ChannelState<T> = ChannelState(
    queue: seq<T>,         // buffered items, oldest first
    capacity: nat,         // the bound given to `sync_channel`
    receiverAlive: bool,   // false once the `Receiver` has been dropped
    sendersAlive: bool)    // false once every `SyncSender` has been dropped
  {
    /** The queue never holds more than `capacity` items. */
    predicate Bounded() {
      |queue| <= capacity
    }

    /** `SyncSender::send` returns at once: either there is room, or the
        receiver is gone and the send fails. Otherwise it would block. */
    predicate SendWontBlock() {
      receiverAlive ==> |queue| < capacity
    }
  }

  /** `Result<(), SendError<T>>`: a rejected item is handed back. */
  datatype SendResult<T> = Sent | Closed(rejected: T)

  /** `Result<T, TryRecvError>`. */
  datatype TryRecvResult<T> = Received(item: T) | Empty | Disconnected

  /** The text that `SendError` displays. */
  const SEND_ERROR_DISPLAY: string := "sending on a closed channel"

  /** A fresh channel: empty, both ends connected. */
  function NewChannel<T>(capacity: nat): (c: ChannelState<T>)
    ensures c.queue == [] && c.capacity == capacity
    ensures c.receiverAlive && c.sendersAlive
  {
    ChannelState([], capacity, true, true)
  }

  /** `SyncSender::send` when it does not block: append at the tail if the
      receiver is still there, otherwise fail and change nothing. */
  function SendStep<T>(c: ChannelState<T>, x: T): (r: (ChannelState<T>, SendResult<T>))
    requires c.SendWontBlock()
    ensures r.1.Sent? <==> c.receiverAlive
    ensures r.1.Sent? ==> r.0.queue == c.queue + [x] && |r.0.queue| == |c.queue| + 1
    ensures r.1.Closed? ==> r.0 == c && r.1.rejected == x
    ensures r.0.capacity == c.capacity && r.0.receiverAlive == c.receiverAlive
    ensures r.0.sendersAlive == c.sendersAlive
    ensures c.Bounded() ==> r.0.Bounded()
  {
    if c.receiverAlive then (c.(queue := c.queue + [x]), Sent) else (c, Closed(x))
  }

  /** `Receiver::try_recv`: take the head if there is one; otherwise report
      `Empty` while some producer is alive and `Disconnected` after. */
  function TryRecvStep<T>(c: ChannelState<T>): (r: (ChannelState<T>, TryRecvResult<T>))
    ensures c.queue != [] ==> r.1 == Received(c.queue[0]) && r.0.queue == c.queue[1..]
    ensures c.queue == [] ==> r.0 == c && !r.1.Received?
    ensures c.queue == [] ==> (r.1.Disconnected? <==> !c.sendersAlive)
    ensures r.0.capacity == c.capacity && r.0.receiverAlive == c.receiverAlive
    ensures r.0.sendersAlive == c.sendersAlive
    ensures c.Bounded() ==> r.0.Bounded()
  {
    if c.queue != [] then (c.(queue := c.queue[1..]), Received(c.queue[0]))
    else if c.sendersAlive then (c, Empty)
    else (c, Disconnected)
  }

  /** Dropping the `Receiver` discards whatever is still buffered, and every
      later send fails. */
  function DropReceiverStep<T>(c: ChannelState<T>): (r: ChannelState<T>)
    ensures r.queue == [] && !r.receiverAlive && r.Bounded()
    ensures r.capacity == c.capacity && r.sendersAlive == c.sendersAlive
  {
    c.(queue := [], receiverAlive := false)
  }

  /** Several sends in a row, none of which blocks. */
  function SendAll<T>(c: ChannelState<T>, xs: seq<T>): (r: ChannelState<T>)
    requires c.receiverAlive ==> |c.queue| + |xs| <= c.capacity
    ensures |r.queue| == |c.queue| + (if c.receiverAlive then |xs| else 0)
    ensures r.capacity == c.capacity && r.receiverAlive == c.receiverAlive && r.sendersAlive == c.sendersAlive
    decreases |xs|
  {
    if xs == [] then c else SendAll(SendStep(c, xs[0]).0, xs[1..])
  }

  /** `n` successful receives in a row: the channel afterwards and the items
      received, in the order received. */
  function ReceiveN<T>(c: ChannelState<T>, n: nat): (r: (ChannelState<T>, seq<T>))
    requires n <= |c.queue|
    ensures |r.1| == n && |r.0.queue| == |c.queue| - n
    ensures r.0.capacity == c.capacity && r.0.receiverAlive == c.receiverAlive && r.0.sendersAlive == c.sendersAlive
    decreases n
  {
    if n == 0 then (c, [])
    else
      var (c1, got) := TryRecvStep(c);
      var (c2, rest) := ReceiveN(c1, n - 1);
      (c2, [got.item] + rest)
  }

  /** Sends append at the tail, in order, and never overflow; when the receiver
      is gone they all fail and the channel is left as it was. */
  lemma {:induction false} SendAllAppends<T>(c: ChannelState<T>, xs: seq<T>)
    requires c.receiverAlive ==> |c.queue| + |xs| <= c.capacity
    ensures c.receiverAlive ==> SendAll(c, xs) == c.(queue := c.queue + xs)
    ensures !c.receiverAlive ==> SendAll(c, xs) == c
    ensures c.Bounded() ==> SendAll(c, xs).Bounded()
    decreases |xs|
  {
    if xs != [] {
      var c1 := SendStep(c, xs[0]).0;
      SendAllAppends(c1, xs[1..]);
      if c.receiverAlive {
        assert c1.queue + xs[1..] == c.queue + xs;
      }
    }
  }

  /** Receives take items from the head, oldest first. */
  lemma {:induction false} ReceiveInOrder<T>(c: ChannelState<T>, n: nat)
    requires n <= |c.queue|
    ensures ReceiveN(c, n).1 == c.queue[..n]
    ensures ReceiveN(c, n).0 == c.(queue := c.queue[n..])
    decreases n
  {
    if n > 0 {
      var c1 := TryRecvStep(c).0;
      ReceiveInOrder(c1, n - 1);
      assert c1.queue[..n - 1] == c.queue[1..n];
      assert c1.queue[n - 1..] == c.queue[n..];
      assert [c.queue[0]] + c.queue[1..n] == c.queue[..n];
    }
  }

  /** First in, first out: starting from a channel with room for `xs`, sending
      `xs` and then receiving everything yields the old contents followed by
      `xs`, and leaves the channel empty. With exactly `capacity` items sent
      into an empty channel every send succeeds and the channel ends full, so
      one more send would block. */
  lemma Fifo<T>(c: ChannelState<T>, xs: seq<T>)
    requires c.receiverAlive && |c.queue| + |xs| <= c.capacity
    ensures |SendAll(c, xs).queue| == |c.queue| + |xs|
    ensures ReceiveN(SendAll(c, xs), |c.queue| + |xs|).1 == c.queue + xs
    ensures ReceiveN(SendAll(c, xs), |c.queue| + |xs|).0.queue == []
    ensures c.queue == [] && |xs| == c.capacity ==> !SendAll(c, xs).SendWontBlock()
  {
    SendAllAppends(c, xs);
    var full := SendAll(c, xs);
    ReceiveInOrder(full, |c.queue| + |xs|);
    assert full.queue[..|c.queue| + |xs|] == c.queue + xs;
  }

  /** The shared channel object. Producers and the consumer hold references
      to the same `SyncChannel`, so every producer handle shares its one
      capacity bound. */
  class SyncChannel<T> {
    const capacity: nat
    var queue: seq<T>
    var receiverAlive: bool
    var sendersAlive: bool

    function State(): ChannelState<T>
      reads this
    {
      ChannelState(queue, capacity, receiverAlive, sendersAlive)
    }

    ghost predicate Valid()
      reads this
    {
      State().Bounded()
    }

    /** `sync_channel(capacity)`. */
    constructor (capacity: nat)
      ensures Valid() && State() == NewChannel(capacity)
    {
      this.capacity := capacity;
      queue := [];
      receiverAlive, sendersAlive := true, true;
    }

    /** `SyncSender::send`. Blocking on a full queue is not modelled: the
        caller must not send into a full channel whose receiver is alive. */
    method Send(x: T) returns (r: SendResult<T>)
      requires Valid() && State().SendWontBlock()
      modifies this
      ensures Valid() && (State(), r) == SendStep(old(State()), x)
    {
      if receiverAlive {
        queue := queue + [x];
        r := Sent;
      } else {
        r := Closed(x);
      }
    }

    /** `Receiver::try_recv`. */
    method TryRecv() returns (r: TryRecvResult<T>)
      requires Valid()
      modifies this
      ensures Valid() && (State(), r) == TryRecvStep(old(State()))
    {
      if queue != [] {
        r := Received(queue[0]);
        queue := queue[1..];
      } else if sendersAlive {
        r := Empty;
      } else {
        r := Disconnected;
      }
    }

    /** The consumer goes away (its thread ended). */
    method DropReceiver()
      modifies this
      ensures Valid() && State() == DropReceiverStep(old(State()))
    {
      queue := [];
      receiverAlive := false;
    }
  }
}
