/** The TUI loop: it waits for an event, turns it into an action, lets the
    chat view react to it, then executes every queued action before waiting
    again; it leaves the loop once an action has asked it to stop. */
module TuiApp {
  import opened Wrappers
  import opened Uuids
  import opened Events
  import opened Actions
  import opened Messages
  import opened ChatView

  datatype TuiStatus = Running | Stopped | ShouldStop

  /** The action the loop itself sends for an event, if any. Only a press of
      Esc stops the loop, and only `TerminalManagerInitialized` starts it. */
  function EventAction(e: Event): (r: Option<Action>)
    ensures r == Some(Action.Start) <==> e == Event.TerminalManagerInitialized
    ensures r == Some(Action.Stop) <==> e == Event.Key(KeyEvent(Press, Esc))
    ensures r == Some(Action.Tick) <==> e == Event.Tick
    ensures r == Some(Action.Render) <==> e == Event.Render
    ensures (r.Some? && r.value.Error?) <==> e.Error?
    ensures e.Error? ==> r == Some(Action.Error(e.error))
    ensures (r.Some? && r.value.HandleOutgoing?) <==> e.CapturedInput?
    ensures e.CapturedInput? ==> r == Some(Action.HandleOutgoing(e.text))
    ensures r == None <==> e.Shutdown? || (e.Key? && e.key != KeyEvent(Press, Esc))
  {
    match e
    case TerminalManagerInitialized => Some(Action.Start)
    case Error(message) => Some(Action.Error(message))
    case Tick => Some(Action.Tick)
    case Render => Some(Action.Render)
    case Key(k) => if k.kind == Press && k.code == Esc then Some(Action.Stop) else None
    case CapturedInput(text) => Some(Action.HandleOutgoing(text))
    case Shutdown => None
  }

  /** What executing one action does to the status: Start runs, Stop asks to
      stop, everything else leaves it. */
  function ApplyAction(status: TuiStatus, a: Action): (r: TuiStatus)
    ensures a.Start? ==> r == Running
    ensures a.Stop? ==> r == ShouldStop
    ensures !a.Start? && !a.Stop? ==> r == status
  {
    match a
    case Start => Running
    case Stop => ShouldStop
    case _ => status
  }

  /** The status after executing `actions` in order: the old one, or one a
      Start or Stop sets; never Stopped unless it already was. */
  function StatusAfter(status: TuiStatus, actions: seq<Action>): (r: TuiStatus)
    ensures r == status || r == Running || r == ShouldStop
    decreases |actions|
  {
    if actions == [] then status
    else ApplyAction(StatusAfter(status, actions[..|actions| - 1]), actions[|actions| - 1])
  }

  /** The status only becomes Running through a Start and ShouldStop through
      a Stop. */
  lemma {:induction false} StatusChangeNeedsControl(status: TuiStatus, actions: seq<Action>)
    ensures StatusAfter(status, actions) == Running && status != Running ==>
      exists i :: 0 <= i < |actions| && actions[i].Start?
    ensures StatusAfter(status, actions) == ShouldStop && status != ShouldStop ==>
      exists i :: 0 <= i < |actions| && actions[i].Stop?
    decreases |actions|
  {
    if actions != [] {
      var init := actions[..|actions| - 1];
      StatusChangeNeedsControl(status, init);
      assert forall i :: 0 <= i < |init| ==> init[i] == actions[i];
    }
  }

  /** The last Start or Stop among `actions`, if any. */
  function LastControl(actions: seq<Action>): (r: Option<Action>)
    ensures r.Some? ==> r.value.Start? || r.value.Stop?
    ensures r.None? <==> forall i :: 0 <= i < |actions| ==> !actions[i].Start? && !actions[i].Stop?
    ensures r.Some? ==>
              exists i :: 0 <= i < |actions| && actions[i] == r.value &&
                          forall j :: i < j < |actions| ==> !actions[j].Start? && !actions[j].Stop?
    decreases |actions|
  {
    if actions == [] then None
    else
      var init := actions[..|actions| - 1];
      var a := actions[|actions| - 1];
      assert forall i :: 0 <= i < |init| ==> init[i] == actions[i];
      if a.Start? || a.Stop? then Some(a) else LastControl(init)
  }

  /** Whatever came before, the status after a run of actions is decided by
      its last Start or Stop; without one it is unchanged. */
  lemma {:induction false} LastControlDecides(status: TuiStatus, actions: seq<Action>)
    ensures LastControl(actions).None? ==> StatusAfter(status, actions) == status
    ensures LastControl(actions).Some? ==>
      StatusAfter(status, actions) == ApplyAction(status, LastControl(actions).value)
    decreases |actions|
  {
    if actions != [] {
      LastControlDecides(status, actions[..|actions| - 1]);
    }
  }

  /** Actions other than Start and Stop appended to a run change nothing. */
  lemma {:induction false} StatusIgnoresOtherActions(status: TuiStatus, actions: seq<Action>, more: seq<Action>)
    requires forall i :: 0 <= i < |more| ==> !more[i].Start? && !more[i].Stop?
    ensures StatusAfter(status, actions + more) == StatusAfter(status, actions)
    decreases |more|
  {
    if more == [] {
      assert actions + more == actions;
    } else {
      var init := more[..|more| - 1];
      assert (actions + more)[..|actions + more| - 1] == actions + init;
      assert (actions + more)[|actions + more| - 1] == more[|more| - 1];
      StatusIgnoresOtherActions(status, actions, init);
    }
  }

  /** The message log without uuids: sender and text of each message. */
  function Log(ms: seq<Message>): (log: seq<(Sender, string)>)
    ensures |log| == |ms|
    decreases |ms|
  {
    if ms == [] then [] else Log(ms[..|ms| - 1]) + [(ms[|ms| - 1].sender, ms[|ms| - 1].message)]
  }

  /** Entry `i` of the log is message `i`'s sender and text. */
  lemma {:induction false} LogAt(ms: seq<Message>, i: nat)
    requires i < |ms|
    ensures Log(ms)[i] == (ms[i].sender, ms[i].message)
    decreases |ms|
  {
    if i < |ms| - 1 {
      LogAt(ms[..|ms| - 1], i);
    }
  }

  /** The messages that executing `actions` adds to the chat: one from the
      user per `HandleOutgoing`, in order. */
  function OutgoingLog(actions: seq<Action>): (log: seq<(Sender, string)>)
    ensures |log| <= |actions|
    decreases |actions|
  {
    if actions == [] then []
    else
      var a := actions[|actions| - 1];
      OutgoingLog(actions[..|actions| - 1]) + (if a.HandleOutgoing? then [(Outgoing, a.text)] else [])
  }

  /** Executing one more action: the status and the added messages extend
      by that action's share. */
  lemma RunOneMore(status: TuiStatus, done: seq<Action>, a: Action)
    ensures StatusAfter(status, done + [a]) == ApplyAction(StatusAfter(status, done), a)
    ensures OutgoingLog(done + [a]) == OutgoingLog(done) + OutgoingLog([a])
  {
    assert (done + [a])[..|done|] == done;
    assert [a][..0] == [];
  }

  /** The drain loop's step, on values: one more executed action extends
      the status fold and the log of added messages. */
  lemma DrainOneMore(status: TuiStatus, log0: seq<(Sender, string)>, done: seq<Action>, a: Action,
                     before: seq<(Sender, string)>, after: seq<(Sender, string)>)
    requires before == log0 + OutgoingLog(done)
    requires after == before + OutgoingLog([a])
    ensures after == log0 + OutgoingLog(done + [a])
    ensures StatusAfter(status, done + [a]) == ApplyAction(StatusAfter(status, done), a)
  {
    RunOneMore(status, done, a);
    assert (log0 + OutgoingLog(done)) + OutgoingLog([a]) == log0 + (OutgoingLog(done) + OutgoingLog([a]));
  }

  /** Every message executing actions adds is the user's own. */
  lemma {:induction false} OutgoingLogIsOwn(actions: seq<Action>, i: nat)
    requires i < |OutgoingLog(actions)|
    ensures OutgoingLog(actions)[i].0 == Outgoing
    decreases |actions|
  {
    var init := actions[..|actions| - 1];
    if i < |OutgoingLog(init)| {
      OutgoingLogIsOwn(init, i);
    }
  }

  /** The status after an event has been handled (`None`: the event channel
      is closed and there was no event). */
  function StatusAfterEvent(status: TuiStatus, event: Option<Event>): (r: TuiStatus)
    ensures r == status || r == Running || r == ShouldStop
  {
    match event
    case None => status
    case Some(e) => StatusAfter(status, EventAction(e).ToSeq())
  }

  /** The status after handling a run of events. */
  function StatusAfterEvents(status: TuiStatus, events: seq<Option<Event>>): (r: TuiStatus)
    ensures r == status || r == Running || r == ShouldStop
    decreases |events|
  {
    if events == [] then status
    else StatusAfterEvent(StatusAfterEvents(status, events[..|events| - 1]), events[|events| - 1])
  }

  /** No pass before the `n`-th left the status at ShouldStop. */
  predicate QuietBefore(status: TuiStatus, events: seq<Option<Event>>, n: nat)
    requires n <= |events|
  {
    n <= 1 || (QuietBefore(status, events, n - 1) && StatusAfterEvents(status, events[..n - 1]) != ShouldStop)
  }

  lemma {:induction false} QuietBeforeMeans(status: TuiStatus, events: seq<Option<Event>>, n: nat)
    requires n <= |events| && QuietBefore(status, events, n)
    ensures forall j :: 0 < j < n ==> StatusAfterEvents(status, events[..j]) != ShouldStop
  {
    if n > 1 {
      QuietBeforeMeans(status, events, n - 1);
    }
  }

  /** What one pass of the loop does to the chat: the new input line and the
      messages recorded (sender and text). The loop's own action for the
      event and then the chat's answer to it are executed; without an event
      nothing happens. */
  function PassEffect(buffer: string, event: Option<Event>): (r: (string, seq<(Sender, string)>))
    ensures |r.1| <= 1
    ensures event.None? ==> r == (buffer, [])
    ensures !(event.Some? && (event.value.Key? || event.value.CapturedInput?)) ==> r == (buffer, [])
  {
    if event.None? then (buffer, [])
    else
      var answer := OnEvent(buffer, event.value);
      (answer.buffer, OutgoingLog(EventAction(event.value).ToSeq() + answer.action.ToSeq()))
  }

  /** What a run of events does to the chat: `PassEffect` of each event in
      turn, the recorded messages concatenated. */
  function EventsEffect(buffer: string, events: seq<Option<Event>>): (r: (string, seq<(Sender, string)>))
    ensures |r.1| <= |events|
    ensures events == [] ==> r == (buffer, [])
    decreases |events|
  {
    if events == [] then (buffer, [])
    else
      var before := EventsEffect(buffer, events[..|events| - 1]);
      var pass := PassEffect(before.0, events[|events| - 1]);
      (pass.0, before.1 + pass.1)
  }

  /** Only an Esc press or `TerminalManagerInitialized` moves the status, to
      ShouldStop or Running respectively. */
  lemma EventMovesStatus(status: TuiStatus, event: Option<Event>)
    ensures event == Some(Event.Key(KeyEvent(Press, Esc))) ==> StatusAfterEvent(status, event) == ShouldStop
    ensures event == Some(Event.TerminalManagerInitialized) ==> StatusAfterEvent(status, event) == Running
    ensures event != Some(Event.Key(KeyEvent(Press, Esc))) && event != Some(Event.TerminalManagerInitialized) ==>
      StatusAfterEvent(status, event) == status
  {
    if event.Some? {
      var r := EventAction(event.value);
      if r.Some? {
        var acts := [r.value];
        assert EventAction(event.value).ToSeq() == acts;
        assert acts[..0] == [];
        assert StatusAfter(status, acts) == ApplyAction(status, r.value);
      }
    }
  }

  /** After the first `k` events of a run: the status, the input line and
      the recorded messages are those the events give, and no earlier pass
      stopped the loop. */
  ghost predicate RunSoFar(status0: TuiStatus, buffer0: string, events: seq<Option<Event>>, k: nat,
                           status: TuiStatus, buffer: string, logged: seq<(Sender, string)>)
  {
    k <= |events| && status == StatusAfterEvents(status0, events[..k]) &&
    (buffer, logged) == EventsEffect(buffer0, events[..k]) && QuietBefore(status0, events, k)
  }

  /** Handling one more event of a run extends each of them by that event's
      pass. */
  lemma RunStep(status0: TuiStatus, buffer0: string, events: seq<Option<Event>>, k: nat,
                status: TuiStatus, buffer: string, logged: seq<(Sender, string)>)
    requires k < |events| && RunSoFar(status0, buffer0, events, k, status, buffer, logged)
    requires k == 0 || status != ShouldStop
    ensures var pass := PassEffect(buffer, events[k]);
            RunSoFar(status0, buffer0, events, k + 1, StatusAfterEvent(status, events[k]), pass.0, logged + pass.1)
  {
    assert events[..k + 1][..k] == events[..k];
  }

  /** The log of a run grows by what the next pass adds. */
  lemma LogStep(log0: seq<(Sender, string)>, done: seq<(Sender, string)>, added: seq<(Sender, string)>,
                before: seq<(Sender, string)>, after: seq<(Sender, string)>)
    requires before == log0 + done && after == before + added
    ensures after == log0 + (done + added)
  {
  }

  class Tui {
    var status: TuiStatus
    /** The action channel: actions sent and not yet executed. */
    var actions: seq<Action>
    /** Whether `true` has been sent on the shutdown watch channel. */
    var shutdownSent: bool
    /** The one view. */
    const chat: Chat

    /** `Tui::new`: stopped, nothing queued, a new chat. */
    constructor ()
      ensures status == Stopped && actions == [] && !shutdownSent
      ensures fresh(chat) && chat.messages == [] && chat.inputBuffer == []
    {
      status := Stopped;
      actions := [];
      shutdownSent := false;
      chat := new Chat();
    }

    /** `handle_component_events`: the chat sees the event; the action it
        hands back, if any, is queued. */
    method HandleComponentEvents(event: Event)
      modifies this, chat
      ensures actions == old(actions) + OnEvent(old(chat.inputBuffer), event).action.ToSeq()
      ensures chat.inputBuffer == OnEvent(old(chat.inputBuffer), event).buffer
      ensures chat.messages == old(chat.messages)
      ensures status == old(status) && shutdownSent == old(shutdownSent)
    {
      var sideEffect := chat.HandleEvents(event);
      actions := actions + sideEffect.ToSeq();
    }

    /** `update_components`: the chat sees the action; the action it hands
        back, if any, is queued (the chat hands back none). */
    method UpdateComponents(action: Action, uuids: Generator)
      modifies this, chat, uuids
      ensures actions == old(actions)
      ensures chat.inputBuffer == old(chat.inputBuffer)
      ensures Log(chat.messages) == Log(old(chat.messages)) + OutgoingLog([action])
      ensures old(chat.messages) <= chat.messages
      ensures status == old(status) && shutdownSent == old(shutdownSent)
    {
      var sideEffect := chat.Update(action, uuids);
      actions := actions + sideEffect.ToSeq();
      assert [action][..0] == [];
      if action.HandleOutgoing? {
        assert chat.messages[..|chat.messages| - 1] == old(chat.messages);
      }
      assert chat.messages[..|old(chat.messages)|] == old(chat.messages);
    }

    /** The inner loop of `run`: receive and execute actions until none is
        left. Start and Stop set the status; every action is shown to the
        chat. Since the chat queues nothing while updating, exactly the
        actions queued beforehand are executed, in order. */
    method DrainActions(uuids: Generator)
      modifies this, chat, uuids
      ensures actions == []
      ensures status == StatusAfter(old(status), old(actions))
      ensures chat.inputBuffer == old(chat.inputBuffer)
      ensures Log(chat.messages) == Log(old(chat.messages)) + OutgoingLog(old(actions))
      ensures old(chat.messages) <= chat.messages
      ensures shutdownSent == old(shutdownSent)
    {
      ghost var done: seq<Action> := [];
      ghost var status0, log0 := status, Log(chat.messages);
      ghost var actions0, messages0, buffer0 := actions, chat.messages, chat.inputBuffer;
      while actions != []
        invariant actions0 == done + actions
        invariant status == StatusAfter(status0, done)
        invariant chat.inputBuffer == buffer0
        invariant Log(chat.messages) == log0 + OutgoingLog(done)
        invariant messages0 <= chat.messages
        invariant shutdownSent == old(shutdownSent)
        decreases |actions|
      {
        var action := actions[0];
        ghost var before, statusBefore := chat.messages, status;
        assert actions == [action] + actions[1..];
        assert done + actions == (done + [action]) + actions[1..];
        actions := actions[1..];
        if action.Start? {
          status := Running;
        } else if action.Stop? {
          status := ShouldStop;
        }
        assert status == ApplyAction(statusBefore, action);
        UpdateComponents(action, uuids);
        DrainOneMore(status0, log0, done, action, Log(before), Log(chat.messages));
        done := done + [action];
      }
      assert done + actions == done;
    }

    /** One pass of the outer loop of `run`: the event (if the channel gave
        one) is mapped to the loop's own action and shown to the chat, whose
        answer is queued after it; then all queued actions are executed. The
        loop is to stop exactly when the status is then ShouldStop. */
    method Iterate(event: Option<Event>, uuids: Generator) returns (exit: bool)
      requires actions == []
      modifies this, chat, uuids
      ensures actions == [] && shutdownSent == old(shutdownSent)
      ensures status == StatusAfterEvent(old(status), event)
      ensures exit <==> status == ShouldStop
      ensures event.None? ==> chat.inputBuffer == old(chat.inputBuffer) && chat.messages == old(chat.messages)
      ensures chat.inputBuffer == PassEffect(old(chat.inputBuffer), event).0
      ensures Log(chat.messages) == Log(old(chat.messages)) + PassEffect(old(chat.inputBuffer), event).1
      ensures old(chat.messages) <= chat.messages
    {
      if event.Some? {
        ghost var own := EventAction(event.value).ToSeq();
        ghost var answer := OnEvent(chat.inputBuffer, event.value);
        ghost var status0 := status;
        actions := actions + EventAction(event.value).ToSeq();
        assert actions == own;
        HandleComponentEvents(event.value);
        assert actions == own + answer.action.ToSeq();
        StatusIgnoresOtherActions(status0, own, answer.action.ToSeq());
        DrainActions(uuids);
        assert status == StatusAfter(status0, own);
      } else {
        DrainActions(uuids);
      }
      exit := status == ShouldStop;
    }

    /** `run`, on a finite run of events (each `None` is a closed event
        channel): handle events one by one until a pass leaves the status at
        ShouldStop, then `stop`. It stops after the first event that brings
        the status to ShouldStop and at no earlier one; if none does, every
        event is handled and the loop is still waiting for more. */
    method Run(events: seq<Option<Event>>, uuids: Generator) returns (handled: nat, stopped: bool)
      requires actions == []
      modifies this, chat, uuids
      ensures handled <= |events|
      ensures forall j :: 0 < j < handled ==> StatusAfterEvents(old(status), events[..j]) != ShouldStop
      ensures stopped ==>
        handled > 0 && StatusAfterEvents(old(status), events[..handled]) == ShouldStop &&
        status == Stopped && shutdownSent
      ensures !stopped ==>
        handled == |events| && status == StatusAfterEvents(old(status), events) &&
        (handled > 0 ==> status != ShouldStop) && shutdownSent == old(shutdownSent)
      ensures actions == []
      ensures chat.inputBuffer == EventsEffect(old(chat.inputBuffer), events[..handled]).0
      ensures Log(chat.messages) == Log(old(chat.messages)) + EventsEffect(old(chat.inputBuffer), events[..handled]).1
      ensures old(chat.messages) <= chat.messages
    {
      handled, stopped := 0, false;
      ghost var status0, buffer0, log0, messages0 := status, chat.inputBuffer, Log(chat.messages), chat.messages;
      ghost var buffer, logged := buffer0, [];
      while !stopped && handled < |events|
        invariant handled <= |events| && actions == [] && shutdownSent == old(shutdownSent)
        invariant RunSoFar(status0, buffer0, events, handled, status, buffer, logged)
        invariant stopped <==> handled > 0 && status == ShouldStop
        invariant chat.inputBuffer == buffer && Log(chat.messages) == log0 + logged
        invariant messages0 <= chat.messages
        decreases |events| - handled
      {
        ghost var before := Log(chat.messages);
        ghost var pass := PassEffect(buffer, events[handled]);
        RunStep(status0, buffer0, events, handled, status, buffer, logged);
        stopped := Iterate(events[handled], uuids);
        LogStep(log0, logged, pass.1, before, Log(chat.messages));
        buffer, logged := pass.0, logged + pass.1;
        handled := handled + 1;
      }
      QuietBeforeMeans(status0, events, handled);
      if stopped {
        Stop();
      } else {
        assert events[..handled] == events;
      }
    }

    /** `stop`: signal shutdown and become Stopped. */
    method Stop()
      modifies this
      ensures status == Stopped && shutdownSent
      ensures actions == old(actions)
    {
      shutdownSent := true;
      status := Stopped;
    }
  }
}
