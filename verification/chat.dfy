/** The chat view: the message log and the line being typed. */
module ChatView {
  import opened Wrappers
  import opened Uuids
  import opened Events
  import opened Actions
  import opened Messages

  /** The input line after a key, and the action the key asks for. */
  datatype KeyOutcome = KeyOutcome(buffer: string, action: Option<Action>)

  /** What a key does to the input line (`handle_key_events`): on a press,
      a character is appended, Backspace removes the last character (if any)
      and Enter hands the whole line out as `HandleOutgoing` and clears it;
      anything else, and any key that is not a press, changes nothing. Only
      Enter yields an action. */
  function EditInput(buffer: string, key: KeyEvent): (r: KeyOutcome)
    ensures r.action.Some? <==> key == KeyEvent(Press, Enter)
    ensures r.action.Some? ==> r.action.value == Action.HandleOutgoing(buffer) && r.buffer == []
    ensures key.kind == Press && key.code.Char? ==> r.buffer == buffer + [key.code.c]
    ensures key == KeyEvent(Press, Backspace) ==>
      r.buffer == if buffer == [] then [] else buffer[..|buffer| - 1]
    ensures key.kind != Press || key.code.Esc? || key.code.Other? ==> r.buffer == buffer
  {
    if key.kind != Press then KeyOutcome(buffer, None)
    else
      match key.code
      case Backspace => KeyOutcome(if buffer == [] then [] else buffer[..|buffer| - 1], None)
      case Enter => KeyOutcome([], Some(Action.HandleOutgoing(buffer)))
      case Char(c) => KeyOutcome(buffer + [c], None)
      case _ => KeyOutcome(buffer, None)
  }

  /** What an event does to the input line (`handle_events`): key events go
      to `EditInput`, all other events change nothing and yield nothing. */
  function OnEvent(buffer: string, e: Event): (r: KeyOutcome)
    ensures r.action.Some? <==> e == Event.Key(KeyEvent(Press, Enter))
    ensures r.action.Some? ==> r.action.value == Action.HandleOutgoing(buffer) && r.buffer == []
    ensures !e.Key? ==> r == KeyOutcome(buffer, None)
  {
    if e.Key? then EditInput(buffer, e.key) else KeyOutcome(buffer, None)
  }

  /** The presses that type `s`. */
  function Typing(s: string): (keys: seq<KeyEvent>)
    ensures |keys| == |s|
    ensures forall i :: 0 <= i < |s| ==> keys[i] == KeyEvent(Press, Char(s[i]))
  {
    seq(|s|, i requires 0 <= i < |s| => KeyEvent(Press, Char(s[i])))
  }

  /** A run of keys: the final input line and the actions, in order. */
  function Replay(buffer: string, keys: seq<KeyEvent>): (r: (string, seq<Action>))
    ensures |r.1| <= |keys|
    decreases |keys|
  {
    if keys == [] then (buffer, [])
    else
      var first := EditInput(buffer, keys[0]);
      var (last, acts) := Replay(first.buffer, keys[1..]);
      (last, first.action.ToSeq() + acts)
  }

  /** Typing a string appends it to the line and asks for nothing. */
  lemma {:induction false} TypingAppends(buffer: string, s: string, rest: seq<KeyEvent>)
    ensures Replay(buffer, Typing(s) + rest) == Replay(buffer + s, rest)
    decreases |s|
  {
    var keys := Typing(s) + rest;
    if s == [] {
      assert keys == rest && buffer + s == buffer;
    } else {
      assert keys[0] == KeyEvent(Press, Char(s[0]));
      assert keys[1..] == Typing(s[1..]) + rest;
      TypingAppends(buffer + [s[0]], s[1..], rest);
      assert buffer + [s[0]] + s[1..] == buffer + s;
      var tail := Replay(buffer + [s[0]], keys[1..]);
      assert EditInput(buffer, keys[0]) == KeyOutcome(buffer + [s[0]], None);
      assert Replay(buffer, keys) == (tail.0, [] + tail.1);
      assert [] + tail.1 == tail.1;
    }
  }

  /** Typing a line into an empty input and pressing Enter hands out exactly
      that line, once, and leaves the input empty. */
  lemma TypeThenEnter(s: string)
    ensures Replay([], Typing(s) + [KeyEvent(Press, Enter)]) == ([], [Action.HandleOutgoing(s)])
  {
    TypingAppends([], s, [KeyEvent(Press, Enter)]);
    assert [] + s == s;
    var enter := [KeyEvent(Press, Enter)];
    assert enter[1..] == [];
    assert EditInput(s, enter[0]) == KeyOutcome([], Some(Action.HandleOutgoing(s)));
    assert Replay([], enter[1..]) == ([], []);
    assert Replay(s, enter) == ([], [Action.HandleOutgoing(s)] + []);
    assert Replay([], Typing(s) + enter) == Replay([] + s, enter);
    assert Replay([] + s, enter) == Replay(s, enter);
    assert [Action.HandleOutgoing(s)] + [] == [Action.HandleOutgoing(s)];
  }

  /** Backspace undoes a typed character. */
  lemma BackspaceUndoesChar(buffer: string, c: char)
    ensures EditInput(EditInput(buffer, KeyEvent(Press, Char(c))).buffer, KeyEvent(Press, Backspace)).buffer == buffer
  {
    assert (buffer + [c])[..|buffer|] == buffer;
  }

  class Chat {
    var messages: seq<Message>
    var inputBuffer: string

    /** `Chat::new`: no messages, empty input. */
    constructor ()
      ensures messages == [] && inputBuffer == []
    {
      messages := [];
      inputBuffer := [];
    }

    /** `handle_new_message`: append to the log. */
    method HandleNewMessage(message: Message) returns (r: Option<Action>)
      modifies this
      ensures messages == old(messages) + [message]
      ensures inputBuffer == old(inputBuffer) && r == None
    {
      messages := messages + [message];
      r := None;
    }

    /** `handle_key_events`. */
    method HandleKeyEvents(key: KeyEvent) returns (r: Option<Action>)
      modifies this
      ensures KeyOutcome(inputBuffer, r) == EditInput(old(inputBuffer), key)
      ensures messages == old(messages)
    {
      r := None;
      if key.kind == Press {
        match key.code
        case Backspace =>
          if inputBuffer != [] {
            inputBuffer := inputBuffer[..|inputBuffer| - 1];
          }
        case Enter =>
          var line := inputBuffer;
          inputBuffer := [];
          return Some(Action.HandleOutgoing(line));
        case Char(c) =>
          inputBuffer := inputBuffer + [c];
        case _ =>
      }
    }

    /** `handle_events`: only key events reach the chat. */
    method HandleEvents(event: Event) returns (r: Option<Action>)
      modifies this
      ensures KeyOutcome(inputBuffer, r) == OnEvent(old(inputBuffer), event)
      ensures !event.Key? ==> r == None && inputBuffer == old(inputBuffer)
      ensures messages == old(messages)
    {
      match event
      case Key(key) =>
        r := HandleKeyEvents(key);
      case _ =>
        r := None;
    }

    /** `update`: `HandleOutgoing(s)` adds one message from the user with
        text `s` and a new UUID at the end of the log; every other action
        leaves the log alone. It never hands an action back. */
    method Update(action: Action, uuids: Generator) returns (r: Option<Action>)
      modifies this, uuids
      ensures r == None && inputBuffer == old(inputBuffer)
      ensures action.HandleOutgoing? ==>
        messages == old(messages) + [Message(old(uuids.next), action.text, Outgoing)] &&
        uuids.next == old(uuids.next) + 1
      ensures !action.HandleOutgoing? ==> messages == old(messages) && uuids.next == old(uuids.next)
    {
      match action
      case HandleOutgoing(text) =>
        var message := New(text, Outgoing, uuids);
        r := HandleNewMessage(message);
        r := None;
      case _ =>
        r := None;
    }
  }
}
