/** Chat messages: who sent them, their text, and the line the chat list
    shows for them; with the ordering Rust derives for them. */
module Messages {
  import opened Uuids

  datatype Sender = Incoming(from: string) | Outgoing | System

  datatype Message = Message(uuid: Uuid, message: string, sender: Sender)

  /** `Display for Sender`: a peer by its name, the user as "You", the
      application as "System". */
  function SenderDisplay(s: Sender): (d: string)
    ensures s.Incoming? ==> d == s.from
    ensures s.Outgoing? ==> d == "You"
    ensures s.System? ==> d == "System"
  {
    match s
    case Incoming(from) => from
    case Outgoing => "You"
    case System => "System"
  }

  /** `Message::to_string`: the sender's name, then "> ", then the text. */
  function ToString(m: Message): (line: string)
    ensures |line| == |SenderDisplay(m.sender)| + 2 + |m.message|
    ensures line[..|SenderDisplay(m.sender)|] == SenderDisplay(m.sender)
    ensures line[|SenderDisplay(m.sender)|..|SenderDisplay(m.sender)| + 2] == "> "
    ensures line[|SenderDisplay(m.sender)| + 2..] == m.message
  {
    SenderDisplay(m.sender) + "> " + m.message
  }

  /** The line shown for each kind of sender. */
  lemma LinePerSender(u: Uuid, text: string, from: string)
    ensures ToString(Message(u, text, Outgoing)) == "You> " + text
    ensures ToString(Message(u, text, System)) == "System> " + text
    ensures ToString(Message(u, text, Incoming(from))) == from + "> " + text
  {
  }

  /** For a given sender the line determines the text. */
  lemma {:induction false} LineDeterminesText(a: Message, b: Message)
    requires a.sender == b.sender && ToString(a) == ToString(b)
    ensures a.message == b.message
  {
    var n := |SenderDisplay(a.sender)| + 2;
    assert a.message == ToString(a)[n..];
    assert b.message == ToString(b)[n..];
  }

  /** Across senders it does not: a peer calling itself "You" produces the
      same line as the user's own message. */
  lemma IncomingCanLookOutgoing(u: Uuid, text: string)
    ensures ToString(Message(u, text, Incoming("You"))) == ToString(Message(u, text, Outgoing))
  {
  }

  /** `Message::new`: the text and sender as given, and a new UUID. */
  method New(message: string, sender: Sender, uuids: Generator) returns (m: Message)
    modifies uuids
    ensures m == Message(old(uuids.next), message, sender)
    ensures uuids.next == old(uuids.next) + 1
  {
    var uuid := uuids.NewV4();
    m := Message(uuid, message, sender);
  }

  // ---- The derived orderings ----

  /** `Ord for String`: lexicographic; a proper prefix comes first. (Rust
      compares the UTF-8 bytes, which orders strings as their code points
      do.) */
  predicate StringLess(a: string, b: string)
    ensures StringLess(a, b) ==> |b| > 0 && a != b
    decreases |a|
  {
    |b| > 0 && (|a| == 0 || a[0] < b[0] || (a[0] == b[0] && StringLess(a[1..], b[1..])))
  }

  lemma {:induction false} StringLessIrreflexive(a: string)
    ensures !StringLess(a, a)
    decreases |a|
  {
    if |a| > 0 {
      StringLessIrreflexive(a[1..]);
    }
  }

  lemma {:induction false} StringLessTransitive(a: string, b: string, c: string)
    requires StringLess(a, b) && StringLess(b, c)
    ensures StringLess(a, c)
    decreases |a|
  {
    if |a| > 0 && a[0] == b[0] && b[0] == c[0] {
      StringLessTransitive(a[1..], b[1..], c[1..]);
    }
  }

  lemma {:induction false} StringLessTotal(a: string, b: string)
    ensures a == b || StringLess(a, b) || StringLess(b, a)
    decreases |a|
  {
    if |a| > 0 && |b| > 0 && a[0] == b[0] {
      StringLessTotal(a[1..], b[1..]);
      if a[1..] == b[1..] {
        assert a == [a[0]] + a[1..] && b == [b[0]] + b[1..];
      }
    }
  }

  /** Position of the variant in the declaration of `Sender`. */
  function SenderIndex(s: Sender): nat
  {
    match s
    case Incoming(_) => 0
    case Outgoing => 1
    case System => 2
  }

  /** The derived `Ord for Sender`: by variant, Incoming < Outgoing < System;
      two `Incoming` compare by their names. */
  predicate SenderLess(a: Sender, b: Sender)
    ensures SenderLess(a, b) ==> SenderIndex(a) <= SenderIndex(b) && a != b
  {
    SenderIndex(a) < SenderIndex(b) ||
    (a.Incoming? && b.Incoming? && StringLess(a.from, b.from))
  }

  /** The derived `Ord for Message`: by uuid, then text, then sender. */
  predicate MessageLess(a: Message, b: Message)
    ensures MessageLess(a, b) ==> a.uuid <= b.uuid && a != b
  {
    a.uuid < b.uuid ||
    (a.uuid == b.uuid && (StringLess(a.message, b.message) ||
                          (a.message == b.message && SenderLess(a.sender, b.sender))))
  }

  /** The sender ordering is a strict total order that ranks the variants
      Incoming < Outgoing < System. */
  lemma SenderOrder(a: Sender, b: Sender, c: Sender)
    ensures !SenderLess(a, a)
    ensures SenderLess(a, b) && SenderLess(b, c) ==> SenderLess(a, c)
    ensures a == b || SenderLess(a, b) || SenderLess(b, a)
    ensures a.Incoming? && !b.Incoming? ==> SenderLess(a, b)
    ensures SenderLess(Outgoing, System)
  {
    if a.Incoming? {
      StringLessIrreflexive(a.from);
      if b.Incoming? {
        StringLessTotal(a.from, b.from);
        if c.Incoming? && SenderLess(a, b) && SenderLess(b, c) {
          StringLessTransitive(a.from, b.from, c.from);
        }
      }
    }
  }

  /** The message ordering is a strict total order. */
  lemma MessageOrder(a: Message, b: Message, c: Message)
    ensures !MessageLess(a, a)
    ensures MessageLess(a, b) && MessageLess(b, c) ==> MessageLess(a, c)
    ensures a == b || MessageLess(a, b) || MessageLess(b, a)
  {
    StringLessIrreflexive(a.message);
    StringLessTotal(a.message, b.message);
    SenderOrder(a.sender, b.sender, c.sender);
    if MessageLess(a, b) && MessageLess(b, c) && a.uuid == b.uuid == c.uuid {
      if StringLess(a.message, b.message) && StringLess(b.message, c.message) {
        StringLessTransitive(a.message, b.message, c.message);
      }
    }
    if StringLess(a.message, b.message) && StringLess(b.message, a.message) {
      StringLessTransitive(a.message, b.message, a.message);
    }
  }
}
