/**
 * The live chat widget (src/components/LiveChat.tsx): an open flag, the text being typed and
 * the message log. The socket, the speech greeting and the timers are outside the model; each
 * timer's state update is one atomic operation, and the clock is a parameter.
 */
module LiveChat {
  import opened Wrappers
  import opened Text

  datatype Status = Sent | Delivered | Seen

  datatype ChatMessage = ChatMessage(text: string, sender: string, time: string, status: Status)

  /** The support greeting the log starts with. */
  const Greeting := ChatMessage("Hello! How can we help you today?", "Support Agent", "2:30 PM", Seen)

  const OwnSender := "You"

  /** The log after a message of ours was sent. */
  function AppendOutgoing(log: seq<ChatMessage>, text: string, time: string): seq<ChatMessage> {
    log + [ChatMessage(text, OwnSender, time, Sent)]
  }

  /** The log after a message arrived on the socket. */
  function AppendIncoming(log: seq<ChatMessage>, text: string, sender: string, time: string): seq<ChatMessage> {
    log + [ChatMessage(text, sender, time, Seen)]
  }

  /** The log with the status of its last message replaced; every other message, and the
      rest of the last one, is kept. */
  function SetLastStatus(log: seq<ChatMessage>, status: Status): (r: seq<ChatMessage>)
    ensures |r| == |log|
    ensures forall i :: 0 <= i < |log| - 1 ==> r[i] == log[i]
    ensures |log| > 0 ==> r[|log| - 1] == log[|log| - 1].(status := status)
  {
    if |log| == 0 then [] else log[..|log| - 1] + [log[|log| - 1].(status := status)]
  }

  /** `now` keeps every message of `before`, with the same text, sender and time, and may hold more. */
  ghost predicate Extends(before: seq<ChatMessage>, now: seq<ChatMessage>) {
    |before| <= |now| &&
    forall i :: 0 <= i < |before| ==>
      now[i].text == before[i].text && now[i].sender == before[i].sender && now[i].time == before[i].time
  }

  /** Everything that changes the log. */
  datatype LogEvent =
    | Outgoing(text: string, time: string)
    | Incoming(text: string, sender: string, time: string)
    | MarkLast(status: Status)

  function Step(log: seq<ChatMessage>, e: LogEvent): seq<ChatMessage> {
    match e
    case Outgoing(text, time) => AppendOutgoing(log, text, time)
    case Incoming(text, sender, time) => AppendIncoming(log, text, sender, time)
    case MarkLast(status) => SetLastStatus(log, status)
  }

  /** The log after a run of events, first to last. */
  function Replay(log: seq<ChatMessage>, events: seq<LogEvent>): seq<ChatMessage>
    decreases |events|
  {
    if events == [] then log else Replay(Step(log, events[0]), events[1..])
  }

  /** One operation only ever appends or rewrites the last status. */
  lemma StepExtends(log: seq<ChatMessage>, e: LogEvent)
    ensures Extends(log, Step(log, e))
    ensures |Step(log, e)| == |log| + (if e.MarkLast? then 0 else 1)
  {
  }

  /** Any run of operations keeps every earlier message's text, sender and time: the log only
      grows, and a log that starts with the greeting keeps it first. */
  lemma {:induction false} ReplayExtends(log: seq<ChatMessage>, events: seq<LogEvent>)
    ensures Extends(log, Replay(log, events))
    decreases |events|
  {
    if events != [] {
      var next := Step(log, events[0]);
      StepExtends(log, events[0]);
      ReplayExtends(next, events[1..]);
    }
  }

  /** The widget's state: `socket` stands for `socketRef.current !== null`, which the open
      effect sets and the cleanup clears, so it follows `isOpen`. */
  class ChatWidget {
    var isOpen: bool
    var socket: bool
    var message: string
    var chatMessages: seq<ChatMessage>

    ghost predicate Valid()
      reads this
    {
      socket == isOpen && Extends([Greeting], chatMessages)
    }

    constructor ()
      ensures Valid()
      ensures !isOpen && message == "" && chatMessages == [Greeting]
    {
      isOpen, socket, message, chatMessages := false, false, "", [Greeting];
    }

    /** `toggleChat`, together with the effect that opens or closes the socket. */
    method ToggleChat()
      requires Valid()
      modifies this`isOpen, this`socket
      ensures Valid() && isOpen == !old(isOpen)
    {
      isOpen := !isOpen;
      socket := isOpen;
    }

    /** The input's `onChange`. */
    method SetMessage(text: string)
      requires Valid()
      modifies this`message
      ensures Valid() && message == text
    {
      message := text;
    }

    /** `handleSubmit`: a blank message or a missing socket changes nothing; otherwise our
        message is sent, appended with status sent, and the input is cleared. */
    method HandleSubmit(time: string) returns (sent: Option<ChatMessage>)
      requires Valid()
      modifies this`message, this`chatMessages
      ensures Valid() && Extends(old(chatMessages), chatMessages)
      ensures IsBlank(old(message)) || !socket ==>
        sent == None && message == old(message) && chatMessages == old(chatMessages)
      ensures !IsBlank(old(message)) && socket ==>
        && sent == Some(ChatMessage(old(message), OwnSender, time, Sent))
        && chatMessages == AppendOutgoing(old(chatMessages), old(message), time)
        && message == ""
    {
      if IsBlank(message) || !socket {
        return None;
      }
      var newMessage := ChatMessage(message, OwnSender, time, Sent);
      StepExtends(chatMessages, Outgoing(message, time));
      chatMessages := AppendOutgoing(chatMessages, message, time);
      message := "";
      sent := Some(newMessage);
    }

    /** The delivery and seen timers: rewrite the status of the last message. */
    method MarkLastMessage(status: Status)
      requires Valid()
      modifies this`chatMessages
      ensures Valid() && chatMessages == SetLastStatus(old(chatMessages), status)
      ensures Extends(old(chatMessages), chatMessages)
    {
      StepExtends(chatMessages, MarkLast(status));
      chatMessages := SetLastStatus(chatMessages, status);
    }

    /** The socket's `onmessage`, after the typing indicator: append with status seen. */
    method MessageReceived(text: string, sender: string, time: string)
      requires Valid()
      modifies this`chatMessages
      ensures Valid() && chatMessages == AppendIncoming(old(chatMessages), text, sender, time)
      ensures Extends(old(chatMessages), chatMessages)
    {
      StepExtends(chatMessages, Incoming(text, sender, time));
      chatMessages := AppendIncoming(chatMessages, text, sender, time);
    }
  }
}
