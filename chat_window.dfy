/** The chat window: the message thread, the input box and the simulated agency
    reply that arrives after a delay. */
module ChatWindow {
  import opened Text

  datatype Sender = FromUser | FromAgency

  datatype Message = Message(id: string, sender: Sender, content: string, timestamp: string)

  /** The thread every window starts with. */
  const InitialMessages: seq<Message> := [
    Message("1", FromAgency, "Hello! Thank you for your interest in our services. How can we help you plan your event?", "10:30 AM"),
    Message("2", FromUser, "Hi! I'm planning a wedding for March 2025. Can you help with venue and catering?", "10:32 AM"),
    Message("3", FromAgency, "Absolutely! We'd love to help. Do you have a specific location in mind?", "10:33 AM")
  ]

  const ReplyText: string := "Thank you for your message! Our team will get back to you shortly with more details."

  lemma InitialThread()
    ensures |InitialMessages| == 3
    ensures InitialMessages[0].sender == FromAgency && InitialMessages[1].sender == FromUser &&
            InitialMessages[2].sender == FromAgency
  {
  }

  class ChatWindowState {
    var messages: seq<Message>
    var inputValue: string
    var isTyping: bool
    /** Reply timers started and not yet fired. */
    var pendingReplies: nat

    constructor ()
      ensures messages == InitialMessages && inputValue == [] && !isTyping && pendingReplies == 0
    {
      messages := InitialMessages;
      inputValue := [];
      isTyping := false;
      pendingReplies := 0;
    }

    /** Typing into the box. */
    method SetInput(v: string)
      modifies this
      ensures inputValue == v && messages == old(messages) && isTyping == old(isTyping)
      ensures pendingReplies == old(pendingReplies)
    {
      inputValue := v;
    }

    /** `handleSend`; `id` and `timestamp` stand for `Date.now()` and the formatted
        time. A blank input sends nothing; otherwise the untrimmed text is appended
        as a user message, the box is cleared and a reply is scheduled. */
    method HandleSend(id: string, timestamp: string)
      modifies this
      ensures AllSpace(old(inputValue)) ==>
        messages == old(messages) && inputValue == old(inputValue) && isTyping == old(isTyping) &&
        pendingReplies == old(pendingReplies)
      ensures !AllSpace(old(inputValue)) ==>
        messages == old(messages) + [Message(id, FromUser, old(inputValue), timestamp)] &&
        inputValue == [] && isTyping && pendingReplies == old(pendingReplies) + 1
    {
      TrimEmptyIff(inputValue);
      if Trim(inputValue) == [] {
        return;
      }
      messages := messages + [Message(id, FromUser, inputValue, timestamp)];
      inputValue := [];
      isTyping := true;
      pendingReplies := pendingReplies + 1;
    }

    /** A reply timer fires: the typing flag goes off and the fixed agency reply is
        appended. */
    method ReplyArrives(id: string, timestamp: string)
      requires pendingReplies > 0
      modifies this
      ensures !isTyping && messages == old(messages) + [Message(id, FromAgency, ReplyText, timestamp)]
      ensures inputValue == old(inputValue) && pendingReplies == old(pendingReplies) - 1
    {
      isTyping := false;
      messages := messages + [Message(id, FromAgency, ReplyText, timestamp)];
      pendingReplies := pendingReplies - 1;
    }
  }

  /** A send followed by its reply adds exactly the user's message and then the
      agency's, keeping the earlier thread. */
  method SendAndReply(w: ChatWindowState, text: string, id1: string, id2: string, t1: string, t2: string)
    requires !AllSpace(text)
    modifies w
    ensures w.messages == old(w.messages) + [Message(id1, FromUser, text, t1), Message(id2, FromAgency, ReplyText, t2)]
    ensures w.inputValue == [] && !w.isTyping && w.pendingReplies == old(w.pendingReplies)
  {
    w.SetInput(text);
    w.HandleSend(id1, t1);
    w.ReplyArrives(id2, t2);
  }
}
