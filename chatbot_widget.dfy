/** The floating assistant: a message log that starts with a greeting and
    only grows, an input box, a typing indicator and the open toggle. The
    reply timer of each send is a pending reply that `Reply` delivers. */
module ChatbotWidget {
  import opened Seqs
  import opened JsString

  /** Who wrote a message. */
  datatype Sender = Bot | User

  /** A message of the log; ids and timestamps are left out. */
  datatype Message = Message(sender: Sender, text: string)

  const Greeting := Message(Bot, "Hello! I'm your KisanAI assistant. How can I help you with your farming today?")
  const Answer := Message(Bot, "Thank you for your question! Based on your farm data, I recommend checking the weather conditions and soil moisture levels. Would you like me to provide specific guidance for your crops?")

  /** The labels of the quick-action buttons. */
  const QuickActions: seq<string> := ["Weather Forecast", "Crop Recommendations", "Pest Control", "Irrigation Tips"]

  /** How many messages of the log `who` wrote. */
  function CountBy(log: seq<Message>, who: Sender): nat
  {
    Count(log, (m: Message) => m.sender == who)
  }

  /** `!inputMessage?.trim()`: the send button is disabled and sending
      does nothing. */
  predicate Blank(input: string)
  {
    Trim(input) == ""
  }

  /** Blank input is exactly input made only of white space. */
  lemma BlankIffWhiteSpace(input: string)
    ensures Blank(input) <==> forall i :: 0 <= i < |input| ==> IsWhiteSpace(input[i])
  {
    TrimEmptyIffBlank(input);
  }

  /** The widget's state. */
  class Chat {
    var isOpen: bool
    var messages: seq<Message>
    var inputMessage: string
    var isTyping: bool
    /** Replies whose timer has not fired yet. */
    var pendingReplies: nat

    /** The log starts with the greeting, and every user message is
        answered once: the bot's messages beyond the greeting and the
        replies still due add up to the user's messages. */
    ghost predicate Valid()
      reads this
    {
      |messages| >= 1 && messages[0] == Greeting &&
      CountBy(messages, Bot) + pendingReplies == 1 + CountBy(messages, User)
    }

    /** The quick actions show only before the first exchange. */
    predicate QuickActionsShown()
      reads this
    {
      |messages| == 1
    }

    /** The send button is disabled. */
    predicate SendDisabled()
      reads this
    {
      Blank(inputMessage)
    }

    /** The closed widget with the greeting alone. */
    constructor ()
      ensures Valid()
      ensures !isOpen && messages == [Greeting] && inputMessage == "" && !isTyping && pendingReplies == 0
      ensures QuickActionsShown() && SendDisabled()
    {
      isOpen := false;
      messages := [Greeting];
      inputMessage := "";
      isTyping := false;
      pendingReplies := 0;
    }

    /** The launcher button. */
    method ToggleOpen()
      modifies this
      ensures isOpen == !old(isOpen)
      ensures messages == old(messages) && inputMessage == old(inputMessage)
      ensures isTyping == old(isTyping) && pendingReplies == old(pendingReplies)
    {
      isOpen := !isOpen;
    }

    /** Typing in the box. */
    method Type(text: string)
      modifies this
      ensures inputMessage == text
      ensures isOpen == old(isOpen) && messages == old(messages)
      ensures isTyping == old(isTyping) && pendingReplies == old(pendingReplies)
    {
      inputMessage := text;
    }

    /** A quick-action button fills the box with its label and sends
        nothing. */
    method QuickAction(i: nat)
      requires i < |QuickActions| && QuickActionsShown()
      modifies this
      ensures inputMessage == QuickActions[i] && !SendDisabled()
      ensures isOpen == old(isOpen) && messages == old(messages)
      ensures isTyping == old(isTyping) && pendingReplies == old(pendingReplies)
    {
      inputMessage := QuickActions[i];
      assert inputMessage[0] != ' ' && !IsWhiteSpace(inputMessage[0]);
      BlankIffWhiteSpace(inputMessage);
    }

    /** `handleSendMessage`, from the button or the Enter key: blank input
        changes nothing; otherwise the input, untrimmed, is logged as the
        user's, the box is cleared, the indicator starts and a reply is
        due. */
    method Send()
      requires Valid()
      modifies this
      ensures Valid()
      ensures old(SendDisabled()) ==>
        messages == old(messages) && inputMessage == old(inputMessage) &&
        isTyping == old(isTyping) && pendingReplies == old(pendingReplies)
      ensures !old(SendDisabled()) ==>
        messages == old(messages) + [Message(User, old(inputMessage))] && inputMessage == "" &&
        isTyping && pendingReplies == old(pendingReplies) + 1
      ensures isOpen == old(isOpen)
      ensures |messages| >= |old(messages)| && messages[..|old(messages)|] == old(messages)
    {
      if Blank(inputMessage) {
        return;
      }
      var m := Message(User, inputMessage);
      CountAppendOne(messages, m, (x: Message) => x.sender == Bot);
      CountAppendOne(messages, m, (x: Message) => x.sender == User);
      messages := messages + [m];
      inputMessage := "";
      isTyping := true;
      pendingReplies := pendingReplies + 1;
    }

    /** A reply timer fires: one bot message is appended and the
        indicator stops. */
    method Reply()
      requires Valid() && pendingReplies > 0
      modifies this
      ensures Valid()
      ensures messages == old(messages) + [Answer] && !isTyping
      ensures pendingReplies == old(pendingReplies) - 1
      ensures isOpen == old(isOpen) && inputMessage == old(inputMessage)
    {
      CountAppendOne(messages, Answer, (x: Message) => x.sender == Bot);
      CountAppendOne(messages, Answer, (x: Message) => x.sender == User);
      messages := messages + [Answer];
      isTyping := false;
      pendingReplies := pendingReplies - 1;
    }
  }

  /** Once nothing is due, the user's messages and the bot's answers are
      equal in number, not counting the greeting. */
  lemma EveryQuestionAnswered(c: Chat)
    requires c.Valid() && c.pendingReplies == 0
    ensures CountBy(c.messages, Bot) == 1 + CountBy(c.messages, User)
  {
  }
}
