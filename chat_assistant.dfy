/** The floating chat assistant: the conversation it keeps, the blank-input
    guard, and the keyword-priority choice of the canned reply. */
module ChatAssistant {
  import opened Text

  datatype Sender = User | Bot

  /** A chat message; the id is the clock reading when it was sent. */
  datatype Message = Message(id: int, sender: Sender, text: string)

  const GREETING: string := "Hello! I'm your JivIT Assistant. How can I help you today?"
  const INITIAL_MESSAGE: Message := Message(1, Bot, GREETING)

  /** The canned replies. */
  datatype Topic = ServicesTopic | CareersTopic | StudentsTopic | ContactTopic | DefaultTopic

  function Response(t: Topic): string
  {
    match t
    case ServicesTopic => "We provide premium IT solutions including Web Development, App Design, and Digital Transformation. Would you like to see our full list of services?"
    case CareersTopic => "Looking for your next big move? We're always hiring talented individuals. Check out our careers page for open positions!"
    case StudentsTopic => "Are you a student? We have amazing internship programs and resources tailored for you. Visit our Students section to learn more."
    case ContactTopic => "Need to talk? You can reach us via the contact form on our website or visit us at our office. How else can I assist?"
    case DefaultTopic => "That's interesting! I'm still learning, but I can certainly help you navigate the site or answer questions about JivIT Solutions. Try one of the quick actions below!"
  }

  /** The reply topic for a message: the first keyword group that occurs in
      the lower-cased text wins. */
  function ReplyTopic(text: string): Topic
  {
    var t := Lower(text);
    if Contains(t, "service") then ServicesTopic
    else if Contains(t, "job") || Contains(t, "career") || Contains(t, "work") then CareersTopic
    else if Contains(t, "student") || Contains(t, "intern") then StudentsTopic
    else if Contains(t, "contact") || Contains(t, "reach") || Contains(t, "email") then ContactTopic
    else DefaultTopic
  }

  /** The labels of the quick-action buttons, which are sent as messages. */
  const QUICK_ACTION_LABELS: seq<string> := ["Our Services", "Careers", "For Students", "Contact Us"]

  /** The `let responseText` chain of the reply timer. */
  method ChooseResponse(text: string) returns (responseText: string)
    ensures responseText == Response(ReplyTopic(text))
  {
    var lowerText := Lower(text);
    var topic := DefaultTopic;
    if Contains(lowerText, "service") {
      topic := ServicesTopic;
    } else if Contains(lowerText, "job") || Contains(lowerText, "career") || Contains(lowerText, "work") {
      topic := CareersTopic;
    } else if Contains(lowerText, "student") || Contains(lowerText, "intern") {
      topic := StudentsTopic;
    } else if Contains(lowerText, "contact") || Contains(lowerText, "reach") || Contains(lowerText, "email") {
      topic := ContactTopic;
    }
    responseText := Response(topic);
  }

  class Assistant {
    var messages: seq<Message>
    var inputValue: string
    var isTyping: bool

    constructor ()
      ensures messages == [INITIAL_MESSAGE] && inputValue == "" && !isTyping
    {
      messages := [INITIAL_MESSAGE];
      inputValue := "";
      isTyping := false;
    }

    /** `handleSend` at clock `now`: blank text changes nothing; otherwise
        the text is appended verbatim as a user message, the input is
        cleared and the assistant starts typing. */
    method Send(text: string, now: int)
      modifies this
      ensures IsBlank(text) ==>
        messages == old(messages) && inputValue == old(inputValue) && isTyping == old(isTyping)
      ensures !IsBlank(text) ==>
        messages == old(messages) + [Message(now, User, text)] && inputValue == "" && isTyping
    {
      if Trim(text) == "" {
        return;
      }
      messages := messages + [Message(now, User, text)];
      inputValue := "";
      isTyping := true;
    }

    /** The delayed reply to `text`, delivered at clock `now`: one bot
        message with the reply for the text's topic; typing stops. */
    method DeliverReply(text: string, now: int)
      modifies this
      ensures messages == old(messages) + [Message(now + 1, Bot, Response(ReplyTopic(text)))]
      ensures !isTyping && inputValue == old(inputValue)
    {
      var responseText := ChooseResponse(text);
      messages := messages + [Message(now + 1, Bot, responseText)];
      isTyping := false;
    }

    /** `handleQuickAction`: sends the button's label. */
    method QuickAction(caption: string, now: int)
      modifies this
      ensures !IsBlank(caption) ==>
        messages == old(messages) + [Message(now, User, caption)] && inputValue == "" && isTyping
      ensures IsBlank(caption) ==>
        messages == old(messages) && inputValue == old(inputValue) && isTyping == old(isTyping)
    {
      Send(caption, now);
    }
  }

  // ---- Properties ----

  /** The reply does not depend on the case of the text. */
  lemma ReplyIgnoresCase(text: string)
    ensures ReplyTopic(Upper(text)) == ReplyTopic(text)
    ensures ReplyTopic(Lower(text)) == ReplyTopic(text)
  {
    LowerOfUpper(text);
    LowerIdempotent(text);
  }

  /** The services group has priority over all others: any text that
      mentions a service gets the services reply. */
  lemma ServicesFirst(a: string, b: string)
    ensures ReplyTopic(a + "service" + b) == ServicesTopic
  {
    assert Lower(a + "service" + b) == Lower(a) + "service" + Lower(b);
    ContainsInfix(Lower(a), "service", Lower(b));
  }

  /** For example, `'student services'` gets the services reply. */
  lemma StudentServicesExample()
    ensures ReplyTopic("student services") == ServicesTopic
  {
    ServicesFirst("student ", "s");
    assert "student " + "service" + "s" == "student services";
  }

  /** Each quick action gets its own reply: `Our Services` the services
      reply, `Careers` the careers reply, `For Students` the students reply
      and `Contact Us` the contact reply. */
  lemma QuickActionReplies()
    ensures ReplyTopic(QUICK_ACTION_LABELS[0]) == ServicesTopic
    ensures ReplyTopic(QUICK_ACTION_LABELS[1]) == CareersTopic
    ensures ReplyTopic(QUICK_ACTION_LABELS[2]) == StudentsTopic
    ensures ReplyTopic(QUICK_ACTION_LABELS[3]) == ContactTopic
  {
    ServicesReply();
    CareersReply();
    StudentsReply();
    ContactReply();
  }

  lemma ServicesReply()
    ensures ReplyTopic("Our Services") == ServicesTopic
  {
    assert Lower("Our Services") == "our " + "service" + "s";
    ContainsInfix("our ", "service", "s");
  }

  lemma CareersReply()
    ensures ReplyTopic("Careers") == CareersTopic
  {
    var careers := Lower("Careers");
    assert careers == "" + "career" + "s";
    MissingCharNotContained(careers, "service", 3);
    ContainsInfix("", "career", "s");
  }

  lemma StudentsReply()
    ensures ReplyTopic("For Students") == StudentsTopic
  {
    assert Lower("For Students") == "for students" == "for " + "student" + "s";
    StudentsMissesEarlierGroups();
    ContainsInfix("for ", "student", "s");
  }

  lemma StudentsMissesEarlierGroups()
    ensures var t := "for students";
      !Contains(t, "service") && !Contains(t, "job") && !Contains(t, "career") && !Contains(t, "work")
  {
    var t := "for students";
    MissingCharNotContained(t, "service", 3);
    MissingCharNotContained(t, "job", 0);
    MissingCharNotContained(t, "career", 1);
    MissingCharNotContained(t, "work", 0);
  }

  lemma ContactReply()
    ensures ReplyTopic("Contact Us") == ContactTopic
  {
    assert Lower("Contact Us") == "contact us" == "" + "contact" + " us";
    ContactMissesEarlierGroups();
    ContactMissesStudents();
    ContainsInfix("", "contact", " us");
  }

  lemma ContactMissesEarlierGroups()
    ensures var t := "contact us";
      !Contains(t, "service") && !Contains(t, "job") && !Contains(t, "career") && !Contains(t, "work")
  {
    var t := "contact us";
    MissingCharNotContained(t, "service", 3);
    MissingCharNotContained(t, "job", 0);
    MissingCharNotContained(t, "career", 2);
    MissingCharNotContained(t, "work", 0);
  }

  lemma ContactMissesStudents()
    ensures var t := "contact us";
      !Contains(t, "student") && !Contains(t, "intern")
  {
    var t := "contact us";
    MissingCharNotContained(t, "student", 4);
    MissingCharNotContained(t, "intern", 0);
  }

  /** Text with none of the keywords gets the default reply. */
  lemma DefaultReply(text: string)
    requires var t := Lower(text);
      !Contains(t, "service") && !Contains(t, "job") && !Contains(t, "career") && !Contains(t, "work")
      && !Contains(t, "student") && !Contains(t, "intern")
      && !Contains(t, "contact") && !Contains(t, "reach") && !Contains(t, "email")
    ensures ReplyTopic(text) == DefaultTopic
  {
  }
}
