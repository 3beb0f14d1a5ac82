/**
 * The SmartPath chat widget: a conversation that opens with a greeting, an
 * input box, a loading flag, and a send action that hands the conversation
 * to the advisor and appends its answer.
 */
module Chat {
  import opened Wrappers
  import opened Text
  import opened Advisor

  datatype ChatMessage = ChatMessage(role: Role, content: string, timestamp: int)

  const Greeting := "Welcome to Seyone Academy! I am your SmartPath Career Advisor. "
    + "I can help you find the perfect certification for your goals. "
    + "What is your background in healthcare?"

  const StarterPrompts: seq<string> := [
    "How do I start as a beginner?",
    "What's the difference between CPC and CCS?",
    "Tell me about job placements.",
    "Which course is best for nursing background?"
  ]

  /** A message as the advisor receives it. */
  function ToContent(m: ChatMessage): Content
  {
    Content(m.role, [Part(m.content)])
  }

  function ToHistory(messages: seq<ChatMessage>): (h: seq<Content>)
    ensures |h| == |messages|
    ensures forall i :: 0 <= i < |messages| ==> h[i] == ToContent(messages[i])
  {
    seq(|messages|, i requires 0 <= i < |messages| => ToContent(messages[i]))
  }

  /**
   * The text a send uses: the prompt clicked when it is a non-empty string,
   * the input box otherwise, with surrounding whitespace removed.
   */
  function OutgoingText(custom: Option<string>, input: string): string
  {
    Trim(if custom.Some? && custom.value != "" then custom.value else input)
  }

  /**
   * The text sent has no whitespace at either end, and a send is refused for
   * its text exactly when the chosen text, the clicked prompt or else the
   * input box, is all whitespace.
   */
  lemma OutgoingTextTrimmed(custom: Option<string>, input: string)
    ensures Trimmed(OutgoingText(custom, input))
    ensures var chosen := if custom.Some? && custom.value != "" then custom.value else input;
      OutgoingText(custom, input) == [] <==> AllWhitespace(chosen)
  {
  }

  /** What a send hands to the advisor: the new text and the conversation before it. */
  datatype Request = Request(userMessage: string, history: seq<Content>)

  /** The advisor receives exactly the displayed conversation, new user message included. */
  lemma {:induction false} HistoryMatchesDisplay(messages: seq<ChatMessage>, text: string, now: int)
    ensures RequestContents(text, ToHistory(messages)) == ToHistory(messages + [ChatMessage(User, text, now)])
  {
    var lhs := RequestContents(text, ToHistory(messages));
    var rhs := ToHistory(messages + [ChatMessage(User, text, now)]);
    assert |lhs| == |rhs|;
    forall i | 0 <= i < |lhs| ensures lhs[i] == rhs[i] {
      if i < |messages| {
        assert lhs[i] == lhs[..|messages|][i];
      }
    }
  }

  /** The starter prompts are shown while fewer than five messages are displayed and no reply is pending. */
  function PromptsVisible(messageCount: nat, isLoading: bool): bool
  {
    messageCount < 5 && !isLoading
  }

  class ChatWidget {
    var messages: seq<ChatMessage>
    var input: string
    var isLoading: bool
    /** The greeting shown when the widget opens. */
    const opening: ChatMessage

    /**
     * The greeting opens the conversation, every user message is trimmed
     * and non-empty, and while a reply is pending the last message is the
     * user's.
     */
    predicate Valid()
      reads this
    {
      && messages != []
      && messages[0] == opening && opening.role == Model
      && (forall i :: 0 <= i < |messages| && messages[i].role == User ==>
            messages[i].content != [] && Trimmed(messages[i].content))
      && (isLoading ==> messages[|messages| - 1].role == User)
    }

    /** Whether the starter prompts are on screen. */
    predicate PromptsShown()
      reads this
    {
      PromptsVisible(|messages|, isLoading)
    }

    constructor(now: int)
      ensures Valid()
      ensures opening == ChatMessage(Model, Greeting, now)
      ensures messages == [opening] && input == "" && !isLoading
    {
      opening := ChatMessage(Model, Greeting, now);
      messages := [opening];
      input := "";
      isLoading := false;
    }

    /** Typing into the input box. */
    method SetInput(text: string)
      requires Valid()
      modifies this`input
      ensures Valid() && input == text
    {
      input := text;
    }

    /**
     * The synchronous part of `handleSend`: refuse an empty text or a send
     * while a reply is pending; otherwise clear the input, set the loading
     * flag, append the user message and return what the advisor is asked.
     */
    method Begin(custom: Option<string>, now: int) returns (request: Option<Request>)
      requires Valid()
      modifies this
      ensures Valid()
      ensures var text := OutgoingText(custom, old(input));
        if text == [] || old(isLoading) then
          request == None && messages == old(messages) && input == old(input) && isLoading == old(isLoading)
        else
          && request == Some(Request(text, ToHistory(old(messages))))
          && messages == old(messages) + [ChatMessage(User, text, now)]
          && input == "" && isLoading
    {
      var text := OutgoingText(custom, input);
      if text == [] || isLoading {
        return None;
      }
      request := Some(Request(text, ToHistory(messages)));
      input := "";
      isLoading := true;
      messages := messages + [ChatMessage(User, text, now)];
    }

    /**
     * The end of `handleSend`: a resolved reply is appended as a model
     * message, a rejection appends nothing, and loading ends either way.
     */
    method Complete(reply: Reply, now: int)
      requires Valid() && isLoading
      modifies this`messages, this`isLoading
      ensures Valid() && !isLoading
      ensures messages == old(messages) + (if reply.Returned? then [ChatMessage(Model, reply.text, now)] else [])
    {
      if reply.Returned? {
        messages := messages + [ChatMessage(Model, reply.text, now)];
      }
      isLoading := false;
    }

    /**
     * `handleSend` from start to end, with the advisor answering through
     * `service`: the conversation only grows, and a keyed send ends with the
     * user message followed by the advisor's non-empty answer to the
     * conversation as displayed.
     */
    method HandleSend(custom: Option<string>, apiKey: Option<string>, service: seq<Content> -> ServiceOutcome,
                      sentAt: int, answeredAt: int)
      requires Valid()
      modifies this
      ensures Valid()
      ensures old(messages) <= messages
      ensures var text := OutgoingText(custom, old(input));
        if text == [] || old(isLoading) then
          messages == old(messages) && input == old(input) && isLoading == old(isLoading)
        else
          && input == "" && !isLoading
          && |messages| > |old(messages)|
          && messages[|old(messages)|] == ChatMessage(User, text, sentAt)
          && (HasKey(apiKey) ==>
                && |messages| == |old(messages)| + 2
                && messages[|messages| - 1].role == Model
                && messages[|messages| - 1].content != ""
                && Returned(messages[|messages| - 1].content)
                   == AdvisorResponse(apiKey, text, ToHistory(old(messages)), service))
          && (!HasKey(apiKey) ==> |messages| == |old(messages)| + 1)
    {
      var before := messages;
      var text := OutgoingText(custom, input);
      var request := Begin(custom, sentAt);
      if request.Some? {
        var sent := ChatMessage(User, text, sentAt);
        assert messages == before + [sent];
        var reply := AdvisorResponse(apiKey, text, ToHistory(before), service);
        Complete(reply, answeredAt);
        assert messages == before + [sent] + (if reply.Returned? then [ChatMessage(Model, reply.text, answeredAt)] else []);
        assert messages[|before|] == sent;
      }
    }
  }

  /** Each starter prompt is sent exactly as written. */
  lemma StarterPromptsSentVerbatim(i: nat, input: string)
    requires i < |StarterPrompts|
    ensures OutgoingText(Some(StarterPrompts[i]), input) == StarterPrompts[i] != ""
  {
    var p := StarterPrompts[i];
    assert p[0] != ' ' && p[|p| - 1] != ' ';
    TrimNoOp(p);
  }

  /**
   * The starter prompts over a fresh widget: shown at first, still shown after
   * one prompt is sent, and gone after a second one exactly when the advisor
   * is keyed and so has answered both (five messages with the greeting).
   * Without a key only the user messages are added and three stay below five.
   */
  method PromptsAfterTwoSends(apiKey: Option<string>, service: seq<Content> -> ServiceOutcome, now: int)
    returns (atStart: bool, afterOne: bool, afterTwo: bool)
    ensures atStart && afterOne
    ensures afterTwo <==> !HasKey(apiKey)
  {
    var widget := new ChatWidget(now);
    atStart := widget.PromptsShown();
    StarterPromptsSentVerbatim(0, widget.input);
    widget.HandleSend(Some(StarterPrompts[0]), apiKey, service, now, now);
    afterOne := widget.PromptsShown();
    StarterPromptsSentVerbatim(1, widget.input);
    widget.HandleSend(Some(StarterPrompts[1]), apiKey, service, now, now);
    afterTwo := widget.PromptsShown();
  }
}
