/**
 * The career-advisor service: it sends the conversation so far plus the new
 * user turn to a hosted text-generation model and always answers with some
 * text, except when no API key is configured.
 */
module Advisor {
  import opened Wrappers

  datatype Role = User | Model

  datatype Part = Part(text: string)

  /** One turn of the conversation as the generation API takes it. */
  datatype Content = Content(role: Role, parts: seq<Part>)

  /**
   * What the generation call produced: a response whose `text` may be
   * missing or empty, or a failure of any kind (network, quota, bad request).
   */
  datatype ServiceOutcome = Responded(text: Option<string>) | Failed

  /** How the advisor call ends: it resolves with a text or rejects with an error. */
  datatype Reply = Returned(text: string) | Thrown(error: string)

  const MissingKey := "API Key not found"
  const Rephrase := "I'm sorry, I couldn't process that. Could you try rephrasing?"
  const ConnectionTrouble := "I'm having trouble connecting to my knowledge base. Please try again in a moment."

  /** The key is usable when it is set and not empty (both are falsy otherwise). */
  predicate HasKey(apiKey: Option<string>)
  {
    apiKey.Some? && apiKey.value != ""
  }

  function UserTurn(text: string): Content
  {
    Content(User, [Part(text)])
  }

  /** The contents sent: the whole history, then the new message as a user turn. */
  function RequestContents(userMessage: string, history: seq<Content>): (r: seq<Content>)
    ensures |r| == |history| + 1
    ensures r[..|history|] == history
    ensures r[|history|].role == User && r[|history|].parts == [Part(userMessage)]
  {
    history + [UserTurn(userMessage)]
  }

  /**
   * `getGeminiAdvisorResponse`. The generation call is the parameter
   * `service`, applied to the contents sent.
   */
  function AdvisorResponse(apiKey: Option<string>, userMessage: string, history: seq<Content>,
                           service: seq<Content> -> ServiceOutcome): (r: Reply)
    ensures r.Thrown? <==> !HasKey(apiKey)
    ensures r.Thrown? ==> r.error == MissingKey
    ensures r.Returned? ==> r.text != ""
    ensures r.Returned? ==>
      var outcome := service(RequestContents(userMessage, history));
      || (outcome.Responded? && outcome.text == Some(r.text))
      || (r.text == Rephrase && outcome.Responded? && (outcome.text == None || outcome.text == Some("")))
      || (r.text == ConnectionTrouble && outcome.Failed?)
  {
    if !HasKey(apiKey) then
      Thrown(MissingKey)
    else
      match service(RequestContents(userMessage, history))
      case Failed => Returned(ConnectionTrouble)
      case Responded(text) =>
        if text.Some? && text.value != "" then Returned(text.value) else Returned(Rephrase)
  }

  /** Without a key the service is never consulted: every service gives the same rejection. */
  lemma NoKeyIgnoresService(apiKey: Option<string>, userMessage: string, history: seq<Content>,
                            s1: seq<Content> -> ServiceOutcome, s2: seq<Content> -> ServiceOutcome)
    requires !HasKey(apiKey)
    ensures AdvisorResponse(apiKey, userMessage, history, s1) == AdvisorResponse(apiKey, userMessage, history, s2)
    ensures AdvisorResponse(apiKey, userMessage, history, s1) == Thrown(MissingKey)
  {
  }

  /** A non-empty generated text is passed on unchanged. */
  lemma TextPassedOn(apiKey: Option<string>, userMessage: string, history: seq<Content>,
                     service: seq<Content> -> ServiceOutcome, text: string)
    requires HasKey(apiKey) && text != ""
    requires service(history + [UserTurn(userMessage)]) == Responded(Some(text))
    ensures AdvisorResponse(apiKey, userMessage, history, service) == Returned(text)
  {
  }

  /** A missing or empty generated text becomes the request to rephrase. */
  lemma EmptyTextRephrase(apiKey: Option<string>, userMessage: string, history: seq<Content>,
                          service: seq<Content> -> ServiceOutcome)
    requires HasKey(apiKey)
    requires service(history + [UserTurn(userMessage)]) in {Responded(None), Responded(Some(""))}
    ensures AdvisorResponse(apiKey, userMessage, history, service) == Returned(Rephrase)
  {
  }

  /** A failed call becomes the apology about the connection, never a rejection. */
  lemma FailureApologises(apiKey: Option<string>, userMessage: string, history: seq<Content>,
                          service: seq<Content> -> ServiceOutcome)
    requires HasKey(apiKey)
    requires service(history + [UserTurn(userMessage)]) == Failed
    ensures AdvisorResponse(apiKey, userMessage, history, service) == Returned(ConnectionTrouble)
  {
  }
}
