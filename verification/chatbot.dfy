/** The first `src` chatbot: a chain built once at startup and a
    non-streaming handler that refuses to run without it. */
module Chatbot {
  import opened Strings
  import opened Values
  import opened Provider

  const ModelName := "gemini-2.5-pro-preview-05-06"
  const NotInitialized := "Chatbot is not initialized. Please ensure your GOOGLE_API_KEY is set and check console logs for errors."
  const InvalidKeyReply := "Sorry, there's an issue with the API key. Please ensure it's correct and valid."
  const GenericPrefix := "Sorry, I encountered an error: "

  /** Startup: no construction without a truthy key, and a failed
      construction is swallowed. The module's key global is the argument,
      as the startup block arranges. */
  function InitializeChat(key: Value, build: Build): (chain: Option<Chain>)
    ensures chain.Some? <==> Truthy(key) && build.Built?
    ensures chain.Some? ==> chain.value == Chain(ModelName)
  {
    if !Truthy(key) then None
    else
      match build
      case Built => Some(Chain(ModelName))
      case BuildFailed(_) => None
  }

  /** The text returned for a failed prediction. */
  function ClassifyError(error: string): (reply: string)
    ensures Contains(error, "API key not valid") ==> reply == InvalidKeyReply
    ensures !Contains(error, "API key not valid") ==> GenericPrefix <= reply && reply[|GenericPrefix|..] == error
  {
    if Contains(error, "API key not valid") then InvalidKeyReply
    else GenericPrefix + error
  }

  /** Two failed predictions that are not key errors read differently
      whenever their error texts differ. */
  lemma ClassifyErrorKeepsDetail(e1: string, e2: string)
    requires !Contains(e1, "API key not valid") && !Contains(e2, "API key not valid")
    requires ClassifyError(e1) == ClassifyError(e2)
    ensures e1 == e2
  {
    assert e1 == ClassifyError(e1)[|GenericPrefix|..];
  }

  /** The chat handler. `prediction` is the outcome `apredict` would have
      on the message. */
  function ChatFn(chain: Option<Chain>, message: string, prediction: Prediction): (r: Exchange)
    ensures chain.None? ==> r == Exchange([], Failed(NotInitialized))
    ensures chain.Some? ==> r.requests == [message] && r.reply.Replied?
    ensures chain.Some? && prediction.Answer? ==> r.reply.text == prediction.text
    ensures chain.Some? && prediction.PredictFailed? ==> r.reply.text == ClassifyError(prediction.reason)
  {
    if chain.None? then Exchange([], Failed(NotInitialized))
    else
      match prediction
      case Answer(text) => Exchange([message], Replied(text))
      case PredictFailed(reason) => Exchange([message], Replied(ClassifyError(reason)))
  }

  /** The startup block stores what `InitializeChat` returns; the first
      chat then fails, asking nothing, exactly when startup built no chain. */
  lemma StartupThenChat(key: Value, build: Build, message: string, prediction: Prediction)
    ensures var r := ChatFn(InitializeChat(key, build), message, prediction);
            && (r.reply.Failed? <==> !(Truthy(key) && build.Built?))
            && (r.reply.Failed? ==> r.requests == [] && r.reply.error == NotInitialized)
            && (r.reply.Replied? ==> r.requests == [message])
  {
  }
}
