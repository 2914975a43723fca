/** The second `src` chatbot: the key is kept in a module global, the
    chain is rebuilt lazily by the handler when missing, and prediction
    errors are sorted into three user-facing texts. The key comes from the
    config file or the environment, so it is a string or absent. */
module Chatbot2 {
  import opened Strings
  import opened Values
  import opened Provider
  import Chatbot

  const ModelName := "gemini-2.5-pro-preview-05-06"
  const KeyNotFound := "GOOGLE_API_KEY not found. Please set it as an environment variable or directly in the script. Get a key from https://aistudio.google.com/app/apikey"
  const BuildFailedPrefix := "Failed to initialize AI model. Please check your GOOGLE_API_KEY and Model Name. Error: "
  const RebuildFailedPrefix := "Re-initialization failed: "
  const NoKeyNoChain := "Chatbot is not initialized, and GOOGLE_API_KEY is missing. Please set it and check console logs."
  const KeyConfigReply := "Sorry, there seems to be an issue with the Google API Key configuration."
  const NoChainProduced := "Re-initialization attempt failed to produce a chain. Chatbot is not available."
  const CriticallyUninitialized := "Sorry, the chatbot is critically uninitialized. Please check the logs."

  /** The module globals: the key and the chain. */
  datatype State = State(key: Option<string>, chain: Option<Chain>)

  const Initial := State(None, None)

  predicate HasKey(key: Option<string>) {
    key.Some? && key.value != ""
  }

  /** What building returned (a chain, or `None`), or the text of the
      error raised instead. */
  datatype Construction = Constructed(chain: Option<Chain>) | Thrown(error: string)

  /** Building the chain from the key global. */
  function InitializeLlmAndChain(key: Option<string>, build: Build): (r: Construction)
    ensures !HasKey(key) ==> r == Thrown(KeyNotFound)
    ensures r.Constructed? <==> HasKey(key) && build.Built?
    ensures r.Constructed? ==> r.chain == Some(Chain(ModelName))
    ensures HasKey(key) && build.BuildFailed? ==> r.error == BuildFailedPrefix + build.reason
  {
    if !HasKey(key) then Thrown(KeyNotFound)
    else
      match build
      case Built => Constructed(Some(Chain(ModelName)))
      case BuildFailed(reason) => Thrown(BuildFailedPrefix + reason)
  }

  /** Startup: the argument becomes the key global whatever it is, and the
      chain returned for the startup block to store. */
  datatype Init = Init(state: State, chain: Option<Chain>)

  function InitializeChat(s: State, key: Option<string>, build: Build): (r: Init)
    ensures r.state == s.(key := key)
    ensures r.chain.Some? <==> HasKey(key) && build.Built?
    ensures !HasKey(key) ==> r.chain.None?
  {
    var stored := s.(key := key);
    if !HasKey(key) then Init(stored, None)
    else
      match InitializeLlmAndChain(key, build)
      case Constructed(chain) => Init(stored, chain)
      case Thrown(_) => Init(stored, None)
  }

  /** The text returned for a failed prediction, checked in priority
      order: invalid key, key configuration, anything else. */
  function ClassifyError(error: string): (reply: string)
    ensures Contains(error, "API key not valid") ==> reply == Chatbot.InvalidKeyReply
    ensures !Contains(error, "API key not valid")
            && (Contains(error, "API key is not set") || Contains(Upper(error), "GOOGLE_API_KEY"))
            ==> reply == KeyConfigReply
    ensures !Contains(error, "API key not valid") && !Contains(error, "API key is not set")
            && !Contains(Upper(error), "GOOGLE_API_KEY") ==>
              Chatbot.GenericPrefix <= reply && reply[|Chatbot.GenericPrefix|..] == error
  {
    if Contains(error, "API key not valid") then Chatbot.InvalidKeyReply
    else if Contains(error, "API key is not set") || Contains(Upper(error), "GOOGLE_API_KEY") then KeyConfigReply
    else Chatbot.GenericPrefix + error
  }

  /** Errors that do not mention the key configuration are worded as by
      the first chatbot. */
  lemma ClassifiersAgree(error: string)
    requires !Contains(error, "API key is not set") && !Contains(Upper(error), "GOOGLE_API_KEY")
    ensures ClassifyError(error) == Chatbot.ClassifyError(error)
  {
  }

  /** What a handler call leaves behind: the globals and the exchange. */
  datatype Turn = Turn(state: State, exchange: Exchange)

  /** The chat handler. `build` is the outcome of a lazy rebuild and
      `prediction` the outcome `apredict` would have on the message.
      `shown` is the text `str()` gives for an error raised through the UI
      library's error class; it is an input because that class is not
      part of this model. */
  function ChatFn(s: State, message: string, build: Build, prediction: Prediction,
                  shown: string -> string): (r: Turn)
    ensures r.state.key == s.key
    ensures s.chain.None? && !HasKey(s.key) ==> r == Turn(s, Exchange([], Failed(NoKeyNoChain)))
    ensures s.chain.None? && HasKey(s.key) && build.BuildFailed? ==>
              r == Turn(s, Exchange([], Failed(RebuildFailedPrefix + shown(BuildFailedPrefix + build.reason))))
    ensures r.exchange.reply.Replied? <==> s.chain.Some? || (HasKey(s.key) && build.Built?)
    ensures r.exchange.reply.Failed? <==> r.exchange.requests == []
    ensures r.exchange.reply.Replied? ==>
              r.state.chain.Some? && r.exchange.requests == [message]
              && r.exchange.reply.text == (match prediction
                                           case Answer(text) => text
                                           case PredictFailed(reason) => ClassifyError(reason))
    ensures s.chain.Some? ==> r.state == s
  {
    var ready :=
      if s.chain.Some? then Constructed(s.chain)
      else if !HasKey(s.key) then Thrown(NoKeyNoChain)
      else
        match InitializeLlmAndChain(s.key, build)
        case Constructed(None) => Thrown(RebuildFailedPrefix + shown(NoChainProduced))
        case Constructed(chain) => Constructed(chain)
        case Thrown(error) => Thrown(RebuildFailedPrefix + shown(error));
    match ready
    case Thrown(error) => Turn(s, Exchange([], Failed(error)))
    case Constructed(chain) =>
      var t := s.(chain := chain);
      if t.chain.None? then Turn(t, Exchange([], Replied(CriticallyUninitialized)))
      else
        match prediction
        case Answer(text) => Turn(t, Exchange([message], Replied(text)))
        case PredictFailed(reason) => Turn(t, Exchange([message], Replied(ClassifyError(reason))))
  }

  /** The startup block stores the key and the returned chain; the first
      chat then raises without asking the provider when there is no key,
      replies on the startup chain when startup built one, and otherwise
      replies exactly when its own rebuild succeeds. */
  lemma StartupThenChat(key: Option<string>, startup: Build, rebuild: Build, message: string,
                        prediction: Prediction, shown: string -> string)
    ensures var init := InitializeChat(Initial, key, startup);
            var t := ChatFn(init.state.(chain := init.chain), message, rebuild, prediction, shown);
            && (!HasKey(key) ==> t.exchange == Exchange([], Failed(NoKeyNoChain)))
            && (HasKey(key) && startup.Built? ==> t.exchange.reply.Replied? && t.state.chain == Some(Chain(ModelName)))
            && (HasKey(key) && startup.BuildFailed? ==> (t.exchange.reply.Replied? <==> rebuild.Built?))
  {
  }

  /** Once a call has replied, the chain is kept: later calls never rebuild,
      whatever a rebuild would do. */
  lemma RebuildHappensOnce(s: State, m1: string, m2: string, build: Build, b1: Build, b2: Build,
                           p1: Prediction, p2: Prediction, shown: string -> string)
    requires ChatFn(s, m1, build, p1, shown).exchange.reply.Replied?
    ensures var t := ChatFn(s, m1, build, p1, shown).state;
            ChatFn(t, m2, b1, p2, shown) == ChatFn(t, m2, b2, p2, shown) && ChatFn(t, m2, b1, p2, shown).state == t
  {
  }
}
