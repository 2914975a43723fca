/** The hosted language model, reduced to the outcomes the chat code
    reacts to. Constructing a model chain either succeeds or raises; a
    prediction either answers or raises. */
module Provider {

  /** A conversation chain handle, built for one model name. */
  datatype Chain = Chain(model: string)

  /** Outcome of constructing the model client and its chain. */
  datatype Build = Built | BuildFailed(reason: string)

  /** Outcome of one `apredict` call on a chain. */
  datatype Prediction = Answer(text: string) | PredictFailed(reason: string)

  /** What a chat handler hands back to the UI framework: a returned string,
      or an error it raises (shown by the framework as an error toast). */
  datatype Reply = Replied(text: string) | Failed(error: string)

  /** One handler call: the messages it sent to the provider, in order,
      and its reply. */
  datatype Exchange = Exchange(requests: seq<string>, reply: Reply)
}
