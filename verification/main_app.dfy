/** The `src` non-streaming `predict`: the history is converted for the
    model, the new message appended, and the model invoked once. The model
    is a parameter mapping the message list to its reply content. */
module MainApp {
  import opened Chat
  import opened Conversion

  /** The message lists the model was invoked on, in order, and the text
      returned to the chat widget. */
  datatype Invoked = Invoked(requests: seq<seq<LcMessage>>, reply: string)

  function Predict(message: string, history: seq<Msg>, model: seq<LcMessage> -> string): (r: Invoked)
    ensures |r.requests| == 1
    ensures |r.requests[0]| == |ChatTurns(history)| + 1
    ensures r.requests[0][|ChatTurns(history)|] == Human(message)
    ensures FromLangchain(r.requests[0][..|ChatTurns(history)|]) == ChatTurns(history)
    ensures r.reply == model(r.requests[0])
  {
    var request := Request(history, message);
    RequestShape(history, message);
    RoundTripHistory(history);
    Invoked([request], model(request))
  }
}
