/** The stable frontend: a submit relay that awaits one whole reply, and
    the description rule written inline in its launcher. The stable
    backend is not part of this model; its reply and its
    `(initialized, status)` pair are inputs. */
module StableFrontend {
  import opened Strings
  import opened Values
  import opened Chat
  import DevFrontend
  import Backend

  const UnexpectedReply := "Error: Received an unexpected response from the AI backend."

  /** The reply text shown: a string reply as is, anything else replaced
      by the fixed error text. */
  function ReplyText(response: Value): (t: string)
    ensures response.Str? ==> t == response.text
    ensures !response.Str? ==> t == UnexpectedReply
  {
    if response.Str? then response.text else UnexpectedReply
  }

  /** The submit handler. `response` is whatever the awaited backend call
      returned. */
  function Submit(message: string, history: seq<Msg>, response: Value): (r: Relayed)
    ensures IsBlank(message) ==> r == Relayed(None, [Update(history, "")])
    ensures !IsBlank(message) ==> r.call == Some(BackendCall(message, [])) && |r.updates| == 2
    ensures forall i | 0 <= i < |r.updates| :: r.updates[i].textbox == ""
    ensures !IsBlank(message) ==>
              r.updates[0].history == history + [Msg(User, message), Msg(Assistant, "")]
    ensures !IsBlank(message) ==>
              r.updates[1].history == history + [Msg(User, message), Msg(Assistant, ReplyText(response))]
  {
    if IsBlank(message) then Relayed(None, [Update(history, "")])
    else
      var pending := history + [Msg(User, message), Msg(Assistant, "")];
      var reply := ReplyText(response);
      var last := |pending| - 1;
      var final :=
        if pending != [] && pending[last].role == Assistant then pending[..last] + [Msg(Assistant, reply)]
        else pending + [Msg(Assistant, reply)];
      assert pending[..last] == history + [Msg(User, message)];
      Relayed(Some(BackendCall(message, [])), [Update(pending, ""), Update(final, "")])
  }

  /** When the awaited reply is the text the streaming relay would have
      accumulated from its string chunks, both relays start and end on the
      same history. */
  lemma AgreesWithStreamingRelay(message: string, history: seq<Msg>, chunks: seq<Value>, status: Backend.Status)
    requires !IsBlank(message)
    requires DevFrontend.Texts(chunks) != []
    ensures var streamed := DevFrontend.Submit(message, history, chunks, status).updates;
            var awaited := Submit(message, history, Str(Concat(DevFrontend.Texts(chunks)))).updates;
            streamed[0] == awaited[0] && streamed[|streamed| - 1] == awaited[1]
  {
    DevFrontend.SubmitEndsOnWholeReply(message, history, chunks, status);
  }

  /** The description in the launcher. */
  function LaunchDescription(model: string, initialized: bool, status: string): (r: string)
    ensures r == DevFrontend.Description(model, initialized, status)
  {
    var text := "A simple chatbot powered by Langchain and Google AI (" + model + ").";
    if !initialized then
      var warned := text + "\n\n**WARNING:** Chatbot may not be functional. Backend status: " + status;
      if Contains(status, "GOOGLE_API_KEY") || Contains(status, "API key") then
        warned + "\nPlease ensure your GOOGLE_API_KEY is correctly set in your config file or as an environment variable."
      else warned
    else text
  }
}
