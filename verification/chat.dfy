/** The chat widget's message list and the updates a submit handler sends
    to it. */
module Chat {
  import opened Values

  const User := "user"
  const Assistant := "assistant"

  /** One `{"role": ..., "content": ...}` entry of the widget's history. */
  datatype Msg = Msg(role: string, content: string)

  /** One yielded pair: the history to show and the new textbox value. */
  datatype Update = Update(history: seq<Msg>, textbox: string)

  /** The arguments a handler passes to the backend's `get_chat_response`. */
  datatype BackendCall = BackendCall(message: string, history: seq<Msg>)

  /** Everything a submit handler does: the backend call it makes, if any,
      and the updates it yields, in order. */
  datatype Relayed = Relayed(call: Option<BackendCall>, updates: seq<Update>)

  /** The update shows `asked` followed by one assistant entry and clears
      the textbox. */
  predicate Answers(u: Update, asked: seq<Msg>) {
    && |u.history| == |asked| + 1
    && u.history[..|asked|] == asked
    && u.history[|asked|].role == Assistant
    && u.textbox == ""
  }

  /** The content of the last history entry of an update ("" for an
      empty history). */
  function LastContent(u: Update): string {
    if u.history == [] then "" else u.history[|u.history| - 1].content
  }
}
