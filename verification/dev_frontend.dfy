/** The developing frontend's handlers: the streaming submit relay, the
    description text, the model selector and the settings toggle. The
    backend's generator output and status are inputs. */
module DevFrontend {
  import opened Strings
  import opened Values
  import opened Provider
  import opened Chat
  import Backend

  const BaseDescriptionStart := "A simple chatbot powered by Langchain and Google AI ("
  const WarningStart := "\n\n**WARNING:** Chatbot may not be functional. Backend status: "
  const KeyHint := "\nPlease ensure your GOOGLE_API_KEY is correctly set in your config file or as an environment variable."
  const NoResponse := "Error: AI backend did not provide a response."
  const UnexpectedResponse := "Error: Received an empty or unexpected response from the AI backend."
  const SettingsRefreshed := "Settings refreshed. Model remains the same."
  const SettingsPrompt := "Select model or close settings."

  /** The first sentence of the description. */
  function BaseDescription(model: string): string {
    BaseDescriptionStart + model + ")."
  }

  /** The status text points at the API key. */
  predicate MentionsKey(status: string) {
    Contains(status, "GOOGLE_API_KEY") || Contains(status, "API key")
  }

  /** The base sentence followed by the warning that quotes the status. */
  function Warned(model: string, status: string): string {
    BaseDescription(model) + WarningStart + status
  }

  /** The description shown under the title. */
  function Description(model: string, initialized: bool, status: string): (r: string)
    ensures BaseDescription(model) <= r
    ensures initialized ==> r == BaseDescription(model)
    ensures !initialized ==> |r| > |BaseDescription(model)| && Contains(r, status)
    ensures !initialized ==> (EndsWith(r, KeyHint) <== MentionsKey(status))
    ensures !initialized && !MentionsKey(status) ==> EndsWith(r, status)
    ensures !initialized ==> Warned(model, status) <= r
    ensures !initialized ==> (r == Warned(model, status) <==> !MentionsKey(status))
    ensures !initialized && MentionsKey(status) ==> r == Warned(model, status) + KeyHint
  {
    var desc := BaseDescription(model);
    if initialized then desc
    else
      var warned := Warned(model, status);
      ContainsInfix(desc + WarningStart, status, "");
      assert warned + "" == warned;
      if MentionsKey(status) then
        ContainsInfix(desc + WarningStart, status, KeyHint);
        warned + KeyHint
      else warned
  }

  /** The string chunks among the generator's values, in order. */
  function Texts(chunks: seq<Value>): (r: seq<string>)
    ensures |r| <= |chunks|
  {
    if chunks == [] then []
    else (if chunks[0].Str? then [chunks[0].text] else []) + Texts(chunks[1..])
  }

  /** The streaming loop: each string chunk is appended to `acc` and the
      history is yielded with the trailing assistant entry showing it. */
  function Relay(asked: seq<Msg>, chunks: seq<Value>, acc: string): (r: seq<Update>)
    ensures |r| == |Texts(chunks)|
    ensures forall k | 0 <= k < |r| ::
              r[k] == Update(asked + [Msg(Assistant, acc + Concat(Texts(chunks)[..k + 1]))], "")
  {
    if chunks == [] then []
    else if chunks[0].Str? then
      var piece := chunks[0].text;
      var grown := acc + piece;
      var rest := Relay(asked, chunks[1..], grown);
      var texts := Texts(chunks);
      var later := Texts(chunks[1..]);
      var r := [Update(asked + [Msg(Assistant, grown)], "")] + rest;
      assert texts == [piece] + later;
      forall k | 0 <= k < |r|
        ensures r[k] == Update(asked + [Msg(Assistant, acc + Concat(texts[..k + 1]))], "")
      {
        if k == 0 {
          assert texts[..1] == [piece] + [];
          ConcatCons(piece, []);
          assert Concat(texts[..1]) == piece;
        } else {
          assert r[k] == rest[k - 1];
          assert rest[k - 1] == Update(asked + [Msg(Assistant, grown + Concat(later[..k]))], "");
          assert texts[..k + 1] == [piece] + later[..k];
          ConcatCons(piece, later[..k]);
          assert acc + (piece + Concat(later[..k])) == grown + Concat(later[..k]);
        }
      }
      r
    else
      assert Texts(chunks) == Texts(chunks[1..]);
      Relay(asked, chunks[1..], acc)
  }

  /** The text put into the assistant entry when no string chunk arrived. */
  function EmptyStreamText(status: Backend.Status, content: string): string {
    if !status.ready then "Chatbot not available: " + status.message
    else if content == "" then NoResponse
    else UnexpectedResponse
  }

  /** The updates after the first one: one per string chunk, then the
      diagnostic when there was none. */
  function Answering(asked: seq<Msg>, chunks: seq<Value>, status: Backend.Status): (r: seq<Update>)
    ensures |r| == |Texts(chunks)| + (if Texts(chunks) == [] then 1 else 0)
    ensures forall i | 0 <= i < |r| :: Answers(r[i], asked)
    ensures forall k | 0 <= k < |Texts(chunks)| :: LastContent(r[k]) == Concat(Texts(chunks)[..k + 1])
    ensures Texts(chunks) == [] ==>
              LastContent(r[0]) == (if status.ready then NoResponse else "Chatbot not available: " + status.message)
  {
    var texts := Texts(chunks);
    var content := Concat(texts);
    var streamed := Relay(asked, chunks, "");
    var diagnostic :=
      if texts == [] && content == "" then [Update(asked + [Msg(Assistant, EmptyStreamText(status, content))], "")]
      else [];
    var r := streamed + diagnostic;
    forall k | 0 <= k < |texts|
      ensures LastContent(r[k]) == Concat(texts[..k + 1])
    {
      assert r[k] == streamed[k];
      assert "" + Concat(texts[..k + 1]) == Concat(texts[..k + 1]);
    }
    r
  }

  /** When at least one string chunk arrives, the last of these updates
      shows the whole accumulated reply. */
  lemma AnsweringEndsOnWholeReply(asked: seq<Msg>, chunks: seq<Value>, status: Backend.Status)
    requires Texts(chunks) != []
    ensures var r := Answering(asked, chunks, status);
            r != [] && r[|r| - 1] == Update(asked + [Msg(Assistant, Concat(Texts(chunks)))], "")
  {
    var texts := Texts(chunks);
    var streamed := Relay(asked, chunks, "");
    assert Answering(asked, chunks, status) == streamed + [];
    assert texts[..|texts|] == texts;
    assert "" + Concat(texts) == Concat(texts);
  }

  /** The submit handler. `chunks` are the values the backend generator
      yields for the message; `status` is the backend status read after the
      stream ends. */
  function Submit(message: string, history: seq<Msg>, chunks: seq<Value>, status: Backend.Status): (r: Relayed)
    ensures IsBlank(message) ==> r == Relayed(None, [Update(history, "")])
    ensures !IsBlank(message) ==> r.call == Some(BackendCall(message, []))
    ensures forall i | 0 <= i < |r.updates| :: r.updates[i].textbox == ""
    ensures !IsBlank(message) ==>
              |r.updates| == 1 + |Texts(chunks)| + (if Texts(chunks) == [] then 1 else 0)
    ensures !IsBlank(message) ==> r.updates[0].history == history + [Msg(User, message), Msg(Assistant, "")]
    ensures !IsBlank(message) ==>
              forall i | 0 <= i < |r.updates| :: Answers(r.updates[i], history + [Msg(User, message)])
    ensures !IsBlank(message) ==>
              forall k | 1 <= k <= |Texts(chunks)| :: LastContent(r.updates[k]) == Concat(Texts(chunks)[..k])
    ensures !IsBlank(message) && Texts(chunks) == [] ==>
              LastContent(r.updates[1]) ==
                (if status.ready then NoResponse else "Chatbot not available: " + status.message)
  {
    if IsBlank(message) then Relayed(None, [Update(history, "")])
    else
      var asked := history + [Msg(User, message)];
      var rest := Answering(asked, chunks, status);
      var updates := [Update(asked + [Msg(Assistant, "")], "")] + rest;
      assert forall i | 0 <= i < |rest| :: updates[i + 1] == rest[i];
      Relayed(Some(BackendCall(message, [])), updates)
  }

  /** The k-th update shows the first k string chunks, concatenated. */
  lemma SubmitShowsPrefix(message: string, history: seq<Msg>, chunks: seq<Value>, status: Backend.Status, k: nat)
    requires !IsBlank(message)
    requires k <= |Texts(chunks)|
    ensures LastContent(Submit(message, history, chunks, status).updates[k]) == Concat(Texts(chunks)[..k])
  {
    var u := Submit(message, history, chunks, status).updates;
    if k == 0 {
      assert u[0].history == history + [Msg(User, message), Msg(Assistant, "")];
      assert Texts(chunks)[..0] == [];
    }
  }

  /** Streamed updates grow the reply by one chunk at a time: each shown
      content is the previous one with the next string chunk appended. */
  lemma SubmitGrowsByChunks(message: string, history: seq<Msg>, chunks: seq<Value>, status: Backend.Status, k: nat)
    requires !IsBlank(message)
    requires k < |Texts(chunks)|
    ensures LastContent(Submit(message, history, chunks, status).updates[k + 1])
            == LastContent(Submit(message, history, chunks, status).updates[k]) + Texts(chunks)[k]
  {
    var texts := Texts(chunks);
    SubmitShowsPrefix(message, history, chunks, status, k);
    SubmitShowsPrefix(message, history, chunks, status, k + 1);
    assert texts[..k + 1][..k] == texts[..k];
  }

  /** Every shown content is a prefix of every later streamed one. */
  lemma SubmitContentOnlyGrows(message: string, history: seq<Msg>, chunks: seq<Value>, status: Backend.Status, j: nat, k: nat)
    requires !IsBlank(message)
    requires j <= k <= |Texts(chunks)|
    ensures LastContent(Submit(message, history, chunks, status).updates[j])
            <= LastContent(Submit(message, history, chunks, status).updates[k])
  {
    SubmitShowsPrefix(message, history, chunks, status, j);
    SubmitShowsPrefix(message, history, chunks, status, k);
    ConcatPrefix(Texts(chunks), j, k);
  }

  /** A backend generator that finished without raising always yields a
      non-empty string, so with the developing backend the relay's
      empty-stream diagnostic never appears and the final entry holds the
      whole streamed reply. */
  lemma BackendReplyNeverEmpty(s: Backend.State, message: string, events: seq<Backend.Event>, build: Build,
                               history: seq<Msg>, status: Backend.Status)
    requires !IsBlank(message)
    requires Backend.ChatResponse(s, message, events, build).raised.None?
    ensures ShowsWholeReply(message, history, Backend.ChatResponse(s, message, events, build).pieces, status)
  {
    var run := Backend.ChatResponse(s, message, events, build);
    RelaysNonEmptyPieces(message, history, run.pieces, status);
  }

  /** Relaying `pieces` yields one update per piece after the first, and
      the last update's entry holds the whole reply, which is non-empty. */
  predicate ShowsWholeReply(message: string, history: seq<Msg>, pieces: seq<string>, status: Backend.Status) {
    var u := Submit(message, history, AsValues(pieces), status).updates;
    |u| == 1 + |pieces| && LastContent(u[|u| - 1]) == Concat(pieces) && Concat(pieces) != ""
  }

  /** When at least one string chunk arrives, the last update shows the
      user turn followed by the whole accumulated reply. */
  lemma SubmitEndsOnWholeReply(message: string, history: seq<Msg>, chunks: seq<Value>, status: Backend.Status)
    requires !IsBlank(message)
    requires Texts(chunks) != []
    ensures var u := Submit(message, history, chunks, status).updates;
            && |u| == 1 + |Texts(chunks)|
            && u[|u| - 1] == Update(history + [Msg(User, message), Msg(Assistant, Concat(Texts(chunks)))], "")
  {
    var asked := history + [Msg(User, message)];
    var rest := Answering(asked, chunks, status);
    AnsweringEndsOnWholeReply(asked, chunks, status);
    assert Submit(message, history, chunks, status).updates == [Update(asked + [Msg(Assistant, "")], "")] + rest;
    assert asked + [Msg(Assistant, Concat(Texts(chunks)))]
           == history + [Msg(User, message), Msg(Assistant, Concat(Texts(chunks)))];
  }

  /** Relaying a list of string pieces whose first piece is non-empty
      yields one update per piece after the first, and the last shows all
      of them, which is a non-empty text. */
  lemma RelaysNonEmptyPieces(message: string, history: seq<Msg>, pieces: seq<string>, status: Backend.Status)
    requires !IsBlank(message)
    requires pieces != [] && pieces[0] != ""
    ensures ShowsWholeReply(message, history, pieces, status)
  {
    TextsOfStrings(pieces);
    SubmitEndsOnWholeReply(message, history, AsValues(pieces), status);
    ConcatNonEmpty(pieces);
  }

  /** The backend's pieces as yielded values. */
  function AsValues(pieces: seq<string>): (r: seq<Value>)
    ensures |r| == |pieces|
  {
    seq(|pieces|, i requires 0 <= i < |pieces| => Str(pieces[i]))
  }

  lemma {:induction false} TextsOfStrings(pieces: seq<string>)
    ensures Texts(AsValues(pieces)) == pieces
    decreases |pieces|
  {
    if pieces != [] {
      assert AsValues(pieces)[1..] == AsValues(pieces[1..]);
      TextsOfStrings(pieces[1..]);
    }
  }

  /** What the model selector sends back: state model, title, description,
      feedback text and the radio's value. */
  datatype View = View(model: string, title: string, description: string, feedback: string, radio: string)

  function Title(model: string): string {
    "# Google AI Chatbot (" + model + ")"
  }

  /** The model selector's change handler. Selecting the model already in
      the UI state only re-reads the status; any other choice switches the
      backend model, whose exception, if any, propagates. */
  function HandleModelChange(s: Backend.State, selected: string, current: string, build: Build): (r: Backend.Step<View>)
    ensures selected == current ==> r.Returned? && r.state == s
    ensures selected == current ==> r.value.feedback == SettingsRefreshed && r.value.model == s.model
    ensures selected != current ==> r.state.model == selected
    ensures selected != current ==>
              r.state == Backend.ChangeModel(s, selected, build).state
              && (r.Raised? <==> Backend.ChangeModel(s, selected, build).Raised?)
    ensures r.Returned? ==> r.value.model == r.value.radio == r.state.model && r.value.title == Title(r.state.model)
    ensures r.Returned? ==>
              r.value.description == Description(r.state.model, Backend.GetStatus(r.state).ready, Backend.GetStatus(r.state).message)
  {
    if selected == current then
      var st := Backend.GetStatus(s);
      Backend.Returned(s, View(st.model, Title(st.model), Description(st.model, st.ready, st.message), SettingsRefreshed, st.model))
    else
      match Backend.ChangeModel(s, selected, build)
      case Raised(t, reason) => Backend.Raised(t, reason)
      case Returned(t, sw) =>
        var st := Backend.GetStatus(t);
        var feedback :=
          if sw.ok then "Successfully switched to: " + sw.model + "."
          else "Failed to switch to " + selected + ". " + sw.message;
        Backend.Returned(t, View(sw.model, Title(sw.model), Description(sw.model, st.ready, st.message), feedback, sw.model))
  }

  /** The model selector keeps the backend session consistent (a chain
      only with a truthy key and no error), whether the switch returns or
      raises. */
  lemma HandleModelChangePreservesConsistent(s: Backend.State, selected: string, current: string, build: Build)
    requires Backend.Consistent(s)
    ensures Backend.Consistent(HandleModelChange(s, selected, current, build).state)
  {
    if selected != current {
      Backend.OperationsPreserveConsistent(s, Absent, None, selected, "", [], build);
    }
  }

  /** What the settings toggle sends back: the new visibility state, the
      panel's visibility, the radio's new value if it is updated, and the
      status text. */
  datatype Panel = Panel(visible: bool, shown: bool, radio: Option<string>, status: string)

  /** The settings toggle; `backendModel` is the model name the backend
      status reports. */
  function ToggleSettings(visible: bool, backendModel: string): (r: Panel)
    ensures r.visible == !visible && r.shown == r.visible
    ensures r.status != "" <==> r.visible
    ensures r.radio.Some? <==> r.visible
    ensures r.radio.Some? ==> r.radio.value == backendModel
  {
    var opening := !visible;
    if opening then Panel(opening, opening, Some(backendModel), SettingsPrompt)
    else Panel(opening, opening, None, "")
  }
}
