/** The developing backend: one process-wide session (key, chain handle,
    initialisation error, current model name) driven by key setup, model
    switching, status queries and the streaming chat reply.

    Each operation takes the session and returns the new session, so the
    module globals become one `State` value. A raised exception is a
    `Raised` step that still carries every global assigned before the
    raise. */
module Backend {
  import opened Strings
  import opened Values
  import opened Provider

  const DefaultModel := "gemini-2.5-pro-preview-05-06"
  /** Shortest stripped key the plausibility check lets through. */
  const MinKeyLength := 30

  const KeyMissing := "API key is missing."
  const KeyNotString := "API key must be a string."
  const KeyTooShort := "API key appears to be too short or invalid."
  const KeyNotProvided := "GOOGLE_API_KEY was not provided. Cannot initialize AI model."
  const ValidationFailed := "GOOGLE_API_KEY validation failed: "
  const NoKeyForChange := "Cannot change model: GOOGLE_API_KEY is not set."
  const NoKeyForRetry := "Chatbot is not initialized: GOOGLE_API_KEY is missing for re-attempt."
  const EmptyStreamApology := "Sorry, I received an empty or unexpected response from the AI."
  const StreamEventKind := "on_chat_model_stream"

  /** The backend's module globals. */
  datatype State = State(key: Value, chain: Option<Chain>, error: Option<string>, model: string)
  {
    /** The error global is truthy. */
    predicate HasError() {
      error.Some? && error.value != ""
    }
  }

  /** The globals at import time. */
  const Initial := State(Absent, None, None, DefaultModel)

  /** An operation either returns a value or raises, in both cases leaving
      the globals in `state`. */
  datatype Step<T> = Returned(state: State, value: T) | Raised(state: State, reason: string)

  /** `(is_valid, message)` from the key plausibility check. */
  datatype Verdict = Verdict(ok: bool, message: string)

  /** `(success, message, model_name)` from a model switch. */
  datatype Switch = Switch(ok: bool, message: string, model: string)

  /** `(initialized, status_message, model_name)`. */
  datatype Status = Status(ready: bool, message: string, model: string)

  /** What the generator yields, whether the provider was asked (and
      with which message), and the exception ending it, if any. */
  datatype Run = Run(state: State, requests: seq<string>, pieces: seq<string>, raised: Option<string>)

  /** The `data.chunk` of a streamed event: absent, without a `content`
      attribute, or carrying some content value. */
  datatype Chunk = NoChunk | NoContent | Content(value: Value)

  /** One event of the chain's event stream. */
  datatype Event = Event(kind: string, chunk: Chunk)

  /** Key plausibility: the checks run in order missing, not a string,
      too short after stripping. */
  function CheckKey(key: Value): (v: Verdict)
    ensures v.ok <==> key.Str? && |Strip(key.text)| >= MinKeyLength
    ensures v.ok <==> v.message == ""
    ensures !Truthy(key) ==> v.message == KeyMissing
    ensures Truthy(key) && !key.Str? ==> v.message == KeyNotString
    ensures Truthy(key) && key.Str? && !v.ok ==> v.message == KeyTooShort
  {
    if !Truthy(key) then Verdict(false, KeyMissing)
    else if !key.Str? then Verdict(false, KeyNotString)
    else if |Strip(key.text)| < MinKeyLength then Verdict(false, KeyTooShort)
    else Verdict(true, "")
  }

  /** Surrounding whitespace never changes the verdict on a non-blank
      string key. */
  lemma CheckKeyIgnoresSurroundingSpace(text: string)
    requires !IsBlank(text)
    ensures CheckKey(Str(text)) == CheckKey(Str(Strip(text)))
  {
    StripIdempotent(text);
  }

  /** Building the chain: the model name is recorded first; then either
      the chain is stored and the error cleared, or construction raises
      and chain and error keep their old values. It never returns false. */
  function InitResources(s: State, model: string, build: Build): (r: Step<bool>)
    ensures r.state.model == model && r.state.key == s.key
    ensures r.Raised? <==> build.BuildFailed?
    ensures r.Returned? ==> r.value && r.state.chain == Some(Chain(model)) && r.state.error.None?
    ensures r.Raised? ==> r.state.chain == s.chain && r.state.error == s.error
  {
    var recorded := s.(model := model);
    match build
    case Built => Returned(recorded.(chain := Some(Chain(model)), error := None), true)
    case BuildFailed(reason) => Raised(recorded, reason)
  }

  /** Storing a key and initialising on the requested (or default) model. */
  function SetApiKey(s: State, key: Value, initialModel: Option<string>, build: Build): (r: Step<bool>)
    ensures r.state.key == key
    ensures r.state.model == OrElse(initialModel, DefaultModel)
    ensures r.Raised? <==> CheckKey(key).ok && build.BuildFailed?
    ensures r.Returned? && r.value <==> CheckKey(key).ok && build.Built?
    ensures r.Returned? && r.value ==> r.state.chain == Some(Chain(r.state.model)) && r.state.error.None?
    ensures !Truthy(key) ==> r.Returned? && r.state.chain.None? && r.state.error == Some(KeyNotProvided)
    ensures Truthy(key) && !CheckKey(key).ok ==>
              r.Returned? && r.state.chain.None? && r.state.error == Some(ValidationFailed + CheckKey(key).message)
    ensures r.Raised? ==> r.state.chain == s.chain && r.state.error == s.error
  {
    var model := OrElse(initialModel, DefaultModel);
    var stored := s.(key := key, model := model);
    if !Truthy(key) then
      Returned(stored.(error := Some(KeyNotProvided), chain := None), false)
    else
      var verdict := CheckKey(key);
      if !verdict.ok then
        Returned(stored.(error := Some(ValidationFailed + verdict.message), chain := None), false)
      else
        InitResources(stored, model, build)
  }

  /** The stored error when it is truthy, otherwise `fallback`. */
  function ErrorOr(s: State, fallback: string): string {
    if s.HasError() then s.error.value else fallback
  }

  /** Switching models: without a key the error is set and nothing is
      built; with a key the chain is rebuilt for the new model without
      re-checking the key's plausibility. */
  function ChangeModel(s: State, newModel: string, build: Build): (r: Step<Switch>)
    ensures r.state.model == newModel && r.state.key == s.key
    ensures !Truthy(s.key) ==>
              r.Returned? && r.value == Switch(false, NoKeyForChange, newModel)
              && r.state.chain == s.chain && r.state.error == Some(NoKeyForChange)
    ensures Truthy(s.key) ==> (r.Returned? <==> build.Built?)
    ensures Truthy(s.key) && r.Returned? ==>
              r.value == Switch(true, "Successfully switched to model: " + newModel + ".", newModel)
              && r.state.chain == Some(Chain(newModel)) && r.state.error.None?
    ensures r.Raised? ==> r.state.chain == s.chain && r.state.error == s.error
  {
    if !Truthy(s.key) then
      Returned(s.(error := Some(NoKeyForChange), model := newModel), Switch(false, NoKeyForChange, newModel))
    else
      match InitResources(s.(model := newModel), newModel, build)
      case Raised(t, reason) => Raised(t, reason)
      case Returned(t, ok) =>
        if ok then
          Returned(t, Switch(true, "Successfully switched to model: " + newModel + ".", t.model))
        else
          var unknown := "Failed to initialize model: " + newModel + " for an unknown reason.";
          Returned(t, Switch(false, ErrorOr(t, unknown), t.model))
  }

  /** A switch with a stored key never reports failure: the failure
      branch is dead because building returns true or raises. */
  lemma ChangeModelNeverReturnsFailureWithKey(s: State, newModel: string, build: Build)
    requires Truthy(s.key)
    ensures ChangeModel(s, newModel, build).Returned? ==> ChangeModel(s, newModel, build).value.ok
  {
  }

  /** The status query. */
  function GetStatus(s: State): (r: Status)
    ensures r.model == s.model
    ensures r.ready <==> !s.HasError() && s.chain.Some?
    ensures s.HasError() ==> r.message == s.error.value
    ensures r.ready ==> Contains(r.message, s.model)
  {
    if s.HasError() then Status(false, s.error.value, s.model)
    else if s.chain.None? then
      Status(false, "Chat LLM chain not initialized for model '" + s.model
                    + "'. API key might be set but other init step failed or pending.", s.model)
    else
      ContainsInfix("Successfully initialized with model '", s.model, "'.");
      Status(true, "Successfully initialized with model '" + s.model + "'.", s.model)
  }

  /** The event carries a non-empty string piece of streamed model output. */
  predicate Carries(e: Event) {
    e.kind == StreamEventKind && e.chunk.Content? && e.chunk.value.Str? && e.chunk.value.text != ""
  }

  /** The positions of the events that carry a piece, in increasing order:
      every listed position carries one and every carrying position is
      listed. */
  ghost function CarriedAt(events: seq<Event>): (ix: seq<nat>)
    ensures forall k | 0 <= k < |ix| :: ix[k] < |events| && Carries(events[ix[k]])
    ensures forall k, l | 0 <= k < l < |ix| :: ix[k] < ix[l]
    ensures forall j | 0 <= j < |events| && Carries(events[j]) :: j in ix
    decreases |events|
  {
    if events == [] then []
    else
      var n := |events| - 1;
      CarriedAt(events[..n]) + (if Carries(events[n]) then [n] else [])
  }

  /** The pieces the streaming loop yields, in event order
      (`StreamPiecesInOrder` relates them to the carrying positions). */
  function StreamPieces(events: seq<Event>): (pieces: seq<string>)
    ensures |pieces| <= |events|
    ensures forall i | 0 <= i < |pieces| :: pieces[i] != ""
    ensures pieces == [] <==> forall i | 0 <= i < |events| :: !Carries(events[i])
    decreases |events|
  {
    if events == [] then []
    else
      var n := |events| - 1;
      StreamPieces(events[..n]) + (if Carries(events[n]) then [events[n].chunk.value.text] else [])
  }

  /** The yielded pieces are exactly the texts of the carrying events,
      taken in increasing position. */
  lemma {:induction false} StreamPiecesInOrder(events: seq<Event>)
    ensures |StreamPieces(events)| == |CarriedAt(events)|
    ensures forall k | 0 <= k < |StreamPieces(events)| ::
              StreamPieces(events)[k] == events[CarriedAt(events)[k]].chunk.value.text
    decreases |events|
  {
    if events != [] {
      var n := |events| - 1;
      var front := events[..n];
      StreamPiecesInOrder(front);
      var pieces, ix := StreamPieces(events), CarriedAt(events);
      var frontPieces, frontIx := StreamPieces(front), CarriedAt(front);
      var last := if Carries(events[n]) then [events[n].chunk.value.text] else [];
      assert pieces == frontPieces + last;
      assert ix == frontIx + (if Carries(events[n]) then [n] else []);
      forall k | 0 <= k < |pieces| ensures pieces[k] == events[ix[k]].chunk.value.text {
        if k < |frontPieces| {
          var j := frontIx[k];
          assert ix[k] == j && j < n;
          assert pieces[k] == frontPieces[k] == front[j].chunk.value.text;
          assert front[j] == events[j];
        } else {
          assert ix[k] == n && pieces[k] == events[n].chunk.value.text;
        }
      }
    }
  }

  /** One more event adds its piece, if it carries one, at the end. */
  lemma StreamPiecesSnoc(events: seq<Event>, e: Event)
    ensures StreamPieces(events + [e]) == StreamPieces(events) + (if Carries(e) then [e.chunk.value.text] else [])
  {
    assert (events + [e])[..|events|] == events;
  }

  /** The pieces of consecutive event batches are consecutive. */
  lemma {:induction false} StreamPiecesAppend(a: seq<Event>, b: seq<Event>)
    ensures StreamPieces(a + b) == StreamPieces(a) + StreamPieces(b)
    decreases |b|
  {
    if b == [] {
      assert a + b == a;
    } else {
      var n := |b| - 1;
      var last := if Carries(b[n]) then [b[n].chunk.value.text] else [];
      assert a + b == (a + b[..n]) + [b[n]];
      assert b == b[..n] + [b[n]];
      calc {
        StreamPieces(a + b);
        { StreamPiecesSnoc(a + b[..n], b[n]); }
        StreamPieces(a + b[..n]) + last;
        { StreamPiecesAppend(a, b[..n]); }
        (StreamPieces(a) + StreamPieces(b[..n])) + last;
        StreamPieces(a) + (StreamPieces(b[..n]) + last);
        { StreamPiecesSnoc(b[..n], b[n]); }
        StreamPieces(a) + StreamPieces(b);
      }
    }
  }

  /** The streaming loop once a chain is present. */
  function Stream(s: State, message: string, events: seq<Event>): Run {
    if s.chain.None? then
      Run(s, [], ["Sorry, the chatbot (model: " + s.model + ") is critically uninitialized. Please check server logs."], None)
    else
      var pieces := StreamPieces(events);
      Run(s, [message], if pieces == [] then [EmptyStreamApology] else pieces, None)
  }

  /** The chat reply generator. `events` is what the chain's event stream
      would produce; `build` is the outcome of a lazy rebuild. */
  function ChatResponse(s: State, message: string, events: seq<Event>, build: Build): (r: Run)
    ensures s.HasError() ==>
              r.state == s && r.requests == [] && r.raised.None?
              && r.pieces == ["Chatbot not available (using model: " + s.model + "). Error: " + s.error.value]
    ensures !s.HasError() && s.chain.Some? ==>
              r.state == s && r.requests == [message] && r.raised.None?
              && r.pieces == (if StreamPieces(events) == [] then [EmptyStreamApology] else StreamPieces(events))
    ensures !s.HasError() && s.chain.None? && !Truthy(s.key) ==>
              r.requests == [] && r.pieces == [NoKeyForRetry] && r.state == s.(error := Some(NoKeyForRetry))
    ensures r.raised.Some? ==> r.state == s
    ensures r.state.model == s.model
    ensures r.raised.None? ==> |r.pieces| >= 1 && forall i | 0 <= i < |r.pieces| :: r.pieces[i] != ""
    ensures r.raised.Some? ==> r.pieces == [] && r.requests == [] && build.BuildFailed?
    ensures r.requests != [] ==> r.state.chain.Some? && r.requests == [message]
    ensures r.state.key == s.key
  {
    if s.HasError() then
      Run(s, [], ["Chatbot not available (using model: " + s.model + "). Error: " + s.error.value], None)
    else if s.chain.None? && !Truthy(s.key) then
      Run(s.(error := Some(NoKeyForRetry)), [], [NoKeyForRetry], None)
    else if s.chain.None? then
      match InitResources(s, s.model, build)
      case Raised(t, reason) => Run(t, [], [], Some(reason))
      case Returned(t, ok) =>
        if ok then Stream(t, message, events)
        else
          var reason := ErrorOr(t, "Unknown re-initialization reason.");
          Run(t, [], ["Chatbot re-initialization failed for model " + t.model + ": " + reason], None)
    else
      Stream(s, message, events)
  }

  /** The lazy rebuild inside the reply generator either succeeds and
      streams or raises: the "re-initialization failed" and "critically
      uninitialized" yields are dead. */
  lemma ChatResponseRebuildsOrRaises(s: State, message: string, events: seq<Event>, build: Build)
    requires !s.HasError() && s.chain.None? && Truthy(s.key)
    ensures build.Built? ==> ChatResponse(s, message, events, build).requests == [message]
    ensures build.Built? ==> ChatResponse(s, message, events, build).state.chain == Some(Chain(s.model))
    ensures build.Built? ==> ChatResponse(s, message, events, build).state.error.None?
    ensures build.Built? ==> ChatResponse(s, message, events, build).raised.None?
    ensures build.Built? ==>
              ChatResponse(s, message, events, build).pieces
              == (if StreamPieces(events) == [] then [EmptyStreamApology] else StreamPieces(events))
    ensures build.BuildFailed? ==> ChatResponse(s, message, events, build).raised == Some(build.reason)
    ensures build.BuildFailed? ==> ChatResponse(s, message, events, build).state == s
  {
  }

  /** The session invariant every reachable state keeps: a chain exists
      only with a truthy key and never alongside an error. */
  ghost predicate Consistent(s: State) {
    && (s.chain.Some? ==> Truthy(s.key))
    && (s.chain.Some? ==> !s.HasError())
  }

  /** For a consistent session, the status is ready exactly when a chain
      exists. */
  lemma StatusReadyIffChain(s: State)
    requires Consistent(s)
    ensures GetStatus(s).ready <==> s.chain.Some?
  {
  }

  lemma InitialConsistent()
    ensures Consistent(Initial)
    ensures !GetStatus(Initial).ready
  {
  }

  /** Every operation keeps the session invariant, raised or not. */
  lemma OperationsPreserveConsistent(s: State, key: Value, initialModel: Option<string>, newModel: string,
                                     message: string, events: seq<Event>, build: Build)
    requires Consistent(s)
    ensures Consistent(SetApiKey(s, key, initialModel, build).state)
    ensures Consistent(ChangeModel(s, newModel, build).state)
    ensures Consistent(ChatResponse(s, message, events, build).state)
  {
  }

  /** The chain in use was built for the model the session reports. */
  ghost predicate Honest(s: State) {
    s.chain.Some? ==> s.chain.value.model == s.model
  }

  /** Key setup from a session without a chain, and the reply generator
      from any honest session, keep the reported model honest. */
  lemma SetupAndChatKeepHonest(s: State, key: Value, initialModel: Option<string>,
                               message: string, events: seq<Event>, build: Build)
    requires Honest(s)
    ensures s.chain.None? ==> Honest(SetApiKey(s, key, initialModel, build).state)
    ensures Honest(ChatResponse(s, message, events, build).state)
  {
  }

  /** As written, a switch whose construction raises keeps the old chain
      but records the new model name: the status then claims the new model
      is ready while the old one is serving. */
  lemma FailedSwitchMisreportsModel(s: State, newModel: string, reason: string)
    requires Honest(s) && GetStatus(s).ready && Truthy(s.key)
    requires newModel != s.model
    ensures ChangeModel(s, newModel, BuildFailed(reason)).Raised?
    ensures GetStatus(ChangeModel(s, newModel, BuildFailed(reason)).state).ready
    ensures GetStatus(ChangeModel(s, newModel, BuildFailed(reason)).state).model == newModel
    ensures !Honest(ChangeModel(s, newModel, BuildFailed(reason)).state)
  {
  }

  /** Building with the failure caught, as the switch's failure branch
      expects: the error is recorded, the stale chain dropped, and false
      returned. */
  function InitResourcesCaught(s: State, model: string, build: Build): (r: Step<bool>)
    ensures r.Returned? && r.state.model == model && r.state.key == s.key
    ensures r.value <==> build.Built?
    ensures r.value ==> r.state.chain == Some(Chain(model)) && r.state.error.None?
    ensures !r.value ==> r.state.chain.None? && r.state.error == Some(build.reason)
  {
    match InitResources(s, model, build)
    case Returned(t, ok) => Returned(t, ok)
    case Raised(t, reason) => Returned(t.(chain := None, error := Some(reason)), false)
  }

  /** The switch with construction failures reported instead of raised. */
  function ChangeModelFixed(s: State, newModel: string, build: Build): (r: Step<Switch>)
    ensures r.Returned? && r.state.model == newModel && r.state.key == s.key
    ensures r.value.ok <==> Truthy(s.key) && build.Built?
    ensures r.value.model == newModel
    ensures !r.value.ok ==> r.value.message != ""
    ensures !Truthy(s.key) ==> r.value.message == NoKeyForChange && r.state.error == Some(NoKeyForChange)
    ensures Truthy(s.key) && build.BuildFailed? ==>
              r.state.error == Some(build.reason) && r.state.chain.None?
              && r.value.message == (if build.reason != "" then build.reason
                                     else "Failed to initialize model: " + newModel + " for an unknown reason.")
  {
    if !Truthy(s.key) then
      Returned(s.(error := Some(NoKeyForChange), model := newModel), Switch(false, NoKeyForChange, newModel))
    else
      match InitResourcesCaught(s.(model := newModel), newModel, build)
      case Raised(t, reason) => Raised(t, reason)
      case Returned(t, ok) =>
        if ok then
          Returned(t, Switch(true, "Successfully switched to model: " + newModel + ".", t.model))
        else
          var unknown := "Failed to initialize model: " + newModel + " for an unknown reason.";
          Returned(t, Switch(false, ErrorOr(t, unknown), t.model))
  }

  /** The corrected switch keeps the session consistent and honest, and
      the status is ready after it exactly when the switch succeeded. */
  lemma ChangeModelFixedKeepsStatusHonest(s: State, newModel: string, build: Build)
    requires Consistent(s) && Honest(s)
    ensures Consistent(ChangeModelFixed(s, newModel, build).state)
    ensures Honest(ChangeModelFixed(s, newModel, build).state)
    ensures GetStatus(ChangeModelFixed(s, newModel, build).state).ready <==> ChangeModelFixed(s, newModel, build).value.ok
  {
  }
}
