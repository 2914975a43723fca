# Chat relay and backend session model

This project is a Dafny model of the original logic in a set of prototype
chat front-ends. Each front-end wires a chat widget to a hosted language
model. The model covers:

- **Backend session** (`developing/llm_backend.py`). Its globals are the API
  key, the conversation chain, the initialisation error and the current model
  name. The operations are the key plausibility check, key setup, model
  switching, the status query, and the streaming reply generator. In the
  model the globals are one `Backend.State` value, and each operation returns
  the next state. An exception is a `Raised` step that keeps every global
  assigned before the raise.
- **Submit relays** (`handle_submit_fn` in both frontends). The developing
  relay streams: it turns the backend generator's yields into a list of
  (history, textbox) updates. The stable relay awaits one reply and produces
  two updates. The model also covers the description text, the model selector
  and the settings toggle of the developing frontend.
- **History conversion** (`predict` in `developing/llm_interface.py` and
  `src/main.py`). Role-tagged entries become human or AI messages, and the
  streamed chunks are yielded as growing prefixes.
- **`src` chatbots** (`chatbot.py`, `chatbot2.py`). These cover startup
  initialisation, the lazy rebuild of a missing chain, and the mapping from
  prediction errors to user-facing text.

The model replaces the language model itself with inputs:

- chain construction is a `Build` outcome (built, or raised with a reason);
- a prediction is a `Prediction` (answer or failure);
- the event stream is a sequence of `Event`s;
- the streamed chunks are a sequence of values;
- the non-streaming model is a function from the message list to its reply.

Python truthiness is modelled explicitly through `Values.Truthy`.
`str.strip`/`str.isspace` and `str.upper` are modelled on ASCII only. The
whitespace set is space, `\t` through `\r`, and U+001C..U+001F. Upper-casing
maps `a`..`z`.

Files: `strings.dfy`, `values.dfy`, `provider.dfy`, `chat.dfy` (shared
types and helpers), `backend.dfy`, `dev_frontend.dfy`, `stable_frontend.dfy`,
`conversion.dfy`, `llm_interface.dfy`, `main_app.dfy`, `chatbot.dfy`,
`chatbot2.dfy`.

Some branches of the source cannot be reached. They are kept in the model,
and lemmas or contracts show that they are dead:

- `llm_backend.py:93-95`, because chain construction returns `True` or raises;
- `llm_backend.py:110-113` and `119-121` in the reply generator;
- the default "empty or unexpected response" text at `developing/app_frontend.py:193`;
- the append branch at `stable/app_frontend.py:63-64`;
- in `chatbot2.py`, the "failed to produce a chain" raise at lines 135-136,
  because building returns a chain or raises, and the "critically
  uninitialized" reply at lines 148-151, because every call that gets past
  the rebuild holds a chain (`Chatbot2.InitializeLlmAndChain`,
  `Chatbot2.ChatFn`).

Three facts about the code shape the model:

- The developing relay makes no readiness check before calling the
  backend's reply generator, and that generator yields the diagnostics
  itself (`Backend.ChatResponse`). The relay reads the status only after
  an empty stream (`DevFrontend.Answering`).
- These files contain no transcript save or load code. The history is only
  the widget's list.
- The model switch checks only that a key is stored. It does not re-check
  the key's plausibility (`Backend.ChangeModel`).

## Model

| member | source | states |
|---|---|---|
| Strings.Strip | coder-agent/developing/llm_backend.py:18 | `strip()` returns the infix that starts after the leading whitespace. Everything after it is whitespace too. It is empty exactly when the input is all whitespace, and otherwise neither starts nor ends with whitespace. |
| Backend.CheckKey | coder-agent/developing/llm_backend.py:13-20 | The key is plausible iff it is a string whose stripped length is at least 30. A falsy key gives "API key is missing.", and a truthy non-string gives the string error. The message is empty exactly when the key passes. |
| Backend.CheckKeyIgnoresSurroundingSpace | coder-agent/developing/llm_backend.py:18 | For a non-blank key, the verdict is the same whether or not the key is stripped first. |
| Backend.InitResources | coder-agent/developing/llm_backend.py:22-55 | The model name is recorded first. On success the chain is built for that model, the error is cleared and the result is true. On a raise, chain and error keep their old values. The function never returns false. |
| Backend.SetApiKey | coder-agent/developing/llm_backend.py:57-77 | The key and `initial or DEFAULT` are always stored. A falsy key sets the "not provided" error and clears the chain. An implausible key sets "validation failed: " + the validator message and clears the chain. The function returns true iff the key is plausible and construction succeeds, and raises iff the key is plausible and construction raises. |
| Backend.ChangeModel | coder-agent/developing/llm_backend.py:79-95 | Without a key it returns (false, "Cannot change model…", new), sets the error, records the name and leaves the chain alone. With a key it does not re-check plausibility. It then either returns (true, "Successfully switched to model: new.", new) with a chain for the new model and the error cleared, or raises with chain and error unchanged. |
| Backend.ChangeModelNeverReturnsFailureWithKey | coder-agent/developing/llm_backend.py:89-95 | With a stored key, a switch that returns always reports success, so the failure branch is dead. |
| Backend.GetStatus | coder-agent/developing/llm_backend.py:146-152 | The checks run in priority order: a truthy error means not ready, with the error as the message. Otherwise a missing chain means not ready. Otherwise the status is ready and names the model. The third component is always the current model name. |
| Backend.StreamPieces | coder-agent/developing/llm_backend.py:127-138 | Every yielded piece is non-empty, and there are no more pieces than events. Nothing is yielded iff no `on_chat_model_stream` event carries a non-empty string content. |
| Backend.StreamPiecesInOrder | coder-agent/developing/llm_backend.py:127-138 | The yielded pieces are exactly the string contents of the carrying events, one per carrying event, taken in increasing event position (`CarriedAt` lists those positions). |
| Backend.StreamPiecesAppend | coder-agent/developing/llm_backend.py:127-138 | The pieces of two consecutive event batches are the first batch's pieces followed by the second's. |
| Backend.ChatResponse | coder-agent/developing/llm_backend.py:98-144 | With an error set it yields exactly one diagnostic, asks no provider and changes nothing. With a chain it asks the provider once, and yields either the stream pieces or the single fallback apology. With no chain and no key it yields the re-attempt error and records it, leaving the rest of the session untouched. A raised rebuild leaves the session exactly as it was, and no branch renames the model. Unless it raises, it yields at least one non-empty string. |
| Backend.ChatResponseRebuildsOrRaises | coder-agent/developing/llm_backend.py:105-144 | With no chain and a key, the lazy rebuild either succeeds or raises. On success it clears the error, asks the provider once with a chain for the current model, and yields the stream pieces, or the single apology when there are none. On failure it raises with the construction reason and leaves the session unchanged. The other two diagnostics are dead. |
| Backend.StatusReadyIffChain | coder-agent/developing/llm_backend.py:146-152 | In a consistent session (a chain only with a truthy key and no error), the status is ready exactly when a chain exists. |
| Backend.OperationsPreserveConsistent | coder-agent/developing/llm_backend.py:57-117 | Key setup, model switching and the reply generator keep the session consistent, whether they return or raise. |
| Backend.SetupAndChatKeepHonest | coder-agent/developing/llm_backend.py:22-117 | The chain in use is built for the reported model. Key setup from a session without a chain keeps this true, and so does the reply generator. |
| Backend.FailedSwitchMisreportsModel | coder-agent/developing/llm_backend.py:79-95 | As written, a switch from a ready model whose construction raises leaves a status that reports the new model as ready while the old chain serves (see Findings). |
| Backend.InitResourcesCaught | coder-agent/developing/llm_backend.py:93-95 | This is the construction the failure branch expects. It always returns. On success it builds the chain and clears the error. On failure the construction reason is recorded as the error, the chain is dropped, and false is returned. |
| Backend.ChangeModelFixed | coder-agent/developing/llm_backend.py:79-95 | The corrected switch never raises. It succeeds iff a key is stored and construction succeeds. Without a key it reports and records the no-key text. With a key and a failed construction, the chain is dropped and the reason is recorded as the error. The reported message is that reason, or the "unknown reason" text when the reason is empty. |
| Backend.ChangeModelFixedKeepsStatusHonest | coder-agent/developing/llm_backend.py:91-95 | After the corrected switch the session is consistent and honest, and the status is ready exactly when the switch succeeded. |
| DevFrontend.Description | coder-agent/developing/app_frontend.py:13-19 | The base sentence always starts the text. When initialised it is exactly the base sentence. Otherwise it is the base sentence plus the warning quoting the status, followed by the key hint exactly when the status mentions "GOOGLE_API_KEY" or "API key"; without such a mention the warning is the whole rest. |
| DevFrontend.Relay | coder-agent/developing/app_frontend.py:184-189 | There is one update per string chunk, and non-string chunks are ignored. The k-th update shows the history followed by an assistant entry whose content is the concatenation of the first k+1 string chunks. |
| DevFrontend.Answering | coder-agent/developing/app_frontend.py:182-197 | After the first update, every update shows the asked history plus one assistant entry. When no string chunk arrived, one extra update shows "Chatbot not available: <status>" if not ready, and otherwise "Error: AI backend did not provide a response.". |
| DevFrontend.Submit | coder-agent/developing/app_frontend.py:172-197 | A blank message yields the unchanged history once and makes no backend call. Otherwise the backend is called with the message and an empty history. The first update appends the user turn and an empty assistant turn. Every update has length input+2 with the prior turns untouched, and update k shows the first k string chunks concatenated. Every update clears the textbox. |
| DevFrontend.SubmitShowsPrefix | coder-agent/developing/app_frontend.py:184-189 | The assistant content of update k is the concatenation of the first k string chunks, and is empty for the first update. |
| DevFrontend.SubmitGrowsByChunks | coder-agent/developing/app_frontend.py:186-187 | Each streamed update's content is the previous content with the next string chunk appended. |
| DevFrontend.SubmitContentOnlyGrows | coder-agent/developing/app_frontend.py:184-189 | Shown contents only grow: each is a prefix of every later streamed one. |
| DevFrontend.SubmitEndsOnWholeReply | coder-agent/developing/app_frontend.py:177-189 | When at least one string chunk arrives, there is one update per string chunk after the first. The last update is exactly the input history, the user turn and an assistant entry holding the whole concatenated reply, with the textbox cleared. |
| DevFrontend.BackendReplyNeverEmpty | coder-agent/developing/app_frontend.py:191-197 | With the developing backend's generator as its source, the relay never shows its empty-stream diagnostic. It yields one update per piece, and the final content is the whole non-empty reply. |
| DevFrontend.HandleModelChangePreservesConsistent | coder-agent/developing/app_frontend.py:202-223 | The model selector keeps the backend session consistent (a chain only with a truthy key and no error), whether the switch returns or raises. |
| DevFrontend.HandleModelChange | coder-agent/developing/app_frontend.py:202-223 | Re-selecting the model in state leaves the backend untouched and answers from the status. Any other choice leaves the backend exactly as the model switch does, and raises exactly when the switch raises. The state model, title, description and radio all follow the backend's model name. |
| DevFrontend.ToggleSettings | coder-agent/developing/app_frontend.py:231-239 | Visibility is negated, and the panel follows it. The radio is refreshed to the backend model and the status text is non-empty only when opening. |
| StableFrontend.ReplyText | coder-agent/stable/app_frontend.py:57-59 | A string reply is shown as is. Any other value is replaced by the fixed "unexpected response" text. |
| StableFrontend.Submit | coder-agent/stable/app_frontend.py:44-66 | A blank message yields the unchanged history once and makes no call. Otherwise it yields exactly two updates: the input with the user turn and an empty assistant turn, and then the same turns with the reply text in place. The final length is input+2, and the textbox is always cleared. |
| StableFrontend.AgreesWithStreamingRelay | coder-agent/stable/app_frontend.py:49-66 | When the awaited reply is what the streaming relay accumulates, both relays show the same first and last histories. |
| StableFrontend.LaunchDescription | coder-agent/stable/app_frontend.py:18-22 | The stable launcher's inline description rule gives the same text as the developing frontend's description function. |
| Conversion.ToLangchain | coder-agent/developing/llm_interface.py:14-19 | There is one message per user/assistant entry, in the same order with the same content. User entries become human messages and assistant entries become AI messages. |
| Conversion.ToLangchainIgnoresOtherRoles | coder-agent/developing/llm_interface.py:16-19 | Entries with any other role are dropped: converting the history equals converting only its user/assistant entries. |
| Conversion.ToLangchainAppend | coder-agent/developing/llm_interface.py:15-19 | Converting a concatenation of histories converts each part in order. |
| Conversion.RoundTripHistory | coder-agent/developing/llm_interface.py:14-19 | Reading the converted messages back returns exactly the user/assistant entries, in order. |
| Conversion.RoundTripMessages | coder-agent/developing/llm_interface.py:14-19 | Converting read-back messages restores them. |
| Conversion.RequestShape | coder-agent/developing/llm_interface.py:20 | The request has (#user + #assistant) + 1 messages, and the new message comes last as a human message. |
| LlmInterface.BuildRequest | coder-agent/developing/llm_interface.py:14-20 | The conversion loop builds the converted history followed by the new message. |
| LlmInterface.Accumulate | coder-agent/developing/llm_interface.py:22-25 | There is one yield per chunk, and yield k is the concatenation of the first k+1 chunk contents. No chunks means no yields. |
| LlmInterface.Predict | coder-agent/developing/llm_interface.py:13-25 | It sends the converted request, and its yields are the growing concatenations. Each yield is a prefix of every later one. |
| MainApp.Predict | coder-agent/src/main.py:21-30 | The model is invoked exactly once. The request holds the user/assistant entries in order, then the new message as a human message, with length = filtered count + 1. The model's content is returned unchanged. |
| Chatbot.InitializeChat | coder-agent/src/chatbot.py:52-64 | It returns a chain iff the key is truthy and construction succeeds. A falsy key or a construction error gives None, and the error is swallowed. |
| Chatbot.ClassifyError | coder-agent/src/chatbot.py:86-91 | An error containing "API key not valid" gives the fixed key text. Any other error gives "Sorry, I encountered an error: " followed by the error text. |
| Chatbot.ClassifyErrorKeepsDetail | coder-agent/src/chatbot.py:89-91 | Outside the key case, the error text can be recovered from the reply. |
| Chatbot.ChatFn | coder-agent/src/chatbot.py:66-91 | Without a chain it raises the not-initialised error and asks no provider. Otherwise it asks once and returns the answer unchanged or the classified error. |
| Chatbot.StartupThenChat | coder-agent/src/chatbot.py:52-98 | The startup block stores what `initialize_chat` returns. The first chat then fails with the not-initialised error, asking nothing, exactly when the key is falsy or startup construction failed. Otherwise it asks once. |
| Chatbot2.InitializeLlmAndChain | coder-agent/src/chatbot2.py:37-88 | A falsy key raises "not found" before any construction. Otherwise it returns a chain, never `None`, or raises with the construction error appended to the fixed prefix. |
| Chatbot2.InitializeChat | coder-agent/src/chatbot2.py:90-108 | The argument always becomes the key global, even when falsy. A chain is returned iff the key is truthy and construction succeeds. |
| Chatbot2.ClassifyError | coder-agent/src/chatbot2.py:159-166 | The checks run in priority order. "API key not valid" gives the invalid-key text. Otherwise, "API key is not set" or an upper-cased "GOOGLE_API_KEY" gives the configuration text. Otherwise the reply is the generic prefix followed by the error text. |
| Chatbot2.ClassifiersAgree | coder-agent/src/chatbot2.py:159-166 | Errors that do not mention the key configuration are worded exactly as by the first chatbot. |
| Chatbot2.ChatFn | coder-agent/src/chatbot2.py:111-166 | With no chain and no key it raises and asks no provider. With no chain and a key it rebuilds, raising "Re-initialization failed: " followed by the caught error's text if that fails. It replies iff a chain existed or the rebuild succeeded. It fails exactly when it asks nothing, so the uninitialised reply at lines 148-151 never appears. A reply stores the chain, asks the provider once, and returns the answer or the classified error. |
| Chatbot2.StartupThenChat | coder-agent/src/chatbot2.py:90-191 | After startup stores the key and the returned chain, the first chat raises without asking when there is no key. It replies on the startup chain when startup built one. Otherwise it replies exactly when its own rebuild succeeds. |
| Chatbot2.RebuildHappensOnce | coder-agent/src/chatbot2.py:122-137 | After a call that replied, later calls keep the chain and never depend on a rebuild outcome. |

## Findings

| source | as written | input that shows it | evidently intended | confidence | as-written member | corrected member |
|---|---|---|---|---|---|---|
| coder-agent/developing/llm_backend.py:88-95 | The model name is updated before construction. A raise during construction propagates out of `change_model_and_reinitialize`, and the old chain and the empty error stay in place. | A session ready on model A, then a switch to model B whose construction raises. The status then reads "Successfully initialized with model 'B'." while chain A serves. | Construction failure should be reported through the failure branch at lines 93-95, with the error recorded and no stale chain left behind. | medium, not executed | Backend.FailedSwitchMisreportsModel (about Backend.ChangeModel) | Backend.ChangeModelFixed (with Backend.ChangeModelFixedKeepsStatusHonest) |

The frontend's model-change handler in this model calls the switch as
written, so it stays faithful to the source. The corrected switch is
defined beside it.

## Left out

- Gradio layout, CSS, component wiring, `launch`, and the close-settings lambda. These are UI wiring.
- Config-file reading, the environment-variable fallback and the `__main__` startup blocks. These are file and process I/O.
- The model clients and chains, `astream_events`, `apredict`, `invoke` and `stream`. These are foreign calls. They appear only as inputs: `Build`, `Prediction`, event sequences, chunk sequences, and a model function.
- Both relays yield the same list object and then change its last entry in place (developing `app_frontend.py:180`, `187` and `189`; stable `app_frontend.py:53`, `62` and `66`). The model treats each update as a snapshot taken at the yield. That holds only if the UI renders each yield before the generator resumes.
- Exceptions raised by the provider in the middle of a stream. The generators are modelled only to normal completion.
- Async scheduling. Generators are finite sequences of yields.
- `print` logging, `temperature`, and the prompt template text.
- Transcript persistence. There is no save or load code in these files.
- `developing/app.py`. It imports a `ChatBackend` class that `llm_interface.py` does not define.
- The stable backend module that `stable/app_frontend.py` calls. Its reply and status are inputs.
- Strings.Strip: models Python's whitespace only on the ASCII range. Non-ASCII whitespace such as U+00A0 is not stripped.
- Chatbot2.ClassifyError: upper-casing is ASCII only. Python's Unicode `upper()` also maps, for example, dotless `ı` to `I`.
- Chatbot2.ChatFn: the text after "Re-initialization failed: " is `str()` of an error raised through the UI library's error class. That class is not part of this model, so this rendering is an input (`shown`). Whether it quotes the message is not settled here.
- Chatbot2.ChatFn: the key is a string or absent. A truthy non-string key would make the masking `print` at line 132 raise, and that case is not modelled.
- Chatbot.InitializeChat: assumes the module key global equals the argument, as the startup block arranges.
- The `content` of a widget entry is text. A `None` content is not modelled.
