# Helix outreach chat backend — Dafny model

Helix is a recruiter chat backend. A recruiter describes a role. A hosted language model then either answers in text or asks for one of three functions: `generate_sequence`, `edit_sequence` or `delete_step`. The function builds an outreach sequence: an initial message and three follow-ups, separated by `---`. The backend streams the result back as server-sent-event frames. A React panel then cuts the sequence into labelled message boxes.

This project models two pieces of local logic.

**The per-user session store and the chat turn (`app.py`).**
- `Sessions` holds the session record: the message history and the last sequence produced.
- `Handlers` holds the three actions as pure functions. The model's reply to an action's prompt is an input. The prompt is a structured `Prompt` value that records what the prompt text embeds. `request` records whether the model was called at all.
- `Chat` holds the dispatcher `Dispatch` and the whole turn as a specification function, `Turn`. It also holds `/reset` as `AfterReset`, and the class `SessionStore`. That class owns the process-wide `sessions` map. Its `Chat`, `Respond` and `Reset` methods update the map step by step, as the source does, and are proved to equal the specification functions. A ghost `remoteLog` records every round trip to the model, so it is provable that an early answer makes no call.

**The sequence panel (`chatbot/src/Workspace.tsx`).**
- `JsText` writes out the JavaScript built-ins the panel relies on: `split` with a string separator as a left-to-right scan without overlaps, `trim` with the ECMAScript whitespace set, and the decimal rendering of a number. It also defines `Join`. The panel never calls `join`; `Join` is there as the inverse that `split` is proved against.
- `Workspace` holds `parseSequence` (split, trim, drop empties), the header label rule and the placeholder rule.

Three behaviours of the code worth stating explicitly:
- `generate_sequence` does not require its three arguments. Each missing one defaults to `""` (app.py:19).
- An argument name an action does not take makes Python raise `TypeError` inside the stream. That happens after the status frame was sent and before anything else is recorded. The model treats this as a turn that does not complete (`Action.Rejected`). For example, `generate_sequence` called with a `user_id` is rejected this way.
- The early answer for a missing stored sequence is `"No previous sequence found to edit."` for both edit and delete (app.py:40, 62).

## Model

| member | source | states |
|---|---|---|
| `JsText.Split` | chatbot/src/Workspace.tsx:11 | `split` on a non-empty separator: the pieces join back to the input, no piece contains the separator, every piece but the last is closed by the first separator after it, and there is one piece more than there are left-to-right non-overlapping separators |
| `JsText.SplitJoin` | chatbot/src/Workspace.tsx:11 | joining well-split pieces and splitting again gives exactly those pieces back (`Split` is the inverse of `Join`) |
| `JsText.Trim` | chatbot/src/Workspace.tsx:11 | `trim` yields a stretch of the input with no whitespace at either end; every character outside the stretch is whitespace |
| `JsText.TrimIdempotent` | chatbot/src/Workspace.tsx:11 | trimming a trimmed string changes nothing |
| `JsText.TrimEmptyIffBlank` | chatbot/src/Workspace.tsx:11 | a piece trims to empty (and is then dropped) exactly when it is all whitespace |
| `JsText.Decimal` | chatbot/src/Workspace.tsx:24 | the rendering of a number is a non-empty string of digits with no leading zero |
| `JsText.ReadDecimalOfDecimal` | chatbot/src/Workspace.tsx:24 | reading the rendered number gives the number back |
| `Workspace.DropEmpty` | chatbot/src/Workspace.tsx:11 | `filter(part => part.length > 0)` keeps only non-empty strings, each taken from the input, and never more than the input |
| `Workspace.DropEmptyKeepsOrder` | chatbot/src/Workspace.tsx:11 | the k-th kept string is the input at the k-th kept position; kept positions increase; no non-empty string is lost |
| `Workspace.DropEmptyKeepsAll` | chatbot/src/Workspace.tsx:11 | with no empty string in the input, the filter returns the input unchanged |
| `Workspace.ParseSequence` | chatbot/src/Workspace.tsx:9-13 | every message is non-empty, trimmed and free of `---`; there are at most one more messages than `---` occurrences |
| `Workspace.ParseSequenceKeepsOrder` | chatbot/src/Workspace.tsx:11 | message k is the trimmed segment at an increasing segment position, and every non-blank segment yields a message |
| `Workspace.ParseSequenceExact` | chatbot/src/Workspace.tsx:11 | when no segment is blank, the messages are all the trimmed segments: delimiters + 1 of them |
| `Workspace.ParseJoined` | chatbot/src/Workspace.tsx:11 | non-blank segments without `---`, none but the last ending in `-`, joined with `---`, parse back to the trimmed segments one for one, so one initial message and three follow-ups give four messages |
| `Workspace.DashBoundary` | chatbot/src/Workspace.tsx:11 | a segment with no `---` that does not end in `-` is closed exactly by the `---` that follows it |
| `Workspace.SplitFourDashes` | chatbot/src/Workspace.tsx:11 | `"----"` splits into `""` and `"-"`, and parses to the single message `"-"` |
| `Workspace.Header` | chatbot/src/Workspace.tsx:24 | index 0 and only index 0 is labelled `Initial Message`; index i > 0 is `Follow-up ` followed by digits with no leading zero that read back as i, which is exactly the numeral `${index}` gives |
| `Workspace.HeadersDistinct` | chatbot/src/Workspace.tsx:24 | two different messages never get the same label |
| `Workspace.Boxes` | chatbot/src/Workspace.tsx:21-31 | one box per message, the k-th labelled by `Header(k)`, its lines free of `\n` and joining back to the message, so they are exactly the message split at every line break |
| `Workspace.Render` | chatbot/src/Workspace.tsx:19-35 | the placeholder text exactly when the sequence is absent or empty, otherwise one labelled box per parsed message, its lines that message split at every line break |
| `Handlers.Target` | app.py:37-40 | the sentinel `[LAST]` stands for the stored sequence, and yields nothing when that is `None` or `""`; any other argument is used as given |
| `Handlers.GenerateSequence` | app.py:19-33 | exactly one model call, with a prompt embedding role, background and tone; the sequence is the model's reply; the response is the fixed summary template |
| `Handlers.EditSequence` | app.py:35-55 | `[LAST]` with nothing usable stored returns `("", "No previous sequence found to edit.")` and makes no call; otherwise one call embedding the instruction and the stored or given sequence (`""` included), and the response names the instruction |
| `Handlers.DeleteStep` | app.py:57-83 | the same substitution and early answer as edit; otherwise one call embedding the instruction and the sequence, and the response names the instruction |
| `Chat.FrameRoundTrip` | app.py:218 | every frame is `data: ` + payload + a blank line, and the payload of one frame whose ends are known can be read back intact |
| `Chat.Dispatch` | app.py:173-213 | a plain reply is answered as is; an unknown name gets the fixed notice; a known name gets its status marker, and is rejected exactly when it passes a keyword the action lacks; generate runs on the model's role, background and tone, each `""` when omitted; edit and delete run with the dispatcher's user id |
| `Chat.ModelUserIdIgnored` | app.py:193-195 | for edit and delete, a `user_id` among the model's arguments has no effect |
| `Chat.DispatchReadsOwnSession` | app.py:38 | dispatch depends on no session but the current user's |
| `Chat.Turn` | app.py:152-218 | only the user's session changes and the store gains at most that key; the model first sees the history ending with the new user message; the history grows by the user message, then, if the turn completes, by one assistant message whose content is the last frame's payload; a rejected turn keeps the stored sequence |
| `Chat.FirstTurnSeeds` | app.py:153-159 | an unseen user's session starts as one system message and no sequence; the model first sees exactly that message plus the user's; after a text reply, an unknown function or a rejected call the user still has no stored sequence |
| `Chat.TextTurnFrames` | app.py:210-218 | a plain reply or an unknown function streams only the reply frame, makes one model call, keeps the stored sequence and appends user message then reply |
| `Chat.FunctionTurnFrames` | app.py:179-209 | a completed known call streams marker, then `[SEQUENCE_DATA]` + sequence, then the reply; the stored sequence equals that data payload; history records the action's response, not its sequence; the calls are the decision then the action's own request, if any; a rejected call streams only the marker and makes only the decision call |
| `Chat.GenerateTurn` | app.py:179-189 | a generate call with only its own keywords completes: the prompt embeds role, background and tone; marker, `[SEQUENCE_DATA]` + the model's reply, then the summary naming the three values are streamed; the reply is stored as the sequence |
| `Chat.GenerateWithoutArguments` | app.py:19 | omitted arguments default to `""`: a call without arguments sends a prompt with all three empty, and the summary reports them empty |
| `Chat.NothingStoredMakesNoCall` | app.py:37-40 | edit or delete of `[LAST]` with nothing usable stored makes no model call beyond the decision, streams an empty data frame and the notice, and stores `""` |
| `Chat.EditAfterGenerate` | app.py:183-199 | a sequence generated in one turn is exactly what an edit of `[LAST]` in the next turn sends to the model, and the edit's reply becomes the stored sequence |
| `Chat.AfterReset` | app.py:226-227 | the user's session is gone and every other session is untouched |
| `Chat.ResetIdempotent` | app.py:226-227 | resetting twice equals resetting once; resetting an unknown user changes nothing |
| `Chat.ResetThenTurnIsFresh` | app.py:153-159 | after a reset the user's next turn is indistinguishable from a first-ever turn |
| `Chat.SessionStore.constructor` | app.py:16 | a new process has no sessions and has made no calls |
| `Chat.SessionStore.Chat` | app.py:147-218 | the step-by-step turn leaves the store, the frames, the completion flag and the call log exactly as `Turn` says |
| `Chat.SessionStore.RecordUserMessage` | app.py:152-168 | a new user is seeded with the system message and no sequence; the user's message is appended; the model is asked for its decision on exactly that history |
| `Chat.SessionStore.StoreResult` | app.py:183-189 | after an action runs, its model call (if any) is logged and its sequence becomes the user's stored sequence; nothing else changes |
| `Chat.SessionStore.Respond` | app.py:164-218 | after the user message is recorded: marker, handler, data frame, stored sequence, assistant message and reply frame, in the order `Conclude` gives |
| `Chat.SessionStore.Reset` | app.py:223-228 | the store becomes `AfterReset` of the old one; the reply is `Chat reset`; no model call |

## Left out

- The hosted model (app.py:27-32, 49-54, 77-82, 166-171) is not modelled. Its decision and its reply to an action's prompt are inputs. A prompt is recorded by the fields it embeds; the surrounding wording is not modelled. A failed or hung call is not modelled.
- The function schema sent to the model (app.py:85-144) only guides the model. Locally, arguments are bound the way the Python signatures bind them.
- `json.loads` of the arguments (app.py:177) is not modelled. The arguments arrive as a map from string to string. Malformed JSON, non-object arguments and non-string values are not modelled.
- A reply whose content is `None` is not modelled, for the decision or for an action's prompt (app.py:32, 54, 82); content is always a string. In the source a `None` from an action would stream `[SEQUENCE_DATA]None` and store `None`, so the next `[LAST]` edit would find nothing stored.
- The system instructions that seed a session (app.py:156) are the store's `seed` parameter, not the literal text.
- Flask routing, request parsing, CORS, the `Response` stream, `print`, environment loading and startup (app.py:1-13, 146-150, 220, 222-225, 230-231) are I/O and framework wiring.
- In the source the user message is appended when the request arrives. The rest runs only as the stream is read. The model runs a turn to its end at once, so a stream that is never read, or is abandoned part-way, is not modelled. For example, a client that stops reading after the data frame leaves no stored sequence and no assistant message (app.py:185-189).
- Concurrent turns for the same user are not modelled; turns are sequential.
- The unused module-level `user_id` (app.py:17) has no effect and is not modelled.
- Chat.FrameRoundTrip: reads a payload back from one frame only. In the concatenated stream, a payload that contains a blank line cannot be told apart from a frame boundary. The client reads raw chunks, and that reading is not part of this model.
- chatbot/src/Chatbot.tsx and chatbot/src/App.tsx are UI state and network reading; they are not part of this model.
- The JSX markup around the labels, boxes and lines in Workspace.tsx is not modelled.
- JsText.Split: requires a non-empty separator. JavaScript's split on `""` cuts into characters, but the panel only splits on `---` and `\n`.
- JavaScript strings are UTF-16 code units, while the model uses Unicode scalar values. Every whitespace character `trim` removes is a single code unit, and `length > 0` means non-empty either way.
- Handlers.EditSequence: requires the user to have a session when the sentinel is used. Python raises `KeyError` otherwise, and the dispatcher always creates the session first.
- Handlers.DeleteStep: the same requirement and reason as `EditSequence`.
