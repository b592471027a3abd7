# Chat stream transform, prompt-variable navigation and session reducer

This project models three parts of a chat client and proves properties of the models.

- **The OpenAI-style stream transform** (`streams.dfy`, with the JSON encoder in `json.dfy`).
  The provider sends a sequence of decoded chunks `{id, choices: [{delta, finish_reason, index}]}`.
  Each chunk becomes one protocol frame: an id, an event and a payload (`Payload`), whose JSON form is given by `PayloadJson`.
  A frame is written as the three pieces `id: …\n`, `event: …\n` and `data: <json>\n\n`.
  The event is `text`, `tool_calls`, `stop`, `data` or `error`.
  Tool-call fragments are normalised: the index defaults to the array position, the type to `"function"`, and a missing id to the latest id seen for that index earlier in the stream.
  A chunk without a first choice yields an `error` frame with a `StreamChunkError` record, and the stream goes on.
  The observer hooks `onStart`, `onText`, `onToken`, `onToolCall` and `onCompletion` are recorded in a `Hooks` value.
  The implementation file of the transform is not part of this model.
  Its behaviour is taken from its test file, `openai.test.ts`, whose expectations are stated as general properties below.
- **Keyboard helpers of the chat input** (`keyboard.dfy`).
  `extractVariables` finds every `{{name}}` in a prompt with the global regular expression `/{{([^}]+)}}/g`.
  Tab navigation selects the next such variable after the caret in a text area.
  The model also covers the Alt+/ prompt request and the platform's command modifier.
  The regular expression is given a declarative meaning (`PatternAt`).
  A hand-written matcher, the `exec` loop and the `extractVariables` loop are proved against that meaning.
  The text area and the key event are classes whose fields the methods update.
- **The session reducer** (`session_reducer.dfy`).
  `sessionsReducer` applies `addSession`, `removeSession`, `updateSessionMeta` or `updateSessionChat` to a map from session id to session.
  It builds a new map and never changes its input, so it is modelled as a function over `map` values.

## Model

| member | source | states |
|---|---|---|
| Streams.Classify | src/libs/agent-runtime/utils/streams/openai.test.ts:306-451 | Gives an error exactly when the chunk has no first choice. Gives tool_calls whenever the delta has tool calls, even when its content is null. Gives stop when the finish reason is truthy and there are no tool calls, even if content is `''`. Gives text when the content is a string and there is neither a truthy finish reason nor tool calls, including an empty string. |
| Streams.Step | src/libs/agent-runtime/utils/streams/openai.test.ts:155-217 | The frame of one chunk carries the chunk's id and its classified event. The id memory afterwards has taken in exactly the chunk's tool-call fragments. |
| Streams.Normalize | src/libs/agent-runtime/utils/streams/openai.test.ts:81-133 | A fragment array normalises to an array of the same length. |
| Streams.NormalizeAt | src/libs/agent-runtime/utils/streams/openai.test.ts:219-262 | Fragment k is rebuilt from itself, its position k and the id memory as it stood after fragments 0..k-1. |
| Streams.NormalizeMemory | src/libs/agent-runtime/utils/streams/openai.test.ts:331-443 | After a fragment array, the id memory has seen every fragment's index and id, in array order. |
| Streams.NormalizeStable | src/libs/agent-runtime/utils/streams/openai.test.ts:219-262 | A fragment, once normalised, is not changed by the fragments after it in the same array. |
| Streams.FoldAppend | src/libs/agent-runtime/utils/streams/openai.test.ts:331-443 | Feeding two fragment histories one after the other gives the same id memory as feeding their concatenation. |
| Streams.LatestId | src/libs/agent-runtime/utils/streams/openai.test.ts:331-443 | The id remembered for an index is the id of the latest fragment with that index that carried a truthy id. It is absent exactly when no such fragment exists. |
| Streams.RunMemory | src/libs/agent-runtime/utils/streams/openai.test.ts:349-380 | The memory at the end of a stream has seen every tool-call fragment of every chunk, in stream order. |
| Streams.Run | src/libs/agent-runtime/utils/streams/openai.test.ts:135-153 | A stream gives exactly one frame per chunk, so an empty stream gives none. |
| Streams.RunStable | src/libs/agent-runtime/utils/streams/openai.test.ts:264-304 | A frame, once produced, is not changed by the chunks after it. |
| Streams.RunAt | src/libs/agent-runtime/utils/streams/openai.test.ts:306-451 | Frame j is the frame of chunk j, built with the memory of chunks 0..j-1 only. |
| Streams.RunSame | src/libs/agent-runtime/utils/streams/openai.test.ts:264-304 | Two streams that agree on their first n chunks agree on their first n frames and on the id memory after them. |
| Streams.RunPrefix | src/libs/agent-runtime/utils/streams/openai.test.ts:264-304 | The frames of a stream are the first frames of every continuation of it. Frames already emitted never change when more chunks arrive, so a malformed chunk does not disturb the frames before it. |
| Streams.DataRecord | src/libs/agent-runtime/utils/streams/openai.test.ts:155-217 | A `data` frame sends the first choice's delta alone, as its JSON, when the delta's content is `null`. Otherwise it sends `{delta, id, index}` with the (possibly absent) delta, the chunk id and the choice index. |
| Streams.ErrorRecord | src/libs/agent-runtime/utils/streams/openai.test.ts:264-304 | The `StreamChunkError` record, which an `error` frame carries for its chunk and the caught TypeError text, has `type` "StreamChunkError", the fixed `body.message`, a `body.context.error` named "TypeError" with the caught message, and the offending chunk as `body.context.chunk`. |
| Streams.FrameOfChunk | src/libs/agent-runtime/utils/streams/openai.test.ts:264-304 | Frame j carries chunk j's id and event. Its payload is the text, the finish reason, the `StreamChunkError` record or the data payload of that chunk alone. |
| Streams.ToolCallsFrame | src/libs/agent-runtime/utils/streams/openai.test.ts:81-133 | A tool-call chunk gives one `tool_calls` frame listing every fragment as `{function, id, index, type}`. The function is unchanged. The index is the given one, else the position. The type is the given one, else "function". The id is the given one, else the latest id seen earlier in the stream for the same index. |
| Streams.FrameLines | src/libs/agent-runtime/utils/streams/openai.test.ts:62-72 | Each frame is three pieces that read back: `id: ` then the id, `event: ` then the event name, each ending in a line break, and `data: ` then the payload JSON, ending in two line breaks. |
| Streams.RenderLength | src/libs/agent-runtime/utils/streams/openai.test.ts:62-72 | Frames are written as exactly three pieces each. |
| Streams.RenderPrefix | src/libs/agent-runtime/utils/streams/openai.test.ts:62-72 | Output already written never changes when more frames follow: the rendering of the first n frames is the first 3n pieces of the whole rendering. |
| Streams.RenderAt | src/libs/agent-runtime/utils/streams/openai.test.ts:62-72 | Frame k is written as pieces 3k, 3k+1 and 3k+2: `id: <id>\n`, `event: <name>\n` and `data: <json>\n\n`. |
| Streams.OutputLayout | src/libs/agent-runtime/utils/streams/openai.test.ts:62-72 | The output is three pieces per chunk, in chunk order, holding the chunk's id, its classified event name and its frame's JSON. |
| Streams.Observe | src/libs/agent-runtime/utils/streams/openai.test.ts:74-78 | A text frame calls `onText` with the data line's JSON text and `onToken` with the parsed text. A tool-call frame calls `onToolCall` once. Other frames call no hook. |
| Streams.OpenAIStream | src/libs/agent-runtime/utils/streams/openai.test.ts:6-79 | The stream loop writes exactly the rendering of `Run`. `onStart` and `onCompletion` fire once each. `onToken` receives the text of every text chunk in order. `onText` receives each of those texts JSON-encoded. `onToolCall` fires once per tool-call chunk. |
| Json.Encode | src/libs/agent-runtime/utils/streams/openai.test.ts:129 | Every value encodes to non-empty text, and a string encodes as its quoted, escaped form. |
| Json.NatToString | src/libs/agent-runtime/utils/streams/openai.test.ts:129 | A number is written as a non-empty run of decimal digits that denotes it, a single digit exactly when it is below ten. |
| Json.EscapePlain | src/libs/agent-runtime/utils/streams/openai.test.ts:65 | A string with no quote, backslash or control character is written as itself between the quotes. |
| Json.ParseEscaped | src/libs/agent-runtime/utils/streams/openai.test.ts:440 | Reading an escaped string back stops at its closing quote and returns the original characters and the rest of the text. |
| Json.DecodeQuote | src/libs/agent-runtime/utils/streams/openai.test.ts:75-77 | Parsing the JSON text of a string gives the string back, so `onToken` sees the raw text that `onText` sees encoded. |
| Keyboard.CloseBrace | src/utils/keyboard.ts:32 | Finds the first `}` at or after a position, or the end of the text. |
| Keyboard.MatchAt | src/utils/keyboard.ts:32 | The pattern matches at position p exactly when the matcher returns a match. The match starts at p and is well formed: `{{`, a non-empty name without `}`, `}}`, with consistent offsets and texts. The match is the only one starting at p. |
| Keyboard.FirstMatchFrom | src/utils/keyboard.ts:32 | Gives the leftmost match starting at or after a position. None means no match starts at or after it. |
| Keyboard.Exec | src/utils/keyboard.ts:36 | One `exec` call from `lastIndex` returns the leftmost match at or after `lastIndex`. |
| Keyboard.ScanSound | src/utils/keyboard.ts:36-43 | Every scanned item is a well-formed match starting at or after the scan position. |
| Keyboard.ScanOrdered | src/utils/keyboard.ts:36-43 | Scanned items are in text order and never overlap. |
| Keyboard.ScanComplete | src/utils/keyboard.ts:36-43 | Every position where the pattern matches lies inside some scanned item. |
| Keyboard.ScanEmpty | src/utils/keyboard.ts:36-43 | The scan is empty exactly when the pattern matches nowhere from the scan position on. |
| Keyboard.CollectMatches | src/utils/keyboard.ts:36-43 | The `exec` loop collects exactly the global scan of the text: each `exec` from `lastIndex` gives the leftmost match, and the loop resumes at its end until none is left. |
| Keyboard.WholeScan | src/utils/keyboard.ts:36-43 | The global scan of a whole text is well formed, in order and non-overlapping, covers every match position, and is empty exactly when the text has no match. |
| Keyboard.ExtractVariables | src/utils/keyboard.ts:24-46 | The loop returns the global scan of the text: well-formed, in order and non-overlapping, with every match position covered. It is empty exactly when the text has no match. |
| Keyboard.NextVariable | src/utils/keyboard.ts:55-61 | Gives the first variable that is not exactly the current selection and ends after the selection start. None means no variable qualifies. |
| Keyboard.SelectedAdvances | src/utils/keyboard.ts:48-73 | With variable k selected, navigation picks variable k+1. |
| Keyboard.LastStays | src/utils/keyboard.ts:56-63 | With the last variable selected, there is no next variable. Navigation does not wrap around. |
| Keyboard.IsCommandPressed | src/utils/keyboard.ts:5-13 | The command modifier is the meta key on macOS and the control key elsewhere. |
| Keyboard.IsUserPromptRequest | src/utils/keyboard.ts:15-22 | The result is true exactly for `/` with Alt. The default action is prevented exactly then. |
| Keyboard.NavigateToNextVariable | src/utils/keyboard.ts:48-73 | Succeeds exactly when the text area's text has a next variable. The text is never changed. On success the selection spans that variable, and otherwise the selection is unchanged. |
| Keyboard.HandleVariableNavigation | src/utils/keyboard.ts:75-80 | Only the navigation key, "Tab" by default, acts. The key press is consumed exactly when a variable got selected, and the selection then spans it. Otherwise, whether another key was pressed or no variable qualified, the selection is unchanged. The text is never changed. |
| SessionReducer.Add | src/store/session/slices/session/reducers/session.ts:50-53 | The session is stored under its id, replacing any entry there. The key set gains that id and every other entry is unchanged. |
| SessionReducer.Remove | src/store/session/slices/session/reducers/session.ts:55-58 | The id is gone, the key set loses only that id, and every other entry is unchanged. |
| SessionReducer.UpdateMeta | src/store/session/slices/session/reducers/session.ts:60-68 | A missing id leaves the state equal. Otherwise only `meta[key]` of that session becomes `value`. Its other metadata, its chats and its other fields stay, and every other session is unchanged. |
| SessionReducer.UpdateChat | src/store/session/slices/session/reducers/session.ts:70-76 | A missing id leaves the state equal. Otherwise only that session's chats are replaced. Its meta and other fields stay, and every other session is unchanged. |
| SessionReducer.SessionsReducer | src/store/session/slices/session/reducers/session.ts:48-81 | The key set grows only by an added id and shrinks only by a removed one. An unknown action gives back an equal state. |
| SessionReducer.AddThenRemove | src/store/session/slices/session/reducers/session.ts:50-58 | Adding a session with a fresh id and removing that id gives back the original map. |
| SessionReducer.RemoveAbsent | src/store/session/slices/session/reducers/session.ts:55-58 | Removing an absent id gives an equal state. |
| SessionReducer.UpdateAbsent | src/store/session/slices/session/reducers/session.ts:60-76 | Meta and chat updates addressed to a missing session give an equal state. |
| SessionReducer.AddRemoveIdempotent | src/store/session/slices/session/reducers/session.ts:50-58 | Adding the same session twice is adding it once. Removing the same id twice is removing it once. |
| SessionReducer.MetaChatCommute | src/store/session/slices/session/reducers/session.ts:60-76 | A meta update and a chat update commute, whichever sessions they address. |
| SessionReducer.ReducerKeepsKeys | src/store/session/slices/session/reducers/session.ts:48-81 | If every session is stored under its own id, every action keeps it so. |

On these points the model follows the tests of the stream transform:
- the tool-call event is named `tool_calls`;
- a chunk without choices gives an `error` frame rather than no frame;
- a chunk with both a finish reason and empty text gives only a `stop` frame;
- `onText` receives the JSON-encoded text.

## Left out

- Byte streams, `ReadableStream`, `TextEncoder`/`TextDecoder` and asynchrony are left out. The input is a finished sequence of decoded chunks and the output a sequence of strings.
- The implementation file of the stream transform (`openai.ts`) is not part of this model. Its behaviour is taken from its tests, as described above.
- Streams.ToolCallsFrame: a fragment that has no truthy id, and no earlier fragment with its index that had one, gets `None` here. No test shows a fragment without any id, so in that case the model leaves the id out of the frame.
- Streams.ToolCallsFrame: id inheritance is modelled per index across the whole stream. The tests only show fragments inheriting the id of an earlier fragment with the same index.
- Streams.DataPayload: the rule that a delta with `content: null` is sent as it is applies to every such delta whose choice has no tool calls and no truthy finish reason, not only to one with no other field.
- Streams.DataPayload: a choice without a `delta` key is not modelled; an absent delta stands for `delta: null`, so the wrapped payload always writes `"delta":null`. For a choice with no `delta` key the wrapped payload would have no `delta` key. No test has such a chunk.
- Streams.TypeErrorMessage: the runtime's TypeError text is kept as a fixed string for the two ways of lacking a first choice (no `choices`, empty `choices`). Other runtime failures are not modelled.
- JSON object keys come out in a fixed order per record type. Chunk fields the transform does not read are kept in order in an `other` list.
- Json.Encode: characters are Dafny characters, not UTF-16 code units. Lone surrogates and non-finite numbers are not modelled, and numbers are integers.
- Streams.OpenAIStream: `onStart` fires once even for an empty stream. The tests do not observe hooks on an empty stream.
- Streams.OpenAIStream: `onToken` fires for text frames only. The tests only have streams whose token-bearing frames are text frames, so they are silent on tool-call and data frames.
- Streams.OpenAIStream: `onCompletion` fires once when the input ends, whether or not any chunk carried a finish reason. The tests are silent on a stream without a finish reason.
- Streams.Classify: a delta with `tool_calls: []` counts as having tool calls, because an empty array is truthy in JavaScript. Its text is dropped, an empty `tool_calls` frame is sent and `onToolCall` fires. No test has an empty `tool_calls` array.
- Keyboard: offsets count Dafny characters, where the browser counts UTF-16 code units.
- Keyboard.NavigateToNextVariable: `blur()` and `focus()` (scrolling the selection into view) have no counterpart. The intermediate collapsed selection is assigned and then overwritten, as in the source.
- Keyboard.IsCommandPressed: the platform check `isMacOS()` is a parameter.
- Keyboard: the `target` of an event is assumed to be a text area or absent. Other element types are not modelled.
- SessionReducer: immer's structural sharing and freezing are left out; only value semantics are modelled. The session's `MetaData` and `ChatMessage` types are not part of this model. Metadata is a map from key to JSON value, and chat messages are JSON values.
- SessionReducer: a present session is always truthy, so the reducer's `if (!chat) return` is modelled as a membership test.
