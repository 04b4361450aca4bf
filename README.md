# Chat send path of entity-chat, modelled in Dafny

The chat component of entity-chat (`src/components/ChatInterface.tsx`) keeps a
list of messages, an input text, the provider object found by a readiness
poll, and a `loading` flag. Its send handler is the one piece of decision
logic: it refuses blank input and a missing provider, appends the user
message, clears the input, raises `loading`, awaits the provider's `chat`
call, normalizes whatever came back into the assistant message's content,
writes a two-line entry to a per-day transcript file, appends a fixed apology
if anything in that block throws, and lowers `loading` at the end.

The model has two layers.

- Pure functions (`JsValues`, `JsStrings`, `ResponseNormalizer`, `Transcript`,
  `Session`). They cover JavaScript `typeof`, truthiness, property access and
  template-literal conversion; `trim()` and `split(sep)[0]`; the four-way
  response normalizer; the transcript file name and entry; and the send path
  as functions over a `SessionState` snapshot. `handleSend` is asynchronous,
  so it is split in two. `Begin` is the synchronous part, up to the awaited
  `chat` call. `Finish` is the continuation after the call settles. `Send` is
  both with nothing in between.
- The component as a class (`ChatComponent.ChatInterface`). Its fields are the
  component's state, and its handlers update them statement by statement.
  Each handler's `ensures` ties the new state to the `Session` function of the
  old state.

The foreign calls are inputs:

- the outcome of `chat` (a value, or a throw);
- `JSON.stringify` and the template literal's string conversion (a `Host`;
  `None` means the call threw);
- the `Date.now()` and `toISOString()` readings (a `Clock`).

The transcript write is recorded as an issued request. Its promise result
never reaches the component's state, so the model takes no outcome for it.

The model follows what the code does, including where that differs from what
a chat client is commonly expected to do:

- there is no streaming path and no model switching; the model is the
  constant `gpt-4o-mini`;
- the prompt sent and the stored user message are the untrimmed input;
- `handleSend` does not test `loading`. Only the button does. Enter calls
  `handleSend` directly, so a second send can start while one is in flight.
  The first continuation to finish then lowers `loading` although the other
  call is still pending (`Session.OverlappingSends`);
- the transcript is one `write` call per exchange with the entry as content.
  Whether the storage appends or replaces is the provider's business;
- a throw while the log entry is composed comes after the reply was appended,
  so that send ends with the reply and then the apology. This happens when
  the reply's content is a symbol, or an object whose string conversion
  throws. Every other accepted send adds exactly two messages.

## Model

| member | source | states |
|---|---|---|
| `JsValues.TypeOf` | src/components/ChatInterface.tsx:47-55 | `typeof` yields "object" exactly for null and objects and "string" exactly for strings; every other kind has its own name |
| `JsValues.Truthy` | src/components/ChatInterface.tsx:47-49 | ToBoolean: false exactly for `undefined`, `null`, `false`, zero, NaN, `0n` and the empty string |
| `JsValues.TruthyObjectIsObject` | src/components/ChatInterface.tsx:47 | `response && typeof response === 'object'` holds exactly of object values (null is excluded by truthiness) |
| `JsValues.Get` | src/components/ChatInterface.tsx:49 | `v.key` (receiver neither null nor undefined) is the property's value when the object has the key, and `undefined` for an object without it and for every primitive |
| `JsValues.GetOptional` | src/components/ChatInterface.tsx:49 | `v?.key` is the property's value on an object that has the key, and `undefined` otherwise: a nullish receiver, an object without the key, a primitive |
| `JsValues.TemplateString` | src/components/ChatInterface.tsx:65 | a string interpolates as itself, `undefined`, `null` and booleans as their names, and a symbol makes the template literal throw |
| `JsStrings.TrimStart` | src/components/ChatInterface.tsx:36 | drops the leading run of JavaScript white space and line terminators |
| `JsStrings.TrimEnd` | src/components/ChatInterface.tsx:36 | drops the trailing run of JavaScript white space and line terminators |
| `JsStrings.Trim` | src/components/ChatInterface.tsx:36 | `trim()`: both runs dropped |
| `JsStrings.TrimStartSpec` | src/components/ChatInterface.tsx:36 | trimming the start keeps the suffix after a white-space-only prefix, and that suffix does not start with white space |
| `JsStrings.TrimEndSpec` | src/components/ChatInterface.tsx:36 | trimming the end keeps the prefix before a white-space-only suffix, and that prefix does not end with white space |
| `JsStrings.TrimEnds` | src/components/ChatInterface.tsx:36 | `trim()` is no longer than the input and neither of its ends is white space |
| `JsStrings.TrimEmptyIffBlank` | src/components/ChatInterface.tsx:36 | `!input.trim()` holds exactly when every character of the input is white space |
| `JsStrings.TrimNonEmptyIffVisible` | src/components/ChatInterface.tsx:128 | `input.trim()` is non-empty exactly when some character is not white space |
| `JsStrings.TrimIdempotent` | src/components/ChatInterface.tsx:36 | trimming a trimmed string changes nothing |
| `JsStrings.Before` | src/components/ChatInterface.tsx:64 | `split(sep)[0]`: the characters before the first separator, or the whole string |
| `JsStrings.BeforeSpec` | src/components/ChatInterface.tsx:64 | `split('T')[0]` is a prefix of the stamp free of the separator, ending at the first separator or at the end |
| `JsStrings.BeforeFirstSeparator` | src/components/ChatInterface.tsx:64 | for `head + sep + tail` with no separator in `head`, `split(sep)[0]` is `head` |
| `JsStrings.BeforeWithoutSeparator` | src/components/ChatInterface.tsx:64 | a string without the separator is its own first part |
| `Messages.RoleName` | src/components/ChatInterface.tsx:7 | the name is `user` exactly for the user role and `assistant` exactly for the assistant role |
| `ResponseNormalizer.Normalize` | src/components/ChatInterface.tsx:46-59 | normalization fails only when an object is serialized and serialization throws; content that is neither a string nor truthy is `undefined`, from an object that `JSON.stringify` turned into `undefined` |
| `ResponseNormalizer.NormalizeString` | src/components/ChatInterface.tsx:55-56 | a string reply, empty or not, is the content as it is |
| `ResponseNormalizer.NormalizeMessageContent` | src/components/ChatInterface.tsx:49-51 | an object with a truthy `message.content` yields that content |
| `ResponseNormalizer.NormalizeOtherObject` | src/components/ChatInterface.tsx:52-54 | any other object (empty-string, missing or null `message.content`) yields its serialization, `undefined` when serialization yields `undefined`, or throws when serialization throws |
| `ResponseNormalizer.NormalizeUnexpected` | src/components/ChatInterface.tsx:57-58 | every non-string, non-object reply yields exactly `Unexpected response format` |
| `ResponseNormalizer.NormalizeFailsOnlyOnSerialization` | src/components/ChatInterface.tsx:46-59 | the normalizer throws if and only if the reply is an object without truthy `message.content` whose serialization throws |
| `Transcript.HistoryFileName` | src/components/ChatInterface.tsx:64-66 | the file name is `chat_history_`, the stamp's part before the first `T`, then `.txt` |
| `Transcript.LogLine` | src/components/ChatInterface.tsx:65 | one transcript line: the bracketed stamp, a space, the role name, a colon and a space, then the text |
| `Transcript.LogEntry` | src/components/ChatInterface.tsx:65 | the entry: a newline, the user line, a newline, the assistant line, a newline |
| `Transcript.HistoryFileNameOfIso` | src/components/ChatInterface.tsx:64 | the file for stamp `day + "T" + time` is `chat_history_` + day + `.txt` |
| `Transcript.DayOfHistoryFileName` | src/components/ChatInterface.tsx:66 | the day part of the stamp is read back from every file name built |
| `Transcript.ParseLogLineRoundTrip` | src/components/ChatInterface.tsx:65 | a line `[stamp] role: text` with `]` not in the stamp reads back as stamp, role and text |
| `Transcript.ParseLogLineSound` | src/components/ChatInterface.tsx:65 | every line the reader accepts is the line written from what it read |
| `Transcript.LogEntryLines` | src/components/ChatInterface.tsx:65 | an entry of single-line parts is an empty line, the user line, the assistant line, an empty line |
| `Transcript.LogEntryRoundTrip` | src/components/ChatInterface.tsx:65 | an entry of single-line parts reads back as the user record with the prompt and the assistant record with the reply |
| `Session.CanSend` | src/components/ChatInterface.tsx:36 | the gate: the trimmed input is non-empty and the provider is present; `loading` is not tested |
| `Session.Begin` | src/components/ChatInterface.tsx:36-40 | the synchronous prefix: rejected sends change nothing; accepted ones append the user message with the untrimmed input, clear the input, raise `loading` and issue the `chat` call |
| `Session.Settle` | src/components/ChatInterface.tsx:42-70 | the try/catch: a throwing call or serialization gives only the apology; a throwing template literal gives the reply then the apology; otherwise the reply and the transcript write |
| `Session.Finish` | src/components/ChatInterface.tsx:42-73 | the continuation appends the settlement onto the messages as they are now, records the write and lowers `loading` in every case |
| `Session.Send` | src/components/ChatInterface.tsx:35-73 | a whole send with nothing in between: `Begin`, then `Finish` when accepted |
| `Session.KeyDown` | src/components/ChatInterface.tsx:76-80 | Enter without Shift starts a send without awaiting it; any other key changes nothing |
| `Session.SendButtonEnabled` | src/components/ChatInterface.tsx:128 | the button is enabled when not loading and the trimmed input is non-empty; provider presence is not tested |
| `Session.CanSendIffVisibleInput` | src/components/ChatInterface.tsx:36 | a send is accepted exactly when the provider is present and the input has a non-white-space character |
| `Session.BeginRejectedIsNoOp` | src/components/ChatInterface.tsx:36 | a rejected send changes no state and makes no `chat` call |
| `Session.BeginAccepted` | src/components/ChatInterface.tsx:37-43 | an accepted send appends one user message with the untrimmed input, clears the input, raises `loading`, and calls `chat` with the untrimmed input and the constant model |
| `Session.SettleAppendsAssistantOnly` | src/components/ChatInterface.tsx:61-70 | a continuation appends one or two messages, all assistant messages |
| `Session.SettleChatThrew` | src/components/ChatInterface.tsx:67-70 | a failed `chat` call appends only the apology and issues no write |
| `Session.SettleWritesIffNoThrow` | src/components/ChatInterface.tsx:61-66 | the write is issued if and only if nothing threw, and then exactly the normalized reply was appended and the entry holds the prompt and the reply text under the day's file name |
| `Session.SettleThrowEndsWithApology` | src/components/ChatInterface.tsx:61-70 | after any throw the apology is the last message appended, preceded at most by the normalized reply |
| `Session.SettleStringReply` | src/components/ChatInterface.tsx:55-62 | a string reply becomes the assistant message as it is and is logged |
| `Session.SettleUndefinedSerialization` | src/components/ChatInterface.tsx:52-66 | an object that `JSON.stringify` turns into `undefined` is stored as `undefined` content and logged as "undefined" |
| `Session.SendRejectedIsNoOp` | src/components/ChatInterface.tsx:36 | a rejected whole send leaves the state as it was |
| `Session.SendAppendOnly` | src/components/ChatInterface.tsx:38-70 | existing messages and writes are kept, in order, as a prefix |
| `Session.SendAccepted` | src/components/ChatInterface.tsx:35-73 | an accepted send calls `chat` with the untrimmed input and the constant model, adds the user message then the continuation's assistant messages, appends the continuation's write, clears the input, keeps the provider and ends with `loading` false |
| `Session.SendSuccessAddsTwo` | src/components/ChatInterface.tsx:37-66 | without a throw a send adds exactly two messages, user then assistant, and one write |
| `Session.SendWriteReadsBack` | src/components/ChatInterface.tsx:64-66 | the written entry of a single-line exchange reads back as the untrimmed prompt and the reply text, and its file name as the stamp's day |
| `Session.SendButtonEnabledIff` | src/components/ChatInterface.tsx:128 | the button is enabled exactly when not loading and the input has a non-white-space character |
| `Session.EnabledButtonSends` | src/components/ChatInterface.tsx:126-128 | clicking the enabled button with the provider present starts a send |
| `Session.OtherKeysDoNothing` | src/components/ChatInterface.tsx:76-80 | Shift+Enter and every other key change nothing |
| `Session.EnterSendsWhileLoading` | src/components/ChatInterface.tsx:76-80 | while loading the button is disabled but Enter still starts a send |
| `Session.FinishKeepsAndAppends` | src/components/ChatInterface.tsx:61-73 | a continuation keeps the current messages, appends an assistant message after them and lowers `loading` |
| `Session.OverlappingSends` | src/components/ChatInterface.tsx:35-80 | with two overlapping sends the second prompt precedes the first reply, and the first continuation lowers `loading` while the second call is pending |
| `ChatComponent.ChatInterface.constructor` | src/components/ChatInterface.tsx:13-16 | the component starts with no messages, empty input, no provider and `loading` false |
| `ChatComponent.ChatInterface.ProviderFound` | src/components/ChatInterface.tsx:22-24 | finding the provider sets it present and changes nothing else |
| `ChatComponent.ChatInterface.SetInput` | src/components/ChatInterface.tsx:120 | typing replaces the input and changes nothing else |
| `ChatComponent.ChatInterface.BeginSend` | src/components/ChatInterface.tsx:35-43 | the synchronous part of `handleSend` produces the state and the `chat` call that `Begin` gives |
| `ChatComponent.ChatInterface.FinishSend` | src/components/ChatInterface.tsx:42-73 | the continuation produces the state `Finish` gives: appends, write, and `loading` false |
| `ChatComponent.ChatInterface.HandleSend` | src/components/ChatInterface.tsx:35-74 | a whole uninterrupted `handleSend` produces the state `Send` gives |
| `ChatComponent.ChatInterface.HandleKeyDown` | src/components/ChatInterface.tsx:76-81 | the key handler produces the state `KeyDown` gives: a send on Enter without Shift, nothing otherwise |

## Left out

- JSX rendering, the scroll-into-view effect and styling (src/components/ChatInterface.tsx:31-33, :83-138): presentation only.
- The 500 ms readiness poll and the global `window.puter` lookup of `getPuter`: timer and host plumbing. Provider presence is a field set by `ProviderFound`.
- The `puter.ai.chat` and `puter.fs.write` calls themselves: foreign calls. The chat result is an input; the write is an issued request whose rejection is caught and ignored, so no outcome is modelled.
- `JSON.stringify`, the string conversion of non-string values in a template literal, `Date.now()` and `toISOString()`: host library behaviour, given as parameters.
- Floating point: numbers are reals plus NaN. Infinities and -0 are not distinct values; they have the truthiness of a non-zero number and of 0.
- Prototype chains and property getters: property access reads own keys only.
- `console.error` diagnostics: they change no state.
- src/components/ModelSelectorModal.tsx and src/components/PreviousChatsSidebar.tsx: UI with trivial local state; the modal is not wired to the chat.
- src/lib/puter.ts interfaces, src/app/layout.tsx, next.config.ts: type declarations and configuration.
- src/lib/webgpuModel.ts: a stub returning a constant float array.
- Streaming replies and model switching: the code has neither.
- ChatComponent.ChatInterface.FinishSend: a synchronous throw from `puter.fs.write` itself (as opposed to a rejected promise) is not modelled; it would append the apology after the reply like a throw in the template literal.
- Transcript.LogEntryRoundTrip: stated for single-line prompts, replies and stamps. A prompt typed with Shift+Enter contains newlines and makes the entry ambiguous to read back.
- Session.SendWriteReadsBack: stated for single-line exchanges, for the same reason.
