# Horace chatbots, modelled in Dafny

Horace drives a completion model through a conversation by keeping one
growing prompt string as the transcript. The model may embed a call in its
reply. The chatbot cuts the call out of the completion, dispatches it,
writes the result back into the transcript as another speaker's turn and
asks the model again. This project models that string and state handling
and proves what it promises.

There are two generations of the code, and both are modelled:

- The current application under `app/`:
  - `AppChatbot` models `app/chatbot.py`: the listening / replying state machine, the append-only transcript and the end-token rule.
  - `AppHorace` models `app/horace_chatbot.py`: the initial prompt built from the plugin registry; the `<call>` extraction, the cut after the decoded JSON, the re-added `</call>` and the retry loop; the `System` turn with the HTTP result; and the recursive reply cycle.
  - `AppRouter` models `app/router.py`: the pure decisions of the plugin bootstrap (de-duplication, auth filter and reuse, media-type check), the registry the loop fills, and `prepare` (plugin lookup, the `Authorization: Bearer` header of section 2.1 of RFC 6750, the six-key projection).
- The older top-level scripts:
  - `LegacyChatbot` (`chatbot.py`): the session is active while the prompt is not None.
  - `LegacyOpenAI` (`openai_chatbot.py`): the session has ended while the prompt is the empty string.
  - `LegacyHorace` (`horace_chatbot.py`): calls written as `CALL {...}`.
  - `LegacyGrace` (`grace_chatbot.py`): commands written as `[json]...[/json]`.
  - `CommandRouter` (`router.py`): the shared command registry, the `command` decorator and `invoke`.

Shared modules:

- `Base`: Option and Result.
- `PyStr`: Python's `strip`, `find`, `join`, `repr` and `str(int)`.
- `Json`: decoded JSON values, insertion-ordered dicts, `json.loads` over an abstract `raw_decode`, and `json.dumps`.
- `Extract`: the three regular expressions, written as the left-to-right search `re.match` performs.
- `Session`: states, the callback event log, completion requests, faults and the transcript turn format.

Every chatbot class holds the fields the Python object updates. Each method
is proved equal to a function on a snapshot of those fields, and the
properties are lemmas about those functions. A subclass holds the base
object it extends (composition instead of inheritance) and replaces its
reply cycle. `grace_chatbot.py` derives from `openai_chatbot.py`, but its
`_get_all_utterances` uses `_get_next_utterance`, `_add_response`,
`output_callback` and a prompt that is None outside a session. Only
`chatbot.py`'s class has those, so `LegacyGrace.GraceChatbot` is built on
`LegacyChatbot.Chatbot`.

The outside world is made of parameters:

- The completion backend is a script: a sequence of completions used from the front. A request when the script is used up is the backend raising.
- Callbacks are an appended event log.
- The JSON decoder is an abstract `raw_decode`. When it succeeds it has used between one and all of the characters.
- OpenAPI validation, the HTTP transport and the registered Python functions are abstract functions.

## Model

| member | source | states |
|---|---|---|
| `AppChatbot.StateSetTo` | app/chatbot.py:38-42 | `_set_state` sets the state, notifies the state callback only when one was given, and changes nothing else |
| `AppChatbot.NextUtterance` | app/chatbot.py:69-85 | the request is the transcript plus the model's cue, with 750 tokens, the stop list and the temperature; the transcript is unchanged; a result is the stripped first completion; the only errors are a used-up backend and the AttributeError of the end-token path |
| `AppChatbot.WrongStateChangesNothing` | app/chatbot.py:44-47 | outside the listening state `send_responses` raises and changes neither transcript, state, requests nor callbacks |
| `AppChatbot.SendResponsesRound` | app/chatbot.py:44-67 | a successful round records the stripped responses in order before the one request, records the model turn, goes listening → replying → listening, and the callbacks hear replying, the utterance (if non-empty) and listening in that order |
| `AppChatbot.EndTokenRaises` | app/chatbot.py:79-83 | an end token in the completion makes the call raise: the state stays replying, the user turns stay, no utterance is shown or recorded |
| `AppChatbot.TranscriptGrows` | app/chatbot.py:44-67 | whatever the outcome, the old transcript is a prefix of the new one |
| `AppChatbot.ReplyRecordsAlways` | app/chatbot.py:61-67 | the base reply always records the stripped utterance as a model turn, and shows it exactly when it is non-empty |
| `AppChatbot.Chatbot.constructor` | app/chatbot.py:11-30 | the transcript is the initial prompt, the state is listening, the stop list is each name followed by a colon, and no request or callback has happened |
| `AppChatbot.Chatbot.Say` | app/chatbot.py:64-65 | one utterance callback is appended to the event log |
| `AppChatbot.Chatbot.SetState` | app/chatbot.py:38-42 | the object's new state is `StateSetTo` of the old one |
| `AppChatbot.Chatbot.AddResponse` | app/chatbot.py:56-59 | the old transcript is a prefix of the new one, and the suffix is exactly newline, name, colon, space, text |
| `AppChatbot.Chatbot.GetNextUtterance` | app/chatbot.py:69-85 | the object's new state and result are `NextUtterance` of the old state |
| `AppChatbot.Chatbot.GetAllUtterances` | app/chatbot.py:61-67 | the object's new state and fault are the base reply of the old state |
| `AppChatbot.Chatbot.AcceptResponses` | app/chatbot.py:44-52 | the loop appends one stripped user turn per response, in order, after the state check, then moves to replying |
| `AppChatbot.Chatbot.FinishReply` | app/chatbot.py:54 | the state goes back to listening, and the state callback hears it |
| `AppChatbot.Chatbot.SendResponses` | app/chatbot.py:44-54 | the object's new state and fault are the base round of the old state |
| `AppHorace.PluginBlocks` | app/horace_chatbot.py:54-60 | one plugin description per registry entry |
| `AppHorace.InitialPromptWithPlugins` | app/horace_chatbot.py:50-72 | with plugins, the prompt is the extra instructions and a blank line (when given and non-empty), then the filled-in template, then a newline |
| `AppHorace.NoPluginsNoCallSyntax` | app/horace_chatbot.py:50-72 | with no plugins the template is left out: the prompt is the extra instructions (if any) and a newline, and `<call>` occurs in it only if the extra instructions write it |
| `AppHorace.Subscript2NeedsBothKeys` | app/horace_chatbot.py:115-116 | reading the two call keys raises for a non-dict, with a KeyError naming the first missing key, and otherwise yields both values |
| `AppHorace.CutOnlyBeforeEnd` | app/horace_chatbot.py:109-113 | the completion is cut only when the decoded JSON ends before the payload does, by exactly the unused length |
| `AppHorace.ExamineSplitsAtFirstTag` | app/horace_chatbot.py:92-95 | with a `<call>`, the visible text is the stripped text before its first occurrence and the payload is everything after it |
| `AppHorace.ExamineKeepsDecodedJson` | app/horace_chatbot.py:92-126 | truncation round trip: when the decoder uses `n` characters of the payload, the recorded text is the prefix, `<call>`, those `n` characters and `</call>`, and the outcome is the judgement of the decoded value |
| `AppHorace.RecordedCutsAfterJson` | app/horace_chatbot.py:109-126 | the recorded text of a decoded call ends with the JSON the decoder read and the closing tag |
| `AppHorace.ExamineRejectsMalformed` | app/horace_chatbot.py:104-107 | a payload the decoder refuses is rejected with `Malformed JSON: ` and its repr, and the whole completion is recorded, then closed |
| `AppHorace.ExamineWithoutPayload` | app/horace_chatbot.py:92-100 | without `<call>`, or with one that ends the completion, there is no call, no closing tag is added, and the visible text is the completion (or the text before the tag) |
| `AppHorace.ExamineClosesCalls` | app/horace_chatbot.py:100-126 | `</call>` is added exactly when there was a payload, whether the call was decoded, prepared or refused; an empty payload is no call |
| `AppHorace.Step` | app/horace_chatbot.py:89-98 | one attempt keeps the transcript and the state, and uses at most one completion |
| `AppHorace.ShowAttempt` | app/horace_chatbot.py:97-122 | the debug callbacks change only the event log, and nothing at all outside debug mode |
| `AppHorace.StepRecords` | app/horace_chatbot.py:69-98 | one attempt makes exactly one request, of the transcript plus the cue with the attempt's temperature, and only adds callbacks |
| `AppHorace.RetryFrom` | app/horace_chatbot.py:88-131 | the retry loop keeps the transcript and uses a completion whenever it yields an attempt |
| `AppHorace.Record` | app/horace_chatbot.py:133-136 | recording the last attempt makes no request and uses no completion |
| `AppHorace.RetryBudget` | app/horace_chatbot.py:88-131 | one level of the loop makes between one and `max_validation_retries + 1` requests, all of the same prompt; the first uses `temperature` and later ones `retry_temperature`; a refused last attempt means the budget is used up |
| `AppHorace.RetryAppends` | app/horace_chatbot.py:88-131 | the retry loop only appends callbacks and requests, and uses completions from the front |
| `AppHorace.CycleOnlyAppends` | app/horace_chatbot.py:85-152 | over a whole reply cycle the transcript, callback log and request log only grow, and completions are used from the front |
| `AppHorace.ConcludeOnlyAppends` | app/horace_chatbot.py:133-152 | what follows the loop, including the recursive cycle, only appends |
| `AppHorace.CycleWithoutCall` | app/horace_chatbot.py:85-136 | a completion without `<call>` ends the cycle after one request: it is shown (when non-empty) and recorded as one model turn |
| `AppHorace.FirstAttemptIs` | app/horace_chatbot.py:88-131 | an attempt that is not refused ends the loop at once, after one request |
| `AppHorace.CycleWithCall` | app/horace_chatbot.py:85-152 | with `send` awaited, a call prepared and answered, then a reply without a call: one model turn with the call, one `System` turn with the result, one model turn, in that order, after two requests |
| `AppHorace.CycleAfterRefusal` | app/horace_chatbot.py:88-152 | a call refused on the last allowed attempt uses up all `max_validation_retries + 1` requests; the completion is shown and recorded, the reason follows as a `System` turn, and the cycle starts over |
| `AppHorace.CycleWithRefusedCall` | app/horace_chatbot.py:85-152 | without retries, a refused first call costs one request; the cycle goes on from the transcript with the model turn and the `System` turn holding the reason, the completion shown when non-empty |
| `AppHorace.CycleWithCallAsWritten` | app/horace_chatbot.py:133-140 | as written, a call prepared on the first attempt ends the cycle with the unpacking fault after one request; the completion is recorded and no `System` turn follows |
| `AppHorace.RoundWithCallAsWritten` | app/horace_chatbot.py:140 | as written, such a round raises and leaves the chatbot in the replying state |
| `AppHorace.ResultTextShowsBodyOnlyOnSuccess` | app/horace_chatbot.py:144-146 | the response body follows the status line exactly for a status from 200 to 299 |
| `AppHorace.UnawaitedSendLosesResponse` | app/horace_chatbot.py:140-146 | a 200 response with body OK becomes the status line and body once `send` is awaited, and a TypeError as written |
| `AppHorace.RenderPrompt` | app/horace_chatbot.py:50-72 | the constructor's prompt is the joined blocks followed by a newline |
| `AppHorace.CollectBlocks` | app/horace_chatbot.py:50-68 | the blocks are the extra instructions when given and non-empty, then the filled-in template when there is one |
| `AppHorace.FillTemplate` | app/horace_chatbot.py:62-68 | the template is filled in only when there is a plugin block |
| `AppHorace.RenderPluginBlocks` | app/horace_chatbot.py:54-60 | the loop makes one block per plugin, in registry order |
| `AppHorace.NewBaseChat` | app/horace_chatbot.py:70-83 | the base part uses the Horace names and no end token, and its stop list is the name stops followed by `</call>` |
| `AppHorace.HoraceChatbot.constructor` | app/horace_chatbot.py:38-83 | the transcript is the initial prompt of the registry and the extra instructions, the state is listening, the stop list ends with `</call>`, and the settings are kept |
| `AppHorace.HoraceChatbot.Inspect` | app/horace_chatbot.py:92-126 | the analysis of one completion is `Examine` of it |
| `AppHorace.HoraceChatbot.Decide` | app/horace_chatbot.py:99-116 | decoding, cutting and preparing give the cut text and the call's outcome |
| `AppHorace.HoraceChatbot.TryOnce` | app/horace_chatbot.py:89-98 | one attempt of the loop is `Step` on the object's state |
| `AppHorace.HoraceChatbot.ShowDebug` | app/horace_chatbot.py:97-122 | the debug callbacks are `ShowAttempt` |
| `AppHorace.HoraceChatbot.GetAllUtterances` | app/horace_chatbot.py:85-152 | the object's new state and fault are the reply cycle of the old state |
| `AppHorace.HoraceChatbot.RetryLoop` | app/horace_chatbot.py:88-131 | the loop's last attempt and the new state are `RetryFrom` from attempt 0 |
| `AppHorace.HoraceChatbot.ConcludeAttempt` | app/horace_chatbot.py:133-152 | recording, sending, the `System` turn and the recursion are `Conclude` |
| `AppHorace.HoraceChatbot.SendResponses` | app/chatbot.py:44-54 | the base round, dispatching to this class's reply cycle |
| `AppRouter.DedupKeepsFirstOccurrences` | app/router.py:36 | de-duplication keeps each netloc exactly once, in the order of first occurrence |
| `AppRouter.ChooseAuth` | app/router.py:53-62 | the saved entry is reused exactly when the netloc is saved with the same auth type; otherwise a fresh entry is made, with a token prompt exactly for the two HTTP types |
| `AppRouter.SpecFormatIgnoresParameters` | app/router.py:72-86 | only the media type before the first `;` decides how the spec is parsed |
| `AppRouter.LoadOneRecords` | app/router.py:37-104 | a netloc that is not admitted changes nothing; an admitted one gets the chosen auth entry and adds at most one registry entry, a plugin of that netloc with its manifest and that auth, filed under the manifest's model name; every other entry stays |
| `AppRouter.LoadAllRecords` | app/router.py:34-104 | the auth update has an entry exactly for the admitted netlocs, even those whose spec fails, each the auth chosen for it; every registry entry is filed under its model name and comes from an admitted netloc of the list, with that netloc's manifest and the auth written back for it |
| `AppRouter.FirstUnexpected` | app/router.py:129 | no key is reported exactly when every key is a `requests.Request` keyword; a reported key is not one |
| `AppRouter.PrepareUnknownPlugin` | app/router.py:116-117 | an unregistered name fails with `Unknown plugin: ` and the name |
| `AppRouter.AddAuthorizationMerges` | app/router.py:124-127 | the header is merged into the request's headers or added as new headers; other keys and other headers are kept, and an old Authorization is overwritten |
| `AppRouter.PrepareAddsBearer` | app/router.py:119-127 | a `user_http` plugin's prepared request carries `Authorization: Bearer` and the saved token, and every other header it was given |
| `AppRouter.PrepareKeepsHeaders` | app/router.py:120-143 | for the other auth types the headers are sent exactly as given |
| `AppRouter.PrepareProjects` | app/router.py:129-143 | a prepared request had only `requests.Request` keywords and has the six keys, each the given value or None |
| `AppRouter.PrepareWithoutSpecIgnoresValidator` | app/router.py:131-139 | a plugin without an accepted spec is never validated |
| `AppRouter.PrepareReportsInvalid` | app/router.py:134-139 | a request the validator refuses fails with the validation prefix and the message |
| `AppRouter.LoadPlugins` | app/router.py:34-104 | the loop's registry and auth update are those of the passes over the de-duplicated netlocs |
| `AppRouter.Authorize` | app/router.py:120-127 | only a `user_http` plugin's parameters get the header |
| `AppRouter.Router.constructor` | app/router.py:25-113 | the registry and the auth update are those of the passes over the de-duplicated plugins, and `prepare` is bound to that registry |
| `AppRouter.Router.Prepare` | app/router.py:115-143 | `prepare` is the lookup, the header, the keyword check, the validation and the projection, failing at the first step that raises |
| `LegacyChatbot.Show` | chatbot.py:50-51 | the output callback hears the text exactly when it is non-empty, and nothing else changes |
| `LegacyChatbot.Continue` | chatbot.py:53-54 | the text is appended after a space only while the session lasts; the session neither starts nor ends |
| `LegacyChatbot.NextUtterance` | chatbot.py:56-73 | a request uses one completion or raises when there is none; callbacks are untouched |
| `LegacyChatbot.NextUtteranceCue` | chatbot.py:56-73 | the cue is appended and the whole prompt sent; the session ends exactly when the end token occurs, and the utterance is then the stripped text before its first occurrence, otherwise the stripped completion |
| `LegacyChatbot.UtteranceStripped` | chatbot.py:64-69 | the returned utterance has no whitespace at either end |
| `LegacyChatbot.Accept` | chatbot.py:30-35 | `send_responses` succeeds past its check exactly when a session is active |
| `LegacyChatbot.InactiveRaises` | chatbot.py:31-32 | without a session `send_responses` raises and changes nothing |
| `LegacyChatbot.RoundContinues` | chatbot.py:30-54 | without the end token: stripped user turns, the cue, a space and the utterance, one request, and the callback only for a non-empty utterance |
| `LegacyChatbot.RoundEnds` | chatbot.py:30-73 | an end token ends the session and the callback still hears the cut utterance when non-empty |
| `LegacyChatbot.EmptyEndTokenEndsAtOnce` | chatbot.py:67-72 | an empty end token is found at index 0: every successful round ends the session with an empty, unshown utterance |
| `LegacyChatbot.StartResets` | chatbot.py:25-28 | `start_session` never finds the session inactive, and does not depend on the old prompt |
| `LegacyChatbot.Chatbot.constructor` | chatbot.py:8-23 | a new chatbot has no session (`is_session_active` is false), and its stop list is each name followed by a colon |
| `LegacyChatbot.Chatbot.Say` | chatbot.py:50-51 | one output callback is appended to the event log |
| `LegacyChatbot.Chatbot.StartSession` | chatbot.py:25-28 | the prompt is reset to the initial prompt, then the responses are processed |
| `LegacyChatbot.Chatbot.SendResponses` | chatbot.py:30-37 | the object's new state and fault are the base round of the old state |
| `LegacyChatbot.Chatbot.AcceptResponses` | chatbot.py:30-35 | the check for a session, then the loop appending one stripped user turn per response |
| `LegacyChatbot.Chatbot.AddResponse` | chatbot.py:42-45 | exactly one turn is appended to the prompt |
| `LegacyChatbot.Chatbot.ContinuePrompt` | chatbot.py:53-54 | the prompt is extended after a space while the session lasts |
| `LegacyChatbot.Chatbot.GetAllUtterances` | chatbot.py:47-54 | the object's new state and fault are the base reply |
| `LegacyChatbot.Chatbot.GetNextUtterance` | chatbot.py:56-73 | the object's new state and result are `NextUtterance` |
| `CommandRouter.Registry.constructor` | router.py:6 | the shared registry starts empty |
| `CommandRouter.Zip` | router.py:17 | `zip` pairs equal indexes up to the end of the shorter sequence |
| `CommandRouter.ExampleParamsPairs` | router.py:16-18 | example values are paired positionally with the distinct parameter names, stopping at the shorter of the two |
| `CommandRouter.ExampleJsonText` | router.py:16-23 | `example_json` is the call object written out by `json.dumps`, `command` first, then `params` |
| `CommandRouter.Router.constructor` | router.py:5-9 | every router uses the one registry all routers share |
| `CommandRouter.Router.Command` | router.py:11-29 | the entry under the function's name replaces any earlier one, other entries stay, and the function is returned unchanged |
| `CommandRouter.ExampleParamsOf` | router.py:16-18 | the loop fills the example parameters as the positional pairing does |
| `CommandRouter.InvokeMalformed` | router.py:32-35 | text `json.loads` refuses fails with `Malformed JSON received: ` and its repr |
| `CommandRouter.InvokeMissingKey` | router.py:37-40 | `command` is checked before `params`, and the error names the first missing key |
| `CommandRouter.InvokeUnknownCommand` | router.py:42-44 | an unregistered command fails with `No such command: ` and its repr |
| `CommandRouter.InvokeDispatches` | router.py:46-48 | a registered command with an object of parameters is the registered function called on them |
| `CommandRouter.InvokeParamsNotMapping` | router.py:46-48 | a registered command whose parameters are not an object fails with the TypeError naming the function's qualified name and the parameters' type |
| `CommandRouter.InvokeOkOnlyByCall` | router.py:31-48 | an `invoke` that returns normally decoded an object naming a registered command with an object of parameters, and returned what that function did |
| `CommandRouter.LatestRegistrationWins` | router.py:20-25 | registering a second function under the same name replaces the first |
| `Extract.SplitFromMatches` | app/horace_chatbot.py:92-93 | the lazy search stops at the first position where `$` or the tag matches; with a tag, the text is the prefix, the tag and the payload |
| `Extract.SplitAtTagParts` | horace_chatbot.py:66-68 | group 1 is a prefix in which `CALL ` does not occur; with a payload, group 0 is the whole text |
| `Extract.SplitAtTagIsFind` | app/horace_chatbot.py:92-95 | the match is decided by the first occurrence of the tag, and without one group 1 is the text less a final newline |
| `Extract.FindClose` | grace_chatbot.py:86-87 | the first case-insensitive closing tag at or after a position, or none |
| `Extract.BlockFromMatches` | grace_chatbot.py:86-89 | the search stops at the first line end or complete block, and a block's payload runs to the first closing tag after the opening one |
| `Extract.SplitAtBlockFirstLine` | grace_chatbot.py:86-88 | because of MULTILINE, a block counts only if it opens before the first newline, and otherwise group 1 is the first line |
| `Extract.UnclosedBlockIsNoCall` | grace_chatbot.py:86 | a completion with no closing tag anywhere holds no command, whatever opening tags it has |
| `Extract.FirstBlock` | grace_chatbot.py:86-89 | the first complete block on the first line is the match: the text before it, the payload between the tags, and everything up to the closing tag |
| `LegacyGrace.LookUp` | grace_chatbot.py:51-55 | `look_up` is registered under its own name with the one parameter `question`, and its qualified name is that of a function local to `GRACEChatbot.__init__` |
| `LegacyGrace.CycleWithoutBlock` | grace_chatbot.py:83-95 | without a complete block on the first line the cycle ends: only the first line, stripped, is shown, and only the first line follows the cue |
| `LegacyGrace.CycleWithBlock` | grace_chatbot.py:83-109 | with a block on the first line: the text before it is shown, the prompt gets the completion up to the closing tag, then one `Backend` turn with what `invoke` made of the payload, and the cycle starts over |
| `LegacyGrace.HandleWithBlock` | grace_chatbot.py:86-109 | the same for one completion already requested |
| `LegacyGrace.EmptyBlockIsNoCommand` | grace_chatbot.py:86-97 | `[json][/json]` is no command: the cycle ends with the tags in the prompt |
| `LegacyGrace.EndTokenStopsCycle` | grace_chatbot.py:83-109 | a completion with the end token ends the cycle after one request, whatever it holds |
| `LegacyGrace.MalformedCommandReported` | grace_chatbot.py:97-109 | a payload `json.loads` refuses gives a `Backend` turn reporting it with its repr, and the cycle goes on |
| `LegacyGrace.LookUpAnswers` | grace_chatbot.py:51-55 | once registered, a `look_up` command is answered by the look-up function |
| `LegacyGrace.NewGraceChatbot` | grace_chatbot.py:49-81 | `look_up` is registered in the shared registry, and the base part gets the GRACE names, the default end token and the `Backend:` stop after the name stops |
| `LegacyGrace.AssembleGrace` | grace_chatbot.py:73-81 | the base part has no session, the GRACE names, the default end token and the `Backend:` stop after the name stops, and `invoke` sees the backend's registry |
| `LegacyGrace.GraceChatbot.constructor` | grace_chatbot.py:41-81 | the object is made of its base part, backend and decoder |
| `LegacyGrace.GraceChatbot.SendResponses` | chatbot.py:30-37 | the base round, dispatching to this class's reply cycle |
| `LegacyGrace.GraceChatbot.GetAllUtterances` | grace_chatbot.py:83-109 | the object's new state and fault are the reply cycle of the old state |
| `LegacyGrace.GraceChatbot.HandleUtterance` | grace_chatbot.py:86-97 | showing, appending the match and the command that follows are `Handle` |
| `LegacyGrace.GraceChatbot.RespondToCommand` | grace_chatbot.py:97-109 | the command is invoked, and its result recorded while the session lasts |
| `LegacyGrace.GraceChatbot.AnswerCommand` | grace_chatbot.py:107-109 | the result becomes a `Backend` turn, then the cycle starts over |
| `LegacyGrace.GraceChatbot.InvokeCommand` | grace_chatbot.py:100-105 | `invoke`'s result, or the text of what it raised |
| `LegacyHorace.PluginBlocks` | horace_chatbot.py:44-45 | one description per registered plugin |
| `LegacyHorace.WithExtraEndsWith` | horace_chatbot.py:47-51 | the template always ends the prompt, even without plugins; non-empty extra instructions come first, followed by a blank line |
| `LegacyHorace.DropLast` | horace_chatbot.py:89 | `p[:-n]` drops the last `n` characters, or leaves nothing |
| `LegacyHorace.Truncated` | horace_chatbot.py:81-89 | the cut leaves a session as active or inactive as it was |
| `LegacyHorace.SplitKeepsWhole` | horace_chatbot.py:66-74 | for a stripped completion, group 0 is all of it, group 1 the text before the first `CALL ` and the payload the text after it |
| `LegacyHorace.TruncationEndsWithJson` | horace_chatbot.py:85-89 | when the prompt ends with the payload, it ends after the cut with exactly the characters the decoder used |
| `LegacyHorace.ErrorsBecomeResult` | horace_chatbot.py:79-96 | text the decoder refuses is reported with its repr and nothing is cut; a decoded call gets what the router makes of it |
| `LegacyHorace.NoCallMethodRefusesAll` | horace_chatbot.py:91-92 | with `router.py`'s Router, which has no `call`, every decoded call yields the AttributeError text |
| `LegacyHorace.CycleWithoutCall` | horace_chatbot.py:63-77 | a completion without `CALL ` ends the cycle: shown if non-empty, and appended after a space while the session lasts |
| `LegacyHorace.CycleWithCall` | horace_chatbot.py:63-100 | with a call while the session lasts: the text before it is shown, the prompt gets the completion up to the end of the JSON, then one `API` turn with the result, and the cycle starts over |
| `LegacyHorace.HandleWithCall` | horace_chatbot.py:66-100 | the same for one completion already requested |
| `LegacyHorace.EvaluateWithCall` | horace_chatbot.py:79-100 | a decoded call in a prompt ending with the completion: the prompt is cut after the JSON and the `API` turn holds the router's result |
| `LegacyHorace.EvaluateMalformed` | horace_chatbot.py:79-100 | refused text leaves the prompt as it is and is reported in the `API` turn with its repr |
| `LegacyHorace.CutAfterJson` | horace_chatbot.py:85-89 | the prompt is cut right after the JSON that starts the payload |
| `LegacyHorace.EndTokenStopsCycle` | horace_chatbot.py:63-100 | a completion with the end token ends the cycle after one request, whatever it holds |
| `LegacyHorace.BuildInitialPrompt` | horace_chatbot.py:44-51 | the constructor's prompt is the template with the plugin descriptions, after the extra instructions |
| `LegacyHorace.PrependExtra` | horace_chatbot.py:49-51 | the extra instructions and a blank line are put before the prompt exactly when they are given and non-empty |
| `LegacyHorace.Assemble` | horace_chatbot.py:53-61 | the base part has no session, the Horace names, the default end token and the `API:` stop after the name stops |
| `LegacyHorace.NewHoraceChatbot` | horace_chatbot.py:37-61 | the prompt from the registry and extra instructions, the Horace names, the default end token, and the stop list with `API:` after the name stops |
| `LegacyHorace.HoraceChatbot.constructor` | horace_chatbot.py:37-61 | the object is made of its base part, decoder and router |
| `LegacyHorace.HoraceChatbot.StartSession` | chatbot.py:25-28 | the prompt is reset, then the round runs with this class's reply cycle |
| `LegacyHorace.HoraceChatbot.SendResponses` | chatbot.py:30-37 | the base round, dispatching to this class's reply cycle |
| `LegacyHorace.HoraceChatbot.GetAllUtterances` | horace_chatbot.py:63-100 | the object's new state and fault are the reply cycle of the old state |
| `LegacyHorace.HoraceChatbot.HandleUtterance` | horace_chatbot.py:66-77 | showing, appending the match and the call that follows are `Handle` |
| `LegacyHorace.HoraceChatbot.RespondToCall` | horace_chatbot.py:79-100 | the call, the `API` turn and the next cycle are `Evaluate` |
| `LegacyHorace.HoraceChatbot.AnswerCall` | horace_chatbot.py:98-100 | the result becomes an `API` turn, then the cycle starts over |
| `LegacyHorace.HoraceChatbot.EvaluateCall` | horace_chatbot.py:79-96 | the prompt is cut after the JSON and the result is the router's answer or the error text |
| `LegacyOpenAI.Start` | openai_chatbot.py:24-26 | the prompt becomes the initial prompt, a blank line, the model's name and the first utterance, which is returned; the session has not ended |
| `LegacyOpenAI.Respond` | openai_chatbot.py:28-48 | a response fails exactly when the API has no completion left |
| `LegacyOpenAI.RespondAppends` | openai_chatbot.py:29-46 | the user turn and the cue are appended before the request, which carries the whole prompt; without the end token the stripped completion follows after a space |
| `LegacyOpenAI.RespondEndsIffToken` | openai_chatbot.py:38-46 | the session ends exactly when the end token occurs, and the reply is then the stripped text before its first occurrence |
| `LegacyOpenAI.RespondAfterEndStartsBlank` | openai_chatbot.py:28-36 | after the session has ended, a response starts a transcript without the initial prompt |
| `LegacyOpenAI.OpenAIChatbot.constructor` | openai_chatbot.py:5-22 | a new chatbot counts as ended, and its stop list is each name followed by a colon |
| `LegacyOpenAI.OpenAIChatbot.StartSession` | openai_chatbot.py:24-26 | the object's new prompt and result are `Start` |
| `LegacyOpenAI.OpenAIChatbot.SendResponse` | openai_chatbot.py:28-48 | the object's new state and result are `Respond` |
| `Session.StopList` | app/chatbot.py:29 | the stop list is each name followed by a colon, in names order |
| `Session.CutAtFirstOccurrence` | chatbot.py:67-72 | the end-token cut happens exactly when the token occurs, and keeps the stripped text before its first occurrence |
| `PyStr.StripIsSlice` | app/chatbot.py:76 | `strip` keeps the slice surrounded only by whitespace that neither starts nor ends with whitespace |
| `PyStr.StripIdempotent` | app/chatbot.py:82 | stripping a stripped text changes nothing |
| `PyStr.Find` | app/chatbot.py:80 | `find` returns the lowest index where the token occurs, or -1 when it does not occur |
| `PyStr.NatToString` | app/horace_chatbot.py:144 | `str` of a number is a non-empty string of decimal digits |
| `PyStr.PyRepr` | router.py:35 | `repr` of a string is enclosed in the same quote character at both ends |
| `PyStr.ReprVerbatim` | router.py:35 | text without quotes, backslashes or unprintable characters is written as it is, between single quotes |
| `PyStr.ReprPrintable` | router.py:35 | no character of a `repr` is unprintable: control, separator and format characters are escaped |
| `PyStr.ReprEscapesLineSeparator` | app/horace_chatbot.py:107 | the line separator U+2028 is written as `\u2028` |
| `Json.PutGet` | router.py:20 | after `d[k] = v`, `k` maps to `v`, every other key keeps its value, and an existing key keeps its place |
| `Json.Loads` | router.py:33 | `json.loads` refuses empty text and a leading byte-order mark |
| `Json.LoadsAcceptsOneValue` | router.py:33 | `json.loads` accepts exactly a text that, after JSON whitespace, decodes one value followed only by JSON whitespace, and gives that value |
| `Json.PyIn` | app/router.py:124 | `key in d` for a dict is key membership, and only dicts, lists and strings support `in` |
| `Json.Subscript` | router.py:46-48 | `d[key]` is the value for a present key, a KeyError with the key's repr for a missing one, and an error for a non-dict |

## Left out

- Network and file I/O: fetching manifests and specs, the `.plugin_auth.json` file, and the token prompt. These are the parameters of `AppRouter.Environment`, and the saved auth entries are a parameter of the constructor.
- The HTTP transport (`Router.send`) is an abstract function that gives the status and body, or the text of what it raised. That text propagates, because line 140 of app/horace_chatbot.py lies outside the `try`.
- `openapi_core` validation is an abstract validator, and its `Spec.create` is an abstract acceptance predicate. `requests.Request` is modelled only as its keyword check.
- JSON parsing is an abstract `raw_decode`. Numbers with a fraction or an exponent are not modelled. YAML parsing is an abstract function.
- Async execution is not modelled: every await is a sequential call, callbacks are an event log, and there are no concurrent sessions.
- Logging and `debug` output are left out, except the debug-mode utterance callbacks of app/horace_chatbot.py.
- Temperatures are passed through untouched, as opaque tags.
- The knowledge base and the `score > 0.4` answer of `look_up` (grace_chatbot.py:52-55) are not modelled. `look_up`'s answer is an abstract function.
- LegacyGrace: the GRACE prompt template and its formatting from the domain dict (grace_chatbot.py:57-71) are not modelled. The initial prompt is a parameter of `NewGraceChatbot`.
- LegacyGrace: the class is built on `chatbot.py`'s Chatbot, not on `openai_chatbot.py`'s. The constructor of lines 73-77 passes arguments that `OpenAIChatbot.__init__` does not take, so the code as written cannot run. Its reply cycle needs `chatbot.py`'s API.
- LegacyGrace: a command found after the session ended is still invoked (line 101 runs before the check at line 107). Whatever the registered function does then is not recorded.
- LegacyHorace: plugins are given as their description and spec text (`PluginText`). The `KeyError` for a registry entry without `manifest` or `spec_yaml` is not modelled.
- LegacyHorace: the `router.call` method that horace_chatbot.py expects does not exist in router.py. The model takes the router's answer as a parameter, and `RouterWithoutCall` gives the AttributeError the code would actually get.
- PyStr.PyRepr: the Unicode database is not modelled. The escaped characters are the C0 and C1 controls and the separator, format, private-use and noncharacter ranges listed in `Unprintable`; other unassigned or format code points are written as they are, where `repr` would escape them.
- AppRouter: a manifest without `auth.type` or `name_for_human` raises KeyError outside any `try` (app/router.py:48 and 60), and so does a saved auth entry without `type` (line 53). That aborts the constructor, and the typed `Manifest` cannot express it. A manifest without `api.url` fails inside the `try` at line 64 and is skipped like a spec that cannot be fetched (`spec` is none).
- AppHorace: `prepare` and the decoder are function values bound by the constructor (`Router.boundPrepare`). In-place mutation of the caller's `request_params` dict is not observable afterwards, so it is not modelled.
- CommandRouter: registered Python functions are abstract: their name, parameter names, rendered signature and call result. The TypeError text for a keyword argument the function does not take is part of that call result.
- The private helpers of the older chatbots (`_get_next_utterance`, `_get_all_utterances`) require an active session. In the source they are only called while one lasts.
- The chatbot constructors of horace_chatbot.py and grace_chatbot.py are split into a factory method (`NewHoraceChatbot`, `NewGraceChatbot`) and a constructor that wires the parts together. The factory methods carry the constructor's contract.
- `LegacyHorace.Template` and `AppHorace.FormatTemplate`: the template texts are written out. Beyond where the template sits in the prompt, no property of the text is proved.
- AppChatbot: the end-token path of app/chatbot.py:79-83 is modelled as written. The assignment to the read-only `state` property raises AttributeError, so no transition to `ended` is claimed. The app's Horace chatbot passes no end token, so it never takes that path.
- `AppHorace.Step`, `AppHorace.RetryFrom`, `AppHorace.PluginBlocks` and `LegacyHorace.PluginBlocks` carry only bounds in their own contracts; `AppHorace.StepRecords`, `AppHorace.RetryBudget`, `AppHorace.RenderPluginBlocks` and `LegacyHorace.BuildInitialPrompt` state their behaviour.

## Findings

| source | as written | input that shows it | evidently intended | confidence | as-written member | corrected member |
|---|---|---|---|---|---|---|
| app/horace_chatbot.py:140 | The result of the coroutine function `send` is unpacked into status and text without being awaited, which raises TypeError. | Any prepared call, e.g. one whose response is status 200 with body `OK` | Await `send`, then report the status (and the body for a 2xx status) as the `System` turn | high; not executed | `AppHorace.ReportAsWritten`, used by the cycle when `awaitSend` is false (exhibited by `AppHorace.UnawaitedSendLosesResponse`, `AppHorace.CycleWithCallAsWritten` and `AppHorace.RoundWithCallAsWritten`) | `AppHorace.Report`, used when `awaitSend` is true, as the class does (`AppHorace.CycleWithCall`) |
