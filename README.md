# Chat session state machine of the Groq chat assistant

This project is a Dafny model of the one piece of logic in the Streamlit chat
client `main.py`: the per-session chat state. It also proves properties of that model.
The session keeps three entries:
- `messages`: an ordered list of `{role, content}` records;
- `conversation_count`: the number shown as "Messages";
- `total_tokens`: initialised and never changed.

Four handlers act on this state:
- initialisation on the first run;
- the Clear button;
- the Send button, guarded by `send_button and user_input`;
- the four quick-prompt buttons.

Each of Send and the quick prompts runs the same lifecycle. It appends the user record and increments the counter. It then builds one request whose message list is the role/content projection of the whole history, plus the selected model, temperature and max tokens. It calls the completion API once. If the call returns a first choice, the lifecycle appends an assistant record with that choice's content and increments the counter again. If the call raises, or there is no first choice, it shows an error and appends nothing more.

Modules:
- `Transcript` (transcript.dfy): records, roles, and the payload projection. It also has the inverse of the projection, used to prove that nothing is lost.
- `Completion` (completion.dfy): request parameters, the request, and the result of the foreign call as a value `Raised | Returned(choices)`. Extracting `choices[0].message.content` fails on an empty choice list.
- `Orchestrator` (orchestrator.dfy): the state machine on values. Each handler is a function from the old state to the new state plus a report (`NotSent`, `Answered(request)` or `Failed(request)`). It also defines the quick-prompt loop of one script run and runs over sequences of button presses.
- `SessionState` (session.dfy): the class `ChatSession`. Its fields `messages`, `conversationCount` and `totalTokens` are updated in place. Every method is proved to produce exactly the state and report that the `Orchestrator` function gives. `QuickPromptBar` is the `for` loop over the buttons. The loop stops when a call is answered, because `st.rerun()` ends the script run there.

Two behaviours of the code are worth stating outright:
- **Whitespace-only input is sent.** The guard at main.py:282 uses Python truthiness, so only the empty string is skipped. `Submit` states this as an if-and-only-if.
- **A failed call keeps the user record.** A resend therefore puts the text into the next request twice (`RetryRepeatsPrompt`).

## Model

| member | source | states |
|---|---|---|
| Transcript.RoleName | main.py:284-305 | the role strings "user" and "assistant" read back as the role they name, so the two roles never share a string |
| Transcript.Project | main.py:292-295 | one payload entry copies the record's content and its role, nothing else |
| Transcript.Payload | main.py:292-295 | the payload has one entry per history record, and entry i is the projection of record i |
| Transcript.PayloadRoundTrip | main.py:292-295 | reading the payload back gives exactly the history, so the projection loses nothing and keeps the order |
| Transcript.PayloadInjective | main.py:292-295 | two different histories never produce the same payload |
| Transcript.PayloadAppend | main.py:284-295 | appending a record appends its projection to the payload and leaves the earlier entries unchanged |
| Completion.BuildRequest | main.py:291-299 | the request's message list reads back as the whole history, and model, temperature and max_tokens are passed through exactly as selected |
| Completion.FirstChoiceContent | main.py:302 | a content is extracted if and only if the call returned at least one choice, and it is the first choice's content; a raised call or an empty choice list gives none |
| Orchestrator.Initial | main.py:156-161 | a new session has an empty history, a zero counter equal to the history length, and zero total_tokens |
| Orchestrator.Cleared | main.py:230-232 | after Clear the history is empty and the counter is 0 whatever the prior size; total_tokens is kept |
| Orchestrator.Exchange | main.py:284-312 | a request is always issued, over the old history plus the user record; the call is answered iff a first choice exists; on an answer the history gains the user and assistant records and the counter rises by 2; on failure it gains only the user record and the counter rises by 1; total_tokens is kept and counter == length is preserved |
| Orchestrator.Submit | main.py:282-312 | the send handler issues nothing and leaves the state unchanged if and only if the button is not pressed or the text is the empty string; otherwise it is the exchange for that text |
| Orchestrator.QuickPromptsNonEmpty | main.py:318-323 | there are exactly four canned prompts and none is empty |
| Orchestrator.QuickPrompt | main.py:326-350 | quick prompt i behaves exactly as a Send of the i-th canned text |
| Orchestrator.QuickBarKeeps | main.py:326-350 | for any pressed buttons and replies, the quick-prompt loop keeps total_tokens, preserves counter == length, only appends to the history, issues a call for every report, and only the last report can be answered (st.rerun at main.py:347 ends the run) |
| Orchestrator.QuickBarIdle | main.py:326-328 | buttons that are not pressed change no state and issue no request |
| Orchestrator.QuickBarSkip | main.py:326-328 | the loop skips unpressed buttons without effect |
| Orchestrator.QuickBarSingleClick | main.py:326-350 | when only button i is pressed, the loop over the buttons is exactly quick prompt i |
| Orchestrator.RunKeepsCounters | main.py:156-161 | over any sequence of presses, Clear included, the counter stays equal to the history length and total_tokens never changes |
| Orchestrator.RunAppendsOnly | main.py:282-350 | without Clear the old history is kept as a prefix, and the counter and the length each rise by 2 per answered call plus 1 per failed call |
| Orchestrator.CountFromInitial | main.py:156-161 | from a fresh session without Clear, counter == history length == 2 × answered calls + failed calls |
| Orchestrator.RetryRepeatsPrompt | main.py:284-312 | after a failed send, sending the same text again puts the user entry twice at the end of the next request |
| Orchestrator.SentPayloadEndsWithPrompt | main.py:284-295 | the request of a send is the projection of the earlier history followed by the user entry just appended |
| SessionState.ChatSession.constructor | main.py:156-161 | the fields start as the initial session, with counter == length |
| SessionState.ChatSession.Clear | main.py:230-232 | the fields become the cleared session: empty history, zero counter, total_tokens unchanged |
| SessionState.ChatSession.Exchange | main.py:284-312 | the in-place appends and increments give exactly the state and report of the exchange, and they keep counter == length |
| SessionState.ChatSession.Send | main.py:282-312 | the new fields and report are exactly those of the send handler for the given button state and text |
| SessionState.ChatSession.QuickPrompt | main.py:326-350 | the new fields and report are exactly those of quick prompt i |
| SessionState.ChatSession.QuickPromptBar | main.py:326-350 | the for loop over the four buttons, with its stop on an answered call, ends in the state and reports of the loop specification |

## Left out

- Styling, HTML rendering, page layout, the sidebar statistics display and the spinner are presentation only.
- Streamlit widgets are not modelled. Button presses, the input text and the slider and selectbox values are method parameters.
- Slider ranges (temperature 0 to 2 in steps of 0.1, max tokens 100 to 4000 in steps of 100) are enforced by the widgets, not by this code. The list of three model identifiers is also widget configuration. No contract relies on any of them.
- Completion.Params: temperature is a float in the source. Here it is a `real` that is only passed through; no floating-point behaviour is modelled.
- The Groq client call is a foreign network call. It is modelled as a caller-supplied `CallResult`. The reply is therefore not tied to the request's content, timing or retries.
- Completion.FirstChoiceContent: the content of a choice is a string here. The case of a choice whose content is `None`, which the source would append as-is, is not modelled.
- The API-key lookup, `load_dotenv` and the fatal `st.stop()` at startup are environment I/O. The model assumes a client exists.
- The error text shown on failure is presentation. Only the fact that an error is reported (`Failed`) is modelled.
- A success in Send calls `st.rerun()`, which ends that script run before the quick-prompt section. Each Send is modelled as its own event, because Streamlit reports at most one pressed button per run. Interleaving Send with quick prompts within a single run is not modelled.
- At most one request in flight, and isolation between sessions, come from Streamlit's rerun model. They are concurrency and are not modelled.
