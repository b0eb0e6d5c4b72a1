# Health reflection chat session, modelled in Dafny

`healthapp.py` is a Streamlit page. It forwards what the user types to a hosted chat-completion service and shows the reply. A button asks the same service to summarize the conversation for a doctor. The logic under the UI calls is a small conversation session, and this project models it:

- **The message log** (`st.session_state.messages`). It is seeded once with an assistant greeting. After that it only grows: a user turn, then, if the call succeeds, an assistant turn.
- **Request assembly in `generate_reply`.** The message list is the system instruction, then a copy of every stored turn, then the user message. The submit path appends the user turn before it calls `generate_reply`, so the newest input goes out twice. The model states this as written.
- **The transcript** (`conversation_text`). Each turn becomes `"You: …\n"` for a user turn or `"Assistant: …\n"` for any other role. The lines are joined in log order.
- **The summary button.** With fewer than two turns it only warns and calls nothing. Otherwise it makes one call of two turns: a system turn, then a user turn whose prompt embeds the transcript. The log is never touched.

The completion service is the parameter `complete: ChatRequest -> Completion`. A `Completion` is either the reply text or a failure (`ApiError`). `Submit`, `Summarize` and `RunScript` also return `sent`, the list of requests they made, so "no call" is `sent == []`. `GenerateReply` returns the one request it made and the service's answer to it. The API key is the parameter `apiKey: Option<string>` of `RunScript`.

Modules:
- `Turns` (`turns.dfy`): roles, turns, requests, completions, constants, and `BuildChatRequest`.
- `Transcript` (`transcript.dfy`): the transcript, a reader that recovers a log from its transcript, the summary prompt and the summary request.
- `HealthApp` (`session.dfy`): the log-evolution functions, the `ChatSession` class over the session store, and `RunScript`, which is one rerun of the page script.

Two consequences of the code worth stating plainly:
- **The newest user turn is sent twice.** The first submit of a fresh session sends [system, greeting, user(u), user(u)] (`FirstExchange`, `SubmitRequestRepeatsInput`).
- **A failed call leaves its user turn in the log.** So the log length is 1 + 2 × successes + failures (`ReplayGrowth`, `ChatSession.Valid`). The length 1 + 2 × successes holds only when no call failed (`SessionLength`).

## Model

| member | source | states |
|---|---|---|
| Turns.BuildChatRequest | healthapp.py:104-111 | The request has length \|log\| + 2. Turn 0 is the system instruction. Turns 1..\|log\| are the stored turns, each at its own position. The last turn is `user(userMessage)`. |
| Turns.ChatRequestSingleSystemTurn | healthapp.py:104-111 | If the log holds no system turn, the request holds exactly one system turn, at position 0. |
| Turns.ChatRequestCarriesLog | healthapp.py:106-108 | The request with its first and last turns dropped equals the stored log: same turns, same order, nothing cut. |
| Turns.SubmitRequestRepeatsInput | healthapp.py:131-140 | When the log already ends with `user(u)`, the request has \|log\| + 3 turns. Its last two turns are both `user(u)`, and the earlier log sits unchanged in positions 1..\|log\|. |
| Transcript.ConversationTextAppend | healthapp.py:159-162 | The transcript of `a + b` is the transcript of `a` followed by the transcript of `b`. |
| Transcript.ConversationTextCons | healthapp.py:159-162 | The transcript of a log is the first turn's line followed by the transcript of the remaining turns. |
| Transcript.TranscriptLineAt | healthapp.py:159-162 | For every log and every index i, turn i's line appears in the transcript directly after the lines of turns 0..i-1. |
| Transcript.TranscriptAmbiguousWithLineBreaks | healthapp.py:161-162 | Two different logs can give the same transcript when a content contains a line break that imitates a label. |
| Transcript.ConversationTextRoundTrip | healthapp.py:159-162 | If the log has no system turns and no content contains a line break, reading the transcript back gives exactly the log. So each line carries one turn's speaker and content, in order. |
| Transcript.SummaryPrompt | healthapp.py:164-178 | The prompt contains the transcript unchanged at a fixed offset, between a fixed head and a fixed tail. |
| Transcript.SummaryCallCarriesLog | healthapp.py:181-194 | The summary request has exactly two turns, system then user, at the summary temperature. Under the same conditions as the round trip, the log can be read back from the user turn's prompt. |
| HealthApp.AfterSubmit | healthapp.py:131-143 | The old log is an unchanged prefix of the new one. Empty input adds nothing. A successful call adds `user(input)` then `assistant(reply)`. A failed call adds only `user(input)`. |
| HealthApp.AfterSubmitWellFormed | healthapp.py:131-143 | Submitting keeps the log well-formed: greeting first, no system turn, and every later assistant turn straight after a user turn. |
| HealthApp.ReplayGrowth | healthapp.py:131-143 | After any sequence of interactions, the log has grown by 2 per success and 1 per failure. The turns that were already there are unchanged. |
| HealthApp.ReplayWellFormed | healthapp.py:82-143 | Every log reachable from a well-formed log by interactions is well-formed. In particular it never contains a system turn. |
| HealthApp.SessionLength | healthapp.py:84-143 | Starting from the greeting, with no failed call, the log has 1 + 2 × (successful submits) turns. |
| HealthApp.FirstExchange | healthapp.py:82-143 | The first submit of a fresh session sends [system, greeting, user(u), user(u)]. On success the log becomes [greeting, user(u), assistant(reply)]. |
| HealthApp.ChatSession.constructor | healthapp.py:82 | A new session store holds no message log. |
| HealthApp.ChatSession.Seed | healthapp.py:82-94 | With no log, the log becomes exactly the assistant greeting. An existing log is left unchanged, so seeding again does nothing. |
| HealthApp.ChatSession.BuildApiMessages | healthapp.py:104-111 | The loop builds exactly `BuildChatRequest(SystemPrompt, log, userMessage)`. |
| HealthApp.ChatSession.GenerateReply | healthapp.py:98-119 | One call, at the chat temperature and with the model name. Its messages are the log framed by the system turn and `user(userMessage)`. The result is the service's answer to that request. |
| HealthApp.ChatSession.Submit | healthapp.py:131-143 | Empty input: no call, log unchanged. Otherwise exactly one call, built with the new user turn already in the log. The new log is `AfterSubmit` of the old one and the service's answer. On failure the user turn stays and no assistant turn is added. It keeps `Valid()`: log well-formed, and length 1 + 2 × successes + failures. |
| HealthApp.ChatSession.RenderConversationText | healthapp.py:159-162 | The accumulating loop produces exactly `ConversationText(log)`. |
| HealthApp.ChatSession.Summarize | healthapp.py:155-195 | With fewer than 2 turns: a warning and no call. Otherwise exactly one request, `SummaryCall(log)`, and the outcome is the service's answer. It has no modifies clause, so the log is unchanged in every case. |
| HealthApp.RunScript | healthapp.py:31-195 | A missing or empty key stops the rerun with no call and no change. Otherwise the log is seeded if absent and then goes through one submit. The chat outcome is the service's answer to the submit request (or no input). A summary is produced only if the button was pressed and the chat call did not fail, and it is the service's answer to the summary request for the new log (or the warning). `sent` lists exactly the calls made. |

## Left out

- Page layout, sidebar, chat bubbles, spinner, captions, text area and warning text are UI only. The model keeps only the outcome values they display.
- `load_dotenv` and the environment lookup are left out. The key is a parameter of `RunScript`. `st.stop()` is the `MissingKey` result.
- The OpenAI client is a foreign network call. It is the `complete` parameter, so a call either returns a reply or fails with an `ApiError`.
- `.strip()` on replies is left out, because it depends on Python's Unicode whitespace rules. A `Reply` carries the text already stripped.
- A reply whose content is `None` (then `.strip()` raises) is not distinguished from other failures.
- The wording of the chat system prompt, the greeting and the summary prompt is configuration text. These are stand-in constants. The model keeps only their roles, their positions, and the fact that the summary prompt embeds the transcript unchanged.
- The temperatures 0.4 and 0.3 are kept as hundredths (40 and 30), as opaque constants.
- Once the script has run, every later step assumes the log exists: `Submit`, `Summarize` and the other methods require `messages.Some?`. `RunScript` always seeds before calling them.
- Transcript.ConversationTextRoundTrip: holds only for contents without line breaks. The real greeting contains line breaks. `TranscriptAmbiguousWithLineBreaks` shows that no reader can recover every log.
- Transcript.SummaryCallCarriesLog: reading the log back from the prompt holds only under the same single-line condition as the round trip, which the real greeting does not meet. The unconditional fact that the prompt embeds the transcript unchanged is `SummaryPrompt`'s contract.
