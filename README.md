# Participant-session state machine of the persuasion chatbot

This project models one participant's session in the chatbot, which is a single Streamlit script (`streamlit_app.py`). The script keeps its state in `st.session_state` in eight fields: three flags, three other fields that are read, and two inert ones (see Left out):

- the flags `user_data_collected`, `prompt_selected` and `greeting_sent`;
- `user_info` (the participant form);
- `selected_prompt_key` (a key of the topic catalogue `PROMPTS`);
- `messages`, an append-only list of `{role, content}` entries.

The two flags `user_data_collected` and `prompt_selected` decide which of three screens is shown: the participant form, the topic choice, or the chat. On the chat screen the script does three things:

- it sends a one-time opening greeting;
- it takes user turns;
- it offers a "Change Topic" reset.

After every exchange it appends one seven-field row to a results sheet.

The model has two layers:

- `SessionModel` holds the state as a value. It has one step function per user action, the invariant `Inv` that every step keeps, and lemmas about whole sequences of actions (`Run`).
- `SessionState` holds the same fields as a class, `Session`, plus the sheet as a class, `Sheet`, whose rows only grow. Each method updates its fields in place. An `ensures` ties each method to the step function for its action.

`Conversation` builds the message lists sent to the language model and gives the shape of a transcript. `Catalog` holds the keys and titles of `PROMPTS`.

Outside inputs become parameters:

- The language model is an oracle. A completion result is `Option<string>`, and `None` stands for a call that raised.
- A failed sheet append is the flag `stored`.
- `json.dumps` is a function parameter, `dumps`.
- The clock's formatted time is a string parameter, `now`.

Each user action is one atomic method call. The greeting is not a user action in the script: every run of the chat screen attempts it while `greeting_sent` is false (line 568). The `Greet` action and the `SendGreeting` method stand for that automatic attempt. Because `Greet` is a separate action, a sequence of actions may also select a topic and press "Change Topic" with no greeting attempt in between; the invariants hold either way. An action whose widget is not on the current screen does nothing. Two actions have extra guards:

- A topic key outside the catalogue has no button, so selecting it does nothing.
- At the chat input (line 589), an empty string is falsy and is not a turn.

`SessionState` also holds two client methods, `FormWalkthrough` and `ChatWalkthrough`. They are concrete walkthroughs of the class: one participant through the form and the topic screen, and through a greeting, one exchange with its row, and "Change Topic".

The chat screen first looks up `PROMPTS[selected_prompt_key]` (line 544) and `user_info['name']` (line 548). The model's chat actions are guarded by `ChatLoads`, which says both lookups succeed. If either failed, the script would raise before it changed anything. `ChatScreenLoads` proves that they always succeed in the states the invariant admits.

A failed completion call does not take back the user message. The message was appended at line 591, before the call at line 601, and the exception is caught at line 634. `RetryAfterFailureRepeatsUserTurn` shows that a retry then stores the same user text twice and the transcript stops alternating.

## Model

| member | source | states |
|---|---|---|
| Catalog.CatalogKeys | streamlit_app.py:197-450 | the topic catalogue has exactly the keys "1" to "6", each with a non-empty title |
| Conversation.BuildRequest | streamlit_app.py:596-599 | the chat request has one more entry than the history; entry 0 is the system message carrying the topic's prompt; entry i+1 is the role and content of stored message i; since a message has only those two fields, the request is the system message followed by the history itself |
| Conversation.BuildRequestAppend | streamlit_app.py:591-599 | appending a message to the history appends exactly that message to the request, so the whole history is resent in order, never truncated |
| Conversation.CleanExchange | streamlit_app.py:591-611 | one user-then-assistant exchange keeps an odd-length alternating transcript odd and alternating |
| SessionModel.PhaseOf | streamlit_app.py:486-541 | the form screen is shown iff user data is not collected; the topic screen iff it is collected and no prompt is selected; the chat screen iff both flags are set |
| SessionModel.ChatScreenLoads | streamlit_app.py:541-548 | on the chat screen of any state satisfying the invariant, `user_info` is set and the selected key is a catalogue key, so the lookups `PROMPTS[key]` and `user_info['name']` succeed |
| SessionModel.StepPreservesInv | streamlit_app.py:468-611 | every action keeps the invariant: `prompt_selected` implies `user_data_collected`; `user_info` is set iff the data are collected, and its fields are then filled; a stored key is a catalogue key; the greeting flag implies a selected prompt and holds iff messages are non-empty; the transcript opens with the assistant and every later reply follows a user message |
| SessionModel.RunPreservesInv | streamlit_app.py:468-623 | any sequence of actions from a state that satisfies the invariant ends in a state that satisfies it |
| SessionModel.ReachableInv | streamlit_app.py:468-483 | every state reachable from the script's initial values satisfies the invariant, and its chat screen finds its topic in the catalogue |
| SessionModel.RowsAppendOnly | streamlit_app.py:613-623 | the rows of `p` then `q` are the rows of `p` followed by those of `q`: a later action never changes an earlier row (this holds of any step function folded over actions) |
| SessionModel.RowsCount | streamlit_app.py:589-623 | a run writes exactly one row per enabled turn whose reply arrived and whose append succeeded, and none for any other action; hence no more rows than such turns |
| SessionModel.IdentityIsPermanent | streamlit_app.py:486-557 | once user data is collected, no action sets `user_data_collected` back to false or changes `user_info` |
| SessionModel.SuccessfulTurnsAlternate | streamlit_app.py:568-611 | if every turn succeeds, the transcript is empty or has odd length, opens with the assistant and alternates assistant and user |
| SessionModel.RowsAreGood | streamlit_app.py:613-623 | every row written has the filled form fields, a catalogue key with that entry's title, and a transcript of at least three messages that ends with a user message then an assistant reply |
| SessionModel.SubmitSpec | streamlit_app.py:498-509 | the form advances iff name, surname and birthplace are all non-empty; it then records exactly those values and the start date and shows the topic screen; otherwise the state is unchanged |
| SessionModel.SelectSpec | streamlit_app.py:527-538 | picking a catalogue key stores that key and sets `prompt_selected`, and nothing else changes; the chat screen then shows that entry |
| SessionModel.GreetOnce | streamlit_app.py:568-581 | the greeting fires only while `greeting_sent` is false; a successful greeting stores exactly one assistant message and no seed turn; a second greeting changes nothing |
| SessionModel.SaySpec | streamlit_app.py:589-611 | a turn keeps every earlier message and appends the user text. On success it also appends the reply, two entries in all. On a failed completion only the user message stays and no row is written. Nothing outside `messages` changes. A row is written iff the reply arrived and the sheet append succeeded |
| SessionModel.SayRow | streamlit_app.py:613-623 | the row after a successful exchange is name, surname, birthplace, prompt key, topic title, the whole transcript including the new exchange, and the time |
| SessionModel.RetryAfterFailureRepeatsUserTurn | streamlit_app.py:589-639 | after a failed completion, retrying the same text stores the user message twice before the reply, and the transcript no longer alternates |
| SessionModel.ChangeTopicSpec | streamlit_app.py:553-557 | "Change Topic" clears `prompt_selected`, `greeting_sent` and `messages`; it leaves `user_data_collected`, `user_info`, the selected key and the inert fields untouched; the topic screen is shown again |
| SessionState.Sheet.AppendRow | streamlit_app.py:615-623 | the sheet gains exactly the given row at its end |
| SessionState.Session.constructor | streamlit_app.py:468-483 | the fields start with the script's defaults, and the invariant holds |
| SessionState.Session.SubmitForm | streamlit_app.py:498-509 | accepted iff on the form screen with all three fields non-empty; on acceptance only `user_info` and `user_data_collected` change; otherwise nothing changes |
| SessionState.Session.SelectTopic | streamlit_app.py:527-538 | accepted iff on the topic screen with a catalogue key; then only the key and `prompt_selected` change |
| SessionState.Session.SendGreeting | streamlit_app.py:568-581 | a request is sent iff on the chat screen with `greeting_sent` false. The request is exactly the system prompt then the seed "Start the conversation". On success exactly one assistant message is appended and `greeting_sent` is set. On failure nothing changes |
| SessionState.Session.Turn | streamlit_app.py:589-623 | a request is sent iff on the chat screen after the greeting with non-empty text. It is the system message followed by the history with the new user message. Messages grow by the user message, then by the reply if one arrived. The sheet gains one seven-cell row iff the reply arrived and the append succeeded |
| SessionState.Session.ChangeTopic | streamlit_app.py:553-557 | accepted iff on the chat screen; it then resets the two flags and the transcript and nothing else |

## Left out

- CSS, the Markdown and HTML rendering, chat bubbles and the streamed display are presentation only. This includes each topic's description, which appears only in the topic cards.
- The texts of the six system prompts are not reproduced. Each catalogue entry carries a placeholder for its text, because only the keys, the titles and the existence of a prompt per key matter here.
- Secrets loading, Google credentials, gspread authorisation and opening the sheet are I/O done through foreign libraries. The sheet is modelled only as an append-only sequence of rows.
- The OpenAI client and its completion and streaming calls are foreign. A reply is an opaque string, or `None` when the call raised.
- `json.dumps` and `datetime.now().strftime` are treated as uninterpreted: the first is the parameter `dumps`, the second the string `now`. The transcript cell is not shown to round-trip, because the serialiser is not visible.
- Streamlit's rerun model (`st.rerun`, widget state across runs) is not modelled. Each user action is one atomic call.
- The error banners for `KeyError` and other exceptions are rendering. The model keeps only their effect on the state, which is that whatever ran before the exception stays.
- `conversation_phase` and `initial_score` are kept as inert fields. They are written but never read.
