# CrewAI Debugger session logic in Dafny

The CrewAI Debugger is a Streamlit page. A developer uploads the files of a
CrewAI project: `agents.yaml`, `tasks.yaml`, `crew.py` and `main.py`, plus an
optional `tools.py` and an optional error log. A language model analyses them,
and the developer can then keep chatting with it. Almost all of `app.py` is
page layout. This project models the session logic inside it:

- **Context assembly** (`Context.dfy`). `build_conversation_context` renders the
  stored files and the error log into the text that opens the first request:
  - a fixed header comes first;
  - then one fenced section per uploaded file, in the fixed order agents,
    tasks, tools, crew, main;
  - then the error log, in a fence with no language tag, only when the log is
    not blank.

  `BuildContext` is the specification function. `PresentSlots` and `Concat`
  give an independent description of the layout, and the lemmas tie the two
  together.
- **Conversation log and export** (`Conversation.dfy`). The history holds
  role, content and timestamp. The role/content messages of a follow-up request
  are rebuilt from it, and the Markdown transcript has one
  `**ROLE** (timestamp):` block per turn.
- **Generation client** (`Client.dfy`). The API is an oracle `api: nat -> Outcome`
  that gives the outcome of attempt 0, 1 and 2. `Classify` is the except-clauses
  of one attempt. `Attempts` and `Send` state the whole retry policy as
  functions:
  - at most three attempts;
  - a warning before each retry;
  - authentication and rate-limit failures stop at once;
  - a missing API key stops before any call.
- **Session controller** (`Session.dfy`). A `Session` class holds the five
  `st.session_state` fields. Its methods are:
  - `Start`: the Start Debugging Session button;
  - `SendMessage`: `send_message`, a `while` loop proved against `Client.Send`
    that appends to the history in place;
  - `InitialAnalysis`: the automatic first analysis;
  - `SendFollowUp`: the message form;
  - `NewSession`: the reset;
  - `ExportChat`: the Export Chat button.

`Text.dfy` holds the Python string operations the code relies on: `str.isspace`,
`strip()`, the substring test `in` and `upper()`.

Some values come from outside the session and are parameters of `Env`:
- whether an API key is configured;
- the outcome of each API attempt;
- the two timestamps.

## Model

| member | source | states |
|---|---|---|
| Text.IsSpace | app.py:135 | The definition of Python's white space: the characters `str.isspace` accepts. `Text.StripEmptyIffBlank` and `Text.HasText` carry its use. |
| Text.Strip | app.py:135 | The definition of `strip()` as `TrimRight` after `TrimLeft`. Its properties are in `Text.TrimLeft`, `Text.TrimRight` and `Text.StripEmptyIffBlank`. |
| Text.TrimLeft | app.py:135 | The result is a suffix of the input, the dropped prefix is all white space, and the result does not start with white space. |
| Text.TrimRight | app.py:135 | The result is a prefix of the input, the dropped suffix is all white space, and the result does not end with white space. |
| Text.StripEmptyIffBlank | app.py:135 | `s.strip()` is empty exactly when every character of `s` is white space. |
| Text.HasText | app.py:471 | The truth value of `s.strip()` is true exactly when `s` holds a character other than white space. |
| Text.Upper | app.py:409 | `upper()` keeps the length and upper-cases each character. |
| Text.Contains | app.py:303-306 | The definition of the substring test `sub in s`, as an occurrence at some index. `Client.ClassifyFatal` and `Client.EmptyReplyRetried` state how the exception tests use it. |
| Context.BuildContext | app.py:120-138 | The defining function of the context: header, the sections of the uploaded files, then the log part. Its properties are in `Context.ContextLayout`, `Context.LogSectionIffNotBlank`, `Context.OtherKeysIgnored` and `Context.MandatoryOnlyContext`, and `Session.Session.BuildConversationContext` is proved against it. |
| Context.SectionsBySlot | app.py:124-133 | The sections are the agents, tasks, tools, crew and main contributions, concatenated in that order. |
| Context.PresentMembers | app.py:124-133 | Filtering keeps exactly the slots whose key is in the files map. |
| Context.PresentInOrder | app.py:124-133 | Filtering a list in slot order yields a list in slot order. |
| Context.PresentSlots | app.py:124-133 | The slots that get a section are exactly the uploaded ones, each once, in the order agents, tasks, tools, crew, main. |
| Context.SectionsArePresentConcat | app.py:124-133 | The sections equal the concatenated sections of the present slots, so an absent key leaves no placeholder. |
| Context.ContextLayout | app.py:120-138 | The context is the header, then one section per uploaded slot in the fixed order, then the log part. It always starts with the header. |
| Context.LogSectionIffNotBlank | app.py:135-136 | When `error_log.strip()` is non-empty, the log section is appended after everything else. When it is empty, the log leaves no trace. |
| Context.SlotFiles | app.py:124-133 | The restriction of a files map to the five slot keys keeps every slot key and its content. |
| Context.SectionsOnlyReadSlotKeys | app.py:124-133 | The sections depend only on the five slot keys of the map. |
| Context.OtherKeysIgnored | app.py:120-138 | Keys other than the five slot keys never change the context. |
| Context.MandatoryOnlyContext | app.py:120-138 | Four mandatory files, no tools.py and a blank log give exactly the header and four sections, in order. An empty file still gets its section. |
| Conversation.ToMessages | app.py:215-219 | The history is copied as role/content pairs: same length, same role and content at every index. |
| Conversation.ExchangeKeepsAlternating | app.py:261-270 | Appending a user turn and then an assistant turn keeps the history an alternation of user and assistant turns that starts with a user turn. |
| Conversation.RoleLabel | app.py:409 | The role heading is "USER" or "ASSISTANT". |
| Conversation.Block | app.py:409-411 | The defining function of one transcript block: role heading, timestamp, content and the separator. `Conversation.RoleLabel` and `Conversation.ExportExchange` carry its properties. |
| Conversation.Export | app.py:407-411 | The defining function of the transcript: the blocks of the turns, in history order. Its properties are in `Conversation.ExportAppend`, `Conversation.ExportAt` and `Conversation.ExportAfterExchange`. |
| Conversation.ExportAppend | app.py:407-411 | The transcript of two histories joined is the two transcripts joined. |
| Conversation.ExportExchange | app.py:407-411 | A single exchange exports as a USER block followed by an ASSISTANT block. |
| Conversation.ExportAfterExchange | app.py:407-411 | A successful exchange adds exactly its two blocks to the end of the transcript. |
| Conversation.ExportAt | app.py:407-411 | The turn at position k gives the k-th block, between the transcript of the turns before it and that of the turns after it. |
| Client.RequestMessages | app.py:207-220 | The defining function of the request messages: the context, a newline and the message for an initial request, the history then the message otherwise. `Client.RequestShape` states its properties and `Session.Session.BuildMessages` is proved against it. |
| Client.RequestShape | app.py:210-220 | An initial request is one user message that starts with the context and ends with the instruction. A follow-up replays the history in order, then adds the new user message, and does not depend on the context. |
| Client.ClassifyException | app.py:301-316 | The defining function of the generic exception clause: authentication first, then rate limit, otherwise retryable. `Client.ClassifyFatal` and `Client.EmptyReplyRetried` carry its properties. |
| Client.Classify | app.py:255-316 | The defining function of one attempt's verdict: delivered text, a retryable failure, or a fatal one. `Client.ClassifyFatal` states when each arises and `Client.TryAttempt` is proved against it. |
| Client.TryAttempt | app.py:255-316 | One attempt's try/except body gives the verdict `Classify` assigns to its outcome. |
| Client.ClassifyFatal | app.py:301-308 | Only an exception that matches the authentication or the rate-limit test is fatal, and authentication is tested first. Only a reply with a content block is delivered. |
| Client.EmptyReplyRetried | app.py:255 | A reply without content blocks is handled as the IndexError that `content[0]` raises, which is retried as unclassified. |
| Client.Attempts | app.py:145-318 | The defining function of the retry loop from a given attempt on. Its properties are in `Client.AttemptsShape`, `Client.AttemptsStopAt` and `Client.SendAfterRetries`. |
| Client.Send | app.py:140-318 | The defining function of a whole send: `Attempts` from attempt 0. Its properties are in `Client.SendCounts`, `Client.SendStopsAt`, `Client.SendExhausted` and `Client.SendReplyIff`, and `Session.Session.SendMessage` is proved against it. |
| Client.Warnings | app.py:274-313 | The defining function of the warnings shown for the first `a` attempts when each was retried. `Client.SendAfterRetries` and `Client.SendEndsAt` use it, and it is the loop invariant of `Session.Session.SendMessage`. |
| Client.SendAfterRetries | app.py:145-316 | After `a` retried attempts, a send consists of their warnings followed by the run from attempt `a` on. |
| Client.SendEndsAt | app.py:274-316 | When every earlier attempt was retried, the send ends at attempt `a` with one of three results: the reply, the fatal error, or RetriesExhausted on the last attempt. The earlier warnings come first in each case. |
| Client.AttemptsShape | app.py:142-316 | Every run has the same shape: calls are bounded by 3, and calls happen only with a key. Warnings are numbered in order, one per retried attempt. The run ends with the reply, or with exactly one error that matches the last outcome. |
| Client.RetryKeepsShape | app.py:274-316 | A retried attempt's warning, placed in front of a well-shaped run, gives a well-shaped run. |
| Client.SendCounts | app.py:142-318 | At most 3 calls. At least one call exactly when the key is present. Warnings only for attempts 1 and 2. One error, as the last notice, exactly when no reply came back. |
| Client.AttemptsStopAt | app.py:274-316 | When attempt i is the first that is not retried, the run makes i + 1 calls, warns once per earlier attempt, and ends with that attempt's reply or error. |
| Client.SendStopsAt | app.py:274-316 | The same statement for a whole send from attempt 0. |
| Client.SendExhausted | app.py:274-316 | Three retryable failures give 3 calls, warnings for attempts 1 and 2, and one RetriesExhausted error that names the last failure. |
| Client.SendReplyIff | app.py:145-272 | A send returns a reply exactly when the key is present, some attempt delivered text, and every attempt before it was retried. |
| Client.MissingKeyNoCall | app.py:222-230 | A missing key ends the send before any API call, with one error. |
| Client.FatalNotRetried | app.py:301-308 | An authentication or rate-limit exception on the first attempt gives 1 call, no warning and one error of the matching kind. |
| Client.TwoTimeoutsThenReply | app.py:283-290 | Two read timeouts and then a reply give three calls, two warnings and the reply. |
| Session.StoredFiles | app.py:373-383 | Start stores the four required files under their keys, and stores tools only when it was uploaded. |
| Session.StartedSections | app.py:371-383 | A started session's context has sections for agents, tasks, tools when uploaded, crew and main, in that order. |
| Session.RequiredSections | app.py:124-133 | The required keys, plus tools exactly when it is present, give exactly those sections in slot order. |
| Session.FollowUpOmitsContext | app.py:210-265 | The stored first user turn is the bare instruction. A follow-up replays instruction, reply and new message, never the files. After a failed first analysis, a follow-up is sent alone. |
| Session.Session.constructor | app.py:108-118 | A new session is empty: no history, no files, empty log, both flags false. |
| Session.Session.Start | app.py:371-387 | The button acts only before a session starts and when the four required files are there. It then stores the files and the log and sets both flags; otherwise nothing changes. |
| Session.Session.BuildConversationContext | app.py:120-138 | The string built by appending is `BuildContext(files, errorLog)`. |
| Session.Session.AddFileSection | app.py:124-133 | One `if key in files` step appends that slot's section exactly when the key is present. |
| Session.Session.BuildMessages | app.py:207-220 | The messages built are `RequestMessages` of the current context and history. |
| Session.Session.SendMessage | app.py:140-318 | Reply, notices and call count are those of `Client.Send`. On success the history grows by the user turn and then the assistant turn; on every failure it is unchanged. The request carries the context only when `initial` is set. |
| Session.Session.AppendExchange | app.py:261-270 | The two appends add exactly one exchange and keep the history alternating. |
| Session.Session.InitialAnalysis | app.py:424-431 | The analysis fires only when `processing` is set and the history is empty. It clears `processing` whether the send succeeded or not. |
| Session.Session.SendFollowUp | app.py:471-474 | A follow-up is sent, untrimmed, exactly when the session has started and the input is not blank. Otherwise nothing changes. |
| Session.Session.NewSession | app.py:398-404 | Reset returns to the empty state from any state. |
| Session.Session.ExportChat | app.py:406-419 | A transcript is offered exactly when the history is not empty. |
| Session.FirstExchange | app.py:424-431 | A successful first analysis followed by a blank follow-up exports exactly one USER block and one ASSISTANT block. |

## Left out

- Page layout, CSS, upload widgets, HTML chat rendering and the spinner are not part of this model. They are presentation only.
- The HTTP client configuration and the provider SDK call are left out. This covers timeouts, connection limits, TLS, redirects and the SDK's own `max_retries=2`. The oracle `api` stands for their combined outcome per attempt.
- `http_client.close()` is left out because it has no observable effect in the model.
- The fixed system prompt is left out. It is a constant the model never inspects.
- `time.sleep(retry_delay)` between attempts is left out. The model counts attempts and warnings, not time.
- Session.Session.SendMessage: a notice records its kind and attempt number, not the wording of the Streamlit warning or error text.
- Session.Session.SendMessage: the key lookup is a flag. Whether the key comes from secrets or the environment, and its value, are not modelled.
- Session.Session.SendMessage: the key flag is the same on every attempt, which holds because nothing changes it during a send.
- Client.TryAttempt: the first content block of a reply is assumed to be text. A non-text first block would raise AttributeError, which the generic clause would retry; that case is not modelled.
- Session.Session.ExportChat: timestamps are opaque strings supplied by the environment, already in display form. `datetime.now().isoformat()`, `fromisoformat` and `strftime` are not modelled.
- The Markdown file name of the download is left out because it depends on the clock.
- Session.Session.Start: uploads are the decoded text. UTF-8 decoding, and its failure on invalid bytes, are not modelled.
- Text.Upper: only ASCII letters are upper-cased. The role names are ASCII, so the transcript is unaffected.
- Text.IsSpace follows Python's `str.isspace` for code points up to U+3000. Nothing outside that range is white space to Python either.
- The commented-out earlier copy of the program after line 483 of `app.py` is not code, so it is not modelled.
- Behaviours of the code worth noting:
  - the first analysis sends "Please analyze my CrewAI system and identify any issues.";
  - a failed first analysis is not retried, because `processing` is cleared either way;
  - a follow-up sent when the history is empty does not carry the context;
  - there is no guard against a second send while one is in flight, because the script runs one send per rerun;
  - transcript blocks end with "\n\n---\n\n".
