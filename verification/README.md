# CharakBot session model

A Dafny model of the chat session kept by `client.py`, the Streamlit front end
of CharakBot. A user uploads a CSV file and asks questions about it, and a
language model answers. Every interaction reruns the whole script. What
survives between runs is `st.session_state`, which has three keys:
`dataset_summary`, `uploaded_file` and `chat_history`, the last being a list of
`{"role", "content"}` turns.

The model has six modules:

- `Wrappers`: `Option`, which stands for Python's `None` or a value.
- `Text`: `"\n".join` (`JoinLines`) and `str.split("\n")` (`SplitLines`), with
  proofs that each undoes the other.
- `Transcript`: turns, the `history` string given to the language model
  (`RenderHistory`), and a parser for that string (`ParseHistory`), which
  is its inverse on histories with single-line contents.
- `Prompt`: the three-section `combined_input` string.
- `Session`: the transitions of the script.
  - `Init` fills in defaults at start-up.
  - `Ingest` handles an upload.
  - `Query` answers a question.
  - `Dispatched` is the `combined_input` of line 90, which line 93 places
    inside the prompt template before calling the language model.
  - `Clear` is the "Clear Chat" button.
  - `Consistent` is the invariant every reachable state keeps.
- `Script`: one run of the script (`Rerun`: defaults, then upload, then
  question, then clear), a sequence of runs (`RunAll`), and the run that
  follows "Clear Chat" (`RunAfterClear`).

Opaque parts of the program become parameters:

- The file object is a `UploadedFile` value that is only stored.
- What pandas makes of the upload is `ParseOutcome`: either
  `Parsed(columns, statistics)`, the two rendered strings, or `EmptyData`.
- The language model's reply is the `response` string of an `Interaction`.

A key of `st.session_state` that does not exist yet is `Entry.Absent`.
`Stored` is the state between runs. `State` is the state after `Init` has
given every key a value. Truthiness follows Python: a question is asked only
when the text input is non-empty and the summary is present and non-empty.

Three behaviours of the code shape the model:

- `chain.run` (line 93) has no exception handler. The model takes its reply as an input and does not model it raising.
- Only `EmptyDataError` is caught (line 69). `ParseOutcome` has no other failure case.
- Every role other than `"user"` is labelled `CharakBot: ` (line 88). `RenderHistory` does the same, so only histories whose roles are `"user"` or `"bot"` read back exactly.

## Model

| member | source | states |
|---|---|---|
| `Text.SplitJoin` | client.py:87 | Splitting the newline join of a non-empty list of newline-free lines on `"\n"` gives those lines back. The empty list is excluded because it joins to `""`, which splits to `[""]`, as in Python. |
| `Text.JoinSplit` | client.py:87 | Joining the pieces of any string split on `"\n"` gives the string back. |
| `Text.JoinLinesSnoc` | client.py:87 | Appending a line to a non-empty list appends exactly `"\n"` and that line to the join, so there is no trailing newline. |
| `Transcript.RenderHistoryEmpty` | client.py:87-89 | The history string is empty exactly when the history has no turns. |
| `Transcript.RenderHistorySnoc` | client.py:87-89 | Appending a turn appends its labelled line, preceded by `"\n"` unless it is the first turn. |
| `Transcript.RenderHistoryPrefix` | client.py:87-89 | Growing the history only extends the transcript: the earlier rendering is a prefix of the later one. |
| `Transcript.OneLinePerTurn` | client.py:87-89 | With single-line contents, the history string has one line per turn, in history order. Each line is `"User: "` plus the content for role `"user"` and `"CharakBot: "` plus the content for any other role. |
| `Transcript.RenderHistoryRoundTrip` | client.py:87-89 | A history whose roles are `"user"`/`"bot"` and whose contents are single-line is recovered exactly from its transcript. |
| `Transcript.ParseHistoryRoundTrip` | client.py:87-89 | Any text that reads back as a history is exactly that history's rendering. |
| `Transcript.MultiLineReplyIsAmbiguous` | client.py:87-96 | A multi-line bot reply renders the same as a different history, so the one-line-per-turn reading needs single-line contents. |
| `Prompt.CombinedInput` | client.py:90 | The input starts with `"Dataset summary:\n"` and the summary, and ends with `"\n\nUser's question:\n"` and the question. Its length is the sum of the three parts and the fixed headings. |
| `Prompt.HistorySection` | client.py:90 | The transcript sits unaltered directly after `"\n\nConversation history:\n"` and directly before the question heading. |
| `Prompt.QuestionAfterTranscript` | client.py:90 | Whatever the transcript ends with is followed directly by the question heading and the question at the end of the combined input. |
| `Prompt.QuestionIsLastLine` | client.py:90 | A single-line question can be read back as the last line of the combined input. |
| `Session.Init` | client.py:44-49 | Start-up never overwrites a key that already exists. Each key that is missing, checked independently, gets its default: no summary, no file, an empty history. |
| `Session.FreshIsEmpty` | client.py:44-49 | A fresh session has no summary, no file and no turns, and satisfies the session invariant. |
| `Session.InitStoreRoundTrip` | client.py:44-49 | A state written back after a run is read back unchanged on the next run, and start-up applied twice is the same as once. |
| `Session.SummaryText` | client.py:62 | A summary built from a parsed upload begins with `"Columns: "`, so it is never empty. |
| `Session.Ingest` | client.py:55-72 | A parsed upload sets the file and the summary built from that upload's columns and statistics, which is non-empty. `EmptyData` resets both to `None`. Neither touches the history. Both keep the session invariant. |
| `Session.Query` | client.py:81-96 | Without a non-empty question and a truthy summary, the state is unchanged. Otherwise the history grows by exactly `("user", query)` then `("bot", response)`. Earlier turns stay in place, the file and summary are unchanged, and the invariant is kept. |
| `Session.Dispatched` | client.py:81-90 | A combined input is built, and the model called, exactly when the gate is open. The combined input starts with the summary section. It ends with `"User: " + query`, the question heading and the query, because the question is appended before the history is rendered. |
| `Session.Clear` | client.py:108-121 | After a clear, the history is empty and the file and summary are `None`, whether or not the history had turns. |
| `Session.ClearIdempotent` | client.py:81-121 | Clearing twice equals clearing once. After a clear, a question changes nothing and sends nothing. This is about the state itself; the follow-up run that still holds the widgets' values is `Script.ClearIsUndoneByFollowUpRun`. |
| `Session.NoDispatchWithoutDataset` | client.py:81-90 | In a consistent state, no combined input is built without a summary. Every combined input built carries a summary from a parsed upload. |
| `Session.AskedTranscriptLastLine` | client.py:83-89 | The last line of the transcript sent with a single-line question is `"User: "` plus that question. |
| `Session.DispatchedTranscriptFromStore` | client.py:81-96 | For every history, multi-line replies included, the transcript in the combined input is the stored history up to and including the new question. The stored history after the reply extends it by exactly the bot reply. |
| `Session.DispatchedTranscriptReadsBack` | client.py:83-89 | When the stored contents and the question are single-line, the transcript in the combined input reads back to the earlier history plus the question, and its last line is that question. |
| `Script.Rerun` | client.py:44-121 | A run builds a combined input exactly when the question is non-empty and either this run parsed an upload or, with no upload, the stored summary is truthy. That input is the one for the state after the upload step. A run with "Clear Chat" ends empty. A run without it ends with the file and summary left by the upload step. The history is unchanged when nothing was asked. When a question was asked, the history gains exactly the question/answer pair. A run keeps the invariant. |
| `Script.RunAllConsistent` | client.py:44-121 | Any number of runs keep the session invariant. |
| `Script.ReachableConsistent` | client.py:44-121 | In every state a session reaches from scratch, file and summary are present together and the history is a list of question/answer pairs. The pairing holds only because an exception from `chain.run` is not modelled; such an exception would leave a question without a reply. |
| `Script.ClearIsUndoneByFollowUpRun` | client.py:55-124 | After "Clear Chat", the run started by `st.experimental_rerun()` still sees the uploader's file and the typed question. It ingests the file again and asks the question again, so the session ends holding the file and one question/answer pair rather than empty. |
| `Script.ReachableDispatchHasDataset` | client.py:55-90 | However the session got there, every combined input a run builds carries a summary from a parsed upload. |

## Left out

- Streamlit widgets, layout, the chat display loop and the info, warning, success and error messages are user interface only (lines 40-41, 52-53, 66-67, 75-79, 99-105, 113-115, 132-133).
- Reading the API key from secrets and setting the environment variable are configuration and I/O (lines 12-18).
- The OpenAI model, the prompt template, `ConversationBufferMemory` and `chain.run` are a foreign network service (lines 21-37, 93). Only the `combined_input` sent and the reply received are modelled.
- An exception raised by `chain.run` is not modelled. In the code it would leave the user turn appended without a bot turn.
- `pd.read_csv` and `df.describe(include='all').to_string()` are foreign library code with floating-point statistics. The rendered column list and statistics are opaque strings (lines 58, 62).
- Pandas exceptions other than `EmptyDataError` are not modelled, because they propagate uncaught (line 69). One raised by `pd.read_csv` (line 58) leaves the earlier file and summary in place. One raised while building the summary (line 62) comes after line 59 has stored the new file. That run ends with the new file and the old summary. On a first upload, the file is set while the summary is `None`, which would break `Consistent`'s rule that file and summary are present together.
- `st.experimental_rerun` and the handler around it are runtime control flow (lines 124-129).
- `Session.Clear` is modelled on a state whose keys all exist. By line 108 the start-up code has always created them, so the `in st.session_state` tests at lines 111, 118 and 120 always hold.
- The file uploader and the text input keep their values from one run to the next. The model does not tie consecutive runs' `Interaction` values together; only `Script.RunAfterClear` does, for the run after "Clear Chat". As a result, the model does not state that every later run re-ingests the file and asks the typed question again.
- The remote-backend variant of the application is not part of this model.
