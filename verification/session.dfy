/** The per-browser-session state of client.py and its transitions: start-up
    defaults (lines 44-49), ingesting an upload (lines 55-72), answering a
    question (lines 81-96) and the "Clear Chat" button (lines 108-121). */
module Session {
  import opened Wrappers
  import opened Text
  import opened Transcript
  import opened Prompt

  /** The uploader's file object; only ever stored and compared. */
  datatype UploadedFile = UploadedFile(name: string, bytes: seq<bv8>)

  /** What reading the upload with pandas gives: the rendered column list and the
      rendered descriptive statistics, or the "empty CSV" error. */
  datatype ParseOutcome = Parsed(columns: string, statistics: string) | EmptyData

  /** A key of `st.session_state`, which may not exist yet. */
  datatype Entry<T> = Absent | Present(value: T)

  /** `st.session_state` as it persists between reruns of the script. */
  datatype Stored = Stored(
    datasetSummary: Entry<Option<string>>,
    uploadedFile: Entry<Option<UploadedFile>>,
    chatHistory: Entry<seq<Turn>>)

  /** The session state once every key exists. */
  datatype State = State(
    datasetSummary: Option<string>,
    uploadedFile: Option<UploadedFile>,
    chatHistory: seq<Turn>)

  /** A browser session before the script first ran: no keys at all. */
  const Fresh := Stored(Absent, Absent, Absent)

  /** No summary, no file, no turns. */
  const Empty := State(None, None, [])

  /** Python truthiness of an optional string: present and non-empty. */
  predicate Truthy(s: Option<string>)
  {
    s.Some? && s.value != ""
  }

  /** Every key that `stored` has keeps its value in `after`. */
  predicate KeepsPresent(stored: Stored, after: Stored)
  {
    && (stored.datasetSummary.Present? ==> after.datasetSummary == stored.datasetSummary)
    && (stored.uploadedFile.Present? ==> after.uploadedFile == stored.uploadedFile)
    && (stored.chatHistory.Present? ==> after.chatHistory == stored.chatHistory)
  }

  /** Writes a state back into `st.session_state`: after a run every key exists. */
  function Store(s: State): Stored
  {
    Stored(Present(s.datasetSummary), Present(s.uploadedFile), Present(s.chatHistory))
  }

  /** Start-of-run defaults: a key that does not exist yet gets None (or the
      empty history); a key that exists is left alone. */
  function Init(stored: Stored): (s: State)
    ensures KeepsPresent(stored, Store(s))
    ensures stored.datasetSummary.Absent? ==> s.datasetSummary.None?
    ensures stored.uploadedFile.Absent? ==> s.uploadedFile.None?
    ensures stored.chatHistory.Absent? ==> s.chatHistory == []
  {
    State(
      match stored.datasetSummary case Present(v) => v case Absent => None,
      match stored.uploadedFile case Present(v) => v case Absent => None,
      match stored.chatHistory case Present(v) => v case Absent => [])
  }

  /** The summary text built from a parsed upload. */
  function SummaryText(columns: string, statistics: string): (r: string)
    ensures "Columns: " <= r
  {
    "Columns: " + columns + "\n\nSummary:\n" + statistics
  }

  /** The history is a sequence of question/answer pairs: a user turn with a
      non-empty question, then a bot turn. */
  predicate WellPaired(history: seq<Turn>)
  {
    && |history| % 2 == 0
    && forall k :: 0 <= k < |history| ==>
         if k % 2 == 0 then history[k].role == UserRole && history[k].content != ""
         else history[k].role == BotRole
  }

  /** What every state the application reaches satisfies: file and summary are
      present together, a present summary came from a parsed upload, and the
      history is well paired. */
  predicate Consistent(s: State)
  {
    && (s.uploadedFile.Some? <==> s.datasetSummary.Some?)
    && (s.datasetSummary.Some? ==> "Columns: " <= s.datasetSummary.value)
    && WellPaired(s.chatHistory)
  }

  /** Handling an upload. A parsed file sets both the file and its summary; an
      empty CSV resets both; the history is never touched. */
  function Ingest(s: State, file: UploadedFile, outcome: ParseOutcome): (r: State)
    ensures r.chatHistory == s.chatHistory
    ensures outcome.Parsed? ==> r.uploadedFile == Some(file)
    ensures outcome.Parsed? ==> r.datasetSummary == Some(SummaryText(outcome.columns, outcome.statistics))
    ensures outcome.Parsed? ==> Truthy(r.datasetSummary) && "Columns: " <= r.datasetSummary.value
    ensures outcome.EmptyData? ==> r.uploadedFile.None? && r.datasetSummary.None?
    ensures Consistent(s) ==> Consistent(r)
  {
    match outcome
    case Parsed(columns, statistics) =>
      var withFile := s.(uploadedFile := Some(file));
      withFile.(datasetSummary := Some(SummaryText(columns, statistics)))
    case EmptyData =>
      s.(uploadedFile := None, datasetSummary := None)
  }

  /** The guard of line 81: a non-empty question and a truthy summary. */
  predicate Gate(s: State, query: string)
  {
    query != "" && Truthy(s.datasetSummary)
  }

  /** Asking a question. Behind the gate nothing changes; past it the history
      grows by the question and then the reply, every earlier turn kept in place. */
  function Query(s: State, query: string, response: string): (r: State)
    ensures !Gate(s, query) ==> r == s
    ensures Gate(s, query) ==>
      && r.datasetSummary == s.datasetSummary
      && r.uploadedFile == s.uploadedFile
      && |r.chatHistory| == |s.chatHistory| + 2
      && r.chatHistory[..|s.chatHistory|] == s.chatHistory
      && r.chatHistory[|s.chatHistory|] == Turn(UserRole, query)
      && r.chatHistory[|s.chatHistory| + 1] == Turn(BotRole, response)
    ensures Consistent(s) ==> Consistent(r)
  {
    if Gate(s, query) then
      var asked := s.chatHistory + [Turn(UserRole, query)];
      var answered := asked + [Turn(BotRole, response)];
      s.(chatHistory := answered)
    else
      s
  }

  /** The `combined_input` of line 90 for a question, if the gate lets it
      through; line 93 places it inside the prompt template before the call.
      The transcript in it is rendered after the question was appended, so the
      question appears twice at the end: as the transcript's last line and as
      the question section. */
  function Dispatched(s: State, query: string): (p: Option<string>)
    ensures p.Some? <==> Gate(s, query)
    ensures p.Some? ==> SummaryHeading + s.datasetSummary.value <= p.value
    ensures p.Some? ==> EndsWith(p.value, UserLabel + query + QuestionHeading + query)
  {
    if Gate(s, query) then
      var asked := s.chatHistory + [Turn(UserRole, query)];
      var history := RenderHistory(asked);
      RenderHistorySnoc(s.chatHistory, Turn(UserRole, query));
      QuestionAfterTranscript(s.datasetSummary.value, history, UserLabel + query, query);
      Some(CombinedInput(s.datasetSummary.value, history, query))
    else
      None
  }

  /** The "Clear Chat" button. The history is reset when it has turns and is
      already empty otherwise; the file and the summary are reset either way. */
  function Clear(s: State): (r: State)
    ensures r.chatHistory == []
    ensures r.uploadedFile.None? && r.datasetSummary.None?
  {
    var history := if |s.chatHistory| > 0 then [] else s.chatHistory;
    State(None, None, history)
  }

  /** A fresh session starts with no summary, no file and no turns, and that
      state is consistent. */
  lemma FreshIsEmpty()
    ensures Init(Fresh) == Empty
    ensures Consistent(Init(Fresh))
  {
  }

  /** Initialisation never overwrites: a stored state comes back unchanged, and
      initialising twice is the same as once. */
  lemma InitStoreRoundTrip(s: State, stored: Stored)
    ensures Init(Store(s)) == s
    ensures Init(Store(Init(stored))) == Init(stored)
  {
  }

  /** Clearing twice is clearing once; after a clear a question is a no-op and
      nothing is sent to the language model. */
  lemma ClearIdempotent(s: State, query: string, response: string)
    ensures Clear(Clear(s)) == Clear(s) == Empty
    ensures Query(Clear(s), query, response) == Clear(s)
    ensures Dispatched(Clear(s), query).None?
    ensures Consistent(Clear(s))
  {
  }

  /** Nothing reaches the language model without a dataset summary, and a
      consistent state's summary is one built from a parsed upload. */
  lemma NoDispatchWithoutDataset(s: State, query: string)
    requires Consistent(s)
    ensures Dispatched(s, query).Some? ==> SummaryHeading + "Columns: " <= Dispatched(s, query).value
    ensures s.datasetSummary.None? ==> Dispatched(s, query).None?
  {
    var p := Dispatched(s, query);
    if p.Some? {
      var summary := s.datasetSummary.value;
      assert SummaryHeading + summary <= p.value;
      assert (SummaryHeading + "Columns: ") <= SummaryHeading + summary;
    }
  }

  /** The transcript the combined input carries ends with the question as its own last line. */
  lemma AskedTranscriptLastLine(history: seq<Turn>, query: string)
    requires '\n' !in query
    ensures LastLine(RenderHistory(history + [Turn(UserRole, query)])) == UserLabel + query
  {
    RenderHistorySnoc(history, Turn(UserRole, query));
    assert '\n' !in UserLabel + query;
    if |history| > 0 {
      SplitSnoc(RenderHistory(history), UserLabel + query);
    }
  }

  /** The transcript in the combined input is the one the store holds once the question
      is appended; the stored history after the reply extends it by exactly the
      reply. This holds for any history, multi-line replies included. */
  lemma DispatchedTranscriptFromStore(s: State, query: string, response: string)
    requires Gate(s, query)
    ensures var asked := Query(s, query, response).chatHistory[..|s.chatHistory| + 1];
      && asked == s.chatHistory + [Turn(UserRole, query)]
      && Query(s, query, response).chatHistory == asked + [Turn(BotRole, response)]
      && Dispatched(s, query) == Some(CombinedInput(s.datasetSummary.value, RenderHistory(asked), query))
  {
    var h := s.chatHistory;
    var asked := Query(s, query, response).chatHistory[..|h| + 1];
    assert asked == h + [Turn(UserRole, query)];
  }

  /** When no stored content spans several lines, the transcript in the combined input
      reads back to the earlier history plus the question, and its last line is
      the question. Without that condition a multi-line reply makes the read-back
      ambiguous (Transcript.MultiLineReplyIsAmbiguous). */
  lemma DispatchedTranscriptReadsBack(s: State, query: string)
    requires Gate(s, query)
    requires Replayable(s.chatHistory) && '\n' !in query
    ensures var asked := s.chatHistory + [Turn(UserRole, query)];
      && ParseHistory(RenderHistory(asked)) == Some(asked)
      && LastLine(RenderHistory(asked)) == UserLabel + query
  {
    var h := s.chatHistory;
    var asked := h + [Turn(UserRole, query)];
    assert Replayable(asked) by {
      forall k | 0 <= k < |asked|
        ensures (asked[k].role == UserRole || asked[k].role == BotRole) && '\n' !in asked[k].content
      {
        if k < |h| {
          assert asked[k] == h[k];
        }
      }
    }
    RenderHistoryRoundTrip(asked);
    AskedTranscriptLastLine(h, query);
  }
}
