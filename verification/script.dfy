/** One top-to-bottom run of client.py, triggered by every user interaction,
    and the sequence of such runs that makes up a browser session. */
module Script {
  import opened Wrappers
  import opened Transcript
  import opened Prompt
  import opened Session

  /** An upload the file uploader holds during a run, with what pandas made of it. */
  datatype Upload = Upload(file: UploadedFile, outcome: ParseOutcome)

  /** The widget values of one run: the uploader's file (if any), the text
      input (empty when nothing was typed), the language model's reply to the
      combined input of this run, and whether "Clear Chat" was clicked. */
  datatype Interaction = Interaction(
    upload: Option<Upload>,
    query: string,
    response: string,
    clearClicked: bool)

  /** The session state left after a run, and the `combined_input` sent during it. */
  datatype RunResult = RunResult(stored: Stored, dispatched: Option<string>)

  /** The state after the upload step of a run (lines 55-72); unchanged when
      the uploader holds no file. */
  function Uploaded(s: State, upload: Option<Upload>): State
  {
    match upload
    case Some(u) => Ingest(s, u.file, u.outcome)
    case None => s
  }

  /** A run in script order: defaults, upload, question, clear. */
  function Rerun(stored: Stored, i: Interaction): (r: RunResult)
    ensures r.dispatched.Some? <==>
      i.query != "" &&
      match i.upload
      case Some(u) => u.outcome.Parsed?
      case None => Truthy(Init(stored).datasetSummary)
    ensures r.dispatched == Dispatched(Uploaded(Init(stored), i.upload), i.query)
    ensures i.clearClicked ==> Init(r.stored) == Empty
    ensures !i.clearClicked ==>
      && Init(r.stored).datasetSummary == Uploaded(Init(stored), i.upload).datasetSummary
      && Init(r.stored).uploadedFile == Uploaded(Init(stored), i.upload).uploadedFile
    ensures !i.clearClicked && r.dispatched.None? ==>
      Init(r.stored).chatHistory == Init(stored).chatHistory
    ensures !i.clearClicked && r.dispatched.Some? ==>
      Init(r.stored).chatHistory ==
        Init(stored).chatHistory + [Turn(UserRole, i.query), Turn(BotRole, i.response)]
    ensures Consistent(Init(stored)) ==> Consistent(Init(r.stored))
  {
    var started := Init(stored);
    var ingested := Uploaded(started, i.upload);
    var combined := Dispatched(ingested, i.query);
    var asked := Query(ingested, i.query, i.response);
    var ended := if i.clearClicked then Clear(asked) else asked;
    InitStoreRoundTrip(ended, stored);
    RunResult(Store(ended), combined)
  }

  /** The state after a sequence of runs. */
  function RunAll(stored: Stored, runs: seq<Interaction>): Stored
    decreases |runs|
  {
    if |runs| == 0 then stored
    else RunAll(Rerun(stored, runs[0]).stored, runs[1..])
  }

  /** Runs preserve consistency, however many there are. */
  lemma {:induction false} RunAllConsistent(stored: Stored, runs: seq<Interaction>)
    requires Consistent(Init(stored))
    ensures Consistent(Init(RunAll(stored, runs)))
    decreases |runs|
  {
    if |runs| > 0 {
      RunAllConsistent(Rerun(stored, runs[0]).stored, runs[1..]);
    }
  }

  /** Every state a browser session reaches is consistent: file and summary are
      set and reset together, and the history is a list of question/answer pairs. */
  lemma ReachableConsistent(runs: seq<Interaction>)
    ensures Consistent(Init(RunAll(Fresh, runs)))
  {
    FreshIsEmpty();
    RunAllConsistent(Fresh, runs);
  }

  /** Whatever the session went through, a run only builds a combined input whose summary
      section holds a summary built from a parsed upload. */
  lemma ReachableDispatchHasDataset(runs: seq<Interaction>, i: Interaction)
    ensures var r := Rerun(RunAll(Fresh, runs), i);
      r.dispatched.Some? ==> SummaryHeading + "Columns: " <= r.dispatched.value
  {
    var stored := RunAll(Fresh, runs);
    ReachableConsistent(runs);
    var ingested := Uploaded(Init(stored), i.upload);
    NoDispatchWithoutDataset(ingested, i.query);
  }

  /** The run that `st.experimental_rerun()` starts right after "Clear Chat":
      the uploader still holds its file and the text input its question. */
  function RunAfterClear(i: Interaction, response: string): Interaction
  {
    Interaction(i.upload, i.query, response, false)
  }

  /** "Clear Chat" does not leave the session empty when the uploader still
      holds a parseable file and a question is still typed: the follow-up run
      ingests the file again and asks the question again. */
  lemma ClearIsUndoneByFollowUpRun(stored: Stored, i: Interaction, response: string)
    requires i.clearClicked && i.query != ""
    requires i.upload.Some? && i.upload.value.outcome.Parsed?
    ensures var cleared := Rerun(stored, i).stored;
      var again := Rerun(cleared, RunAfterClear(i, response));
      && Init(cleared) == Empty
      && again.dispatched.Some?
      && Init(again.stored).uploadedFile == Some(i.upload.value.file)
      && Init(again.stored).chatHistory == [Turn(UserRole, i.query), Turn(BotRole, response)]
  {
    var cleared := Rerun(stored, i).stored;
    var ingested := Ingest(Init(cleared), i.upload.value.file, i.upload.value.outcome);
    assert Gate(ingested, i.query);
    var asked := Query(ingested, i.query, response);
    InitStoreRoundTrip(asked, cleared);
  }
}
