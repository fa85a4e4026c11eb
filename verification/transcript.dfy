/** The conversation store: an ordered list of (role, content) turns, and the
    plain-text transcript of it that is handed to the language model
    (client.py lines 87-89). */
module Transcript {
  import opened Wrappers
  import opened Text

  /** One entry of `chat_history`: `{"role": role, "content": content}`. */
  datatype Turn = Turn(role: string, content: string)

  const UserRole := "user"
  const BotRole := "bot"

  /** Label of a line whose turn has role "user". */
  const UserLabel := "User: "
  /** Label of a line for every other role. */
  const BotLabel := "CharakBot: "

  /** The transcript line of one turn. */
  function Line(t: Turn): string
  {
    if t.role == UserRole then UserLabel + t.content else BotLabel + t.content
  }

  function Lines(history: seq<Turn>): seq<string>
  {
    seq(|history|, k requires 0 <= k < |history| => Line(history[k]))
  }

  /** The `history` string of client.py: the turns' lines joined by newlines. */
  function RenderHistory(history: seq<Turn>): string
  {
    JoinLines(Lines(history))
  }

  /** A history the transcript can be read back from: every role is one of the
      two the application writes, and no content spans several lines. */
  predicate Replayable(history: seq<Turn>)
  {
    forall k :: 0 <= k < |history| ==>
      (history[k].role == UserRole || history[k].role == BotRole) && '\n' !in history[k].content
  }

  /** Reads one transcript line back into a turn. */
  function ParseLine(line: string): Option<Turn>
  {
    if UserLabel <= line then Some(Turn(UserRole, line[|UserLabel|..]))
    else if BotLabel <= line then Some(Turn(BotRole, line[|BotLabel|..]))
    else None
  }

  function ParseLines(lines: seq<string>): Option<seq<Turn>>
  {
    if |lines| == 0 then Some([])
    else
      match (ParseLine(lines[0]), ParseLines(lines[1..]))
      case (Some(t), Some(rest)) => Some([t] + rest)
      case _ => None
  }

  /** Reads a whole transcript back into a history: the inverse of
      RenderHistory on replayable histories. */
  function ParseHistory(text: string): Option<seq<Turn>>
  {
    if text == "" then Some([]) else ParseLines(SplitLines(text))
  }

  /** The transcript is empty exactly when the history is. */
  lemma RenderHistoryEmpty(history: seq<Turn>)
    ensures RenderHistory(history) == "" <==> |history| == 0
  {
    if |history| > 0 {
      JoinLinesStartsWithFirst(Lines(history));
      assert |Line(history[0])| > 0;
    }
  }

  lemma LinesSnoc(history: seq<Turn>, t: Turn)
    ensures Lines(history + [t]) == Lines(history) + [Line(t)]
  {
  }

  /** Appending a turn appends its line, after a newline unless it is the first. */
  lemma RenderHistorySnoc(history: seq<Turn>, t: Turn)
    ensures RenderHistory(history + [t]) ==
      if |history| == 0 then Line(t) else RenderHistory(history) + "\n" + Line(t)
    ensures EndsWith(RenderHistory(history + [t]), Line(t))
  {
    LinesSnoc(history, t);
    if |history| == 0 {
      assert Lines(history + [t]) == [Line(t)];
    } else {
      JoinLinesSnoc(Lines(history), Line(t));
    }
    var r := RenderHistory(history + [t]);
    assert r[|r| - |Line(t)|..] == Line(t);
  }

  /** Growing the history only extends the transcript: what was rendered before
      is a prefix of what is rendered after. */
  lemma {:induction false} RenderHistoryPrefix(history: seq<Turn>, more: seq<Turn>)
    ensures RenderHistory(history) <= RenderHistory(history + more)
    decreases |more|
  {
    if |more| > 0 {
      var init := more[..|more| - 1];
      var t := more[|more| - 1];
      RenderHistoryPrefix(history, init);
      assert history + more == (history + init) + [t];
      RenderHistorySnoc(history + init, t);
    } else {
      assert history + more == history;
    }
  }

  /** One line per turn, in history order, labelled "User: " for the role
      "user" and "CharakBot: " for every other role. */
  lemma OneLinePerTurn(history: seq<Turn>)
    requires |history| >= 1
    requires forall k :: 0 <= k < |history| ==> '\n' !in history[k].content
    ensures |SplitLines(RenderHistory(history))| == |history|
    ensures forall k :: 0 <= k < |history| ==>
      SplitLines(RenderHistory(history))[k] ==
        (if history[k].role == UserRole then UserLabel else BotLabel) + history[k].content
  {
    var lines := Lines(history);
    forall k | 0 <= k < |lines|
      ensures '\n' !in lines[k]
    {
      assert '\n' !in UserLabel && '\n' !in BotLabel;
    }
    SplitJoin(lines);
  }

  lemma ParseLineOfLine(t: Turn)
    requires t.role == UserRole || t.role == BotRole
    ensures ParseLine(Line(t)) == Some(t)
  {
    if t.role == UserRole {
      assert (UserLabel + t.content)[|UserLabel|..] == t.content;
    } else {
      assert !(UserLabel <= BotLabel + t.content) by {
        assert (BotLabel + t.content)[0] != UserLabel[0];
      }
      assert (BotLabel + t.content)[|BotLabel|..] == t.content;
    }
  }

  lemma LineOfParseLine(line: string, t: Turn)
    requires ParseLine(line) == Some(t)
    ensures Line(t) == line
  {
    if UserLabel <= line {
      assert line == UserLabel + line[|UserLabel|..];
    } else {
      assert line == BotLabel + line[|BotLabel|..];
    }
  }

  lemma {:induction false} ParseLinesOfLines(history: seq<Turn>)
    requires forall k :: 0 <= k < |history| ==> history[k].role == UserRole || history[k].role == BotRole
    ensures ParseLines(Lines(history)) == Some(history)
    decreases |history|
  {
    if |history| > 0 {
      ParseLineOfLine(history[0]);
      assert Lines(history)[1..] == Lines(history[1..]);
      ParseLinesOfLines(history[1..]);
      assert history == [history[0]] + history[1..];
    }
  }

  lemma {:induction false} LinesOfParseLines(lines: seq<string>, history: seq<Turn>)
    requires ParseLines(lines) == Some(history)
    ensures Lines(history) == lines
    decreases |lines|
  {
    if |lines| > 0 {
      var t := ParseLine(lines[0]).value;
      var rest := ParseLines(lines[1..]).value;
      assert history == [t] + rest;
      LineOfParseLine(lines[0], t);
      LinesOfParseLines(lines[1..], rest);
      assert lines == [lines[0]] + lines[1..];
    }
  }

  /** The transcript of a replayable history reads back to that history. */
  lemma RenderHistoryRoundTrip(history: seq<Turn>)
    requires Replayable(history)
    ensures ParseHistory(RenderHistory(history)) == Some(history)
  {
    RenderHistoryEmpty(history);
    if |history| > 0 {
      OneLinePerTurn(history);
      forall k | 0 <= k < |Lines(history)|
        ensures '\n' !in Lines(history)[k]
      {
        assert '\n' !in UserLabel && '\n' !in BotLabel;
      }
      SplitJoin(Lines(history));
      ParseLinesOfLines(history);
    }
  }

  /** Any text that reads back as a history is exactly that history's transcript. */
  lemma ParseHistoryRoundTrip(text: string, history: seq<Turn>)
    requires ParseHistory(text) == Some(history)
    ensures RenderHistory(history) == text
  {
    if text != "" {
      LinesOfParseLines(SplitLines(text), history);
      JoinSplit(text);
    }
  }

  /** A bot reply spanning several lines is indistinguishable in the transcript
      from separate turns: one reply "a\nUser: b" renders like a reply "a"
      followed by a user question "b". */
  lemma MultiLineReplyIsAmbiguous()
    ensures RenderHistory([Turn(BotRole, "a\nUser: b")]) ==
            RenderHistory([Turn(BotRole, "a"), Turn(UserRole, "b")])
    ensures [Turn(BotRole, "a\nUser: b")] != [Turn(BotRole, "a"), Turn(UserRole, "b")]
  {
    var merged := [Turn(BotRole, "a\nUser: b")];
    var split := [Turn(BotRole, "a"), Turn(UserRole, "b")];
    assert Lines(merged) == [BotLabel + "a\nUser: b"];
    assert Lines(split) == [BotLabel + "a", UserLabel + "b"];
    JoinLinesCons(BotLabel + "a", [UserLabel + "b"]);
    assert [BotLabel + "a"] + [UserLabel + "b"] == [BotLabel + "a", UserLabel + "b"];
  }
}
