/** The plain-text rendering of a log that the summary request embeds
    (`conversation_text`), a reader that recovers the log from it, and the
    summary request itself. */
module Transcript {
  import opened Turns

  /** Speaker label of a line: "You" for user turns, "Assistant" for every other role. */
  function SpeakerLabel(role: Role): string
  {
    if role == User then "You" else "Assistant"
  }

  /** One line of the transcript: label, ": ", content, newline. */
  function TranscriptLine(t: Turn): string
  {
    SpeakerLabel(t.role) + ": " + t.content + "\n"
  }

  /** The lines of all turns, concatenated in log order (built from the
      front, as the accumulating loop does). */
  function ConversationText(log: seq<Turn>): string
    decreases |log|
  {
    if log == [] then "" else ConversationText(log[..|log| - 1]) + TranscriptLine(log[|log| - 1])
  }

  /** Appending a turn appends its line. */
  lemma ConversationTextSnoc(log: seq<Turn>, t: Turn)
    ensures ConversationText(log + [t]) == ConversationText(log) + TranscriptLine(t)
  {
    var extended := log + [t];
    assert extended[..|extended| - 1] == log;
  }

  /** Rendering distributes over concatenation of logs. */
  lemma {:induction false} ConversationTextAppend(a: seq<Turn>, b: seq<Turn>)
    ensures ConversationText(a + b) == ConversationText(a) + ConversationText(b)
    decreases |b|
  {
    if b == [] {
      assert a + b == a;
    } else {
      var front, last := b[..|b| - 1], b[|b| - 1];
      assert b == front + [last];
      assert a + b == (a + front) + [last];
      calc {
        ConversationText(a + b);
        { ConversationTextSnoc(a + front, last); }
        ConversationText(a + front) + TranscriptLine(last);
        { ConversationTextAppend(a, front); }
        (ConversationText(a) + ConversationText(front)) + TranscriptLine(last);
        ConversationText(a) + (ConversationText(front) + TranscriptLine(last));
        { ConversationTextSnoc(front, last); }
        ConversationText(a) + ConversationText(b);
      }
    }
  }

  /** The transcript is the first turn's line followed by the transcript of the rest. */
  lemma ConversationTextCons(t: Turn, rest: seq<Turn>)
    ensures ConversationText([t] + rest) == TranscriptLine(t) + ConversationText(rest)
  {
    ConversationTextAppend([t], rest);
    assert [t][..0] == [];
  }

  /** One line per turn, in log order: for every log, the line of turn `i`
      sits in the transcript right after the lines of the turns before it. */
  lemma TranscriptLineAt(log: seq<Turn>, i: nat)
    requires i < |log|
    ensures var start := |ConversationText(log[..i])|;
      start + |TranscriptLine(log[i])| <= |ConversationText(log)| &&
      ConversationText(log)[start..start + |TranscriptLine(log[i])|] == TranscriptLine(log[i])
  {
    assert log == log[..i] + [log[i]] + log[i + 1..];
    ConversationTextAppend(log[..i] + [log[i]], log[i + 1..]);
    ConversationTextAppend(log[..i], [log[i]]);
    ConversationTextCons(log[i], []);
  }

  /** A content with a line break can imitate a second turn: two different
      logs render to the same transcript, so the summary prompt cannot tell
      them apart. */
  lemma TranscriptAmbiguousWithLineBreaks()
    ensures ConversationText([Turn(User, "a\nYou: b")])
         == ConversationText([Turn(User, "a"), Turn(User, "b")])
  {
    assert [Turn(User, "a"), Turn(User, "b")][..1] == [Turn(User, "a")];
  }

  /** Index of the first newline of `s`, if any. */
  function NewlineIndex(s: string): (r: Option<nat>)
    ensures r.Some? ==> r.value < |s| && s[r.value] == '\n' && '\n' !in s[..r.value]
    ensures r.None? ==> '\n' !in s
    decreases |s|
  {
    if s == [] then None
    else if s[0] == '\n' then Some(0)
    else match NewlineIndex(s[1..])
      case None => None
      case Some(k) => Some(k + 1)
  }

  /** Reads one transcript line (without its newline) back into a turn. */
  function ParseLine(line: string): (r: Option<Turn>)
    ensures r.Some? ==> r.value.role != System && TranscriptLine(r.value) == line + "\n"
  {
    if |line| >= 5 && line[..5] == "You: " then
      assert line == "You: " + line[5..];
      Some(Turn(User, line[5..]))
    else if |line| >= 11 && line[..11] == "Assistant: " then
      assert line == "Assistant: " + line[11..];
      Some(Turn(Assistant, line[11..]))
    else None
  }

  /** Reads a whole transcript back into the log it renders, line by line. */
  function ParseConversationText(text: string): Option<seq<Turn>>
    decreases |text|
  {
    if text == [] then Some([])
    else match NewlineIndex(text)
      case None => None
      case Some(k) =>
        match ParseLine(text[..k])
        case None => None
        case Some(t) =>
          match ParseConversationText(text[k + 1..])
          case None => None
          case Some(rest) => Some([t] + rest)
  }

  /** No content of the log contains a line break. */
  predicate SingleLineContents(log: seq<Turn>)
  {
    forall i :: 0 <= i < |log| ==> '\n' !in log[i].content
  }

  lemma {:induction false} NewlineIndexAfter(a: string, b: string)
    requires '\n' !in a
    ensures NewlineIndex(a + "\n" + b) == Some(|a|)
    decreases |a|
  {
    if a == [] {
      assert (a + "\n" + b)[0] == '\n';
    } else {
      assert (a + "\n" + b)[1..] == a[1..] + "\n" + b;
      NewlineIndexAfter(a[1..], b);
    }
  }

  /** A transcript line is read back as the turn it renders, when the turn is
      not a system turn and its content has no line break. */
  lemma ParseLineOfTranscriptLine(t: Turn)
    requires t.role != System && '\n' !in t.content
    ensures ParseLine(SpeakerLabel(t.role) + ": " + t.content) == Some(t)
  {
    var line := SpeakerLabel(t.role) + ": " + t.content;
    if t.role == User {
      assert line[..5] == "You: ";
    } else {
      assert line[..11] == "Assistant: ";
      assert line[0] == 'A';
    }
  }

  /** Reading a transcript that starts with a turn's line yields that turn,
      then whatever the rest reads as. */
  lemma ParseAfterLine(t: Turn, rest: string)
    requires t.role != System && '\n' !in t.content
    ensures ParseConversationText(TranscriptLine(t) + rest) ==
      match ParseConversationText(rest)
      case None => None
      case Some(turns) => Some([t] + turns)
  {
    var line := SpeakerLabel(t.role) + ": " + t.content;
    var text := TranscriptLine(t) + rest;
    assert text == line + "\n" + rest;
    assert '\n' !in line by {
      assert line == SpeakerLabel(t.role) + (": " + t.content);
    }
    NewlineIndexAfter(line, rest);
    assert text[..|line|] == line;
    assert text[|line| + 1..] == rest;
    ParseLineOfTranscriptLine(t);
  }

  /** The transcript loses nothing: for a log without system turns and with
      single-line contents, reading the transcript back yields the log, so
      the summary request sees every turn, in order, with its speaker. */
  lemma {:induction false} ConversationTextRoundTrip(log: seq<Turn>)
    requires NoSystemTurns(log) && SingleLineContents(log)
    ensures ParseConversationText(ConversationText(log)) == Some(log)
    decreases |log|
  {
    if log != [] {
      var t, rest := log[0], log[1..];
      assert log == [t] + rest;
      ConversationTextCons(t, rest);
      assert NoSystemTurns(rest) && SingleLineContents(rest) by {
        assert forall i :: 0 <= i < |rest| ==> rest[i] == log[i + 1];
      }
      ConversationTextRoundTrip(rest);
      ParseAfterLine(t, ConversationText(rest));
    }
  }

  /** Stand-ins for the wording of the summary prompt around the transcript. */
  const SummaryPromptHead: string := "\n<summary instructions>\n\nConversation:\n"
  const SummaryPromptTail: string := "\n\n<five headed sections, no diagnosis>\n"

  /** System text of the summary call. */
  const SummarySystemText: string := "You summarize patient concerns for a doctor, without diagnosing."

  /** The summary prompt embeds the transcript verbatim at a fixed offset. */
  function SummaryPrompt(conversationText: string): (p: string)
    ensures |p| == |SummaryPromptHead| + |conversationText| + |SummaryPromptTail|
    ensures p[|SummaryPromptHead|..|SummaryPromptHead| + |conversationText|] == conversationText
  {
    var p := SummaryPromptHead + conversationText + SummaryPromptTail;
    assert p[|SummaryPromptHead|..|SummaryPromptHead| + |conversationText|] == conversationText;
    p
  }

  /** The one request of a summary: a system turn, then a user turn holding the prompt. */
  function SummaryCall(log: seq<Turn>): ChatRequest
  {
    ChatRequest(ModelName,
      [Turn(System, SummarySystemText), Turn(User, SummaryPrompt(ConversationText(log)))],
      SummaryTemperature)
  }

  /** The summary request is exactly [system, user], and the log can be read
      back from the user turn it carries. */
  lemma SummaryCallCarriesLog(log: seq<Turn>)
    requires NoSystemTurns(log) && SingleLineContents(log)
    ensures var req := SummaryCall(log);
      req.temperature == SummaryTemperature && |req.messages| == 2 &&
      req.messages[0].role == System && req.messages[1].role == User &&
      var prompt := req.messages[1].content;
      var text := ConversationText(log);
      |SummaryPromptHead| + |text| <= |prompt| &&
      ParseConversationText(prompt[|SummaryPromptHead|..|SummaryPromptHead| + |text|]) == Some(log)
  {
    ConversationTextRoundTrip(log);
  }
}
