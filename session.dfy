/** The conversation session of the health reflection page: the stored
    message log, the submit path, the summary action, and one rerun of the
    page script. */
module HealthApp {
  import opened Turns
  import opened Transcript

  /** Before turn `i`, an assistant turn is always preceded by a user turn:
      replies are only appended right after the input they answer. */
  predicate ReplyFollowsInput(log: seq<Turn>, i: nat)
    requires 0 < i < |log|
  {
    log[i].role == Assistant ==> log[i - 1].role == User
  }

  /** The shape every stored log keeps: the greeting first, no system turn,
      and every later assistant turn right after a user turn. */
  predicate WellFormedLog(log: seq<Turn>)
  {
    |log| >= 1 && log[0] == GreetingTurn && NoSystemTurns(log) &&
    forall i :: 0 < i < |log| ==> ReplyFollowsInput(log, i)
  }

  /** The request the submit path sends for `userInput`: the log already
      holds the new user turn when the request is built. */
  function SubmitCall(log: seq<Turn>, userInput: string): ChatRequest
  {
    ChatCall(log + [Turn(User, userInput)], userInput)
  }

  /** The log after one pass of the submit path, given what the completion
      service answered. */
  function AfterSubmit(log: seq<Turn>, userInput: string, reply: Completion): (r: seq<Turn>)
    ensures |log| <= |r| && r[..|log|] == log
    ensures userInput == [] ==> r == log
    ensures userInput != [] && reply.Reply? ==>
      |r| == |log| + 2 && r[|log|] == Turn(User, userInput) && r[|log| + 1] == Turn(Assistant, reply.text)
    ensures userInput != [] && reply.Failed? ==>
      |r| == |log| + 1 && r[|log|] == Turn(User, userInput)
  {
    if userInput == [] then log
    else match reply
      case Reply(text) => log + [Turn(User, userInput), Turn(Assistant, text)]
      case Failed(_) => log + [Turn(User, userInput)]
  }

  /** Submitting keeps a well-formed log well-formed. */
  lemma AfterSubmitWellFormed(log: seq<Turn>, userInput: string, reply: Completion)
    requires WellFormedLog(log)
    ensures WellFormedLog(AfterSubmit(log, userInput, reply))
  {
    var r := AfterSubmit(log, userInput, reply);
    forall i | 0 < i < |r|
      ensures ReplyFollowsInput(r, i)
    {
      if i < |log| {
        assert ReplyFollowsInput(log, i);
      }
    }
  }

  /** One user interaction: what was typed and what the service answered. */
  datatype Step = Step(input: string, reply: Completion)

  /** The log after a sequence of interactions. */
  function Replay(log: seq<Turn>, steps: seq<Step>): seq<Turn>
    decreases |steps|
  {
    if steps == [] then log
    else Replay(AfterSubmit(log, steps[0].input, steps[0].reply), steps[1..])
  }

  /** Number of interactions whose call succeeded. */
  function Successes(steps: seq<Step>): nat
    decreases |steps|
  {
    if steps == [] then 0
    else (if steps[0].input != [] && steps[0].reply.Reply? then 1 else 0) + Successes(steps[1..])
  }

  /** Number of interactions whose call failed. */
  function Failures(steps: seq<Step>): nat
    decreases |steps|
  {
    if steps == [] then 0
    else (if steps[0].input != [] && steps[0].reply.Failed? then 1 else 0) + Failures(steps[1..])
  }

  /** The log only grows: each success adds two turns, each failure one,
      an empty input none; the turns already there are never changed. */
  lemma {:induction false} ReplayGrowth(log: seq<Turn>, steps: seq<Step>)
    ensures var r := Replay(log, steps);
      |r| == |log| + 2 * Successes(steps) + Failures(steps) && r[..|log|] == log
    decreases |steps|
  {
    if steps != [] {
      var next := AfterSubmit(log, steps[0].input, steps[0].reply);
      ReplayGrowth(next, steps[1..]);
      var r := Replay(log, steps);
      assert r[..|log|] == r[..|next|][..|log|];
    }
  }

  /** Every log reachable from the greeting is well-formed, and in
      particular never holds a system turn. */
  lemma {:induction false} ReplayWellFormed(log: seq<Turn>, steps: seq<Step>)
    requires WellFormedLog(log)
    ensures WellFormedLog(Replay(log, steps))
    decreases |steps|
  {
    if steps != [] {
      AfterSubmitWellFormed(log, steps[0].input, steps[0].reply);
      ReplayWellFormed(AfterSubmit(log, steps[0].input, steps[0].reply), steps[1..]);
    }
  }

  /** Starting from the greeting with no failed call, the log has
      1 + 2 * (successful submits) turns. */
  lemma SessionLength(steps: seq<Step>)
    requires Failures(steps) == 0
    ensures |Replay([GreetingTurn], steps)| == 1 + 2 * Successes(steps)
  {
    ReplayGrowth([GreetingTurn], steps);
  }

  /** The first exchange of a fresh session: the service is sent the system
      instruction, the greeting and the input twice; on success the log is
      greeting, input, reply. */
  lemma FirstExchange(userInput: string, reply: string)
    requires userInput != []
    ensures SubmitCall([GreetingTurn], userInput).messages ==
      [Turn(System, SystemPrompt), GreetingTurn, Turn(User, userInput), Turn(User, userInput)]
    ensures AfterSubmit([GreetingTurn], userInput, Reply(reply)) ==
      [GreetingTurn, Turn(User, userInput), Turn(Assistant, reply)]
  {
  }

  /** What the submit path reports to the page. */
  datatype SubmitOutcome = NoInput | Replied(reply: string) | SubmitFailed(error: ApiError)

  /** What the summary button reports to the page. */
  datatype SummaryOutcome = NothingToSummarize | Summary(text: string) | SummaryFailed(error: ApiError)

  /** What one rerun of the page script does. */
  datatype RunResult = MissingKey | Ran(chat: SubmitOutcome, summary: Option<SummaryOutcome>)

  /** The per-session store of the page framework, holding the message log. */
  class ChatSession {
    /** `st.session_state.messages`; None until the script first seeds it. */
    var messages: Option<seq<Turn>>
    /** Number of submits whose call succeeded, and whose call failed. */
    ghost var successes: nat
    ghost var failures: nat

    ghost predicate Valid()
      reads this
    {
      messages.Some? ==>
        WellFormedLog(messages.value) &&
        |messages.value| == 1 + 2 * successes + failures
    }

    /** A new session: no message log exists yet. */
    constructor ()
      ensures Valid() && messages == None
    {
      messages := None;
      successes, failures := 0, 0;
    }

    /** Seeds the log with the greeting when no log exists; an existing log is left alone. */
    method Seed()
      requires Valid()
      modifies this
      ensures Valid() && messages.Some?
      ensures old(messages).None? ==> messages == Some([GreetingTurn]) && successes == 0 && failures == 0
      ensures old(messages).Some? ==> messages == old(messages) && successes == old(successes) && failures == old(failures)
    {
      if messages.None? {
        messages := Some([GreetingTurn]);
        successes, failures := 0, 0;
      }
    }

    /** The message list of `generate_reply`: the system instruction, a copy of
        every stored turn in order, and the user message. */
    method BuildApiMessages(userMessage: string) returns (apiMessages: seq<Turn>)
      requires messages.Some?
      ensures apiMessages == BuildChatRequest(SystemPrompt, messages.value, userMessage)
    {
      var log := messages.value;
      apiMessages := [Turn(System, SystemPrompt)];
      for i := 0 to |log|
        invariant apiMessages == [Turn(System, SystemPrompt)] + log[..i]
      {
        apiMessages := apiMessages + [Turn(log[i].role, log[i].content)];
        assert log[..i + 1] == log[..i] + [log[i]];
      }
      assert log[..|log|] == log;
      apiMessages := apiMessages + [Turn(User, userMessage)];
    }

    /** `generate_reply`: one call of the completion service, at the chat
        temperature, with the assembled message list. */
    method GenerateReply(userMessage: string, complete: ChatRequest -> Completion)
      returns (request: ChatRequest, reply: Completion)
      requires messages.Some?
      ensures request == ChatCall(messages.value, userMessage)
      ensures request.messages[1..|request.messages| - 1] == messages.value
      ensures request.messages[|request.messages| - 1] == Turn(User, userMessage)
      ensures reply == complete(request)
    {
      var apiMessages := BuildApiMessages(userMessage);
      ChatRequestCarriesLog(SystemPrompt, messages.value, userMessage);
      request := ChatRequest(ModelName, apiMessages, ChatTemperature);
      reply := complete(request);
    }

    /** The submit path. Non-empty input is appended as a user turn, the reply
        is requested with that turn already in the log, and the reply is
        appended only if the call succeeded. `sent` lists the calls made. */
    method Submit(userInput: string, complete: ChatRequest -> Completion)
      returns (sent: seq<ChatRequest>, outcome: SubmitOutcome)
      requires Valid() && messages.Some?
      modifies this
      ensures Valid() && messages.Some?
      ensures var reply := complete(SubmitCall(old(messages).value, userInput));
        messages.value == AfterSubmit(old(messages).value, userInput, reply)
      ensures userInput == [] ==>
        sent == [] && outcome == NoInput &&
        successes == old(successes) && failures == old(failures)
      ensures userInput != [] ==>
        sent == [SubmitCall(old(messages).value, userInput)] &&
        match complete(sent[0])
        case Reply(text) =>
          outcome == Replied(text) && successes == old(successes) + 1 && failures == old(failures)
        case Failed(e) =>
          outcome == SubmitFailed(e) && successes == old(successes) && failures == old(failures) + 1
    {
      ghost var before := messages.value;
      if userInput == [] {
        sent, outcome := [], NoInput;
        return;
      }
      messages := Some(messages.value + [Turn(User, userInput)]);
      var request, reply := GenerateReply(userInput, complete);
      sent := [request];
      AfterSubmitWellFormed(before, userInput, reply);
      match reply {
        case Failed(e) =>
          failures := failures + 1;
          outcome := SubmitFailed(e);
        case Reply(text) =>
          messages := Some(messages.value + [Turn(Assistant, text)]);
          assert messages.value == AfterSubmit(before, userInput, reply);
          successes := successes + 1;
          outcome := Replied(text);
      }
    }

    /** `conversation_text`: one line per stored turn, accumulated in order. */
    method RenderConversationText() returns (text: string)
      requires messages.Some?
      ensures text == ConversationText(messages.value)
    {
      var log := messages.value;
      text := "";
      for i := 0 to |log|
        invariant text == ConversationText(log[..i])
      {
        var speaker := if log[i].role == User then "You" else "Assistant";
        text := text + speaker + ": " + log[i].content + "\n";
        assert log[..i + 1][..i] == log[..i];
      }
      assert log[..|log|] == log;
    }

    /** The summary button. With fewer than two turns it only warns and calls
        nothing; otherwise it makes exactly the summary call. It never changes
        the session (no modifies clause). */
    method Summarize(complete: ChatRequest -> Completion)
      returns (sent: seq<ChatRequest>, outcome: SummaryOutcome)
      requires messages.Some?
      ensures |messages.value| < 2 ==> sent == [] && outcome == NothingToSummarize
      ensures |messages.value| >= 2 ==>
        sent == [SummaryCall(messages.value)] &&
        match complete(sent[0])
        case Reply(text) => outcome == Summary(text)
        case Failed(e) => outcome == SummaryFailed(e)
    {
      if |messages.value| < 2 {
        sent, outcome := [], NothingToSummarize;
        return;
      }
      var conversationText := RenderConversationText();
      var request := ChatRequest(ModelName,
        [Turn(System, SummarySystemText), Turn(User, SummaryPrompt(conversationText))],
        SummaryTemperature);
      sent := [request];
      match complete(request) {
        case Reply(text) => outcome := Summary(text);
        case Failed(e) => outcome := SummaryFailed(e);
      }
    }
  }

  /** The missing-key guard: an absent or empty key stops the script. */
  predicate KeyPresent(apiKey: Option<string>)
  {
    apiKey.Some? && apiKey.value != []
  }

  /** What the submit path reports for `userInput`, given the service's answer. */
  function ChatResult(userInput: string, reply: Completion): SubmitOutcome
  {
    if userInput == [] then NoInput
    else match reply
      case Reply(text) => Replied(text)
      case Failed(e) => SubmitFailed(e)
  }

  /** What the summary button reports for `log`, given the service's answer. */
  function SummaryResult(log: seq<Turn>, reply: Completion): SummaryOutcome
  {
    if |log| < 2 then NothingToSummarize
    else match reply
      case Reply(text) => Summary(text)
      case Failed(e) => SummaryFailed(e)
  }

  /** One rerun of the page script: the key guard, seeding, the submit path
      for the chat input, then the summary button. A failed chat call raises,
      so the summary part of that rerun is not reached. */
  method RunScript(session: ChatSession, apiKey: Option<string>, userInput: string,
                   summaryPressed: bool, complete: ChatRequest -> Completion)
    returns (sent: seq<ChatRequest>, result: RunResult)
    requires session.Valid()
    modifies session
    ensures session.Valid()
    ensures !KeyPresent(apiKey) ==>
      result == MissingKey && sent == [] && session.messages == old(session.messages)
    ensures KeyPresent(apiKey) ==>
      var seeded := if old(session.messages).Some? then old(session.messages).value else [GreetingTurn];
      var chatCalls := if userInput == [] then [] else [SubmitCall(seeded, userInput)];
      var reply := complete(SubmitCall(seeded, userInput));
      var log := AfterSubmit(seeded, userInput, reply);
      var chat := ChatResult(userInput, reply);
      var summarized := summaryPressed && !chat.SubmitFailed?;
      session.messages == Some(log) &&
      result == Ran(chat, if summarized then Some(SummaryResult(log, complete(SummaryCall(log)))) else None) &&
      sent == chatCalls + (if summarized && |log| >= 2 then [SummaryCall(log)] else [])
  {
    if !KeyPresent(apiKey) {
      sent, result := [], MissingKey;
      return;
    }
    session.Seed();
    var chatCalls, chat := session.Submit(userInput, complete);
    if chat.SubmitFailed? || !summaryPressed {
      sent, result := chatCalls, Ran(chat, None);
      return;
    }
    var summaryCalls, summary := session.Summarize(complete);
    sent, result := chatCalls + summaryCalls, Ran(chat, Some(summary));
  }
}
