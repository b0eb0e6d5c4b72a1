/** Turns of a conversation, the request sent to the chat-completion service,
    and what that service gives back. */
module Turns {

  datatype Option<T> = None | Some(value: T)

  /** The `role` key of a message dictionary. */
  datatype Role = System | User | Assistant

  /** One message, the dictionary {"role": ..., "content": ...}. */
  datatype Turn = Turn(role: Role, content: string)

  /** Why a call of the completion service failed. */
  datatype ApiError = NetworkError | AuthenticationError | Rejected

  /** The outcome of one call of the completion service: the reply text
      (already stripped of surrounding whitespace) or a failure. */
  datatype Completion = Reply(text: string) | Failed(error: ApiError)

  /** The arguments of one `chat.completions.create` call. The sampling
      temperature is kept in hundredths (40 stands for 0.4). */
  datatype ChatRequest = ChatRequest(model: string, messages: seq<Turn>, temperature: nat)

  /** Model name passed on both call sites. */
  const ModelName: string := "gpt-4.1-mini"

  /** Temperatures of the chat call and of the summary call, in hundredths. */
  const ChatTemperature: nat := 40
  const SummaryTemperature: nat := 30

  /** Stand-in for the chat system instruction; its wording is configuration. */
  const SystemPrompt: string := "<health reflection instructions>"

  /** Stand-in for the canned greeting that seeds every log. */
  const GreetingText: string := "<greeting>"

  /** The single turn a fresh log holds. */
  const GreetingTurn: Turn := Turn(Assistant, GreetingText)

  /** The stored log never holds a system turn. */
  predicate NoSystemTurns(log: seq<Turn>)
  {
    forall i :: 0 <= i < |log| ==> log[i].role != System
  }

  /** The message list `generate_reply(userMessage)` sends: the system
      instruction, then every stored turn in order, then the user message. */
  function BuildChatRequest(systemPrompt: string, log: seq<Turn>, userMessage: string): (r: seq<Turn>)
    ensures |r| == |log| + 2
    ensures r[0] == Turn(System, systemPrompt)
    ensures forall i :: 0 <= i < |log| ==> r[i + 1] == log[i]
    ensures r[|r| - 1] == Turn(User, userMessage)
  {
    [Turn(System, systemPrompt)] + log + [Turn(User, userMessage)]
  }

  /** The request of one chat call for `userMessage` against the stored `log`. */
  function ChatCall(log: seq<Turn>, userMessage: string): (req: ChatRequest)
  {
    ChatRequest(ModelName, BuildChatRequest(SystemPrompt, log, userMessage), ChatTemperature)
  }

  /** When the log holds no system turn, the chat request holds exactly one,
      and it comes first. */
  lemma ChatRequestSingleSystemTurn(systemPrompt: string, log: seq<Turn>, userMessage: string)
    requires NoSystemTurns(log)
    ensures var r := BuildChatRequest(systemPrompt, log, userMessage);
      r[0].role == System && forall i :: 0 < i < |r| ==> r[i].role != System
  {
    var r := BuildChatRequest(systemPrompt, log, userMessage);
    forall i | 0 < i < |r|
      ensures r[i].role != System
    {
      if i <= |log| {
        assert r[i] == log[i - 1];
      }
    }
  }

  /** The stored turns appear in the request unchanged and in order: the
      request with its first and last turn dropped is the log. */
  lemma ChatRequestCarriesLog(systemPrompt: string, log: seq<Turn>, userMessage: string)
    ensures BuildChatRequest(systemPrompt, log, userMessage)[1..|log| + 1] == log
  {
    var r := BuildChatRequest(systemPrompt, log, userMessage);
    assert forall i :: 0 <= i < |log| ==> r[1..|log| + 1][i] == log[i];
  }

  /** At the submit call site the log already ends with the new user turn,
      so the request ends with two identical user turns carrying the input. */
  lemma SubmitRequestRepeatsInput(log: seq<Turn>, userInput: string)
    ensures var r := BuildChatRequest(SystemPrompt, log + [Turn(User, userInput)], userInput);
      |r| == |log| + 3 &&
      r[|r| - 2] == r[|r| - 1] == Turn(User, userInput) &&
      r[1..|log| + 1] == log
  {
    var extended := log + [Turn(User, userInput)];
    var r := BuildChatRequest(SystemPrompt, extended, userInput);
    assert r[|r| - 2] == extended[|log|];
    assert forall i :: 0 <= i < |log| ==> r[1..|log| + 1][i] == extended[i];
  }
}
