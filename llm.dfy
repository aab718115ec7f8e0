/** The LLM client's bookkeeping: the checks its constructor makes, the chat
    history it records and the way every failure of a request becomes a reply
    string. The request to the generative model is an outcome the caller
    supplies. */
module Llm {
  import opened Base

  const NO_REPLY: string := "未收到有效回應"
  const FAILURE_PREFIX: string := "API 請求失敗: "

  /** `api_key or os.getenv("GEMINI_API_KEY")` and the checks around it: the
      library must be importable, and an empty or missing key from both the
      argument and the environment raises ValueError. */
  function ResolveApiKey(available: bool, argument: Option<string>, environment: Option<string>): (r: Result<string>)
    ensures !available ==> r == Failure(ImportError)
    ensures available && argument.Some? && argument.value != [] ==> r == Success(argument.value)
    ensures available && (argument.None? || argument.value == []) ==>
              r == (if environment.Some? && environment.value != [] then Success(environment.value) else Failure(ValueError))
    ensures r.Success? ==> r.value != []
  {
    if !available then Failure(ImportError)
    else
      var key := if argument.Some? && argument.value != [] then argument.value else environment.GetOr("");
      if key == [] then Failure(ValueError) else Success(key)
  }

  datatype Role = User | Assistant

  /** One `{"role": ..., "content": ...}` entry of the chat history. */
  datatype ChatEntry = ChatEntry(role: Role, content: string)

  /** What `generate_content` does: return a response whose `text` may be
      empty or missing, or raise an exception with the given message. */
  datatype Outcome = Generated(text: Option<string>) | Raised(message: string)

  /** The reply kept from a response: its text, or a fixed notice when the
      text is empty or missing. */
  function ReplyText(text: Option<string>): (r: string)
    ensures r != []
    ensures text.Some? && text.value != [] ==> r == text.value
    ensures text.None? || text.value == [] ==> r == NO_REPLY
  {
    if text.Some? && text.value != [] then text.value else NO_REPLY
  }

  /** The text returned for a request that raised. */
  function FailureText(message: string): (r: string)
    ensures |r| == |FAILURE_PREFIX| + |message| && r[..|FAILURE_PREFIX|] == FAILURE_PREFIX
    ensures r[|FAILURE_PREFIX|..] == message
  {
    FAILURE_PREFIX + message
  }

  /** A history made of exchanges: user entries at even positions, each
      followed by the assistant's reply. */
  predicate Exchanges(history: seq<ChatEntry>) {
    |history| % 2 == 0
    && forall i :: 0 <= i < |history| ==> history[i].role == (if i % 2 == 0 then User else Assistant)
  }

  /** Appending one user entry and one assistant entry keeps a history made
      of exchanges. */
  lemma {:induction false} ExchangeAppended(history: seq<ChatEntry>, message: string, reply: string)
    requires Exchanges(history)
    ensures Exchanges(history + [ChatEntry(User, message), ChatEntry(Assistant, reply)])
  {
    var h := history + [ChatEntry(User, message), ChatEntry(Assistant, reply)];
    forall i | 0 <= i < |h| ensures h[i].role == (if i % 2 == 0 then User else Assistant) {
      if i < |history| {
        assert h[i] == history[i];
      } else if i == |history| {
        assert i % 2 == 0;
      } else {
        assert i == |history| + 1;
      }
    }
  }

  /** An LLMClient object: the key it was configured with and its chat
      history. Objects exist only once `ResolveApiKey` has succeeded. */
  class LlmClient {
    const apiKey: string
    var chatHistory: seq<ChatEntry>

    ghost predicate Valid()
      reads this
    {
      apiKey != [] && Exchanges(chatHistory)
    }

    constructor (apiKey: string)
      requires apiKey != []
      ensures this.apiKey == apiKey && chatHistory == []
      ensures Valid()
    {
      this.apiKey := apiKey;
      chatHistory := [];
    }

    /** `send_message`: never raises. A response appends the user message and
        the reply to the history and returns the reply; an exception leaves
        the history as it was and returns its message behind a fixed
        prefix. */
    method SendMessage(message: string, outcome: Outcome) returns (reply: string)
      requires Valid()
      modifies this`chatHistory
      ensures Valid()
      ensures reply != []
      ensures outcome.Generated? ==> reply == ReplyText(outcome.text)
                                     && chatHistory == old(chatHistory) + [ChatEntry(User, message), ChatEntry(Assistant, reply)]
      ensures outcome.Raised? ==> reply == FailureText(outcome.message) && chatHistory == old(chatHistory)
    {
      match outcome
      case Raised(e) =>
        reply := FailureText(e);
      case Generated(text) =>
        reply := ReplyText(text);
        ExchangeAppended(chatHistory, message, reply);
        chatHistory := chatHistory + [ChatEntry(User, message)];
        chatHistory := chatHistory + [ChatEntry(Assistant, reply)];
    }

    /** `clear_history`. */
    method ClearHistory()
      requires Valid()
      modifies this`chatHistory
      ensures Valid() && chatHistory == []
    {
      chatHistory := [];
    }
  }
}
