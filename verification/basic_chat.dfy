/**
  The plain chatbot: it keeps the conversation, sends the whole of it to the
  model on every message, never offers tools, and reports the model client's
  failures by exception class.
*/
module BasicChat {
  import opened Json
  import opened Conversation

  const RateLimitReply := "Rate limit exceeded. Please try again in a moment."

  /** The text a failed exchange answers with, by exception class: throttling
      always with the same text, the other two with a label followed by the
      exception's own message. */
  function FailureReply(kind: ErrorKind, message: string): (r: string)
    ensures kind == ThrottlingException ==> r == RateLimitReply
    ensures kind != ThrottlingException ==> |r| > |message| && r[|r| - |message|..] == message
    ensures kind == ValidationException ==> r[..|r| - |message|] == "Validation error: "
    ensures kind == OtherException ==> r[..|r| - |message|] == "Unexpected error: "
  {
    match kind
    case ValidationException => "Validation error: " + message
    case ThrottlingException => RateLimitReply
    case OtherException => "Unexpected error: " + message
  }

  /** `send_message`: a blank message changes nothing and asks for none; any
      other is kept, sent without tools, and the first block's text answered
      and kept.  Reading that text failing is an unexpected error. */
  function BasicExchange(history: seq<Turn>, maxTokens: int, message: string, gateway: Gateway): (r: Exchange<()>)
    ensures IsBlank(message) ==> r == Exchange(history, EmptyMessageReply, [], ())
    ensures !IsBlank(message) ==>
              && r.requests == [ModelRequest(AnthropicVersion, maxTokens, history + [Turn(User, Text(message))], None)]
              && |history| + 1 <= |r.history| <= |history| + 2
              && r.history[..|history| + 1] == history + [Turn(User, Text(message))]
    ensures !IsBlank(message) ==>
              (|r.history| == |history| + 2 <==>
                 gateway(r.requests[0]).Replied? && FirstText(gateway(r.requests[0]).body.content).Ok?)
    ensures |r.history| == |history| + 2 ==>
              && r.history[|history| + 1] == Turn(Assistant, Text(r.reply))
              && r.reply == FirstText(gateway(r.requests[0]).body.content).value
    ensures forall k | 0 <= k < |r.requests| :: r.requests[k].tools.None? && r.requests[k].messages <= r.history
  {
    if IsBlank(message) then Exchange(history, EmptyMessageReply, [], ())
    else
      var asked := history + [Turn(User, Text(message))];
      var request := ModelRequest(AnthropicVersion, maxTokens, asked, None);
      match gateway(request)
      case Failed(kind, m) => Exchange(asked, FailureReply(kind, m), [request], ())
      case Replied(body) =>
        match FirstText(body.content)
        case Raised(m) => Exchange(asked, "Unexpected error: " + m, [request], ())
        case Ok(t) => Exchange(asked + [Turn(Assistant, Text(t))], t, [request], ())
  }

  /** The plain chatbot only ever keeps text, and keeps the alternation. */
  predicate TextOnly(h: seq<Turn>) {
    forall i | 0 <= i < |h| :: h[i].content.Text?
  }

  lemma BasicExchangeKeepsShape(history: seq<Turn>, maxTokens: int, message: string,
                                                   gateway: Gateway)
    requires TextOnly(history) && AssistantFollowsUser(history)
    ensures var r := BasicExchange(history, maxTokens, message, gateway);
            TextOnly(r.history) && AssistantFollowsUser(r.history) && ToolUsesAnswered(r.history)
  {
  }

  /** A failed call keeps only the user's turn and is answered by the text of
      its exception class, throttling always by the same fixed text.  An answer
      whose first block holds no text fails the same way, as an unexpected
      error carrying the `IndexError` or `KeyError` text. */
  lemma FailureAnswersByKind(history: seq<Turn>, maxTokens: int, message: string, gateway: Gateway)
    requires !IsBlank(message)
    requires var first := gateway(ModelRequest(AnthropicVersion, maxTokens, history + [Turn(User, Text(message))], None));
             first.Failed? || FirstText(first.body.content).Raised?
    ensures var first := gateway(ModelRequest(AnthropicVersion, maxTokens, history + [Turn(User, Text(message))], None));
            var r := BasicExchange(history, maxTokens, message, gateway);
            && r.history == history + [Turn(User, Text(message))]
            && (first.Failed? && first.kind == ValidationException ==> r.reply == "Validation error: " + first.message)
            && (first.Failed? && first.kind == ThrottlingException ==> r.reply == RateLimitReply)
            && (first.Failed? && first.kind == OtherException ==> r.reply == "Unexpected error: " + first.message)
            && (first.Replied? ==> r.reply == "Unexpected error: " + FirstText(first.body.content).message)
  {
  }

  class Chatbot {
    var history: seq<Turn>
    /** Every request made to the model, in order. */
    ghost var requests: seq<ModelRequest>
    const maxTokens: int
    const gateway: Gateway

    constructor (maxTokens: int, gateway: Gateway)
      ensures this.maxTokens == maxTokens && this.gateway == gateway
      ensures history == [] && requests == []
    {
      this.maxTokens := maxTokens;
      this.gateway := gateway;
      history := [];
      requests := [];
    }

    method SendMessage(message: string) returns (reply: string)
      modifies this
      ensures var r := BasicExchange(old(history), maxTokens, message, gateway);
              history == r.history && reply == r.reply && requests == old(requests) + r.requests
    {
      if IsBlank(message) {
        return EmptyMessageReply;
      }
      history := history + [Turn(User, Text(message))];
      var request := ModelRequest(AnthropicVersion, maxTokens, history, None);
      requests := requests + [request];
      match gateway(request) {
        case Failed(kind, m) =>
          reply := FailureReply(kind, m);
        case Replied(body) =>
          match FirstText(body.content) {
            case Raised(m) =>
              reply := "Unexpected error: " + m;
            case Ok(t) =>
              history := history + [Turn(Assistant, Text(t))];
              reply := t;
          }
      }
    }

    method ResetConversation()
      modifies this
      ensures history == [] && requests == old(requests)
    {
      history := [];
    }

    method GetConversationLength() returns (n: nat)
      ensures n == |history|
    {
      n := |history|;
    }
  }
}
