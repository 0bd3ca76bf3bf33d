/**
 * The chat widget (src/components/Chatbot.jsx): an append-only message log
 * that starts with the bot's greeting, a send guard, and the loading flag
 * around the request to the chat backend.  The backend is an oracle: its
 * reply is a parameter.
 */
module Chatbot {
  import Text

  datatype Sender = User | Bot

  datatype Message = Message(sender: Sender, text: string)

  const GreetingText: string :=
    "Olá! Sou o Arthur Lucas. Como posso ajudar com suas dúvidas sobre plantas medicinais e PANC's do Recife?"
  const ApologyText: string :=
    "Desculpe, estou com problemas para me conectar. Tente novamente mais tarde."

  const Greeting: Message := Message(Bot, GreetingText)

  /** The backend's answer to `POST /chat`, or a failed request. */
  datatype Reply = Answered(answer: string) | ConnectionFailed

  /** The guard of `handleSendMessage`: `!inputValue.trim() || isLoading` rejects the send. */
  predicate Accepts(inputValue: string, isLoading: bool) {
    Text.Trim(inputValue) != "" && !isLoading
  }

  /** A send is accepted exactly when the input has a non-whitespace character and nothing is in flight. */
  lemma AcceptsIff(inputValue: string, isLoading: bool)
    ensures Accepts(inputValue, isLoading)
            <==> !isLoading && exists i :: 0 <= i < |inputValue| && !Text.IsWhitespace(inputValue[i])
  {
    Text.TrimEmptyIffBlank(inputValue);
  }

  /** The bot's message for a reply: the answer, or the fixed apology. */
  function BotMessage(reply: Reply): (m: Message)
    ensures m.sender == Bot
    ensures reply.Answered? ==> m.text == reply.answer
    ensures reply.ConnectionFailed? ==> m.text == ApologyText
  {
    match reply
    case Answered(a) => Message(Bot, a)
    case ConnectionFailed => Message(Bot, ApologyText)
  }

  /** One accepted send and the reply it got. */
  datatype Exchange = Exchange(query: string, reply: Reply)

  /** The log after a sequence of completed exchanges. */
  function Transcript(exchanges: seq<Exchange>): seq<Message>
    decreases |exchanges|
  {
    if exchanges == [] then [Greeting]
    else
      var last := exchanges[|exchanges| - 1];
      Transcript(exchanges[..|exchanges| - 1]) + [Message(User, last.query), BotMessage(last.reply)]
  }

  /**
   * The log is the greeting followed, for each exchange, by exactly one
   * user message with the query and one bot message with its reply.
   */
  lemma {:induction false} TranscriptShape(exchanges: seq<Exchange>)
    ensures |Transcript(exchanges)| == 1 + 2 * |exchanges|
    ensures Transcript(exchanges)[0] == Greeting
    ensures forall i :: 0 <= i < |exchanges| ==>
              Transcript(exchanges)[2 * i + 1] == Message(User, exchanges[i].query) &&
              Transcript(exchanges)[2 * i + 2] == BotMessage(exchanges[i].reply)
    decreases |exchanges|
  {
    if exchanges != [] {
      var n := |exchanges| - 1;
      var prefix := exchanges[..n];
      TranscriptShape(prefix);
      forall i | 0 <= i < n
        ensures Transcript(exchanges)[2 * i + 1] == Message(User, exchanges[i].query)
        ensures Transcript(exchanges)[2 * i + 2] == BotMessage(exchanges[i].reply)
      {
        assert exchanges[i] == prefix[i];
      }
    }
  }

  /** Completing an exchange keeps the log and appends exactly two messages. */
  lemma TranscriptGrows(exchanges: seq<Exchange>, e: Exchange)
    ensures Transcript(exchanges) <= Transcript(exchanges + [e])
    ensures |Transcript(exchanges + [e])| == |Transcript(exchanges)| + 2
  {
    assert (exchanges + [e])[..|exchanges|] == exchanges;
  }

  class ChatWindow {
    var isOpen: bool
    var messages: seq<Message>
    var inputValue: string
    var isLoading: bool
    /** The completed exchanges. */
    ghost var exchanges: seq<Exchange>
    /** The query of the request in flight. */
    ghost var pending: seq<string>

    /**
     * The log is the transcript of the completed exchanges, followed by the
     * user message of the request in flight while one is.
     */
    ghost predicate Valid()
      reads this
    {
      && (isLoading <==> |pending| == 1)
      && |pending| <= 1
      && messages == Transcript(exchanges) + (if isLoading then [Message(User, pending[0])] else [])
    }

    constructor ()
      ensures Valid()
      ensures !isOpen && messages == [Greeting] && inputValue == "" && !isLoading
    {
      isOpen := false;
      messages := [Greeting];
      inputValue := "";
      isLoading := false;
      exchanges := [];
      pending := [];
    }

    /** `handleToggleChat`. */
    method HandleToggleChat()
      modifies this`isOpen
      ensures isOpen == !old(isOpen)
    {
      isOpen := !isOpen;
    }

    /** The input's `onChange`. */
    method SetInputValue(value: string)
      modifies this`inputValue
      ensures inputValue == value
    {
      inputValue := value;
    }

    /**
     * `handleSendMessage` up to the request: the guard, the user message,
     * the cleared input and the loading flag.  Returns the query sent.
     */
    method BeginSend() returns (accepted: bool, query: string)
      requires Valid()
      modifies this`messages, this`inputValue, this`isLoading, this`pending
      ensures Valid()
      ensures accepted <==> Accepts(old(inputValue), old(isLoading))
      ensures !accepted ==>
                messages == old(messages) && inputValue == old(inputValue) && isLoading == old(isLoading)
      ensures accepted ==>
                && messages == old(messages) + [Message(User, old(inputValue))]
                && inputValue == "" && isLoading && query == old(inputValue)
      ensures accepted ==> pending == [query]
    {
      if Text.Trim(inputValue) == "" || isLoading {
        return false, "";
      }
      query := inputValue;
      messages := messages + [Message(User, query)];
      inputValue := "";
      isLoading := true;
      pending := [query];
      accepted := true;
    }

    /** The rest of `handleSendMessage` once the backend has replied. */
    method FinishSend(reply: Reply)
      requires Valid() && isLoading
      modifies this`messages, this`isLoading, this`exchanges, this`pending
      ensures Valid()
      ensures messages == old(messages) + [BotMessage(reply)]
      ensures !isLoading
      ensures exchanges == old(exchanges) + [Exchange(old(pending)[0], reply)]
    {
      var e := Exchange(pending[0], reply);
      assert (exchanges + [e])[..|exchanges|] == exchanges;
      exchanges := exchanges + [e];
      messages := messages + [BotMessage(reply)];
      isLoading := false;
      pending := [];
    }

    /** `handleSendMessage` with the backend's reply: nothing, or exactly one user and one bot message. */
    method HandleSendMessage(reply: Reply) returns (accepted: bool, query: string)
      requires Valid()
      modifies this`messages, this`inputValue, this`isLoading, this`exchanges, this`pending
      ensures Valid()
      ensures accepted <==> Accepts(old(inputValue), old(isLoading))
      ensures !accepted ==>
                messages == old(messages) && inputValue == old(inputValue) && isLoading == old(isLoading)
                && exchanges == old(exchanges)
      ensures accepted ==>
                && query == old(inputValue)
                && messages == old(messages) + [Message(User, query), BotMessage(reply)]
                && inputValue == "" && !isLoading
                && exchanges == old(exchanges) + [Exchange(query, reply)]
      ensures old(messages) <= messages
    {
      accepted, query := BeginSend();
      if accepted {
        FinishSend(reply);
      }
    }
  }
}
