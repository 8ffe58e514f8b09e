/** The chat widget's session controller (components/ChatInterface.tsx).
    The component's state (`messages`, `input`, `isLoading`) and its current
    `webinar` prop are the fields of `Session`. The asynchronous `handleSend`
    is split at its one suspension point: `BeginSend` runs up to the gateway
    call and returns the call's arguments, `Resolve` runs once the gateway has
    returned or thrown. A `SwitchWebinar` may happen between the two; the late
    result is then appended to the new conversation, as in the source.
    `Date.now()` readings are parameters (`now`), turned into ids by
    `JsText.Decimal`. */
module ChatInterface {
  import opened Wrappers
  import opened Types
  import JsText
  import GeminiService

  const GreetingHead: string := "שלום! אני העוזר החכם שלך לוובינר \""
  const InitialGreetingTail: string := "\". איך אני יכול לעזור לך להבין את התוכן היום?"
  const WelcomeGreetingTail: string := "\". שאל אותי כל דבר שקשור לנושא!"
  const ErrorText: string := "אופס, נתקלתי בבעיה. נסה שוב מאוחר יותר."

  const TitleLabel: string := "\n        Title: "
  const DescriptionLabel: string := "\n        Description: "
  const TopicsLabel: string := "\n        Topics: "
  const ContextEnd: string := "\n      "

  /** The greeting the component starts with. */
  function InitialGreeting(w: Webinar): ChatMessage
  {
    ChatMessage("welcome", Model, GreetingHead + w.title + InitialGreetingTail, None)
  }

  /** The greeting the reset effect installs for webinar `w`. */
  function WelcomeGreeting(w: Webinar): ChatMessage
  {
    ChatMessage("welcome-" + w.id, Model, GreetingHead + w.title + WelcomeGreetingTail, None)
  }

  /** Both greetings are model turns without an error flag that quote the
      webinar's title; the reset greeting's id is `welcome-` followed by the
      webinar's id. */
  lemma GreetingsMentionTitle(w: Webinar)
    ensures InitialGreeting(w).role == Model && InitialGreeting(w).isError == None
    ensures JsText.Contains(InitialGreeting(w).text, w.title)
    ensures WelcomeGreeting(w).role == Model && WelcomeGreeting(w).isError == None
    ensures WelcomeGreeting(w).id == "welcome-" + w.id
    ensures JsText.Contains(WelcomeGreeting(w).text, w.title)
  {
    JsText.ContainsAppended(GreetingHead, w.title);
    JsText.ContainsExtend(GreetingHead + w.title, InitialGreetingTail, w.title);
    JsText.ContainsExtend(GreetingHead + w.title, WelcomeGreetingTail, w.title);
  }

  /** The context block handed to the gateway for webinar `w`. */
  function ContextData(w: Webinar): string
  {
    TitleLabel + w.title + DescriptionLabel + w.description + TopicsLabel + JsText.Join(w.topics, ", ") + ContextEnd
  }

  /** The context block mentions the title, the description and every topic. */
  lemma ContextMentionsWebinar(w: Webinar)
    ensures JsText.Contains(ContextData(w), w.title)
    ensures JsText.Contains(ContextData(w), w.description)
    ensures forall k :: 0 <= k < |w.topics| ==> JsText.Contains(ContextData(w), w.topics[k])
  {
    var joined := JsText.Join(w.topics, ", ");
    var s1 := TitleLabel + w.title;
    var s2 := s1 + DescriptionLabel;
    var s3 := s2 + w.description;
    var s4 := s3 + TopicsLabel;
    var s5 := s4 + joined;
    assert ContextData(w) == s5 + ContextEnd;
    JsText.ContainsAppended(TitleLabel, w.title);
    JsText.ContainsExtend(s1, DescriptionLabel, w.title);
    JsText.ContainsExtend(s2, w.description, w.title);
    JsText.ContainsExtend(s3, TopicsLabel, w.title);
    JsText.ContainsExtend(s4, joined, w.title);
    JsText.ContainsExtend(s5, ContextEnd, w.title);
    JsText.ContainsAppended(s2, w.description);
    JsText.ContainsExtend(s3, TopicsLabel, w.description);
    JsText.ContainsExtend(s4, joined, w.description);
    JsText.ContainsExtend(s5, ContextEnd, w.description);
    forall k | 0 <= k < |w.topics| ensures JsText.Contains(ContextData(w), w.topics[k]) {
      JsText.JoinContainsEach(w.topics, ", ", k);
      JsText.ContainsPrepend(s4, joined, w.topics[k]);
      JsText.ContainsExtend(s5, ContextEnd, w.topics[k]);
    }
  }

  /** The user turn `handleSend` appends: the raw, untrimmed input. */
  function UserMessage(now: nat, text: string): ChatMessage
  {
    ChatMessage(JsText.Decimal(now), User, text, None)
  }

  /** How the gateway call ended: it returned a string, or it threw. */
  datatype Outcome = Returned(text: string) | Threw

  /** The arguments `handleSend` passes to the gateway. */
  datatype GatewayCall = GatewayCall(history: seq<ChatMessage>, newMessage: string, contextData: string)

  /** The model turn appended once the gateway call has ended. */
  function ModelReply(outcome: Outcome, now: nat): ChatMessage
  {
    match outcome
    case Returned(text) => ChatMessage(JsText.Decimal(now + 1), Model, text, None)
    case Threw => ChatMessage(JsText.Decimal(now), Model, ErrorText, Some(true))
  }

  /** The appended turn is always a model turn; it carries the returned text, or
      the fixed non-empty error text flagged as an error exactly when the call
      threw. */
  lemma ModelReplyShape(outcome: Outcome, now: nat)
    ensures ModelReply(outcome, now).role == Model
    ensures ModelReply(outcome, now).isError == Some(true) <==> outcome.Threw?
    ensures outcome.Returned? ==> ModelReply(outcome, now).text == outcome.text
    ensures outcome.Threw? ==> ModelReply(outcome, now).text != ""
  {
  }

  /** One exchange (a user turn then a model turn) extends the history the next
      gateway call passes to the client by exactly a `user` entry and a `model`
      entry carrying the two texts. */
  lemma ExchangeExtendsHistory(messages: seq<ChatMessage>, user: ChatMessage, reply: ChatMessage)
    requires user.role == User && reply.role == Model
    ensures GeminiService.ToApiHistory(messages + [user, reply])
         == GeminiService.ToApiHistory(messages)
            + [GeminiService.Content(GeminiService.UserTurn, [GeminiService.Part(user.text)]),
               GeminiService.Content(GeminiService.ModelTurn, [GeminiService.Part(reply.text)])]
  {
    GeminiService.ApiHistoryAppend(messages, [user, reply]);
    assert [user, reply][..1] == [user];
    assert [user][..0] == [];
    assert GeminiService.WithoutSystem([user]) == [user];
    assert GeminiService.WithoutSystem([user, reply]) == GeminiService.WithoutSystem([user]) + [reply];
  }

  class Session {
    /** The `currentWebinar` prop of the latest render. */
    var webinar: Webinar
    /** The webinar id the reset effect last ran for; `None` before mounting. */
    var effectId: Option<string>
    var input: string
    var isLoading: bool
    var messages: seq<ChatMessage>

    /** The conversation is never empty and opens with a model greeting. */
    ghost predicate Valid()
      reads this
    {
      |messages| >= 1 && messages[0].role == Model
    }

    /** The component's initial state for webinar `w`, before its effects run. */
    constructor (w: Webinar)
      ensures Valid()
      ensures webinar == w && effectId == None
      ensures input == "" && !isLoading && messages == [InitialGreeting(w)]
    {
      webinar := w;
      effectId := None;
      input := "";
      isLoading := false;
      messages := [InitialGreeting(w)];
    }

    /** A render with `currentWebinar` = `w`, followed by the reset effect, which
        runs when the webinar id differs from the one it last ran for (on mount
        it always runs). The effect replaces the whole list with one greeting;
        input and the loading flag are untouched. */
    method SwitchWebinar(w: Webinar)
      requires Valid()
      modifies this
      ensures Valid()
      ensures webinar == w && effectId == Some(w.id)
      ensures input == old(input) && isLoading == old(isLoading)
      ensures messages == if old(effectId) == Some(w.id) then old(messages) else [WelcomeGreeting(w)]
    {
      webinar := w;
      if effectId != Some(w.id) {
        messages := [WelcomeGreeting(w)];
        effectId := Some(w.id);
      }
    }

    /** The textarea's change handler. */
    method SetInput(text: string)
      requires Valid()
      modifies this`input
      ensures Valid() && input == text
    {
      input := text;
    }

    /** The send button's `disabled` attribute: the input is blank or a call is
        in flight. */
    function SendDisabled(): (r: bool)
      reads this
      ensures r <==> JsText.IsBlank(input) || isLoading
    {
      JsText.Trim(input) == "" || isLoading
    }

    /** The part of `handleSend` before the gateway call. A send is rejected,
        changing nothing, exactly when the send button is disabled: the input is
        blank or a call is in flight. An accepted send appends one user turn with
        the raw input, clears the input, sets the loading flag, and hands the
        gateway the conversation as it was before that turn, the input, and the
        current webinar's context. */
    method BeginSend(now: nat) returns (call: Option<GatewayCall>)
      requires Valid()
      modifies this
      ensures Valid()
      ensures call.None? <==> old(JsText.IsBlank(input) || isLoading)
      ensures call.None? <==> old(SendDisabled())
      ensures call.None? ==> messages == old(messages) && input == old(input) && isLoading == old(isLoading)
      ensures call.Some? ==>
        && messages == old(messages) + [UserMessage(now, old(input))]
        && input == "" && isLoading
        && call.value == GatewayCall(old(messages), old(input), ContextData(webinar))
      ensures webinar == old(webinar) && effectId == old(effectId)
    {
      if JsText.Trim(input) == "" || isLoading {
        return None;
      }
      var userMsg := UserMessage(now, input);
      call := Some(GatewayCall(messages, userMsg.text, ContextData(webinar)));
      messages := messages + [userMsg];
      input := "";
      isLoading := true;
    }

    /** The part of `handleSend` after the gateway call: exactly one model turn
        is appended to whatever the conversation now is, and the loading flag is
        cleared whatever the outcome. */
    method Resolve(outcome: Outcome, now: nat)
      requires Valid() && isLoading
      modifies this
      ensures Valid()
      ensures messages == old(messages) + [ModelReply(outcome, now)]
      ensures !isLoading
      ensures input == old(input) && webinar == old(webinar) && effectId == old(effectId)
    {
      messages := messages + [ModelReply(outcome, now)];
      isLoading := false;
    }

    /** The whole of `handleSend` when nothing else happens while the gateway
        call is in flight, with the gateway of GeminiService. A rejected send
        changes nothing, reaches no gateway (`reply` is `None`) and so makes no
        client call. An accepted one appends the user's turn and then the model
        turn carrying exactly the gateway's reply: the missing-key text with no
        client call, or, after one request built from the conversation before
        the send, the client's text, the fallback or the server-error text.
        Since that gateway catches every client failure, the model turn is never
        an error turn, and the reply is never empty. */
    method HandleSend(now: nat, later: nat, apiKey: string, client: GeminiService.ChatRequest -> GeminiService.ClientResult)
      returns (reply: Option<string>, sent: Option<GeminiService.ChatRequest>)
      requires Valid()
      modifies this
      ensures Valid()
      ensures webinar == old(webinar) && effectId == old(effectId)
      ensures reply.None? <==> old(SendDisabled())
      ensures reply.None? ==> sent.None?
      ensures reply.None? ==> messages == old(messages) && input == old(input) && isLoading == old(isLoading)
      ensures reply.Some? ==>
        && messages == old(messages) + [UserMessage(now, old(input)), ModelReply(Returned(reply.value), later)]
        && messages[|messages| - 1].isError == None
        && reply.value != ""
        && input == "" && !isLoading
      ensures reply.Some? ==> (sent.None? <==> apiKey == "")
      ensures reply.Some? && sent.None? ==> reply.value == GeminiService.MissingKeyReply
      ensures sent.Some? ==>
        sent.value == GeminiService.ChatRequest(
          GeminiService.ModelName, GeminiService.SystemPrompt(ContextData(webinar)), GeminiService.Temperature,
          GeminiService.ToApiHistory(old(messages)), old(input))
      ensures sent.Some? ==> match client(sent.value)
        case Failed => reply == Some(GeminiService.ServerErrorReply)
        case Responded(text) => reply == Some(GeminiService.ReplyOr(text, GeminiService.NoAnswerFallback))
    {
      var call := BeginSend(now);
      if call.None? {
        return None, None;
      }
      var text;
      text, sent := GeminiService.GenerateWebinarResponse(
        apiKey, call.value.history, call.value.newMessage, call.value.contextData, client);
      Resolve(Returned(text), later);
      reply := Some(text);
    }
  }
}
