/** The gateway to the generative-language service (src/services/geminiService.ts).
    The client library and its network call are an oracle: a total function from
    the request the code builds to what the client produced. Each operation also
    returns the request it handed to the client, or `None` when it made no call. */
module GeminiService {
  import opened Wrappers
  import opened Types
  import JsText

  const ModelName: string := "gemini-2.5-flash"
  const Temperature: real := 0.7

  const MissingKeyReply: string := "חסר מפתח API. אנא וודא שהגדרת את process.env.API_KEY"
  const NoAnswerFallback: string := "מצטער, לא הצלחתי לייצר תשובה כרגע."
  const ServerErrorReply: string := "אירעה שגיאה בתקשורת עם השרת. אנא נסה שנית מאוחר יותר."

  const SummaryMissingKeyReply: string := "חסר מפתח API."
  const NoSummaryFallback: string := "לא ניתן היה לייצר סיכום."
  const SummaryErrorReply: string := "שגיאה ביצירת סיכום."

  /** The system instruction around the webinar context: the assistant's role,
      then the context, then the four directives. */
  const PromptHead: string := "\n      אתה עוזר וירטואלי חכם לפלטפורמת וובינרים בשם \"תקשור\".\n      המטרה שלך היא לעזור למשתמשים להבין את התוכן של הוובינר, לענות על שאלות ולסכם נושאים.\n      \n      הקשר הנוכחי של הוובינר:\n      "
  const PromptTail: string := "\n      \n      הנחיות:\n      1. ענה תמיד בעברית רהוטה ומקצועית.\n      2. היה קצר ולעניין אלא אם כן נשאלת שאלה מורכבת.\n      3. אם אינך יודע את התשובה על סמך ההקשר, אמור זאת בנימוס והצע מידע כללי.\n      4. שמור על טון מכבד, רגוע ותומך.\n    "

  /** The summary request text around the joined topics and the description. */
  const SummaryHead: string := "\n         צור סיכום קצר, מובנה ומזמין עבור וובינר בנושאים הבאים: "
  const SummaryMiddle: string := ".\n         תיאור הוובינר: "
  const SummaryTail: string := ".\n         הסיכום צריך להיות בעברית, מחולק לנקודות עיקריות (בולטים).\n       "

  /** The two roles the chat API accepts in a history. */
  datatype ApiRole = UserTurn | ModelTurn

  datatype Part = Part(text: string)

  /** One history entry as the client receives it. */
  datatype Content = Content(role: ApiRole, parts: seq<Part>)

  /** Everything a chat call carries: model, system instruction, temperature,
      prior turns and the new message. */
  datatype ChatRequest = ChatRequest(
    model: string,
    systemInstruction: string,
    temperature: real,
    history: seq<Content>,
    message: string)

  datatype SummaryRequest = SummaryRequest(model: string, contents: string)

  /** What the client produced: a response whose text may be absent, or a failure. */
  datatype ClientResult = Responded(text: Option<string>) | Failed

  /** The system instruction for a given context. */
  function SystemPrompt(contextData: string): string
  {
    PromptHead + contextData + PromptTail
  }

  /** The context can be read back from the system instruction at a fixed place,
      so the instruction carries it whole and distinct contexts give distinct
      instructions. */
  lemma SystemPromptEmbedsContext(contextData: string)
    ensures var p := SystemPrompt(contextData);
      |p| == |PromptHead| + |contextData| + |PromptTail|
      && p[|PromptHead|..|p| - |PromptTail|] == contextData
  {
  }

  /** One kept message as a history entry. */
  function ToContent(m: ChatMessage): Content
  {
    Content(if m.role == Model then ModelTurn else UserTurn, [Part(m.text)])
  }

  /** `history.filter(msg => msg.role !== 'system')`. */
  function WithoutSystem(h: seq<ChatMessage>): (r: seq<ChatMessage>)
    ensures forall k :: 0 <= k < |r| ==> r[k].role != System
  {
    if h == [] then []
    else WithoutSystem(h[..|h| - 1]) + (if h[|h| - 1].role == System then [] else [h[|h| - 1]])
  }

  /** The history handed to the client: the filtered messages, each mapped. */
  function ToApiHistory(h: seq<ChatMessage>): seq<Content>
  {
    var kept := WithoutSystem(h);
    seq(|kept|, k requires 0 <= k < |kept| => ToContent(kept[k]))
  }

  /** The positions of the non-system messages of `h`, in increasing order: the
      witness that the filter keeps exactly those messages and keeps their order.
      The filtered list is the messages at these positions. */
  function KeptIndices(h: seq<ChatMessage>): (ix: seq<nat>)
    ensures |ix| == |WithoutSystem(h)|
    ensures forall k :: 0 <= k < |ix| ==> ix[k] < |h| && WithoutSystem(h)[k] == h[ix[k]]
  {
    if h == [] then []
    else
      var init, last := h[..|h| - 1], h[|h| - 1];
      var tail: seq<nat> := if last.role == System then [] else [|h| - 1];
      assert h == init + [last];
      assert WithoutSystem(h) == WithoutSystem(init) + (if last.role == System then [] else [last]);
      KeptIndices(init) + tail
  }

  /** The kept positions increase strictly and include every non-system position. */
  lemma {:induction false} KeptIndicesOrderedAndComplete(h: seq<ChatMessage>)
    ensures var ix := KeptIndices(h);
      && (forall k, l :: 0 <= k < l < |ix| ==> ix[k] < ix[l])
      && (forall i :: 0 <= i < |h| && h[i].role != System ==> i in ix)
  {
    if h != [] {
      var init := h[..|h| - 1];
      KeptIndicesOrderedAndComplete(init);
      var ix0 := KeptIndices(init);
      var ix := KeptIndices(h);
      assert forall k :: 0 <= k < |ix0| ==> ix0[k] < |h| - 1;
      assert ix == ix0 + (if h[|h| - 1].role == System then [] else [|h| - 1]);
      forall i | 0 <= i < |h| - 1 && h[i].role != System ensures i in ix {
        assert init[i] == h[i];
      }
    }
  }

  /** The history passed to the client has one entry per non-system message, in
      the original order; an entry's role is `model` exactly when the message's
      role was `model` (`user` otherwise), and its text is the message's text. */
  lemma ApiHistoryIsOrderedProjection(h: seq<ChatMessage>)
    ensures var r, ix := ToApiHistory(h), KeptIndices(h);
      && |r| == |ix|
      && (forall k, l :: 0 <= k < l < |ix| ==> ix[k] < ix[l])
      && (forall i :: 0 <= i < |h| && h[i].role != System ==> i in ix)
      && (forall k :: 0 <= k < |r| ==>
            && ix[k] < |h|
            && h[ix[k]].role != System
            && (r[k].role == ModelTurn <==> h[ix[k]].role == Model)
            && r[k].parts == [Part(h[ix[k]].text)])
  {
  }

  /** Filtering distributes over concatenation. */
  lemma {:induction false} WithoutSystemAppend(a: seq<ChatMessage>, b: seq<ChatMessage>)
    ensures WithoutSystem(a + b) == WithoutSystem(a) + WithoutSystem(b)
  {
    if b != [] {
      var b' := b[..|b| - 1];
      assert (a + b)[..|a + b| - 1] == a + b';
      WithoutSystemAppend(a, b');
    } else {
      assert a + b == a;
    }
  }

  /** The history of a longer conversation extends the history of a shorter one. */
  lemma ApiHistoryAppend(a: seq<ChatMessage>, b: seq<ChatMessage>)
    ensures ToApiHistory(a + b) == ToApiHistory(a) + ToApiHistory(b)
  {
    WithoutSystemAppend(a, b);
  }

  /** `text || fallback`: a non-empty text passes through, anything else becomes
      the fallback, so with a non-empty fallback the result is never empty. */
  function ReplyOr(text: Option<string>, fallback: string): (r: string)
    ensures text.Some? && text.value != "" ==> r == text.value
    ensures r == fallback || (text == Some(r) && r != "")
    ensures fallback != "" ==> r != ""
  {
    if text.Some? && text.value != "" then text.value else fallback
  }

  /** generateWebinarResponse: without a key no call is made and the fixed
      missing-key reply is returned; otherwise one chat request is built and
      sent, a failure becomes the fixed error reply and an empty answer the fixed
      fallback. The reply is never empty. */
  method GenerateWebinarResponse(
    apiKey: string, history: seq<ChatMessage>, newMessage: string, contextData: string,
    client: ChatRequest -> ClientResult)
    returns (reply: string, sent: Option<ChatRequest>)
    ensures reply != ""
    ensures sent.None? <==> apiKey == ""
    ensures sent.None? ==> reply == MissingKeyReply
    ensures sent.Some? ==>
      && sent.value.model == ModelName
      && sent.value.temperature == Temperature
      && sent.value.systemInstruction == SystemPrompt(contextData)
      && sent.value.history == ToApiHistory(history)
      && sent.value.message == newMessage
    ensures sent.Some? ==> match client(sent.value)
      case Failed => reply == ServerErrorReply
      case Responded(text) => reply == ReplyOr(text, NoAnswerFallback)
  {
    if apiKey == "" {
      return MissingKeyReply, None;
    }
    var request := ChatRequest(ModelName, SystemPrompt(contextData), Temperature, ToApiHistory(history), newMessage);
    sent := Some(request);
    match client(request)
    case Failed =>
      reply := ServerErrorReply;
    case Responded(text) =>
      reply := ReplyOr(text, NoAnswerFallback);
  }

  /** The summary request text for a webinar. */
  function SummaryPrompt(webinarDescription: string, topics: seq<string>): string
  {
    SummaryHead + JsText.Join(topics, ", ") + SummaryMiddle + webinarDescription + SummaryTail
  }

  /** The summary request mentions every topic and the description. */
  lemma SummaryPromptMentions(webinarDescription: string, topics: seq<string>)
    ensures forall k :: 0 <= k < |topics| ==> JsText.Contains(SummaryPrompt(webinarDescription, topics), topics[k])
    ensures JsText.Contains(SummaryPrompt(webinarDescription, topics), webinarDescription)
  {
    var joined := JsText.Join(topics, ", ");
    forall k | 0 <= k < |topics|
      ensures JsText.Contains(SummaryPrompt(webinarDescription, topics), topics[k])
    {
      JsText.JoinContainsEach(topics, ", ", k);
      JsText.ContainsPrepend(SummaryHead, joined, topics[k]);
      JsText.ContainsExtend(SummaryHead + joined, SummaryMiddle, topics[k]);
      JsText.ContainsExtend(SummaryHead + joined + SummaryMiddle, webinarDescription, topics[k]);
      JsText.ContainsExtend(SummaryHead + joined + SummaryMiddle + webinarDescription, SummaryTail, topics[k]);
    }
    JsText.ContainsAppended(SummaryHead + joined + SummaryMiddle, webinarDescription);
    JsText.ContainsExtend(SummaryHead + joined + SummaryMiddle + webinarDescription, SummaryTail, webinarDescription);
  }

  /** generateSummary: the same shape as the chat call, with its own fixed
      strings; the summary is never empty. */
  method GenerateSummary(
    apiKey: string, webinarDescription: string, topics: seq<string>,
    client: SummaryRequest -> ClientResult)
    returns (summary: string, sent: Option<SummaryRequest>)
    ensures summary != ""
    ensures sent.None? <==> apiKey == ""
    ensures sent.None? ==> summary == SummaryMissingKeyReply
    ensures sent.Some? ==> sent.value == SummaryRequest(ModelName, SummaryPrompt(webinarDescription, topics))
    ensures sent.Some? ==> match client(sent.value)
      case Failed => summary == SummaryErrorReply
      case Responded(text) => summary == ReplyOr(text, NoSummaryFallback)
  {
    if apiKey == "" {
      return SummaryMissingKeyReply, None;
    }
    var request := SummaryRequest(ModelName, SummaryPrompt(webinarDescription, topics));
    sent := Some(request);
    match client(request)
    case Failed =>
      summary := SummaryErrorReply;
    case Responded(text) =>
      summary := ReplyOr(text, NoSummaryFallback);
  }
}
