# Webinar landing page: chat relay and page state, in Dafny

This project models the logic of a promotional webinar site. The rest of the site is presentation.

- **The chat widget's session controller** (`components/ChatInterface.tsx`). It keeps the conversation (`messages`), the text being typed (`input`) and the in-flight flag (`isLoading`). It accepts a send only when the input is not blank and no call is in flight. It appends the user turn at once, and one model turn when the gateway call ends. It resets the conversation to a single greeting when the webinar changes.
- **The gateway** (`src/services/geminiService.ts`). It covers the missing-key short-circuit, the system instruction that embeds the webinar context, and the conversion of chat history into API turns: system messages are dropped, `model` stays `model`, anything else becomes `user`, and order is kept. It also covers the fallback that replaces an empty answer and the catch that turns any client failure into a fixed error reply. The same holds for the summary call.
- **The landing page's own state** (`src/App.tsx`). This is the bonus card's hidden counter: clicks are ignored while the card loads or shows its secret, and the fifth click reveals it. A timer later resets the card. It also includes the FAQ accordion toggle, the three-page selector, and the bonus cards' load-delay schedule.

Modules, one per source file plus two helpers:

- `Wrappers` (wrappers.dfy): `Option`.
- `Types` (types.dfy): `Webinar`, `Role`, `ChatMessage`, following `src/types.ts`.
- `JsText` (js_text.dfy): the JavaScript built-ins the core depends on. These are `String.prototype.trim` with the ECMAScript whitespace set, `Array.prototype.join`, and `Number.prototype.toString` for the clock readings used as ids. It also defines the substring relation used to say what a generated text mentions.
- `GeminiService` (gemini_service.dfy): the gateway. The client library is an oracle: a total function from the request the code builds to `Responded(optional text)` or `Failed`. Each operation returns the request it handed to the client, or `None` when it made no call. This makes "no client call" something a contract can state.
- `ChatInterface` (chat_interface.dfy): class `Session`. `handleSend` is split at its one `await`: `BeginSend` runs up to the gateway call and returns the call's arguments, and `Resolve(outcome)` runs when the call has ended. `SwitchWebinar` may occur between the two, and a late result is then appended to the new conversation, exactly as the source does. `HandleSend` composes the two halves with the real gateway.
- `Landing` (app.dfy): the bonus card as a specification function `Click` on a `CardState` value and a class `BonusCard` whose methods follow it. It also holds the classes `AccordionItem` and `App`, and `BonusDelay`.

`components/ChatInterface.tsx` imports `../types` and `../services/geminiService`. These are taken to be `src/types.ts` and `src/services/geminiService.ts`.

The two `useEffect` calls of the chat component are modelled as follows. The reset effect depends on `currentWebinar.id`, so it runs on mount as well as on every id change. The `welcome` greeting of the initial state is therefore replaced by the `welcome-<id>` greeting right after mounting. `Session.SwitchWebinar(w)` is one render with prop `w` followed by that effect. The first call after construction is the mount.

The gateway of `src/services/geminiService.ts` catches every client failure. So when the chat component calls it, the component's own `catch` branch (`components/ChatInterface.tsx:73-81`) cannot be reached. `Session.Resolve` still models that branch, since a `Threw` outcome is part of the component's contract. `Session.HandleSend` states that, composed with this gateway, every accepted send ends in a non-error model turn.

Message ids come from `Date.now()` and are never checked, so the model makes no uniqueness claim. `isError` is absent on ordinary turns (`src/types.ts:17`), so the model uses `Option<bool>`.

## Model

| member | source | states |
|---|---|---|
| `JsText.Trim` | components/ChatInterface.tsx:43 | `input.trim()` is empty exactly when every character is ECMAScript whitespace; otherwise it is the stretch of the input between its leading and its trailing whitespace (both blank), and it neither starts nor ends with whitespace |
| `JsText.Join` | components/ChatInterface.tsx:60 | `Array.prototype.join`, defined by its body; see `JsText.JoinContainsEach` |
| `JsText.JoinContainsEach` | components/ChatInterface.tsx:60 | every topic occurs in `topics.join(', ')` |
| `JsText.Decimal` | components/ChatInterface.tsx:46 | `Number.prototype.toString` on a clock reading: a non-empty string of decimal digits with no leading zero from 10 up; see `JsText.DecimalRoundTrip` |
| `JsText.DecimalRoundTrip` | components/ChatInterface.tsx:46 | reading back the decimal string of a clock reading gives the reading, so an id determines the clock value it came from |
| `ChatInterface.InitialGreeting` | components/ChatInterface.tsx:13-20 | the initial greeting, defined by its body; see `ChatInterface.GreetingsMentionTitle` |
| `ChatInterface.WelcomeGreeting` | components/ChatInterface.tsx:33-40 | the reset effect's greeting, defined by its body; see `ChatInterface.GreetingsMentionTitle` |
| `ChatInterface.GreetingsMentionTitle` | components/ChatInterface.tsx:13-40 | the initial greeting and the reset greeting are `model` turns with no error flag whose text quotes the webinar title; the reset greeting's id is `welcome-` + webinar id |
| `ChatInterface.ContextData` | components/ChatInterface.tsx:57-61 | the context block, defined by its body; see `ChatInterface.ContextMentionsWebinar` |
| `ChatInterface.ContextMentionsWebinar` | components/ChatInterface.tsx:57-61 | the context block passed to the gateway mentions the title, the description and every topic |
| `ChatInterface.UserMessage` | components/ChatInterface.tsx:45-50 | the user turn (raw input, id from the clock), defined by its body; see `ChatInterface.Session.BeginSend` |
| `ChatInterface.ModelReply` | components/ChatInterface.tsx:65-81 | the turn appended after the call, defined by its body; see `ChatInterface.ModelReplyShape` |
| `ChatInterface.ModelReplyShape` | components/ChatInterface.tsx:65-81 | the turn appended after the call is a `model` turn carrying the returned text, or the fixed non-empty error text; it is flagged as an error exactly when the call threw |
| `ChatInterface.ExchangeExtendsHistory` | components/ChatInterface.tsx:63-72 | after an exchange, the history the next call hands the client grows by exactly one `user` entry and one `model` entry carrying the two texts |
| `ChatInterface.Session.constructor` | components/ChatInterface.tsx:11-20 | empty input, not loading, the conversation is the single `welcome` greeting |
| `ChatInterface.Session.SwitchWebinar` | components/ChatInterface.tsx:32-40 | when the webinar id differs from the one the effect last ran for, the conversation becomes exactly one greeting for the new webinar; otherwise the conversation is unchanged; in both cases `webinar` becomes `w`, so later sends use the new prop's context; input and loading flag untouched; the conversation still opens with a model greeting |
| `ChatInterface.Session.SetInput` | components/ChatInterface.tsx:157-158 | the input becomes the typed text |
| `ChatInterface.Session.SendDisabled` | components/ChatInterface.tsx:172 | the button is disabled exactly when the input is all ECMAScript whitespace (or empty) or a call is in flight |
| `ChatInterface.Session.BeginSend` | components/ChatInterface.tsx:42-63 | rejected (nothing changes, no call) exactly when the input is blank or a call is in flight, which is exactly when the send button is disabled (line 172); otherwise appends one `user` turn with the raw untrimmed input, clears the input, sets loading, and calls the gateway with the conversation as it was before that turn, the input and the current webinar's context |
| `ChatInterface.Session.Resolve` | components/ChatInterface.tsx:65-84 | appends exactly one model turn (the reply, or the error turn) to the current conversation and clears the loading flag whatever the outcome |
| `ChatInterface.Session.HandleSend` | components/ChatInterface.tsx:42-85 | with nothing in between and the real gateway: a rejected send (exactly when the button is disabled) changes nothing and makes no client call; an accepted one appends the user's turn and then a non-error model turn whose text is exactly the gateway's reply, which is the missing-key text with no client call (empty key), or, after the one request built from the conversation before the send, the input and the webinar's context, the server-error text on failure or the client's text with the fallback for an empty answer; the reply is never empty; input cleared, loading ends false |
| `GeminiService.SystemPromptEmbedsContext` | src/services/geminiService.ts:22-34 | the system instruction carries the context data whole, at a fixed position between the fixed head and tail |
| `GeminiService.SystemPrompt` | src/services/geminiService.ts:22-34 | the system instruction, defined by its body; see `GeminiService.SystemPromptEmbedsContext` |
| `GeminiService.WithoutSystem` | src/services/geminiService.ts:43 | the filter: no kept message is a system message; see `GeminiService.KeptIndices` and `GeminiService.KeptIndicesOrderedAndComplete` |
| `GeminiService.ToContent` | src/services/geminiService.ts:44-47 | the map of one message, defined by its body; see `GeminiService.ApiHistoryIsOrderedProjection` |
| `GeminiService.ToApiHistory` | src/services/geminiService.ts:42-47 | the filtered and mapped history, defined by its body; see `GeminiService.ApiHistoryIsOrderedProjection` and `GeminiService.ApiHistoryAppend` |
| `GeminiService.KeptIndices` | src/services/geminiService.ts:42-43 | the filtered list has one element per kept position, and its k-th element is the message at the k-th kept position |
| `GeminiService.KeptIndicesOrderedAndComplete` | src/services/geminiService.ts:42-43 | the kept positions increase strictly and include every non-system position, so the filter keeps exactly the non-system messages in their original order |
| `GeminiService.ApiHistoryIsOrderedProjection` | src/services/geminiService.ts:42-47 | the client history has one entry per non-system message, in the original order; an entry's role is `model` exactly when the message's role was `model`, `user` otherwise; its text is the message's text |
| `GeminiService.ApiHistoryAppend` | src/services/geminiService.ts:42-47 | the conversion distributes over concatenation: a longer conversation's history extends the shorter one's |
| `GeminiService.ReplyOr` | src/services/geminiService.ts:51 | `text \|\| fallback`: a non-empty text passes through, an absent or empty one becomes the fallback; the result is never empty when the fallback is not |
| `GeminiService.GenerateWebinarResponse` | src/services/geminiService.ts:9-57 | the reply is never empty; with an empty key no request is made and the fixed missing-key reply is returned; otherwise exactly one request is made with model `gemini-2.5-flash`, temperature 0.7, the system instruction built from the context, the converted history and the new message; a failure becomes the fixed error reply and an empty answer the fixed fallback |
| `GeminiService.SummaryPrompt` | src/services/geminiService.ts:65-69 | the summary request text, defined by its body; see `GeminiService.SummaryPromptMentions` |
| `GeminiService.SummaryPromptMentions` | src/services/geminiService.ts:65-69 | the summary request mentions every topic and the description |
| `GeminiService.GenerateSummary` | src/services/geminiService.ts:59-75 | the same contract as the chat call with the summary's own fixed strings and request; the summary is never empty |
| `Landing.CardEvents` | src/App.tsx:101-122 | a click while loading or revealed changes nothing; any other click adds exactly 1 and reveals when the count reaches 5; the load timer only clears `loading`; the reset timer sets the count to 0 and hides the secret; all three keep the card consistent (count at most 5, 5 exactly when revealed, 0 while loading) |
| `Landing.Click` | src/App.tsx:108-122 | `handleInteraction` on the card's state, defined by its body; see `Landing.CardEvents`, `Landing.ClicksOnLoadedCard` and `Landing.BonusCard.HandleInteraction` |
| `Landing.LoadTimer` | src/App.tsx:102-104 | the load timer's callback, defined by its body; see `Landing.CardEvents` and `Landing.BonusCard.LoadTimerFires` |
| `Landing.ResetTimer` | src/App.tsx:117-120 | the reset timer's callback, defined by its body; see `Landing.CardEvents` and `Landing.RevealThenReset` |
| `Landing.ClicksOnLoadedCard` | src/App.tsx:108-115 | on a loaded card, n clicks give count n for n < 5; from the fifth on the card is revealed with count 5 |
| `Landing.ClicksWhileLoading` | src/App.tsx:97-109 | any number of clicks on a loading card leaves it unchanged |
| `Landing.RevealThenReset` | src/App.tsx:114-120 | the reset after a reveal returns the card to its loaded, unclicked state |
| `Landing.BonusCard.constructor` | src/App.tsx:96-106 | a new card is loading with count 0, not revealed, with its load timer scheduled |
| `Landing.BonusCard.HandleInteraction` | src/App.tsx:108-122 | the card's new state is `Click` of the old one; the revealing click schedules the reset timer; the card stays consistent |
| `Landing.BonusCard.LoadTimerFires` | src/App.tsx:101-106 | the new state is the old one with `loading` cleared |
| `Landing.BonusCard.ResetTimerFires` | src/App.tsx:117-120 | the secret is hidden and the count is 0; nothing else changes |
| `Landing.BonusDelay` | src/App.tsx:446 | the `i`-th card's delay, defined by its body; see `Landing.BonusDelaysIncrease` |
| `Landing.BonusDelaysIncrease` | src/App.tsx:446 | card delays `1000 + i*200` increase strictly with the index, by 200 per position |
| `Landing.AccordionItem.constructor` | src/App.tsx:68 | an entry starts closed |
| `Landing.AccordionItem.Toggle` | src/App.tsx:72 | a click flips `isOpen`, so two clicks restore it |
| `Landing.App.constructor` | src/App.tsx:246 | the site opens on the home page |
| `Landing.App.OpenTerms` | src/App.tsx:520 | the footer's terms link shows the terms page |
| `Landing.App.OpenPrivacy` | src/App.tsx:521 | the footer's privacy link shows the privacy page |
| `Landing.App.Back` | src/App.tsx:252-253 | the back button of the terms or privacy page returns to the home page |

## Left out

- The generative-language client (`GoogleGenAI`, `ai.chats.create`, `chat.sendMessage`, `ai.models.generateContent`) is a foreign library reached over the network. It is the `client` oracle. Creating the chat and sending the message are one oracle call, so a failure of either is one `Failed` result.
- `process.env.API_KEY` is read from the environment. It is the `apiKey` parameter.
- `Date.now()` and `new Date()` read the clock. The readings are parameters (`now`, `later`), and message timestamps are not modelled. Ids are not claimed unique: the user id and the error id both come from `Date.now()` and can coincide.
- `setTimeout`/`clearTimeout` durations are not modelled. The load and reset timers are events that fire once after being scheduled. The card's `delay` is recorded but not acted on. Unmounting, which clears the load timer, is not modelled.
- Any number of `SwitchWebinar`, `SetInput` and rejected `BeginSend` events may come between `BeginSend` and `Resolve`. Two gateway calls in flight at once are not modelled: the source's guard (`components/ChatInterface.tsx:43`) prevents them only when each handler sees the latest render, and React's batching of state updates and stale closures (for example two clicks handled within one render) are not modelled. No stale-response suppression is added, because the source has none.
- `ChatInterface.Session.HandleSend`: it covers only the case where nothing happens during the call; the interleaved case is `BeginSend`, then other events, then `Resolve`.
- The Enter-key handler (`components/ChatInterface.tsx:87-92`) only calls `handleSend`. It and the rest of the JSX, styling, `scrollIntoView`, textarea auto-resize, `window.scrollTo` and `console` logging are presentation.
- `src/index.tsx` (mounting), `src/components/WebinarCard.tsx` (rendering) and the static copy of the terms and privacy pages are presentation. The `TabType` enum of `src/types.ts` is not used by the modelled code.
