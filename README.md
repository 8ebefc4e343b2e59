# Leapmotor showroom assistant: conversation tracker and voice selection

This project models, in Dafny, the in-memory decision logic of the Leapmotor
showroom assistant's services:

- **The chat service** (`OpenAIService` in `services/openai.ts`).
  - It classifies each visitor message into one of ten intents, using an
    ordered keyword list where the first match wins.
  - It detects the model codes B10, T03 and C10 in their spelling variants.
  - It keeps a conversation record: current intent, greeting flag, models of
    interest without repeats, and a rolling history of at most ten topics.
  - It moves the record's stage and emotion through a fixed table.
  - It renders the record as a context summary for the system prompt.
  - In demo mode, or when the completion request fails, it answers from canned
    replies.
- **The text-to-speech service** (`OpenAISpeechService` in `services/openaiSpeech.ts`).
  - It picks a voice from the emotion, unless a preferred voice is given.
  - It computes the speech rate as a base speed times an emotion modifier,
    clamped to [0.25, 4.0].
  - It lists its six-voice table.
  - It sets `currentVoice` only for a name in that table.
- **The browser speech service** (`SimpleSpeechService` in
  `services/speechService-simple.ts`).
  - It chooses the "best Brazilian voice" through nine ordered preferences.
    The earliest preference that some voice satisfies wins, and within it the
    first such voice in list order.
  - When no preference is satisfied, it falls back to the first voice.
  - It filters the Portuguese voices.
  - It builds the utterance settings of `speak`, whose language is always pt-BR.

Modules:

| file | module | contents |
|---|---|---|
| `wrappers.dfy` | `Wrappers` | `Option` |
| `text.dfy` | `Text` | `toLowerCase`, `includes`, `startsWith`, `join` and number rendering on `seq<char>` |
| `matching.dfy` | `Matching` | if-chains of keyword tests, first match wins |
| `intents.dfy` | `Intents` | `classifyIntent`, `detectVehicleName` |
| `topics.dfy` | `Topics` | `extractTopicKeywords` |
| `demo.dfy` | `Demo` | `getDemoResponse` |
| `conversation.dfy` | `Conversation` | the context record, `updateContext`, `buildContextPrompt`, the `OpenAIService` class |
| `openai_speech.dfy` | `OpenAISpeech` | voice table, `selectVoiceForEmotion`, `calculateSpeed`, the `OpenAISpeechService` class |
| `simple_speech.dfy` | `SimpleSpeech` | voice preferences, `loadVoices`, `getBrazilianVoices`, the `SimpleSpeechService` class |

The parts of the services that change state are methods of classes:
`OpenAIService`, `OpenAISpeechService` and `SimpleSpeechService`. Each method is
proved against a function over values (`UpdatedContext`, `ContextPrompt`,
`AfterResponse`, `Selected`, and so on), and the lemmas are stated about those
functions.

## Model

All source paths are under `leapmotor-assistant/src/services/`.

| member | source | states |
|---|---|---|
| Text.Lower | leapmotor-assistant/src/services/openai.ts:198 | The lower-cased message has the same length. No upper-case letter is left, every other character is kept, and every upper-case letter becomes the letter 32 code points above it. |
| Text.ContainsIff | leapmotor-assistant/src/services/openai.ts:201 | A literal keyword test holds exactly when the keyword occurs at some position of the message. |
| Text.ContainsTransitive | leapmotor-assistant/src/services/openai.ts:201 | A keyword inside a word that the message contains is contained in the message too. Greeting words therefore match inside other words. |
| Matching.FirstMatchEarliest | leapmotor-assistant/src/services/openai.ts:197-246 | In an if-chain of `return` branches, the first branch whose keywords occur gives the result. |
| Matching.FirstMatchFallbackIff | leapmotor-assistant/src/services/openai.ts:246 | If no branch returns the fallback value, the fallback comes out exactly when no branch fires. |
| Matching.FirstMatchIff | leapmotor-assistant/src/services/openai.ts:197-246 | If the branch values are distinct, the result is branch i's value exactly when branch i is the first to fire. |
| Intents.MentionedVehicles | leapmotor-assistant/src/services/openai.ts:287-309 | A code is listed exactly when one of its spellings occurs in the message. No code is listed twice, and the codes come in B10, T03, C10 order. |
| Intents.DetectVehicleName | leapmotor-assistant/src/services/openai.ts:249-270 | True exactly when some B10, T03 or C10 spelling occurs, that is, exactly when some code is mentioned. |
| Intents.ClassifyIntent | leapmotor-assistant/src/services/openai.ts:197-246 | A message containing a greeting keyword is a greeting, whatever else it contains. The result is general conversation exactly when no branch fires. |
| Intents.ClassifyFirstBranch | leapmotor-assistant/src/services/openai.ts:200-244 | The intent is branch i's intent exactly when branch i is the first of the nine, in source order, whose keywords occur. |
| Intents.VehicleNameClassified | leapmotor-assistant/src/services/openai.ts:236-239 | Any B10, T03 or C10 spelling gives a vehicle inquiry when no earlier branch fired. |
| Intents.NoiteIsGreeting | leapmotor-assistant/src/services/openai.ts:201-203 | A message containing "noite" is a greeting, because "noite" contains "oi". |
| Topics.ExtractTopicKeywords | leapmotor-assistant/src/services/openai.ts:324-355 | A topic is reported exactly when one of its words occurs in the message. There are at most sixteen topics. |
| Topics.ExtractTopicKeywordsNoRepeats | leapmotor-assistant/src/services/openai.ts:324-355 | No topic is reported twice for one message. |
| Topics.TopicsInAppend | leapmotor-assistant/src/services/openai.ts:327-352 | Topics are reported in table order: reading the table in two parts gives the first part's topics, then the second part's. |
| Topics.TopicsInMembers | leapmotor-assistant/src/services/openai.ts:327-352 | A topic is read from a table exactly when it is in the table and the message mentions it. |
| Topics.CostIsPriceAndEconomy | leapmotor-assistant/src/services/openai.ts:335-341 | "custo" belongs to two topics, so a message saying it reports both price and economy. |
| Demo.DemoChoice | leapmotor-assistant/src/services/openai.ts:415-464 | A message containing a demo greeting word gets the welcome reply. The general reply comes out exactly when no branch fires. |
| Demo.DemoFirstBranch | leapmotor-assistant/src/services/openai.ts:418-461 | Branch i's reply comes out exactly when branch i is the first whose words occur. |
| Demo.WelcomeIsGreeting | leapmotor-assistant/src/services/openai.ts:419 | Every message that gets the demo welcome reply is also classified as a greeting. |
| Demo.HyphenatedT03NotInDemo | leapmotor-assistant/src/services/openai.ts:434-436 | "t-03" names a model for the classifier, but gets the general reply in demo mode. |
| Conversation.InitialContextInvariant | leapmotor-assistant/src/services/openai.ts:112-121 | The initial record has no topics and no models, is not greeted, and is at the initial stage. It satisfies the context invariant. |
| Conversation.AddInterestMembers | leapmotor-assistant/src/services/openai.ts:287-309 | After adding codes, the interest list holds exactly the old codes and the added ones. |
| Conversation.AddInterestPrefix | leapmotor-assistant/src/services/openai.ts:287-309 | The interest list only grows: the old list stays, in place, at the front. |
| Conversation.AddInterestNoRepeats | leapmotor-assistant/src/services/openai.ts:290-307 | The include-before-push test keeps every code listed at most once. |
| Conversation.AddInterestAppend | leapmotor-assistant/src/services/openai.ts:287-309 | Adding two lists of codes is the same as adding the first, then the second. |
| Conversation.AddInterestIdempotent | leapmotor-assistant/src/services/openai.ts:287-309 | Mentioning the same codes again changes nothing. |
| Conversation.KeepLastSuffix | leapmotor-assistant/src/services/openai.ts:316-318 | `slice(-10)` keeps the newest min(n, 10) entries. |
| Conversation.AfterEmotionFrame | leapmotor-assistant/src/services/openai.ts:357-379 | The emotion switch touches only emotion and stage. Intents outside the switch change nothing, a goodbye keeps the emotion, and the stage can only become interested or closing. |
| Conversation.UpdatedIntentAndGreeting | leapmotor-assistant/src/services/openai.ts:274-281 | `currentIntent` is the intent passed in. "greeted" is set by a greeting and is never cleared. |
| Conversation.FirstGreeting | leapmotor-assistant/src/services/openai.ts:277-281 | The first greeting gives stage exploring and emotion positive. |
| Conversation.RepeatGreeting | leapmotor-assistant/src/services/openai.ts:277-281 | A later greeting leaves the stage as it was. |
| Conversation.TestDriveAndGoodbye | leapmotor-assistant/src/services/openai.ts:362-372 | A test-drive request gives interested and excited. A goodbye gives closing and keeps the emotion. |
| Conversation.OtherIntentsKeepMood | leapmotor-assistant/src/services/openai.ts:375-378 | Coffee, consultant, appointment, sustainability and general intents keep stage and emotion. |
| Conversation.UpdatedInterest | leapmotor-assistant/src/services/openai.ts:287-309 | The new interest list begins with the old one. A code is in it exactly when it was before or the message names it. |
| Conversation.UpdatedInterestList | leapmotor-assistant/src/services/openai.ts:287-309 | The interest list after a message depends only on the old list and the codes the message names. |
| Conversation.Fresh | leapmotor-assistant/src/services/openai.ts:290-307 | The codes kept are exactly those named and not already listed. |
| Conversation.AddInterestIsFresh | leapmotor-assistant/src/services/openai.ts:287-309 | For codes named once each, the pushes give the old list followed by the codes not yet listed, in the order they are named. |
| Conversation.FreshRanked | leapmotor-assistant/src/services/openai.ts:287-309 | Skipping codes already listed keeps B10, T03, C10 order. |
| Conversation.UpdatedInterestOrder | leapmotor-assistant/src/services/openai.ts:287-309 | After a message, the interest list is the old list followed by the newly named codes, in B10, T03, C10 order. |
| Conversation.UpdatedTopics | leapmotor-assistant/src/services/openai.ts:312-318 | The topic history is the last min(10, n) entries of the old topics followed by the extracted ones, so the oldest entries are evicted first. |
| Conversation.UpdatedContextInvariant | leapmotor-assistant/src/services/openai.ts:272-322 | Every update keeps at most ten topics and no repeated model, and a greeted record is past the initial stage. |
| Conversation.InterestSession | leapmotor-assistant/src/services/openai.ts:272-322 | A greeting, then a B10 message, then a B10-and-T03 message give stage exploring and interest [B10, T03]. |
| Conversation.AfterResponseStage | leapmotor-assistant/src/services/openai.ts:408-413 | Only the stage changes. It is deciding exactly when it was already deciding or the reply contains "test-drive" or "agendar". |
| Conversation.ReplyOf | leapmotor-assistant/src/services/openai.ts:174 | The reply is never empty, and a non-empty completion text is passed through unchanged. |
| Conversation.PromptGreetedLine | leapmotor-assistant/src/services/openai.ts:385-387 | The greeting line is present exactly when the visitor has been greeted. |
| Conversation.PromptInterestLine | leapmotor-assistant/src/services/openai.ts:389-391 | The interest line is present exactly when the interest list is non-empty. |
| Conversation.PromptTopicsLine | leapmotor-assistant/src/services/openai.ts:393-395 | The topics line is present exactly when topics have been discussed. |
| Conversation.PromptFixedLines | leapmotor-assistant/src/services/openai.ts:397-398 | The stage and emotion lines are always present. |
| Conversation.PromptDurationLine | leapmotor-assistant/src/services/openai.ts:400-403 | The duration line is present exactly when more than five minutes have passed, and it carries that number. |
| Conversation.PromptContainsLine | leapmotor-assistant/src/services/openai.ts:381-406 | The text of every line of the summary occurs in the rendered prompt. |
| Conversation.PromptNamesModels | leapmotor-assistant/src/services/openai.ts:389-391 | The prompt names every model of interest. |
| Conversation.PromptNamesTopics | leapmotor-assistant/src/services/openai.ts:393-395 | The prompt names every remembered topic. |
| Conversation.PromptNamesStage | leapmotor-assistant/src/services/openai.ts:397 | The prompt names the stage. |
| Conversation.DurationLineNumber | leapmotor-assistant/src/services/openai.ts:402 | The minutes are written in decimal right after the label, and the digits read back as the same number. |
| Conversation.OpenAIService.constructor | leapmotor-assistant/src/services/openai.ts:89-91 | The service starts with the initial record, uninitialised and without a client. |
| Conversation.OpenAIService.GetContext | leapmotor-assistant/src/services/openai.ts:123-125 | The returned record satisfies the context invariant. |
| Conversation.OpenAIService.Initialize | leapmotor-assistant/src/services/openai.ts:93-110 | An empty key or "demo" selects demo mode. Otherwise the service is initialised exactly when the client could be created. The record is unchanged. |
| Conversation.OpenAIService.ResetContext | leapmotor-assistant/src/services/openai.ts:127-129 | The record becomes the initial one, and nothing else changes. The session clock restarts too, which the elapsed-time parameter stands for. |
| Conversation.OpenAIService.UpdateEmotionalState | leapmotor-assistant/src/services/openai.ts:357-379 | The new record is the emotion table applied to the old one. |
| Conversation.OpenAIService.UpdateContext | leapmotor-assistant/src/services/openai.ts:272-322 | The new record is `UpdatedContext` of the old one, and the invariant is kept. |
| Conversation.OpenAIService.RecordIntent | leapmotor-assistant/src/services/openai.ts:274-281 | The intent is recorded, and the flag, stage and emotion are set on the first greeting. |
| Conversation.OpenAIService.RecordVehicleInterest | leapmotor-assistant/src/services/openai.ts:286-309 | The three conditional pushes add the message's codes, as `AddInterest` does. |
| Conversation.OpenAIService.RecordTopics | leapmotor-assistant/src/services/openai.ts:312-318 | The topics are pushed, and then only the newest ten are kept. |
| Conversation.OpenAIService.UpdateContextWithResponse | leapmotor-assistant/src/services/openai.ts:408-413 | The new record is `AfterResponse` of the old one, and the invariant is kept. |
| Conversation.OpenAIService.BuildContextPrompt | leapmotor-assistant/src/services/openai.ts:381-406 | The string built with `+=` is the summary of the record for the elapsed whole minutes. |
| Conversation.OpenAIService.GetResponse | leapmotor-assistant/src/services/openai.ts:131-194 | Classify, then update. In demo mode, the reply is the demo reply and no request is sent. Otherwise the summary of the updated record is sent. A failed request gives the demo reply. An answer gives its content, or the apology, and passes through `updateContextWithResponse`. |
| OpenAISpeech.LookupVoice | leapmotor-assistant/src/services/openaiSpeech.ts:23-30 | Looking a string up in the voice table gives a voice only when the string is that voice's key. |
| OpenAISpeech.LookupVoiceIff | leapmotor-assistant/src/services/openaiSpeech.ts:336 | The lookup succeeds exactly for the six keys, and every key finds its voice. |
| OpenAISpeech.EffectiveEmotion | leapmotor-assistant/src/services/openaiSpeech.ts:93 | An absent or empty emotion counts as "neutral". Any other emotion is kept. |
| OpenAISpeech.SelectVoiceForEmotion | leapmotor-assistant/src/services/openaiSpeech.ts:138-152 | A preferred voice is returned unchanged. Without one, an emotion outside the table gives alloy. |
| OpenAISpeech.EmotionVoiceTable | leapmotor-assistant/src/services/openaiSpeech.ts:142-149 | Without a preferred voice: excited gives nova, happy fable, cheerful nova, friendly alloy, concerned shimmer and neutral alloy. |
| OpenAISpeech.OtherEmotionIsAlloy | leapmotor-assistant/src/services/openaiSpeech.ts:151 | Any other emotion, and a missing one, gives alloy. |
| OpenAISpeech.EmotionVoiceIsFemale | leapmotor-assistant/src/services/openaiSpeech.ts:143-151 | Without a preferred voice, the chosen voice is always a female voice of the table. |
| OpenAISpeech.RequestVoice | leapmotor-assistant/src/services/openaiSpeech.ts:93 | The voice sent is the preferred voice, or else the emotion's voice. It depends on the options alone. |
| OpenAISpeech.Modifier | leapmotor-assistant/src/services/openaiSpeech.ts:168 | The emotion modifier, with 1.0 for emotions outside the record, is always positive. |
| OpenAISpeech.CalculateSpeed | leapmotor-assistant/src/services/openaiSpeech.ts:154-172 | The rate is always in [0.25, 4.0]. It equals base times modifier when that product is in range, and the nearer bound otherwise. |
| OpenAISpeech.ModifierTable | leapmotor-assistant/src/services/openaiSpeech.ts:159-168 | The modifiers are excited 1.1, happy and cheerful 1.05, concerned 0.9, and 1.0 for every other emotion. |
| OpenAISpeech.DefaultSpeed | leapmotor-assistant/src/services/openaiSpeech.ts:155 | With no speed and no emotion the rate is 1.0. A zero speed acts as an absent one. |
| OpenAISpeech.SpeedMonotone | leapmotor-assistant/src/services/openaiSpeech.ts:154-172 | For a fixed emotion, a higher requested speed never gives a lower rate. |
| OpenAISpeech.GetAvailableVoices | leapmotor-assistant/src/services/openaiSpeech.ts:342-348 | There are six entries, the i-th being the i-th table key with its gender and tone. |
| OpenAISpeech.AvailableVoicesOncePerKey | leapmotor-assistant/src/services/openaiSpeech.ts:342-348 | Every voice is listed, and no voice is listed twice. |
| OpenAISpeech.OpenAISpeechService.constructor | leapmotor-assistant/src/services/openaiSpeech.ts:33 | The initial voice is nova. |
| OpenAISpeech.OpenAISpeechService.SetVoice | leapmotor-assistant/src/services/openaiSpeech.ts:335-340 | A table key becomes the current voice, and any other name leaves the current voice unchanged. |
| OpenAISpeech.OpenAISpeechService.GetCurrentVoice | leapmotor-assistant/src/services/openaiSpeech.ts:350-352 | Returns the current voice. |
| OpenAISpeech.OpenAISpeechService.SpeechParameters | leapmotor-assistant/src/services/openaiSpeech.ts:92-94 | The voice and rate sent to the endpoint are `RequestVoice` and `CalculateSpeed` of the options, so `currentVoice` plays no part. |
| SimpleSpeech.FindFrom | leapmotor-assistant/src/services/speechService-simple.ts:66 | `find` returns the first voice satisfying the preference, or nothing when no voice does. |
| SimpleSpeech.Selected | leapmotor-assistant/src/services/speechService-simple.ts:64-78 | A voice newly put in `bestVoice` is one of the listed voices. With a non-empty list some voice is always held. |
| SimpleSpeech.ChooseEarliest | leapmotor-assistant/src/services/speechService-simple.ts:64-72 | The earliest preference that some voice satisfies wins, with its first satisfying voice. Later preferences are not consulted. |
| SimpleSpeech.SelectedEarliest | leapmotor-assistant/src/services/speechService-simple.ts:64-72 | The same for `bestVoice`: the winning voice replaces whatever was held. |
| SimpleSpeech.ChooseNone | leapmotor-assistant/src/services/speechService-simple.ts:64-72 | When no voice satisfies any preference, the loop selects nothing. |
| SimpleSpeech.SelectedFallback | leapmotor-assistant/src/services/speechService-simple.ts:75-78 | With no preference satisfied, `voices[0]` is taken only when no voice was held and the list is non-empty. Otherwise the held voice stays. |
| SimpleSpeech.SelectedIdempotent | leapmotor-assistant/src/services/speechService-simple.ts:81-90 | Loading the same voice list again, as the voices-changed handler and the timer do, changes nothing. |
| SimpleSpeech.JoanaWins | leapmotor-assistant/src/services/speechService-simple.ts:37-62 | Unless an Eddy or Flo pt-BR voice exists, the first Joana voice of any language wins over every Google, Microsoft or generic pt-BR voice. |
| SimpleSpeech.JoanaBeatsGoogle | leapmotor-assistant/src/services/speechService-simple.ts:43-46 | Given a Google pt-BR voice followed by a Joana pt-PT voice, Joana is chosen. |
| SimpleSpeech.GrandChosenAsAnyBrazilian | leapmotor-assistant/src/services/speechService-simple.ts:49-61 | A pt-BR voice named "Grand" fails preferences five and nine, but is still chosen by preference eight. |
| SimpleSpeech.PortugueseVoices | leapmotor-assistant/src/services/speechService-simple.ts:232-234 | A voice is kept exactly when it is listed and its lang is "pt-BR" or starts with "pt". |
| SimpleSpeech.PortugueseVoicesAppend | leapmotor-assistant/src/services/speechService-simple.ts:232-234 | The filter keeps the original order: filtering a concatenation concatenates the filtered parts. |
| SimpleSpeech.PortugueseIsStartsWithPt | leapmotor-assistant/src/services/speechService-simple.ts:233 | The "pt-BR" test is covered by the "starts with pt" test. |
| SimpleSpeech.SimpleSpeechService.constructor | leapmotor-assistant/src/services/speechService-simple.ts:7-25 | With speech synthesis present, the best voice is selected from the listed voices. Without it, no voice is held and the service is unavailable. |
| SimpleSpeech.SimpleSpeechService.Find | leapmotor-assistant/src/services/speechService-simple.ts:66 | The loop returns `FindFrom` (the first satisfying index). |
| SimpleSpeech.SimpleSpeechService.LoadVoices | leapmotor-assistant/src/services/speechService-simple.ts:28-79 | The preference loop with `break`, followed by the fallback, leaves `Selected(voices, old bestVoice)`. |
| SimpleSpeech.SimpleSpeechService.GetBrazilianVoices | leapmotor-assistant/src/services/speechService-simple.ts:230-235 | The result is empty without synthesis, and otherwise the Portuguese voices in order. |
| SimpleSpeech.SimpleSpeechService.GetCurrentVoice | leapmotor-assistant/src/services/speechService-simple.ts:237-239 | Returns the voice held. |
| SimpleSpeech.SimpleSpeechService.SetVoice | leapmotor-assistant/src/services/speechService-simple.ts:241-244 | The voice held is replaced unconditionally. |
| SimpleSpeech.SimpleSpeechService.Speak | leapmotor-assistant/src/services/speechService-simple.ts:93-143 | An utterance is made exactly when synthesis is available. It uses the held voice and its language is always "pt-BR". The profile follows the voice name (Eddy/Flo, Joana, other), and the Brazilian rewrite applies exactly to Joana voices. |

## Left out

**Not modelled (I/O, timers, interpreters, constants):**

- The completion request in `getResponse` and the `OpenAI` client object are external I/O.
  - The request's outcome is the `completion` parameter.
  - Whether the client constructor succeeded is the `clientCreated` parameter.
  - The conversation history and the system prompt text itself are not modelled; `sent` is the context summary alone.
- `sessionStartTime` and `Date.now()` are the clock. `BuildContextPrompt` and `GetResponse` take the elapsed milliseconds instead, and the minutes are their floor divided by 60000. The milliseconds count from the service's creation or its last `resetContext`, since both create a fresh record with a new `sessionStartTime`.
- `userId` is never set by the service. The imported vehicle data file is never used.
- `toLowerCase` is modelled for ASCII and the Latin-1 capitals U+00C0–U+00DE only. Other Unicode case mappings are not part of this model.
- The `match` regular expressions are modelled as substring tests. This is exact for these patterns, which are alternations of literal words without anchors.
- Speech playback is I/O and callbacks, so the following are not modelled:
  - the TTS audio request, Blob and URL handling, and audio playback (`speakWithOpenAI` beyond the voice and speed it sends);
  - `speakWithWebAPI`, including its female pt-BR voice lookup;
  - `stopSpeaking`, `isSpeaking`, `dispose`, Whisper, and speech recognition.
- `initialize` of the text-to-speech service is left out. It only records whether a client or the browser API is present.
- The browser service's `onvoiceschanged` and `setTimeout` registrations are timers and events. `SelectedIdempotent` covers what their repeated runs of `loadVoices` do when the voice list is unchanged.
- The service's `speak` is not modelled beyond the utterance settings: `cancel()`, the callbacks and `console` output are left out.
- `cleanTextForSpeech` and `makeBrazilian` are chains of global regex replaces with word boundaries and emoji ranges. They would need a regular-expression engine. The model keeps only whether `makeBrazilian` is applied.
- The rate, pitch and volume constants of the speech profiles are left out; only the choice of profile is modelled.
- `testLeapPronunciations` is a timer-driven demonstration.
- `speech.ts` and the React components are not part of this model.
- Speeds are `real`. IEEE rounding and NaN are not modelled.

**Weaker than the source:**

- Conversation.OpenAIService.GetContext: returns a value snapshot of the record. In the source, the shallow copy shares the topic and interest arrays with the live record. That aliasing is not modelled.
- OpenAISpeech.SelectVoiceForEmotion: the emotion is a string looked up in a six-entry map. JavaScript prototype keys such as "constructor", which `emotionToVoice[emotion]` would also find, are not modelled.
- OpenAISpeech.OpenAISpeechService.SetVoice: takes any string and succeeds exactly for the six table keys. In JavaScript, `this.voices[voiceName]` is also truthy for names inherited from `Object.prototype` ("constructor", "toString", "__proto__"), and the source would store such a name. The model leaves `currentVoice` unchanged for them. The TypeScript signature admits only the six keys.
- OpenAISpeech.Modifier: gives 1.0 for every emotion outside the six-entry record. In JavaScript, an emotion naming an `Object.prototype` member (such as "constructor") finds that member, and the product becomes NaN. Such emotions are outside the options type and are not modelled.
- OpenAISpeech.CalculateSpeed: the range guarantee holds for every emotion string in the model. The NaN rate that the source computes for an emotion naming an `Object.prototype` member is not modelled.
- Conversation.OpenAIService.GetResponse: is one atomic step. In the source, `getResponse` awaits the completion between `updateContext` and `updateContextWithResponse`, then reads the emotion and the record. A second call started meanwhile can update the record in that gap, and nothing in the interface prevents one. That interleaving across the await is not modelled.
