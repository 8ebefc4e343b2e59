/**
 * The conversation state of the chat service
 * (leapmotor-assistant/src/services/openai.ts, class OpenAIService): the
 * context record each message updates, the context summary appended to the
 * system prompt, and `getResponse`, which ties classification, context
 * update and reply together.
 */
module Conversation {
  import opened Wrappers
  import opened Text
  import opened Intents
  import opened Topics
  import opened Demo

  /** `conversationStage`. */
  datatype Stage = Initial | Exploring | Interested | Deciding | Closing

  /** `emotionalState`. */
  datatype EmotionalState = Neutral | Positive | Curious | Concerned | Excited

  function StageName(s: Stage): string {
    match s
    case Initial => "initial"
    case Exploring => "exploring"
    case Interested => "interested"
    case Deciding => "deciding"
    case Closing => "closing"
  }

  function EmotionName(e: EmotionalState): string {
    match e
    case Neutral => "neutral"
    case Positive => "positive"
    case Curious => "curious"
    case Concerned => "concerned"
    case Excited => "excited"
  }

  /** `ConversationContext`, without `userId` (never set) and `sessionStartTime`
      (the clock: elapsed time is a parameter of the prompt builder instead). */
  datatype Context = Context(
    previousTopics: seq<Topic>,
    currentIntent: Option<Intent>,
    vehicleInterest: seq<VehicleCode>,
    hasGreeted: bool,
    stage: Stage,
    emotion: EmotionalState)

  /** `createInitialContext`. */
  function InitialContext(): Context {
    Context([], None, [], false, Initial, Neutral)
  }

  predicate NoRepeats<T(==)>(s: seq<T>) {
    forall i, j :: 0 <= i < j < |s| ==> s[i] != s[j]
  }

  /** How many topics the context remembers. */
  const TopicLimit: nat := 10

  /** What every context the service builds satisfies: at most ten topics,
      each model of interest listed once, and a greeted visitor is past the
      initial stage. */
  predicate ContextInvariant(ctx: Context) {
    |ctx.previousTopics| <= TopicLimit
    && NoRepeats(ctx.vehicleInterest)
    && (ctx.hasGreeted ==> ctx.stage != Initial)
  }

  lemma InitialContextInvariant()
    ensures ContextInvariant(InitialContext())
    ensures InitialContext().stage == Initial && !InitialContext().hasGreeted
  {
  }

  /** `if (!vehicleInterest.includes(c)) vehicleInterest.push(c)` for each
      mentioned code in turn. */
  function AddInterest(vs: seq<VehicleCode>, codes: seq<VehicleCode>): seq<VehicleCode>
    decreases |codes|
  {
    if codes == [] then vs
    else AddInterest(AddCode(vs, codes[0]), codes[1..])
  }

  function AddCode(vs: seq<VehicleCode>, c: VehicleCode): seq<VehicleCode> {
    if c in vs then vs else vs + [c]
  }

  /** Adding two lists of codes is adding the first, then the second. */
  lemma {:induction false} AddInterestAppend(vs: seq<VehicleCode>, a: seq<VehicleCode>, b: seq<VehicleCode>)
    ensures AddInterest(vs, a + b) == AddInterest(AddInterest(vs, a), b)
    decreases |a|
  {
    if a == [] {
      assert a + b == b;
    } else {
      assert (a + b)[0] == a[0] && (a + b)[1..] == a[1..] + b;
      AddInterestAppend(AddCode(vs, a[0]), a[1..], b);
    }
  }

  /** The interest list gains exactly the mentioned codes. */
  lemma {:induction false} AddInterestMembers(vs: seq<VehicleCode>, codes: seq<VehicleCode>, c: VehicleCode)
    ensures c in AddInterest(vs, codes) <==> c in vs || c in codes
    decreases |codes|
  {
    if codes != [] {
      var vs' := AddCode(vs, codes[0]);
      AddInterestMembers(vs', codes[1..], c);
      assert codes == [codes[0]] + codes[1..];
    }
  }

  /** The earlier interest list is kept, in place, at the front. */
  lemma {:induction false} AddInterestPrefix(vs: seq<VehicleCode>, codes: seq<VehicleCode>)
    ensures |vs| <= |AddInterest(vs, codes)|
    ensures AddInterest(vs, codes)[..|vs|] == vs
    decreases |codes|
  {
    if codes != [] {
      var vs' := AddCode(vs, codes[0]);
      AddInterestPrefix(vs', codes[1..]);
      assert vs'[..|vs|] == vs;
    }
  }

  /** No code is listed twice. */
  lemma {:induction false} AddInterestNoRepeats(vs: seq<VehicleCode>, codes: seq<VehicleCode>)
    requires NoRepeats(vs)
    ensures NoRepeats(AddInterest(vs, codes))
    decreases |codes|
  {
    if codes != [] {
      var vs' := AddCode(vs, codes[0]);
      assert NoRepeats(vs');
      AddInterestNoRepeats(vs', codes[1..]);
    }
  }

  /** Mentioning codes already listed changes nothing. */
  lemma {:induction false} AddInterestKnown(vs: seq<VehicleCode>, codes: seq<VehicleCode>)
    requires forall i :: 0 <= i < |codes| ==> codes[i] in vs
    ensures AddInterest(vs, codes) == vs
    decreases |codes|
  {
    if codes != [] {
      AddInterestKnown(vs, codes[1..]);
    }
  }

  /** Mentioning the same codes again changes nothing. */
  lemma AddInterestIdempotent(vs: seq<VehicleCode>, codes: seq<VehicleCode>)
    ensures AddInterest(AddInterest(vs, codes), codes) == AddInterest(vs, codes)
  {
    forall i | 0 <= i < |codes| ensures codes[i] in AddInterest(vs, codes) {
      AddInterestMembers(vs, codes, codes[i]);
    }
    AddInterestKnown(AddInterest(vs, codes), codes);
  }

  /** The codes of `codes` not already in vs, in their order. */
  function Fresh(vs: seq<VehicleCode>, codes: seq<VehicleCode>): (r: seq<VehicleCode>)
    ensures forall c :: c in r <==> c in codes && c !in vs
    decreases |codes|
  {
    if codes == [] then []
    else if codes[0] in vs then Fresh(vs, codes[1..])
    else [codes[0]] + Fresh(vs, codes[1..])
  }

  /** A code that does not occur among `codes` does not change what is fresh. */
  lemma {:induction false} FreshIgnores(vs: seq<VehicleCode>, c: VehicleCode, codes: seq<VehicleCode>)
    requires c !in codes
    ensures Fresh(vs + [c], codes) == Fresh(vs, codes)
    decreases |codes|
  {
    if codes != [] {
      assert codes[0] != c && c !in codes[1..];
      FreshIgnores(vs, c, codes[1..]);
    }
  }

  /** Codes named once each are appended after the existing entries, in the
      order they are named, skipping those already listed. */
  lemma {:induction false} AddInterestIsFresh(vs: seq<VehicleCode>, codes: seq<VehicleCode>)
    requires NoRepeats(codes)
    ensures AddInterest(vs, codes) == vs + Fresh(vs, codes)
    decreases |codes|
  {
    if codes != [] {
      var rest := codes[1..];
      assert NoRepeats(rest) by {
        forall i, j | 0 <= i < j < |rest| ensures rest[i] != rest[j] {
          assert rest[i] == codes[i + 1] && rest[j] == codes[j + 1];
        }
      }
      AddInterestIsFresh(AddCode(vs, codes[0]), rest);
      if codes[0] !in vs {
        assert codes[0] !in rest by {
          forall i | 0 <= i < |rest| ensures rest[i] != codes[0] {
            assert rest[i] == codes[i + 1];
          }
        }
        FreshIgnores(vs, codes[0], rest);
        assert vs + [codes[0]] + Fresh(vs, rest) == vs + ([codes[0]] + Fresh(vs, rest));
      }
    }
  }

  /** The codes come in strictly increasing B10, T03, C10 order. */
  predicate Ranked(codes: seq<VehicleCode>) {
    forall i, j :: 0 <= i < j < |codes| ==> CodeRank(codes[i]) < CodeRank(codes[j])
  }

  lemma RankedCons(c: VehicleCode, r: seq<VehicleCode>)
    requires Ranked(r) && forall x :: x in r ==> CodeRank(c) < CodeRank(x)
    ensures Ranked([c] + r)
  {
    var f := [c] + r;
    forall i, j | 0 <= i < j < |f| ensures CodeRank(f[i]) < CodeRank(f[j]) {
      assert f[j] == r[j - 1];
      if i > 0 {
        assert f[i] == r[i - 1];
      }
    }
  }

  /** Filtering a list in increasing rank order keeps it in increasing rank order. */
  lemma {:induction false} FreshRanked(vs: seq<VehicleCode>, codes: seq<VehicleCode>)
    requires Ranked(codes)
    ensures Ranked(Fresh(vs, codes))
    decreases |codes|
  {
    if codes != [] {
      var rest := codes[1..];
      assert Ranked(rest) by {
        forall i, j | 0 <= i < j < |rest| ensures CodeRank(rest[i]) < CodeRank(rest[j]) {
          assert rest[i] == codes[i + 1] && rest[j] == codes[j + 1];
        }
      }
      FreshRanked(vs, rest);
      var r := Fresh(vs, rest);
      if codes[0] !in vs {
        forall x | x in r ensures CodeRank(codes[0]) < CodeRank(x) {
          var k :| 0 <= k < |rest| && rest[k] == x;
          assert codes[k + 1] == x;
        }
        RankedCons(codes[0], r);
      }
    }
  }

  /** `if (s.length > n) s = s.slice(-n)`. */
  function KeepLast<T>(s: seq<T>, n: nat): seq<T> {
    if |s| > n then s[|s| - n..] else s
  }

  /** The kept part is the newest n entries, or everything when there are no more. */
  lemma KeepLastSuffix<T>(s: seq<T>, n: nat)
    ensures |KeepLast(s, n)| == if |s| <= n then |s| else n
    ensures KeepLast(s, n) == s[|s| - |KeepLast(s, n)|..]
  {
  }

  /** The switch of `updateEmotionalState`. */
  function AfterEmotion(ctx: Context, intent: Intent): Context {
    match intent
    case Greeting => ctx.(emotion := Positive)
    case TestDriveRequest => ctx.(emotion := Excited, stage := Interested)
    case VehicleInquiry => ctx.(emotion := Curious)
    case FinancingInquiry => ctx.(emotion := Concerned)
    case Goodbye => ctx.(stage := Closing)
    case _ => ctx
  }

  /** `updateEmotionalState` touches only the emotion and the stage, and the
      intents it does not list leave both as they were. */
  lemma AfterEmotionFrame(ctx: Context, intent: Intent)
    ensures var c := AfterEmotion(ctx, intent);
      c.previousTopics == ctx.previousTopics && c.vehicleInterest == ctx.vehicleInterest
      && c.hasGreeted == ctx.hasGreeted && c.currentIntent == ctx.currentIntent
    ensures intent !in {Greeting, TestDriveRequest, VehicleInquiry, FinancingInquiry, Goodbye}
      ==> AfterEmotion(ctx, intent) == ctx
    ensures intent == Goodbye ==> AfterEmotion(ctx, intent).emotion == ctx.emotion
    ensures AfterEmotion(ctx, intent).stage in {ctx.stage, Interested, Closing}
  {
  }

  /** The first steps of `updateContext`: record the intent and, on the
      first greeting, move to exploring in a positive mood. */
  function Greet(ctx: Context, intent: Intent): Context {
    var c := ctx.(currentIntent := Some(intent));
    if intent == Greeting && !c.hasGreeted
    then c.(hasGreeted := true, stage := Exploring, emotion := Positive)
    else c
  }

  /** The codes the lower-cased message names join the models of interest. */
  function NoteInterest(ctx: Context, lower: string): Context {
    ctx.(vehicleInterest := AddInterest(ctx.vehicleInterest, MentionedVehicles(lower)))
  }

  /** The message's topics are appended and only the newest ten kept. */
  function NoteTopics(ctx: Context, message: string): Context {
    ctx.(previousTopics := KeepLast(ctx.previousTopics + ExtractTopicKeywords(message), TopicLimit))
  }

  /** The context after `updateContext(message, intent)`. */
  function UpdatedContext(ctx: Context, message: string, intent: Intent): Context {
    AfterEmotion(NoteTopics(NoteInterest(Greet(ctx, intent), Lower(message)), message), intent)
  }

  /** The record keeps the message's intent; "greeted" is set by a greeting
      and never cleared. */
  lemma UpdatedIntentAndGreeting(ctx: Context, message: string, intent: Intent)
    ensures UpdatedContext(ctx, message, intent).currentIntent == Some(intent)
    ensures UpdatedContext(ctx, message, intent).hasGreeted <==> ctx.hasGreeted || intent == Greeting
  {
  }

  /** The first greeting moves the conversation to exploring, in a positive mood. */
  lemma FirstGreeting(ctx: Context, message: string)
    requires !ctx.hasGreeted
    ensures UpdatedContext(ctx, message, Greeting).stage == Exploring
    ensures UpdatedContext(ctx, message, Greeting).emotion == Positive
  {
  }

  /** Greeting again leaves the stage alone. */
  lemma RepeatGreeting(ctx: Context, message: string)
    requires ctx.hasGreeted
    ensures UpdatedContext(ctx, message, Greeting).stage == ctx.stage
    ensures UpdatedContext(ctx, message, Greeting).emotion == Positive
  {
  }

  /** A test-drive request makes the visitor interested and excited; a goodbye
      closes the conversation without touching the mood. */
  lemma TestDriveAndGoodbye(ctx: Context, message: string)
    ensures UpdatedContext(ctx, message, TestDriveRequest).stage == Interested
    ensures UpdatedContext(ctx, message, TestDriveRequest).emotion == Excited
    ensures UpdatedContext(ctx, message, Goodbye).stage == Closing
    ensures UpdatedContext(ctx, message, Goodbye).emotion == ctx.emotion
  {
  }

  /** Intents outside the switch keep stage and mood. */
  lemma OtherIntentsKeepMood(ctx: Context, message: string, intent: Intent)
    requires intent in {CoffeeRequest, ConsultantRequest, AppointmentRequest, SustainabilityQuestion, GeneralConversation}
    ensures UpdatedContext(ctx, message, intent).stage == ctx.stage
    ensures UpdatedContext(ctx, message, intent).emotion == ctx.emotion
  {
  }

  /** The models of interest are the earlier ones, in their order, followed by
      the models this message newly names. */
  lemma UpdatedInterest(ctx: Context, message: string, intent: Intent, c: VehicleCode)
    ensures var vs := UpdatedContext(ctx, message, intent).vehicleInterest;
      |ctx.vehicleInterest| <= |vs| && vs[..|ctx.vehicleInterest|] == ctx.vehicleInterest
      && (c in vs <==> c in ctx.vehicleInterest || ContainsAny(Lower(message), Variants(c)))
  {
    var codes := MentionedVehicles(Lower(message));
    AddInterestMembers(ctx.vehicleInterest, codes, c);
    AddInterestPrefix(ctx.vehicleInterest, codes);
  }

  /** The models a message newly names are appended after the earlier ones, in
      B10, T03, C10 order. */
  lemma UpdatedInterestOrder(ctx: Context, message: string, intent: Intent)
    ensures var added := Fresh(ctx.vehicleInterest, MentionedVehicles(Lower(message)));
      UpdatedContext(ctx, message, intent).vehicleInterest == ctx.vehicleInterest + added
      && Ranked(added)
  {
    var codes := MentionedVehicles(Lower(message));
    AddInterestIsFresh(ctx.vehicleInterest, codes);
    FreshRanked(ctx.vehicleInterest, codes);
  }

  /** The remembered topics are the newest ten of the old ones followed by the
      message's topics. */
  lemma UpdatedTopics(ctx: Context, message: string, intent: Intent)
    ensures var all := ctx.previousTopics + ExtractTopicKeywords(message);
      var kept := UpdatedContext(ctx, message, intent).previousTopics;
      |kept| == (if |all| <= TopicLimit then |all| else TopicLimit)
      && kept == all[|all| - |kept|..]
  {
    var all := ctx.previousTopics + ExtractTopicKeywords(message);
    var noted := NoteInterest(Greet(ctx, intent), Lower(message));
    assert noted.previousTopics == ctx.previousTopics;
    assert UpdatedContext(ctx, message, intent).previousTopics == KeepLast(all, TopicLimit) by {
      assert NoteTopics(noted, message).previousTopics == KeepLast(all, TopicLimit);
    }
    KeepLastSuffix(all, TopicLimit);
  }

  /** Every update keeps the context invariant. */
  lemma UpdatedContextInvariant(ctx: Context, message: string, intent: Intent)
    requires ContextInvariant(ctx)
    ensures ContextInvariant(UpdatedContext(ctx, message, intent))
  {
    AddInterestNoRepeats(ctx.vehicleInterest, MentionedVehicles(Lower(message)));
  }

  /** The models of interest after a message depend only on the earlier ones
      and on the codes the message names. */
  lemma UpdatedInterestList(ctx: Context, message: string, intent: Intent)
    ensures UpdatedContext(ctx, message, intent).vehicleInterest
         == AddInterest(ctx.vehicleInterest, MentionedVehicles(Lower(message)))
  {
  }

  /** A visitor who greets, then names B10, then names B10 and T03, is
      interested in B10 and T03, in that order. */
  lemma InterestSession(m1: string, m2: string, m3: string, i2: Intent, i3: Intent)
    requires MentionedVehicles(Lower(m1)) == []
    requires MentionedVehicles(Lower(m2)) == [B10]
    requires MentionedVehicles(Lower(m3)) == [B10, T03]
    ensures var c1 := UpdatedContext(InitialContext(), m1, Greeting);
      var c3 := UpdatedContext(UpdatedContext(c1, m2, i2), m3, i3);
      c1.stage == Exploring && c3.vehicleInterest == [B10, T03] && c3.hasGreeted
  {
    var c1 := UpdatedContext(InitialContext(), m1, Greeting);
    var c2 := UpdatedContext(c1, m2, i2);
    var c3 := UpdatedContext(c2, m3, i3);
    assert c1.vehicleInterest == [] && c1.stage == Exploring && c1.hasGreeted by {
      UpdatedInterestList(InitialContext(), m1, Greeting);
      FirstGreeting(InitialContext(), m1);
      UpdatedIntentAndGreeting(InitialContext(), m1, Greeting);
    }
    assert c2.vehicleInterest == [B10] && c2.hasGreeted by {
      UpdatedInterestList(c1, m2, i2);
      UpdatedIntentAndGreeting(c1, m2, i2);
    }
    assert c3.vehicleInterest == [B10, T03] && c3.hasGreeted by {
      UpdatedInterestList(c2, m3, i3);
      assert AddInterest([B10], [B10, T03]) == [B10, T03];
      UpdatedIntentAndGreeting(c2, m3, i3);
    }
  }

  /** `updateContextWithResponse`: a reply offering a test-drive or a booking
      moves the conversation to deciding. */
  function AfterResponse(ctx: Context, response: string): Context {
    if Contains(response, "test-drive") || Contains(response, "agendar") then ctx.(stage := Deciding) else ctx
  }

  lemma AfterResponseStage(ctx: Context, response: string)
    ensures AfterResponse(ctx, response) == ctx.(stage := AfterResponse(ctx, response).stage)
    ensures AfterResponse(ctx, response).stage == Deciding
      <==> ctx.stage == Deciding || Contains(response, "test-drive") || Contains(response, "agendar")
    ensures ContextInvariant(ctx) ==> ContextInvariant(AfterResponse(ctx, response))
  {
  }

  /** One line of the context summary `buildContextPrompt` writes. */
  datatype PromptLine =
    | GreetedLine
    | InterestLine(codes: seq<VehicleCode>)
    | TopicsLine(topics: seq<Topic>)
    | StageLine(stage: Stage)
    | EmotionLine(emotion: EmotionalState)
    | DurationLine(minutes: nat)

  const PromptHeader := "\n\nCONTEXTO DA CONVERSA:"

  function CodeNames(codes: seq<VehicleCode>): (names: seq<string>)
    ensures |names| == |codes|
    ensures forall i :: 0 <= i < |codes| ==> names[i] == CodeName(codes[i])
  {
    seq(|codes|, i requires 0 <= i < |codes| => CodeName(codes[i]))
  }

  function TopicNames(topics: seq<Topic>): (names: seq<string>)
    ensures |names| == |topics|
    ensures forall i :: 0 <= i < |topics| ==> names[i] == TopicName(topics[i])
  {
    seq(|topics|, i requires 0 <= i < |topics| => TopicName(topics[i]))
  }

  const InterestPrefix := "\n- Cliente demonstrou interesse em: "
  const TopicsPrefix := "\n- Tópicos já discutidos: "
  const StagePrefix := "\n- Estágio da conversa: "
  const EmotionPrefix := "\n- Estado emocional percebido: "
  const DurationPrefix := "\n- Cliente está há "
  const DurationSuffix := " minutos conversando - demonstre interesse genuíno"

  function LineText(l: PromptLine): string {
    match l
    case GreetedLine => "\n- Cliente já foi cumprimentado"
    case InterestLine(codes) => InterestPrefix + Join(CodeNames(codes), ", ")
    case TopicsLine(topics) => TopicsPrefix + Join(TopicNames(topics), ", ")
    case StageLine(s) => StagePrefix + StageName(s)
    case EmotionLine(e) => EmotionPrefix + EmotionName(e)
    case DurationLine(m) => DurationPrefix + NatToString(m) + DurationSuffix
  }

  /** `lines` followed by l when b holds. */
  function AppendIf(lines: seq<PromptLine>, b: bool, l: PromptLine): seq<PromptLine> {
    if b then lines + [l] else lines
  }

  /** The lines of the summary for a context and a session length in whole
      minutes, in the order `buildContextPrompt` appends them. */
  function PromptLines(ctx: Context, minutes: nat): seq<PromptLine> {
    var greeted := AppendIf([], ctx.hasGreeted, GreetedLine);
    var interest := AppendIf(greeted, |ctx.vehicleInterest| > 0, InterestLine(ctx.vehicleInterest));
    var topics := AppendIf(interest, |ctx.previousTopics| > 0, TopicsLine(ctx.previousTopics));
    AppendIf(topics + [StageLine(ctx.stage)] + [EmotionLine(ctx.emotion)], minutes > 5, DurationLine(minutes))
  }

  function LineTexts(lines: seq<PromptLine>): (ts: seq<string>)
    ensures |ts| == |lines|
    ensures forall i :: 0 <= i < |lines| ==> ts[i] == LineText(lines[i])
  {
    seq(|lines|, i requires 0 <= i < |lines| => LineText(lines[i]))
  }

  /** The header followed by the lines' texts. */
  function Render(lines: seq<PromptLine>): string {
    Concat(PromptHeader, LineTexts(lines))
  }

  /** Appending a line appends its text. */
  lemma RenderSnoc(lines: seq<PromptLine>, l: PromptLine)
    ensures Render(lines + [l]) == Render(lines) + LineText(l)
  {
    assert LineTexts(lines + [l]) == LineTexts(lines) + [LineText(l)];
    ConcatSnoc(PromptHeader, LineTexts(lines), LineText(l));
  }

  /** Appending a line that may be absent, as an `if` around `+=` does. */
  lemma RenderAppendIf(prompt: string, lines: seq<PromptLine>, b: bool, l: PromptLine)
    requires prompt == Render(lines)
    ensures (if b then prompt + LineText(l) else prompt) == Render(AppendIf(lines, b, l))
  {
    if b {
      RenderSnoc(lines, l);
    }
  }

  /** `buildContextPrompt`'s text for a context and a session length in minutes. */
  function ContextPrompt(ctx: Context, minutes: nat): string {
    Render(PromptLines(ctx, minutes))
  }

  /** The greeting line is there exactly when the visitor has been greeted. */
  lemma PromptGreetedLine(ctx: Context, minutes: nat)
    ensures GreetedLine in PromptLines(ctx, minutes) <==> ctx.hasGreeted
  {
  }

  /** The interest line is there exactly when some model has caught the visitor's interest. */
  lemma PromptInterestLine(ctx: Context, minutes: nat)
    ensures InterestLine(ctx.vehicleInterest) in PromptLines(ctx, minutes) <==> ctx.vehicleInterest != []
  {
  }

  /** The topics line is there exactly when topics have been discussed. */
  lemma PromptTopicsLine(ctx: Context, minutes: nat)
    ensures TopicsLine(ctx.previousTopics) in PromptLines(ctx, minutes) <==> ctx.previousTopics != []
  {
  }

  /** The stage and the mood are always reported. */
  lemma PromptFixedLines(ctx: Context, minutes: nat)
    ensures StageLine(ctx.stage) in PromptLines(ctx, minutes)
    ensures EmotionLine(ctx.emotion) in PromptLines(ctx, minutes)
  {
  }

  /** The session length is reported only past five minutes, and then as it is. */
  lemma PromptDurationLine(ctx: Context, minutes: nat)
    ensures DurationLine(minutes) in PromptLines(ctx, minutes) <==> minutes > 5
    ensures forall m :: DurationLine(m) in PromptLines(ctx, minutes) ==> m == minutes
  {
  }

  /** Each line's text occurs in the summary. */
  lemma PromptContainsLine(ctx: Context, minutes: nat, l: PromptLine)
    requires l in PromptLines(ctx, minutes)
    ensures Contains(ContextPrompt(ctx, minutes), LineText(l))
  {
    var lines := PromptLines(ctx, minutes);
    var i :| 0 <= i < |lines| && lines[i] == l;
    ConcatContains(PromptHeader, LineTexts(lines), i);
  }

  /** `xs.join(', ')` after a label contains each x. */
  lemma LabelledListContains(prefix: string, names: seq<string>, i: nat)
    requires i < |names|
    ensures Contains(prefix + Join(names, ", "), names[i])
  {
    ContainsExtend(prefix, Join(names, ", "), "", names[i]);
    assert prefix + Join(names, ", ") + "" == prefix + Join(names, ", ");
  }

  /** The summary names every model of interest. */
  lemma PromptNamesModels(ctx: Context, minutes: nat, i: nat)
    requires i < |ctx.vehicleInterest|
    ensures Contains(ContextPrompt(ctx, minutes), CodeName(ctx.vehicleInterest[i]))
  {
    var l := InterestLine(ctx.vehicleInterest);
    PromptInterestLine(ctx, minutes);
    PromptContainsLine(ctx, minutes, l);
    LabelledListContains(InterestPrefix, CodeNames(ctx.vehicleInterest), i);
    ContainsTransitive(ContextPrompt(ctx, minutes), LineText(l), CodeName(ctx.vehicleInterest[i]));
  }

  /** The summary names every remembered topic. */
  lemma PromptNamesTopics(ctx: Context, minutes: nat, i: nat)
    requires i < |ctx.previousTopics|
    ensures Contains(ContextPrompt(ctx, minutes), TopicName(ctx.previousTopics[i]))
  {
    var l := TopicsLine(ctx.previousTopics);
    PromptTopicsLine(ctx, minutes);
    PromptContainsLine(ctx, minutes, l);
    LabelledListContains(TopicsPrefix, TopicNames(ctx.previousTopics), i);
    ContainsTransitive(ContextPrompt(ctx, minutes), LineText(l), TopicName(ctx.previousTopics[i]));
  }

  /** The summary names the stage. */
  lemma PromptNamesStage(ctx: Context, minutes: nat)
    ensures Contains(ContextPrompt(ctx, minutes), StageName(ctx.stage))
  {
    var l := StageLine(ctx.stage);
    PromptFixedLines(ctx, minutes);
    PromptContainsLine(ctx, minutes, l);
    ContainsMiddle(StagePrefix, StageName(ctx.stage), "");
    assert StagePrefix + StageName(ctx.stage) + "" == LineText(l);
    ContainsTransitive(ContextPrompt(ctx, minutes), LineText(l), StageName(ctx.stage));
  }

  /** The session length is written in decimal and reads back as the same number. */
  lemma DurationLineNumber(minutes: nat)
    ensures var digits := NatToString(minutes);
      StartsWith(LineText(DurationLine(minutes))[|DurationPrefix|..], digits)
      && ParseDigits(digits) == minutes
  {
    NatToStringRoundTrip(minutes);
    var digits := NatToString(minutes);
    assert LineText(DurationLine(minutes))[|DurationPrefix|..] == digits + DurationSuffix;
    assert (digits + DurationSuffix)[..|digits|] == digits;
  }

  /** The outcome of the completion request, which the model does not make:
      the request threw, or it answered with `choices[0]?.message?.content`. */
  datatype Completion = Failed | Answered(content: Option<string>)

  const Apology := "Desculpe, não consegui processar sua mensagem."

  /** `content || 'Desculpe, …'`: a missing or empty answer becomes the apology. */
  function ReplyOf(content: Option<string>): (r: string)
    ensures r != ""
    ensures content.Some? && content.value != "" ==> r == content.value
  {
    match content
    case Some(text) => if text != "" then text else Apology
    case None => Apology
  }

  /** The chat service: its conversation record, whether `initialize` accepted
      an API key, and whether a client object exists. */
  class OpenAIService {
    var context: Context
    var initialized: bool
    var hasClient: bool

    predicate Valid()
      reads this
    {
      ContextInvariant(context) && (initialized ==> hasClient)
    }

    constructor ()
      ensures Valid()
      ensures context == InitialContext() && !initialized && !hasClient
    {
      context := InitialContext();
      initialized := false;
      hasClient := false;
    }

    /** `getContext`: a copy of the record. */
    function GetContext(): (ctx: Context)
      reads this
      requires Valid()
      ensures ContextInvariant(ctx)
    {
      context
    }

    /** Whether `getResponse` answers from the canned replies. */
    predicate DemoMode()
      reads this
    {
      !initialized || !hasClient
    }

    /** `initialize(apiKey)`: an empty key or "demo" selects demo mode; otherwise
      a client is created, which may fail (`clientCreated` false). */
    method Initialize(apiKey: string, clientCreated: bool)
      requires Valid()
      modifies this
      ensures Valid() && context == old(context)
      ensures initialized <==> apiKey != "" && apiKey != "demo" && clientCreated
      ensures hasClient <==> old(hasClient) || initialized
      ensures DemoMode() <==> apiKey == "" || apiKey == "demo" || !clientCreated
    {
      if apiKey == "" || apiKey == "demo" {
        initialized := false;
        return;
      }
      if clientCreated {
        hasClient := true;
        initialized := true;
      } else {
        initialized := false;
      }
    }

    /** `resetContext`. */
    method ResetContext()
      requires Valid()
      modifies this
      ensures Valid()
      ensures context == InitialContext()
      ensures initialized == old(initialized) && hasClient == old(hasClient)
    {
      context := InitialContext();
    }

    /** `updateEmotionalState(intent, message)`. */
    method UpdateEmotionalState(intent: Intent, message: string)
      modifies this
      ensures context == AfterEmotion(old(context), intent)
      ensures initialized == old(initialized) && hasClient == old(hasClient)
    {
      match intent {
        case Greeting =>
          context := context.(emotion := Positive);
        case TestDriveRequest =>
          context := context.(emotion := Excited);
          context := context.(stage := Interested);
        case VehicleInquiry =>
          context := context.(emotion := Curious);
        case FinancingInquiry =>
          context := context.(emotion := Concerned);
        case Goodbye =>
          context := context.(stage := Closing);
        case _ =>
      }
    }

    /** `updateContext(userMessage, intent)`: its four steps, in order. */
    method UpdateContext(userMessage: string, intent: Intent)
      requires Valid()
      modifies this
      ensures Valid()
      ensures context == UpdatedContext(old(context), userMessage, intent)
      ensures initialized == old(initialized) && hasClient == old(hasClient)
    {
      UpdatedContextInvariant(context, userMessage, intent);
      RecordIntent(intent);
      var lowerMessage := Lower(userMessage);
      RecordVehicleInterest(lowerMessage);
      RecordTopics(userMessage);
      UpdateEmotionalState(intent, userMessage);
    }

    /** The first step of `updateContext`: the intent, and the first greeting. */
    method RecordIntent(intent: Intent)
      modifies this
      ensures context == Greet(old(context), intent)
      ensures initialized == old(initialized) && hasClient == old(hasClient)
    {
      context := context.(currentIntent := Some(intent));
      if intent == Greeting && !context.hasGreeted {
        context := context.(hasGreeted := true);
        context := context.(stage := Exploring);
        context := context.(emotion := Positive);
      }
    }

    /** The second step of `updateContext`: each code the lower-cased message
        names is pushed unless it is already listed. */
    method RecordVehicleInterest(lowerMessage: string)
      modifies this
      ensures context == NoteInterest(old(context), lowerMessage)
      ensures initialized == old(initialized) && hasClient == old(hasClient)
    {
      ghost var before := context.vehicleInterest;
      ghost var named: seq<VehicleCode> := [];
      if ContainsAny(lowerMessage, B10Variants) {
        if B10 !in context.vehicleInterest {
          context := context.(vehicleInterest := context.vehicleInterest + [B10]);
        }
        named := [B10];
      }
      assert context.vehicleInterest == AddInterest(before, named);
      if ContainsAny(lowerMessage, T03Variants) {
        AddInterestAppend(before, named, [T03]);
        if T03 !in context.vehicleInterest {
          context := context.(vehicleInterest := context.vehicleInterest + [T03]);
        }
        named := named + [T03];
      }
      assert context.vehicleInterest == AddInterest(before, named);
      if ContainsAny(lowerMessage, C10Variants) {
        AddInterestAppend(before, named, [C10]);
        if C10 !in context.vehicleInterest {
          context := context.(vehicleInterest := context.vehicleInterest + [C10]);
        }
        named := named + [C10];
      }
      assert named == MentionedVehicles(lowerMessage);
    }

    /** The third step of `updateContext`: push the message's topics and keep
        the newest ten. */
    method RecordTopics(userMessage: string)
      modifies this
      ensures context == NoteTopics(old(context), userMessage)
      ensures initialized == old(initialized) && hasClient == old(hasClient)
    {
      var topicKeywords := ExtractTopicKeywords(userMessage);
      context := context.(previousTopics := context.previousTopics + topicKeywords);
      if |context.previousTopics| > TopicLimit {
        context := context.(previousTopics := context.previousTopics[|context.previousTopics| - TopicLimit..]);
      }
    }

    /** `updateContextWithResponse(response)`. */
    method UpdateContextWithResponse(response: string)
      requires Valid()
      modifies this
      ensures Valid()
      ensures context == AfterResponse(old(context), response)
      ensures initialized == old(initialized) && hasClient == old(hasClient)
    {
      if Contains(response, "test-drive") || Contains(response, "agendar") {
        context := context.(stage := Deciding);
      }
    }

    /** `buildContextPrompt()`, given the milliseconds since the session began. */
    method BuildContextPrompt(elapsedMillis: nat) returns (prompt: string)
      ensures prompt == ContextPrompt(context, elapsedMillis / 60000)
    {
      var ctx := context;
      var minutes := elapsedMillis / 60000;
      prompt := PromptHeader;
      ghost var lines: seq<PromptLine> := [];
      ghost var before := prompt;
      RenderAppendIf(before, lines, ctx.hasGreeted, GreetedLine);
      if ctx.hasGreeted {
        prompt := prompt + LineText(GreetedLine);
      }
      lines := AppendIf(lines, ctx.hasGreeted, GreetedLine);
      before := prompt;
      RenderAppendIf(before, lines, |ctx.vehicleInterest| > 0, InterestLine(ctx.vehicleInterest));
      if |ctx.vehicleInterest| > 0 {
        prompt := prompt + LineText(InterestLine(ctx.vehicleInterest));
      }
      lines := AppendIf(lines, |ctx.vehicleInterest| > 0, InterestLine(ctx.vehicleInterest));
      before := prompt;
      RenderAppendIf(before, lines, |ctx.previousTopics| > 0, TopicsLine(ctx.previousTopics));
      if |ctx.previousTopics| > 0 {
        prompt := prompt + LineText(TopicsLine(ctx.previousTopics));
      }
      lines := AppendIf(lines, |ctx.previousTopics| > 0, TopicsLine(ctx.previousTopics));
      RenderSnoc(lines, StageLine(ctx.stage));
      prompt := prompt + LineText(StageLine(ctx.stage));
      lines := lines + [StageLine(ctx.stage)];
      RenderSnoc(lines, EmotionLine(ctx.emotion));
      prompt := prompt + LineText(EmotionLine(ctx.emotion));
      lines := lines + [EmotionLine(ctx.emotion)];
      before := prompt;
      RenderAppendIf(before, lines, minutes > 5, DurationLine(minutes));
      if minutes > 5 {
        prompt := prompt + LineText(DurationLine(minutes));
      }
      lines := AppendIf(lines, minutes > 5, DurationLine(minutes));
      assert lines == PromptLines(ctx, minutes);
    }

    /** `getResponse(userMessage)`: classify, update the record, then answer
      from the canned replies in demo mode or when the request fails, and
      otherwise with the completion, which may move the stage to deciding.
      The summary sent along with the request is returned in `sent`. */
    method GetResponse(userMessage: string, elapsedMillis: nat, completion: Completion)
      returns (response: string, intent: Intent, emotion: EmotionalState, snapshot: Context, sent: Option<string>)
      requires Valid()
      modifies this
      ensures Valid()
      ensures intent == ClassifyIntent(userMessage)
      ensures var updated := UpdatedContext(old(context), userMessage, intent);
        if old(DemoMode()) then
          response == DemoResponse(userMessage) && context == updated && sent == None
        else
          sent == Some(ContextPrompt(updated, elapsedMillis / 60000))
          && (completion.Failed? ==> response == DemoResponse(userMessage) && context == updated)
          && (completion.Answered? ==> response == ReplyOf(completion.content)
                                       && context == AfterResponse(updated, response))
      ensures emotion == context.emotion && snapshot == context
      ensures initialized == old(initialized) && hasClient == old(hasClient)
    {
      intent := ClassifyIntent(userMessage);
      UpdateContext(userMessage, intent);
      if DemoMode() {
        response := DemoResponse(userMessage);
        sent := None;
      } else {
        var contextPrompt := BuildContextPrompt(elapsedMillis);
        sent := Some(contextPrompt);
        match completion {
          case Failed =>
            response := DemoResponse(userMessage);
          case Answered(content) =>
            response := ReplyOf(content);
            UpdateContextWithResponse(response);
        }
      }
      emotion := context.emotion;
      snapshot := GetContext();
    }
  }
}
