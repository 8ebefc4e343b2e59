/**
 * The selection rules of the text-to-speech service: its table of six
 * voices, the emotion-to-voice rule with a preferred-voice override, the
 * speed computation with its clamp to the range the speech endpoint accepts,
 * and the guarded `currentVoice` setting.
 */
module OpenAISpeech {
  import opened Wrappers

  /** `VoiceConfig['name']`. */
  datatype VoiceName = Alloy | Echo | Fable | Onyx | Nova | Shimmer

  datatype Gender = Female | Male

  /** The key of a voice in the `voices` table. */
  function VoiceKey(v: VoiceName): string {
    match v
    case Alloy => "alloy"
    case Echo => "echo"
    case Fable => "fable"
    case Onyx => "onyx"
    case Nova => "nova"
    case Shimmer => "shimmer"
  }

  function GenderName(g: Gender): string {
    match g
    case Female => "female"
    case Male => "male"
  }

  /** One row of the `voices` table: gender and tone of a voice. */
  datatype VoiceInfo = VoiceInfo(gender: Gender, tone: string)

  /** The `voices` table, row by row. */
  function TableEntry(v: VoiceName): VoiceInfo {
    match v
    case Alloy => VoiceInfo(Female, "balanced")
    case Echo => VoiceInfo(Male, "calm")
    case Fable => VoiceInfo(Female, "expressive")
    case Onyx => VoiceInfo(Male, "deep")
    case Nova => VoiceInfo(Female, "energetic")
    case Shimmer => VoiceInfo(Female, "soft")
  }

  /** The keys of the table in the order they are written, which is the order
      `Object.entries` lists them in. */
  const VoiceOrder: seq<VoiceName> := [Alloy, Echo, Fable, Onyx, Nova, Shimmer]

  /** `this.voices[name]` for an arbitrary string: the voice with that key, if any. */
  function LookupVoice(name: string): (r: Option<VoiceName>)
    ensures r.Some? ==> VoiceKey(r.value) == name
  {
    if name == "alloy" then Some(Alloy)
    else if name == "echo" then Some(Echo)
    else if name == "fable" then Some(Fable)
    else if name == "onyx" then Some(Onyx)
    else if name == "nova" then Some(Nova)
    else if name == "shimmer" then Some(Shimmer)
    else None
  }

  /** Every key of the table is found, and a string is found exactly when it is a key. */
  lemma LookupVoiceIff(name: string)
    ensures LookupVoice(name).Some? <==> exists v :: VoiceKey(v) == name
    ensures forall v :: LookupVoice(VoiceKey(v)) == Some(v)
  {
    if LookupVoice(name).Some? {
      assert VoiceKey(LookupVoice(name).value) == name;
    }
  }

  /** The request options of `speak`. */
  datatype SpeechOptions = SpeechOptions(voice: Option<VoiceName>, emotion: Option<string>, speed: Option<real>)

  /** `options.emotion || 'neutral'`: an absent or empty emotion counts as neutral. */
  function EffectiveEmotion(emotion: Option<string>): (e: string)
    ensures e != ""
    ensures emotion.Some? && emotion.value != "" ==> e == emotion.value
  {
    if emotion.Some? && emotion.value != "" then emotion.value else "neutral"
  }

  /** The `emotionToVoice` record. */
  const EmotionToVoice: map<string, VoiceName> := map[
    "excited" := Nova,
    "happy" := Fable,
    "cheerful" := Nova,
    "friendly" := Alloy,
    "concerned" := Shimmer,
    "neutral" := Alloy
  ]

  /** The voice for an emotion: the preferred voice when one is given,
      otherwise the record's entry, otherwise alloy. */
  function SelectVoiceForEmotion(emotion: string, preferred: Option<VoiceName>): (v: VoiceName)
    ensures preferred.Some? ==> v == preferred.value
    ensures preferred.None? && emotion !in EmotionToVoice ==> v == Alloy
  {
    if preferred.Some? then preferred.value
    else if emotion in EmotionToVoice then EmotionToVoice[emotion]
    else Alloy
  }

  /** The emotion-to-voice mapping without a preferred voice, spelled out. */
  lemma EmotionVoiceTable()
    ensures SelectVoiceForEmotion("excited", None) == Nova
    ensures SelectVoiceForEmotion("happy", None) == Fable
    ensures SelectVoiceForEmotion("cheerful", None) == Nova
    ensures SelectVoiceForEmotion("friendly", None) == Alloy
    ensures SelectVoiceForEmotion("concerned", None) == Shimmer
    ensures SelectVoiceForEmotion("neutral", None) == Alloy
  {
  }

  /** Any other emotion gets alloy; so does a request without an emotion. */
  lemma OtherEmotionIsAlloy(emotion: Option<string>)
    requires EffectiveEmotion(emotion) !in {"excited", "happy", "cheerful", "concerned"}
    ensures SelectVoiceForEmotion(EffectiveEmotion(emotion), None) == Alloy
  {
  }

  /** Without a preferred voice, the chosen voice is always a female one. */
  lemma EmotionVoiceIsFemale(emotion: string)
    ensures TableEntry(SelectVoiceForEmotion(emotion, None)).gender == Female
  {
  }

  /** The voice sent to the speech endpoint (`speakWithOpenAI`): it depends on
      the request options only. */
  function RequestVoice(options: SpeechOptions): (v: VoiceName)
    ensures options.voice.Some? ==> v == options.voice.value
    ensures options.voice.None? ==> v == SelectVoiceForEmotion(EffectiveEmotion(options.emotion), None)
  {
    SelectVoiceForEmotion(EffectiveEmotion(options.emotion), options.voice)
  }

  /** The `emotionSpeedModifier` record. */
  const SpeedModifier: map<string, real> := map[
    "excited" := 1.1,
    "happy" := 1.05,
    "concerned" := 0.9,
    "neutral" := 1.0,
    "cheerful" := 1.05,
    "friendly" := 1.0
  ]

  /** `options.speed || 1.0`: an absent or zero speed counts as 1.0. */
  function BaseSpeed(speed: Option<real>): real {
    if speed.Some? && speed.value != 0.0 then speed.value else 1.0
  }

  /** `emotionSpeedModifier[emotion] || 1.0`. */
  function Modifier(emotion: string): (m: real)
    ensures m > 0.0
  {
    if emotion in SpeedModifier && SpeedModifier[emotion] != 0.0 then SpeedModifier[emotion] else 1.0
  }

  const MinSpeed: real := 0.25
  const MaxSpeed: real := 4.0

  /** The speech rate: base speed times the emotion's modifier, clamped to [0.25, 4.0]. */
  function CalculateSpeed(options: SpeechOptions): (s: real)
    ensures MinSpeed <= s <= MaxSpeed
    ensures var x := BaseSpeed(options.speed) * Modifier(EffectiveEmotion(options.emotion));
            (MinSpeed <= x <= MaxSpeed ==> s == x)
            && (x < MinSpeed ==> s == MinSpeed)
            && (x > MaxSpeed ==> s == MaxSpeed)
  {
    var x := BaseSpeed(options.speed) * Modifier(EffectiveEmotion(options.emotion));
    var capped := if MaxSpeed < x then MaxSpeed else x;
    if MinSpeed > capped then MinSpeed else capped
  }

  /** The modifiers, spelled out; every other emotion has modifier 1.0. */
  lemma ModifierTable(emotion: string)
    ensures Modifier("excited") == 1.1
    ensures Modifier("happy") == 1.05 && Modifier("cheerful") == 1.05
    ensures Modifier("concerned") == 0.9
    ensures emotion !in {"excited", "happy", "cheerful", "concerned"} ==> Modifier(emotion) == 1.0
  {
  }

  /** With no speed and no emotion, the rate is 1.0; with a zero speed it is as if none was given. */
  lemma DefaultSpeed(voice: Option<VoiceName>, emotion: Option<string>)
    ensures CalculateSpeed(SpeechOptions(voice, None, None)) == 1.0
    ensures CalculateSpeed(SpeechOptions(voice, emotion, Some(0.0)))
         == CalculateSpeed(SpeechOptions(voice, emotion, None))
  {
  }

  /** For a fixed emotion, a faster requested speed never gives a slower rate. */
  lemma SpeedMonotone(emotion: Option<string>, voice: Option<VoiceName>, a: real, b: real)
    requires a != 0.0 && b != 0.0 && a <= b
    ensures CalculateSpeed(SpeechOptions(voice, emotion, Some(a)))
         <= CalculateSpeed(SpeechOptions(voice, emotion, Some(b)))
  {
    var m := Modifier(EffectiveEmotion(emotion));
    assert a * m <= b * m;
  }

  /** One entry of `getAvailableVoices()`. */
  datatype VoiceListing = VoiceListing(name: VoiceName, gender: string, tone: string)

  function Listing(v: VoiceName): VoiceListing {
    VoiceListing(v, GenderName(TableEntry(v).gender), TableEntry(v).tone)
  }

  /** The listing of the voice table: one entry per key, in table order, with
      gender and tone copied from the table. */
  function GetAvailableVoices(): (r: seq<VoiceListing>)
    ensures |r| == 6
    ensures forall i :: 0 <= i < |r| ==> r[i] == Listing(VoiceOrder[i])
  {
    seq(|VoiceOrder|, i requires 0 <= i < |VoiceOrder| => Listing(VoiceOrder[i]))
  }

  /** Every voice is listed exactly once. */
  lemma AvailableVoicesOncePerKey(v: VoiceName)
    ensures exists i :: 0 <= i < 6 && GetAvailableVoices()[i].name == v
    ensures forall i, j :: 0 <= i < j < 6 ==> GetAvailableVoices()[i].name != GetAvailableVoices()[j].name
  {
    var r := GetAvailableVoices();
    var i := match v
      case Alloy => 0 case Echo => 1 case Fable => 2
      case Onyx => 3 case Nova => 4 case Shimmer => 5;
    assert r[i].name == v;
  }

  /** The service's voice state. */
  class OpenAISpeechService {
    var currentVoice: VoiceName

    /** A new service speaks with nova by default. */
    constructor ()
      ensures currentVoice == Nova
    {
      currentVoice := Nova;
    }

    /** `setVoice(name)`: takes effect only for a key of the voice table. */
    method SetVoice(name: string)
      modifies this
      ensures LookupVoice(name).Some? ==> currentVoice == LookupVoice(name).value && VoiceKey(currentVoice) == name
      ensures LookupVoice(name).None? ==> currentVoice == old(currentVoice)
    {
      var found := LookupVoice(name);
      if found.Some? {
        currentVoice := found.value;
      }
    }

    method GetCurrentVoice() returns (v: VoiceName)
      ensures v == currentVoice
    {
      v := currentVoice;
    }

    /** The voice and rate `speakWithOpenAI` sends for a request. The voice is
        fixed by the options alone: `currentVoice` plays no part. */
    method SpeechParameters(options: SpeechOptions) returns (voice: VoiceName, speed: real)
      ensures voice == RequestVoice(options)
      ensures speed == CalculateSpeed(options)
    {
      voice := SelectVoiceForEmotion(EffectiveEmotion(options.emotion), options.voice);
      speed := CalculateSpeed(options);
    }
  }
}
