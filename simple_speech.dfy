/**
 * The browser-voice service: the ordered list of voice preferences that picks
 * the "best Brazilian voice" from the voices the browser offers, the fallback
 * to the first voice, the Portuguese filter, the voice setter and the
 * utterance settings of `speak`.
 */
module SimpleSpeech {
  import opened Wrappers
  import opened Text

  /** A `SpeechSynthesisVoice`, as far as the selection looks at it. */
  datatype Voice = Voice(name: string, lang: string)

  /** The entries of `brazilianVoicePreferences`, in their order. */
  datatype Preference =
    | EddyBrazilian       // name has "Eddy", lang is "pt-BR"
    | FloBrazilian        // name has "Flo", lang is "pt-BR"
    | JoanaAnyLanguage    // name has "Joana", any lang
    | GoogleBrazilian     // name has "Google", lang is "pt-BR"
    | BrazilianNotOld     // lang is "pt-BR", name has neither "Grand" nor "Old"
    | ApplePortuguese     // name has "Luciana" or "Francisca", lang has "pt"
    | MicrosoftBrazilian  // name has "Microsoft", lang is "pt-BR"
    | AnyBrazilian        // lang is "pt-BR"
    | PortugueseNotGrand  // lang starts with "pt", name has no "Grand"

  const Preferences: seq<Preference> := [
    EddyBrazilian, FloBrazilian, JoanaAnyLanguage, GoogleBrazilian, BrazilianNotOld,
    ApplePortuguese, MicrosoftBrazilian, AnyBrazilian, PortugueseNotGrand
  ]

  /** The arrow function of one preference. */
  predicate Satisfies(p: Preference, v: Voice) {
    match p
    case EddyBrazilian => Contains(v.name, "Eddy") && v.lang == "pt-BR"
    case FloBrazilian => Contains(v.name, "Flo") && v.lang == "pt-BR"
    case JoanaAnyLanguage => Contains(v.name, "Joana")
    case GoogleBrazilian => Contains(v.name, "Google") && v.lang == "pt-BR"
    case BrazilianNotOld => v.lang == "pt-BR" && !Contains(v.name, "Grand") && !Contains(v.name, "Old")
    case ApplePortuguese => (Contains(v.name, "Luciana") || Contains(v.name, "Francisca")) && Contains(v.lang, "pt")
    case MicrosoftBrazilian => Contains(v.name, "Microsoft") && v.lang == "pt-BR"
    case AnyBrazilian => v.lang == "pt-BR"
    case PortugueseNotGrand => StartsWith(v.lang, "pt") && !Contains(v.name, "Grand")
  }

  /** `voices.find(preference)`, as an index: the first voice from position i on
      that satisfies p. */
  function FindFrom(voices: seq<Voice>, p: Preference, i: nat): (r: Option<nat>)
    requires i <= |voices|
    ensures r.Some? ==> i <= r.value < |voices| && Satisfies(p, voices[r.value])
                        && forall j :: i <= j < r.value ==> !Satisfies(p, voices[j])
    ensures r.None? ==> forall j :: i <= j < |voices| ==> !Satisfies(p, voices[j])
    decreases |voices| - i
  {
    if i == |voices| then None
    else if Satisfies(p, voices[i]) then Some(i)
    else FindFrom(voices, p, i + 1)
  }

  /** The voice chosen by the preferences from index k on: the first voice
      satisfying the earliest preference that any voice satisfies. */
  function ChooseFrom(voices: seq<Voice>, k: nat): Option<Voice>
    requires k <= |Preferences|
    decreases |Preferences| - k
  {
    if k == |Preferences| then None
    else match FindFrom(voices, Preferences[k], 0)
      case Some(i) => Some(voices[i])
      case None => ChooseFrom(voices, k + 1)
  }

  /** No voice satisfies any of the first k preferences. */
  ghost predicate NoneSatisfiesBefore(voices: seq<Voice>, k: nat)
    requires k <= |Preferences|
  {
    forall q, j :: 0 <= q < k && 0 <= j < |voices| ==> !Satisfies(Preferences[q], voices[j])
  }

  /** What `loadVoices` leaves in `bestVoice`, given the voices and the voice
      held before: the preference choice, else the first voice if none was
      held, else the voice held. */
  function Selected(voices: seq<Voice>, held: Option<Voice>): (r: Option<Voice>)
    ensures r.Some? && r != held ==> r.value in voices
    ensures |voices| > 0 ==> r.Some?
  {
    match ChooseFrom(voices, 0)
    case Some(v) => ChooseFromMember(voices, 0); Some(v)
    case None => if held.None? && |voices| > 0 then Some(voices[0]) else held
  }

  lemma {:induction false} ChooseFromMember(voices: seq<Voice>, k: nat)
    requires k <= |Preferences|
    ensures ChooseFrom(voices, k).Some? ==> ChooseFrom(voices, k).value in voices
    decreases |Preferences| - k
  {
    if k < |Preferences| && FindFrom(voices, Preferences[k], 0).None? {
      ChooseFromMember(voices, k + 1);
    }
  }

  /** The earliest satisfiable preference wins, and within it the first
      satisfying voice in list order; later preferences are not consulted. */
  lemma {:induction false} ChooseEarliest(voices: seq<Voice>, k: nat, i: nat)
    requires k < |Preferences| && i < |voices|
    requires NoneSatisfiesBefore(voices, k)
    requires Satisfies(Preferences[k], voices[i])
    requires forall j :: 0 <= j < i ==> !Satisfies(Preferences[k], voices[j])
    ensures ChooseFrom(voices, 0) == Some(voices[i])
  {
    var q := k;
    while q > 0
      invariant 0 <= q <= k
      invariant ChooseFrom(voices, q) == Some(voices[i])
    {
      q := q - 1;
      assert forall j :: 0 <= j < |voices| ==> !Satisfies(Preferences[q], voices[j]);
      assert FindFrom(voices, Preferences[q], 0).None?;
    }
  }

  /** The same, for `bestVoice`: whatever voice was held before is replaced. */
  lemma SelectedEarliest(voices: seq<Voice>, held: Option<Voice>, k: nat, i: nat)
    requires k < |Preferences| && i < |voices|
    requires NoneSatisfiesBefore(voices, k)
    requires Satisfies(Preferences[k], voices[i])
    requires forall j :: 0 <= j < i ==> !Satisfies(Preferences[k], voices[j])
    ensures Selected(voices, held) == Some(voices[i])
  {
    ChooseEarliest(voices, k, i);
  }

  /** When no preference matches any voice, the preferences choose nothing. */
  lemma {:induction false} ChooseNone(voices: seq<Voice>, k: nat)
    requires k <= |Preferences|
    requires forall q, j :: k <= q < |Preferences| && 0 <= j < |voices| ==> !Satisfies(Preferences[q], voices[j])
    ensures ChooseFrom(voices, k) == None
    decreases |Preferences| - k
  {
    if k < |Preferences| {
      assert forall j :: 0 <= j < |voices| ==> !Satisfies(Preferences[k], voices[j]);
      assert FindFrom(voices, Preferences[k], 0).None?;
      ChooseNone(voices, k + 1);
    }
  }

  /** With no preference satisfied, the first voice is taken only when none was
      held and the list is non-empty; otherwise the held voice stays. */
  lemma SelectedFallback(voices: seq<Voice>, held: Option<Voice>)
    requires NoneSatisfiesBefore(voices, |Preferences|)
    ensures held.None? && |voices| > 0 ==> Selected(voices, held) == Some(voices[0])
    ensures held.Some? || |voices| == 0 ==> Selected(voices, held) == held
  {
    ChooseNone(voices, 0);
  }

  /** `loadVoices` runs again when the browser reports its voices and once more
      after a delay; with the same voice list the later runs change nothing. */
  lemma SelectedIdempotent(voices: seq<Voice>, held: Option<Voice>)
    ensures Selected(voices, Selected(voices, held)) == Selected(voices, held)
  {
  }

  /** A Joana voice, in any language, beats every later preference (Google,
      Microsoft, generic pt-BR) unless an Eddy or Flo pt-BR voice exists: the
      first Joana voice is chosen. */
  lemma JoanaWins(voices: seq<Voice>, held: Option<Voice>, i: nat)
    requires i < |voices| && Contains(voices[i].name, "Joana")
    requires forall j :: 0 <= j < i ==> !Contains(voices[j].name, "Joana")
    requires forall j :: 0 <= j < |voices| ==> !Satisfies(EddyBrazilian, voices[j]) && !Satisfies(FloBrazilian, voices[j])
    ensures Selected(voices, held) == Some(voices[i])
  {
    assert Preferences[0] == EddyBrazilian && Preferences[1] == FloBrazilian && Preferences[2] == JoanaAnyLanguage;
    SelectedEarliest(voices, held, 2, i);
  }

  /** A list holding only a Google pt-BR voice and, after it, a European
      Portuguese Joana voice: Joana is chosen. */
  lemma JoanaBeatsGoogle(held: Option<Voice>)
    ensures Selected([Voice("Google", "pt-BR"), Voice("Joana", "pt-PT")], held) == Some(Voice("Joana", "pt-PT"))
  {
    var voices := [Voice("Google", "pt-BR"), Voice("Joana", "pt-PT")];
    NotContainsMissingChar("Google", "Eddy");
    NotContainsMissingChar("Google", "Flo");
    NotContainsMissingChar("Google", "Joana");
    NotContainsMissingChar("Joana", "Eddy");
    NotContainsMissingChar("Joana", "Flo");
    StartsWithContains("Joana", "Joana");
    JoanaWins(voices, held, 1);
  }

  /** The "Grand" exclusion belongs to two preferences only: a lone pt-BR voice
      named "Grand" is passed over by the fifth and chosen by the eighth. */
  lemma GrandChosenAsAnyBrazilian(held: Option<Voice>)
    ensures !Satisfies(BrazilianNotOld, Voice("Grand", "pt-BR"))
    ensures !Satisfies(PortugueseNotGrand, Voice("Grand", "pt-BR"))
    ensures Selected([Voice("Grand", "pt-BR")], held) == Some(Voice("Grand", "pt-BR"))
  {
    var v := Voice("Grand", "pt-BR");
    StartsWithContains("Grand", "Grand");
    NotContainsMissingChar("Grand", "Eddy");
    NotContainsMissingChar("Grand", "Flo");
    NotContainsMissingChar("Grand", "Joana");
    NotContainsLonger("Grand", "Google");
    NotContainsMissingChar("Grand", "Luciana");
    NotContainsMissingChar("Grand", "Francisca");
    NotContainsMissingChar("Grand", "Microsoft");
    assert forall q :: 0 <= q < 7 ==> !Satisfies(Preferences[q], v);
    SelectedEarliest([v], held, 7, 0);
  }

  /** The filter of `getBrazilianVoices`. Since "pt-BR" starts with "pt", the
      first half of the test is subsumed by the second. */
  predicate IsPortuguese(v: Voice) {
    v.lang == "pt-BR" || StartsWith(v.lang, "pt")
  }

  function PortugueseVoices(voices: seq<Voice>): (r: seq<Voice>)
    ensures |r| <= |voices|
    ensures forall v :: v in r <==> v in voices && IsPortuguese(v)
  {
    if voices == [] then []
    else if IsPortuguese(voices[0]) then [voices[0]] + PortugueseVoices(voices[1..])
    else PortugueseVoices(voices[1..])
  }

  /** The filter keeps the original order: filtering a concatenation is
      concatenating the filtered parts. */
  lemma {:induction false} PortugueseVoicesAppend(a: seq<Voice>, b: seq<Voice>)
    ensures PortugueseVoices(a + b) == PortugueseVoices(a) + PortugueseVoices(b)
  {
    if a == [] {
      assert a + b == b;
    } else {
      assert (a + b)[1..] == a[1..] + b;
      PortugueseVoicesAppend(a[1..], b);
    }
  }

  /** The `pt-BR` test adds nothing to the `startsWith('pt')` test. */
  lemma PortugueseIsStartsWithPt(v: Voice)
    ensures IsPortuguese(v) <==> StartsWith(v.lang, "pt")
  {
    if v.lang == "pt-BR" {
      assert v.lang[..2] == "pt";
    }
  }

  /** The speech profile of `speak`, chosen by the selected voice's name
      (rate, pitch and volume values are not part of this model). */
  datatype Profile = Flowing | JoanaProfile | Standard

  /** The settings `speak` gives its utterance. */
  datatype Utterance = Utterance(voice: Option<Voice>, lang: string, profile: Profile, brazilianRewrite: bool)

  function ProfileFor(best: Option<Voice>): Profile {
    if best.Some? && (Contains(best.value.name, "Eddy") || Contains(best.value.name, "Flo")) then Flowing
    else if best.Some? && Contains(best.value.name, "Joana") then JoanaProfile
    else Standard
  }

  class SimpleSpeechService {
    /** `isAvailable`, set together with `synthesis`. */
    var available: bool
    var bestVoice: Option<Voice>

    /** Starts without a voice; when speech synthesis is present, selects the
        best voice among those the browser lists. */
    constructor (synthesisPresent: bool, voices: seq<Voice>)
      ensures available == synthesisPresent
      ensures bestVoice == if synthesisPresent then Selected(voices, None) else None
    {
      available := synthesisPresent;
      bestVoice := None;
      new;
      if synthesisPresent {
        LoadVoices(voices);
      }
    }

    /** `voices.find(preference)`. */
    static method Find(voices: seq<Voice>, p: Preference) returns (r: Option<nat>)
      ensures r == FindFrom(voices, p, 0)
    {
      var i := 0;
      while i < |voices|
        invariant 0 <= i <= |voices|
        invariant FindFrom(voices, p, 0) == FindFrom(voices, p, i)
      {
        if Satisfies(p, voices[i]) {
          return Some(i);
        }
        i := i + 1;
      }
      return None;
    }

    /** `loadVoices`: tries each preference in order, stops at the first that
        some voice satisfies, then falls back to the first voice if none is held. */
    method LoadVoices(voices: seq<Voice>)
      modifies this
      ensures bestVoice == Selected(voices, old(bestVoice))
      ensures available == old(available)
    {
      var k := 0;
      while k < |Preferences|
        invariant 0 <= k <= |Preferences|
        invariant ChooseFrom(voices, 0) == ChooseFrom(voices, k)
        invariant bestVoice == old(bestVoice) && available == old(available)
      {
        var found := Find(voices, Preferences[k]);
        if found.Some? {
          bestVoice := Some(voices[found.value]);
          break;
        }
        k := k + 1;
      }
      if bestVoice.None? && |voices| > 0 {
        bestVoice := Some(voices[0]);
      }
    }

    /** `getBrazilianVoices()`: nothing without speech synthesis. */
    method GetBrazilianVoices(voices: seq<Voice>) returns (r: seq<Voice>)
      ensures !available ==> r == []
      ensures available ==> r == PortugueseVoices(voices)
    {
      if !available {
        return [];
      }
      r := PortugueseVoices(voices);
    }

    method GetCurrentVoice() returns (v: Option<Voice>)
      ensures v == bestVoice
    {
      v := bestVoice;
    }

    /** `setVoice(v)`: replaces the held voice, whatever it was. */
    method SetVoice(v: Voice)
      modifies this
      ensures bestVoice == Some(v) && available == old(available)
    {
      bestVoice := Some(v);
    }

    /** The utterance `speak` hands to the synthesizer, or none when synthesis
        is unavailable. Its language is "pt-BR" whatever the voice's language. */
    method Speak() returns (u: Option<Utterance>)
      ensures u.Some? <==> available
      ensures u.Some? ==> u.value.lang == "pt-BR" && u.value.voice == bestVoice
      ensures u.Some? ==> u.value.profile == ProfileFor(bestVoice)
      ensures u.Some? ==> (u.value.brazilianRewrite <==> bestVoice.Some? && Contains(bestVoice.value.name, "Joana"))
    {
      if !available {
        return None;
      }
      var rewrite := bestVoice.Some? && Contains(bestVoice.value.name, "Joana");
      var lang: string;
      if bestVoice.Some? {
        lang := bestVoice.value.lang;
      } else {
        lang := "pt-BR";
      }
      lang := "pt-BR";
      var profile: Profile;
      if bestVoice.Some? && (Contains(bestVoice.value.name, "Eddy") || Contains(bestVoice.value.name, "Flo")) {
        profile := Flowing;
      } else if bestVoice.Some? && Contains(bestVoice.value.name, "Joana") {
        profile := JoanaProfile;
        lang := "pt-BR";
      } else {
        profile := Standard;
      }
      u := Some(Utterance(bestVoice, lang, profile, rewrite));
    }
  }
}
