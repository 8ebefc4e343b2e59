/**
 * The message analysis of the chat service (leapmotor-assistant/src/services/openai.ts):
 * the intent classifier, an ordered list of keyword rules over the
 * lower-cased message, and vehicle-name detection.
 */
module Intents {
  import opened Text
  import opened Matching

  /** What the visitor asks for in one message. */
  datatype Intent =
    | Greeting
    | VehicleInquiry
    | TestDriveRequest
    | CoffeeRequest
    | ConsultantRequest
    | AppointmentRequest
    | FinancingInquiry
    | SustainabilityQuestion
    | GeneralConversation
    | Goodbye

  const GreetingWords: seq<string> := ["olá", "oi", "ei", "hey", "bom dia", "boa tarde", "boa noite", "e aí"]
  const TestDriveWords: seq<string> := ["test", "dirigir", "experimentar", "provar", "testar", "andar de"]
  const CoffeeWords: seq<string> := ["café", "coffee", "cafezinho", "um café", "tomar", "beber"]
  const ConsultantWords: seq<string> := ["consultor", "especialista", "vendedor", "atendente", "falar com", "conversar com"]
  const AppointmentWords: seq<string> := ["agendar", "marcar", "horário", "visita", "encontro", "reunião", "quando posso"]
  const FinancingWords: seq<string> := ["preço", "valor", "custo", "financiamento", "parcela", "entrada", "troca", "quanto", "custa"]
  const SustainabilityWords: seq<string> := ["ecológico", "sustentável", "ambiente", "verde", "emissão", "poluição", "planeta", "natureza"]
  const VehicleWords: seq<string> := ["veículo", "carro", "modelo", "suv", "elétrico", "autonomia", "bateria", "motor"]
  const GoodbyeWords: seq<string> := ["tchau", "obrigad", "até", "bye", "falou", "valeu"]

  /** Spellings of the three model codes, including "Ben 10". */
  const B10Variants: seq<string> := ["b10", "b 10", "be10", "ben10", "ben 10", "b-10"]
  const T03Variants: seq<string> := ["t03", "t 03", "te03", "t-03"]
  const C10Variants: seq<string> := ["c10", "c 10", "ce10", "c-10"]

  /** The three models on sale. */
  datatype VehicleCode = B10 | T03 | C10

  /** The code as the context record stores it. */
  function CodeName(c: VehicleCode): string {
    match c
    case B10 => "B10"
    case T03 => "T03"
    case C10 => "C10"
  }

  function Variants(c: VehicleCode): seq<string> {
    match c
    case B10 => B10Variants
    case T03 => T03Variants
    case C10 => C10Variants
  }

  /** The model codes a lower-cased message mentions, in B10, T03, C10 order. */
  function MentionedVehicles(lower: string): (codes: seq<VehicleCode>)
    ensures forall c :: c in codes <==> ContainsAny(lower, Variants(c))
    ensures forall i, j :: 0 <= i < j < |codes| ==> codes[i] != codes[j]
    ensures forall i, j :: 0 <= i < j < |codes| ==> CodeRank(codes[i]) < CodeRank(codes[j])
  {
    (if ContainsAny(lower, B10Variants) then [B10] else [])
    + (if ContainsAny(lower, T03Variants) then [T03] else [])
    + (if ContainsAny(lower, C10Variants) then [C10] else [])
  }

  /** The order in which `updateContext` tests the codes. */
  function CodeRank(c: VehicleCode): nat {
    match c
    case B10 => 0
    case T03 => 1
    case C10 => 2
  }

  /** `detectVehicleName`: the message names one of the three models. */
  function DetectVehicleName(lower: string): (r: bool)
    ensures r <==> MentionedVehicles(lower) != []
    ensures r <==> ContainsAny(lower, B10Variants + T03Variants + C10Variants)
  {
    ContainsAnyAppend(lower, B10Variants, T03Variants);
    ContainsAnyAppend(lower, B10Variants + T03Variants, C10Variants);
    ContainsAny(lower, B10Variants) || ContainsAny(lower, T03Variants) || ContainsAny(lower, C10Variants)
  }

  /** The branches of `classifyIntent`, in the order it tries them. The vehicle
      branch also fires on any model-code spelling. */
  const IntentRules: seq<Rule<Intent>> := [
    Rule(GreetingWords, Greeting),
    Rule(TestDriveWords, TestDriveRequest),
    Rule(CoffeeWords, CoffeeRequest),
    Rule(ConsultantWords, ConsultantRequest),
    Rule(AppointmentWords, AppointmentRequest),
    Rule(FinancingWords, FinancingInquiry),
    Rule(SustainabilityWords, SustainabilityQuestion),
    Rule(VehicleWords + B10Variants + T03Variants + C10Variants, VehicleInquiry),
    Rule(GoodbyeWords, Goodbye)
  ]

  /** Position of the vehicle branch in IntentRules. */
  const VehicleRule: nat := 7

  lemma IntentTagsDistinct()
    ensures DistinctTags(IntentRules)
    ensures forall i :: 0 <= i < |IntentRules| ==> IntentRules[i].tag != GeneralConversation
  {
  }

  /** `classifyIntent`: the first branch whose keywords occur in the lower-cased
      message decides; with none, the message is general conversation. */
  function ClassifyIntent(message: string): (r: Intent)
    ensures ContainsAny(Lower(message), GreetingWords) ==> r == Greeting
    ensures r == GeneralConversation <==> NoneBefore(IntentRules, Lower(message), |IntentRules|)
  {
    var lower := Lower(message);
    IntentTagsDistinct();
    FirstMatchFallbackIff(IntentRules, lower, GeneralConversation);
    assert FirstFiring(IntentRules, lower, 0) ==> FirstMatch(IntentRules, lower, GeneralConversation) == Greeting by {
      if FirstFiring(IntentRules, lower, 0) {
        FirstMatchEarliest(IntentRules, lower, GeneralConversation, 0);
      }
    }
    FirstMatch(IntentRules, lower, GeneralConversation)
  }

  /** The intent is the tag of branch i exactly when branch i is the first to fire. */
  lemma ClassifyFirstBranch(message: string, i: nat)
    requires i < |IntentRules|
    ensures ClassifyIntent(message) == IntentRules[i].tag <==> FirstFiring(IntentRules, Lower(message), i)
  {
    IntentTagsDistinct();
    FirstMatchIff(IntentRules, Lower(message), GeneralConversation, i);
  }

  /** Any spelling of B10, T03 or C10 makes the message a vehicle inquiry when
      no earlier branch fired. */
  lemma VehicleNameClassified(message: string)
    requires DetectVehicleName(Lower(message))
    requires NoneBefore(IntentRules, Lower(message), VehicleRule)
    ensures ClassifyIntent(message) == VehicleInquiry
  {
    var lower := Lower(message);
    ContainsAnyAppend(lower, VehicleWords, B10Variants + T03Variants + C10Variants);
    assert VehicleWords + B10Variants + T03Variants + C10Variants == VehicleWords + (B10Variants + T03Variants + C10Variants);
    FirstMatchEarliest(IntentRules, lower, GeneralConversation, VehicleRule);
  }

  /** Greeting keywords match inside other words: "noite" contains "oi", so
      any message saying "noite" is a greeting, whatever else it says. */
  lemma NoiteIsGreeting(message: string)
    requires Contains(Lower(message), "noite")
    ensures ClassifyIntent(message) == Greeting
  {
    assert Contains("noite", "oi");
    ContainsTransitive(Lower(message), "noite", "oi");
    assert GreetingWords[1] == "oi";
  }
}
