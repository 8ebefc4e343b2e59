/**
 * Demo mode of the chat service (leapmotor-assistant/src/services/openai.ts,
 * `getDemoResponse`): without an API client every message is answered with
 * one of ten canned replies, chosen by an if-chain over the lower-cased message.
 */
module Demo {
  import opened Text
  import opened Matching
  import opened Intents

  /** The ten canned replies. */
  datatype DemoReply =
    | Welcome
    | Lineup
    | AboutB10
    | AboutT03
    | AboutC10
    | CoffeeMenu
    | TestDriveOffer
    | Sustainability
    | Prices
    | Fallback

  /** The text of each reply, as the service returns it. */
  function ReplyText(r: DemoReply): string {
    match r
    case Welcome =>
      "Olá! Bem-vindo à Leapmotor! 😊 Eu sou a LEAP AI, sua assistente virtual. Como posso ajudá-lo hoje? Gostaria de conhecer nossos veículos elétricos ou prefere tomar um café primeiro?"
    case Lineup =>
      "Temos três modelos incríveis! 🚗 O B10 é nosso SUV compacto versátil, o T03 é perfeito para a cidade, e o C10 é nosso SUV premium espaçoso. Qual desperta mais seu interesse?"
    case AboutB10 =>
      "Você quer saber sobre o *B10* (nosso SUV compacto)! 🚗 Com 420km de autonomia, 231cv e R$ 239.990. Quer agendar um test-drive ou falar com consultor?"
    case AboutT03 =>
      "O T03 é perfeito para a cidade! Compacto, ágil, com 280km de autonomia e baixíssimo custo de manutenção. A partir de R$ 169.990. Que tal experimentá-lo? 🌱"
    case AboutC10 =>
      "O C10 é nosso SUV premium! Espaçoso, com teto solar panorâmico, 420km de autonomia e até 7 lugares. A partir de R$ 299.990. Posso agendar uma apresentação exclusiva?"
    case CoffeeMenu =>
      "Claro! Temos café expresso, expresso duplo, café com leite e cappuccino. ☕ Todos preparados com grãos especiais. Qual você prefere?"
    case TestDriveOffer =>
      "Excelente escolha! Nada melhor que sentir a experiência de dirigir um Leapmotor! 🚗 Qual modelo gostaria de experimentar? Posso agendar para hoje mesmo!"
    case Sustainability =>
      "A Leapmotor está comprometida com o futuro sustentável! 🌱 Nossos veículos são 100% elétricos, zero emissão, e contribuem para um planeta mais limpo. Além disso, você economiza até 80% em combustível!"
    case Prices =>
      "Nossos preços começam em R$ 169.990 para o T03. Temos excelentes condições de financiamento e aceita��mos seu usado na troca! 💰 Gostaria de falar com um consultor financeiro?"
    case Fallback =>
      "Interessante sua pergunta! 🤔 Posso te ajudar a conhecer nossos veículos elétricos, agendar um test-drive ou oferecer um café enquanto conversamos. O que prefere?"
  }

  /** The if-chain of `getDemoResponse`, in order. Its keyword lists are
      narrower than those of `classifyIntent`: T03 and C10 only by two spellings each. */
  const DemoRules: seq<Rule<DemoReply>> := [
    Rule(["olá", "oi", "bom dia", "boa tarde"], Welcome),
    Rule(["veículo", "carro", "modelo"], Lineup),
    Rule(B10Variants, AboutB10),
    Rule(["t03", "t 03"], AboutT03),
    Rule(["c10", "c 10"], AboutC10),
    Rule(["café"], CoffeeMenu),
    Rule(["test", "dirigir", "experimentar"], TestDriveOffer),
    Rule(["ecológico", "sustentável", "ambiente"], Sustainability),
    Rule(["preço", "valor", "financiamento"], Prices)
  ]

  lemma DemoTagsDistinct()
    ensures DistinctTags(DemoRules)
    ensures forall i :: 0 <= i < |DemoRules| ==> DemoRules[i].tag != Fallback
  {
  }

  /** Which reply `getDemoResponse` picks: the first branch whose words occur
      in the lower-cased message, or the general reply. */
  function DemoChoice(message: string): (reply: DemoReply)
    ensures ContainsAny(Lower(message), DemoRules[0].keywords) ==> reply == Welcome
    ensures reply == Fallback <==> NoneBefore(DemoRules, Lower(message), |DemoRules|)
  {
    var lower := Lower(message);
    DemoTagsDistinct();
    FirstMatchFallbackIff(DemoRules, lower, Fallback);
    assert FirstFiring(DemoRules, lower, 0) ==> FirstMatch(DemoRules, lower, Fallback) == Welcome by {
      if FirstFiring(DemoRules, lower, 0) {
        FirstMatchEarliest(DemoRules, lower, Fallback, 0);
      }
    }
    FirstMatch(DemoRules, lower, Fallback)
  }

  /** `getDemoResponse`: the text of the chosen reply. */
  function DemoResponse(message: string): string {
    ReplyText(DemoChoice(message))
  }

  /** The reply of branch i comes out exactly when branch i is the first to fire. */
  lemma DemoFirstBranch(message: string, i: nat)
    requires i < |DemoRules|
    ensures DemoChoice(message) == DemoRules[i].tag <==> FirstFiring(DemoRules, Lower(message), i)
  {
    DemoTagsDistinct();
    FirstMatchIff(DemoRules, Lower(message), Fallback, i);
  }

  /** Every greeting demo mode recognises is a greeting for the classifier too. */
  lemma WelcomeIsGreeting(message: string)
    requires DemoChoice(message) == Welcome
    ensures ClassifyIntent(message) == Greeting
  {
    var lower := Lower(message);
    DemoFirstBranch(message, 0);
    var j :| 0 <= j < |DemoRules[0].keywords| && Contains(lower, DemoRules[0].keywords[j]);
    var k := if j == 0 then 0 else if j == 1 then 1 else if j == 2 then 4 else 5;
    assert GreetingWords[k] == DemoRules[0].keywords[j];
  }

  /** "t-03" names a model for the classifier but gets the general reply in demo mode. */
  lemma HyphenatedT03NotInDemo()
    ensures DetectVehicleName(Lower("t-03"))
    ensures DemoChoice("t-03") == Fallback
  {
    LowerOfLower("t-03");
    assert T03Variants[3] == "t-03";
    assert Contains("t-03", "t-03");
    NoDemoRuleFiresOnT03();
  }

  /** No word whose first character is missing from s occurs in s. */
  lemma NoneOccurs(s: string, keys: seq<string>)
    requires forall j :: 0 <= j < |keys| ==> |keys[j]| > 0 && keys[j][0] !in s
    ensures !ContainsAny(s, keys)
  {
    forall j | 0 <= j < |keys| ensures !Contains(s, keys[j]) {
      NotContainsMissingChar(s, keys[j]);
    }
  }

  /** Branch i of demo mode does not fire on "t-03". */
  lemma DemoRuleSilentOnT03(i: nat)
    requires i < |DemoRules|
    ensures !Fires(DemoRules[i], "t-03")
  {
    var s := "t-03";
    if i == 3 {
      assert !Contains(s, "t03") && !Contains(s, "t 03");
    } else if i == 6 {
      assert !Contains(s, "test");
      NoneOccurs(s, ["dirigir", "experimentar"]);
      ContainsAnyAppend(s, ["test"], ["dirigir", "experimentar"]);
      assert DemoRules[6].keywords == ["test"] + ["dirigir", "experimentar"];
    } else {
      NoneOccurs(s, DemoRules[i].keywords);
    }
  }

  /** None of the demo branches' words occurs in "t-03". */
  lemma NoDemoRuleFiresOnT03()
    ensures NoneBefore(DemoRules, "t-03", |DemoRules|)
  {
    forall i | 0 <= i < |DemoRules| ensures !Fires(DemoRules[i], "t-03") {
      DemoRuleSilentOnT03(i);
    }
  }
}
