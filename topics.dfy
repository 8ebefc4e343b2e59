/**
 * Topic extraction of the chat service (leapmotor-assistant/src/services/openai.ts,
 * `extractTopicKeywords`): sixteen independent keyword tests over the
 * lower-cased message, each adding one topic keyword.
 */
module Topics {
  import opened Text

  /** The topics `extractTopicKeywords` recognises. */
  datatype Topic =
    | Range | Power | Battery | Performance | Price | Financing | TradeIn | Sustainability
    | Economy | Technology | Comfort | Safety | Family | Work | Urban | Travel

  /** The topic keyword stored in the context record. */
  function TopicName(t: Topic): string {
    match t
    case Range => "autonomia"
    case Power => "potência"
    case Battery => "bateria"
    case Performance => "performance"
    case Price => "preço"
    case Financing => "financiamento"
    case TradeIn => "troca"
    case Sustainability => "sustentabilidade"
    case Economy => "economia"
    case Technology => "tecnologia"
    case Comfort => "conforto"
    case Safety => "segurança"
    case Family => "família"
    case Work => "trabalho"
    case Urban => "urbano"
    case Travel => "viagem"
  }

  /** The words that reveal a topic. */
  function TopicWords(t: Topic): seq<string> {
    match t
    case Range => ["autonomia", "alcance", "distância"]
    case Power => ["potência", "cv", "força", "motor"]
    case Battery => ["bateria", "carregamento", "carga"]
    case Performance => ["velocidade", "aceleração", "performance"]
    case Price => ["preço", "valor", "custo"]
    case Financing => ["financiamento", "parcela", "entrada"]
    case TradeIn => ["troca", "usado", "avaliaç"]
    case Sustainability => ["sustentabilidade", "ecologia", "ambiente"]
    case Economy => ["economia", "gastar", "custo"]
    case Technology => ["tecnologia", "sistema", "conectividade"]
    case Comfort => ["conforto", "espaço", "interior"]
    case Safety => ["segurança", "proteção"]
    case Family => ["família", "filhos", "criança"]
    case Work => ["trabalho", "empresa", "negócio"]
    case Urban => ["cidade", "urbano", "trânsito"]
    case Travel => ["viagem", "estrada", "rodoviário"]
  }

  /** The order in which `extractTopicKeywords` tests the topics. */
  const TopicOrder: seq<Topic> := [
    Range, Power, Battery, Performance, Price, Financing, TradeIn, Sustainability,
    Economy, Technology, Comfort, Safety, Family, Work, Urban, Travel
  ]

  /** The words of topic t occur in the lower-cased message. */
  predicate Mentions(lower: string, t: Topic) {
    ContainsAny(lower, TopicWords(t))
  }

  /** The topics of `order` whose words occur in the lower-cased message, in order. */
  function TopicsIn(order: seq<Topic>, lower: string): (topics: seq<Topic>)
    ensures |topics| <= |order|
    decreases |order|
  {
    if order == [] then []
    else if Mentions(lower, order[0]) then [order[0]] + TopicsIn(order[1..], lower)
    else TopicsIn(order[1..], lower)
  }

  /** A topic is read exactly when it is in the list and the message mentions it. */
  lemma {:induction false} TopicsInMembers(order: seq<Topic>, lower: string, t: Topic)
    ensures t in TopicsIn(order, lower) <==> t in order && Mentions(lower, t)
    decreases |order|
  {
    if order != [] {
      TopicsInMembers(order[1..], lower, t);
      assert order == [order[0]] + order[1..];
    }
  }

  /** A topic list read in two parts is the first part's topics, then the second's. */
  lemma {:induction false} TopicsInAppend(a: seq<Topic>, b: seq<Topic>, lower: string)
    ensures TopicsIn(a + b, lower) == TopicsIn(a, lower) + TopicsIn(b, lower)
    decreases |a|
  {
    if a == [] {
      assert a + b == b;
    } else {
      assert (a + b)[0] == a[0] && (a + b)[1..] == a[1..] + b;
      TopicsInAppend(a[1..], b, lower);
    }
  }

  /** Reading topics from a list without repeats yields no repeats. */
  lemma {:induction false} TopicsInNoDuplicates(order: seq<Topic>, lower: string)
    requires forall i, j :: 0 <= i < j < |order| ==> order[i] != order[j]
    ensures var topics := TopicsIn(order, lower);
      forall i, j :: 0 <= i < j < |topics| ==> topics[i] != topics[j]
    decreases |order|
  {
    if order != [] {
      var tail := order[1..];
      assert forall i, j :: 0 <= i < j < |tail| ==> tail[i] == order[i + 1] && tail[j] == order[j + 1];
      TopicsInNoDuplicates(tail, lower);
      TopicsInMembers(tail, lower, order[0]);
      assert order[0] !in tail by {
        assert forall i :: 0 <= i < |tail| ==> tail[i] == order[i + 1];
      }
    }
  }

  lemma TopicOrderComplete(t: Topic)
    ensures t in TopicOrder
  {
  }

  lemma TopicOrderDistinct()
    ensures forall i, j :: 0 <= i < j < |TopicOrder| ==> TopicOrder[i] != TopicOrder[j]
  {
  }

  /** Reading the whole table gives every mentioned topic, each once. */
  lemma TopicTableRead(lower: string)
    ensures forall t :: t in TopicsIn(TopicOrder, lower) <==> Mentions(lower, t)
    ensures var topics := TopicsIn(TopicOrder, lower);
      forall i, j :: 0 <= i < j < |topics| ==> topics[i] != topics[j]
  {
    TopicOrderDistinct();
    TopicsInNoDuplicates(TopicOrder, lower);
    forall t ensures t in TopicsIn(TopicOrder, lower) <==> Mentions(lower, t) {
      TopicOrderComplete(t);
      TopicsInMembers(TopicOrder, lower, t);
    }
  }

  /** `extractTopicKeywords`: every topic whose words occur in the lower-cased
      message, in table order. */
  function ExtractTopicKeywords(message: string): (topics: seq<Topic>)
    ensures |topics| <= 16
    ensures forall t :: t in topics <==> Mentions(Lower(message), t)
  {
    TopicTableRead(Lower(message));
    TopicsIn(TopicOrder, Lower(message))
  }

  /** No topic is reported twice for one message. */
  lemma ExtractTopicKeywordsNoRepeats(message: string)
    ensures var topics := ExtractTopicKeywords(message);
      forall i, j :: 0 <= i < j < |topics| ==> topics[i] != topics[j]
  {
    assert ExtractTopicKeywords(message) == TopicsIn(TopicOrder, Lower(message));
    TopicTableRead(Lower(message));
  }

  /** "custo" belongs to two topics, so a message about cost yields both. */
  lemma CostIsPriceAndEconomy(message: string)
    requires Contains(Lower(message), "custo")
    ensures Price in ExtractTopicKeywords(message) && Economy in ExtractTopicKeywords(message)
  {
    assert TopicWords(Price)[2] == "custo" && TopicWords(Economy)[2] == "custo";
    assert Mentions(Lower(message), Price) && Mentions(Lower(message), Economy);
  }
}
