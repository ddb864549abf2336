/**
 * The GigaChat service of the bot: whether it is configured, the lazily
 * loaded socionics knowledge base, the requests it sends, how a
 * classification reply is validated, and the offline fallbacks (a random
 * type, canned analyses and fixed apology texts).
 *
 * The chat model itself is a parameter `giga: ChatRequest -> Option<string>`:
 * `Some(content)` is the content of the first choice of the reply and `None`
 * is a call that raised.  The knowledge-base file is a parameter
 * `file: Option<string>`: its contents, or `None` when opening or reading
 * it raised.
 */
module GigaChat {
  import opened Outcomes
  import opened PyText

  /** The value `AU_TOKEN` has when the key was never filled in. */
  const Placeholder := "your_gigachat_api_key_here"

  /** What the knowledge base becomes when `socio.txt` cannot be read. */
  const DefaultKnowledge := "Базовые знания соционики"

  /** The sixteen types `_get_random_personality_type` draws from, in its order. */
  const Types: seq<string> := [
    "INTJ", "INTP", "ENTJ", "ENTP",
    "INFJ", "INFP", "ENFJ", "ENFP",
    "ISTJ", "ISFJ", "ESTJ", "ESFJ",
    "ISTP", "ISFP", "ESTP", "ESFP"]

  /** The canned analyses of `_get_stub_analysis`, one per type. */
  const IntjStub := "Стратегический мыслитель с сильной волей. Сильные стороны: стратегическое планирование, независимость. Зоны развития: развитие эмпатии, гибкость в общении."
  const IntpStub := "Инновационный архитектор идей. Сильные стороны: логический анализ, креативность. Зоны развития: практическая реализация, эмоциональная вовлеченность."
  const EntjStub := "Решительный лидер. Сильные стороны: организация, принятие решений. Зоны развития: терпимость к ошибкам, эмпатия."
  const EntpStub := "Изобретательный и находчивый. Сильные стороны: генерация идей, адаптивность. Зоны развития: завершение проектов, внимание к деталям."
  const InfjStub := "Проницательный идеалист. Сильные стороны: понимание людей, видение будущего. Зоны развития: практичность, установление границ."
  const InfpStub := "Чуткий медиатор. Сильные стороны: ценности, креативность. Зоны развития: решительность, конфронтация."
  const EnfjStub := "Вдохновляющий лидер. Сильные стороны: мотивация, коммуникация. Зоны развития: принятие критики, делегирование."
  const EnfpStub := "Энтузиаст-новатор. Сильные стороны: энтузиазм, связи с людьми. Зоны развития: фокусировка, рутина."
  const IstjStub := "Практичный реализатор. Сильные стороны: надежность, внимание к деталям. Зоны развития: гибкость, принятие рисков."
  const IsfjStub := "Защитник-хранитель. Сильные стороны: преданность, практичность. Зоны развития: уверенность в себе, принятие изменений."
  const EstjStub := "Эффективный администратор. Сильные стороны: организация, решительность. Зоны развития: терпимость, эмпатия."
  const EsfjStub := "Заботливый гармонизатор. Сильные стороны: социальность, практичность. Зоны развития: принятие критики, независимость."
  const IstpStub := "Виртуоз-ремесленник. Сильные стороны: адаптивность, решение проблем. Зоны развития: планирование, эмоциональная экспрессия."
  const IsfpStub := "Гибкий художник. Сильные стороны: чувствительность, креативность. Зоны развития: конфронтация, структура."
  const EstpStub := "Энергичный предприниматель. Сильные стороны: энергичность, практичность. Зоны развития: терпение, долгосрочное планирование."
  const EsfpStub := "Спонтанный развлекатель. Сильные стороны: энергичность, социальность. Зоны развития: глубина, планирование."

  /** `analyses` in `_get_stub_analysis`: type to canned text. */
  const StubTable: map<string, string> := map[
    "INTJ" := IntjStub,
    "INTP" := IntpStub,
    "ENTJ" := EntjStub,
    "ENTP" := EntpStub,
    "INFJ" := InfjStub,
    "INFP" := InfpStub,
    "ENFJ" := EnfjStub,
    "ENFP" := EnfpStub,
    "ISTJ" := IstjStub,
    "ISFJ" := IsfjStub,
    "ESTJ" := EstjStub,
    "ESFJ" := EsfjStub,
    "ISTP" := IstpStub,
    "ISFP" := IsfpStub,
    "ESTP" := EstpStub,
    "ESFP" := EsfpStub]

  /** The two halves of the default text of `_get_stub_analysis`, around the type. */
  const StubDefaultHead := "Тип "
  const StubDefaultTail := " обладает уникальными характеристиками. Рекомендуется изучить особенности данного типа."

  /** The fixed replies of `generate_group_analysis`. */
  const GroupUnavailable := "Анализ группы временно недоступен. Убедитесь, что настроен API ключ GigaChat."
  const GroupFailure := "Не удалось сгенерировать анализ группы. Проверьте настройки API."

  /** The system messages of the three requests. */
  const ClassifierRole := "Ты эксперт по соционике. Анализируй ответы и определяй тип личности. Возвращай ТОЛЬКО 4-буквенную аббревиатуру."
  const AnalystRole := "Ты эксперт по соционике. Создавай точные и полезные анализы личности."
  const GroupRole := "Ты эксперт по командной динамике и соционике. Анализируй группы на основе типов личности и истории сообщений. Давай конкретные практические рекомендации."

  /** How much of the knowledge base each prompt quotes. */
  const ClassificationExcerpt := 4000
  const AnalysisExcerpt := 3000

  /** The variable part of a user prompt: what the request is about. */
  datatype Prompt =
    | Classification(answersText: string)
    | Personal(personalityType: string)
    | Group(groupPrompt: string)

  /** A chat payload: system message, user prompt, the quoted knowledge and
   *  the sampling settings. */
  datatype ChatRequest = ChatRequest(
    system: string, prompt: Prompt, knowledge: string, temperature: real, maxTokens: nat)

  /** `bool(AU_TOKEN and AU_TOKEN != "your_gigachat_api_key_here")`, with `None`
   *  for a token that is not set. */
  predicate Configured(token: Option<string>) {
    token.Some? && token.value != "" && token.value != Placeholder
  }

  /** A knowledge base Python treats as true: present and non-empty. */
  predicate Truthy(kb: Option<string>) {
    kb.Some? && kb.value != ""
  }

  /** What `load_knowledge_base` stores: the file, or the fallback text. */
  function LoadedText(file: Option<string>): string {
    if file.Some? then file.value else DefaultKnowledge
  }

  /** The knowledge base after the guard `if not self.knowledge_base:
   *  await self.load_knowledge_base()`. */
  function KnowledgeAfterLoad(kb: Option<string>, file: Option<string>): string {
    if Truthy(kb) then kb.value else LoadedText(file)
  }

  /** A loaded, non-empty knowledge base is kept: the file is not read again. */
  lemma LoadIsCached(kb: Option<string>, file: Option<string>, later: Option<string>)
    requires KnowledgeAfterLoad(kb, file) != ""
    ensures KnowledgeAfterLoad(Some(KnowledgeAfterLoad(kb, file)), later) == KnowledgeAfterLoad(kb, file)
  {
  }

  /** The knowledge base is empty after the guard only when it was not loaded
   *  before and the file itself is empty; a failed read gives the fallback. */
  lemma LoadedKnowledgeEmpty(kb: Option<string>, file: Option<string>)
    ensures KnowledgeAfterLoad(kb, file) == "" <==> !Truthy(kb) && file == Some("")
    ensures !Truthy(kb) && file.None? ==> KnowledgeAfterLoad(kb, file) == DefaultKnowledge
  {
  }

  /** One line of the answer block: `f"{i+1}. {answer}"`. */
  function NumberedAnswer(i: nat, answer: string): string {
    Decimal(i + 1) + ". " + answer
  }

  /** The numbered lines, in answer order. */
  function NumberedAnswers(answers: seq<string>): (ls: seq<string>)
    ensures |ls| == |answers|
  {
    seq(|answers|, i requires 0 <= i < |answers| => NumberedAnswer(i, answers[i]))
  }

  /** `"\n".join(f"{i+1}. {answer}" for i, answer in enumerate(answers))`. */
  function AnswerBlock(answers: seq<string>): string {
    Join(NumberedAnswers(answers))
  }

  /** Answers without line feeds can be read back from the block: line `i`
   *  is answer `i` numbered `i + 1`. */
  lemma AnswerBlockLines(answers: seq<string>)
    requires answers != []
    requires forall i :: 0 <= i < |answers| ==> NoNewline(answers[i])
    ensures |Split(AnswerBlock(answers))| == |answers|
    ensures forall i :: 0 <= i < |answers| ==>
      Split(AnswerBlock(answers))[i] == Decimal(i + 1) + ". " + answers[i]
  {
    var ls := NumberedAnswers(answers);
    forall k | 0 <= k < |ls|
      ensures NoNewline(ls[k])
    {
      var d := Decimal(k + 1);
      assert ls[k] == d + ". " + answers[k];
      forall j | 0 <= j < |ls[k]|
        ensures ls[k][j] != '\n'
      {
        if j < |d| {
          assert ls[k][j] == d[j];
        } else if j < |d| + 2 {
          assert ls[k][j] == ". "[j - |d|];
        } else {
          assert ls[k][j] == answers[k][j - |d| - 2];
        }
      }
    }
    SplitJoin(ls);
  }

  /** A classification reply is accepted when, once stripped, it is four
   *  letters. */
  predicate ValidReply(result: string) {
    |result| == 4 && IsAlpha(result)
  }

  /** Every fallback type is an accepted reply and is already stripped. */
  lemma TypesAreValid()
    ensures |Types| == 16
    ensures forall t :: t in Types ==> ValidReply(t) && Strip(t) == t
  {
    forall t | t in Types
      ensures ValidReply(t) && Strip(t) == t
    {
      assert IsLetter(t[0]) && IsLetter(t[1]) && IsLetter(t[2]) && IsLetter(t[3]);
      AlphaIsStripped(t);
    }
  }

  /** The canned table has an entry for exactly the sixteen types. */
  lemma StubTableCoversTypes()
    ensures StubTable.Keys == set t | t in Types
  {
  }

  /** `analyses.get(personality_type, f"Тип {personality_type} обладает ...")`. */
  function StubAnalysis(personalityType: string): (text: string)
    ensures text != []
  {
    if personalityType in StubTable then StubTable[personalityType]
    else StubDefaultHead + personalityType + StubDefaultTail
  }

  /** A known type gets its own canned text; any other string gets the
   *  default text, which names it right after `"Тип "`. */
  lemma StubAnalysisCases(personalityType: string)
    ensures personalityType in Types ==> StubAnalysis(personalityType) == StubTable[personalityType]
    ensures personalityType !in Types ==>
      && StartsWith(StubAnalysis(personalityType), StubDefaultHead)
      && StubAnalysis(personalityType)[|StubDefaultHead|..|StubDefaultHead| + |personalityType|] == personalityType
  {
    StubTableCoversTypes();
    if personalityType !in Types {
      var text := StubDefaultHead + personalityType + StubDefaultTail;
      assert text[..|StubDefaultHead|] == StubDefaultHead;
      assert text[|StubDefaultHead|..|StubDefaultHead| + |personalityType|] == personalityType;
    }
  }

  /** `_get_random_personality_type`: `random.choice(types)`, a pick that the
   *  model leaves open. */
  method RandomPersonalityType() returns (t: string)
    ensures t in Types
  {
    assert Types[0] in Types;
    t :| t in Types;
  }

  /** The classification payload: temperature 0.3, at most 10 tokens, the
   *  numbered answers and the first 4000 characters of the knowledge base. */
  function ClassificationRequest(kb: string, answers: seq<string>): (q: ChatRequest)
    ensures |q.knowledge| <= ClassificationExcerpt && StartsWith(kb, q.knowledge)
    ensures |kb| <= ClassificationExcerpt ==> q.knowledge == kb
  {
    ChatRequest(ClassifierRole, Classification(AnswerBlock(answers)),
                Prefix(kb, ClassificationExcerpt), 0.3, 10)
  }

  /** The personal analysis payload: temperature 0.7, at most 300 tokens, the
   *  type and the first 3000 characters of the knowledge base; the answers
   *  are not part of it. */
  function PersonalRequest(kb: string, personalityType: string): (q: ChatRequest)
    ensures |q.knowledge| <= AnalysisExcerpt && StartsWith(kb, q.knowledge)
    ensures |kb| <= AnalysisExcerpt ==> q.knowledge == kb
  {
    ChatRequest(AnalystRole, Personal(personalityType), Prefix(kb, AnalysisExcerpt), 0.7, 300)
  }

  /** The group analysis payload: temperature 0.7, at most 800 tokens, the
   *  caller's prompt and the first 3000 characters of the knowledge base. */
  function GroupRequest(kb: string, prompt: string): (q: ChatRequest)
    ensures |q.knowledge| <= AnalysisExcerpt && StartsWith(kb, q.knowledge)
    ensures |kb| <= AnalysisExcerpt ==> q.knowledge == kb
  {
    ChatRequest(GroupRole, Group(prompt), Prefix(kb, AnalysisExcerpt), 0.7, 800)
  }

  /** What `determine_personality_type` may return for a reply: the stripped
   *  content when it is four letters, otherwise any of the sixteen types. */
  predicate Classified(reply: Option<string>, t: string) {
    if reply.Some? && ValidReply(Strip(reply.value)) then t == Strip(reply.value)
    else t in Types
  }

  /** Whatever the reply, a classified type is four letters. */
  lemma ClassifiedIsValid(reply: Option<string>, t: string)
    requires Classified(reply, t)
    ensures ValidReply(t) && Strip(t) == t
  {
    TypesAreValid();
    if reply.Some? && ValidReply(Strip(reply.value)) {
      AlphaIsStripped(t);
    }
  }

  /** `GigaChatService`. */
  class GigaChatService {
    const credentials: Option<string>
    const enabled: bool
    var knowledgeBase: Option<string>

    /** `__init__`: no knowledge base; enabled iff the token is configured. */
    constructor (token: Option<string>)
      ensures credentials == token && knowledgeBase == None
      ensures enabled == Configured(token)
    {
      credentials := token;
      knowledgeBase := None;
      enabled := token.Some? && token.value != "" && token.value != Placeholder;
    }

    /** `load_knowledge_base`: the file's contents, or the fallback text when
     *  reading raised. */
    method LoadKnowledgeBase(file: Option<string>)
      modifies this
      ensures file.Some? ==> knowledgeBase == Some(file.value)
      ensures file.None? ==> knowledgeBase == Some(DefaultKnowledge)
    {
      if file.Some? {
        knowledgeBase := Some(file.value);
      } else {
        knowledgeBase := Some(DefaultKnowledge);
      }
    }

    /** The guard before each request: load only when the knowledge base is
     *  false (unset or empty). */
    method EnsureKnowledgeBase(file: Option<string>)
      modifies this
      ensures knowledgeBase == Some(KnowledgeAfterLoad(old(knowledgeBase), file))
      ensures Truthy(old(knowledgeBase)) ==> knowledgeBase == old(knowledgeBase)
    {
      if !(knowledgeBase.Some? && knowledgeBase.value != "") {
        LoadKnowledgeBase(file);
      }
    }

    /** `determine_personality_type`: disabled, a random type; otherwise the
     *  classification request is sent and its reply validated.  The result
     *  is always four letters. */
    method DeterminePersonalityType(answers: seq<string>, file: Option<string>,
                                    giga: ChatRequest -> Option<string>)
      returns (t: string)
      modifies this
      ensures ValidReply(t) && Strip(t) == t
      ensures !enabled ==> t in Types && knowledgeBase == old(knowledgeBase)
      ensures enabled ==>
        var kb := KnowledgeAfterLoad(old(knowledgeBase), file);
        knowledgeBase == Some(kb) && Classified(giga(ClassificationRequest(kb, answers)), t)
    {
      if !enabled {
        t := RandomPersonalityType();
        ClassifiedIsValid(None, t);
        return;
      }
      EnsureKnowledgeBase(file);
      var reply := giga(ClassificationRequest(knowledgeBase.value, answers));
      if reply.None? {
        t := RandomPersonalityType();
      } else {
        var result := Strip(reply.value);
        if |result| == 4 && IsAlpha(result) {
          t := result;
        } else {
          t := RandomPersonalityType();
        }
      }
      ClassifiedIsValid(reply, t);
    }

    /** `generate_personality_analysis`: disabled, the canned text; otherwise
     *  the reply, or the canned text when the call raised. */
    method GeneratePersonalityAnalysis(personalityType: string, answers: seq<string>,
                                       file: Option<string>, giga: ChatRequest -> Option<string>)
      returns (analysis: string)
      modifies this
      ensures !enabled ==> analysis == StubAnalysis(personalityType) && knowledgeBase == old(knowledgeBase)
      ensures enabled ==>
        var kb := KnowledgeAfterLoad(old(knowledgeBase), file);
        var reply := giga(PersonalRequest(kb, personalityType));
        && knowledgeBase == Some(kb)
        && analysis == (if reply.Some? then reply.value else StubAnalysis(personalityType))
    {
      if !enabled {
        return StubAnalysis(personalityType);
      }
      EnsureKnowledgeBase(file);
      var reply := giga(PersonalRequest(knowledgeBase.value, personalityType));
      if reply.Some? {
        analysis := reply.value;
      } else {
        analysis := StubAnalysis(personalityType);
      }
    }

    /** `generate_group_analysis`: disabled, the "temporarily unavailable"
     *  text without a request; otherwise the reply, or the failure text when
     *  the call raised. */
    method GenerateGroupAnalysis(prompt: string, file: Option<string>,
                                 giga: ChatRequest -> Option<string>)
      returns (analysis: string)
      modifies this
      ensures !enabled ==> analysis == GroupUnavailable && knowledgeBase == old(knowledgeBase)
      ensures enabled ==>
        var kb := KnowledgeAfterLoad(old(knowledgeBase), file);
        var reply := giga(GroupRequest(kb, prompt));
        && knowledgeBase == Some(kb)
        && analysis == (if reply.Some? then reply.value else GroupFailure)
    {
      if !enabled {
        return GroupUnavailable;
      }
      EnsureKnowledgeBase(file);
      var reply := giga(GroupRequest(knowledgeBase.value, prompt));
      if reply.Some? {
        analysis := reply.value;
      } else {
        analysis := GroupFailure;
      }
    }
  }
}
