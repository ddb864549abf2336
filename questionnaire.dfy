/**
 * The private-chat questionnaire of the bot: eight free-text questions
 * asked one at a time, each answer at most 500 characters, the eighth
 * followed by classification and analysis.
 *
 * The per-user conversation state of the FSM storage (`waiting_for_answer_1`
 * .. `waiting_for_answer_8`, or none) and the module-level `user_answers`
 * dictionary are the two maps of `TestFlow`; each incoming event is one
 * method.  The menu of questions itself is not part of this model: only
 * their count matters here.
 */
module Questionnaire {
  import opened Outcomes
  import opened PyText
  import opened GigaChat

  /** A Telegram user id. */
  type UserId = int

  /** The number of the question being waited for. */
  type QuestionNo = n: int | 1 <= n <= QuestionCount witness 1

  const QuestionCount := 8

  /** The longest accepted answer, in characters. */
  const MaxAnswerLength := 500

  /** The name aiogram gives the state `TestStates.waiting_for_answer_<n>`. */
  function StateName(n: QuestionNo): string {
    "TestStates:waiting_for_answer_" + Decimal(n)
  }

  /** Every state of the questionnaire belongs to the `TestStates` group. */
  lemma StateNamesInGroup(n: QuestionNo)
    ensures StartsWith(StateName(n), "TestStates:")
  {
    var name := StateName(n);
    assert name[..|"TestStates:"|] == "TestStates:";
  }

  /** The eight states have distinct names. */
  lemma StateNamesDistinct(m: QuestionNo, n: QuestionNo)
    requires m != n
    ensures StateName(m) != StateName(n)
  {
    var prefix := "TestStates:waiting_for_answer_";
    assert Decimal(m) == [Digit(m)] && Decimal(n) == [Digit(n)];
    assert StateName(m)[|prefix|] == Digit(m);
    assert StateName(n)[|prefix|] == Digit(n);
  }

  /** The check after classification: a type whose stripped length is not 4
   *  is replaced by `"INTJ"`. */
  function CheckedType(personalityType: string): (t: string)
    ensures |Strip(t)| == 4
    ensures t == personalityType || t == "INTJ"
    ensures |Strip(personalityType)| == 4 ==> t == personalityType
  {
    if |Strip(personalityType)| != 4 then
      assert Strip("INTJ") == "INTJ" by { StripUnpadded("INTJ"); }
      "INTJ"
    else personalityType
  }

  /** The check never fires on what `determine_personality_type` returns,
   *  which is always four letters. */
  lemma CheckedTypeKeepsValid(personalityType: string)
    requires ValidReply(personalityType)
    ensures CheckedType(personalityType) == personalityType
  {
    AlphaIsStripped(personalityType);
  }

  /** What an answer event led to. */
  datatype AnswerOutcome =
    | NotInTest
    | TooLong
    | Asked(next: QuestionNo)
    | Completed(submitted: seq<string>, personalityType: string, analysis: string)

  /** The handlers of the questionnaire, with the state they share. */
  class TestFlow {
    /** The FSM state of each user that is inside the questionnaire. */
    var states: map<UserId, QuestionNo>
    /** `user_answers`: the answers given so far. */
    var answers: map<UserId, seq<string>>
    /** The module's `gigachat_service`. */
    const ai: GigaChatService

    /** Everyone in the questionnaire has a list, and the list of a user
     *  waiting for answer `n` holds the `n - 1` answers given. */
    ghost predicate Valid()
      reads this
    {
      && states.Keys == answers.Keys
      && forall u :: u in states ==> |answers[u]| == states[u] as int - 1
    }

    constructor (service: GigaChatService)
      ensures Valid()
      ensures states == map[] && answers == map[] && ai == service
    {
      states := map[];
      answers := map[];
      ai := service;
    }

    /** `/test`: the list is reset to empty and the first question asked,
     *  whether or not the user is already in the questionnaire or typed. */
    method Start(user: UserId)
      requires Valid()
      modifies this
      ensures Valid()
      ensures answers == old(answers)[user := []]
      ensures states == old(states)[user := 1]
    {
      answers := answers[user := []];
      states := states[user := 1];
    }

    /** `/cancel`: acts only when the user's state belongs to `TestStates`;
     *  then the list is dropped and the state cleared. */
    method Cancel(user: UserId) returns (cancelled: bool)
      requires Valid()
      modifies this
      ensures Valid()
      ensures cancelled <==> user in old(states)
      ensures states == old(states) - {user}
      ensures answers == old(answers) - {user}
    {
      if user in states {
        StateNamesInGroup(states[user]);
      }
      if user in states && StartsWith(StateName(states[user]), "TestStates:") {
        if user in answers {
          answers := answers - {user};
        }
        states := states - {user};
        cancelled := true;
      } else {
        cancelled := false;
      }
    }

    /** A message without text during the questionnaire only earns a reminder:
     *  nothing changes. */
    method NonText(user: UserId) returns (reminded: bool)
      ensures reminded <==> user in states
    {
      reminded := user in states;
    }

    /** After the eighth answer: the answers are classified, the type is
     *  re-checked, and the analysis of that type is generated. */
    method Conclude(submitted: seq<string>, file: Option<string>,
                    giga: ChatRequest -> Option<string>)
      returns (personalityType: string, analysis: string)
      modifies ai
      ensures ValidReply(personalityType)
      ensures !ai.enabled ==>
        && personalityType in Types && analysis == StubAnalysis(personalityType)
        && ai.knowledgeBase == old(ai.knowledgeBase)
      ensures ai.enabled ==>
        var kb := KnowledgeAfterLoad(old(ai.knowledgeBase), file);
        var reply := giga(PersonalRequest(kb, personalityType));
        && ai.knowledgeBase == Some(kb)
        && Classified(giga(ClassificationRequest(kb, submitted)), personalityType)
        && analysis == (if reply.Some? then reply.value else StubAnalysis(personalityType))
    {
      personalityType := ai.DeterminePersonalityType(submitted, file, giga);
      CheckedTypeKeepsValid(personalityType);
      personalityType := CheckedType(personalityType);
      analysis := ai.GeneratePersonalityAnalysis(personalityType, submitted, file, giga);
    }

    /** `process_answer_<n>`: an over-long answer is refused; otherwise it is
     *  appended and the next question asked, and after the eighth the eight
     *  answers are classified and analysed and the user leaves the
     *  questionnaire. */
    method Answer(user: UserId, text: string, file: Option<string>,
                  giga: ChatRequest -> Option<string>)
      returns (outcome: AnswerOutcome)
      requires Valid()
      modifies this, ai
      ensures Valid()
      ensures user !in old(states) ==>
        outcome == NotInTest && states == old(states) && answers == old(answers)
      ensures user in old(states) && |text| > MaxAnswerLength ==>
        outcome == TooLong && states == old(states) && answers == old(answers)
      ensures user in old(states) && |text| <= MaxAnswerLength && old(states)[user] < QuestionCount ==>
        && outcome == Asked(old(states)[user] + 1)
        && states == old(states)[user := old(states)[user] + 1]
        && answers == old(answers)[user := old(answers)[user] + [text]]
      ensures user in old(states) && |text| <= MaxAnswerLength && old(states)[user] == QuestionCount ==>
        && outcome.Completed?
        && outcome.submitted == old(answers)[user] + [text]
        && |outcome.submitted| == QuestionCount
        && ValidReply(outcome.personalityType)
        && states == old(states) - {user}
        && answers == old(answers) - {user}
      ensures outcome.Completed? && !ai.enabled ==>
        outcome.personalityType in Types && outcome.analysis == StubAnalysis(outcome.personalityType)
      ensures outcome.Completed? && ai.enabled ==>
        var kb := KnowledgeAfterLoad(old(ai.knowledgeBase), file);
        var reply := giga(PersonalRequest(kb, outcome.personalityType));
        && Classified(giga(ClassificationRequest(kb, outcome.submitted)), outcome.personalityType)
        && outcome.analysis == (if reply.Some? then reply.value else StubAnalysis(outcome.personalityType))
      ensures outcome.Completed? && ai.enabled ==>
        ai.knowledgeBase == Some(KnowledgeAfterLoad(old(ai.knowledgeBase), file))
      ensures !(outcome.Completed? && ai.enabled) ==> ai.knowledgeBase == old(ai.knowledgeBase)
    {
      if user !in states {
        return NotInTest;
      }
      if |text| > MaxAnswerLength {
        return TooLong;
      }
      var n := states[user];
      answers := answers[user := answers[user] + [text]];
      if n < QuestionCount {
        states := states[user := n + 1];
        return Asked(n + 1);
      }
      var submitted := answers[user];
      var personalityType, analysis := Conclude(submitted, file, giga);
      outcome := Completed(submitted, personalityType, analysis);
      states := states - {user};
      if user in answers {
        answers := answers - {user};
      }
    }
  }
}
