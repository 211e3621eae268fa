/** The practice quiz page. It keeps its session in the practice store slice,
    whose navigation reducers are clamped, and sends each answer as soon as
    the learner moves on. Its clock decrements the value captured when the
    interval was installed, and so never reaches the branch that would submit. */
module PracticeQuiz {
  import opened Common
  import opened Payload
  import opened Session
  import opened QuizSlice

  // ---------------------------------------------------------------------
  // Flattening the level table

  /** `(chapter.subchapters || []).map(...)`: a chapter without its array
      contributes nothing; options default to the empty list. */
  function ChapterPracticeRecords(c: Chapter): seq<Question>
  {
    Map(LenientRecord, if c.subchapters.Some? then c.subchapters.value else [])
  }

  /** `chapters.flatMap(...)` for one entry of the table; a `null` chapter
      list throws. */
  function LevelPracticeRecords(entry: (string, Option<seq<Chapter>>)): Option<seq<Question>>
  {
    if entry.1.None? then None else Some(Concat(Map(ChapterPracticeRecords, entry.1.value)))
  }

  /** `Object.entries(data.questions).flatMap(...)`: every level, in table order. */
  function PracticeRecords(table: LevelTable): Option<seq<Question>>
  {
    FlatMapOpt(table, LevelPracticeRecords)
  }

  /** The flattening throws exactly when some level's value is `null`. */
  lemma PracticeRecordsDefined(table: LevelTable)
    ensures PracticeRecords(table).Some? <==> forall l :: 0 <= l < |table| ==> table[l].1.Some?
  {
    assert forall l :: 0 <= l < |table| ==> (LevelPracticeRecords(table[l]).Some? <==> table[l].1.Some?);
  }

  /** The flattening's two levels: the table's flattening is a `flatMap` over
      its levels, level `l`'s records are its chapters' records end to end,
      and question `k` of chapter `c` is the `k`-th record of that chapter. */
  lemma PracticeRecordsParts(table: LevelTable, l: nat, c: nat, k: nat)
    requires PracticeRecords(table).Some?
    requires l < |table| && table[l].1.Some? && c < |table[l].1.value|
    requires table[l].1.value[c].subchapters.Some? && k < |table[l].1.value[c].subchapters.value|
    ensures FlatMapOpt(table, LevelPracticeRecords).Some?
    ensures LevelPracticeRecords(table[l]) == Some(Concat(Map(ChapterPracticeRecords, table[l].1.value)))
    ensures c < |Map(ChapterPracticeRecords, table[l].1.value)|
    ensures k < |Map(ChapterPracticeRecords, table[l].1.value)[c]|
    ensures Map(ChapterPracticeRecords, table[l].1.value)[c][k] == LenientRecord(table[l].1.value[c].subchapters.value[k])
  {
  }

  /** Question `k` of chapter `c` of level `l` lands after everything from the
      earlier levels and, inside its level, after everything from the earlier
      chapters, with its options defaulted and no level attached. */
  lemma {:induction false} PracticeRecordsOrder(table: LevelTable, l: nat, c: nat, k: nat)
    requires PracticeRecords(table).Some?
    requires l < |table| && table[l].1.Some? && c < |table[l].1.value|
    requires table[l].1.value[c].subchapters.Some? && k < |table[l].1.value[c].subchapters.value|
    ensures Offset(Parts(table, LevelPracticeRecords), l) + Offset(Map(ChapterPracticeRecords, table[l].1.value), c) + k
          < |PracticeRecords(table).value|
    ensures PracticeRecords(table).value[Offset(Parts(table, LevelPracticeRecords), l)
                                         + Offset(Map(ChapterPracticeRecords, table[l].1.value), c) + k]
         == LenientRecord(table[l].1.value[c].subchapters.value[k])
  {
    PracticeRecordsParts(table, l, c, k);
    FlatMapOptConcatIndex(table, LevelPracticeRecords, l, Map(ChapterPracticeRecords, table[l].1.value), c, k);
  }

  // ---------------------------------------------------------------------
  // The clock

  /** One run of the interval body: it sets the captured value minus one, and
      calls the submission only when the captured value is not positive. */
  function CapturedTick(captured: int): (r: (int, bool))
    ensures r.0 == captured - 1
    ensures r.1 <==> captured <= 0
  {
    (captured - 1, captured <= 0)
  }

  /** The clock after `k` seconds from `t`: the effect installs an interval
      only while the time left is positive, each interval runs once before the
      new value replaces it, and a fired submission would end the run. */
  function PracticeClock(t: int, k: nat): (int, bool)
  {
    if k == 0 || t <= 0 then (t, false)
    else
      var (next, fire) := CapturedTick(t);
      if fire then (next, true) else PracticeClock(next, k - 1)
  }

  /** The clock counts down to 0 and stops there, and never calls the
      submission: the guard that installs the interval already excludes the
      value that would fire. */
  lemma {:induction false} PracticeClockNeverSubmits(t: nat, k: nat)
    ensures PracticeClock(t, k) == (if k < t then t - k else 0, false)
  {
    if k > 0 && t > 0 {
      PracticeClockNeverSubmits(t - 1, k - 1);
    }
  }

  // ---------------------------------------------------------------------
  // The page

  datatype InitOutcome = LoginRedirect | QuestionsKept | Fetched | FetchError

  datatype ScoreOutcome = NotSubmitted | ScoreStored | ScoreFailed

  /** The time a freshly fetched session gets, in seconds. */
  const PracticeTimeLeft := 1800

  class PracticeQuizPage {
    const store: QuizStore
    var isQuizStarted: bool

    /** The quiz view is on screen: the position names a question and every
        ledger entry belongs to a question. */
    predicate Active()
      reads this, store
    {
      && store.IndexInRange()
      && forall k :: k in store.selectedAnswers ==> 0 <= k < |store.questions|
    }

    constructor (s: QuizStore)
      ensures store == s && !isQuizStarted
    {
      store := s;
      isQuizStarted := false;
    }

    /** The mount effect: checks the stored token for a faculty claim (no
        expiry check), stores it, and fetches and flattens the level table
        when the store holds no questions yet. Every failure raises the
        store's error flag. */
    method Initialize(token: StoredToken, response: Response<QuestionsBody>) returns (out: InitOutcome)
      modifies store`isError, store`facultyId, store`questions, store`timeLeft
      ensures out == LoginRedirect <==> !(token.Decoded? && Truthy(token.claims.faculty))
      ensures out == LoginRedirect ==>
        store.isError && store.facultyId == old(store.facultyId) && store.questions == old(store.questions)
      ensures out != LoginRedirect ==> store.facultyId == token.claims.faculty
      ensures out == QuestionsKept <==> out != LoginRedirect && old(store.questions) != []
      ensures out == Fetched <==>
        && token.Decoded? && Truthy(token.claims.faculty) && old(store.questions) == []
        && Ok(response) && response.body.questions.Some?
        && PracticeRecords(response.body.questions.value).Some?
      ensures out == Fetched ==>
        && store.questions == PracticeRecords(response.body.questions.value).value
        && store.timeLeft == PracticeTimeLeft && store.isError == old(store.isError)
      ensures out == FetchError ==> store.isError && store.questions == old(store.questions)
      ensures out == QuestionsKept ==> store.questions == old(store.questions) && store.isError == old(store.isError)
      ensures out != Fetched ==> store.timeLeft == old(store.timeLeft)
    {
      if !(token.Decoded? && Truthy(token.claims.faculty)) {
        store.SetError(true);
        return LoginRedirect;
      }
      store.SetFacultyId(token.claims.faculty);
      if |store.questions| > 0 {
        return QuestionsKept;
      }
      if !Ok(response) || response.body.questions.None? || PracticeRecords(response.body.questions.value).None? {
        store.SetError(true);
        return FetchError;
      }
      store.SetQuestions(PracticeRecords(response.body.questions.value).value);
      store.SetTimeLeft(PracticeTimeLeft);
      out := Fetched;
    }

    /** The pre-start countdown has elapsed: answering is allowed. */
    method BeginAnswering()
      modifies this`isQuizStarted
      ensures isQuizStarted
    {
      isQuizStarted := true;
    }

    /** One second of the clock: when the quiz has started and time is left,
        the time left goes down by one; the submission is never called. */
    method Tick() returns (fire: bool)
      modifies store`timeLeft
      ensures isQuizStarted && old(store.timeLeft) > 0 ==> store.timeLeft == old(store.timeLeft) - 1
      ensures !(isQuizStarted && old(store.timeLeft) > 0) ==> store.timeLeft == old(store.timeLeft)
      ensures !fire
    {
      fire := false;
      if isQuizStarted && store.timeLeft > 0 {
        var (next, f) := CapturedTick(store.timeLeft);
        store.SetTimeLeft(next);
        fire := f;
      }
    }

    /** `submitAnswer`: nothing is sent without a faculty id or a token;
        otherwise one POST for the question at `questionIndex`, and a failed
        POST raises the error flag. */
    method SubmitAnswer(questionIndex: int, answer: int, hasToken: bool, postStatus: int)
      returns (post: Option<AnswerPost>)
      requires 0 <= questionIndex < |store.questions|
      modifies store`isError
      ensures post.None? <==> !Truthy(store.facultyId) || !hasToken
      ensures post.Some? ==> post.value == AnswerPost(store.questions[questionIndex].id, answer)
      ensures store.isError == (old(store.isError) || (post.Some? && !(200 <= postStatus <= 299)))
    {
      if !Truthy(store.facultyId) || !hasToken {
        return None;
      }
      post := Some(AnswerPost(store.questions[questionIndex].id, answer));
      if !(200 <= postStatus <= 299) {
        store.SetError(true);
      }
    }

    /** Next: ignored without an entry for the current position; otherwise
        the entry is sent and the position moves forward, clamped at the last
        question by the slice. */
    method HandleNext(hasToken: bool, postStatus: int) returns (step: Step, post: Option<AnswerPost>)
      requires Active()
      modifies store`isSubmitting, store`isError, store`currentIndex
      ensures Active()
      ensures step == Ignored <==> old(store.currentIndex) !in store.selectedAnswers
      ensures step == Ignored ==>
        post.None? && store.currentIndex == old(store.currentIndex) && store.isSubmitting == old(store.isSubmitting)
      ensures step != Ignored ==>
        && !store.isSubmitting
        && store.currentIndex == Incremented(old(store.currentIndex), |store.questions|)
        && (post.Some? <==> Truthy(store.facultyId) && hasToken)
        && (post.Some? ==> post.value == AnswerPost(store.questions[old(store.currentIndex)].id,
                                                    store.selectedAnswers[old(store.currentIndex)]))
      ensures step == Advanced <==> step != Ignored && old(store.currentIndex) < |store.questions| - 1
      ensures store.isError == (old(store.isError) || (post.Some? && !(200 <= postStatus <= 299)))
    {
      var index := store.currentIndex;
      if index !in store.selectedAnswers {
        return Ignored, None;
      }
      store.SetIsSubmitting(true);
      post := SubmitAnswer(index, store.selectedAnswers[index], hasToken, postStatus);
      store.IncrementIndex();
      store.SetIsSubmitting(false);
      step := if store.currentIndex == index + 1 then Advanced else Stayed;
    }

    /** Skip: writes 0 at the current position, sends it, and moves forward,
        clamped at the last question. */
    method HandleSkip(hasToken: bool, postStatus: int) returns (step: Step, post: Option<AnswerPost>)
      requires Active()
      modifies store`selectedAnswers, store`isError, store`currentIndex
      ensures Active()
      ensures store.selectedAnswers == old(store.selectedAnswers)[old(store.currentIndex) := SkipValue]
      ensures store.currentIndex == Incremented(old(store.currentIndex), |store.questions|)
      ensures post.Some? <==> Truthy(store.facultyId) && hasToken
      ensures post.Some? ==> post.value == AnswerPost(store.questions[old(store.currentIndex)].id, SkipValue)
      ensures step == Advanced <==> old(store.currentIndex) < |store.questions| - 1
      ensures step == Stayed <==> old(store.currentIndex) == |store.questions| - 1
      ensures store.isError == (old(store.isError) || (post.Some? && !(200 <= postStatus <= 299)))
    {
      var index := store.currentIndex;
      store.SetSelectedAnswer(index, SkipValue);
      post := SubmitAnswer(index, SkipValue, hasToken, postStatus);
      store.IncrementIndex();
      step := if store.currentIndex == index + 1 then Advanced else Stayed;
    }

    /** Previous: one step back when above 0 and not submitting. */
    method HandlePrevious()
      requires Active()
      modifies store`currentIndex
      ensures Active()
      ensures !store.isSubmitting ==> store.currentIndex == Decremented(old(store.currentIndex))
      ensures store.isSubmitting ==> store.currentIndex == old(store.currentIndex)
    {
      if store.currentIndex > 0 && !store.isSubmitting {
        store.DecrementIndex();
      }
    }

    /** Option selection: ignored before the quiz has started; otherwise it
        overwrites the current position's entry. */
    method HandleAnswerSelection(value: int)
      requires Active()
      modifies store`selectedAnswers
      ensures Active()
      ensures !isQuizStarted ==> store.selectedAnswers == old(store.selectedAnswers)
      ensures isQuizStarted ==> store.selectedAnswers == old(store.selectedAnswers)[store.currentIndex := value]
    {
      if !isQuizStarted {
        return;
      }
      store.SetSelectedAnswer(store.currentIndex, value);
    }

    /** A click on navigation button `index`. */
    method HandleNavClick(index: int)
      requires Active() && 0 <= index < |store.questions|
      modifies store`currentIndex
      ensures Active() && store.currentIndex == index
    {
      store.SetCurrentIndex(index);
    }

    /** `handleSubmit`: does nothing without an entry for the current
        position; otherwise requests the score, and a failed request raises
        the error flag. */
    method HandleSubmit(scoreStatus: int) returns (out: ScoreOutcome)
      modifies store`isError
      ensures out == NotSubmitted <==> store.currentIndex !in store.selectedAnswers
      ensures out == ScoreStored <==> store.currentIndex in store.selectedAnswers && 200 <= scoreStatus <= 299
      ensures store.isError == (old(store.isError) || out == ScoreFailed)
    {
      if store.currentIndex !in store.selectedAnswers {
        return NotSubmitted;
      }
      if 200 <= scoreStatus <= 299 {
        out := ScoreStored;
      } else {
        store.SetError(true);
        out := ScoreFailed;
      }
    }
  }
}
