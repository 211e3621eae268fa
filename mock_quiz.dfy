/** The mock exam page. Unlike the practice page it keeps the whole session
    in its own component state: the position, the answer ledger, the clock
    and the flags. It records option `p` of the screen as `p` itself, 0-based,
    so the first option is stored as the skip value. */
module MockQuiz {
  import opened Common
  import opened Payload
  import opened Session

  datatype TokenCheck = FacultySet | QuizError

  datatype ScoreOutcome = NotSubmitted | TokenMissing | ScoreStored | ScoreFailed

  /** The 60-minute session length, in seconds. */
  const MockTimeLeft := 3600

  /** Choosing the first option writes the very value a skip writes, so the
      ledger, and every status derived from it, cannot tell them apart. */
  lemma FirstOptionCollidesWithSkip(ledger: Ledger, i: int)
    ensures ledger[i := 0] == ledger[i := SkipValue]
    ensures IsSkipped(ledger[i := 0], i) && !IsAttempted(ledger[i := 0], i)
  {
  }

  class MockQuizSession {
    /** The `questions` prop. */
    const questions: seq<Question>
    var currentIndex: int
    var selectedAnswers: Ledger
    var timeLeft: int
    var facultyId: JsVal
    var isSubmitting: bool
    /** `setQuizState("error")` was called. */
    var quizError: bool
    var intervalRunning: bool

    /** The quiz view is on screen: the position names a question and every
        ledger entry belongs to a question. */
    predicate Active()
      reads this
    {
      && 0 <= currentIndex < |questions|
      && forall k :: k in selectedAnswers ==> 0 <= k < |questions|
    }

    /** The first render: position 0, no answers, a full hour. */
    constructor (qs: seq<Question>)
      ensures questions == qs && currentIndex == 0 && selectedAnswers == map[]
      ensures timeLeft == MockTimeLeft && facultyId == Null && !isSubmitting && !quizError
      ensures intervalRunning
      ensures qs != [] ==> Active()
    {
      questions := qs;
      currentIndex := 0;
      selectedAnswers := map[];
      timeLeft := MockTimeLeft;
      facultyId := Null;
      isSubmitting := false;
      quizError := false;
      intervalRunning := true;
    }

    /** The mount effect: a token with a faculty claim sets the id; anything
        else marks the quiz as failed. */
    method ValidateToken(token: StoredToken) returns (out: TokenCheck)
      modifies this`facultyId, this`quizError
      ensures out == FacultySet <==> token.Decoded? && Truthy(token.claims.faculty)
      ensures out == FacultySet ==> facultyId == token.claims.faculty && quizError == old(quizError)
      ensures out == QuizError ==> quizError && facultyId == old(facultyId)
    {
      if token.Decoded? && Truthy(token.claims.faculty) {
        facultyId := token.claims.faculty;
        return FacultySet;
      }
      quizError := true;
      out := QuizError;
    }

    /** One second of the interval: the local countdown, which clears the
        interval and calls the submission on the tick that reaches 0. */
    method Tick() returns (fire: bool)
      modifies this`timeLeft, this`intervalRunning
      ensures !old(intervalRunning) ==> !fire && timeLeft == old(timeLeft) && !intervalRunning
      ensures old(intervalRunning) ==>
        (timeLeft, fire) == LocalCountdownStep(old(timeLeft)) && intervalRunning == !fire
    {
      fire := false;
      if intervalRunning {
        var (next, f) := LocalCountdownStep(timeLeft);
        timeLeft := next;
        fire := f;
        intervalRunning := !f;
      }
    }

    /** `submitAnswer`: the body sent, if any. Nothing is sent without a
        faculty id, without a token, or without a truthy question id at that
        position; the answer goes out as recorded. */
    function SubmitAnswer(questionIndex: int, answer: int, hasToken: bool): (post: Option<AnswerPost>)
      reads this
      ensures post.Some? <==>
        Truthy(facultyId) && hasToken && 0 <= questionIndex < |questions| && Truthy(questions[questionIndex].id)
      ensures post.Some? ==> post.value == AnswerPost(questions[questionIndex].id, answer)
    {
      if !Truthy(facultyId) || !hasToken || !(0 <= questionIndex < |questions|) || !Truthy(questions[questionIndex].id)
      then None
      else Some(AnswerPost(questions[questionIndex].id, answer))
    }

    /** Next: ignored without an entry for the current position; otherwise the
        entry is sent and the position moves forward below the last one. */
    method HandleNext(hasToken: bool) returns (step: Step, post: Option<AnswerPost>)
      requires Active()
      modifies this`isSubmitting, this`currentIndex
      ensures Active()
      ensures step == Ignored <==> old(currentIndex) !in selectedAnswers
      ensures step == Ignored ==> post.None? && currentIndex == old(currentIndex) && isSubmitting == old(isSubmitting)
      ensures step != Ignored ==>
        post == SubmitAnswer(old(currentIndex), selectedAnswers[old(currentIndex)], hasToken) && !isSubmitting
      ensures step == Advanced <==> step != Ignored && old(currentIndex) < |questions| - 1
      ensures step == Advanced ==> currentIndex == old(currentIndex) + 1
      ensures step != Advanced ==> currentIndex == old(currentIndex)
    {
      var index := currentIndex;
      if index !in selectedAnswers {
        return Ignored, None;
      }
      isSubmitting := true;
      post := SubmitAnswer(index, selectedAnswers[index], hasToken);
      if index < |questions| - 1 {
        currentIndex := index + 1;
        step := Advanced;
      } else {
        step := Stayed;
      }
      isSubmitting := false;
    }

    /** Skip: writes 0 at the current position, sends 0, and moves forward
        below the last position. */
    method HandleSkip(hasToken: bool) returns (step: Step, post: Option<AnswerPost>)
      requires Active()
      modifies this`isSubmitting, this`currentIndex, this`selectedAnswers
      ensures Active()
      ensures selectedAnswers == old(selectedAnswers)[old(currentIndex) := SkipValue]
      ensures post == SubmitAnswer(old(currentIndex), SkipValue, hasToken) && !isSubmitting
      ensures step == Advanced <==> old(currentIndex) < |questions| - 1
      ensures step == Stayed <==> old(currentIndex) == |questions| - 1
      ensures step == Advanced ==> currentIndex == old(currentIndex) + 1
      ensures step != Advanced ==> currentIndex == old(currentIndex)
    {
      var index := currentIndex;
      selectedAnswers := selectedAnswers[index := SkipValue];
      isSubmitting := true;
      post := SubmitAnswer(index, SkipValue, hasToken);
      if index < |questions| - 1 {
        currentIndex := index + 1;
        step := Advanced;
      } else {
        step := Stayed;
      }
      isSubmitting := false;
    }

    /** Previous: one step back when above 0 and not submitting. */
    method HandlePrevious()
      requires Active()
      modifies this`currentIndex
      ensures Active()
      ensures old(currentIndex) > 0 && !isSubmitting ==> currentIndex == old(currentIndex) - 1
      ensures !(old(currentIndex) > 0 && !isSubmitting) ==> currentIndex == old(currentIndex)
    {
      if currentIndex > 0 && !isSubmitting {
        currentIndex := currentIndex - 1;
      }
    }

    /** Option button `p` is shown as selected. */
    predicate OptionSelected(p: int)
      reads this
    {
      currentIndex in selectedAnswers && selectedAnswers[currentIndex] == p
    }

    /** Clicking option `p` records `p` itself, with no guard: exactly that
        option is shown as selected, and choosing the first option reads back
        as a skip. */
    method HandleAnswerSelection(p: int)
      requires Active()
      modifies this`selectedAnswers
      ensures Active()
      ensures selectedAnswers == old(selectedAnswers)[currentIndex := p]
      ensures forall q :: OptionSelected(q) <==> q == p
      ensures IsSkipped(selectedAnswers, currentIndex) <==> p == 0
    {
      selectedAnswers := selectedAnswers[currentIndex := p];
    }

    /** `handleSubmit` over the ledger and position its closure sees: nothing
        without an entry at that position or without a token; otherwise the
        score is requested and a failure marks the quiz as failed. */
    method HandleSubmit(answers: Ledger, index: int, hasToken: bool, scoreStatus: int) returns (out: ScoreOutcome)
      modifies this`quizError
      ensures out == NotSubmitted <==> index !in answers
      ensures out == TokenMissing <==> index in answers && !hasToken
      ensures out == ScoreStored <==> index in answers && hasToken && 200 <= scoreStatus <= 299
      ensures quizError == (old(quizError) || out == ScoreFailed)
    {
      if index !in answers {
        return NotSubmitted;
      }
      if !hasToken {
        return TokenMissing;
      }
      if 200 <= scoreStatus <= 299 {
        out := ScoreStored;
      } else {
        quizError := true;
        out := ScoreFailed;
      }
    }

    /** The submission the interval calls when time runs out. The interval
        keeps the closure of the first render, whose ledger is empty, so it
        always returns before requesting the score. */
    method TimeoutSubmit(hasToken: bool, scoreStatus: int) returns (out: ScoreOutcome)
      modifies this`quizError
      ensures out == NotSubmitted && quizError == old(quizError)
    {
      out := HandleSubmit(map[], 0, hasToken, scoreStatus);
    }
  }
}
