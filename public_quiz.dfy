/** The older quiz page kept under `public/`. It receives its questions as a
    prop but moves through them with the practice store slice's clamped
    reducers, which bound the position by the store's own question list. It
    stores option `p` (0-based on screen) as `p + 1`, and sends a skip as
    option 1. */
module PublicQuiz {
  import opened Common
  import opened Payload
  import opened Session
  import opened QuizSlice

  /** `answerIndex === 0 ? 1 : answerIndex`. */
  function AdjustedAnswer(a: int): (r: int)
    ensures a != 0 ==> r == a
    ensures a == 0 ==> r == 1
  {
    if a == 0 then 1 else a
  }

  /** On the wire a skip is indistinguishable from choosing the first option. */
  lemma SkipSentAsFirstOption()
    ensures AdjustedAnswer(SkipValue) == AdjustedAnswer(1)
  {
  }

  /** `jumpToQuestion`'s loop: `d` increments (clamped at the last position of
      a list of `n`) when `d` is positive, `-d` decrements (clamped at 0)
      when it is negative. */
  function Walk(i: int, d: int, n: int): int
    decreases if d > 0 then d else -d
  {
    if d > 0 then Walk(Incremented(i, n), d - 1, n)
    else if d < 0 then Walk(Decremented(i), d + 1, n)
    else i
  }

  /** From a position on the list, the walk ends at the target clamped to the
      list, so a jump to a position of the list lands on it. */
  lemma {:induction false} WalkLands(i: int, d: int, n: int)
    requires 0 <= i < n
    ensures d >= 0 ==> Walk(i, d, n) == (if i + d < n - 1 then i + d else n - 1)
    ensures d < 0 ==> Walk(i, d, n) == (if i + d > 0 then i + d else 0)
    decreases if d > 0 then d else -d
  {
    if d > 0 {
      WalkLands(Incremented(i, n), d - 1, n);
    } else if d < 0 {
      WalkLands(Decremented(i), d + 1, n);
    }
  }

  /** This page never fills the store's question list. With that list empty,
      no jump, however far, moves the position away from 0. */
  lemma {:induction false} WalkOnEmptyStore(d: int)
    ensures Walk(0, d, 0) == 0
    decreases if d > 0 then d else -d
  {
    if d > 0 {
      WalkOnEmptyStore(d - 1);
    } else if d < 0 {
      WalkOnEmptyStore(d + 1);
    }
  }

  datatype TokenCheck = FacultySet | QuizError

  datatype ScoreOutcome = NotSubmitted | TokenMissing | ScoreStored | ScoreFailed

  /** The 60-minute session length, in seconds. */
  const PublicTimeLeft := 3600

  class PublicQuizPage {
    const store: QuizStore
    /** The `questions` prop. */
    const questions: seq<Question>
    var timeLeft: int
    var facultyId: JsVal
    var isSubmitting: bool
    /** `setQuizState("error")` was called. */
    var quizError: bool
    var intervalRunning: bool
    /** The position and ledger of the first render, which the interval's
        submission closure keeps. */
    const mountIndex: int
    const mountAnswers: Ledger

    constructor (s: QuizStore, qs: seq<Question>)
      ensures store == s && questions == qs
      ensures timeLeft == PublicTimeLeft && facultyId == Null && !isSubmitting && !quizError
      ensures intervalRunning
      ensures mountIndex == s.currentIndex && mountAnswers == s.selectedAnswers
    {
      store := s;
      questions := qs;
      timeLeft := PublicTimeLeft;
      facultyId := Null;
      isSubmitting := false;
      quizError := false;
      intervalRunning := true;
      mountIndex := s.currentIndex;
      mountAnswers := s.selectedAnswers;
    }

    /** The mount effect: a token with a faculty claim sets the id both
        locally and in the store; anything else marks the quiz as failed. */
    method ValidateToken(token: StoredToken) returns (out: TokenCheck)
      modifies this`facultyId, this`quizError, store`facultyId
      ensures out == FacultySet <==> token.Decoded? && Truthy(token.claims.faculty)
      ensures out == FacultySet ==>
        facultyId == token.claims.faculty && store.facultyId == token.claims.faculty && quizError == old(quizError)
      ensures out == QuizError ==>
        quizError && facultyId == old(facultyId) && store.facultyId == old(store.facultyId)
    {
      if token.Decoded? && Truthy(token.claims.faculty) {
        facultyId := token.claims.faculty;
        store.SetFacultyId(token.claims.faculty);
        return FacultySet;
      }
      quizError := true;
      out := QuizError;
    }

    /** One second of the interval: the local countdown, which clears the
        interval and calls the submission on the tick that reaches 0. */
    method Tick() returns (fire: bool)
      modifies this`timeLeft, this`intervalRunning
      ensures !old(intervalRunning) ==> !fire && timeLeft == old(timeLeft) && !intervalRunning
      ensures old(intervalRunning) ==>
        (timeLeft, fire) == LocalCountdownStep(old(timeLeft)) && intervalRunning == !fire
    {
      fire := false;
      if intervalRunning {
        var (next, f) := LocalCountdownStep(timeLeft);
        timeLeft := next;
        fire := f;
        intervalRunning := !f;
      }
    }

    /** `submitAnswer`: the body sent, if any. Nothing is sent without the
        local faculty id, without a token, or when the prop has no truthy id
        at that position; a skip goes out as option 1. */
    function SubmitAnswer(questionIndex: int, answer: int, hasToken: bool): (post: Option<AnswerPost>)
      reads this
      ensures post.Some? <==>
        Truthy(facultyId) && hasToken && 0 <= questionIndex < |questions| && Truthy(questions[questionIndex].id)
      ensures post.Some? ==> post.value.questionId == questions[questionIndex].id && post.value.answerIndex != 0
      ensures post.Some? && answer != 0 ==> post.value.answerIndex == answer
    {
      if !Truthy(facultyId) || !hasToken || !(0 <= questionIndex < |questions|) || !Truthy(questions[questionIndex].id)
      then None
      else Some(AnswerPost(questions[questionIndex].id, AdjustedAnswer(answer)))
    }

    /** Next: ignored without an entry for the current position; otherwise the
        entry is sent, and the position moves forward only below the prop's
        last position, by the store's clamped increment. */
    method HandleNext(hasToken: bool) returns (step: Step, post: Option<AnswerPost>)
      modifies this`isSubmitting, store`isSubmitting, store`currentIndex
      ensures step == Ignored <==> old(store.currentIndex) !in store.selectedAnswers
      ensures step == Ignored ==> post.None? && store.currentIndex == old(store.currentIndex)
      ensures step == Ignored ==> isSubmitting == old(isSubmitting) && store.isSubmitting == old(store.isSubmitting)
      ensures step != Ignored ==>
        && post == SubmitAnswer(old(store.currentIndex), store.selectedAnswers[old(store.currentIndex)], hasToken)
        && !isSubmitting && !store.isSubmitting
        && store.currentIndex == (if old(store.currentIndex) < |questions| - 1
                                  then Incremented(old(store.currentIndex), |store.questions|)
                                  else old(store.currentIndex))
      ensures step == Advanced <==> step != Ignored && store.currentIndex == old(store.currentIndex) + 1
    {
      var index := store.currentIndex;
      if index !in store.selectedAnswers {
        return Ignored, None;
      }
      isSubmitting := true;
      store.SetIsSubmitting(true);
      post := SubmitAnswer(index, store.selectedAnswers[index], hasToken);
      if index < |questions| - 1 {
        store.IncrementIndex();
      }
      isSubmitting := false;
      store.SetIsSubmitting(false);
      step := if store.currentIndex == index + 1 then Advanced else Stayed;
    }

    /** Skip: writes 0 at the current position, sends it (as option 1), and
        moves forward like Next. */
    method HandleSkip(hasToken: bool) returns (step: Step, post: Option<AnswerPost>)
      modifies this`isSubmitting, store`isSubmitting, store`currentIndex, store`selectedAnswers
      ensures store.selectedAnswers == old(store.selectedAnswers)[old(store.currentIndex) := SkipValue]
      ensures post == SubmitAnswer(old(store.currentIndex), SkipValue, hasToken)
      ensures post.Some? ==> post.value.answerIndex == 1
      ensures !isSubmitting && !store.isSubmitting
      ensures store.currentIndex == (if old(store.currentIndex) < |questions| - 1
                                     then Incremented(old(store.currentIndex), |store.questions|)
                                     else old(store.currentIndex))
      ensures step == Advanced <==> store.currentIndex == old(store.currentIndex) + 1
      ensures step == Stayed <==> store.currentIndex == old(store.currentIndex)
    {
      var index := store.currentIndex;
      store.SetSelectedAnswer(index, SkipValue);
      isSubmitting := true;
      store.SetIsSubmitting(true);
      post := SubmitAnswer(index, SkipValue, hasToken);
      if index < |questions| - 1 {
        store.IncrementIndex();
      }
      isSubmitting := false;
      store.SetIsSubmitting(false);
      step := if store.currentIndex == index + 1 then Advanced else Stayed;
    }

    /** Previous: one step back when above 0 and the local flag is clear. */
    method HandlePrevious()
      modifies store`currentIndex
      ensures !isSubmitting ==> store.currentIndex == Decremented(old(store.currentIndex))
      ensures isSubmitting ==> store.currentIndex == old(store.currentIndex)
    {
      if store.currentIndex > 0 && !isSubmitting {
        store.DecrementIndex();
      }
    }

    /** Option button `p` is shown as selected. */
    predicate OptionSelected(p: int)
      reads this, store
    {
      store.currentIndex in store.selectedAnswers && store.selectedAnswers[store.currentIndex] == p + 1
    }

    /** Clicking option `p` records `p + 1`, with no guard; afterwards exactly
        that option is shown as selected. */
    method HandleAnswerSelection(p: int)
      modifies store`selectedAnswers
      ensures store.selectedAnswers == old(store.selectedAnswers)[store.currentIndex := p + 1]
      ensures forall q :: OptionSelected(q) <==> q == p
    {
      store.SetSelectedAnswer(store.currentIndex, p + 1);
    }

    /** `jumpToQuestion`: unless submitting, as many clamped increments or
        decrements as the distance to the target. */
    method JumpToQuestion(target: int)
      modifies store`currentIndex
      ensures isSubmitting ==> store.currentIndex == old(store.currentIndex)
      ensures !isSubmitting ==>
        store.currentIndex == Walk(old(store.currentIndex), target - old(store.currentIndex), |store.questions|)
    {
      if isSubmitting {
        return;
      }
      var start := store.currentIndex;
      var diff := target - start;
      var i := 0;
      if diff > 0 {
        while i < diff
          invariant 0 <= i <= diff
          invariant Walk(store.currentIndex, diff - i, |store.questions|) == Walk(start, diff, |store.questions|)
        {
          store.IncrementIndex();
          i := i + 1;
        }
      } else if diff < 0 {
        while i < -diff
          invariant 0 <= i <= -diff
          invariant Walk(store.currentIndex, diff + i, |store.questions|) == Walk(start, diff, |store.questions|)
        {
          store.DecrementIndex();
          i := i + 1;
        }
      }
    }

    /** `handleSubmit` over the ledger and position its closure sees: nothing
        without an entry at that position or without a token; otherwise the
        score is requested and a failure marks the quiz as failed. */
    method HandleSubmit(answers: Ledger, index: int, hasToken: bool, scoreStatus: int) returns (out: ScoreOutcome)
      modifies this`quizError
      ensures out == NotSubmitted <==> index !in answers
      ensures out == TokenMissing <==> index in answers && !hasToken
      ensures out == ScoreStored <==> index in answers && hasToken && 200 <= scoreStatus <= 299
      ensures quizError == (old(quizError) || out == ScoreFailed)
    {
      if index !in answers {
        return NotSubmitted;
      }
      if !hasToken {
        return TokenMissing;
      }
      if 200 <= scoreStatus <= 299 {
        out := ScoreStored;
      } else {
        quizError := true;
        out := ScoreFailed;
      }
    }

    /** The submission the interval calls when time runs out: the closure of
        the first render, so it checks the position and ledger as they were
        at mount. The store keeps its ledger across mounts, so an entry at the
        mount position can already be there and the score is then requested. */
    method TimeoutSubmit(hasToken: bool, scoreStatus: int) returns (out: ScoreOutcome)
      modifies this`quizError
      ensures out == NotSubmitted <==> mountIndex !in mountAnswers
      ensures out == TokenMissing <==> mountIndex in mountAnswers && !hasToken
      ensures out == ScoreStored <==> mountIndex in mountAnswers && hasToken && 200 <= scoreStatus <= 299
      ensures quizError == (old(quizError) || out == ScoreFailed)
    {
      out := HandleSubmit(mountAnswers, mountIndex, hasToken, scoreStatus);
    }
  }
}
