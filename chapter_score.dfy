/** The chapter result page: it loads the score the chapter quiz stored,
    classifies every question as correct, incorrect or skipped, and marks
    each option as the correct one, the learner's wrong choice, or neither. */
module ChapterScore {
  import opened Common
  import opened ChapterQuizSlice

  /** One question of the stored score: the learner's answer, the server's
      verdict and the correct option's key, as JSON values. */
  datatype ScoreQuestion = ScoreQuestion(userAnswer: JsVal, answerStatus: JsVal, correctAnswer: JsVal)

  datatype Status = Correct | Incorrect | Skipped

  /** The answer counts as not given: the literal "Not Attempted", `null` or
      `undefined`. */
  predicate NotAttempted(userAnswer: JsVal)
  {
    userAnswer == Str("Not Attempted") || userAnswer.Null? || userAnswer.Undefined?
  }

  /** The status badge of one question. A missing answer wins over the
      server's verdict; a verdict other than "Correct" or "Incorrect" also
      reads as skipped. */
  function StatusOf(q: ScoreQuestion): (s: Status)
    ensures NotAttempted(q.userAnswer) ==> s == Skipped
    ensures s == Correct <==> !NotAttempted(q.userAnswer) && q.answerStatus == Str("Correct")
    ensures s == Incorrect <==> !NotAttempted(q.userAnswer) && q.answerStatus == Str("Incorrect")
    ensures s == Skipped <==>
      NotAttempted(q.userAnswer) || (q.answerStatus != Str("Correct") && q.answerStatus != Str("Incorrect"))
  {
    if NotAttempted(q.userAnswer) then Skipped
    else if q.answerStatus == Str("Correct") then Correct
    else if q.answerStatus == Str("Incorrect") then Incorrect
    else Skipped
  }

  /** The badge's class name, from the status in lower case. */
  function BadgeClass(s: Status): string
  {
    match s
    case Correct => "correct"
    case Incorrect => "incorrect"
    case Skipped => "skipped"
  }

  /** The badge's class names the question's status: each of the three
      classes is shown exactly for its own status. */
  lemma StatusTotal(q: ScoreQuestion)
    ensures BadgeClass(StatusOf(q)) == "skipped" <==> StatusOf(q) == Skipped
    ensures BadgeClass(StatusOf(q)) == "correct" <==> StatusOf(q) == Correct
    ensures BadgeClass(StatusOf(q)) == "incorrect" <==> StatusOf(q) == Incorrect
  {
  }

  /** How one option (with the parsed key `k`) is drawn: a check mark, a
      cross, and its class name. */
  datatype OptionView = OptionView(check: bool, cross: bool, cls: string)

  /** `isCorrect`: the key equals `correct_answer` under strict equality. */
  predicate IsCorrectOption(k: int, q: ScoreQuestion)
  {
    q.correctAnswer == Num(k)
  }

  /** `isUserAnswer`: the answer is not "Not Attempted" and equals the key. */
  predicate IsUserOption(k: int, q: ScoreQuestion)
  {
    q.userAnswer != Str("Not Attempted") && q.userAnswer == Num(k)
  }

  function MarkOption(k: int, q: ScoreQuestion): (v: OptionView)
    ensures v.check <==> IsCorrectOption(k, q)
    ensures v.cross <==> IsUserOption(k, q) && !IsCorrectOption(k, q)
    ensures v.cls == "correct" <==> v.check
    ensures v.cls == "incorrect" <==> v.cross
    ensures v.cls == "" <==> !v.check && !v.cross
  {
    var isCorrect := IsCorrectOption(k, q);
    var isUser := IsUserOption(k, q);
    OptionView(isCorrect, isUser && !isCorrect, if isCorrect then "correct" else if isUser then "incorrect" else "")
  }

  /** At most one option carries the check and at most one the cross, and
      never the same one; the cross sits on the learner's numeric answer. The
      "Not Attempted" test in `isUserAnswer` adds nothing, since a string
      never equals a number. */
  lemma MarksAreExclusive(q: ScoreQuestion, k1: int, k2: int)
    ensures MarkOption(k1, q).check && MarkOption(k2, q).check ==> k1 == k2
    ensures MarkOption(k1, q).cross && MarkOption(k2, q).cross ==> k1 == k2
    ensures !(MarkOption(k1, q).check && MarkOption(k1, q).cross)
    ensures MarkOption(k1, q).cross ==> q.userAnswer == Num(k1) && !NotAttempted(q.userAnswer)
    ensures IsUserOption(k1, q) <==> q.userAnswer == Num(k1)
  {
  }

  /** What `JSON.parse` of the stored text gives: text that is not JSON, or
      a value whose `questions` array is present or not (`None` also covers a
      parsed `null`). */
  datatype ParsedScore = Unparsable | Parsed(questions: Option<seq<ScoreQuestion>>)

  /** The storage key of the stored score. */
  const ScoreKey := "chapterQuizScoreData"
  /** The storage key of the bearer token. */
  const TokenKey := "authToken"

  datatype LoadOutcome = Shown | BackToChapters(message: string)

  class ChapterScorePage {
    const store: ChapterQuizStore
    /** The browser's local storage. */
    var storage: map<string, string>
    var scoreData: Option<seq<ScoreQuestion>>
    var loading: bool

    constructor (s: ChapterQuizStore, st: map<string, string>)
      ensures store == s && storage == st && scoreData == None && loading
    {
      store := s;
      storage := st;
      scoreData := None;
      loading := true;
    }

    /** A stored item is present and not the empty string. */
    predicate Stored(key: string)
      reads this
    {
      key in storage && storage[key] != ""
    }

    /** `loadScoreData`: a missing token, then a missing score, each set an
        error and go back before anything is parsed; text that does not parse,
        or whose `questions` is missing, sets "Invalid score data". The page
        stops loading unless it left before the parse. */
    method LoadScoreData(parsed: ParsedScore) returns (out: LoadOutcome)
      modifies this`scoreData, this`loading, store`error
      ensures !Stored(TokenKey) ==>
        out == BackToChapters("No authentication token found") && loading == old(loading) && scoreData == old(scoreData)
      ensures Stored(TokenKey) && !Stored(ScoreKey) ==>
        out == BackToChapters("No score data found") && loading == old(loading) && scoreData == old(scoreData)
      ensures Stored(TokenKey) && Stored(ScoreKey) ==> !loading
      ensures out == Shown <==> Stored(TokenKey) && Stored(ScoreKey) && parsed.Parsed? && parsed.questions.Some?
      ensures out == Shown ==> scoreData == parsed.questions && store.error == old(store.error)
      ensures Stored(TokenKey) && Stored(ScoreKey) && out != Shown ==>
        out == BackToChapters("Invalid score data") && scoreData == old(scoreData)
      ensures out.BackToChapters? ==> store.error == Str(out.message)
    {
      if !Stored(TokenKey) {
        store.SetError(Str("No authentication token found"));
        return BackToChapters("No authentication token found");
      }
      if !Stored(ScoreKey) {
        store.SetError(Str("No score data found"));
        return BackToChapters("No score data found");
      }
      if parsed.Parsed? && parsed.questions.Some? {
        scoreData := parsed.questions;
        out := Shown;
      } else {
        store.SetError(Str("Invalid score data"));
        out := BackToChapters("Invalid score data");
      }
      loading := false;
    }

    /** `handleReturn`: removes the stored score and nothing else from
        storage. The reset it dispatches next is not defined by the chapter
        slice, so that call throws and the navigation after it is not
        reached. */
    method HandleReturn()
      modifies this`storage
      ensures storage == old(storage) - {ScoreKey}
      ensures !Stored(ScoreKey)
      ensures forall key :: key != ScoreKey ==> (key in storage <==> key in old(storage))
    {
      storage := storage - {ScoreKey};
    }
  }
}
