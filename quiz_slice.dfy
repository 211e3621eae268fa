/** The practice quiz's global store slice: the question list, the current
    position, the answer ledger and the session flags. Every reducer updates
    the store in place; the three navigation reducers keep the position
    inside the question list. */
module QuizSlice {
  import opened Common
  import opened Payload
  import opened Session

  const InitialTimeLeft := 3600

  /** `incrementIndex`: one step forward unless already at the last position. */
  function Incremented(index: int, count: int): (r: int)
    ensures r == index || r == index + 1
    ensures r == index + 1 <==> index < count - 1
    ensures 0 <= index < count ==> 0 <= r < count
  {
    if index < count - 1 then index + 1 else index
  }

  /** `decrementIndex`: one step back unless already at position 0. */
  function Decremented(index: int): (r: int)
    ensures r == index || r == index - 1
    ensures r == index - 1 <==> index > 0
    ensures 0 <= index ==> 0 <= r <= index
  {
    if index > 0 then index - 1 else index
  }

  /** `setCurrentIndex`: the payload when it names a position of the list. */
  function Jumped(index: int, target: int, count: int): (r: int)
    ensures r == target || r == index
    ensures r == target <==> 0 <= target < count || target == index
    ensures 0 <= index < count ==> 0 <= r < count
  {
    if 0 <= target < count then target else index
  }

  class QuizStore {
    var questions: seq<Question>
    var currentIndex: int
    var selectedAnswers: Ledger
    var facultyId: JsVal
    var timeLeft: int
    var isSubmitting: bool
    var isError: bool

    /** The position names a question of the list. */
    predicate IndexInRange()
      reads this
    {
      0 <= currentIndex < |questions|
    }

    /** `initialState`. */
    constructor ()
      ensures questions == [] && currentIndex == 0 && selectedAnswers == map[]
      ensures facultyId == Null && timeLeft == InitialTimeLeft
      ensures !isSubmitting && !isError
    {
      questions := [];
      currentIndex := 0;
      selectedAnswers := map[];
      facultyId := Null;
      timeLeft := InitialTimeLeft;
      isSubmitting := false;
      isError := false;
    }

    /** `setQuestions`: replaces the list; the position and the ledger are
        not adjusted to it. */
    method SetQuestions(qs: seq<Question>)
      modifies this`questions
      ensures questions == qs
    {
      questions := qs;
    }

    method SetFacultyId(id: JsVal)
      modifies this`facultyId
      ensures facultyId == id
    {
      facultyId := id;
    }

    /** `setSelectedAnswer`: overwrites the entry at `index`, whatever it held. */
    method SetSelectedAnswer(index: int, answer: int)
      modifies this`selectedAnswers
      ensures selectedAnswers == old(selectedAnswers)[index := answer]
      ensures index in selectedAnswers && selectedAnswers[index] == answer
      ensures forall j :: j != index ==> (j in selectedAnswers <==> j in old(selectedAnswers))
      ensures forall j :: j != index && j in old(selectedAnswers) ==> selectedAnswers[j] == old(selectedAnswers)[j]
    {
      selectedAnswers := selectedAnswers[index := answer];
    }

    method IncrementIndex()
      modifies this`currentIndex
      ensures currentIndex == Incremented(old(currentIndex), |questions|)
      ensures old(IndexInRange()) ==> IndexInRange()
    {
      if currentIndex < |questions| - 1 {
        currentIndex := currentIndex + 1;
      }
    }

    method DecrementIndex()
      modifies this`currentIndex
      ensures currentIndex == Decremented(old(currentIndex))
      ensures old(IndexInRange()) ==> IndexInRange()
    {
      if currentIndex > 0 {
        currentIndex := currentIndex - 1;
      }
    }

    method SetCurrentIndex(target: int)
      modifies this`currentIndex
      ensures currentIndex == Jumped(old(currentIndex), target, |questions|)
      ensures old(IndexInRange()) ==> IndexInRange()
    {
      if target >= 0 && target < |questions| {
        currentIndex := target;
      }
    }

    method SetIsSubmitting(b: bool)
      modifies this`isSubmitting
      ensures isSubmitting == b
    {
      isSubmitting := b;
    }

    method SetTimeLeft(t: int)
      modifies this`timeLeft
      ensures timeLeft == t
    {
      timeLeft := t;
    }

    method SetError(b: bool)
      modifies this`isError
      ensures isError == b
    {
      isError := b;
    }
  }
}
