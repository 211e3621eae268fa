/** The chapter-wise quiz's global store slice. Its reducers write their one
    field with no guard at all: the position moves by plus or minus one and
    takes any payload, so keeping it inside the question list is left to the
    page that dispatches them. */
module ChapterQuizSlice {
  import opened Common
  import opened Payload
  import opened Session

  const InitialChapterTimeLeft := 1800

  class ChapterQuizStore {
    var chapterQuestions: seq<Question>
    var currentChapterIndex: int
    var selectedChapterAnswers: Ledger
    var facultyId: JsVal
    var chapterTimeLeft: int
    var isChapterSubmitting: bool
    var error: JsVal

    /** The initial state of the slice. */
    constructor ()
      ensures chapterQuestions == [] && currentChapterIndex == 0 && selectedChapterAnswers == map[]
      ensures facultyId == Null && chapterTimeLeft == InitialChapterTimeLeft
      ensures !isChapterSubmitting && error == Bool(false)
    {
      chapterQuestions := [];
      currentChapterIndex := 0;
      selectedChapterAnswers := map[];
      facultyId := Null;
      chapterTimeLeft := InitialChapterTimeLeft;
      isChapterSubmitting := false;
      error := Bool(false);
    }

    method SetChapterQuestions(qs: seq<Question>)
      modifies this`chapterQuestions
      ensures chapterQuestions == qs
    {
      chapterQuestions := qs;
    }

    method SetFacultyId(id: JsVal)
      modifies this`facultyId
      ensures facultyId == id
    {
      facultyId := id;
    }

    /** Overwrites exactly one ledger key. */
    method SetSelectedChapterAnswer(index: int, answer: int)
      modifies this`selectedChapterAnswers
      ensures selectedChapterAnswers == old(selectedChapterAnswers)[index := answer]
      ensures index in selectedChapterAnswers && selectedChapterAnswers[index] == answer
      ensures forall j :: j != index ==> (j in selectedChapterAnswers <==> j in old(selectedChapterAnswers))
      ensures forall j :: j != index && j in old(selectedChapterAnswers) ==>
        selectedChapterAnswers[j] == old(selectedChapterAnswers)[j]
    {
      selectedChapterAnswers := selectedChapterAnswers[index := answer];
    }

    /** Stores the payload without a range check. */
    method SetCurrentChapterIndex(index: int)
      modifies this`currentChapterIndex
      ensures currentChapterIndex == index
    {
      currentChapterIndex := index;
    }

    /** Adds one with no upper bound. */
    method IncrementChapterIndex()
      modifies this`currentChapterIndex
      ensures currentChapterIndex == old(currentChapterIndex) + 1
    {
      currentChapterIndex := currentChapterIndex + 1;
    }

    /** Subtracts one with no lower bound: at 0 it goes to -1. */
    method DecrementChapterIndex()
      modifies this`currentChapterIndex
      ensures currentChapterIndex == old(currentChapterIndex) - 1
    {
      currentChapterIndex := currentChapterIndex - 1;
    }

    method SetIsChapterSubmitting(b: bool)
      modifies this`isChapterSubmitting
      ensures isChapterSubmitting == b
    {
      isChapterSubmitting := b;
    }

    method SetChapterTimeLeft(t: int)
      modifies this`chapterTimeLeft
      ensures chapterTimeLeft == t
    {
      chapterTimeLeft := t;
    }

    method SetError(e: JsVal)
      modifies this`error
      ensures error == e
    {
      error := e;
    }
  }

  /** An increment followed by a decrement puts the position back where it
      was, and touches nothing but the position. */
  method IncrementThenDecrement(store: ChapterQuizStore)
    modifies store
    ensures store.currentChapterIndex == old(store.currentChapterIndex)
    ensures store.chapterQuestions == old(store.chapterQuestions)
    ensures store.selectedChapterAnswers == old(store.selectedChapterAnswers)
  {
    store.IncrementChapterIndex();
    store.DecrementChapterIndex();
  }
}
