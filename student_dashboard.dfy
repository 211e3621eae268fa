/** The student dashboard's `startQuiz`: it needs a faculty id and a token
    before any request, picks the first level whose value is truthy, which an
    empty list is, and flattens that level into the quiz's question list.
    Every failure is only logged. */
module StudentDashboard {
  import opened Common
  import opened Payload
  import MockDashboard

  /** The student rule: the first level, from position `from`, whose value
      is truthy (any list, even an empty one; not `null`). */
  function FindTruthyLevel(table: LevelTable, from: nat): (r: Option<nat>)
    requires from <= |table|
    ensures r.Some? ==> from <= r.value < |table| && table[r.value].1.Some?
    ensures forall j :: from <= j < (if r.Some? then r.value else |table|) ==> table[j].1.None?
    decreases |table| - from
  {
    if from == |table| then None
    else if table[from].1.Some? then Some(from)
    else FindTruthyLevel(table, from + 1)
  }

  datatype StudentStart = NoRequest | Failed | Started(questions: seq<Question>)

  /** `startQuiz`: no request without a faculty id or a token; a failed
      request, an absent or key-less `questions` object, no truthy level (or
      a matching level whose key is the empty string), or a chapter without
      its `subchapters` array or a question without options all fail;
      otherwise the chosen level's records are handed over. */
  function StartQuiz(facultyId: JsVal, hasToken: bool, response: Response<QuestionsBody>): (r: StudentStart)
    ensures r == NoRequest <==> !Truthy(facultyId) || !hasToken
    ensures r.Started? <==>
      && Truthy(facultyId) && hasToken && Ok(response)
      && response.body.questions.Some? && response.body.questions.value != []
      && FindTruthyLevel(response.body.questions.value, 0).Some?
      && response.body.questions.value[FindTruthyLevel(response.body.questions.value, 0).value].0 != ""
      && LevelRecords(response.body.questions.value[FindTruthyLevel(response.body.questions.value, 0).value].1.value).Some?
    ensures r.Started? ==>
      var table := response.body.questions.value;
      r.questions == LevelRecords(table[FindTruthyLevel(table, 0).value].1.value).value
  {
    if !Truthy(facultyId) || !hasToken then NoRequest
    else if !Ok(response) then Failed
    else if response.body.questions.None? || response.body.questions.value == [] then Failed
    else
      var table := response.body.questions.value;
      match FindTruthyLevel(table, 0)
      case None => Failed
      case Some(i) =>
        if table[i].0 == "" then Failed
        else
          match LevelRecords(table[i].1.value)
          case None => Failed
          case Some(qs) => Started(qs)
  }

  /** Where the mock dashboard's search finds a level, this dashboard's
      search finds one too, no later: the two rules agree except that this
      one stops at an empty level the other skips. */
  lemma {:induction false} TruthyLevelNoLater(table: LevelTable, from: nat)
    requires from <= |table|
    requires MockDashboard.FindNonEmptyLevel(table, from).Found?
    ensures FindTruthyLevel(table, from).Some?
    ensures FindTruthyLevel(table, from).value <= MockDashboard.FindNonEmptyLevel(table, from).index
    ensures FindTruthyLevel(table, from).value == from
  {
  }

  /** When the first level is an empty list, this dashboard starts a quiz
      with no questions while the mock dashboard moves on to a later level. */
  lemma EmptyFirstLevelDiverges(facultyId: JsVal, response: Response<QuestionsBody>)
    requires Truthy(facultyId) && Ok(response)
    requires response.body.questions.Some? && |response.body.questions.value| > 0
    requires response.body.questions.value[0].0 != ""
    requires response.body.questions.value[0].1 == Some([])
    ensures StartQuiz(facultyId, true, response) == Started([])
    ensures MockDashboard.FindNonEmptyLevel(response.body.questions.value, 0) != MockDashboard.Found(0)
  {
    assert LevelRecords([]) == Some([]);
  }
}
