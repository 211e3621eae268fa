/** The combined student dashboard: the chapter list it fetches on mount, and
    a `startQuiz` shared by the practice, mock and chapter modes, which maps
    the mode to an endpoint and a route and always reads the response's
    `subchapters` array. */
module Dashboard {
  import opened Common
  import opened Payload

  /** The request a mode resolves to. An unknown mode leaves the endpoint as
      the empty string, which requests the current page. */
  datatype Endpoint = PracticeQuestions | MockQuestions | ChapterQuestions(chapterId: JsVal) | CurrentPage

  datatype Target = Target(endpoint: Endpoint, route: string)

  /** The mode's endpoint and route; `None` when chapter mode has no truthy
      chapter id, which aborts before any request. */
  function TargetOf(mode: string, chapterId: JsVal): (r: Option<Target>)
    ensures mode == "practice" ==> r == Some(Target(PracticeQuestions, "/quiz"))
    ensures mode == "mock" ==> r == Some(Target(MockQuestions, "/mockquiz"))
    ensures mode == "chapter" ==>
      r == (if Truthy(chapterId) then Some(Target(ChapterQuestions(chapterId), "/chapterwise")) else None)
    ensures mode != "practice" && mode != "mock" && mode != "chapter" ==> r == Some(Target(CurrentPage, ""))
    ensures r.None? <==> mode == "chapter" && !Truthy(chapterId)
  {
    if mode == "practice" then Some(Target(PracticeQuestions, "/quiz"))
    else if mode == "mock" then Some(Target(MockQuestions, "/mockquiz"))
    else if mode == "chapter" then
      if Truthy(chapterId) then Some(Target(ChapterQuestions(chapterId), "/chapterwise")) else None
    else Some(Target(CurrentPage, ""))
  }

  /** `subchapter.questions.map(...)` with `options` defaulting to `[]`; an
      absent `questions` array throws. */
  function SubchapterRecords(s: Subchapter): Option<seq<Question>>
  {
    if s.questions.None? then None else Some(Map(LenientRecord, s.questions.value))
  }

  function DashboardRecords(subs: seq<Subchapter>): Option<seq<Question>>
  {
    FlatMapOpt(subs, SubchapterRecords)
  }

  /** The flattening throws exactly when a subchapter lacks its `questions`
      array, and otherwise keeps subchapter order, then question order. */
  lemma {:induction false} DashboardRecordsOrder(subs: seq<Subchapter>, i: nat, j: nat)
    requires i < |subs| && subs[i].questions.Some? && j < |subs[i].questions.value|
    requires DashboardRecords(subs).Some?
    ensures Offset(Parts(subs, SubchapterRecords), i) + j < |DashboardRecords(subs).value|
    ensures DashboardRecords(subs).value[Offset(Parts(subs, SubchapterRecords), i) + j]
         == LenientRecord(subs[i].questions.value[j])
  {
    FlatMapOptIndex(subs, SubchapterRecords, i, j);
  }

  lemma DashboardRecordsDefined(subs: seq<Subchapter>)
    ensures DashboardRecords(subs).Some? <==> forall i :: 0 <= i < |subs| ==> subs[i].questions.Some?
  {
    assert forall i :: 0 <= i < |subs| ==> (SubchapterRecords(subs[i]).Some? <==> subs[i].questions.Some?);
  }

  datatype DashboardStart = NoRequest | Failed | Started(questions: seq<Question>, route: string)

  /** `startQuiz(mode, chapterId)`: no request without a faculty id, without
      a token, or in chapter mode without a chapter id; a failed request, an
      absent or empty `subchapters` array, or a subchapter without questions
      fail (and are only logged); otherwise the records go to the mode's route. */
  function StartQuiz(mode: string, chapterId: JsVal, facultyId: JsVal, hasToken: bool, response: Response<QuestionsBody>)
    : (r: DashboardStart)
    ensures r == NoRequest <==> !Truthy(facultyId) || !hasToken || TargetOf(mode, chapterId).None?
    ensures r.Started? <==>
      && Truthy(facultyId) && hasToken && TargetOf(mode, chapterId).Some? && Ok(response)
      && response.body.subchapters.Some? && response.body.subchapters.value != []
      && DashboardRecords(response.body.subchapters.value).Some?
    ensures r.Started? ==>
      r.questions == DashboardRecords(response.body.subchapters.value).value
      && r.route == TargetOf(mode, chapterId).value.route
  {
    if !Truthy(facultyId) || !hasToken then NoRequest
    else
      match TargetOf(mode, chapterId)
      case None => NoRequest
      case Some(t) =>
        if !Ok(response) then Failed
        else if response.body.subchapters.None? || response.body.subchapters.value == [] then Failed
        else
          match DashboardRecords(response.body.subchapters.value)
          case None => Failed
          case Some(qs) => Started(qs, t.route)
  }

  /** A level-table body, which the practice and mock endpoints return, has
      no `subchapters` array, so those two modes can never start from here. */
  lemma LevelTableBodyNeverStarts(mode: string, chapterId: JsVal, facultyId: JsVal, hasToken: bool,
                                  response: Response<QuestionsBody>)
    requires response.body.subchapters.None?
    ensures !StartQuiz(mode, chapterId, facultyId, hasToken, response).Started?
  {
  }

  // ---------------------------------------------------------------------
  // The chapter list

  /** One element of the chapter-list response, by the two fields the page
      reads: `Chapter_id` and `chapter`. */
  datatype ChapterEntry = ChapterEntry(chapterIdField: JsVal, chapterField: JsVal)

  /** The chapter-list body: not an array, or the array's elements. */
  datatype ChapterListBody = NotArray | Entries(entries: seq<ChapterEntry>)

  /** A chapter as the selector shows it: `{ id, name }`. */
  datatype ChapterOption = ChapterOption(id: JsVal, name: JsVal)

  /** The mount fetch of the chapter list: the new list, or `None` when the
      list is left as it was (no token, failed request, not an array). Each
      entry is renamed field by field, in order. */
  function FetchChapters(hasToken: bool, response: Response<ChapterListBody>): (r: Option<seq<ChapterOption>>)
    ensures r.Some? <==> hasToken && Ok(response) && response.body.Entries?
    ensures r.Some? ==> |r.value| == |response.body.entries|
    ensures r.Some? ==> forall i :: 0 <= i < |r.value| ==>
      r.value[i].id == response.body.entries[i].chapterIdField && r.value[i].name == response.body.entries[i].chapterField
  {
    if !hasToken || !Ok(response) || response.body.NotArray? then None
    else Some(Map((e: ChapterEntry) => ChapterOption(e.chapterIdField, e.chapterField), response.body.entries))
  }
}
