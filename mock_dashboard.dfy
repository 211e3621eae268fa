/** The mock exam dashboard: the token gate on mount, and `startQuiz`, which
    picks the first level whose chapter list is non-empty and flattens that
    level alone into the exam's question list. */
module MockDashboard {
  import opened Common
  import opened Payload

  datatype Gate = Redirect(tokenRemoved: bool) | Ready(username: JsVal, facultyId: JsVal)

  /** The mount effect. No token redirects; a token that does not decode or
      has expired is removed before redirecting; otherwise the user name
      defaults to "User" and the faculty claim is taken as it is, checked
      only when a quiz is started. */
  function InitGate(token: StoredToken, nowMs: int): (g: Gate)
    ensures g.Redirect? <==> !token.Decoded? || Expired(token.claims, nowMs)
    ensures g.Redirect? ==> (g.tokenRemoved <==> !token.NoToken?)
    ensures g.Ready? ==> g.facultyId == token.claims.faculty
    ensures g.Ready? ==> Truthy(g.username)
    ensures g.Ready? && Truthy(token.claims.sub) ==> g.username == token.claims.sub
  {
    match token
    case NoToken => Redirect(false)
    case Undecodable => Redirect(true)
    case Decoded(c) =>
      if Expired(c, nowMs) then Redirect(true)
      else Ready(if Truthy(c.sub) then c.sub else Str("User"), c.faculty)
  }

  /** The result of `Object.keys(...).find(...)`: no key matched, the test
      threw on the way (a `null` level value has no `length`), or the index
      of the matching entry. */
  datatype LevelFind = NotFound | Crashed | Found(index: nat)

  /** The mock rule: the first level, from position `from`, whose value has
      a non-zero `length`. */
  function FindNonEmptyLevel(table: LevelTable, from: nat): (r: LevelFind)
    requires from <= |table|
    ensures r.Found? ==> from <= r.index < |table| && table[r.index].1.Some? && table[r.index].1.value != []
    ensures r.Found? || r.NotFound? ==>
      forall j :: from <= j < (if r.Found? then r.index else |table|) ==>
        table[j].1.Some? && table[j].1.value == []
    ensures r.Crashed? ==>
      exists j :: (&& from <= j < |table| && table[j].1.None?
                   && forall m :: from <= m < j ==> table[m].1.Some? && table[m].1.value == [])
    decreases |table| - from
  {
    if from == |table| then NotFound
    else if table[from].1.None? then Crashed
    else if table[from].1.value != [] then Found(from)
    else FindNonEmptyLevel(table, from + 1)
  }

  /** Every entry before a `null` value is an empty level; the search crashes
      exactly when it meets a `null` value before any non-empty level. */
  lemma {:induction false} FindNonEmptyCrashes(table: LevelTable, from: nat, j: nat)
    requires from <= j < |table| && table[j].1.None?
    requires forall k :: from <= k < j ==> table[k].1 == Some([])
    ensures FindNonEmptyLevel(table, from).Crashed?
    decreases j - from
  {
    if from < j {
      FindNonEmptyCrashes(table, from + 1, j);
    }
  }

  datatype MockStart =
    | Ignored
    | FacultyMissing
    | AccessDenied
    | HttpFailed(status: int)
    | NoQuestionsFound
    | TypeErrorThrown
    | NoLevelAvailable
    | Started(questions: seq<Question>)

  /** The message the dashboard shows for a failed start, if it has a fixed one. */
  function StartMessage(s: MockStart): Option<string>
  {
    match s
    case FacultyMissing => Some("Faculty ID is missing. Please log in again.")
    case AccessDenied => Some("Access denied. Please log in again.")
    case NoQuestionsFound => Some("No questions found")
    case NoLevelAvailable => Some("No questions available for this level.")
    case _ => None
  }

  /** `startQuiz`. Nothing happens while loading; a missing faculty id stops
      before the request; a 403 removes the token and redirects without
      reading the body; an absent or key-less `questions` object is an error.
      A level whose key is the empty string is falsy and counts as none. */
  function StartQuiz(loading: bool, facultyId: JsVal, response: Response<QuestionsBody>): (r: MockStart)
    ensures r == Ignored <==> loading
    ensures r == FacultyMissing <==> !loading && !Truthy(facultyId)
    ensures r == AccessDenied <==> !loading && Truthy(facultyId) && response.status == 403
    ensures r.HttpFailed? <==> !loading && Truthy(facultyId) && response.status != 403 && !Ok(response)
    ensures r.HttpFailed? ==> r.status == response.status
    ensures r == NoQuestionsFound <==>
      !loading && Truthy(facultyId) && Ok(response) &&
      (response.body.questions.None? || response.body.questions.value == [])
    ensures r == NoLevelAvailable <==>
      && !loading && Truthy(facultyId) && Ok(response)
      && response.body.questions.Some? && response.body.questions.value != []
      && (|| FindNonEmptyLevel(response.body.questions.value, 0).NotFound?
          || (&& FindNonEmptyLevel(response.body.questions.value, 0).Found?
              && response.body.questions.value[FindNonEmptyLevel(response.body.questions.value, 0).index].0 == ""))
    ensures r == TypeErrorThrown <==>
      && !loading && Truthy(facultyId) && Ok(response)
      && response.body.questions.Some? && response.body.questions.value != []
      && (|| FindNonEmptyLevel(response.body.questions.value, 0).Crashed?
          || (&& FindNonEmptyLevel(response.body.questions.value, 0).Found?
              && response.body.questions.value[FindNonEmptyLevel(response.body.questions.value, 0).index].0 != ""
              && LevelRecords(response.body.questions.value[FindNonEmptyLevel(response.body.questions.value, 0).index].1.value).None?))
    ensures r.Started? <==>
      && !loading && Truthy(facultyId) && Ok(response)
      && response.body.questions.Some?
      && FindNonEmptyLevel(response.body.questions.value, 0).Found?
      && response.body.questions.value[FindNonEmptyLevel(response.body.questions.value, 0).index].0 != ""
      && LevelRecords(response.body.questions.value[FindNonEmptyLevel(response.body.questions.value, 0).index].1.value).Some?
    ensures r.Started? ==>
      var table := response.body.questions.value;
      var i := FindNonEmptyLevel(table, 0).index;
      r.questions == LevelRecords(table[i].1.value).value
  {
    if loading then Ignored
    else if !Truthy(facultyId) then FacultyMissing
    else if response.status == 403 then AccessDenied
    else if !Ok(response) then HttpFailed(response.status)
    else if response.body.questions.None? || response.body.questions.value == [] then NoQuestionsFound
    else
      var table := response.body.questions.value;
      match FindNonEmptyLevel(table, 0)
      case Crashed => TypeErrorThrown
      case NotFound => NoLevelAvailable
      case Found(i) =>
        if table[i].0 == "" then NoLevelAvailable
        else
          match LevelRecords(table[i].1.value)
          case None => TypeErrorThrown
          case Some(qs) => Started(qs)
  }

  /** A started exam holds the flattening of the first non-empty level. */
  lemma StartedQuestions(facultyId: JsVal, response: Response<QuestionsBody>)
    requires StartQuiz(false, facultyId, response).Started?
    ensures response.body.questions.Some? && FindNonEmptyLevel(response.body.questions.value, 0).Found?
    ensures var table := response.body.questions.value;
      var chapters := table[FindNonEmptyLevel(table, 0).index].1.value;
      LevelRecords(chapters).Some? && StartQuiz(false, facultyId, response).questions == LevelRecords(chapters).value
  {
  }

  /** The dashboard's error line after a start: each fixed message appears
      exactly under its own condition, and an HTTP failure or a thrown
      `TypeError` shows a message built by the runtime instead. */
  lemma StartMessages(loading: bool, facultyId: JsVal, response: Response<QuestionsBody>)
    ensures StartMessage(StartQuiz(loading, facultyId, response)) == Some("Faculty ID is missing. Please log in again.")
      <==> !loading && !Truthy(facultyId)
    ensures StartMessage(StartQuiz(loading, facultyId, response)) == Some("Access denied. Please log in again.")
      <==> !loading && Truthy(facultyId) && response.status == 403
    ensures StartMessage(StartQuiz(loading, facultyId, response)) == Some("No questions found")
      <==> !loading && Truthy(facultyId) && Ok(response) &&
           (response.body.questions.None? || response.body.questions.value == [])
    ensures StartMessage(StartQuiz(loading, facultyId, response)) == Some("No questions available for this level.")
      <==> StartQuiz(loading, facultyId, response) == NoLevelAvailable
    ensures StartMessage(StartQuiz(loading, facultyId, response)).None?
      <==> loading || StartQuiz(loading, facultyId, response).HttpFailed?
           || StartQuiz(loading, facultyId, response) == TypeErrorThrown
           || StartQuiz(loading, facultyId, response).Started?
  {
  }

  /** Only the chosen level reaches the exam: the `k`-th question of chapter
      `c` of that level keeps its place after the earlier chapters' questions. */
  lemma {:induction false} StartedKeepsLevelOrder(facultyId: JsVal, response: Response<QuestionsBody>, c: nat, k: nat)
    requires StartQuiz(false, facultyId, response).Started?
    requires var table := response.body.questions.value;
      var chapters := table[FindNonEmptyLevel(table, 0).index].1.value;
      c < |chapters| && chapters[c].subchapters.Some? && k < |chapters[c].subchapters.value|
    ensures var table := response.body.questions.value;
      var chapters := table[FindNonEmptyLevel(table, 0).index].1.value;
      var at := Offset(Parts(chapters, ChapterStrictRecords), c) + k;
      at < |StartQuiz(false, facultyId, response).questions| &&
      StartQuiz(false, facultyId, response).questions[at] == LenientRecord(chapters[c].subchapters.value[k])
  {
    var table := response.body.questions.value;
    var chapters := table[FindNonEmptyLevel(table, 0).index].1.value;
    StartedQuestions(facultyId, response);
    LevelRecordsOrder(chapters, c, k);
  }
}
