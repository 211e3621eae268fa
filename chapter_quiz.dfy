/** The chapter-wise quiz page. It drives the unguarded chapter slice, so its
    own handlers carry the guards that keep the position on the question
    list: Next and Skip move forward only below the last position and call
    the final submission there. Answers are sent in one sweep over all
    positions at submission time, and the clock is recomputed from the
    session's end time on every tick. */
module ChapterQuiz {
  import opened Common
  import opened Payload
  import opened Session
  import opened ChapterQuizSlice

  // ---------------------------------------------------------------------
  // Flattening the chapter payload

  /** One question of the chapter payload; unlike the other pages, the
      record keeps the question's level. */
  function ChapterModeRecord(q: RawQuestion): Question
  {
    LenientRecord(q).(level := q.level)
  }

  /** `subchapter.questions.map(...)`, which throws when `questions` is absent. */
  function SubchapterRecords(s: Subchapter): Option<seq<Question>>
  {
    if s.questions.None? then None else Some(Map(ChapterModeRecord, s.questions.value))
  }

  /** `data.subchapters.flatMap(...)`; `None` is the thrown error. */
  function FlattenChapter(subs: seq<Subchapter>): (r: Option<seq<Question>>)
    ensures r.Some? <==> forall i :: 0 <= i < |subs| ==> subs[i].questions.Some?
  {
    assert forall i :: 0 <= i < |subs| ==> (SubchapterRecords(subs[i]).Some? <==> subs[i].questions.Some?);
    FlatMapOpt(subs, SubchapterRecords)
  }

  /** The flattening is a `flatMap` over the subchapters, each of which has
      its question list, turned record by record. */
  lemma FlattenChapterParts(subs: seq<Subchapter>, i: nat)
    requires FlattenChapter(subs).Some?
    requires i < |subs|
    ensures FlatMapOpt(subs, SubchapterRecords).Some?
    ensures subs[i].questions.Some?
    ensures SubchapterRecords(subs[i]) == Some(Map(ChapterModeRecord, subs[i].questions.value))
  {
    assert SubchapterRecords(subs[i]).Some?;
  }

  /** The flattening fails exactly when some subchapter lacks its question
      list; otherwise question `j` of subchapter `i` comes after everything
      from the earlier subchapters, in question order, with its level. */
  lemma {:induction false} FlattenChapterOrder(subs: seq<Subchapter>, i: nat, j: nat)
    requires FlattenChapter(subs).Some?
    requires i < |subs|
    ensures subs[i].questions.Some?
    ensures j < |subs[i].questions.value| ==>
      Offset(Parts(subs, SubchapterRecords), i) + j < |FlattenChapter(subs).value| &&
      FlattenChapter(subs).value[Offset(Parts(subs, SubchapterRecords), i) + j]
        == ChapterModeRecord(subs[i].questions.value[j])
  {
    FlattenChapterParts(subs, i);
    if j < |subs[i].questions.value| {
      FlatMapOptIndex(subs, SubchapterRecords, i, j);
    }
  }

  /** The flattened list is empty exactly when every subchapter has an empty
      question list; the page treats that as an error, not a session. */
  lemma FlattenChapterEmpty(subs: seq<Subchapter>)
    requires FlattenChapter(subs).Some?
    ensures subs == [] ==> FlattenChapter(subs).value == []
    ensures FlattenChapter(subs).value == [] <==>
      forall i :: 0 <= i < |subs| ==> subs[i].questions.Some? && subs[i].questions.value == []
  {
    var parts := Parts(subs, SubchapterRecords);
    ConcatEmpty(parts);
    assert forall i :: 0 <= i < |subs| ==> |parts[i]| == |subs[i].questions.value|;
  }

  // ---------------------------------------------------------------------
  // The clock synchronised with the session's end time

  /** `Math.max(0, Math.floor((end - now) / 1000))`: whole seconds left. */
  function SyncedRemaining(endMs: int, nowMs: int): (r: nat)
    ensures endMs <= nowMs ==> r == 0
    ensures endMs > nowMs ==> r * 1000 <= endMs - nowMs < (r + 1) * 1000
  {
    var seconds := (endMs - nowMs) / 1000;
    if seconds < 0 then 0 else seconds
  }

  /** The clock never goes up as time passes; once it has reached 0 it stays
      there, so every later tick calls the submission again. */
  lemma {:induction false} SyncedRemainingMonotone(endMs: int, nowMs: int, laterMs: int)
    requires nowMs <= laterMs
    ensures SyncedRemaining(endMs, laterMs) <= SyncedRemaining(endMs, nowMs)
    ensures SyncedRemaining(endMs, nowMs) == 0 ==> SyncedRemaining(endMs, laterMs) == 0
  {
    var a, b := SyncedRemaining(endMs, nowMs), SyncedRemaining(endMs, laterMs);
    if endMs > laterMs {
      assert b * 1000 <= endMs - laterMs <= endMs - nowMs < (a + 1) * 1000;
    }
  }

  // ---------------------------------------------------------------------
  // The final answer sweep

  /** The body of one chapter answer POST. */
  datatype ChapterAnswerPost = ChapterAnswerPost(chapterId: int, questionId: JsVal, answerIndex: int)

  /** `selectedChapterAnswers[i] !== undefined ? selectedChapterAnswers[i] : 0`:
      an unanswered position is sent as a skip. */
  function SweepAnswer(ledger: Ledger, i: int): (a: int)
    ensures i in ledger ==> a == ledger[i]
    ensures i !in ledger ==> a == SkipValue
  {
    if i in ledger then ledger[i] else SkipValue
  }

  /** What the sweep did: returned at once (no faculty id, no token, or
      already redirected), threw because no chapter is selected, or posted
      these bodies in this order. */
  datatype Sweep = SweepSkipped | SweepNoChapter | Swept(posts: seq<ChapterAnswerPost>)

  /** The page state a submission closure sees: the values of the render
      that created it. The Submit button's closure is fresh; the clock's
      closure is the one from the render that installed the interval. */
  datatype ChapterView = ChapterView(facultyId: JsVal, hasRedirected: bool, questions: seq<Question>, answers: Ledger)

  /** `submitAllAnswers`: returns at once without a faculty id or token or
      after a redirect, throws without a selected chapter, and otherwise
      posts positions 0 to n-1 in order, each with its ledger entry or 0. */
  method SubmitAllAnswers(view: ChapterView, hasToken: bool, chapterId: Option<int>) returns (sweep: Sweep)
    ensures !Truthy(view.facultyId) || !hasToken || view.hasRedirected ==> sweep == SweepSkipped
    ensures Truthy(view.facultyId) && hasToken && !view.hasRedirected && chapterId.None? ==> sweep == SweepNoChapter
    ensures sweep.Swept? <==> Truthy(view.facultyId) && hasToken && !view.hasRedirected && chapterId.Some?
    ensures sweep.Swept? ==> |sweep.posts| == |view.questions|
    ensures sweep.Swept? ==> forall i :: 0 <= i < |sweep.posts| ==>
      sweep.posts[i] == ChapterAnswerPost(chapterId.value, view.questions[i].id, SweepAnswer(view.answers, i))
  {
    if !Truthy(view.facultyId) || !hasToken || view.hasRedirected {
      return SweepSkipped;
    }
    if chapterId.None? {
      return SweepNoChapter;
    }
    var posts: seq<ChapterAnswerPost> := [];
    var i := 0;
    while i < |view.questions|
      invariant 0 <= i <= |view.questions|
      invariant |posts| == i
      invariant forall k :: 0 <= k < i ==>
        posts[k] == ChapterAnswerPost(chapterId.value, view.questions[k].id, SweepAnswer(view.answers, k))
    {
      var answer := if i in view.answers then view.answers[i] else 0;
      posts := posts + [ChapterAnswerPost(chapterId.value, view.questions[i].id, answer)];
      i := i + 1;
    }
    sweep := Swept(posts);
  }

  /** A sweep from a closure that saw no answers yet (the clock's closure
      when the interval was installed before any selection) posts a skip for
      every question, whatever the learner answered since. */
  lemma StaleSweepPostsSkips(view: ChapterView, chapterId: int, posts: seq<ChapterAnswerPost>)
    requires view.answers == map[]
    requires |posts| == |view.questions|
    requires forall i :: 0 <= i < |posts| ==>
      posts[i] == ChapterAnswerPost(chapterId, view.questions[i].id, SweepAnswer(view.answers, i))
    ensures forall i :: 0 <= i < |posts| ==> posts[i].answerIndex == SkipValue
  {
  }

  /** `allQuestionsProcessed`: every position has an entry, a skip included. */
  predicate AllQuestionsProcessed(ledger: Ledger, count: int)
  {
    forall i :: 0 <= i < count ==> i in ledger
  }

  /** When the Submit button is enabled, the sweep sends exactly what the
      ledger holds: no position falls back to the default skip. */
  lemma ProcessedSweepSendsLedger(ledger: Ledger, count: int)
    requires AllQuestionsProcessed(ledger, count)
    ensures forall i :: 0 <= i < count ==> SweepAnswer(ledger, i) == ledger[i]
  {
  }

  // ---------------------------------------------------------------------
  // The page

  datatype LoadError =
    | NoChapterSelected
    | Unauthorized
    | ChapterNotFound
    | FetchFailed
    | MalformedPayload
    | NoQuestions

  /** The message the page stores for a load error (`err.message`). A
      `TypeError` thrown on a malformed payload carries the runtime's own
      message, which is not modelled. */
  function LoadMessage(e: LoadError): string
  {
    match e
    case NoChapterSelected => "No chapter selected"
    case Unauthorized => "Unauthorized access to chapter questions"
    case ChapterNotFound => "Chapter or questions not found"
    case FetchFailed => "Failed to fetch chapter questions: "
    case MalformedPayload => "TypeError"
    case NoQuestions => "No questions found for this chapter"
  }

  datatype LoadOutcome = LoadSkipped | Loaded | LoadFailed(error: LoadError, tokenRemoved: bool)

  datatype TokenCheck = CheckSkipped | FacultySet | LoginRedirect(message: string, tokenRemoved: bool)

  /** What the final score request gave. On a 403 the stored token is also
      removed. */
  datatype ScoreFetch = ScoreStored | ScoreUnauthorized | ScoreNotFound | ScoreFailed

  /** The message the page stores when the score request fails; the body
      text the server appends to the last one is not modelled. */
  function ScoreMessage(score: ScoreFetch): Option<string>
  {
    match score
    case ScoreStored => None
    case ScoreUnauthorized => Some("Unauthorized access to fetch score")
    case ScoreNotFound => Some("No session found for scoring")
    case ScoreFailed => Some("Failed to fetch score: ")
  }

  datatype SubmitOutcome =
    | NotSubmitted
    | SubmitAborted(sweep: Sweep)
    | Submitted(sweep: Sweep, score: ScoreFetch)

  class ChapterQuizPage {
    const store: ChapterQuizStore
    var isQuizStarted: bool
    var hasRedirected: bool
    var visited: set<int>
    var sessionEnd: Option<int>
    /** The clock effect's interval is installed. */
    var tickerRunning: bool
    /** What the interval's submission closure saw when it was installed. */
    var tickerView: ChapterView

    /** The quiz view is on screen: the position names a question and every
        ledger entry belongs to a question. */
    predicate Active()
      reads this, store
    {
      && 0 <= store.currentChapterIndex < |store.chapterQuestions|
      && forall k :: k in store.selectedChapterAnswers ==> 0 <= k < |store.chapterQuestions|
    }

    constructor (s: ChapterQuizStore)
      ensures store == s
      ensures !isQuizStarted && !hasRedirected && visited == {}
      ensures sessionEnd == None && !tickerRunning
      ensures tickerView == ChapterView(s.facultyId, false, s.chapterQuestions, s.selectedChapterAnswers)
    {
      store := s;
      isQuizStarted := false;
      hasRedirected := false;
      visited := {};
      sessionEnd := None;
      tickerRunning := false;
      tickerView := ChapterView(s.facultyId, false, s.chapterQuestions, s.selectedChapterAnswers);
    }

    /** The token check on mount: the faculty claim is required before the
        expiry is looked at; an expired token is removed. */
    method ValidateToken(token: StoredToken, nowMs: int) returns (out: TokenCheck)
      modifies this`hasRedirected, store`error, store`facultyId
      ensures old(hasRedirected) ==> out == CheckSkipped && store.facultyId == old(store.facultyId)
      ensures out == CheckSkipped ==> store.error == old(store.error) && hasRedirected == old(hasRedirected)
      ensures !old(hasRedirected) && token.NoToken? ==> out == LoginRedirect("No authentication token found", false)
      ensures !old(hasRedirected) && token.Undecodable? ==> out == LoginRedirect("Invalid token", false)
      ensures !old(hasRedirected) && token.Decoded? && !Truthy(token.claims.faculty) ==>
        out == LoginRedirect("Faculty ID missing in token", false)
      ensures !old(hasRedirected) && token.Decoded? && Truthy(token.claims.faculty) && Expired(token.claims, nowMs) ==>
        out == LoginRedirect("Session expired", true)
      ensures out == FacultySet <==>
        !old(hasRedirected) && token.Decoded? && Truthy(token.claims.faculty) && !Expired(token.claims, nowMs)
      ensures out == FacultySet ==> store.facultyId == token.claims.faculty && !hasRedirected && store.error == old(store.error)
      ensures out.LoginRedirect? ==>
        hasRedirected && store.error == Str(out.message) && store.facultyId == old(store.facultyId)
    {
      if hasRedirected {
        return CheckSkipped;
      }
      var message: string;
      var removed := false;
      match token {
        case NoToken =>
          message := "No authentication token found";
        case Undecodable =>
          message := "Invalid token";
        case Decoded(c) =>
          if !Truthy(c.faculty) {
            message := "Faculty ID missing in token";
          } else if Expired(c, nowMs) {
            message := "Session expired";
            removed := true;
          } else {
            store.SetFacultyId(c.faculty);
            return FacultySet;
          }
      }
      store.SetError(Str(message));
      hasRedirected := true;
      out := LoginRedirect(message, removed);
    }

    /** Fetching and flattening the chapter's questions, then starting the
        clock from the session's end time. An empty flattened list is an
        error, and every error leads back to the chapter selection. */
    method LoadQuestions(chapterId: Option<int>, response: Response<QuestionsBody>, nowMs: int)
      returns (out: LoadOutcome)
      modifies this`hasRedirected, this`sessionEnd
      modifies store`chapterQuestions, store`chapterTimeLeft, store`error
      ensures out == LoadSkipped <==>
        !Truthy(old(store.facultyId)) || old(store.chapterQuestions) != [] || old(hasRedirected)
      ensures out == LoadSkipped ==>
        store.chapterQuestions == old(store.chapterQuestions) && store.error == old(store.error)
        && hasRedirected == old(hasRedirected)
      ensures out != Loaded ==> sessionEnd == old(sessionEnd) && store.chapterTimeLeft == old(store.chapterTimeLeft)
      ensures out != LoadSkipped && chapterId.None? ==> out == LoadFailed(NoChapterSelected, false)
      ensures out != LoadSkipped && chapterId.Some? && !Ok(response) ==>
        out == LoadFailed(if response.status == 403 then Unauthorized
                          else if response.status == 404 then ChapterNotFound
                          else FetchFailed,
                          response.status == 403)
      ensures (&& out != LoadSkipped && chapterId.Some? && Ok(response)
               && (|| response.body.subchapters.None?
                   || FlattenChapter(response.body.subchapters.value).None?
                   || (FlattenChapter(response.body.subchapters.value).value != [] && response.body.sessionEnd.None?)))
        ==> out == LoadFailed(MalformedPayload, false)
      ensures (&& out == LoadFailed(MalformedPayload, false) && response.body.subchapters.Some?
               && FlattenChapter(response.body.subchapters.value).Some?)
        ==> store.chapterQuestions == FlattenChapter(response.body.subchapters.value).value
      ensures (&& out == LoadFailed(MalformedPayload, false)
               && (response.body.subchapters.None? || FlattenChapter(response.body.subchapters.value).None?))
        ==> store.chapterQuestions == old(store.chapterQuestions)
      ensures out.LoadFailed? ==> hasRedirected && store.error == Str(LoadMessage(out.error))
      ensures out.LoadFailed? ==> (out.tokenRemoved <==> out.error == Unauthorized)
      ensures out.LoadFailed? && out.error != MalformedPayload ==> store.chapterQuestions == old(store.chapterQuestions)
      ensures out.Loaded? <==>
        && Truthy(old(store.facultyId)) && old(store.chapterQuestions) == [] && !old(hasRedirected)
        && chapterId.Some? && Ok(response)
        && response.body.subchapters.Some?
        && FlattenChapter(response.body.subchapters.value).Some?
        && FlattenChapter(response.body.subchapters.value).value != []
        && response.body.sessionEnd.Some?
      ensures out.Loaded? ==>
        && store.chapterQuestions == FlattenChapter(response.body.subchapters.value).value
        && sessionEnd == response.body.sessionEnd
        && store.chapterTimeLeft == SyncedRemaining(response.body.sessionEnd.value, nowMs)
        && !hasRedirected
      ensures out == LoadFailed(NoQuestions, false) <==>
        && Truthy(old(store.facultyId)) && old(store.chapterQuestions) == [] && !old(hasRedirected)
        && chapterId.Some? && Ok(response)
        && response.body.subchapters.Some?
        && FlattenChapter(response.body.subchapters.value) == Some([])
    {
      if !Truthy(store.facultyId) || |store.chapterQuestions| > 0 || hasRedirected {
        return LoadSkipped;
      }
      var err: LoadError;
      var removed := false;
      if chapterId.None? {
        err := NoChapterSelected;
      } else if !Ok(response) {
        if response.status == 403 {
          err, removed := Unauthorized, true;
        } else if response.status == 404 {
          err := ChapterNotFound;
        } else {
          err := FetchFailed;
        }
      } else if response.body.subchapters.None? || FlattenChapter(response.body.subchapters.value).None? {
        err := MalformedPayload;
      } else if FlattenChapter(response.body.subchapters.value).value == [] {
        err := NoQuestions;
      } else {
        store.SetChapterQuestions(FlattenChapter(response.body.subchapters.value).value);
        if response.body.sessionEnd.None? {
          err := MalformedPayload;
        } else {
          var endMs := response.body.sessionEnd.value;
          sessionEnd := Some(endMs);
          store.SetChapterTimeLeft(SyncedRemaining(endMs, nowMs));
          return Loaded;
        }
      }
      store.SetError(Str(LoadMessage(err)));
      hasRedirected := true;
      out := LoadFailed(err, removed);
    }

    /** The pre-start countdown has elapsed: answering is allowed. */
    method BeginAnswering()
      modifies this`isQuizStarted
      ensures isQuizStarted
    {
      isQuizStarted := true;
    }

    /** The page state as the current render sees it. */
    function View(): ChapterView
      reads this, store
    {
      ChapterView(store.facultyId, hasRedirected, store.chapterQuestions, store.selectedChapterAnswers)
    }

    /** The clock effect's guard, evaluated when the effect starts: a started
        quiz with a known end time and time left. The interval keeps the
        submission closure of that render, and keeps running whatever the
        time left becomes. */
    method StartTicker()
      modifies this`tickerRunning, this`tickerView
      ensures tickerRunning == (isQuizStarted && sessionEnd.Some? && store.chapterTimeLeft > 0)
      ensures tickerRunning ==> tickerView == View()
      ensures !tickerRunning ==> tickerView == old(tickerView)
    {
      tickerRunning := isQuizStarted && sessionEnd.Some? && store.chapterTimeLeft > 0;
      if tickerRunning {
        tickerView := View();
      }
    }

    /** One tick (the first one runs as the effect starts): the time left is
        recomputed from the end time, never decremented, and reaching 0 calls
        the final submission through `tickerView`. */
    method SyncedTick(nowMs: int) returns (fire: bool)
      modifies store`chapterTimeLeft
      ensures !(tickerRunning && sessionEnd.Some?) ==> !fire && store.chapterTimeLeft == old(store.chapterTimeLeft)
      ensures tickerRunning && sessionEnd.Some? ==>
        store.chapterTimeLeft == SyncedRemaining(sessionEnd.value, nowMs) && (fire <==> store.chapterTimeLeft == 0)
    {
      fire := false;
      if tickerRunning && sessionEnd.Some? {
        var t := SyncedRemaining(sessionEnd.value, nowMs);
        store.SetChapterTimeLeft(t);
        fire := t <= 0;
      }
    }

    /** Next: ignored without a ledger entry for the current position (the
        button is disabled then); otherwise the position is marked visited
        and the page moves forward, or on the last position calls the final
        submission. The position stays on the question list. */
    method HandleNext() returns (step: Step)
      requires Active()
      modifies this`visited, store`currentChapterIndex, store`isChapterSubmitting
      ensures Active()
      ensures old(store.currentChapterIndex) !in store.selectedChapterAnswers ==>
        step == Ignored && visited == old(visited) && store.isChapterSubmitting == old(store.isChapterSubmitting)
      ensures old(store.currentChapterIndex) in store.selectedChapterAnswers ==>
        visited == old(visited) + {old(store.currentChapterIndex)} && !store.isChapterSubmitting
      ensures step == Advanced <==>
        old(store.currentChapterIndex) in store.selectedChapterAnswers &&
        old(store.currentChapterIndex) < |store.chapterQuestions| - 1
      ensures step == SubmitCalled <==>
        old(store.currentChapterIndex) in store.selectedChapterAnswers &&
        old(store.currentChapterIndex) == |store.chapterQuestions| - 1
      ensures step == Advanced ==> store.currentChapterIndex == old(store.currentChapterIndex) + 1
      ensures step != Advanced ==> store.currentChapterIndex == old(store.currentChapterIndex)
      ensures old(NextEnabled()) ==> step == Advanced
    {
      var index := store.currentChapterIndex;
      if index !in store.selectedChapterAnswers {
        return Ignored;
      }
      store.SetIsChapterSubmitting(true);
      visited := visited + {index};
      if index < |store.chapterQuestions| - 1 {
        store.IncrementChapterIndex();
        step := Advanced;
      } else {
        step := SubmitCalled;
      }
      store.SetIsChapterSubmitting(false);
    }

    /** Skip: writes 0 at the current position whether or not it held a
        selection, then moves forward or, on the last position, calls the
        final submission. */
    method HandleSkip() returns (step: Step)
      requires Active()
      modifies this`visited, store`currentChapterIndex, store`selectedChapterAnswers
      ensures Active()
      ensures store.selectedChapterAnswers == old(store.selectedChapterAnswers)[old(store.currentChapterIndex) := SkipValue]
      ensures visited == old(visited) + {old(store.currentChapterIndex)}
      ensures step == Advanced <==> old(store.currentChapterIndex) < |store.chapterQuestions| - 1
      ensures step == SubmitCalled <==> old(store.currentChapterIndex) == |store.chapterQuestions| - 1
      ensures step == Advanced ==> store.currentChapterIndex == old(store.currentChapterIndex) + 1
      ensures step != Advanced ==> store.currentChapterIndex == old(store.currentChapterIndex)
    {
      var index := store.currentChapterIndex;
      store.SetSelectedChapterAnswer(index, SkipValue);
      visited := visited + {index};
      if index < |store.chapterQuestions| - 1 {
        store.IncrementChapterIndex();
        step := Advanced;
      } else {
        step := SubmitCalled;
      }
    }

    /** Previous: one step back when above 0 and not submitting. */
    method HandlePrevious()
      requires Active()
      modifies store`currentChapterIndex
      ensures Active()
      ensures old(store.currentChapterIndex) > 0 && !store.isChapterSubmitting ==>
        store.currentChapterIndex == old(store.currentChapterIndex) - 1
      ensures !(old(store.currentChapterIndex) > 0 && !store.isChapterSubmitting) ==>
        store.currentChapterIndex == old(store.currentChapterIndex)
    {
      if store.currentChapterIndex > 0 && !store.isChapterSubmitting {
        store.DecrementChapterIndex();
      }
    }

    /** Option selection: ignored before the quiz has started or while
        submitting; otherwise it overwrites the current position's entry. */
    method HandleAnswerSelection(value: int)
      requires Active()
      modifies store`selectedChapterAnswers
      ensures Active()
      ensures !isQuizStarted || store.isChapterSubmitting ==>
        store.selectedChapterAnswers == old(store.selectedChapterAnswers)
      ensures isQuizStarted && !store.isChapterSubmitting ==>
        store.selectedChapterAnswers == old(store.selectedChapterAnswers)[store.currentChapterIndex := value]
    {
      if !isQuizStarted || store.isChapterSubmitting {
        return;
      }
      store.SetSelectedChapterAnswer(store.currentChapterIndex, value);
    }

    /** A click on navigation button `index` (one per question). */
    method HandleNavClick(index: int)
      requires Active() && 0 <= index < |store.chapterQuestions|
      modifies store`currentChapterIndex
      ensures Active() && store.currentChapterIndex == index
    {
      store.SetCurrentChapterIndex(index);
    }

    /** The Next button is shown (below the last position) and enabled. */
    predicate NextEnabled()
      reads this, store
    {
      && store.currentChapterIndex < |store.chapterQuestions| - 1
      && !store.isChapterSubmitting && store.currentChapterIndex in store.selectedChapterAnswers
    }

    /** The Submit button is shown (on the last position) and enabled. */
    predicate SubmitEnabled()
      reads this, store
    {
      && store.currentChapterIndex == |store.chapterQuestions| - 1
      && !store.isChapterSubmitting && AllQuestionsProcessed(store.selectedChapterAnswers, |store.chapterQuestions|)
    }

    /** A click on an enabled Submit button sweeps what the learner chose:
        every position has an entry and the sweep sends that entry. */
    lemma SubmitEnabledSweepsLedger()
      requires SubmitEnabled()
      ensures forall i :: 0 <= i < |View().questions| ==>
        i in View().answers && SweepAnswer(View().answers, i) == View().answers[i]
    {
      ProcessedSweepSendsLedger(store.selectedChapterAnswers, |store.chapterQuestions|);
    }

    /** `handleSubmit`: after a redirect it does nothing; otherwise it marks
        the store as submitting, sweeps the answers and requests the score,
        and clears the submitting flag whatever happened. Every answer POST
        is taken to succeed. */
    method HandleSubmit(view: ChapterView, hasToken: bool, chapterId: Option<int>, scoreStatus: int)
      returns (out: SubmitOutcome)
      modifies store`isChapterSubmitting, store`error
      ensures out == NotSubmitted <==> view.hasRedirected
      ensures view.hasRedirected ==>
        store.isChapterSubmitting == old(store.isChapterSubmitting) && store.error == old(store.error)
      ensures !view.hasRedirected ==> !store.isChapterSubmitting
      ensures out.SubmitAborted? <==> !view.hasRedirected && Truthy(view.facultyId) && hasToken && chapterId.None?
      ensures out.SubmitAborted? ==> out.sweep == SweepNoChapter && store.error == Str("No chapter ID found")
      ensures out.Submitted? ==> (out.sweep == SweepSkipped <==> !Truthy(view.facultyId) || !hasToken)
      ensures out.Submitted? ==> (out.sweep.Swept? <==> Truthy(view.facultyId) && hasToken)
      ensures out.Submitted? && out.sweep.Swept? ==>
        && chapterId.Some?
        && |out.sweep.posts| == |view.questions|
        && forall i :: 0 <= i < |out.sweep.posts| ==>
             out.sweep.posts[i] == ChapterAnswerPost(chapterId.value, view.questions[i].id, SweepAnswer(view.answers, i))
      ensures out.Submitted? ==> (out.score == ScoreStored <==> 200 <= scoreStatus <= 299)
      ensures out.Submitted? ==> (out.score == ScoreUnauthorized <==> scoreStatus == 403)
      ensures out.Submitted? ==> (out.score == ScoreNotFound <==> scoreStatus == 404)
      ensures out.Submitted? && out.score == ScoreStored ==> store.error == old(store.error)
      ensures out.Submitted? && out.score != ScoreStored ==>
        ScoreMessage(out.score).Some? && store.error == Str(ScoreMessage(out.score).value)
    {
      if view.hasRedirected {
        return NotSubmitted;
      }
      store.SetIsChapterSubmitting(true);
      var sweep := SubmitAllAnswers(view, hasToken, chapterId);
      if sweep == SweepNoChapter {
        store.SetError(Str("No chapter ID found"));
        out := SubmitAborted(sweep);
      } else if 200 <= scoreStatus <= 299 {
        out := Submitted(sweep, ScoreStored);
      } else {
        var score := if scoreStatus == 403 then ScoreUnauthorized
                     else if scoreStatus == 404 then ScoreNotFound
                     else ScoreFailed;
        store.SetError(Str(ScoreMessage(score).value));
        out := Submitted(sweep, score);
      }
      store.SetIsChapterSubmitting(false);
    }
  }

  /** The interval is never cleared: once the end time has passed, every
      later tick fires again and so calls the final submission again. */
  method TicksAfterEndKeepFiring(page: ChapterQuizPage, firstMs: int, laterMs: int) returns (first: bool, later: bool)
    requires page.tickerRunning && page.sessionEnd.Some?
    requires page.sessionEnd.value <= firstMs <= laterMs
    modifies page.store`chapterTimeLeft
    ensures first && later && page.store.chapterTimeLeft == 0
  {
    first := page.SyncedTick(firstMs);
    later := page.SyncedTick(laterMs);
  }

  /** The clock's submission goes through the closure captured when the
      interval was installed; if no answer had been selected by then, every
      position is posted as a skip, whatever the ledger holds now. */
  method StaleClockSubmit(page: ChapterQuizPage, hasToken: bool, chapterId: Option<int>, scoreStatus: int)
    returns (out: SubmitOutcome)
    requires page.tickerView.answers == map[]
    modifies page.store`isChapterSubmitting, page.store`error
    ensures out.Submitted? && out.sweep.Swept? ==>
      |out.sweep.posts| == |page.tickerView.questions| &&
      forall i :: 0 <= i < |out.sweep.posts| ==> out.sweep.posts[i].answerIndex == SkipValue
  {
    out := page.HandleSubmit(page.tickerView, hasToken, chapterId, scoreStatus);
    if out.Submitted? && out.sweep.Swept? {
      StaleSweepPostsSkips(page.tickerView, chapterId.value, out.sweep.posts);
    }
  }
}
