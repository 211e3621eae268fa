# Quiz session bookkeeping — a Dafny model

This project models the client side of a quiz web application: how a quiz
session is kept and moved through in the browser. It covers:

- the two store slices (practice and chapter-wise) that hold the question
  list, the current position and the answer ledger;
- the four quiz pages (chapter-wise, practice, the older quiz page kept under
  `public/`, and the mock exam), with their Next / Skip / Previous / Submit
  guards, the answer value each one sends and each one's clock;
- the chapter result page, which classifies each question and marks each
  option;
- the three dashboards, which choose a difficulty level and flatten the
  nested question payload into the flat list a quiz page works on;
- the two login forms: field validation and the routing by role after login.

Several hand-copied variants implement the same session with small
differences. The model keeps each variant as written and states the
differences as lemmas. For example, the older page sends a skip as option 1,
and the mock exam stores the first option as 0, the skip value.

## How the model is built

- `common.dfy` holds `Option`, JavaScript values with their truthiness
  (`Truthy`, `||` as `Or` and `FirstTruthy`), HTTP responses (`Ok` is a 2xx
  status), the decoded token claims and their expiry test.
- `payload.dfy` holds the nested payload types, the flat `Question` record,
  and `flatMap`/`map` whose callback may throw (`None` is the thrown
  `TypeError`), with index lemmas that locate every element of a flattened
  list.
- `session.dfy` holds what the quiz pages share: the ledger (`map<int,int>`,
  where 0 means skipped), the navigation badge, the answer POST body and the
  local one-second countdown.
- Each store slice is a class whose reducers are methods. Each reducer may
  change only its own field (`modifies this\`field`).
- Each quiz page is a class. The chapter, practice and public pages hold
  their store; the mock session keeps its position, ledger and list as its
  own fields. Handlers are methods whose `modifies` clauses name exactly the
  fields they write. On the chapter and practice pages, and in the mock
  session's local state, `Active()` is the invariant that the position names
  a question and that every ledger key belongs to a question, and every
  navigation handler keeps it. The public page carries no such invariant:
  it navigates over its `questions` prop with reducers bounded by a store
  list it never fills (`PublicQuiz.Walk`).
- The network is made of inputs and outputs. A response is an input value
  (status and decoded body). An answer POST is an output record. Storage is
  an input (the stored token) or an outcome flag ("token removed"). The
  result page keeps storage as a `map<string,string>` field.
- A timer tick is an explicit step. The wall clock is an integer input in
  milliseconds.
- An interval keeps the closure of the render that installed it. Where that
  changes behaviour, the model passes the captured values explicitly.
  - `MockQuiz.MockQuizSession.TimeoutSubmit` sees the first render's empty
    ledger, so it never submits.
  - `PublicQuiz.PublicQuizPage.TimeoutSubmit` uses the position and ledger at
    mount.
  - The chapter page's clock calls the submission with the `tickerView`
    recorded by `StartTicker`. If no answer had been selected by then, every
    position is posted as a skip (`ChapterQuiz.StaleClockSubmit`).

Where the code departs from what its names and comments evidently intend,
the model follows the code.

- `src/components/Quiz.jsx:29` reads an `error` field from the practice
  slice, whose flag is named `isError`. The page's error view therefore never
  shows. The model keeps the slice's `isError` flag as written.
- The practice page's clock subtracts one from the value captured when its
  interval was installed. The interval exists only while that value is
  positive, so the branch that would submit never runs
  (`PracticeQuiz.PracticeClockNeverSubmits`).
- The chapter page's synchronised clock is never cleared when it reaches 0.
  Every later tick calls the submission again
  (`ChapterQuiz.TicksAfterEndKeepFiring`).
- The older quiz page moves through its `questions` prop with the practice
  slice's clamped reducers. Those reducers bound the position by the store's
  own list, which that page never fills (`PublicQuiz.WalkOnEmptyStore`).
- Both level-table dashboards use `Object.keys(...).find(...)`. A level whose
  key is the empty string is falsy there, so a match on such a key counts as
  "no level found".

## Model

| member | source | states |
|---|---|---|
| Common.Or | src/components/AuthForm.jsx:87 | `a \|\| b` yields `a` when it is truthy and `b` otherwise; the result is truthy iff either operand is |
| Common.FirstTruthy | src/components/AuthForm.jsx:82 | the role expression yields the first truthy of three claims, else the last one; truthy iff any of them is |
| Payload.ConcatIndex | src/components/ChapterQuiz.jsx:106-114 | element `j` of part `i` sits at the sum of the earlier parts' lengths plus `j` in the concatenation |
| Payload.ConcatEmpty | src/components/ChapterQuiz.jsx:106-118 | a concatenation is empty iff every part is empty |
| Payload.Map | src/components/Dashboard.jsx:79-82 | `map` keeps the length and applies the callback at every position |
| Payload.MapOpt | src/components/StudentDashboard.jsx:77-82 | a `map` whose callback may throw succeeds iff the callback succeeds on every element, and then gives those results in order |
| Payload.FlatMapOpt | src/components/Dashboard.jsx:151-158 | a `flatMap` whose callback may throw succeeds iff the callback succeeds on every element, and then gives the concatenation of the parts in order |
| Payload.FlatMapOptIndex | src/components/Dashboard.jsx:151-158 | element `j` of the part for element `i` keeps its place after everything produced for the earlier elements |
| Payload.FlatMapOptConcatIndex | src/components/Quiz.jsx:71-80 | with two levels of flattening, element `k` of inner part `c` of outer element `i` follows everything from the earlier outer elements and, inside its own part, everything from the earlier inner parts |
| Payload.LenientRecord | src/components/Dashboard.jsx:152-157 | a record copies id, text and correct answer; an absent options object becomes the empty list |
| Payload.StrictRecord | src/components/StudentDashboard.jsx:77-82 | `Object.values(q.options)` throws exactly when options are absent, and otherwise gives the lenient record |
| Payload.ChapterStrictRecords | src/components/mock.jsx:135-141 | one chapter's records, `None` when `subchapters` is absent or a question lacks options |
| Payload.LevelRecords | src/components/mock.jsx:134-142 | the strict flattening of one level's chapter list |
| Payload.LevelRecordsOrder | src/components/mock.jsx:134-142 | a flattened level keeps chapter order and then question order, and every question in it had its options |
| Payload.LevelRecordsDefined | src/components/StudentDashboard.jsx:76-83 | flattening a level succeeds iff every chapter has its `subchapters` array and every question its options |
| Session.NavStatus | src/components/Quiz.jsx:197-198 | a nav button is "skipped" iff its entry is 0, "attempted" iff present and non-zero, and neither iff absent, so exactly one applies |
| Session.OverwriteKeepsLast | src/components/redux/quizSlice.jsx:24-27 | writing one position twice keeps the last value, and every other entry is untouched |
| Session.LocalCountdownStep | public/Quiz.jsx:49-57 | a tick from `prev <= 1` sets 0 and submits; otherwise it sets `prev - 1` and does not submit |
| Session.Countdown | src/components/mockquiz.jsx:40-52 | the local countdown after `k` ticks, stopping once it fires |
| Session.CountdownFiresOnce | src/components/mockquiz.jsx:40-52 | from `t` seconds the clock runs `t-1` silent ticks, submits on tick `t`, and never submits again |
| QuizSlice.Incremented | src/components/redux/quizSlice.jsx:28-32 | the index grows by one iff it is below the last position, and stays in range |
| QuizSlice.Decremented | src/components/redux/quizSlice.jsx:33-37 | the index drops by one iff it is above 0, and never goes negative |
| QuizSlice.Jumped | src/components/redux/quizSlice.jsx:38-42 | the payload is taken iff it names a position of the list; otherwise the index is unchanged |
| QuizSlice.QuizStore.constructor | src/components/redux/quizSlice.jsx:4-12 | initial state: no questions, index 0, empty ledger, faculty null, 3600 s, both flags false |
| QuizSlice.QuizStore.SetQuestions | src/components/redux/quizSlice.jsx:18-20 | replaces the list and writes no other field (no clamping of the index or ledger) |
| QuizSlice.QuizStore.SetFacultyId | src/components/redux/quizSlice.jsx:21-23 | assigns the faculty id and nothing else |
| QuizSlice.QuizStore.SetSelectedAnswer | src/components/redux/quizSlice.jsx:24-27 | overwrites one ledger entry; every other key and value is unchanged |
| QuizSlice.QuizStore.IncrementIndex | src/components/redux/quizSlice.jsx:28-32 | the index becomes `Incremented`, and an in-range index stays in range |
| QuizSlice.QuizStore.DecrementIndex | src/components/redux/quizSlice.jsx:33-37 | the index becomes `Decremented`, and an in-range index stays in range |
| QuizSlice.QuizStore.SetCurrentIndex | src/components/redux/quizSlice.jsx:38-42 | the index becomes `Jumped`, and an in-range index stays in range |
| QuizSlice.QuizStore.SetIsSubmitting | src/components/redux/quizSlice.jsx:43-45 | assigns the submitting flag and nothing else |
| QuizSlice.QuizStore.SetTimeLeft | src/components/redux/quizSlice.jsx:46-48 | assigns the time left and nothing else |
| QuizSlice.QuizStore.SetError | src/components/redux/quizSlice.jsx:49-51 | assigns `isError` and nothing else |
| ChapterQuizSlice.ChapterQuizStore.constructor | src/components/redux/chapterQuizSlice.js:5-13 | initial state: no questions, index 0, empty ledger, faculty null, 1800 s, not submitting, error false |
| ChapterQuizSlice.ChapterQuizStore.SetChapterQuestions | src/components/redux/chapterQuizSlice.js:15-17 | replaces the list and nothing else |
| ChapterQuizSlice.ChapterQuizStore.SetFacultyId | src/components/redux/chapterQuizSlice.js:18-20 | assigns the faculty id and nothing else |
| ChapterQuizSlice.ChapterQuizStore.SetSelectedChapterAnswer | src/components/redux/chapterQuizSlice.js:21-24 | overwrites exactly one ledger key; the other keys and values are unchanged |
| ChapterQuizSlice.ChapterQuizStore.SetCurrentChapterIndex | src/components/redux/chapterQuizSlice.js:25-27 | stores any payload, with no range check |
| ChapterQuizSlice.ChapterQuizStore.IncrementChapterIndex | src/components/redux/chapterQuizSlice.js:28-30 | adds one with no upper bound |
| ChapterQuizSlice.ChapterQuizStore.DecrementChapterIndex | src/components/redux/chapterQuizSlice.js:31-33 | subtracts one with no lower bound (0 goes to -1) |
| ChapterQuizSlice.ChapterQuizStore.SetIsChapterSubmitting | src/components/redux/chapterQuizSlice.js:34-36 | assigns the submitting flag and nothing else |
| ChapterQuizSlice.ChapterQuizStore.SetChapterTimeLeft | src/components/redux/chapterQuizSlice.js:37-39 | assigns the time left and nothing else |
| ChapterQuizSlice.ChapterQuizStore.SetError | src/components/redux/chapterQuizSlice.js:40-42 | assigns the error value and nothing else |
| ChapterQuizSlice.IncrementThenDecrement | src/components/redux/chapterQuizSlice.js:28-33 | an increment then a decrement restores the index and leaves the list and ledger as they were |
| ChapterQuiz.FlattenChapter | src/components/ChapterQuiz.jsx:106-114 | the subchapter flattening is defined exactly when every subchapter has its `questions` array |
| ChapterQuiz.FlattenChapterParts | src/components/ChapterQuiz.jsx:106-114 | when the flattening succeeds, every subchapter has its question list and its part is that list turned record by record |
| ChapterQuiz.FlattenChapterOrder | src/components/ChapterQuiz.jsx:106-114 | flattening fails unless every subchapter has questions; question `j` of subchapter `i` follows all earlier subchapters and keeps its level |
| ChapterQuiz.FlattenChapterEmpty | src/components/ChapterQuiz.jsx:106-118 | the flattened list is empty iff every subchapter's question list is empty |
| ChapterQuiz.SyncedRemaining | src/components/ChapterQuiz.jsx:157-158 | `max(0, floor((end-now)/1000))`: 0 once the end has passed, otherwise the whole seconds left |
| ChapterQuiz.SyncedRemainingMonotone | src/components/ChapterQuiz.jsx:154-166 | the synchronised clock never goes up as time passes, and once it is 0 it stays 0 |
| ChapterQuiz.SweepAnswer | src/components/ChapterQuiz.jsx:182 | a position's ledger entry when present, else the skip value 0 |
| ChapterQuiz.SubmitAllAnswers | src/components/ChapterQuiz.jsx:169-214 | no posts without faculty id or token or after a redirect; throws without a chapter; otherwise one post per position 0..n-1, in order, with the entry or 0 |
| ChapterQuiz.StaleSweepPostsSkips | src/components/ChapterQuiz.jsx:154-166 | a sweep through a closure that saw an empty ledger posts a skip for every question |
| ChapterQuiz.ProcessedSweepSendsLedger | src/components/ChapterQuiz.jsx:312-314 | when every position has an entry (the Submit condition), the sweep sends exactly the ledger |
| ChapterQuiz.ChapterQuizPage.constructor | src/components/ChapterQuiz.jsx:32-37 | the page starts not started, not redirected, nothing visited, no end time and no ticker |
| ChapterQuiz.ChapterQuizPage.ValidateToken | src/components/ChapterQuiz.jsx:41-71 | no token, an undecodable token, a missing faculty claim, then expiry each redirect with their message; only expiry removes the token; otherwise the faculty id is stored without a redirect; a skipped check leaves the error and the redirect flag as they were |
| ChapterQuiz.ChapterQuizPage.LoadQuestions | src/components/ChapterQuiz.jsx:74-141 | skipped exactly when there is no faculty id, questions are already loaded or a redirect happened; otherwise no chapter id, a 403 (which alone removes the token), a 404 or another non-2xx status, a payload without subchapters, one that fails to flatten or lacks its session end, and an empty flattened list each fail with their own error and redirect; success stores the flattened list and the synchronised time left; every other outcome leaves the session end and the time left as they were, a skip also the list, the error and the redirect flag |
| ChapterQuiz.ChapterQuizPage.BeginAnswering | src/components/ChapterQuiz.jsx:144-151 | the pre-start countdown ends with the quiz marked started |
| ChapterQuiz.ChapterQuizPage.StartTicker | src/components/ChapterQuiz.jsx:154-166 | the ticker runs iff the quiz has started, the end time is known and time is left; it keeps the view of that render |
| ChapterQuiz.ChapterQuizPage.SyncedTick | src/components/ChapterQuiz.jsx:156-162 | a running ticker sets the time left to the synchronised value and submits iff it is 0 |
| ChapterQuiz.ChapterQuizPage.HandleNext | src/components/ChapterQuiz.jsx:217-229 | ignored without an entry; otherwise marks the position visited and advances iff below the last position, else calls the submission; a click on the enabled Next button always advances; the position stays in range |
| ChapterQuiz.ChapterQuizPage.HandleSkip | src/components/ChapterQuiz.jsx:231-241 | writes 0 at the position whatever it held, marks it visited, and advances iff below the last position, else calls the submission |
| ChapterQuiz.ChapterQuizPage.HandlePrevious | src/components/ChapterQuiz.jsx:243-247 | steps back iff above 0 and not submitting |
| ChapterQuiz.ChapterQuizPage.HandleAnswerSelection | src/components/ChapterQuiz.jsx:249-252 | ignored before the start or while submitting; otherwise overwrites the current entry |
| ChapterQuiz.ChapterQuizPage.HandleNavClick | src/components/ChapterQuiz.jsx:303 | a nav button moves to its own position |
| ChapterQuiz.ChapterQuizPage.HandleSubmit | src/components/ChapterQuiz.jsx:254-291 | does nothing exactly after a redirect; otherwise aborts with "No chapter ID found" iff the sweep found no chapter; the sweep is skipped iff the faculty id or token is missing and otherwise posts every position in order with its entry or 0; the score is stored iff 2xx, and a 403, a 404 or another failure stores its own message; the submitting flag is always cleared |
| ChapterQuiz.ChapterQuizPage.NextEnabled | src/components/ChapterQuiz.jsx:385-392 | the Next button is rendered below the last position and enabled when not submitting and the position has an entry |
| ChapterQuiz.ChapterQuizPage.SubmitEnabled | src/components/ChapterQuiz.jsx:394-397 | the Submit button is rendered on the last position and enabled when not submitting and every position has an entry |
| ChapterQuiz.LoadMessage | src/components/ChapterQuiz.jsx:81-117 | the message stored for each load error |
| ChapterQuiz.ScoreMessage | src/components/ChapterQuiz.jsx:270-285 | the message stored for each failed score request, none for a stored score |
| ChapterQuiz.ChapterQuizPage.SubmitEnabledSweepsLedger | src/components/ChapterQuiz.jsx:312-314 | when the Submit button is enabled every position has an entry and the sweep sends exactly that entry |
| ChapterQuiz.StaleClockSubmit | src/components/ChapterQuiz.jsx:154-166 | the clock's submission, through a closure that saw no answers, posts a skip for every question |
| ChapterQuiz.TicksAfterEndKeepFiring | src/components/ChapterQuiz.jsx:154-166 | once the end time has passed, two later ticks both call the submission |
| PracticeQuiz.PracticeRecords | src/components/Quiz.jsx:71-80 | the practice flattening of the whole level table, `None` when it throws |
| PracticeQuiz.PracticeRecordsDefined | src/components/Quiz.jsx:71-80 | flattening the level table throws iff some level's value is null |
| PracticeQuiz.PracticeRecordsParts | src/components/Quiz.jsx:72-79 | a level's records are its chapters' records end to end, and question `k` of chapter `c` is that chapter's `k`-th record with its options defaulted |
| PracticeQuiz.PracticeRecordsOrder | src/components/Quiz.jsx:71-80 | levels in table order, then chapters, then each chapter's questions, one record per element |
| PracticeQuiz.CapturedTick | src/components/Quiz.jsx:112-117 | a tick sets the captured value minus one and submits only if that value is not positive |
| PracticeQuiz.PracticeClock | src/components/Quiz.jsx:109-121 | the clock after `k` seconds: one captured tick per installed interval while time is left |
| PracticeQuiz.PracticeClockNeverSubmits | src/components/Quiz.jsx:109-121 | from `t` seconds the clock counts down to 0, stops there, and never calls the submission |
| PracticeQuiz.PracticeQuizPage.constructor | src/components/Quiz.jsx:32-34 | the page starts with the quiz not started |
| PracticeQuiz.PracticeQuizPage.Initialize | src/components/Quiz.jsx:38-91 | a token without a faculty claim raises the error flag; questions already held are kept; otherwise the fetched table is flattened and the time left set to 1800, and any failure raises the flag; only a fetch sets the time left |
| PracticeQuiz.PracticeQuizPage.BeginAnswering | src/components/Quiz.jsx:95-106 | the pre-start countdown ends with the quiz marked started |
| PracticeQuiz.PracticeQuizPage.Tick | src/components/Quiz.jsx:109-121 | a started quiz with time left loses one second; the tick never submits |
| PracticeQuiz.PracticeQuizPage.SubmitAnswer | src/components/Quiz.jsx:124-145 | no post without faculty id or token; otherwise the question's id with the answer as given; a failed post raises the error flag |
| PracticeQuiz.PracticeQuizPage.HandleNext | src/components/Quiz.jsx:148-156 | ignored without an entry; otherwise sends the entry and takes the clamped increment; the error flag is raised exactly by a sent answer whose POST status is not 2xx |
| PracticeQuiz.PracticeQuizPage.HandleSkip | src/components/Quiz.jsx:158-162 | writes 0, sends 0 and takes the clamped increment, so the position never passes the last question; the error flag is raised exactly by a sent answer whose POST status is not 2xx |
| PracticeQuiz.PracticeQuizPage.HandlePrevious | src/components/Quiz.jsx:164-168 | steps back iff above 0 and not submitting |
| PracticeQuiz.PracticeQuizPage.HandleAnswerSelection | src/components/Quiz.jsx:170-173 | ignored before the start; otherwise overwrites the current entry |
| PracticeQuiz.PracticeQuizPage.HandleNavClick | src/components/Quiz.jsx:205 | a nav button moves to its own position |
| PracticeQuiz.PracticeQuizPage.HandleSubmit | src/components/Quiz.jsx:175-192 | nothing without an entry at the position; a failed score request raises the error flag |
| PublicQuiz.AdjustedAnswer | public/Quiz.jsx:84 | 0 is sent as 1; every other value as it is |
| PublicQuiz.SkipSentAsFirstOption | public/Quiz.jsx:84 | on the wire, a skip equals choosing option 1 |
| PublicQuiz.Walk | public/Quiz.jsx:197-213 | the position after `jumpToQuestion`'s clamped steps towards the target |
| PublicQuiz.WalkLands | public/Quiz.jsx:197-213 | from a position on the list, the clamped walk ends at the target clamped to the list |
| PublicQuiz.WalkOnEmptyStore | public/Quiz.jsx:197-213 | with the store's list empty, no jump moves the position from 0 |
| PublicQuiz.PublicQuizPage.constructor | public/Quiz.jsx:20 | the clock starts at 3600 with the interval running; the mount closure keeps the first position and ledger |
| PublicQuiz.PublicQuizPage.ValidateToken | public/Quiz.jsx:25-45 | a faculty claim sets the id locally and in the store; anything else marks the quiz as failed |
| PublicQuiz.PublicQuizPage.Tick | public/Quiz.jsx:48-61 | the local countdown step, with the interval cleared on the tick that submits |
| PublicQuiz.PublicQuizPage.SubmitAnswer | public/Quiz.jsx:64-115 | a post is made iff faculty id, token and a truthy question id exist; the answer sent is never 0 and equals the answer otherwise |
| PublicQuiz.PublicQuizPage.HandleNext | public/Quiz.jsx:118-133 | ignored without an entry; otherwise sends the entry and increments only below the prop's last position; an ignored click leaves both submitting flags as they were |
| PublicQuiz.PublicQuizPage.HandleSkip | public/Quiz.jsx:135-150 | writes 0, sends option 1, and increments only below the prop's last position |
| PublicQuiz.PublicQuizPage.HandlePrevious | public/Quiz.jsx:152-156 | steps back iff above 0 and not submitting |
| PublicQuiz.PublicQuizPage.HandleAnswerSelection | public/Quiz.jsx:158-161 | option `p` is stored as `p+1`, and then exactly option `p` is shown as selected |
| PublicQuiz.PublicQuizPage.JumpToQuestion | public/Quiz.jsx:197-213 | nothing while submitting; otherwise the loop of clamped steps ends where `Walk` does |
| PublicQuiz.PublicQuizPage.HandleSubmit | public/Quiz.jsx:164-195 | nothing without an entry, stops without a token, stores the score iff 2xx, and otherwise marks the quiz as failed |
| PublicQuiz.PublicQuizPage.TimeoutSubmit | public/Quiz.jsx:48-61 | the timeout submission behaves as the submission over the mount's position and ledger: nothing without an entry there, no request without a token, the score stored iff 2xx, and a failure marks the quiz as failed |
| MockQuiz.FirstOptionCollidesWithSkip | src/components/mockquiz.jsx:115-140 | choosing the first option writes the skip value, and reads back as skipped |
| MockQuiz.MockQuizSession.constructor | src/components/mockquiz.jsx:7-11 | position 0, empty ledger, 3600 s, not submitting |
| MockQuiz.MockQuizSession.ValidateToken | src/components/mockquiz.jsx:18-37 | a faculty claim sets the id; anything else marks the quiz as failed |
| MockQuiz.MockQuizSession.Tick | src/components/mockquiz.jsx:40-52 | the local countdown step, with the interval cleared on the tick that submits |
| MockQuiz.MockQuizSession.SubmitAnswer | src/components/mockquiz.jsx:55-96 | a post is made iff faculty id, token and a truthy question id exist, and carries the answer unadjusted |
| MockQuiz.MockQuizSession.HandleNext | src/components/mockquiz.jsx:99-112 | ignored without an entry; otherwise sends it and advances iff below the last position; the position stays in range; an ignored click sends nothing and leaves the position and the submitting flag |
| MockQuiz.MockQuizSession.HandleSkip | src/components/mockquiz.jsx:115-128 | writes 0, sends 0, and advances iff below the last position |
| MockQuiz.MockQuizSession.HandlePrevious | src/components/mockquiz.jsx:131-135 | steps back iff above 0 and not submitting |
| MockQuiz.MockQuizSession.HandleAnswerSelection | src/components/mockquiz.jsx:138-140 | stores the 0-based key; exactly that option shows selected; the entry reads as skipped iff the key is 0 |
| MockQuiz.MockQuizSession.HandleSubmit | src/components/mockquiz.jsx:143-174 | nothing without an entry, stops without a token, stores the score iff 2xx, and otherwise marks the quiz as failed |
| MockQuiz.MockQuizSession.TimeoutSubmit | src/components/mockquiz.jsx:40-52 | the timer's submission sees the first render's empty ledger and never requests the score |
| ChapterScore.StatusOf | src/components/ChapterScore.jsx:87-96 | skipped when the answer is "Not Attempted", null or undefined; otherwise correct or incorrect exactly per the verdict, any other verdict skipped |
| ChapterScore.BadgeClass | src/components/ChapterScore.jsx:105-111 | the status badge's class for each status |
| ChapterScore.StatusTotal | src/components/ChapterScore.jsx:105-111 | each of the three badge classes is shown exactly for its own status |
| ChapterScore.MarkOption | src/components/ChapterScore.jsx:119-135 | check iff the key is the correct answer; cross iff it is the user's answer and not correct; class "correct" over "incorrect" |
| ChapterScore.MarksAreExclusive | src/components/ChapterScore.jsx:120-135 | at most one option is checked, at most one crossed, never the same one |
| ChapterScore.ChapterScorePage.constructor | src/components/ChapterScore.jsx:10-11 | the page starts loading with no score data |
| ChapterScore.ChapterScorePage.LoadScoreData | src/components/ChapterScore.jsx:14-45 | a missing token, then missing score data, go back before parsing; unparsable or question-less data is "Invalid score data"; otherwise the parsed questions are shown and the error is left as it was |
| ChapterScore.ChapterScorePage.HandleReturn | src/components/ChapterScore.jsx:48-52 | removes the stored score and no other stored item |
| MockDashboard.InitGate | src/components/mock.jsx:33-57 | redirect without a decodable unexpired token, removing it unless absent; otherwise the user name (default "User") and faculty claim |
| MockDashboard.FindNonEmptyLevel | src/components/mock.jsx:129-131 | the first level with a non-empty list; every level before it is empty; a throw happens exactly at a null level met before any non-empty one |
| MockDashboard.FindNonEmptyCrashes | src/components/mock.jsx:129-131 | a null level reached after only empty levels makes the search throw |
| MockDashboard.StartQuiz | src/components/mock.jsx:98-154 | ignored exactly while loading; a missing faculty id, a 403, another non-2xx status, an absent or key-less `questions` object, no non-empty level (or a matching key that is the empty string), and a thrown `TypeError` each give their own outcome, exactly under their own condition; otherwise the chosen level's records |
| MockDashboard.StartMessage | src/components/mock.jsx:100-149 | the fixed message shown for each failed start, none where the runtime builds it |
| MockDashboard.StartMessages | src/components/mock.jsx:100-152 | each fixed error message is shown exactly under its condition; HTTP failures and thrown errors carry a runtime-built message instead |
| MockDashboard.StartedKeepsLevelOrder | src/components/mock.jsx:134-142 | only the chosen level is flattened, in chapter order then question order |
| StudentDashboard.FindTruthyLevel | src/components/StudentDashboard.jsx:68 | the first level whose value is truthy, an empty list included; every level before it is null |
| StudentDashboard.StartQuiz | src/components/StudentDashboard.jsx:29-98 | no request without faculty id or token; a failed request, no questions or no level fail; otherwise the chosen level's records |
| StudentDashboard.TruthyLevelNoLater | src/components/StudentDashboard.jsx:68 | where the mock rule finds a level, this rule finds one at the start position, no later |
| StudentDashboard.EmptyFirstLevelDiverges | src/components/StudentDashboard.jsx:68 | an empty first level starts a quiz with no questions here, while the mock rule moves past it |
| Dashboard.TargetOf | src/components/Dashboard.jsx:114-127 | practice, mock and chapter map to fixed endpoint/route pairs; chapter mode without a truthy id aborts |
| Dashboard.SubchapterRecords | src/components/Dashboard.jsx:151-158 | one subchapter's records, `None` when `questions` is absent |
| Dashboard.DashboardRecords | src/components/Dashboard.jsx:151-158 | the flattening of the `subchapters` array |
| Dashboard.DashboardRecordsOrder | src/components/Dashboard.jsx:151-158 | flattening keeps subchapter and question order with options defaulted |
| Dashboard.DashboardRecordsDefined | src/components/Dashboard.jsx:151-158 | flattening throws iff some subchapter lacks its question list |
| Dashboard.StartQuiz | src/components/Dashboard.jsx:96-168 | no request without faculty id, token or chapter; missing or empty subchapters fail; otherwise the flattened records go to the mode's route |
| Dashboard.LevelTableBodyNeverStarts | src/components/Dashboard.jsx:145-148 | a body without a `subchapters` array never starts a quiz |
| Dashboard.FetchChapters | src/components/Dashboard.jsx:43-92 | a non-array response is rejected; otherwise each entry becomes `{id, name}` in order |
| AuthForm.EmailTest | src/components/AuthForm.jsx:40 | the executable test of `\S+@\S+\.\S+` (its meaning is `AuthForm.EmailTestCorrect`) |
| AuthForm.MatchAtCorrect | src/components/AuthForm.jsx:40 | the matcher at one `@` position agrees with the pattern's meaning there |
| AuthForm.MatchFromCorrect | src/components/AuthForm.jsx:40 | scanning positions from `p` on finds a match iff one exists with its `@` at or after `p` |
| AuthForm.EmailTestCorrect | src/components/AuthForm.jsx:40 | the executable test of `\S+@\S+\.\S+` holds iff the string contains a match |
| AuthForm.ValidateForm | src/components/AuthForm.jsx:31-57 | valid iff every check passes; the first failing check in the fixed order gives the message |
| AuthForm.LoginIgnoresSignupFields | src/components/AuthForm.jsx:39-49 | in login mode the email and faculty id do not affect validation |
| AuthForm.HandleChange | src/components/AuthForm.jsx:25-29 | writes exactly one field and clears the displayed error |
| AuthForm.RoleOf | src/components/AuthForm.jsx:82 | the role claim: `role`, else `userRole`, else `user_role`, by truthiness |
| AuthForm.RouteAfterLogin | src/components/AuthForm.jsx:78-96 | no token is an error; role `=== 3` goes to admin; role `=== 1` goes to student iff a faculty claim exists, which is stored; anything else is an error |
| AuthForm.StringRoleRejected | src/components/AuthForm.jsx:84-96 | a role given as the string "1" is rejected |
| AuthForm.HandleSubmit | src/components/AuthForm.jsx:59-102 | an invalid form shows its message and no authentication is attempted; otherwise the token is routed after a successful authentication |
| PublicAuthForm.HandleChange | public/AuthForm.jsx:17-19 | writes exactly one field; the displayed error stays |
| PublicAuthForm.HandleSubmit | public/AuthForm.jsx:21-81 | no token is its own error; the faculty claim is required and stored before the role check; roles 1/"1"/"student" and 3/"3"/"admin" route; every other failure is "Failed to process authentication token" |
| PublicAuthForm.StringStudentRoleDiffers | public/AuthForm.jsx:63-65 | the string role "1" reaches the student dashboard here and is rejected by the newer form |
| PublicAuthForm.AdminWithoutFacultyDiffers | public/AuthForm.jsx:50-57 | an admin without a faculty claim is refused here and admitted by the newer form |
| PublicAuthForm.NewerAcceptsOlderAgrees | public/AuthForm.jsx:50-72 | with a faculty claim, every user the newer form admits reaches the same dashboard here |

## Left out

- Network calls are not performed. Responses are inputs (status and decoded
  body), and answer POSTs are output records. The chapter sweep takes every
  answer POST to succeed.
- The text the server or the runtime adds to a message (`errorText`,
  `statusText`, a `TypeError`'s message) is not modelled. The fixed prefix
  stands for it.
- Timer scheduling and delays are not modelled. A tick is an explicit step,
  and a `setTimeout` body runs at once. The 3-second pre-start countdown is
  one step (`BeginAnswering`).
- Parsing the session end time "HH:MM:SS" into a date is date-library work.
  The end time is an integer input in milliseconds.
- `localStorage`, `navigate` and the decoding done by `jwt-decode` are not
  modelled.
  - The stored token is an input: absent, undecodable, or its claims.
  - A removed token, a redirect and a stored faculty id are outcome values.
  - Only the result page keeps storage as a field, because `handleReturn`
    changes it.
- Floating point and `NaN` are not modelled: JavaScript numbers are
  integers. `Object.keys`/`Object.entries` order is the order of the modelled
  table.
- Strings are sequences of characters. The UTF-16 length that `length`
  measures is not modelled.
- `resetChapterQuiz` is dispatched by the result page but is not defined by
  the chapter slice. It is not part of this model.
- `handleAuth` is called with an argument order that differs from its
  signature (`src/services/authService.js:3`). Both forms take only its
  outcome (success, or failure with its own message).
  `src/services/authService.js` is not part of this model.
- The loading flags, the rendered markup, the geolocation and date-time
  displays, and the memoised button lists are not modelled, apart from the
  decisions they show (the nav badge, the enabled buttons, the option marks).
- The other pages and the admin forms are not part of this model: the
  chapter pickers, the score page, the sidebar, routing, the context and the
  admin dashboard.
- `ChapterQuiz.ChapterQuizPage.HandleNavClick`,
  `PracticeQuiz.PracticeQuizPage.HandleNavClick`: they require an in-range
  target, because the page renders one button per question.
- `ChapterQuiz.ChapterQuizPage.LoadQuestions`: the page's `isLoading` flag,
  and the refetch when the effect re-runs, are not modelled.
- `PracticeQuiz.PracticeQuizPage.Initialize`: the request URL carries the
  `facultyId` of the render that ran the effect
  (`src/components/Quiz.jsx:66`), which can be the value from before the
  token's claim was stored; the effect then runs again on its dependencies
  (`src/components/Quiz.jsx:91`). The request's URL and these re-runs are not
  modelled: the response is an input.
