/** What the four quiz pages share: the answer ledger with its skip value,
    the status shown for each position in the navigation bar, the request
    body of one answer submission and the free-running local countdown. */
module Session {
  import opened Common

  /** The answer ledger: question position to recorded option number. A
      position that is absent has not been answered. */
  type Ledger = map<int, int>

  /** The value a skip writes into the ledger. */
  const SkipValue := 0

  /** `selectedAnswers[i] === 0`. */
  predicate IsSkipped(ledger: Ledger, i: int)
  {
    i in ledger && ledger[i] == SkipValue
  }

  /** `selectedAnswers[i] !== undefined && selectedAnswers[i] !== 0`. */
  predicate IsAttempted(ledger: Ledger, i: int)
  {
    i in ledger && ledger[i] != SkipValue
  }

  datatype NavState = NotAttempted | Attempted | Skipped

  /** The badge of navigation button `i`: exactly one of the three, so the
      "skipped" and "attempted" classes are never shown together. */
  function NavStatus(ledger: Ledger, i: int): (s: NavState)
    ensures s == Skipped <==> IsSkipped(ledger, i)
    ensures s == Attempted <==> IsAttempted(ledger, i)
    ensures s == NotAttempted <==> i !in ledger
  {
    if i !in ledger then NotAttempted
    else if ledger[i] == SkipValue then Skipped
    else Attempted
  }

  /** Overwriting a position twice keeps only the last value and leaves every
      other position as it was. */
  lemma OverwriteKeepsLast(ledger: Ledger, i: int, first: int, second: int)
    ensures ledger[i := first][i := second] == ledger[i := second]
    ensures forall j :: j != i ==> (j in ledger[i := second] <==> j in ledger)
    ensures forall j :: j != i && j in ledger ==> ledger[i := second][j] == ledger[j]
  {
  }

  /** What a Next or Skip handler did with the position: nothing (its guard
      failed), one step forward, stayed on the last position, or called the
      final submission instead of moving. */
  datatype Step = Ignored | Advanced | Stayed | SubmitCalled

  /** The body of one answer POST: `{ question_id, answer_index }`. */
  datatype AnswerPost = AnswerPost(questionId: JsVal, answerIndex: int)

  /** One tick of the local countdown:
      `setTimeLeft(prev => prev <= 1 ? (handleSubmit(), 0) : prev - 1)`.
      `fire` says that the tick calls `handleSubmit` and clears the interval. */
  function LocalCountdownStep(prev: int): (r: (int, bool))
    ensures r.0 >= 0
    ensures r.1 <==> r.0 == 0
    ensures r.1 <==> prev <= 1
    ensures !r.1 ==> r.0 == prev - 1
  {
    if prev <= 1 then (0, true) else (prev - 1, false)
  }

  /** The countdown after `k` ticks from `prev`; once a tick fires, the
      interval is cleared and no later tick runs. */
  function Countdown(prev: int, k: nat): (int, bool)
  {
    if k == 0 then (prev, false)
    else
      var (next, fire) := LocalCountdownStep(prev);
      if fire then (next, true) else Countdown(next, k - 1)
  }

  /** Started from `t` seconds, the countdown runs down one second per tick
      without submitting for `t - 1` ticks, and tick `t` sets 0 and submits;
      after that nothing changes, so submission happens exactly once. */
  lemma {:induction false} CountdownFiresOnce(t: int, k: nat)
    requires t >= 1
    ensures k < t ==> Countdown(t, k) == (t - k, false)
    ensures k >= t ==> Countdown(t, k) == (0, true)
  {
    if k > 0 && t > 1 {
      CountdownFiresOnce(t - 1, k - 1);
    }
  }
}
