/** The nested question payloads the backend returns, the flat question
    record the quiz pages work on, and the order-preserving flattening that
    turns one into the other (`flatMap`/`map` in the client). */
module Payload {
  import opened Common

  /** A question as the backend sends it. `options` is the list of values of
      its options object (`Object.values`), `None` when the field is absent. */
  datatype RawQuestion = RawQuestion(
    id: JsVal,
    question: string,
    options: Option<seq<string>>,
    correctAnswer: JsVal,
    level: JsVal)

  /** A question as a quiz page holds it after flattening. */
  datatype Question = Question(
    id: JsVal,
    text: string,
    options: seq<string>,
    correctAnswer: JsVal,
    level: JsVal)

  /** An element of a chapter-mode payload's `subchapters` array; `questions`
      is `None` when the field is absent. */
  datatype Subchapter = Subchapter(questions: Option<seq<RawQuestion>>)

  /** An element of a level list: a chapter whose `subchapters` array holds
      the question records themselves; `None` when the field is absent. */
  datatype Chapter = Chapter(subchapters: Option<seq<RawQuestion>>)

  /** The `questions` object of a level payload as its entries, in
      `Object.keys` order: a level key and its value, `None` standing for a
      `null` value. */
  type LevelTable = seq<(string, Option<seq<Chapter>>)>

  /** The JSON body of a questions endpoint. Level payloads fill `questions`,
      chapter payloads fill `subchapters` and `sessionEnd` (the session's end
      as epoch milliseconds); an absent field is `None`. */
  datatype QuestionsBody = QuestionsBody(
    questions: Option<LevelTable>,
    subchapters: Option<seq<Subchapter>>,
    sessionEnd: Option<int>)

  // ---------------------------------------------------------------------
  // Concatenation and the position of each part inside it

  function Concat<T>(xss: seq<seq<T>>): seq<T>
  {
    if xss == [] then [] else xss[0] + Concat(xss[1..])
  }

  /** Where part `i` starts inside `Concat(xss)`. */
  function Offset<T>(xss: seq<seq<T>>, i: nat): nat
    requires i <= |xss|
  {
    if i == 0 then 0 else |xss[0]| + Offset(xss[1..], i - 1)
  }

  /** Element `j` of part `i` sits at `Offset(xss, i) + j` of the concatenation. */
  lemma {:induction false} ConcatIndex<T>(xss: seq<seq<T>>, i: nat, j: nat)
    requires i < |xss| && j < |xss[i]|
    ensures Offset(xss, i) + j < |Concat(xss)|
    ensures Concat(xss)[Offset(xss, i) + j] == xss[i][j]
  {
    if i > 0 {
      ConcatIndex(xss[1..], i - 1, j);
    }
  }

  /** The concatenation is empty exactly when every part is. */
  lemma {:induction false} ConcatEmpty<T>(xss: seq<seq<T>>)
    ensures Concat(xss) == [] <==> forall i :: 0 <= i < |xss| ==> xss[i] == []
  {
    if xss != [] {
      ConcatEmpty(xss[1..]);
      assert forall i :: 1 <= i < |xss| ==> xss[i] == xss[1..][i - 1];
    }
  }

  // ---------------------------------------------------------------------
  // `map` and `flatMap` whose callback may throw (a `TypeError` on an absent
  // field); `None` is the thrown error.

  function Map<A, B>(f: A -> B, xs: seq<A>): (r: seq<B>)
    ensures |r| == |xs| && forall i :: 0 <= i < |xs| ==> r[i] == f(xs[i])
  {
    seq(|xs|, i requires 0 <= i < |xs| => f(xs[i]))
  }

  /** The parts of a `flatMap` whose callbacks all returned. */
  function Parts<A, B>(xs: seq<A>, f: A -> Option<seq<B>>): (r: seq<seq<B>>)
    requires forall i :: 0 <= i < |xs| ==> f(xs[i]).Some?
    ensures |r| == |xs|
  {
    seq(|xs|, i requires 0 <= i < |xs| && f(xs[i]).Some? => f(xs[i]).value)
  }

  function MapOpt<A, B>(xs: seq<A>, g: A -> Option<B>): (r: Option<seq<B>>)
    ensures r.Some? <==> forall i :: 0 <= i < |xs| ==> g(xs[i]).Some?
    ensures r.Some? ==> |r.value| == |xs|
    ensures r.Some? ==> forall i :: 0 <= i < |xs| ==> r.value[i] == g(xs[i]).value
  {
    if xs == [] then Some([])
    else
      match g(xs[0])
      case None => None
      case Some(h) =>
        match MapOpt(xs[1..], g)
        case None => None
        case Some(t) => Some([h] + t)
  }

  function FlatMapOpt<A, B>(xs: seq<A>, f: A -> Option<seq<B>>): (r: Option<seq<B>>)
    ensures r.Some? <==> forall i :: 0 <= i < |xs| ==> f(xs[i]).Some?
    ensures r.Some? ==> r.value == Concat(Parts(xs, f))
  {
    if xs == [] then Some([])
    else
      match f(xs[0])
      case None => None
      case Some(h) =>
        match FlatMapOpt(xs[1..], f)
        case None => None
        case Some(t) =>
          assert Parts(xs, f)[1..] == Parts(xs[1..], f);
          Some(h + t)
  }

  /** Element `j` of the part produced for `xs[i]` keeps its place, after
      everything produced for `xs[..i]`. */
  lemma {:induction false} FlatMapOptIndex<A, B>(xs: seq<A>, f: A -> Option<seq<B>>, i: nat, j: nat)
    requires FlatMapOpt(xs, f).Some?
    requires i < |xs| && j < |f(xs[i]).value|
    ensures Offset(Parts(xs, f), i) + j < |FlatMapOpt(xs, f).value|
    ensures FlatMapOpt(xs, f).value[Offset(Parts(xs, f), i) + j] == f(xs[i]).value[j]
  {
    ConcatIndex(Parts(xs, f), i, j);
  }

  /** Two levels of flattening: when the part for `xs[i]` is itself the
      concatenation of `inner`, element `k` of `inner[c]` sits after the parts
      of the earlier elements and, inside its own part, after `inner[..c]`. */
  lemma {:induction false} FlatMapOptConcatIndex<A, B>(xs: seq<A>, f: A -> Option<seq<B>>, i: nat, inner: seq<seq<B>>, c: nat, k: nat)
    requires FlatMapOpt(xs, f).Some?
    requires i < |xs| && f(xs[i]) == Some(Concat(inner))
    requires c < |inner| && k < |inner[c]|
    ensures Offset(Parts(xs, f), i) + Offset(inner, c) + k < |FlatMapOpt(xs, f).value|
    ensures FlatMapOpt(xs, f).value[Offset(Parts(xs, f), i) + Offset(inner, c) + k] == inner[c][k]
  {
    ConcatIndex(inner, c, k);
    FlatMapOptIndex(xs, f, i, Offset(inner, c) + k);
  }

  // ---------------------------------------------------------------------
  // The record conversions the pages use

  /** `options: Object.values(q.options || {})` (or `q.options ? ... : []`):
      an absent options object becomes the empty list. */
  function LenientRecord(q: RawQuestion): (r: Question)
    ensures r.options == (if q.options.Some? then q.options.value else [])
    ensures r.id == q.id && r.text == q.question && r.correctAnswer == q.correctAnswer
    ensures r.level == Undefined
  {
    Question(q.id, q.question, if q.options.Some? then q.options.value else [], q.correctAnswer, Undefined)
  }

  /** `options: Object.values(q.options)`: an absent options object throws. */
  function StrictRecord(q: RawQuestion): (r: Option<Question>)
    ensures r.Some? <==> q.options.Some?
    ensures r.Some? ==> r.value == LenientRecord(q)
  {
    if q.options.None? then None else Some(LenientRecord(q))
  }

  /** `levelQuestions.flatMap(chapter => chapter.subchapters.map(...))` with
      `Object.values(q.options)`: the flattening of one level list used by the
      mock and student dashboards. */
  function LevelRecords(chapters: seq<Chapter>): Option<seq<Question>>
  {
    FlatMapOpt(chapters, ChapterStrictRecords)
  }

  function ChapterStrictRecords(c: Chapter): Option<seq<Question>>
  {
    if c.subchapters.None? then None else MapOpt(c.subchapters.value, StrictRecord)
  }

  /** Flattening a level list succeeds exactly when every chapter has its
      `subchapters` array and every question its options object; then the
      `k`-th question of chapter `c` lands after everything from the earlier
      chapters, in question order. */
  lemma {:induction false} LevelRecordsOrder(chapters: seq<Chapter>, c: nat, k: nat)
    requires c < |chapters|
    requires chapters[c].subchapters.Some? && k < |chapters[c].subchapters.value|
    requires LevelRecords(chapters).Some?
    ensures chapters[c].subchapters.value[k].options.Some?
    ensures Offset(Parts(chapters, ChapterStrictRecords), c) + k < |LevelRecords(chapters).value|
    ensures LevelRecords(chapters).value[Offset(Parts(chapters, ChapterStrictRecords), c) + k]
         == LenientRecord(chapters[c].subchapters.value[k])
  {
    assert ChapterStrictRecords(chapters[c]).Some?;
    FlatMapOptIndex(chapters, ChapterStrictRecords, c, k);
  }

  lemma LevelRecordsDefined(chapters: seq<Chapter>)
    ensures LevelRecords(chapters).Some? <==>
      forall c :: 0 <= c < |chapters| ==>
        chapters[c].subchapters.Some? &&
        forall k :: 0 <= k < |chapters[c].subchapters.value| ==> chapters[c].subchapters.value[k].options.Some?
  {
    assert forall c :: 0 <= c < |chapters| ==>
      (ChapterStrictRecords(chapters[c]).Some? <==>
        chapters[c].subchapters.Some? &&
        forall k :: 0 <= k < |chapters[c].subchapters.value| ==> StrictRecord(chapters[c].subchapters.value[k]).Some?);
  }
}
