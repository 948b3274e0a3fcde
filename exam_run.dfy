/**
 * The exam run screen: ten questions built from the five sample questions, the current index,
 * the recorded answers, the countdown, and what finishing the exam does (the score, the
 * mistakes it records, the result it navigates to).
 */
module ExamRun {
  import opened Wrappers
  import opened JsText
  import opened MistakesStore
  import opened QuestionBank

  const QuestionCount := 10
  /** 14 minutes 34 seconds. */
  const StartTime := 14 * 60 + 34

  function QuestionIdAt(i: nat): string {
    "q" + NatToString(i + 1)
  }

  /** Question `i` is sample `i mod 5` under the id "q" + (i + 1). */
  function Questions(): (qs: seq<Question>)
    ensures |qs| == QuestionCount
    ensures forall i :: 0 <= i < QuestionCount ==>
      qs[i].id == QuestionIdAt(i) && qs[i].correctOptionId == SampleQuestions[i % 5].correctOptionId &&
      qs[i].options == SampleQuestions[i % 5].options
  {
    seq(QuestionCount, i requires 0 <= i < QuestionCount =>
      var s := SampleQuestions[i % |SampleQuestions|];
      Question(QuestionIdAt(i), s.moduleId, s.options, s.correctOptionId))
  }

  /** `answers[id]` is truthy: recorded and not the empty string. */
  predicate Answered(answers: map<string, string>, id: string) {
    id in answers && answers[id] != ""
  }

  predicate AnsweredCorrectly(answers: map<string, string>, q: Question)
    ensures AnsweredCorrectly(answers, q) && q.correctOptionId != "" ==> Answered(answers, q.id)
  {
    q.id in answers && answers[q.id] == q.correctOptionId
  }

  /** The `reduce`: one point per question whose recorded answer is the correct option. */
  function Score(qs: seq<Question>, answers: map<string, string>): (score: nat)
    ensures score <= |qs|
  {
    if qs == [] then 0
    else Score(qs[..|qs| - 1], answers) + (if AnsweredCorrectly(answers, qs[|qs| - 1]) then 1 else 0)
  }

  /** The ids the `forEach` records as mistakes, in question order: unanswered ones included. */
  function WrongIds(qs: seq<Question>, answers: map<string, string>): (ids: seq<string>)
    ensures |ids| <= |qs|
  {
    if qs == [] then []
    else
      var last := qs[|qs| - 1];
      WrongIds(qs[..|qs| - 1], answers) + (if AnsweredCorrectly(answers, last) then [] else [last.id])
  }

  /** The store's ids after `add` is called with each of `ids` in turn. */
  function AddedAll(ms: seq<string>, ids: seq<string>): seq<string> {
    if ids == [] then ms
    else Inserted(AddedAll(ms, ids[..|ids| - 1]), ids[|ids| - 1])
  }

  /** `add` only ever adds: the store ends with what it had and every id handed to it. */
  lemma {:induction false} AddedAllMembers(ms: seq<string>, ids: seq<string>)
    ensures forall x :: x in AddedAll(ms, ids) <==> x in ms || x in ids
  {
    if ids != [] {
      AddedAllMembers(ms, ids[..|ids| - 1]);
      assert forall x :: x in ids <==> x in ids[..|ids| - 1] || x == ids[|ids| - 1];
    }
  }

  /** How many of `ids` are new to the store when `add` reaches them: one notification each. */
  function NewIds(ms: seq<string>, ids: seq<string>): (n: nat)
    ensures n <= |ids|
  {
    if ids == [] then 0
    else NewIds(ms, ids[..|ids| - 1]) + (if ids[|ids| - 1] in AddedAll(ms, ids[..|ids| - 1]) then 0 else 1)
  }

  /** The store grows by exactly the ids that were new to it: one id per notification. */
  lemma {:induction false} AddedAllLength(ms: seq<string>, ids: seq<string>)
    ensures |AddedAll(ms, ids)| == |ms| + NewIds(ms, ids)
  {
    if ids != [] {
      AddedAllLength(ms, ids[..|ids| - 1]);
    }
  }

  datatype ExamResult = ExamResult(score: nat, total: nat, timeSpent: int)

  /** What `finishExam` hands to the results screen, from the answers and the time left it sees. */
  function ResultOf(answers: map<string, string>, timeLeft: int): (r: ExamResult)
    ensures r.total == QuestionCount && r.score + |WrongIds(Questions(), answers)| == r.total
    ensures 0 <= timeLeft <= StartTime ==> 0 <= r.timeSpent <= StartTime
  {
    ScorePlusWrong(Questions(), answers);
    ExamResult(Score(Questions(), answers), QuestionCount, StartTime - timeLeft)
  }

  class ExamSession {
    var timeLeft: int
    var currentIndex: nat
    var answers: map<string, string>
    /** The result passed to `navigate('Results', …)`, once the exam is finished. */
    var result: Option<ExamResult>
    const store: Store

    predicate Valid()
      reads this, store
    {
      currentIndex < QuestionCount && 0 <= timeLeft <= StartTime && store.Valid() &&
      forall id :: id in answers ==> answers[id] != "" && exists i :: 0 <= i < QuestionCount && id == QuestionIdAt(i)
    }

    /** The first render: 14:34 on the clock, the first question, no answers. */
    constructor (store: Store)
      requires store.Valid()
      ensures Valid() && this.store == store
      ensures timeLeft == StartTime && currentIndex == 0 && answers == map[] && result == None
    {
      this.store := store;
      timeLeft, currentIndex, answers, result := StartTime, 0, map[], None;
    }

    /** `setAnswer`: the current question's answer becomes `optionId`; the others stay. */
    method SetAnswer(optionId: string)
      requires Valid() && optionId in Questions()[currentIndex].options
      modifies this`answers
      ensures Valid()
      ensures answers == old(answers)[QuestionIdAt(currentIndex) := optionId]
      ensures NextEnabled(currentIndex, answers) && LowerFinishEnabled(currentIndex, answers)
    {
      answers := answers[Questions()[currentIndex].id := optionId];
    }

    /** `nextQuestion`: one forward, stopping at the last question. */
    method NextQuestion()
      requires Valid()
      modifies this`currentIndex
      ensures Valid() && currentIndex == Min(QuestionCount - 1, old(currentIndex) + 1)
      ensures NextShown(old(currentIndex)) ==> currentIndex == old(currentIndex) + 1
      ensures !NextShown(old(currentIndex)) ==> currentIndex == old(currentIndex)
    {
      currentIndex := Min(QuestionCount - 1, currentIndex + 1);
    }

    /** `prevQuestion`: one back, stopping at the first question. */
    method PrevQuestion()
      requires Valid()
      modifies this`currentIndex
      ensures Valid() && currentIndex == Max(0, old(currentIndex) - 1)
      ensures PrevEnabled(old(currentIndex)) ==> currentIndex == old(currentIndex) - 1
      ensures !PrevEnabled(old(currentIndex)) ==> currentIndex == old(currentIndex)
    {
      currentIndex := Max(0, currentIndex - 1);
    }

    /** A click on a question of the grid. */
    method GoTo(index: nat)
      requires Valid() && index < QuestionCount
      modifies this`currentIndex
      ensures Valid() && currentIndex == index
    {
      currentIndex := index;
    }

    /**
     * `finishExam` as the buttons call it: the score of the current answers, every question not
     * answered correctly added to the store in question order, and the result.
     */
    method FinishExam()
      requires Valid()
      modifies this`result, store`mistakes, store`calls
      ensures Valid()
      ensures result == Some(ResultOf(answers, timeLeft))
      ensures store.mistakes == AddedAll(old(store.mistakes), WrongIds(Questions(), answers))
      ensures store.subscribers == old(store.subscribers)
      ensures store.calls == old(store.calls) + Rounds(store.subscribers, NewIds(old(store.mistakes), WrongIds(Questions(), answers)))
    {
      FinishWith(answers, timeLeft);
    }

    /** The body of `finishExam`, run on the answers and the time left of some render. */
    method FinishWith(seenAnswers: map<string, string>, seenTimeLeft: int)
      requires Valid()
      modifies this`result, store`mistakes, store`calls
      ensures Valid()
      ensures result == Some(ResultOf(seenAnswers, seenTimeLeft))
      ensures store.mistakes == AddedAll(old(store.mistakes), WrongIds(Questions(), seenAnswers))
      ensures store.subscribers == old(store.subscribers)
      ensures store.calls == old(store.calls) + Rounds(store.subscribers, NewIds(old(store.mistakes), WrongIds(Questions(), seenAnswers)))
    {
      var qs := Questions();
      var score := Score(qs, seenAnswers);
      RecordMistakes(store, qs, seenAnswers);
      result := Some(ExamResult(score, |qs|, StartTime - seenTimeLeft));
    }

    /**
     * One tick of the countdown as written: the interval was set up on the first render with no
     * dependencies, so when time runs out it finishes the exam with that render's answers (none)
     * and time left (14:34).
     */
    method TimerTickAsWritten()
      requires Valid()
      modifies this`timeLeft, this`result, store`mistakes, store`calls
      ensures Valid()
      ensures old(timeLeft) > 1 ==> timeLeft == old(timeLeft) - 1 && result == old(result)
      ensures old(timeLeft) <= 1 ==> timeLeft == 0 && result == Some(ResultOf(map[], StartTime))
      ensures old(timeLeft) <= 1 ==>
        store.mistakes == AddedAll(old(store.mistakes), WrongIds(Questions(), map[])) &&
        store.calls == old(store.calls) + Rounds(store.subscribers, NewIds(old(store.mistakes), WrongIds(Questions(), map[])))
      ensures old(timeLeft) > 1 ==> store.mistakes == old(store.mistakes) && store.calls == old(store.calls)
      ensures store.subscribers == old(store.subscribers)
    {
      if timeLeft <= 1 {
        FinishWith(map[], StartTime);
        timeLeft := 0;
      } else {
        timeLeft := timeLeft - 1;
      }
    }

    /** One tick of the countdown, finishing with the current answers and all the time spent. */
    method TimerTick()
      requires Valid()
      modifies this`timeLeft, this`result, store`mistakes, store`calls
      ensures Valid()
      ensures old(timeLeft) > 1 ==> timeLeft == old(timeLeft) - 1 && result == old(result)
      ensures old(timeLeft) <= 1 ==> timeLeft == 0 && result == Some(ResultOf(answers, 0))
      ensures old(timeLeft) <= 1 ==>
        store.mistakes == AddedAll(old(store.mistakes), WrongIds(Questions(), answers)) &&
        store.calls == old(store.calls) + Rounds(store.subscribers, NewIds(old(store.mistakes), WrongIds(Questions(), answers)))
      ensures old(timeLeft) > 1 ==> store.mistakes == old(store.mistakes) && store.calls == old(store.calls)
      ensures store.subscribers == old(store.subscribers)
    {
      if timeLeft <= 1 {
        FinishWith(answers, 0);
        timeLeft := 0;
      } else {
        timeLeft := timeLeft - 1;
      }
    }
  }

  /** The `forEach` of `finishExam`: `add` for each question not answered correctly, in order. */
  method RecordMistakes(store: Store, qs: seq<Question>, answers: map<string, string>)
    requires store.Valid()
    modifies store`mistakes, store`calls
    ensures store.Valid()
    ensures store.mistakes == AddedAll(old(store.mistakes), WrongIds(qs, answers))
    ensures store.subscribers == old(store.subscribers)
    ensures store.calls == old(store.calls) + Rounds(store.subscribers, NewIds(old(store.mistakes), WrongIds(qs, answers)))
  {
    var i := 0;
    ghost var wrong: seq<string> := [];
    while i < |qs|
      invariant 0 <= i <= |qs| && store.Valid()
      invariant wrong == WrongIds(qs[..i], answers)
      invariant store.mistakes == AddedAll(old(store.mistakes), wrong)
      invariant store.calls == old(store.calls) + Rounds(store.subscribers, NewIds(old(store.mistakes), wrong))
    {
      WrongIdsStep(qs, i, answers);
      if !(qs[i].id in answers && answers[qs[i].id] == qs[i].correctOptionId) {
        AddedAllSnoc(old(store.mistakes), wrong, qs[i].id);
        NotifiedStep(old(store.calls), store.subscribers, old(store.mistakes), wrong, qs[i].id);
        store.Add(qs[i].id);
        wrong := wrong + [qs[i].id];
      }
      i := i + 1;
    }
    assert qs[..i] == qs;
  }

  /** One more question: its id is recorded when it was not answered correctly. */
  lemma WrongIdsStep(qs: seq<Question>, i: nat, answers: map<string, string>)
    requires i < |qs|
    ensures WrongIds(qs[..i + 1], answers) ==
      WrongIds(qs[..i], answers) + if AnsweredCorrectly(answers, qs[i]) then [] else [qs[i].id]
  {
    assert qs[..i + 1][..i] == qs[..i];
  }

  /** One more `add`: one more notification exactly when the id is new to the store. */
  lemma NotifiedStep(log: seq<Callback>, subscribers: seq<Callback>, ms: seq<string>, ids: seq<string>, id: string)
    ensures log + Rounds(subscribers, NewIds(ms, ids + [id])) ==
      if id in AddedAll(ms, ids) then log + Rounds(subscribers, NewIds(ms, ids))
      else log + Rounds(subscribers, NewIds(ms, ids)) + subscribers
  {
    AddedAllSnoc(ms, ids, id);
    var k := NewIds(ms, ids);
    if id !in AddedAll(ms, ids) {
      assert Rounds(subscribers, k + 1) == Rounds(subscribers, k) + subscribers;
    }
  }

  lemma AddedAllSnoc(ms: seq<string>, ids: seq<string>, id: string)
    ensures AddedAll(ms, ids + [id]) == Inserted(AddedAll(ms, ids), id)
    ensures NewIds(ms, ids + [id]) == NewIds(ms, ids) + if id in AddedAll(ms, ids) then 0 else 1
  {
    assert (ids + [id])[..|ids|] == ids;
  }

  function Min(a: int, b: int): int { if a <= b then a else b }
  function Max(a: int, b: int): int { if a >= b then a else b }

  // ---------------------------------------------------------------------------
  // Buttons

  /** Prev is disabled on the first question, the one place where `prevQuestion` would not move. */
  predicate PrevEnabled(currentIndex: nat)
    ensures PrevEnabled(currentIndex) <==> Max(0, currentIndex - 1) != currentIndex
  {
    currentIndex != 0
  }

  /**
   * Next is shown before the last question, Finish on it: Next is offered exactly where
   * `nextQuestion` would move.
   */
  predicate NextShown(currentIndex: nat)
    ensures currentIndex < QuestionCount ==>
      (NextShown(currentIndex) <==> Min(QuestionCount - 1, currentIndex + 1) != currentIndex)
  {
    currentIndex < QuestionCount - 1
  }

  /**
   * Next is enabled once the current question has an answer: the same rule as the lower Finish,
   * and while it is disabled the current question would score nothing.
   */
  predicate NextEnabled(currentIndex: nat, answers: map<string, string>)
    requires currentIndex < QuestionCount
    ensures NextEnabled(currentIndex, answers) <==> LowerFinishEnabled(currentIndex, answers)
    ensures !NextEnabled(currentIndex, answers) ==> !AnsweredCorrectly(answers, Questions()[currentIndex])
  {
    Answered(answers, Questions()[currentIndex].id)
  }

  /**
   * The detail card's Finish: enabled unless fewer than ten answers are recorded; while it is
   * disabled some question has no recorded answer.
   */
  predicate DetailFinishEnabled(answers: map<string, string>)
    ensures !DetailFinishEnabled(answers) ==> exists i :: 0 <= i < QuestionCount && QuestionIdAt(i) !in answers
  {
    FewAnswersMissOne(answers);
    |answers| >= QuestionCount
  }

  /** The lower card's Finish: enabled as soon as the current (last) question has a recorded answer. */
  predicate LowerFinishEnabled(currentIndex: nat, answers: map<string, string>)
    requires currentIndex < QuestionCount
    ensures LowerFinishEnabled(currentIndex, answers) ==> QuestionIdAt(currentIndex) in answers
  {
    Answered(answers, Questions()[currentIndex].id)
  }

  /** Fewer than ten answers leave one of the ten question ids without an answer. */
  lemma FewAnswersMissOne(answers: map<string, string>)
    ensures |answers| < QuestionCount ==> exists i :: 0 <= i < QuestionCount && QuestionIdAt(i) !in answers
  {
    if |answers| < QuestionCount && forall i :: 0 <= i < QuestionCount ==> QuestionIdAt(i) in answers {
      var ids := set i | 0 <= i < QuestionCount :: QuestionIdAt(i);
      assert ids <= answers.Keys;
      assert |answers| == |answers.Keys|;
      IdSetSize();
      SubsetSize(ids, answers.Keys);
      assert false;
    }
  }

  // ---------------------------------------------------------------------------
  // Properties

  lemma QuestionIdsDistinct(i: nat, j: nat)
    requires i != j
    ensures QuestionIdAt(i) != QuestionIdAt(j)
  {
    if QuestionIdAt(i) == QuestionIdAt(j) {
      assert NatToString(i + 1) == QuestionIdAt(i)[1..] == QuestionIdAt(j)[1..] == NatToString(j + 1);
      NatToStringInjective(i + 1, j + 1);
    }
  }

  /** Answers can only be keyed by the ten question ids, so ten answers means every question is answered. */
  lemma DetailFinishMeansAllAnswered(answers: map<string, string>)
    requires forall id :: id in answers ==> answers[id] != "" && exists i :: 0 <= i < QuestionCount && id == QuestionIdAt(i)
    ensures DetailFinishEnabled(answers) <==> forall i :: 0 <= i < QuestionCount ==> Answered(answers, QuestionIdAt(i))
  {
    var ids := set i | 0 <= i < QuestionCount :: QuestionIdAt(i);
    assert answers.Keys <= ids;
    IdSetSize();
    SubsetSize(answers.Keys, ids);
    assert |answers| == |answers.Keys|;
    if forall i :: 0 <= i < QuestionCount ==> Answered(answers, QuestionIdAt(i)) {
      assert answers.Keys == ids;
    }
  }

  /** A subset is no larger, and strictly smaller unless equal. */
  lemma SubsetSize<T>(a: set<T>, b: set<T>)
    requires a <= b
    ensures |a| <= |b| && (|a| == |b| ==> a == b)
  {
    var rest := b - a;
    assert b == a + rest && a !! rest;
    if |a| == |b| {
      assert |rest| == 0;
      assert rest == {};
    }
  }

  lemma IdSetSize()
    ensures |set i | 0 <= i < QuestionCount :: QuestionIdAt(i)| == QuestionCount
  {
    var ids := set i | 0 <= i < QuestionCount :: QuestionIdAt(i);
    forall i, j | 0 <= i < j < QuestionCount
      ensures QuestionIdAt(i) != QuestionIdAt(j)
    {
      QuestionIdsDistinct(i, j);
    }
    var f: nat -> string := QuestionIdAt;
    InjectiveImageSize(f, QuestionCount);
    var image := set i | 0 <= i < QuestionCount :: f(i);
    forall x | x in image
      ensures x in ids
    {
      var i :| 0 <= i < QuestionCount && x == f(i);
    }
    forall x | x in ids
      ensures x in image
    {
      var i :| 0 <= i < QuestionCount && x == QuestionIdAt(i);
      assert x == f(i);
    }
    assert image == ids;
  }

  /** The image of `0 .. n - 1` under a map that is injective there has n elements. */
  lemma {:induction false} InjectiveImageSize<T>(f: nat -> T, n: nat)
    requires forall i, j :: 0 <= i < j < n ==> f(i) != f(j)
    ensures |set i | 0 <= i < n :: f(i)| == n
  {
    if n > 0 {
      InjectiveImageSize(f, n - 1);
      var smaller := set i | 0 <= i < n - 1 :: f(i);
      var all := set i | 0 <= i < n :: f(i);
      forall x | x in smaller
        ensures x != f(n - 1)
      {
        var i :| 0 <= i < n - 1 && x == f(i);
      }
      assert all == smaller + {f(n - 1)};
    }
  }

  /** The lower card lets the exam be finished with a single answer, where the detail card wants all ten. */
  lemma FinishGatesDiffer()
    ensures var answers := map[QuestionIdAt(9) := "o1"];
      LowerFinishEnabled(9, answers) && !DetailFinishEnabled(answers)
  {
  }

  /** Every question is either scored or recorded as a mistake, never both. */
  lemma {:induction false} ScorePlusWrong(qs: seq<Question>, answers: map<string, string>)
    ensures Score(qs, answers) + |WrongIds(qs, answers)| == |qs|
  {
    if qs != [] {
      ScorePlusWrong(qs[..|qs| - 1], answers);
    }
  }

  /** A question answered with its correct option scores: all ten correct gives ten out of ten. */
  lemma {:induction false} AllCorrectFullScore(qs: seq<Question>, answers: map<string, string>)
    requires forall i :: 0 <= i < |qs| ==> AnsweredCorrectly(answers, qs[i])
    ensures Score(qs, answers) == |qs| && WrongIds(qs, answers) == []
  {
    if qs != [] {
      AllCorrectFullScore(qs[..|qs| - 1], answers);
    }
  }

  /** With no answers nothing scores and every question is a mistake. */
  lemma {:induction false} NoAnswersAllWrong(qs: seq<Question>)
    ensures Score(qs, map[]) == 0
    ensures WrongIds(qs, map[]) == seq(|qs|, i requires 0 <= i < |qs| => qs[i].id)
  {
    if qs != [] {
      NoAnswersAllWrong(qs[..|qs| - 1]);
    }
  }

  /**
   * The stale countdown: whatever was answered, the timeout finish reports a score of 0 and no
   * time spent, where finishing with the current answers reports the real score and 14:34.
   */
  lemma StaleTimeoutResult(answers: map<string, string>)
    requires forall i :: 0 <= i < QuestionCount ==> AnsweredCorrectly(answers, Questions()[i])
    ensures ResultOf(map[], StartTime) == ExamResult(0, 10, 0)
    ensures ResultOf(answers, 0) == ExamResult(10, 10, 874)
  {
    NoAnswersAllWrong(Questions());
    AllCorrectFullScore(Questions(), answers);
  }

  /** Every question recorded as wrong ends up in the store, and nothing else is added. */
  lemma FinishRecordsMistakes(ms: seq<string>, answers: map<string, string>, q: Question)
    requires q in Questions()
    ensures !AnsweredCorrectly(answers, q) ==> q.id in AddedAll(ms, WrongIds(Questions(), answers))
    ensures forall x :: x in AddedAll(ms, WrongIds(Questions(), answers)) ==>
      x in ms || exists q' :: q' in Questions() && q'.id == x && !AnsweredCorrectly(answers, q')
  {
    AddedAllMembers(ms, WrongIds(Questions(), answers));
    if !AnsweredCorrectly(answers, q) {
      WrongIdsComplete(Questions(), answers, q);
    }
    forall x | x in AddedAll(ms, WrongIds(Questions(), answers)) && x !in ms
      ensures exists q' :: q' in Questions() && q'.id == x && !AnsweredCorrectly(answers, q')
    {
      WrongIdsSound(Questions(), answers, x);
    }
  }

  lemma {:induction false} WrongIdsSound(qs: seq<Question>, answers: map<string, string>, id: string)
    requires id in WrongIds(qs, answers)
    ensures exists q :: q in qs && q.id == id && !AnsweredCorrectly(answers, q)
  {
    var init := qs[..|qs| - 1];
    var last := qs[|qs| - 1];
    if id in WrongIds(init, answers) {
      WrongIdsSound(init, answers, id);
      var q :| q in init && q.id == id && !AnsweredCorrectly(answers, q);
      assert q in qs;
    } else {
      assert last in qs;
    }
  }

  lemma {:induction false} WrongIdsComplete(qs: seq<Question>, answers: map<string, string>, q: Question)
    requires q in qs && !AnsweredCorrectly(answers, q)
    ensures q.id in WrongIds(qs, answers)
  {
    var init := qs[..|qs| - 1];
    if q != qs[|qs| - 1] {
      assert q in init by {
        assert qs == init + [qs[|qs| - 1]];
      }
      WrongIdsComplete(init, answers, q);
    }
  }

  /**
   * The stale timeout finish records every one of the ten questions as a mistake, whatever was
   * answered before the clock ran out.
   */
  lemma TimeoutRecordsEveryQuestion(ms: seq<string>, i: nat)
    requires i < QuestionCount
    ensures QuestionIdAt(i) in AddedAll(ms, WrongIds(Questions(), map[]))
  {
    FinishRecordsMistakes(ms, map[], Questions()[i]);
  }
}
