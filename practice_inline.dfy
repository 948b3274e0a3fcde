/**
 * The inline practice card: one sample question at a time, an answer that can be selected
 * until it is confirmed, and a wrong confirmed answer recorded in the mistakes store.
 */
module PracticeInline {
  import opened Wrappers
  import opened MistakesStore
  import opened QuestionBank

  /** `selectedAnswer` is truthy: some option id other than the empty string. */
  predicate HasSelection(selected: Option<string>) {
    selected.Some? && selected.value != ""
  }

  /** `isCorrect`: `null` unless an answer is selected and locked, then whether it is the correct one. */
  function IsCorrect(selected: Option<string>, locked: bool, q: Question): (r: Option<bool>)
    ensures r.Some? <==> HasSelection(selected) && locked
    ensures r.Some? ==> (r.value <==> selected.value == q.correctOptionId)
  {
    if HasSelection(selected) && locked then Some(selected.value == q.correctOptionId) else None
  }

  /** The question `nextQuestion` moves to: one forward, stopping at the last. */
  function NextIndex(currentIndex: nat): nat {
    if currentIndex + 1 <= |SampleQuestions| - 1 then currentIndex + 1 else |SampleQuestions| - 1
  }

  /** The question `prevQuestion` moves to: one back, stopping at the first. */
  function PrevIndex(currentIndex: nat): nat {
    if currentIndex >= 1 then currentIndex - 1 else 0
  }

  /** Prev is disabled on the first question, the one place where `prevQuestion` would not move. */
  predicate PrevEnabled(currentIndex: nat)
    ensures PrevEnabled(currentIndex) <==> PrevIndex(currentIndex) != currentIndex
  {
    currentIndex != 0
  }

  /**
   * Confirm is shown while unlocked and enabled only with a selection: while it is enabled no
   * verdict is shown, and once the answer is locked one is.
   */
  predicate ConfirmEnabled(selected: Option<string>, locked: bool)
    ensures ConfirmEnabled(selected, locked) ==>
      forall q :: IsCorrect(selected, locked, q).None? && IsCorrect(selected, true, q).Some?
  {
    !locked && HasSelection(selected)
  }

  /**
   * Next is shown once locked and enabled before the last question: exactly where the answer
   * is locked and `nextQuestion` would move.
   */
  predicate NextEnabled(currentIndex: nat, locked: bool)
    ensures currentIndex < |SampleQuestions| ==>
      (NextEnabled(currentIndex, locked) <==> locked && NextIndex(currentIndex) != currentIndex)
  {
    locked && currentIndex != |SampleQuestions| - 1
  }

  class PracticeCard {
    var currentIndex: nat
    var selected: Option<string>
    var locked: bool
    const store: Store

    predicate Valid()
      reads this, store
    {
      currentIndex < |SampleQuestions| && store.Valid()
    }

    constructor (store: Store)
      requires store.Valid()
      ensures Valid() && this.store == store
      ensures currentIndex == 0 && selected == None && !locked
    {
      this.store := store;
      currentIndex, selected, locked := 0, None, false;
    }

    function Current(): Question
      reads this
      requires currentIndex < |SampleQuestions|
    {
      SampleQuestions[currentIndex]
    }

    /** A radio input's `onChange`; the inputs are disabled while the answer is locked. */
    method Select(optionId: string)
      requires Valid()
      modifies this`selected
      ensures Valid()
      ensures selected == if old(locked) then old(selected) else Some(optionId)
      ensures !old(locked) ==> (ConfirmEnabled(selected, locked) <==> optionId != "")
    {
      if !locked {
        selected := Some(optionId);
      }
    }

    /**
     * `confirmAnswer`: without a selection nothing happens; with one the answer is locked, and
     * the question's id is added to the store exactly when the selection is wrong.
     */
    method ConfirmAnswer()
      requires Valid()
      modifies this`locked, store`mistakes, store`calls
      ensures Valid() && selected == old(selected) && currentIndex == old(currentIndex)
      ensures locked == (old(locked) || HasSelection(selected))
      ensures ConfirmEnabled(old(selected), old(locked)) ==> IsCorrect(selected, locked, Current()).Some?
      ensures !old(locked) && !ConfirmEnabled(old(selected), old(locked)) ==>
        !locked && store.mistakes == old(store.mistakes) && store.calls == old(store.calls)
      ensures store.mistakes ==
        if HasSelection(selected) && selected.value != Current().correctOptionId
        then Inserted(old(store.mistakes), Current().id)
        else old(store.mistakes)
      ensures store.calls ==
        if HasSelection(selected) && selected.value != Current().correctOptionId && Current().id !in old(store.mistakes)
        then old(store.calls) + store.subscribers
        else old(store.calls)
    {
      if selected.Some? && selected.value != "" {
        locked := true;
        if selected.value != SampleQuestions[currentIndex].correctOptionId {
          store.Add(SampleQuestions[currentIndex].id);
        }
      }
    }

    /** `nextQuestion`: forward, stopping at the last question; the selection is cleared and unlocked. */
    method NextQuestion()
      requires Valid()
      modifies this`currentIndex, this`selected, this`locked
      ensures Valid()
      ensures currentIndex == NextIndex(old(currentIndex))
      ensures NextEnabled(old(currentIndex), old(locked)) ==> currentIndex == old(currentIndex) + 1
      ensures old(locked) && !NextEnabled(old(currentIndex), old(locked)) ==> currentIndex == old(currentIndex)
      ensures selected == None && !locked
    {
      currentIndex := NextIndex(currentIndex);
      selected, locked := None, false;
    }

    /** `prevQuestion`: back, stopping at the first question; the selection is cleared and unlocked. */
    method PrevQuestion()
      requires Valid()
      modifies this`currentIndex, this`selected, this`locked
      ensures Valid()
      ensures currentIndex == PrevIndex(old(currentIndex))
      ensures PrevEnabled(old(currentIndex)) ==> currentIndex == old(currentIndex) - 1
      ensures !PrevEnabled(old(currentIndex)) ==> currentIndex == old(currentIndex)
      ensures selected == None && !locked
    {
      currentIndex := PrevIndex(currentIndex);
      selected, locked := None, false;
    }
  }

  // ---------------------------------------------------------------------------
  // Properties

  /** The store after one confirmation on question `q` with selection `selected`. */
  function AfterConfirm(ms: seq<string>, selected: Option<string>, q: Question): seq<string> {
    if HasSelection(selected) && selected.value != q.correctOptionId then Inserted(ms, q.id) else ms
  }

  /** Confirming the same answer twice records no more than confirming it once. */
  lemma ConfirmIdempotent(ms: seq<string>, selected: Option<string>, q: Question)
    ensures AfterConfirm(AfterConfirm(ms, selected, q), selected, q) == AfterConfirm(ms, selected, q)
  {
  }

  /** A confirmation records a mistake exactly when the verdict shown is "wrong". */
  lemma RecordedIffShownWrong(ms: seq<string>, selected: Option<string>, q: Question)
    requires q.id !in ms
    ensures q.id in AfterConfirm(ms, selected, q) <==> IsCorrect(selected, true, q) == Some(false)
  {
  }
}
