/** The results screen's verdict: a pass needs at least 80% of the questions, rounded up. */
module ResultsScreen {

  /** `Math.ceil(total * 0.8)`, as the integer ceiling of 4·total / 5. */
  function PassMark(total: nat): (mark: nat)
    ensures 5 * mark >= 4 * total
    ensures mark > 0 ==> 5 * (mark - 1) < 4 * total
  {
    (4 * total + 4) / 5
  }

  /** Passing is exactly scoring at least four fifths of the total. */
  predicate Passed(score: nat, total: nat)
    ensures Passed(score, total) <==> 5 * score >= 4 * total
  {
    score >= PassMark(total)
  }

  /** For the ten-question exam the pass mark is 8: eight passes, seven fails. */
  lemma TenQuestionPassMark()
    ensures PassMark(10) == 8
    ensures Passed(8, 10) && !Passed(7, 10)
  {
  }

  /** A higher score with the same total never turns a pass into a fail. */
  lemma PassedMonotone(score: nat, better: nat, total: nat)
    requires Passed(score, total) && score <= better
    ensures Passed(better, total)
  {
  }

  /** A full score passes; no points fail whenever there was at least one question. */
  lemma Extremes(total: nat)
    ensures Passed(total, total)
    ensures total >= 1 ==> !Passed(0, total)
  {
  }
}
