/** The sample questions both the exam and the practice card draw on. */
module QuestionBank {

  /** What the sessions use of a question: its ids, its option ids and the correct one. */
  datatype Question = Question(id: string, moduleId: string, options: seq<string>, correctOptionId: string)

  const SampleQuestions: seq<Question> := [
    Question("q1", "M1", ["o1", "o2", "o3", "o4"], "o2"),
    Question("q2", "M2", ["o1", "o2", "o3", "o4"], "o2"),
    Question("q3", "M3", ["o1", "o2", "o3", "o4"], "o2"),
    Question("q4", "M4", ["o1", "o2", "o3", "o4"], "o3"),
    Question("q5", "M5", ["o1", "o2", "o3", "o4"], "o1")
  ]
}
