/** The record that flows through the two-stage graph. */
module State {
  import opened Documents

  /** `question` is required; `retrieved_docs` defaults to the empty list and
      `answer` to the empty string. No other field exists. */
  datatype GraphState = GraphState(
    question: string,
    retrievedDocs: seq<Document> := [],
    answer: string := "")
}
