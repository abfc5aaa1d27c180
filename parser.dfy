/**
 * The parser stage (`ParserAgent.parse`): the structuring call's record is
 * returned as it is; any failure of that call becomes a degraded record that
 * asks the user for clarification. `parse` itself never fails.
 */
module Parser {
  import opened Wrappers
  import opened Strings

  /**
   * The structured problem record. Fields the structuring call may leave
   * out are optional; a missing `needs_clarification` reads as false.
   */
  datatype ProblemSpec = ProblemSpec(
    problemText: Option<string>,
    topic: Option<string>,
    subtopic: Option<string>,
    variables: seq<string>,
    constraints: Option<seq<string>>,
    needsClarification: bool,
    clarificationQuestion: Option<string>)

  const FallbackTopic := "Unknown"
  const FailurePrefix := "Parsing failed. Error: "
  const FailureSuffix := ". Please clean up the text."

  /** A record that asks for clarification also says what to ask. */
  predicate WellFormed(spec: ProblemSpec) {
    spec.needsClarification ==> spec.clarificationQuestion.Some? && spec.clarificationQuestion.value != ""
  }

  /** The question put to the user when structuring failed with `error`. */
  function FailureQuestion(error: string): (q: string)
    ensures q != ""
    ensures StartsWith(q, FailurePrefix)
    ensures OccursAt(q, error, |FailurePrefix|)
  {
    var q := FailurePrefix + error + FailureSuffix;
    assert q[|FailurePrefix|..|FailurePrefix| + |error|] == error;
    q
  }

  /**
   * `parse(text)`, where `structured` is what the structuring call on `text`
   * gave back: its record, or the message of the exception it raised.
   */
  function Parse(text: string, structured: Result<ProblemSpec>): (spec: ProblemSpec)
    ensures structured.Ok? ==> spec == structured.value
    ensures structured.Err? ==> spec.needsClarification
    ensures structured.Err? ==> spec.problemText == Some(text)
    ensures structured.Err? ==> spec.topic == Some(FallbackTopic) && spec.subtopic.None?
    ensures structured.Err? ==> spec.variables == [] && spec.constraints == Some([])
    ensures structured.Err? ==>
      && spec.clarificationQuestion.Some?
      && spec.clarificationQuestion.value != ""
      && OccursAt(spec.clarificationQuestion.value, structured.error, |FailurePrefix|)
    ensures (structured.Ok? ==> WellFormed(structured.value)) ==> WellFormed(spec)
  {
    match structured
    case Ok(record) => record
    case Err(e) =>
      ProblemSpec(
        problemText := Some(text),
        topic := Some(FallbackTopic),
        subtopic := None,
        variables := [],
        constraints := Some([]),
        needsClarification := true,
        clarificationQuestion := Some(FailureQuestion(e)))
  }
}
