// The input intent classifier (`InputIntentClassifier`): it decides whether
// a description is an infrastructure incident, by keywords or by asking the
// model, and as a graph node records the verdict and picks the orchestrator
// or the fallback handler.  No graph built by this system registers it.
module Classifiers {
  import opened Wrappers
  import opened Text
  import opened Incidents
  import opened RunState

  const AgentId := "input-intent-classifier"

  /** The words whose presence, in the lower-cased description, makes an input valid in keyword mode. */
  const IntentKeywords: seq<string> := [
    "disk", "cpu", "memory", "database", "storage", "connectivity", "latency", "timeout",
    "performance", "kubernetes", "pod", "network", "failure", "incident", "outage",
    "production", "server", "resource", "degradation", "error", "cloud"]

  /** `InputIntentResult`. */
  datatype IntentResult = IntentResult(isValid: bool, reasoning: string)

  /**
   * `autonomous_mode`: keyword matching, or the model chain, which answers
   * a description with its reply text or raises (the exception's text).
   */
  datatype Mode = KeywordMode | ModelMode(ask: string -> Result<string, string>)

  const FailurePrefix := "\U{26A0}\U{FE0F} LLM intent classification failed: "

  /** A model reply that counts as "this is an incident". */
  predicate AcceptedReply(reply: string) {
    Lower(Strip(reply)) in ["yes", "true"]
  }

  function KeywordClassify(description: string): (r: IntentResult)
    ensures r.isValid <==> ContainsAny(Lower(description), IntentKeywords)
    ensures r.reasoning == if r.isValid then "Keyword match found." else "No keyword match; likely not an incident."
  {
    var valid := ContainsAny(Lower(description), IntentKeywords);
    IntentResult(valid, if valid then "Keyword match found." else "No keyword match; likely not an incident.")
  }

  /** The model path never raises: a failed call is an invalid verdict that carries the error. */
  function ModelClassify(ask: string -> Result<string, string>, description: string): (r: IntentResult)
    ensures r.isValid <==> ask(description).Success? && AcceptedReply(ask(description).value)
    ensures ask(description).Failure? ==> r.reasoning == FailurePrefix + ask(description).error
  {
    match ask(description)
    case Failure(e) => IntentResult(false, FailurePrefix + e)
    case Success(reply) =>
      var valid := AcceptedReply(reply);
      IntentResult(valid, if valid then "LLM classified as valid incident." else "LLM classified as non-incident.")
  }

  /** `classify`. */
  function Classify(mode: Mode, description: string): IntentResult {
    match mode
    case KeywordMode => KeywordClassify(description)
    case ModelMode(ask) => ModelClassify(ask, description)
  }

  /** `getattr(incident, "description", "") if incident else ""`. */
  function DescriptionOf(incident: Option<IncidentData>): (d: string)
    ensures incident.Some? ==> d == incident.value.description
  {
    if incident.Some? then incident.value.description else ""
  }

  /** Keyword mode ignores letter case: an upper-cased description gets the same verdict. */
  lemma KeywordCaseInsensitive(description: string)
    ensures KeywordClassify(Upper(description)) == KeywordClassify(description)
    ensures KeywordClassify(Lower(description)) == KeywordClassify(description)
  {
    LowerUpper(description);
    LowerIdempotent(description);
  }

  /** A valid description stays valid whatever text is put before or after it. */
  lemma KeywordValidExtends(description: string, extra: string)
    requires KeywordClassify(description).isValid
    ensures KeywordClassify(description + extra).isValid && KeywordClassify(extra + description).isValid
  {
    LowerConcat(description, extra);
    LowerConcat(extra, description);
    ContainsAnyExtend(Lower(description), Lower(extra), IntentKeywords);
  }

  /** No keyword is empty, so an empty description, and hence a missing incident, is not an incident in keyword mode. */
  lemma MissingIncidentInvalid()
    ensures !KeywordClassify(DescriptionOf(None)).isValid
    ensures !KeywordClassify("").isValid
  {
    forall w | w in IntentKeywords ensures !Contains("", w) {
      assert |w| > 0;
    }
  }

  /** The state after the verdict is recorded by `classify_input`. */
  function Recorded(s: Snapshot, r: IntentResult): Snapshot {
    s.(isIntentValid := Some(r.isValid), intentClassificationReason := Some(r.reasoning),
       currentAgent := Some(if r.isValid then "tribe_orchestrator" else "fallback-handler"),
       workflowStatus := Some("initialized"))
  }

  /** The state after `classify_input` in `mode`: the verdict recorded, the next stage chosen, the status reset. */
  function AfterClassifyInput(mode: Mode, s: Snapshot): Snapshot {
    Recorded(s, Classify(mode, DescriptionOf(Some(s.incident))))
  }

  /**
   * `classify_input` hands a valid input to the orchestrator and anything
   * else to the fallback handler, and touches no other field.
   */
  lemma ClassifyInputRoutes(mode: Mode, s: Snapshot)
    ensures var r := AfterClassifyInput(mode, s);
      var valid := Classify(mode, s.incident.description).isValid;
      && (r.currentAgent == Some("tribe_orchestrator") <==> valid)
      && (r.currentAgent == Some("fallback-handler") <==> !valid)
      && r.isIntentValid == Some(valid) && r.workflowStatus == Some("initialized")
      && r.(isIntentValid := s.isIntentValid, intentClassificationReason := s.intentClassificationReason,
            currentAgent := s.currentAgent, workflowStatus := s.workflowStatus) == s
  {
  }

  /** In keyword mode the orchestrator gets exactly the descriptions that mention a keyword. */
  lemma KeywordRoutes(s: Snapshot)
    ensures AfterClassifyInput(KeywordMode, s).currentAgent == Some("tribe_orchestrator") <==>
      ContainsAny(Lower(s.incident.description), IntentKeywords)
  {
  }

  /** The state after `fallback_handler`. */
  function AfterFallback(s: Snapshot): Snapshot {
    s.(workflowStatus := Some("non_actionable"), currentAgent := Some("none"))
  }

  /** The fallback handler marks the input non-actionable, names no next stage, and is idempotent. */
  lemma FallbackHandlerSpec(s: Snapshot)
    ensures var r := AfterFallback(s);
      && r.workflowStatus == Some("non_actionable") && r.currentAgent == Some("none")
      && r.(workflowStatus := s.workflowStatus, currentAgent := s.currentAgent) == s
      && AfterFallback(r) == r
  {
  }

  method Record(st: State, result: IntentResult)
    modifies st
    ensures st.Snap() == Recorded(old(st.Snap()), result)
  {
    st.isIntentValid := Some(result.isValid);
    st.intentClassificationReason := Some(result.reasoning);
    st.currentAgent := Some(if result.isValid then "tribe_orchestrator" else "fallback-handler");
    st.workflowStatus := Some("initialized");
  }

  method ClassifyInput(st: State, mode: Mode)
    modifies st
    ensures st.Snap() == AfterClassifyInput(mode, old(st.Snap()))
  {
    var result := Classify(mode, DescriptionOf(Some(st.incident)));
    Record(st, result);
  }

  method FallbackHandler(st: State)
    modifies st
    ensures st.Snap() == AfterFallback(old(st.Snap()))
  {
    st.workflowStatus := Some("non_actionable");
    st.currentAgent := Some("none");
  }
}
