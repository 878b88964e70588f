// The chat front end's incident intake (`chainlit.py`): a JSON object is
// read field by field, anything else is parsed as natural language by
// fixed keyword lists: a severity ladder, the first matching category group,
// and the symptom words present.  The keyword rules are stated generically
// once and instantiated with this version's lists; the older front end
// reuses them with its own lists.
module Intake {
  import opened Wrappers
  import opened Text
  import opened Dicts
  import opened Values
  import opened Enums
  import opened Incidents

  // ---- generic keyword rules ----

  /** The severity ladder: critical words beat high words, high beats low, and no match is medium. */
  function SeverityRule(text: string, critical: seq<string>, high: seq<string>, low: seq<string>): (r: Severity)
    ensures r == Critical <==> ContainsAny(text, critical)
    ensures r == High <==> !ContainsAny(text, critical) && ContainsAny(text, high)
    ensures r == Low <==> !ContainsAny(text, critical) && !ContainsAny(text, high) && ContainsAny(text, low)
    ensures r == Medium <==> !ContainsAny(text, critical) && !ContainsAny(text, high) && !ContainsAny(text, low)
  {
    if ContainsAny(text, critical) then Critical
    else if ContainsAny(text, high) then High
    else if ContainsAny(text, low) then Low
    else Medium
  }

  /** How early a severity is tested on the ladder (the default last). */
  function Rung(s: Severity): nat {
    match s
    case Critical => 3
    case High => 2
    case Low => 1
    case Medium => 0
  }

  /** A category and the words that select it. */
  type Group = (Category, seq<string>)

  /** The category of the first group one of whose words occurs in `text`. */
  function FirstMatch(text: string, groups: seq<Group>): (r: Option<Category>)
    ensures r.None? <==> forall i :: 0 <= i < |groups| ==> !ContainsAny(text, groups[i].1)
    ensures r.Some? ==> exists i :: 0 <= i < |groups| && groups[i].0 == r.value && ContainsAny(text, groups[i].1)
                          && forall j :: 0 <= j < i ==> !ContainsAny(text, groups[j].1)
  {
    if groups == [] then None
    else if ContainsAny(text, groups[0].1) then Some(groups[0].0)
    else
      var r := FirstMatch(text, groups[1..]);
      assert forall i :: 1 <= i < |groups| ==> groups[i] == groups[1..][i - 1];
      if r.Some? then
        var k :| 0 <= k < |groups[1..]| && groups[1..][k].0 == r.value && ContainsAny(text, groups[1..][k].1)
                 && forall j :: 0 <= j < k ==> !ContainsAny(text, groups[1..][j].1);
        assert groups[k + 1] == groups[1..][k];
        r
      else r
  }

  /** A group that matches decides the category unless an earlier group matches too. */
  lemma {:induction false} FirstMatchAt(text: string, groups: seq<Group>, i: nat)
    requires i < |groups| && ContainsAny(text, groups[i].1)
    requires forall j :: 0 <= j < i ==> !ContainsAny(text, groups[j].1)
    ensures FirstMatch(text, groups) == Some(groups[i].0)
    decreases i
  {
    if i > 0 {
      assert forall j :: 0 <= j < i - 1 ==> groups[1..][j] == groups[j + 1];
      FirstMatchAt(text, groups[1..], i - 1);
    }
  }

  /** `[w for w in words if w in text]`: the words of `words` that occur, in their order. */
  function WordsIn(text: string, words: seq<string>): (r: seq<string>)
    ensures forall w :: w in r <==> w in words && Contains(text, w)
    ensures Sublist(r, words)
  {
    if words == [] then []
    else if Contains(text, words[0]) then [words[0]] + WordsIn(text, words[1..])
    else WordsIn(text, words[1..])
  }

  /** `xs` is `ys` with some elements left out and the rest kept in order. */
  predicate Sublist(xs: seq<string>, ys: seq<string>)
    decreases |ys|
  {
    if xs == [] then true
    else if ys == [] then false
    else if xs[0] == ys[0] then Sublist(xs[1..], ys[1..])
    else Sublist(xs, ys[1..])
  }

  // ---- growing the text ----

  /** Every word list is contained in its counterpart: `a` is pointwise at most `b`. */
  predicate Covers(a: seq<string>, b: seq<string>) {
    forall w :: w in a ==> w in b
  }

  lemma ContainsAnyCovered(text: string, a: seq<string>, b: seq<string>)
    requires Covers(a, b) && ContainsAny(text, a)
    ensures ContainsAny(text, b)
  {
  }

  /** Adding text never moves the verdict down the ladder. */
  lemma SeverityRuleExtends(a: string, b: string, critical: seq<string>, high: seq<string>, low: seq<string>)
    ensures Rung(SeverityRule(a, critical, high, low)) <= Rung(SeverityRule(a + b, critical, high, low))
  {
    if ContainsAny(a, critical) { ContainsAnyExtend(a, b, critical); }
    else if ContainsAny(a, high) { ContainsAnyExtend(a, b, high); }
    else if ContainsAny(a, low) { ContainsAnyExtend(a, b, low); }
  }

  /** Longer lists never move the verdict down the ladder. */
  lemma SeverityRuleCovered(text: string, c1: seq<string>, h1: seq<string>, l1: seq<string>,
                            c2: seq<string>, h2: seq<string>, l2: seq<string>)
    requires Covers(c1, c2) && Covers(h1, h2) && Covers(l1, l2)
    ensures Rung(SeverityRule(text, c1, h1, l1)) <= Rung(SeverityRule(text, c2, h2, l2))
  {
    if ContainsAny(text, c1) { ContainsAnyCovered(text, c1, c2); }
    else if ContainsAny(text, h1) { ContainsAnyCovered(text, h1, h2); }
    else if ContainsAny(text, l1) { ContainsAnyCovered(text, l1, l2); }
  }

  /** With each group's words contained in the same group of `b`, whatever `a` finds a category for, `b` does too. */
  lemma FirstMatchCovered(text: string, a: seq<Group>, b: seq<Group>)
    requires |a| == |b| && forall i :: 0 <= i < |a| ==> Covers(a[i].1, b[i].1)
    requires FirstMatch(text, a).Some?
    ensures FirstMatch(text, b).Some?
  {
    var i :| 0 <= i < |a| && a[i].0 == FirstMatch(text, a).value && ContainsAny(text, a[i].1)
             && forall j :: 0 <= j < i ==> !ContainsAny(text, a[j].1);
    ContainsAnyCovered(text, a[i].1, b[i].1);
  }

  // ---- this version's lists ----

  const CriticalWords: seq<string> := ["critical", "down", "outage", "emergency", "urgent", "crashed", "failed completely"]
  const HighWords: seq<string> := ["high", "severe", "major", "serious", "significant", "badly"]
  const LowWords: seq<string> := ["low", "minor", "small", "slight", "trivial"]

  const DatabaseWords: seq<string> := ["database", "db", "sql", "query", "connection", "mysql", "postgres", "mongodb", "oracle"]

  /** The category groups in the order they are tested. */
  const CategoryGroups: seq<Group> := [
    (DatabasePerformance, DatabaseWords),
    (CpuUtilization, ["cpu", "processor", "load", "compute", "cores", "processing"]),
    (MemoryUtilization, ["memory", "ram", "leak", "oom", "out of memory"]),
    (DiskUtilization, ["disk", "storage", "space", "filesystem", "capacity", "volume"]),
    (NetworkConnectivity, ["network", "connectivity", "routing", "latency", "timeout", "connection"]),
    (ApplicationPerformance, ["application", "app", "service", "api", "web", "website"]),
    (SecurityIncident, ["security", "breach", "attack", "unauthorized", "hack", "malware"]),
    (BackupFailure, ["backup", "restore", "recovery", "snapshot"])]

  const SymptomWords: seq<string> := ["slow", "timeout", "error", "fail", "crash", "hang", "freeze", "lag", "delay"]

  /** `f"INC-{date}-{counter:03d}"`, with the date as `strftime('%Y%m%d')` renders it. */
  function IncidentId(date: string, counter: nat): string {
    "INC-" + date + "-" + Pad3(counter)
  }

  const NaturalMetadata: Dict<Value> := [("source", VStr("chainlit_interface")), ("parsed_from", VStr("natural_language"))]

  /**
   * `parse_natural_language_incident`.  `date` and `now` are the clock
   * readings; `systems` is what the host-name pattern extracted.
   */
  function NaturalIncident(description: string, counter: nat, date: string, now: string, systems: seq<string>): IncidentData {
    var text := Lower(description);
    IncidentData(IncidentId(date, counter), now,
                 SeverityRule(text, CriticalWords, HighWords, LowWords),
                 FirstMatch(text, CategoryGroups),
                 description, systems, WordsIn(text, SymptomWords), NaturalMetadata)
  }

  /** What natural-language parsing promises about the incident it builds. */
  lemma NaturalIncidentSpec(description: string, counter: nat, date: string, now: string, systems: seq<string>)
    ensures var inc := NaturalIncident(description, counter, date, now, systems);
      var text := Lower(description);
      && inc.description == description && inc.incidentId == IncidentId(date, counter)
      && (inc.severity == Critical <==> ContainsAny(text, CriticalWords))
      && (inc.severity == Medium <==>
            !ContainsAny(text, CriticalWords) && !ContainsAny(text, HighWords) && !ContainsAny(text, LowWords))
      && (inc.category.None? <==> forall i :: 0 <= i < |CategoryGroups| ==> !ContainsAny(text, CategoryGroups[i].1))
      && (forall w :: w in inc.symptoms <==> w in SymptomWords && Contains(text, w))
      && Sublist(inc.symptoms, SymptomWords)
  {
  }

  /** "connection" is in the database group, tested first, so it always means a database incident. */
  lemma ConnectionIsDatabase(description: string, counter: nat, date: string, now: string, systems: seq<string>)
    requires Contains(Lower(description), "connection")
    ensures NaturalIncident(description, counter, date, now, systems).category == Some(DatabasePerformance)
  {
    assert "connection" in CategoryGroups[0].1;
    FirstMatchAt(Lower(description), CategoryGroups, 0);
  }

  /** Appending to a description never lowers the severity it is given. */
  lemma NaturalSeverityExtends(description: string, extra: string, counter: nat, date: string, now: string, systems: seq<string>)
    ensures Rung(NaturalIncident(description, counter, date, now, systems).severity)
         <= Rung(NaturalIncident(description + extra, counter, date, now, systems).severity)
  {
    LowerConcat(description, extra);
    SeverityRuleExtends(Lower(description), Lower(extra), CriticalWords, HighWords, LowWords);
  }

  // ---- structured input ----

  /**
   * The object `json.loads` returned, field by field: None when the key is
   * absent.  Severity and category keep their raw JSON value, since the
   * enum lookup is what can fail.
   */
  datatype JsonIncident = JsonIncident(
    incidentId: Option<string>, severity: Option<Value>, category: Option<Value>, description: Option<string>,
    affectedSystems: Option<seq<string>>, symptoms: Option<seq<string>>, metadata: Option<Dict<Value>>)

  /** `IncidentSeverity(v)`: a ValueError unless `v` is one of the severity strings. */
  function SeverityOf(v: Value): (r: Result<Severity, string>)
    ensures r.Success? <==> v.VStr? && SeverityFromValue(v.s).Some?
    ensures r.Success? ==> r.value.Value() == v.s
  {
    if v.VStr? && SeverityFromValue(v.s).Some? then Success(SeverityFromValue(v.s).value) else Failure("ValueError")
  }

  /** `IncidentCategory(v) if v else None`: a falsy value is no category, a truthy one must be a category string. */
  function CategoryOf(v: Option<Value>): (r: Result<Option<Category>, string>)
    ensures v.None? || !Truthy(v.value) ==> r == Success(None)
    ensures r.Success? && r.value.Some? ==> v == Some(VStr(r.value.value.Value()))
  {
    if v.None? || !Truthy(v.value) then Success(None)
    else if v.value.VStr? && CategoryFromValue(v.value.s).Some? then Success(CategoryFromValue(v.value.s))
    else Failure("ValueError")
  }

  /** The `IncidentData(...)` call of the structured branch; it fails exactly where an enum lookup raises. */
  function StructuredIncident(j: JsonIncident, counter: nat, date: string, now: string): (r: Result<IncidentData, string>)
    ensures r.Success? <==> SeverityOf(j.severity.GetOr(VStr("medium"))).Success? && CategoryOf(j.category).Success?
  {
    var severity :- SeverityOf(j.severity.GetOr(VStr("medium")));
    var category :- CategoryOf(j.category);
    Success(IncidentData(j.incidentId.GetOr(IncidentId(date, counter)), now, severity, category,
                         j.description.GetOr(""), j.affectedSystems.GetOr([]), j.symptoms.GetOr([]),
                         j.metadata.GetOr([])))
  }

  /** The JSON object an incident would be written as. */
  function JsonOf(inc: IncidentData): JsonIncident {
    JsonIncident(Some(inc.incidentId), Some(VStr(inc.severity.Value())), Some(CategoryValue(inc.category)),
                 Some(inc.description), Some(inc.affectedSystems), Some(inc.symptoms), Some(inc.metadata))
  }

  /** Reading an incident's own JSON gives the incident back, stamped with the current time. */
  lemma StructuredRoundTrip(inc: IncidentData, counter: nat, date: string, now: string)
    ensures StructuredIncident(JsonOf(inc), counter, date, now) == Success(inc.(timestamp := now))
  {
    assert SeverityFromValue(inc.severity.Value()) == Some(inc.severity);
    if inc.category.Some? {
      assert CategoryFromValue(inc.category.value.Value()) == Some(inc.category.value);
    }
  }

  /** An empty object gives the defaults: a generated id, medium severity, no category, nothing else. */
  lemma StructuredDefaults(counter: nat, date: string, now: string)
    ensures StructuredIncident(JsonIncident(None, None, None, None, None, None, None), counter, date, now)
         == Success(IncidentData(IncidentId(date, counter), now, Medium, None, "", [], [], []))
  {
    assert SeverityFromValue("medium") == Some(Medium);
  }

  /**
   * `parse_incident_input`: `decoded` is what `json.loads` makes of the
   * input (the decode error's text on failure); it is consulted only when
   * the stripped input starts with "{".  A decode error or a failed enum
   * lookup falls back to natural-language parsing of the raw input.
   */
  function ParseIncidentInput(input: string, decoded: Result<JsonIncident, string>, counter: nat, date: string, now: string,
                              systems: seq<string>): IncidentData {
    var natural := NaturalIncident(input, counter, date, now, systems);
    if !StartsWith(Strip(input), "{") then natural
    else match decoded
      case Failure(_) => natural
      case Success(j) =>
        match StructuredIncident(j, counter, date, now)
        case Success(inc) => inc
        case Failure(_) => natural
  }

  /** The structured reading is used exactly when the input looks like an object, decodes, and its enums exist. */
  lemma ParseDispatch(input: string, decoded: Result<JsonIncident, string>, counter: nat, date: string, now: string,
                      systems: seq<string>)
    ensures var r := ParseIncidentInput(input, decoded, counter, date, now, systems);
      var structured := StartsWith(Strip(input), "{") && decoded.Success?
                        && StructuredIncident(decoded.value, counter, date, now).Success?;
      && (structured ==> r == StructuredIncident(decoded.value, counter, date, now).value)
      && (!structured ==> r == NaturalIncident(input, counter, date, now, systems))
  {
  }

  /** Text that does not start with "{" is never read as JSON, whatever `json.loads` would make of it. */
  lemma PlainTextIsNatural(input: string, decoded: Result<JsonIncident, string>, counter: nat, date: string, now: string,
                           systems: seq<string>)
    requires input != [] && input[0] != '{' && !IsSpace(input[0])
    ensures ParseIncidentInput(input, decoded, counter, date, now, systems) == NaturalIncident(input, counter, date, now, systems)
  {
    assert StripLeft(input) == input;
    StripRightKeepsHead(input);
    assert !StartsWith(Strip(input), "{");
  }
}
