// The first chat front end's intake (`chainlit_v0.1.py`): the same JSON
// reading and the same keyword rules with shorter lists, symptoms taken
// from the text after a "symptoms:" marker, and an incident summary that
// lists at most three of them.
module IntakeV01 {
  import opened Wrappers
  import opened Text
  import opened Values
  import opened Enums
  import opened Incidents
  import Intake

  const CriticalWords: seq<string> := ["critical", "down", "outage", "emergency", "urgent"]
  const HighWords: seq<string> := ["high", "severe", "major", "serious"]
  const LowWords: seq<string> := ["low", "minor", "small"]

  const CategoryGroups: seq<Intake.Group> := [
    (DatabasePerformance, ["database", "db", "sql", "query", "connection"]),
    (CpuUtilization, ["cpu", "processor", "load", "compute"]),
    (MemoryUtilization, ["memory", "ram", "leak"]),
    (DiskUtilization, ["disk", "storage", "space", "filesystem"]),
    (NetworkConnectivity, ["network", "connectivity", "routing", "latency"]),
    (ApplicationPerformance, ["application", "app", "service", "api"]),
    (SecurityIncident, ["security", "breach", "attack", "unauthorized"]),
    (BackupFailure, ["backup", "restore", "recovery"])]

  const SymptomMarker := "symptoms:"

  /** The characters of `re.split(r"[,;.\n]", ...)`. */
  const SymptomDelimiters: set<char> := {',', ';', '.', '\n'}

  /** Every piece, trimmed. */
  function Trimmed(pieces: seq<string>): (t: seq<string>)
    ensures |t| == |pieces|
    ensures forall i :: 0 <= i < |pieces| ==> t[i] == Strip(pieces[i])
  {
    seq(|pieces|, i requires 0 <= i < |pieces| => Strip(pieces[i]))
  }

  /**
   * `r` is `items` at the increasing positions `idx`, and those positions
   * are all the non-empty items: `r` keeps the non-empty items, in order,
   * each as often as it occurs.
   */
  ghost predicate KeptInOrder(r: seq<string>, items: seq<string>, idx: seq<nat>) {
    && |idx| == |r|
    && (forall k :: 0 <= k < |idx| ==> idx[k] < |items| && r[k] == items[idx[k]])
    && (forall k, l :: 0 <= k < l < |idx| ==> idx[k] < idx[l])
    && (forall j :: 0 <= j < |items| && items[j] != [] ==> j in idx)
  }

  /**
   * `rest` is `items` at the increasing positions `pos`, all after the
   * first, and those are all the non-empty items after the first.
   */
  ghost predicate KeptAfterFirst(rest: seq<string>, items: seq<string>, pos: seq<nat>) {
    && |pos| == |rest|
    && (forall k :: 0 <= k < |pos| ==> 0 < pos[k] < |items| && rest[k] == items[pos[k]])
    && (forall k, l :: 0 <= k < l < |pos| ==> pos[k] < pos[l])
    && (forall j :: 0 < j < |items| && items[j] != [] ==> j in pos)
  }

  /** The positions of a selection from the items after the first, as positions in all of them. */
  lemma Shifted(items: seq<string>, rest: seq<string>, idx: seq<nat>) returns (shifted: seq<nat>)
    requires items != [] && KeptInOrder(rest, items[1..], idx)
    ensures KeptAfterFirst(rest, items, shifted)
  {
    shifted := seq(|idx|, k requires 0 <= k < |idx| => idx[k] + 1);
    forall j | 0 < j < |items| && items[j] != [] ensures j in shifted {
      assert items[1..][j - 1] == items[j];
      var k :| 0 <= k < |idx| && idx[k] == j - 1;
      assert shifted[k] == j;
    }
  }

  /** Keeping a non-empty first item extends the selection of the rest. */
  lemma KeptInOrderKeep(items: seq<string>, rest: seq<string>, pos: seq<nat>) returns (idx: seq<nat>)
    requires items != [] && items[0] != [] && KeptAfterFirst(rest, items, pos)
    ensures KeptInOrder([items[0]] + rest, items, idx)
  {
    var r := [items[0]] + rest;
    idx := [0] + pos;
    forall k | 0 <= k < |idx| ensures idx[k] < |items| && r[k] == items[idx[k]] {
      if k > 0 {
        assert idx[k] == pos[k - 1] && r[k] == rest[k - 1];
      }
    }
    forall k, l | 0 <= k < l < |idx| ensures idx[k] < idx[l] {
      assert idx[l] == pos[l - 1];
      if k > 0 {
        assert idx[k] == pos[k - 1];
      }
    }
    forall j | 0 <= j < |items| && items[j] != [] ensures j in idx {
      if j > 0 {
        assert j in pos;
      }
    }
  }

  /** Dropping an empty first item keeps the selection of the rest. */
  lemma KeptInOrderDrop(items: seq<string>, rest: seq<string>, pos: seq<nat>)
    requires items != [] && items[0] == [] && KeptAfterFirst(rest, items, pos)
    ensures KeptInOrder(rest, items, pos)
  {
    forall j | 0 <= j < |items| && items[j] != [] ensures j in pos {
      assert j != 0;
    }
  }

  /** The in-order selection step for the trimmed pieces. */
  lemma TrimmedCons(pieces: seq<string>, rest: seq<string>, kept: seq<string>)
    requires pieces != [] && exists idx :: KeptInOrder(rest, Trimmed(pieces[1..]), idx)
    requires kept == if Strip(pieces[0]) != [] then [Strip(pieces[0])] + rest else rest
    ensures exists idx :: KeptInOrder(kept, Trimmed(pieces), idx)
  {
    var idx :| KeptInOrder(rest, Trimmed(pieces[1..]), idx);
    var t := Trimmed(pieces);
    assert t[1..] == Trimmed(pieces[1..]);
    var pos := Shifted(t, rest, idx);
    if t[0] != [] {
      var idx' := KeptInOrderKeep(t, rest, pos);
    } else {
      KeptInOrderDrop(t, rest, pos);
    }
  }

  /** `[p.strip() for p in pieces if p.strip()]`: the non-blank pieces, trimmed, in their order. */
  function NonEmptyStripped(pieces: seq<string>): (r: seq<string>)
    ensures |r| <= |pieces|
    ensures forall x :: x in r ==> x != [] && exists p :: p in pieces && x == Strip(p)
    ensures forall p :: p in pieces && Strip(p) != [] ==> Strip(p) in r
  {
    if pieces == [] then []
    else
      var rest := NonEmptyStripped(pieces[1..]);
      assert forall p :: p in pieces[1..] ==> p in pieces;
      if Strip(pieces[0]) != [] then [Strip(pieces[0])] + rest else rest
  }

  /** The comprehension keeps every non-blank piece, trimmed, in order and as often as it occurs. */
  lemma {:induction false} NonEmptyStrippedInOrder(pieces: seq<string>)
    ensures exists idx :: KeptInOrder(NonEmptyStripped(pieces), Trimmed(pieces), idx)
    decreases |pieces|
  {
    if pieces == [] {
      assert KeptInOrder(NonEmptyStripped(pieces), Trimmed(pieces), []);
    } else {
      NonEmptyStrippedInOrder(pieces[1..]);
      TrimmedCons(pieces, NonEmptyStripped(pieces[1..]), NonEmptyStripped(pieces));
    }
  }

  /** The symptoms listed after the first marker of the lower-cased text; none without a marker. */
  function MarkedSymptoms(text: string): (r: seq<string>)
    ensures !Contains(text, SymptomMarker) ==> r == []
    ensures forall x :: x in r ==> x != [] && !IsSpace(x[0]) && !IsSpace(x[|x| - 1])
    ensures forall x :: x in r ==> forall c :: c in x ==> c !in SymptomDelimiters
    ensures Contains(text, SymptomMarker) ==>
      forall p :: p in SplitAny(AfterFirst(text, SymptomMarker), SymptomDelimiters) && Strip(p) != [] ==> Strip(p) in r
  {
    if !Contains(text, SymptomMarker) then []
    else
      var pieces := SplitAny(AfterFirst(text, SymptomMarker), SymptomDelimiters);
      var r := NonEmptyStripped(pieces);
      assert forall x :: x in r ==> forall c :: c in x ==> c !in SymptomDelimiters by {
        forall x | x in r ensures forall c :: c in x ==> c !in SymptomDelimiters {
          var p :| p in pieces && x == Strip(p);
          StripChars(p);
        }
      }
      r
  }

  /**
   * With a marker, the symptoms are the non-blank pieces of the text after
   * it, trimmed, in their order: the summary's first three are the first
   * three listed.
   */
  lemma MarkedSymptomsInOrder(text: string)
    ensures Contains(text, SymptomMarker) ==>
      exists idx :: KeptInOrder(MarkedSymptoms(text), Trimmed(SplitAny(AfterFirst(text, SymptomMarker), SymptomDelimiters)), idx)
  {
    if Contains(text, SymptomMarker) {
      var pieces := SplitAny(AfterFirst(text, SymptomMarker), SymptomDelimiters);
      assert MarkedSymptoms(text) == NonEmptyStripped(pieces);
      NonEmptyStrippedInOrder(pieces);
    }
  }

  /** One listed symptom: the trimmed text after the marker, when it has no delimiter and is not blank. */
  lemma SingleMarkedSymptom(text: string)
    requires Contains(text, SymptomMarker)
    requires forall c :: c in AfterFirst(text, SymptomMarker) ==> c !in SymptomDelimiters
    requires Strip(AfterFirst(text, SymptomMarker)) != []
    ensures MarkedSymptoms(text) == [Strip(AfterFirst(text, SymptomMarker))]
  {
    SplitAnyWhole(AfterFirst(text, SymptomMarker), SymptomDelimiters);
  }

  /** `parse_natural_language_incident` of this front end. */
  function NaturalIncident(description: string, counter: nat, date: string, now: string, systems: seq<string>): IncidentData {
    var text := Lower(description);
    IncidentData(Intake.IncidentId(date, counter), now,
                 Intake.SeverityRule(text, CriticalWords, HighWords, LowWords),
                 Intake.FirstMatch(text, CategoryGroups),
                 description, systems, MarkedSymptoms(text), Intake.NaturalMetadata)
  }

  /** `parse_incident_input` of this front end: the same dispatch as the later one, with this natural parser. */
  function ParseIncidentInput(input: string, decoded: Result<Intake.JsonIncident, string>, counter: nat, date: string,
                              now: string, systems: seq<string>): IncidentData {
    var natural := NaturalIncident(input, counter, date, now, systems);
    if !StartsWith(Strip(input), "{") then natural
    else match decoded
      case Failure(_) => natural
      case Success(j) =>
        match Intake.StructuredIncident(j, counter, date, now)
        case Success(inc) => inc
        case Failure(_) => natural
  }

  /** The structured reading is used exactly when the input looks like an object, decodes, and its enums exist. */
  lemma ParseDispatch(input: string, decoded: Result<Intake.JsonIncident, string>, counter: nat, date: string, now: string,
                      systems: seq<string>)
    ensures var r := ParseIncidentInput(input, decoded, counter, date, now, systems);
      var structured := StartsWith(Strip(input), "{") && decoded.Success?
                        && Intake.StructuredIncident(decoded.value, counter, date, now).Success?;
      && (structured ==> r == Intake.StructuredIncident(decoded.value, counter, date, now).value)
      && (!structured ==> r == NaturalIncident(input, counter, date, now, systems))
  {
  }

  /** What this natural-language parser promises about symptoms: trimmed, non-empty pieces, present only after the marker. */
  lemma NaturalIncidentSymptoms(description: string, counter: nat, date: string, now: string, systems: seq<string>)
    ensures var inc := NaturalIncident(description, counter, date, now, systems);
      && (!Contains(Lower(description), SymptomMarker) ==> inc.symptoms == [])
      && forall x :: x in inc.symptoms ==> x != [] && Strip(x) == x && forall c :: c in x ==> c !in SymptomDelimiters
  {
    var inc := NaturalIncident(description, counter, date, now, systems);
    forall x | x in inc.symptoms ensures Strip(x) == x {
      assert x != [] && !IsSpace(x[0]) && !IsSpace(x[|x| - 1]);
      assert StripLeft(x) == x;
      assert StripRight(x) == x;
    }
  }

  /** "connection" is only in the database group, so it always means a database incident. */
  lemma ConnectionIsDatabase(description: string, counter: nat, date: string, now: string, systems: seq<string>)
    requires Contains(Lower(description), "connection")
    ensures NaturalIncident(description, counter, date, now, systems).category == Some(DatabasePerformance)
  {
    assert "connection" in CategoryGroups[0].1;
    Intake.FirstMatchAt(Lower(description), CategoryGroups, 0);
  }

  /**
   * Each of this version's lists is contained in the later version's, so
   * the later parser rates every description at least as high on the
   * severity ladder and finds a category wherever this one does.
   */
  lemma LaterParserFindsMore(description: string, counter: nat, date: string, now: string, systems: seq<string>)
    ensures Intake.Rung(NaturalIncident(description, counter, date, now, systems).severity)
         <= Intake.Rung(Intake.NaturalIncident(description, counter, date, now, systems).severity)
    ensures NaturalIncident(description, counter, date, now, systems).category.Some? ==>
            Intake.NaturalIncident(description, counter, date, now, systems).category.Some?
  {
    var text := Lower(description);
    Intake.SeverityRuleCovered(text, CriticalWords, HighWords, LowWords,
                               Intake.CriticalWords, Intake.HighWords, Intake.LowWords);
    assert forall i :: 0 <= i < |CategoryGroups| ==> Intake.Covers(CategoryGroups[i].1, Intake.CategoryGroups[i].1);
    if Intake.FirstMatch(text, CategoryGroups).Some? {
      Intake.FirstMatchCovered(text, CategoryGroups, Intake.CategoryGroups);
    }
  }

  /** `incident.symptoms[:3]`. */
  function ShownSymptoms(symptoms: seq<string>): (r: seq<string>)
    ensures |r| <= 3 && |r| <= |symptoms| && r == symptoms[..|r|]
    ensures r == symptoms <==> |symptoms| <= 3
  {
    if |symptoms| <= 3 then symptoms else symptoms[..3]
  }

  const SymptomsLabel := "**\U{1FA7A} Symptoms:** "

  /** The symptom line of `create_incident_summary`: absent without symptoms, "..." after the third. */
  function SymptomsLine(symptoms: seq<string>): string {
    if symptoms == [] then ""
    else SymptomsLabel + Join(ShownSymptoms(symptoms), ", ") + (if |symptoms| > 3 then "..." else "") + "\n"
  }

  /** No symptoms, no line; up to three symptoms are all listed, without "...". */
  lemma SymptomsLineShowsAll(symptoms: seq<string>)
    ensures symptoms == [] <==> SymptomsLine(symptoms) == ""
    ensures 0 < |symptoms| <= 3 ==> SymptomsLine(symptoms) == SymptomsLabel + Join(symptoms, ", ") + "\n"
  {
  }

  /** Beyond three symptoms the line lists the first three and ends in "...". */
  lemma SymptomsLineTruncates(symptoms: seq<string>)
    requires |symptoms| > 3
    ensures SymptomsLine(symptoms) == SymptomsLabel + Join(symptoms[..3], ", ") + "...\n"
    ensures EndsWith(SymptomsLine(symptoms), "...\n")
  {
    var line := SymptomsLine(symptoms);
    var head := SymptomsLabel + Join(symptoms[..3], ", ");
    assert line == head + "..." + "\n";
    assert head + "..." + "\n" == head + "...\n";
    assert line[|line| - 4..] == "...\n";
  }
}
