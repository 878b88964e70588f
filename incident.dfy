// The incident record every run is about.  The timestamp is kept as the
// ISO-8601 text `isoformat()` would produce.
module Incidents {
  import opened Wrappers
  import opened Dicts
  import opened Values
  import opened Enums

  datatype IncidentData = IncidentData(
    incidentId: string,
    timestamp: string,
    severity: Severity,
    category: Option<Category>,
    description: string,
    affectedSystems: seq<string>,
    symptoms: seq<string>,
    metadata: Dict<Value>)

  /** The dataclass constructor with only the required fields given. */
  function NewIncident(incidentId: string, timestamp: string, severity: Severity): (inc: IncidentData)
    ensures inc.incidentId == incidentId && inc.timestamp == timestamp && inc.severity == severity
    ensures inc.category.None? && inc.description == ""
    ensures inc.affectedSystems == [] && inc.symptoms == [] && inc.metadata == []
  {
    IncidentData(incidentId, timestamp, severity, None, "", [], [], [])
  }

  function CategoryValue(c: Option<Category>): Value {
    if c.Some? then VStr(c.value.Value()) else VNone
  }

  /** `IncidentData.to_dict()`: eight keys, enums by value, a missing category as None. */
  function ToDict(inc: IncidentData): (d: Dict<Value>)
    ensures Keys(d) == ["incident_id", "timestamp", "severity", "category", "description",
                        "affected_systems", "symptoms", "metadata"]
    ensures d[0].1 == VStr(inc.incidentId) && d[1].1 == VStr(inc.timestamp)
    ensures d[2].1 == VStr(inc.severity.Value()) && d[3].1 == CategoryValue(inc.category)
    ensures d[4].1 == VStr(inc.description)
    ensures d[5].1 == StrList(inc.affectedSystems) && d[6].1 == StrList(inc.symptoms)
    ensures d[7].1 == VDict(inc.metadata)
  {
    var d := [("incident_id", VStr(inc.incidentId)),
     ("timestamp", VStr(inc.timestamp)),
     ("severity", VStr(inc.severity.Value())),
     ("category", CategoryValue(inc.category)),
     ("description", VStr(inc.description)),
     ("affected_systems", StrList(inc.affectedSystems)),
     ("symptoms", StrList(inc.symptoms)),
     ("metadata", VDict(inc.metadata))];
    d
  }

  /** `to_dict` loses nothing: two incidents with the same dictionary are the same incident. */
  lemma ToDictInjective(a: IncidentData, b: IncidentData)
    requires ToDict(a) == ToDict(b)
    ensures a == b
  {
    var da, db := ToDict(a), ToDict(b);
    assert da[2] == db[2];
    assert SeverityFromValue(a.severity.Value()) == Some(a.severity);
    assert SeverityFromValue(b.severity.Value()) == Some(b.severity);
    assert da[3] == db[3];
    if a.category.Some? {
      assert CategoryFromValue(a.category.value.Value()) == Some(a.category.value);
      assert b.category.Some? && CategoryFromValue(b.category.value.Value()) == Some(b.category.value);
    }
    assert da[5] == db[5];
    assert StrList(a.affectedSystems).items == StrList(b.affectedSystems).items;
    assert a.affectedSystems == b.affectedSystems;
    assert da[6] == db[6];
    assert a.symptoms == b.symptoms;
  }
}
