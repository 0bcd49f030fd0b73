/** The risk record (models/Risk.ts): severity and status enums with their
    defaults, required references and texts. */
module RiskModel {

  import opened Common

  datatype RiskSeverity = Low | Medium | High
  datatype RiskStatus = Open | Resolved

  function SeverityLabel(s: RiskSeverity): string
  {
    match s
    case Low => "Low"
    case Medium => "Medium"
    case High => "High"
  }

  function StatusLabel(s: RiskStatus): string
  {
    match s
    case Open => "Open"
    case Resolved => "Resolved"
  }

  /** The enum check on `severity`: exactly the three labels. */
  function ParseSeverity(s: string): (r: Option<RiskSeverity>)
    ensures r.Some? ==> SeverityLabel(r.value) == s
    ensures forall v: RiskSeverity :: SeverityLabel(v) == s ==> r == Some(v)
  {
    if s == "Low" then Some(Low)
    else if s == "Medium" then Some(Medium)
    else if s == "High" then Some(High)
    else None
  }

  /** The enum check on `status`: exactly the two labels. */
  function ParseStatus(s: string): (r: Option<RiskStatus>)
    ensures r.Some? ==> StatusLabel(r.value) == s
    ensures forall v: RiskStatus :: StatusLabel(v) == s ==> r == Some(v)
  {
    if s == "Open" then Some(Open)
    else if s == "Resolved" then Some(Resolved)
    else None
  }

  /** A risk body as it reaches the store. */
  datatype RiskDoc = RiskDoc(
    project: Option<Id>,
    user: Option<Id>,
    title: Option<string>,
    severity: Option<string>,
    mitigation: Option<string>,
    status: Option<string>,
    createdAt: Option<Time>)

  datatype Risk = Risk(
    project: Id,
    user: Id,
    title: string,
    severity: RiskSeverity,
    mitigation: string,
    status: RiskStatus,
    createdAt: Time)

  /** A `required` string: present and not the empty string. */
  predicate RequiredText(s: Option<string>)
  {
    s.Some? && s.value != ""
  }

  /** An enum field with a default: missing, or one of the labels. */
  predicate SeverityAccepted(s: Option<string>)
  {
    s.None? || ParseSeverity(s.value).Some?
  }

  predicate StatusAccepted(s: Option<string>)
  {
    s.None? || ParseStatus(s.value).Some?
  }

  predicate ValidDoc(d: RiskDoc)
  {
    && d.project.Some?
    && d.user.Some?
    && RequiredText(d.title)
    && SeverityAccepted(d.severity)
    && RequiredText(d.mitigation)
    && StatusAccepted(d.status)
  }

  predicate Valid(r: Risk)
  {
    r.title != "" && r.mitigation != ""
  }

  /** The schema defaults: a missing severity is Medium, a missing status Open. */
  function SeverityOrDefault(s: Option<string>): (v: RiskSeverity)
    requires SeverityAccepted(s)
    ensures s.None? ==> v == Medium
    ensures s.Some? ==> SeverityLabel(v) == s.value
  {
    if s.None? then Medium else ParseSeverity(s.value).value
  }

  function StatusOrDefault(s: Option<string>): (v: RiskStatus)
    requires StatusAccepted(s)
    ensures s.None? ==> v == Open
    ensures s.Some? ==> StatusLabel(v) == s.value
  {
    if s.None? then Open else ParseStatus(s.value).value
  }

  /** `Risk.create(d)`: the record with the defaults filled in, or nothing
      when validation fails. The timestamps option fills `createdAt` with the
      store's time `now` only when the body has none. */
  function Create(d: RiskDoc, now: Time): (r: Option<Risk>)
    ensures r.Some? <==> ValidDoc(d)
    ensures r.Some? ==> Valid(r.value)
    ensures r.Some? && d.createdAt.None? ==> r.value.createdAt == now
    ensures r.Some? && d.createdAt.Some? ==> r.value.createdAt == d.createdAt.value
    ensures r.Some? ==> r.value.project == d.project.value && r.value.user == d.user.value
                        && r.value.title == d.title.value && r.value.mitigation == d.mitigation.value
    ensures r.Some? ==> r.value.severity == SeverityOrDefault(d.severity) && r.value.status == StatusOrDefault(d.status)
  {
    if ValidDoc(d) then
      Some(Risk(d.project.value, d.user.value, d.title.value,
                SeverityOrDefault(d.severity), d.mitigation.value,
                StatusOrDefault(d.status), if d.createdAt.Some? then d.createdAt.value else now))
    else None
  }

  /** Omitting severity and status gives a Medium, Open risk; a body that
      names a status keeps it, so a risk may be created already Resolved. */
  lemma CreateDefaults(d: RiskDoc, now: Time)
    requires ValidDoc(d)
    ensures d.severity.None? ==> Create(d, now).value.severity == Medium
    ensures d.status.None? ==> Create(d, now).value.status == Open
    ensures d.status == Some("Resolved") ==> Create(d, now).value.status == Resolved
  {
  }

  /** A severity or status outside the enums makes the document invalid. */
  lemma UnknownEnumRejected(d: RiskDoc, now: Time)
    requires (d.severity.Some? && d.severity.value !in {"Low", "Medium", "High"})
          || (d.status.Some? && d.status.value !in {"Open", "Resolved"})
    ensures Create(d, now) == None
  {
  }

  /** The document a stored risk can be re-created from. */
  function ToDoc(r: Risk): RiskDoc
  {
    RiskDoc(Some(r.project), Some(r.user), Some(r.title), Some(SeverityLabel(r.severity)),
            Some(r.mitigation), Some(StatusLabel(r.status)), Some(r.createdAt))
  }

  lemma CreateToDoc(r: Risk, now: Time)
    requires Valid(r)
    ensures Create(ToDoc(r), now) == Some(r)
  {
    assert ParseSeverity(SeverityLabel(r.severity)) == Some(r.severity);
    assert ParseStatus(StatusLabel(r.status)) == Some(r.status);
  }
}
