/** The check-in record (models/CheckIn.ts): a document as submitted, with
    every field optional, the validation the schema applies to it, and the
    stored record it becomes. */
module CheckInModel {

  import opened Common

  datatype CheckInType = EmployeeUpdate | ClientFeedback

  /** The string stored for each kind. */
  function TypeLabel(t: CheckInType): string
  {
    match t
    case EmployeeUpdate => "employee_update"
    case ClientFeedback => "client_feedback"
  }

  /** The schema's enum check on `type`: only the two exact labels are accepted. */
  function ParseType(s: string): (r: Option<CheckInType>)
    ensures r.Some? ==> TypeLabel(r.value) == s
    ensures forall t: CheckInType :: TypeLabel(t) == s ==> r == Some(t)
  {
    if s == "employee_update" then Some(EmployeeUpdate)
    else if s == "client_feedback" then Some(ClientFeedback)
    else None
  }

  /** A check-in body as it reaches the store: any field may be missing. */
  datatype CheckInDoc = CheckInDoc(
    project: Option<Id>,
    user: Option<Id>,
    kind: Option<string>,
    progress: Option<real>,
    confidence: Option<real>,
    blockers: Option<string>,
    satisfaction: Option<real>,
    communication: Option<real>,
    comments: Option<string>,
    createdAt: Option<Time>)

  /** A stored check-in. Both kinds share one shape; every per-kind field stays optional. */
  datatype CheckIn = CheckIn(
    project: Id,
    user: Id,
    kind: CheckInType,
    progress: Option<real>,
    confidence: Option<real>,
    blockers: Option<string>,
    satisfaction: Option<real>,
    communication: Option<real>,
    comments: Option<string>,
    createdAt: Time)

  /** A `min`/`max` validator on an optional number: a missing value passes. */
  predicate InRange(v: Option<real>, lo: real, hi: real)
  {
    v.None? || lo <= v.value <= hi
  }

  /** The ranges of the numeric fields, whatever the kind. */
  predicate FieldsInRange(progress: Option<real>, confidence: Option<real>,
                          satisfaction: Option<real>, communication: Option<real>)
  {
    && InRange(progress, 0.0, 100.0)
    && InRange(confidence, 1.0, 5.0)
    && InRange(satisfaction, 1.0, 5.0)
    && InRange(communication, 1.0, 5.0)
  }

  /** The schema accepts a document: both references and a known `type` are
      present, and each numeric field present lies in its range. */
  predicate ValidDoc(d: CheckInDoc)
  {
    && d.project.Some?
    && d.user.Some?
    && d.kind.Some? && ParseType(d.kind.value).Some?
    && FieldsInRange(d.progress, d.confidence, d.satisfaction, d.communication)
  }

  /** A stored check-in satisfies the schema. */
  predicate Valid(c: CheckIn)
  {
    FieldsInRange(c.progress, c.confidence, c.satisfaction, c.communication)
  }

  /** `CheckIn.create(d)`: the record, or nothing when validation fails.
      Values are stored as given, never clamped. The timestamps option fills
      `createdAt` with the store's time `now` only when the body has none. */
  function Create(d: CheckInDoc, now: Time): (r: Option<CheckIn>)
    ensures r.Some? <==> ValidDoc(d)
    ensures r.Some? ==> Valid(r.value) && ToDoc(r.value) == d.(createdAt := Some(r.value.createdAt))
    ensures r.Some? && d.createdAt.None? ==> r.value.createdAt == now
    ensures r.Some? && d.createdAt.Some? ==> r.value.createdAt == d.createdAt.value
  {
    if ValidDoc(d) then
      Some(CheckIn(d.project.value, d.user.value, ParseType(d.kind.value).value,
                   d.progress, d.confidence, d.blockers,
                   d.satisfaction, d.communication, d.comments,
                   if d.createdAt.Some? then d.createdAt.value else now))
    else None
  }

  /** The document a stored record was created from. */
  function ToDoc(c: CheckIn): CheckInDoc
  {
    CheckInDoc(Some(c.project), Some(c.user), Some(TypeLabel(c.kind)),
               c.progress, c.confidence, c.blockers,
               c.satisfaction, c.communication, c.comments, Some(c.createdAt))
  }

  /** Every valid stored record is re-created by its own document, whatever
      the store's clock reads, since the document carries `createdAt`. */
  lemma CreateToDoc(c: CheckIn, now: Time)
    requires Valid(c)
    ensures Create(ToDoc(c), now) == Some(c)
  {
    assert ParseType(TypeLabel(c.kind)) == Some(c.kind);
  }

  /** An out-of-range value is rejected, not clamped into range. */
  lemma OutOfRangeRejected(d: CheckInDoc, now: Time)
    requires d.progress.Some? && (d.progress.value < 0.0 || d.progress.value > 100.0)
    ensures Create(d, now) == None
  {
  }

  /** Nothing ties the per-kind fields to `type`: an employee update with no
      progress and no confidence, and a client feedback with no satisfaction,
      are both accepted. */
  lemma PerKindFieldsOptional(p: Id, u: Id, now: Time)
    ensures Create(CheckInDoc(Some(p), Some(u), Some("employee_update"),
                              None, None, None, None, None, None, None), now).Some?
    ensures Create(CheckInDoc(Some(p), Some(u), Some("client_feedback"),
                              None, None, None, None, None, None, None), now).Some?
  {
  }
}
