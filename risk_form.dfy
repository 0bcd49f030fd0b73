/** The risk form of the employee workspace (components/risk-form.tsx): its
    field state, the check made before sending, the body it sends to
    `POST /api/risks` and how it takes the reply. */
module RiskForm {

  import opened Common
  import opened Text
  import RM = RiskModel
  import RR = RisksRoute

  /** How a submission ended: the route answered ok; it answered with an
      error status and a JSON body whose `error` member is given (or
      missing); or the request threw, with an `Error`'s message or some
      other value. */
  datatype Outcome = Accepted | Rejected(serverError: Option<string>) | Thrown(message: Option<string>)

  const RequiredMessage: string := "Please fill in all required fields."
  const RejectedMessage: string := "Failed to log risk."
  const UnknownMessage: string := "Something went wrong"

  /** `!title.trim() || !mitigation.trim()` is false. */
  predicate Filled(title: string, mitigation: string)
  {
    Trim(title) != "" && Trim(mitigation) != ""
  }

  /** The JSON body the form sends: the fields as typed, untrimmed, with
      neither reporter, status nor creation time. */
  function Payload(projectId: Id, title: string, severity: string, mitigation: string): (d: RM.RiskDoc)
    ensures d.project == Some(projectId) && d.user.None? && d.status.None?
    ensures d.title == Some(title) && d.severity == Some(severity) && d.mitigation == Some(mitigation)
    ensures d.createdAt.None?
  {
    RM.RiskDoc(Some(projectId), None, Some(title), Some(severity), Some(mitigation), None, None)
  }

  /** The message left in the form once the request has ended badly. */
  function FailureMessage(o: Outcome): (m: string)
    requires !o.Accepted?
    ensures o.Rejected? && o.serverError.Some? && o.serverError.value != "" ==> m == o.serverError.value
    ensures o.Rejected? && (o.serverError.None? || o.serverError.value == "") ==> m == RejectedMessage
    ensures o.Thrown? && o.message.Some? ==> m == o.message.value
    ensures o.Thrown? && o.message.None? ==> m == UnknownMessage
  {
    match o
    case Rejected(e) => if e.Some? && e.value != "" then e.value else RejectedMessage
    case Thrown(msg) => if msg.Some? then msg.value else UnknownMessage
  }

  /** The reply of the risks route as the form sees it: the `error` member
      the route puts in each error body. */
  function OutcomeOf(resp: Response<RM.Risk>): (o: Outcome)
    ensures o.Accepted? <==> resp.Ok?
    ensures resp == Unauthorized ==> o == Rejected(Some("Unauthorized"))
    ensures resp == Forbidden ==> o == Rejected(Some("Forbidden"))
    ensures resp == ServerError ==> o == Rejected(Some("Internal server error"))
  {
    match resp
    case Ok(_) => Accepted
    case Unauthorized => Rejected(Some("Unauthorized"))
    case Forbidden => Rejected(Some("Forbidden"))
    case ServerError => Rejected(Some("Internal server error"))
  }

  /** A reply that is not ok always leaves the route's own message. */
  lemma RouteErrorShown(resp: Response<RM.Risk>)
    requires !resp.Ok?
    ensures FailureMessage(OutcomeOf(resp)) != ""
    ensures FailureMessage(OutcomeOf(resp)) == "Forbidden" <==> resp == Forbidden
  {
  }

  /** The form's check passes exactly when each of the two fields holds a
      character other than white space. */
  lemma FilledIffNotBlank(title: string, mitigation: string)
    ensures Filled(title, mitigation) <==>
              (exists i :: 0 <= i < |title| && !IsSpace(title[i]))
              && (exists j :: 0 <= j < |mitigation| && !IsSpace(mitigation[j]))
  {
    TrimEmptyIffBlank(title);
    TrimEmptyIffBlank(mitigation);
  }

  /** A string that does not trim to nothing is not empty. */
  lemma TrimmedNonEmpty(s: string)
    requires Trim(s) != ""
    ensures s != ""
  {
  }

  /** A body that passed the form's check is one the risk schema accepts
      once the route has stamped the reporter, whatever the severity the
      radio group set; the stored risk keeps the fields as typed, starts
      Open and is stamped with the store's time. */
  lemma PayloadAccepted(projectId: Id, title: string, v: RM.RiskSeverity, mitigation: string,
                        caller: AuthUser, now: Time)
    requires Filled(title, mitigation)
    ensures var r := RM.Create(RR.Stamped(Payload(projectId, title, RM.SeverityLabel(v), mitigation), caller), now);
      && r.Some?
      && r.value.project == projectId && r.value.user == caller.id
      && r.value.title == title && r.value.mitigation == mitigation
      && r.value.severity == v && r.value.status == RM.Open
      && r.value.createdAt == now
  {
    TrimmedNonEmpty(title);
    TrimmedNonEmpty(mitigation);
    assert RM.ParseSeverity(RM.SeverityLabel(v)) == Some(v);
  }

  /** The form's state. The severity is the value of the radio group,
      which only ever holds one of the three labels. */
  class Form {
    var title: string
    var severity: string
    var mitigation: string
    var loading: bool
    var error: string

    ghost predicate Valid()
      reads this
    {
      RM.ParseSeverity(severity).Some?
    }

    /** Empty fields, Medium severity, not loading, no error. */
    constructor ()
      ensures Valid()
      ensures title == "" && severity == "Medium" && mitigation == ""
      ensures !loading && error == ""
    {
      title, severity, mitigation := "", "Medium", "";
      loading, error := false, "";
    }

    method SetTitle(t: string)
      modifies this
      ensures title == t
      ensures severity == old(severity) && mitigation == old(mitigation)
      ensures loading == old(loading) && error == old(error)
    {
      title := t;
    }

    method SetMitigation(m: string)
      modifies this
      ensures mitigation == m
      ensures title == old(title) && severity == old(severity)
      ensures loading == old(loading) && error == old(error)
    {
      mitigation := m;
    }

    /** A click on one of the three severity cards. */
    method SetSeverity(v: RM.RiskSeverity)
      modifies this
      ensures Valid()
      ensures severity == RM.SeverityLabel(v)
      ensures title == old(title) && mitigation == old(mitigation)
      ensures loading == old(loading) && error == old(error)
    {
      severity := RM.SeverityLabel(v);
      assert RM.ParseSeverity(RM.SeverityLabel(v)) == Some(v);
    }

    /** The submit handler up to the request. A title or mitigation made
        only of white space sets the required-fields message and sends
        nothing; otherwise the error is cleared, the form is loading and
        the body to send is returned. */
    method Submit(projectId: Id) returns (request: Option<RM.RiskDoc>)
      modifies this
      ensures request.None? <==> !Filled(title, mitigation)
      ensures request.None? ==> error == RequiredMessage && loading == old(loading)
      ensures request.Some? ==>
                request == Some(Payload(projectId, title, severity, mitigation))
                && error == "" && loading
      ensures title == old(title) && severity == old(severity) && mitigation == old(mitigation)
    {
      if !Filled(title, mitigation) {
        error := RequiredMessage;
        return None;
      }
      error := "";
      loading := true;
      request := Some(Payload(projectId, title, severity, mitigation));
    }

    /** The rest of the handler once the request has ended: an accepted
        risk clears the fields and puts the severity back to Medium; a
        failure keeps what was typed and shows its message; the form stops
        loading in every case. */
    method Finish(outcome: Outcome)
      requires Valid()
      modifies this
      ensures Valid()
      ensures !loading
      ensures outcome.Accepted? ==>
                title == "" && severity == "Medium" && mitigation == "" && error == old(error)
      ensures !outcome.Accepted? ==>
                error == FailureMessage(outcome)
                && title == old(title) && severity == old(severity) && mitigation == old(mitigation)
    {
      if outcome.Accepted? {
        title, severity, mitigation := "", "Medium", "";
      } else {
        error := FailureMessage(outcome);
      }
      loading := false;
    }
  }
}
