/** The weekly feedback form of the client dashboard
    (components/client-feedback-form.tsx): the star rating widget, the two
    ratings and the comment, the check made before sending, the check-in
    body it sends to `POST /api/checkins`, and the success state that a
    timer clears. */
module ClientFeedbackForm {

  import opened Common
  import CI = CheckInModel
  import CR = CheckInsRoute

  /** `star <= (hoverValue || value)`: a hovered star previews its rating,
      otherwise the chosen rating is drawn. */
  predicate Filled(star: int, hover: int, value: int)
  {
    star <= (if hover != 0 then hover else value)
  }

  /** The filled stars are always the first ones: a prefix of 1..5. */
  lemma FilledIsPrefix(a: int, b: int, hover: int, value: int)
    requires 1 <= a <= b <= 5
    ensures Filled(b, hover, value) ==> Filled(a, hover, value)
  {
  }

  /** With no star hovered, exactly the stars up to the rating are filled;
      a hovered star fills exactly the stars up to itself, whatever the
      rating. */
  lemma FilledShowsRating(star: int, hover: int, value: int)
    ensures hover == 0 ==> (Filled(star, hover, value) <==> star <= value)
    ensures hover != 0 ==> (Filled(star, hover, value) <==> star <= hover)
  {
  }

  /** The text under the stars while one is hovered. */
  function HoverText(hover: int): (t: string)
    ensures t == "" <==> !(1 <= hover <= 5)
  {
    if hover == 1 then "Very Poor"
    else if hover == 2 then "Poor"
    else if hover == 3 then "Average"
    else if hover == 4 then "Good"
    else if hover == 5 then "Excellent"
    else ""
  }

  /** Each hovered star has its own text. */
  lemma HoverTextInjective(a: int, b: int)
    requires 1 <= a <= 5 && 1 <= b <= 5
    ensures HoverText(a) == HoverText(b) <==> a == b
  {
  }

  /** The hover state of one star rating widget. */
  class StarRating {
    var hover: int

    ghost predicate Valid()
      reads this
    {
      0 <= hover <= 5
    }

    constructor ()
      ensures Valid() && hover == 0
    {
      hover := 0;
    }

    /** The mouse enters one of the five stars. */
    method Enter(star: int)
      requires 1 <= star <= 5
      modifies this
      ensures Valid() && hover == star
    {
      hover := star;
    }

    /** The mouse leaves the row of stars. */
    method Leave()
      modifies this
      ensures Valid() && hover == 0
    {
      hover := 0;
    }
  }

  const RatingsMissingAlert: string := "Please provide a rating for both categories."

  /** What pressing submit does before any request: an alert, or the body
      to send. */
  datatype SubmitResult = Alerted(message: string) | Sent(doc: CI.CheckInDoc)

  /** The check-in body the form sends: a client feedback carrying both
      ratings and the comment, and no employee fields. */
  function Payload(projectId: Id, satisfaction: int, communication: int, comments: string): (d: CI.CheckInDoc)
    ensures d.project == Some(projectId) && d.user.None?
    ensures d.kind == Some(CI.TypeLabel(CI.ClientFeedback))
    ensures d.satisfaction == Some(satisfaction as real) && d.communication == Some(communication as real)
    ensures d.comments == Some(comments)
    ensures d.progress.None? && d.confidence.None? && d.blockers.None? && d.createdAt.None?
  {
    CI.CheckInDoc(Some(projectId), None, Some("client_feedback"), None, None, None,
                  Some(satisfaction as real), Some(communication as real), Some(comments), None)
  }

  /** A body with both ratings chosen is one the check-in schema accepts once
      the route has stamped the author: the stored check-in is client
      feedback for the project, with the ratings as chosen, stamped with the
      store's time since the form sends no `createdAt`. */
  lemma PayloadAccepted(projectId: Id, satisfaction: int, communication: int, comments: string,
                        caller: AuthUser, now: Time)
    requires 1 <= satisfaction <= 5 && 1 <= communication <= 5
    ensures var c := CI.Create(CR.Stamped(Payload(projectId, satisfaction, communication, comments), caller), now);
      && c.Some?
      && c.value.kind == CI.ClientFeedback && c.value.project == projectId && c.value.user == caller.id
      && c.value.satisfaction == Some(satisfaction as real)
      && c.value.communication == Some(communication as real)
      && c.value.createdAt == now
  {
    assert CI.ParseType("client_feedback") == Some(CI.ClientFeedback);
  }

  /** The form's state. Ratings start at 0, meaning not chosen yet; the
      stars only ever set 1 to 5. */
  class Form {
    var satisfaction: int
    var communication: int
    var comments: string
    var loading: bool
    var isSuccess: bool

    ghost predicate Valid()
      reads this
    {
      0 <= satisfaction <= 5 && 0 <= communication <= 5
    }

    constructor ()
      ensures Valid()
      ensures satisfaction == 0 && communication == 0 && comments == ""
      ensures !loading && !isSuccess
    {
      satisfaction, communication, comments := 0, 0, "";
      loading, isSuccess := false, false;
    }

    /** A click on a star of the satisfaction rating. */
    method RateSatisfaction(star: int)
      requires Valid() && 1 <= star <= 5
      modifies this
      ensures Valid() && satisfaction == star
      ensures communication == old(communication) && comments == old(comments)
      ensures loading == old(loading) && isSuccess == old(isSuccess)
    {
      satisfaction := star;
    }

    /** A click on a star of the communication rating. */
    method RateCommunication(star: int)
      requires Valid() && 1 <= star <= 5
      modifies this
      ensures Valid() && communication == star
      ensures satisfaction == old(satisfaction) && comments == old(comments)
      ensures loading == old(loading) && isSuccess == old(isSuccess)
    {
      communication := star;
    }

    method SetComments(text: string)
      modifies this
      ensures comments == text
      ensures satisfaction == old(satisfaction) && communication == old(communication)
      ensures loading == old(loading) && isSuccess == old(isSuccess)
    {
      comments := text;
    }

    /** The submit handler up to the request: a missing rating raises the
        alert and changes nothing; otherwise the form is loading and the
        body to send is returned, with both ratings in 1..5 so that
        PayloadAccepted applies to it. */
    method Submit(projectId: Id) returns (r: SubmitResult)
      requires Valid()
      modifies this
      ensures Valid()
      ensures r.Alerted? <==> old(satisfaction) == 0 || old(communication) == 0
      ensures r.Alerted? ==> r.message == RatingsMissingAlert && loading == old(loading)
      ensures r.Sent? ==> r.doc == Payload(projectId, satisfaction, communication, comments) && loading
      ensures r.Sent? ==> 1 <= satisfaction <= 5 && 1 <= communication <= 5
      ensures satisfaction == old(satisfaction) && communication == old(communication)
      ensures comments == old(comments) && isSuccess == old(isSuccess)
    {
      if satisfaction == 0 || communication == 0 {
        return Alerted(RatingsMissingAlert);
      }
      loading := true;
      r := Sent(Payload(projectId, satisfaction, communication, comments));
    }

    /** The rest of the handler once the request has ended: an ok reply
        shows the success state; a failure keeps the ratings and the
        comment; the form stops loading in every case. */
    method Finish(ok: bool)
      modifies this
      ensures !loading
      ensures isSuccess == (ok || old(isSuccess))
      ensures satisfaction == old(satisfaction) && communication == old(communication)
      ensures comments == old(comments)
    {
      if ok {
        isSuccess := true;
      }
      loading := false;
    }

    /** The timer set after a success, two seconds later: the form is
        cleared back to its first state. */
    method ResetAfterDelay()
      modifies this
      ensures Valid()
      ensures !isSuccess && satisfaction == 0 && communication == 0 && comments == ""
      ensures loading == old(loading)
    {
      isSuccess := false;
      satisfaction, communication, comments := 0, 0, "";
    }
  }
}
