/** The project history feed's derived values (components/activity-timeline.tsx):
    avatar initials, the tones of an employee update, the progress icon,
    the actor's name and the verb shown for each activity. */
module ActivityTimeline {

  import opened Common
  import opened Sequences
  import opened Text
  import CI = CheckInModel
  import Card = ProjectCard

  /** `getInitials(name)` of the feed: a missing or empty name becomes "U",
      empty pieces are dropped, then the first letters of the first two
      pieces are upper-cased. */
  function Initials(name: Option<string>): (r: string)
    ensures |r| <= 2
    ensures forall i :: 0 <= i < |r| ==> !('a' <= r[i] <= 'z')
  {
    var n := if name.None? || name.value == "" then "U" else name.value;
    ToUpper(Take(FirstLetters(Filter(Split(n, ' '), NonEmpty)), 2))
  }

  /** A missing or empty name shows "U"; a name made only of spaces shows nothing. */
  lemma InitialsFallback()
    ensures Initials(None) == "U" && Initials(Some("")) == "U"
    ensures Initials(Some("  ")) == ""
  {
    SplitWithoutSeparator("U", ' ');
    assert Filter(["U"], NonEmpty) == ["U"];
    assert Split("  ", ' ') == ["", "", ""];
  }

  /** Dropping empty pieces does not change the letters, so for a non-empty
      name the feed and the project card draw the same initials. */
  lemma SameInitialsAsCard(name: string)
    requires name != ""
    ensures Initials(Some(name)) == Card.Initials(name)
  {
    FirstLettersIgnoreEmptyWords(Split(name, ' '));
  }

  datatype Tone = Red | Amber | Emerald

  /** The background of the blockers box: progress below 40 red, below 75
      amber, otherwise emerald. A missing progress fails both comparisons. */
  function ToneBackground(progress: Option<real>): Tone
  {
    if progress.Some? && progress.value < 40.0 then Red
    else if progress.Some? && progress.value < 75.0 then Amber
    else Emerald
  }

  /** The text colour of the blockers box: confidence at most 2 red, exactly
      3 amber, otherwise emerald. */
  function ToneText(confidence: Option<real>): Tone
  {
    if confidence.Some? && confidence.value <= 2.0 then Red
    else if confidence.Some? && confidence.value == 3.0 then Amber
    else Emerald
  }

  /** The colour of the progress icon: at least 75 emerald, at least 40
      amber, otherwise red. A missing progress fails both comparisons. */
  function ProgressIcon(progress: Option<real>): Tone
  {
    if progress.Some? && progress.value >= 75.0 then Emerald
    else if progress.Some? && progress.value >= 40.0 then Amber
    else Red
  }

  /** The icon and the background use the same tiers whenever a progress is
      recorded; an update without one (which the schema accepts) gets an
      emerald background and a red icon. */
  lemma IconMatchesBackground(progress: Option<real>)
    ensures ProgressIcon(progress) == ToneBackground(progress) <==> progress.Some?
  {
  }

  /** Within the values the schema accepts, the text tone is not monotone in
      confidence: 2.5 is emerald while 3 is amber; missing is emerald. */
  lemma TextToneGaps()
    ensures ToneText(Some(2.5)) == Emerald && ToneText(Some(3.0)) == Amber
    ensures ToneText(None) == Emerald
    ensures forall c: real :: 1.0 <= c <= 5.0 && ToneText(Some(c)) == Red ==> c <= 2.0
  {
  }

  /** JavaScript truthiness of an optional name: present and not empty. */
  predicate Truthy(s: Option<string>)
  {
    s.Some? && s.value != ""
  }

  /** `(user?.name) || (reporter?.name) || "Unknown"`: the first truthy name. */
  function ActorName(userName: Option<string>, reporterName: Option<string>): (r: string)
    ensures r != ""
    ensures Truthy(userName) ==> r == userName.value
    ensures !Truthy(userName) && Truthy(reporterName) ==> r == reporterName.value
    ensures !Truthy(userName) && !Truthy(reporterName) ==> r == "Unknown"
  {
    if Truthy(userName) then userName.value
    else if Truthy(reporterName) then reporterName.value
    else "Unknown"
  }

  /** The feed always asks for the initials of a non-empty actor name, so
      its "U" fallback is never drawn and the avatar matches the card's. */
  lemma ActorInitials(userName: Option<string>, reporterName: Option<string>)
    ensures Initials(Some(ActorName(userName, reporterName))) == Card.Initials(ActorName(userName, reporterName))
  {
    SameInitialsAsCard(ActorName(userName, reporterName));
  }

  /** An entry of the feed: a check-in, carrying its stored `type` string, or a risk. */
  datatype Activity = CheckInActivity(dataType: string) | RiskActivity

  datatype Verb = LoggedRisk | PostedUpdate | SharedFeedback

  /** The verb after the actor's name; any check-in whose type is not
      `employee_update` is shown as feedback. */
  function VerbOf(a: Activity): Verb
  {
    if a.RiskActivity? then LoggedRisk
    else if a.dataType == "employee_update" then PostedUpdate
    else SharedFeedback
  }

  /** For stored check-ins the verb names the kind exactly. */
  lemma VerbNamesKind(c: CI.CheckIn)
    ensures VerbOf(CheckInActivity(CI.TypeLabel(c.kind))) == PostedUpdate <==> c.kind == CI.EmployeeUpdate
    ensures VerbOf(CheckInActivity(CI.TypeLabel(c.kind))) == SharedFeedback <==> c.kind == CI.ClientFeedback
  {
  }
}
