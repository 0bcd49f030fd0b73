/** The health gauge on the project page (components/health-score-display.tsx):
    the gauge colour, the condition text and description, and the badge. */
module HealthScoreDisplay {

  import opened Text
  import opened ProjectModel

  datatype GaugeColor = Emerald | Amber | Rose

  /** `getColor(score)`. */
  function GaugeColorOf(score: int): GaugeColor
  {
    if score >= 80 then Emerald
    else if score >= 60 then Amber
    else Rose
  }

  /** The texts shown beside the gauge, from one if/else chain on the score. */
  datatype Condition = Condition(statusText: string, descriptionText: string)

  function ConditionOf(score: int): Condition
  {
    if score >= 80 then
      Condition("Excellent Condition", "Project is meeting all KPIs and deadlines.")
    else if score >= 60 then
      Condition("Needs Attention", "Minor blockers are affecting velocity.")
    else
      Condition("Critical State", "Immediate intervention required to get back on track.")
  }

  /** The colour and the condition text are two encodings of one tier. */
  lemma ConditionMatchesColour(score: int)
    ensures ConditionOf(score).statusText == "Excellent Condition" <==> GaugeColorOf(score) == Emerald
    ensures ConditionOf(score).statusText == "Needs Attention" <==> GaugeColorOf(score) == Amber
    ensures ConditionOf(score).statusText == "Critical State" <==> GaugeColorOf(score) == Rose
  {
  }

  datatype BadgeVariant = Default | Secondary

  /** The badge variant: `default` for On Track, `secondary` for every other status. */
  function BadgeOf(status: ProjectStatus): (v: BadgeVariant)
  {
    if status == OnTrack then Default else Secondary
  }

  /** The badge text: the stored label with its first underscore made a space. */
  function BadgeText(status: ProjectStatus): string
  {
    ReplaceFirst(StatusLabel(status), '_', ' ')
  }

  /** The badge is `default` exactly for On Track, and it shows the stored label. */
  lemma BadgeFacts(status: ProjectStatus)
    ensures BadgeOf(status) == Default <==> status == OnTrack
    ensures BadgeText(status) == StatusLabel(status)
  {
    ReplaceAbsent(StatusLabel(status), '_', ' ');
  }
}
