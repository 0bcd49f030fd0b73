/** The 80/60 thresholds appear in the score engine's status mapping
    (lib/health-score.ts), in the project card (components/project-card.tsx)
    and in the health gauge (components/health-score-display.tsx). This
    module reads each of them as a three-level tier and relates them. */
module ScoreTiers {

  import opened Common
  import opened ProjectModel
  import CI = CheckInModel
  import HS = HealthScore
  import Card = ProjectCard
  import Gauge = HealthScoreDisplay

  datatype Tier = Healthy | Watch | Poor

  function CardTier(score: int): Tier
  {
    match Card.HealthColor(score)
    case Emerald => Healthy
    case Amber => Watch
    case Red => Poor
  }

  function GaugeTier(score: int): Tier
  {
    match Gauge.GaugeColorOf(score)
    case Emerald => Healthy
    case Amber => Watch
    case Rose => Poor
  }

  /** The tier a stored status stands for; Completed stands for none. */
  function StatusTier(s: ProjectStatus): Option<Tier>
  {
    match s
    case OnTrack => Some(Healthy)
    case AtRisk => Some(Watch)
    case Critical => Some(Poor)
    case Completed => None
  }

  /** The card, its icon, the gauge and the gauge's text put every score in
      the same tier. */
  lemma ViewsAgree(score: int)
    ensures CardTier(score) == GaugeTier(score)
    ensures (Card.HealthIconOf(score) == Card.CheckCircle) == (CardTier(score) == Healthy)
    ensures (Gauge.ConditionOf(score).statusText == "Critical State") == (GaugeTier(score) == Poor)
  {
  }

  /** On whole-number scores the views and the engine's status mapping agree. */
  lemma WholeScoresAgreeWithStatus(score: int)
    ensures StatusTier(HS.StatusOf(score as real)) == Some(CardTier(score))
  {
  }

  /** The stored score is the rounded final score and the stored status is
      read off the unrounded one, so the card shows the stored status's
      tier except when the final score lies in [79.5, 80) or [59.5, 60). */
  lemma StoredScoreTier(f: real)
    ensures StatusTier(HS.StatusOf(f)) == Some(CardTier(HS.Round(f)))
            <==> !(79.5 <= f < 80.0 || 59.5 <= f < 60.0)
  {
    HS.RoundReaches(f, 80);
    HS.RoundReaches(f, 60);
  }

  /** For every engine result, the tier the card shows for the stored score
      matches the stored status unless the unrounded final score lies half
      a point or less below a threshold. */
  lemma EngineResultTier(updates: seq<CI.CheckIn>, feedback: Option<CI.CheckIn>, openHigh: nat)
    ensures var r := HS.Score(updates, feedback, openHigh);
      var f := HS.Final(updates, feedback, openHigh);
      StatusTier(r.status) == Some(CardTier(r.healthScore)) <==> !(79.5 <= f < 80.0 || 59.5 <= f < 60.0)
  {
    StoredScoreTier(HS.Final(updates, feedback, openHigh));
  }
}
