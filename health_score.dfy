/** The project health-score engine (lib/health-score.ts): which records it
    reads, the arithmetic that turns them into a 0-100 score and a status,
    and the single project write that stores the result. */
module HealthScore {

  import opened Common
  import opened Sequences
  import opened CheckInModel
  import opened RiskModel
  import PM = ProjectModel
  import opened DocumentStore

  // ---------------------------------------------------------------------
  // Input selection (the three store queries)
  // ---------------------------------------------------------------------

  /** Sort key for "newest first" (`sort({createdAt: -1})`). */
  function NewestKey(c: CheckIn): int { -c.createdAt }

  function EmployeeUpdatesOf(cs: seq<CheckIn>, pid: Id): seq<CheckIn>
  {
    Filter(cs, (c: CheckIn) => c.project == pid && c.kind == EmployeeUpdate)
  }

  function ClientFeedbackOf(cs: seq<CheckIn>, pid: Id): seq<CheckIn>
  {
    Filter(cs, (c: CheckIn) => c.project == pid && c.kind == ClientFeedback)
  }

  /** `find({project, type: employee_update}).sort({createdAt: -1}).limit(5)`. */
  function RecentEmployeeUpdates(cs: seq<CheckIn>, pid: Id): seq<CheckIn>
  {
    Take(SortBy(EmployeeUpdatesOf(cs, pid), NewestKey), 5)
  }

  /** `findOne({project, type: client_feedback}).sort({createdAt: -1})`. */
  function LatestClientFeedback(cs: seq<CheckIn>, pid: Id): Option<CheckIn>
  {
    var s := SortBy(ClientFeedbackOf(cs, pid), NewestKey);
    if s == [] then None else Some(s[0])
  }

  predicate IsOpenHighRiskOf(r: Risk, pid: Id)
  {
    r.project == pid && r.severity == High && r.status == Open
  }

  /** `countDocuments({project, severity: High, status: Open})`. */
  function OpenHighRisks(rs: seq<Risk>, pid: Id): nat
  {
    |Filter(rs, (r: Risk) => IsOpenHighRiskOf(r, pid))|
  }

  // ---------------------------------------------------------------------
  // Arithmetic
  // ---------------------------------------------------------------------

  /** JavaScript truthiness of an optional number: missing or 0 is falsy. */
  predicate Falsy(v: Option<real>)
  {
    v.None? || v.value == 0.0
  }

  /** `Math.round`: halves round up. */
  function Round(x: real): int
  {
    (x + 0.5).Floor
  }

  function Clamp(x: real): real
  {
    if x < 0.0 then 0.0 else if x > 100.0 then 100.0 else x
  }

  function ClientSatisfactionScore(feedback: Option<CheckIn>): real
  {
    if feedback.Some? && !Falsy(feedback.value.satisfaction)
    then feedback.value.satisfaction.value / 5.0 * 100.0
    else 50.0
  }

  /** `ci.confidence || 3`. */
  function ConfidenceOrDefault(c: CheckIn): real
  {
    if Falsy(c.confidence) then 3.0 else c.confidence.value
  }

  function EmployeeConfidenceScore(updates: seq<CheckIn>): real
  {
    if |updates| > 0
    then SumOf(updates, ConfidenceOrDefault) / |updates| as real / 5.0 * 100.0
    else 60.0
  }

  /** `recentEmployeeCheckIns[0].progress || 50`. */
  function ProgressOrDefault(c: CheckIn): real
  {
    if Falsy(c.progress) then 50.0 else c.progress.value
  }

  function ScheduleProgressScore(updates: seq<CheckIn>): real
  {
    if |updates| > 0 then ProgressOrDefault(updates[0]) else 60.0
  }

  function BaseScore(client: real, confidence: real, progress: real): real
  {
    client * 0.4 + confidence * 0.3 + progress * 0.3
  }

  function RiskPenalty(openHigh: nat): nat
  {
    openHigh * 10
  }

  /** The unrounded final score. */
  function Final(updates: seq<CheckIn>, feedback: Option<CheckIn>, openHigh: nat): real
  {
    Clamp(BaseScore(ClientSatisfactionScore(feedback), EmployeeConfidenceScore(updates),
                    ScheduleProgressScore(updates))
          - RiskPenalty(openHigh) as real)
  }

  /** The status threshold mapping; Completed is never produced. */
  function StatusOf(final: real): PM.ProjectStatus
  {
    if final >= 80.0 then PM.OnTrack
    else if final >= 60.0 then PM.AtRisk
    else PM.Critical
  }

  datatype Breakdown = Breakdown(
    clientSatisfaction: int,
    employeeConfidence: int,
    scheduleProgress: int,
    openHighRisks: nat,
    riskPenalty: nat)

  datatype HealthReport = HealthReport(healthScore: int, status: PM.ProjectStatus, breakdown: Breakdown)

  /** The engine's result for given inputs. */
  function Score(updates: seq<CheckIn>, feedback: Option<CheckIn>, openHigh: nat): HealthReport
  {
    var final := Final(updates, feedback, openHigh);
    HealthReport(Round(final), StatusOf(final),
                 Breakdown(Round(ClientSatisfactionScore(feedback)),
                           Round(EmployeeConfidenceScore(updates)),
                           Round(ScheduleProgressScore(updates)),
                           openHigh, RiskPenalty(openHigh)))
  }

  /** The engine's result for project `pid` over the store's collections. */
  function Evaluate(cs: seq<CheckIn>, rs: seq<Risk>, pid: Id): HealthReport
  {
    Score(RecentEmployeeUpdates(cs, pid), LatestClientFeedback(cs, pid), OpenHighRisks(rs, pid))
  }

  // ---------------------------------------------------------------------
  // The engine as a store operation
  // ---------------------------------------------------------------------

  /** `calculateAndUpdateHealthScore(projectId)`: reads the three inputs,
      computes the score and writes the rounded score with the status onto
      that one project; the result returned is the pair written. */
  method CalculateAndUpdateHealthScore(store: Store, projectId: Id) returns (r: HealthReport)
    requires store.Valid()
    modifies store
    ensures store.Valid()
    ensures r == Evaluate(old(store.checkIns), old(store.risks), projectId)
    ensures store.checkIns == old(store.checkIns) && store.risks == old(store.risks)
    ensures store.projects == UpdateById(old(store.projects), projectId, r.healthScore, r.status)
  {
    var recentEmployeeCheckIns := RecentEmployeeUpdates(store.checkIns, projectId);
    var recentClientFeedback := LatestClientFeedback(store.checkIns, projectId);
    var openHighRisks := OpenHighRisks(store.risks, projectId);

    var clientSatisfactionScore := 50.0;
    if recentClientFeedback.Some? && !Falsy(recentClientFeedback.value.satisfaction) {
      clientSatisfactionScore := recentClientFeedback.value.satisfaction.value / 5.0 * 100.0;
    }

    var employeeConfidenceScore := 60.0;
    if |recentEmployeeCheckIns| > 0 {
      var avgConfidence := SumOf(recentEmployeeCheckIns, ConfidenceOrDefault) / |recentEmployeeCheckIns| as real;
      employeeConfidenceScore := avgConfidence / 5.0 * 100.0;
    }

    var scheduleProgressScore := 60.0;
    if |recentEmployeeCheckIns| > 0 {
      scheduleProgressScore := ProgressOrDefault(recentEmployeeCheckIns[0]);
    }

    var baseScore := clientSatisfactionScore * 0.4 + employeeConfidenceScore * 0.3 + scheduleProgressScore * 0.3;
    var riskPenalty := openHighRisks * 10;
    var finalScore := Clamp(baseScore - riskPenalty as real);

    var status: PM.ProjectStatus;
    if finalScore >= 80.0 {
      status := PM.OnTrack;
    } else if finalScore >= 60.0 {
      status := PM.AtRisk;
    } else {
      status := PM.Critical;
    }

    assert clientSatisfactionScore == ClientSatisfactionScore(recentClientFeedback);
    assert employeeConfidenceScore == EmployeeConfidenceScore(recentEmployeeCheckIns);
    assert scheduleProgressScore == ScheduleProgressScore(recentEmployeeCheckIns);
    assert finalScore == Final(recentEmployeeCheckIns, recentClientFeedback, openHighRisks);
    assert status == StatusOf(finalScore);
    RoundInRange(finalScore);
    store.FindByIdAndUpdate(projectId, Round(finalScore), status);

    r := HealthReport(Round(finalScore), status,
                      Breakdown(Round(clientSatisfactionScore), Round(employeeConfidenceScore),
                                Round(scheduleProgressScore), openHighRisks, riskPenalty));
  }

  /** Running the engine twice with no new activity returns the same pair
      and leaves the projects as the first run left them. */
  method RecomputeTwice(store: Store, projectId: Id) returns (first: HealthReport, second: HealthReport)
    requires store.Valid()
    modifies store
    ensures first == second
    ensures store.projects == UpdateById(old(store.projects), projectId, first.healthScore, first.status)
  {
    first := CalculateAndUpdateHealthScore(store, projectId);
    second := CalculateAndUpdateHealthScore(store, projectId);
    UpdateByIdIdempotent(old(store.projects), projectId, first.healthScore, first.status);
  }

  // ---------------------------------------------------------------------
  // Selection properties
  // ---------------------------------------------------------------------

  /** The engine reads at most the five newest employee updates of the
      project, newest first; any update of the project it leaves out is no
      newer than each one it reads. */
  lemma RecentUpdatesSelection(cs: seq<CheckIn>, pid: Id)
    ensures var r := RecentEmployeeUpdates(cs, pid);
      && |r| == (if |EmployeeUpdatesOf(cs, pid)| < 5 then |EmployeeUpdatesOf(cs, pid)| else 5)
      && (forall i :: 0 <= i < |r| ==> r[i] in cs && r[i].project == pid && r[i].kind == EmployeeUpdate)
      && (forall i, j :: 0 <= i < j < |r| ==> r[i].createdAt >= r[j].createdAt)
      && (forall c :: c in cs && c.project == pid && c.kind == EmployeeUpdate && c !in r ==>
            forall k :: 0 <= k < |r| ==> c.createdAt <= r[k].createdAt)
  {
    var all := EmployeeUpdatesOf(cs, pid);
    var sorted := SortBy(all, NewestKey);
    var r := RecentEmployeeUpdates(cs, pid);
    forall i | 0 <= i < |r|
      ensures r[i] in cs && r[i].project == pid && r[i].kind == EmployeeUpdate
    {
      assert r[i] == sorted[i];
      assert sorted[i] in multiset(sorted);
      assert sorted[i] in multiset(all);
      var k :| 0 <= k < |all| && all[k] == sorted[i];
    }
    forall i, j | 0 <= i < j < |r| ensures r[i].createdAt >= r[j].createdAt {
      assert r[i] == sorted[i] && r[j] == sorted[j];
      assert NewestKey(sorted[i]) <= NewestKey(sorted[j]);
    }
    forall c | c in cs && c.project == pid && c.kind == EmployeeUpdate && c !in r
      ensures forall k :: 0 <= k < |r| ==> c.createdAt <= r[k].createdAt
    {
      var m :| 0 <= m < |cs| && cs[m] == c;
      assert c in all;
      assert c in multiset(all);
      assert c in sorted;
      TakeHoldsSmallestKeys(all, 5, NewestKey, c);
      forall k | 0 <= k < |r| ensures c.createdAt <= r[k].createdAt {
        assert r[k] in r;
        assert NewestKey(r[k]) <= NewestKey(c);
      }
    }
  }

  /** The engine reads the newest client feedback of the project, and none
      exactly when the project has no feedback. */
  lemma LatestFeedbackSelection(cs: seq<CheckIn>, pid: Id)
    ensures LatestClientFeedback(cs, pid).None? <==>
              forall c :: c in cs ==> !(c.project == pid && c.kind == ClientFeedback)
    ensures LatestClientFeedback(cs, pid).Some? ==>
              var f := LatestClientFeedback(cs, pid).value;
              f in cs && f.project == pid && f.kind == ClientFeedback
              && forall c :: c in cs && c.project == pid && c.kind == ClientFeedback ==> c.createdAt <= f.createdAt
  {
    var all := ClientFeedbackOf(cs, pid);
    var sorted := SortBy(all, NewestKey);
    if sorted == [] {
      assert |all| == 0;
    } else {
      var f := sorted[0];
      assert f in multiset(all);
      var k :| 0 <= k < |all| && all[k] == f;
      forall c | c in cs && c.project == pid && c.kind == ClientFeedback ensures c.createdAt <= f.createdAt {
        var m :| 0 <= m < |cs| && cs[m] == c;
        assert c in all;
        assert c in multiset(sorted);
        var j :| 0 <= j < |sorted| && sorted[j] == c;
        if j > 0 {
          assert NewestKey(sorted[0]) <= NewestKey(sorted[j]);
        }
      }
    }
  }

  /** An employee update created after every stored check-in is the first
      update the engine reads, so its progress is the schedule component. */
  lemma NewestUpdateLeads(cs: seq<CheckIn>, c: CheckIn, pid: Id)
    requires c.project == pid && c.kind == EmployeeUpdate
    requires forall i :: 0 <= i < |cs| ==> cs[i].createdAt < c.createdAt
    ensures RecentEmployeeUpdates(cs + [c], pid) != []
    ensures RecentEmployeeUpdates(cs + [c], pid)[0] == c
    ensures ScheduleProgressScore(RecentEmployeeUpdates(cs + [c], pid)) == ProgressOrDefault(c)
  {
    var f := (c: CheckIn) => c.project == pid && c.kind == EmployeeUpdate;
    FilterAppend(cs, c, f);
    var s := EmployeeUpdatesOf(cs + [c], pid);
    assert s == Filter(cs, f) + [c];
    forall i | 0 <= i < |s| && s[i] != c ensures NewestKey(c) < NewestKey(s[i]) {
      assert s[i] in cs;
    }
    StrictMinimumFirst(s, NewestKey, c);
  }

  /** A client feedback created after every stored check-in is the feedback
      the engine reads. */
  lemma NewestFeedbackLeads(cs: seq<CheckIn>, c: CheckIn, pid: Id)
    requires c.project == pid && c.kind == ClientFeedback
    requires forall i :: 0 <= i < |cs| ==> cs[i].createdAt < c.createdAt
    ensures LatestClientFeedback(cs + [c], pid) == Some(c)
  {
    var f := (c: CheckIn) => c.project == pid && c.kind == ClientFeedback;
    FilterAppend(cs, c, f);
    var s := ClientFeedbackOf(cs + [c], pid);
    assert s == Filter(cs, f) + [c];
    forall i | 0 <= i < |s| && s[i] != c ensures NewestKey(c) < NewestKey(s[i]) {
      assert s[i] in cs;
    }
    StrictMinimumFirst(s, NewestKey, c);
  }

  /** Only an open High risk of the project adds to the count, and it adds one. */
  lemma {:induction false} OpenHighRisksAppend(rs: seq<Risk>, r: Risk, pid: Id)
    ensures OpenHighRisks(rs + [r], pid) == OpenHighRisks(rs, pid) + (if IsOpenHighRiskOf(r, pid) then 1 else 0)
  {
    FilterAppend(rs, r, (x: Risk) => IsOpenHighRiskOf(x, pid));
  }

  // ---------------------------------------------------------------------
  // Component properties
  // ---------------------------------------------------------------------

  /** No feedback, or feedback whose satisfaction is missing or 0, gives 50;
      a satisfaction in 1..5 gives a component in [20, 100]. */
  lemma ClientComponent(feedback: Option<CheckIn>)
    ensures feedback.None? || Falsy(feedback.value.satisfaction) ==> ClientSatisfactionScore(feedback) == 50.0
    ensures feedback.Some? && feedback.value.satisfaction.Some? && 1.0 <= feedback.value.satisfaction.value <= 5.0 ==>
              ClientSatisfactionScore(feedback) == feedback.value.satisfaction.value * 20.0
              && 20.0 <= ClientSatisfactionScore(feedback) <= 100.0
  {
  }

  /** Each update's confidence term lies in [1, 5] when the record is valid. */
  lemma ConfidenceTermBounds(c: CheckIn)
    requires CheckInModel.Valid(c)
    ensures 1.0 <= ConfidenceOrDefault(c) <= 5.0
  {
  }

  /** No updates gives 60; otherwise the component is the mean confidence
      (missing or 0 counted as 3) scaled to 100, which lies in [20, 100] for
      valid records. */
  lemma ConfidenceComponent(updates: seq<CheckIn>)
    requires forall i :: 0 <= i < |updates| ==> CheckInModel.Valid(updates[i])
    ensures |updates| == 0 ==> EmployeeConfidenceScore(updates) == 60.0
    ensures |updates| > 0 ==> 20.0 <= EmployeeConfidenceScore(updates) <= 100.0
  {
    if |updates| > 0 {
      forall x | x in updates ensures 1.0 <= ConfidenceOrDefault(x) <= 5.0 {
        var i :| 0 <= i < |updates| && updates[i] == x;
        ConfidenceTermBounds(x);
      }
      SumOfBounds(updates, ConfidenceOrDefault, 1.0, 5.0);
      var n := |updates| as real;
      var s := SumOf(updates, ConfidenceOrDefault);
      assert n * 1.0 <= s <= n * 5.0;
      assert 1.0 <= s / n <= 5.0;
    }
  }

  /** No updates gives 60; otherwise the newest update's progress, where a
      missing progress and a recorded 0% both score 50. */
  lemma ProgressComponent(updates: seq<CheckIn>)
    ensures |updates| == 0 ==> ScheduleProgressScore(updates) == 60.0
    ensures |updates| > 0 && (updates[0].progress.None? || updates[0].progress == Some(0.0)) ==>
              ScheduleProgressScore(updates) == 50.0
    ensures |updates| > 0 && updates[0].progress.Some? && updates[0].progress.value != 0.0 ==>
              ScheduleProgressScore(updates) == updates[0].progress.value
  {
  }

  /** A recorded progress of 0% scores exactly like a missing one. */
  lemma ZeroProgressScoresAsMissing(c: CheckIn, rest: seq<CheckIn>)
    requires c.progress == Some(0.0)
    ensures ScheduleProgressScore([c] + rest) == ScheduleProgressScore([c.(progress := None)] + rest)
    ensures ScheduleProgressScore([c] + rest) == 50.0
  {
  }

  // ---------------------------------------------------------------------
  // Final score, rounding and status
  // ---------------------------------------------------------------------

  lemma RoundInRange(x: real)
    requires 0.0 <= x <= 100.0
    ensures 0 <= Round(x) <= 100
  {
  }

  lemma RoundMonotone(x: real, y: real)
    requires x <= y
    ensures Round(x) <= Round(y)
  {
  }

  /** A rounded score reaches an integer threshold exactly when the unrounded
      one is at most half a point below it. */
  lemma RoundReaches(x: real, k: int)
    ensures Round(x) >= k <==> x >= k as real - 0.5
  {
  }

  /** The final score lies in [0, 100] for any inputs whatsoever, and so does
      the stored (rounded) score. */
  lemma FinalInRange(updates: seq<CheckIn>, feedback: Option<CheckIn>, openHigh: nat)
    ensures 0.0 <= Final(updates, feedback, openHigh) <= 100.0
    ensures PM.HealthScoreInRange(Score(updates, feedback, openHigh).healthScore)
  {
    RoundInRange(Final(updates, feedback, openHigh));
  }

  /** One more open High risk never raises the score, stored or unrounded. */
  lemma MoreRisksNeverRaise(updates: seq<CheckIn>, feedback: Option<CheckIn>, openHigh: nat)
    ensures Final(updates, feedback, openHigh + 1) <= Final(updates, feedback, openHigh)
    ensures Score(updates, feedback, openHigh + 1).healthScore <= Score(updates, feedback, openHigh).healthScore
  {
    RoundMonotone(Final(updates, feedback, openHigh + 1), Final(updates, feedback, openHigh));
  }

  /** The status is read off the unrounded score, never Completed, while the
      rounded score is what is stored; the breakdown holds the rounded
      components, the count and a penalty of ten points per risk. */
  lemma ReportContents(updates: seq<CheckIn>, feedback: Option<CheckIn>, openHigh: nat)
    ensures var r := Score(updates, feedback, openHigh);
      var f := Final(updates, feedback, openHigh);
      && r.healthScore == Round(f)
      && (r.status == PM.OnTrack <==> f >= 80.0)
      && (r.status == PM.AtRisk <==> 60.0 <= f < 80.0)
      && (r.status == PM.Critical <==> f < 60.0)
      && r.status != PM.Completed
      && r.breakdown.openHighRisks == openHigh
      && r.breakdown.riskPenalty == 10 * openHigh
      && r.breakdown.clientSatisfaction == Round(ClientSatisfactionScore(feedback))
      && r.breakdown.employeeConfidence == Round(EmployeeConfidenceScore(updates))
      && r.breakdown.scheduleProgress == Round(ScheduleProgressScore(updates))
  {
  }

  /** Because the status comes from the unrounded score, a final score of
      79.5 is stored as 80 with status At Risk, and 59.5 as 60 with status
      Critical; an update {65%, confidence 5} with satisfaction 5 reaches
      those scores with one and with three open High risks. */
  lemma RoundingSplitsStatus()
    ensures Round(79.5) == 80 && StatusOf(79.5) == PM.AtRisk
    ensures Round(59.5) == 60 && StatusOf(59.5) == PM.Critical
    ensures var u := SeedUpdate().(confidence := Some(5.0));
      && Score([u], Some(SeedFeedback()), 1) == HealthReport(80, PM.AtRisk, Breakdown(100, 100, 65, 1, 10))
      && Score([u], Some(SeedFeedback()), 3) == HealthReport(60, PM.Critical, Breakdown(100, 100, 65, 3, 30))
  {
    var u := SeedUpdate().(confidence := Some(5.0));
    assert [u][1..] == [];
    assert SumOf([u], ConfidenceOrDefault) == 5.0;
    assert EmployeeConfidenceScore([u]) == 100.0;
    assert Final([u], Some(SeedFeedback()), 1) == 79.5;
    assert Final([u], Some(SeedFeedback()), 3) == 59.5;
  }

  /** The engine's output always fits the project schema: writing it onto a
      valid project gives a valid project whose status is a schema value. */
  lemma EngineOutputFitsSchema(p: PM.Project, cs: seq<CheckIn>, rs: seq<Risk>, pid: Id)
    requires PM.Valid(p)
    ensures var r := Evaluate(cs, rs, pid);
      PM.Valid(PM.WithHealth(p, r.healthScore, r.status))
      && PM.ParseStatus(PM.StatusLabel(r.status)) == Some(r.status)
  {
    FinalInRange(RecentEmployeeUpdates(cs, pid), LatestClientFeedback(cs, pid), OpenHighRisks(rs, pid));
  }

  // ---------------------------------------------------------------------
  // Worked examples
  // ---------------------------------------------------------------------

  const ExampleProject: Id := 1
  const Employee1: Id := 2
  const ClientUser: Id := 3

  function SeedUpdate(): CheckIn
  {
    CheckIn(ExampleProject, Employee1, EmployeeUpdate, Some(65.0), Some(4.0),
            Some("Waiting for API documentation from third-party vendor"), None, None, None, 1000)
  }

  function SeedFeedback(): CheckIn
  {
    CheckIn(ExampleProject, ClientUser, ClientFeedback, None, None, None, Some(5.0), Some(5.0),
            Some("Very happy with the progress."), 2000)
  }

  function HighRisk(t: Time): Risk
  {
    Risk(ExampleProject, Employee1, "Vendor outage", High, "Fallback vendor", Open, t)
  }

  /** With no check-ins and no risks the defaults give 56 and Critical. */
  lemma EmptyStoreExample()
    ensures Evaluate([], [], ExampleProject) == HealthReport(56, PM.Critical, Breakdown(50, 60, 60, 0, 0))
  {
  }

  /** The seeded project: one update {65%, confidence 4}, feedback with
      satisfaction 5 and only a Medium risk give 83.5, stored as 84, On Track. */
  lemma SeedExample()
    ensures Evaluate([SeedUpdate(), SeedFeedback()],
                     [Risk(ExampleProject, Employee1, "Third-party API integration delay", Medium,
                           "Working with vendor", Open, 3000)],
                     ExampleProject)
            == HealthReport(84, PM.OnTrack, Breakdown(100, 80, 65, 0, 0))
  {
    var cs := [SeedUpdate(), SeedFeedback()];
    assert EmployeeUpdatesOf(cs, ExampleProject) == [SeedUpdate()];
    assert ClientFeedbackOf(cs, ExampleProject) == [SeedFeedback()];
    assert Final([SeedUpdate()], Some(SeedFeedback()), 0) == 83.5;
  }

  /** The same inputs with two and with four open High risks give 64 At Risk
      and 44 Critical. */
  lemma RiskPenaltyExamples()
    ensures Score([SeedUpdate()], Some(SeedFeedback()), 2) == HealthReport(64, PM.AtRisk, Breakdown(100, 80, 65, 2, 20))
    ensures Score([SeedUpdate()], Some(SeedFeedback()), 4) == HealthReport(44, PM.Critical, Breakdown(100, 80, 65, 4, 40))
  {
    assert Final([SeedUpdate()], Some(SeedFeedback()), 2) == 63.5;
    assert Final([SeedUpdate()], Some(SeedFeedback()), 4) == 43.5;
  }

  /** Confidences 5, 5, 5, 1, 1 average to 3.4, a component of 68. */
  lemma ConfidenceAverageExample()
    ensures var u := SeedUpdate();
      EmployeeConfidenceScore([u.(confidence := Some(5.0)), u.(confidence := Some(5.0)), u.(confidence := Some(5.0)),
                               u.(confidence := Some(1.0)), u.(confidence := Some(1.0))]) == 68.0
  {
    var u := SeedUpdate();
    var hi, lo := u.(confidence := Some(5.0)), u.(confidence := Some(1.0));
    var us := [hi, hi, hi, lo, lo];
    assert SumOf(us[4..], ConfidenceOrDefault) == 1.0;
    assert us[3..][1..] == us[4..];
    assert SumOf(us[3..], ConfidenceOrDefault) == 2.0;
    assert us[2..][1..] == us[3..];
    assert SumOf(us[2..], ConfidenceOrDefault) == 7.0;
    assert us[1..][1..] == us[2..];
    assert SumOf(us[1..], ConfidenceOrDefault) == 12.0;
    assert SumOf(us, ConfidenceOrDefault) == 17.0;
  }
}
