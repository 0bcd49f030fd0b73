/** The risk handlers (app/api/risks/route.ts): listing risks, narrowed by an
    optional project and, for employees, to the risks they reported; and
    reporting a risk, which only employees and administrators may do. */
module RisksRoute {

  import opened Common
  import opened Sequences
  import opened RiskModel
  import opened DocumentStore
  import CI = CheckInModel
  import HS = HealthScore

  /** The conditions of `Risk.find(query)`: a field left `None` is not constrained. */
  datatype RiskQuery = RiskQuery(project: Option<Id>, user: Option<Id>)

  predicate Matches(r: Risk, q: RiskQuery)
  {
    (q.project.None? || r.project == q.project.value) && (q.user.None? || r.user == q.user.value)
  }

  /** Sort key for `sort({createdAt: -1})`. */
  function RiskNewestKey(r: Risk): int { -r.createdAt }

  /** The stored risks a caller may list, in store order: those of the
      requested project (all when none is requested) and, for an employee,
      only the ones they reported. */
  function Listed(rs: seq<Risk>, u: AuthUser, projectId: Option<Id>): seq<Risk>
  {
    Filter(rs, (r: Risk) => (projectId.Some? ==> r.project == projectId.value)
                            && (u.role == Employee ==> r.user == u.id))
  }

  /** The risks listed are stored ones meeting both conditions, each at most
      as often as it is stored, and every such risk is listed. */
  lemma ListedMembers(rs: seq<Risk>, u: AuthUser, projectId: Option<Id>)
    ensures forall r: Risk :: r in Listed(rs, u, projectId) <==>
              && r in rs
              && (projectId.Some? ==> r.project == projectId.value)
              && (u.role == Employee ==> r.user == u.id)
    ensures multiset(Listed(rs, u, projectId)) <= multiset(rs)
  {
    FilterIsSubMultiset(rs, (r: Risk) => (projectId.Some? ==> r.project == projectId.value)
                                         && (u.role == Employee ==> r.user == u.id));
  }

  /** The query the handler builds selects exactly the risks the caller may list. */
  lemma QueryListsSelection(rs: seq<Risk>, u: AuthUser, projectId: Option<Id>, q: RiskQuery)
    requires q.project == projectId
    requires q.user == (if u.role == Employee then Some(u.id) else None)
    ensures Filter(rs, (r: Risk) => Matches(r, q)) == Listed(rs, u, projectId)
  {
    FilterSameCondition(rs, (r: Risk) => Matches(r, q),
                        (r: Risk) => (projectId.Some? ==> r.project == projectId.value)
                                     && (u.role == Employee ==> r.user == u.id));
  }

  /** `GET /api/risks?projectId=…`. Without a session the reply is 401.
      Otherwise every stored risk of the requested project (of any project
      when none is requested) is listed, newest first; an employee sees
      only the risks they reported, while administrators and clients see
      them all. An empty `projectId` is passed as `None`. */
  method Get(store: Store, user: Option<AuthUser>, projectId: Option<Id>) returns (resp: Response<seq<Risk>>)
    ensures user.None? <==> resp == Unauthorized
    ensures user.Some? ==> resp.Ok?
    ensures resp.Ok? ==> SortedBy(resp.body, RiskNewestKey)
    ensures resp.Ok? ==> forall r: Risk :: r in resp.body <==>
              && r in store.risks
              && (projectId.Some? ==> r.project == projectId.value)
              && (user.value.role == Employee ==> r.user == user.value.id)
    ensures resp.Ok? ==> multiset(resp.body) <= multiset(store.risks)
    ensures resp.Ok? ==> multiset(resp.body) == multiset(Listed(store.risks, user.value, projectId))
  {
    if user.None? {
      return Unauthorized;
    }
    var query := RiskQuery(None, None);
    if projectId.Some? {
      query := query.(project := projectId);
    }
    if user.value.role == Employee {
      query := query.(user := Some(user.value.id));
    }
    var found := Filter(store.risks, (r: Risk) => Matches(r, query));
    QueryListsSelection(store.risks, user.value, projectId, query);
    ListedMembers(store.risks, user.value, projectId);
    var sorted := SortBy(found, RiskNewestKey);
    forall r: Risk ensures r in sorted <==> r in found {
      assert r in sorted <==> r in multiset(sorted);
    }
    resp := Ok(sorted);
  }

  /** Only employees and administrators may report a risk. */
  predicate MayReport(role: Role)
  {
    role == Employee || role == Admin
  }

  /** The document handed to `Risk.create`: the body with `user` set to the reporter. */
  function Stamped(body: RiskDoc, caller: AuthUser): (d: RiskDoc)
    ensures d.user == Some(caller.id)
    ensures d.(user := body.user) == body
  {
    body.(user := Some(caller.id))
  }

  /** `POST /api/risks`. Without a session the reply is 401; a client (or
      any role other than employee and administrator) gets 403; in both
      cases nothing changes. A document the schema rejects, or a failing
      insert, gives 500 and nothing changes. Otherwise the risk is stored
      under the caller; a failure while recomputing gives 500 and keeps the
      stored risk, and without one the body's project gets the engine's
      score over the collections including the new risk. */
  method Post(store: Store, user: Option<AuthUser>, body: RiskDoc, now: Time, fault: Fault)
    returns (resp: Response<Risk>)
    requires store.Valid()
    modifies store
    ensures store.Valid()
    ensures user.None? ==> resp == Unauthorized && unchanged(store)
    ensures user.Some? && !MayReport(user.value.role) ==> resp == Forbidden && unchanged(store)
    ensures user.Some? && MayReport(user.value.role)
            && (Create(Stamped(body, user.value), now).None? || fault == CreateFails) ==>
              resp == ServerError && unchanged(store)
    ensures user.Some? && MayReport(user.value.role)
            && Create(Stamped(body, user.value), now).Some? && fault != CreateFails ==>
              var r := Create(Stamped(body, user.value), now).value;
              && store.risks == old(store.risks) + [r]
              && store.checkIns == old(store.checkIns)
              && (fault == RecomputeFails ==> resp == ServerError && store.projects == old(store.projects))
              && (fault == NoFault ==>
                    var h := HS.Evaluate(store.checkIns, store.risks, r.project);
                    resp == Ok(r) && store.projects == UpdateById(old(store.projects), r.project, h.healthScore, h.status))
  {
    if user.None? {
      return Unauthorized;
    }
    if user.value.role != Employee && user.value.role != Admin {
      return Forbidden;
    }
    var doc := Stamped(body, user.value);
    var created := Create(doc, now);
    if created.None? || fault == CreateFails {
      return ServerError;
    }
    var risk := created.value;
    store.InsertRisk(risk);
    if fault == RecomputeFails {
      return ServerError;
    }
    var _ := HS.CalculateAndUpdateHealthScore(store, body.project.value);
    resp := Ok(risk);
  }

  /** A reported risk costs the project ten points of penalty exactly when
      it is an open High risk; any other report leaves the score as it was,
      and a costly one never raises it. */
  lemma ReportEffect(cs: seq<CI.CheckIn>, rs: seq<Risk>, r: Risk)
    ensures HS.IsOpenHighRiskOf(r, r.project) ==>
              HS.Evaluate(cs, rs + [r], r.project).breakdown.riskPenalty
                == HS.Evaluate(cs, rs, r.project).breakdown.riskPenalty + 10
              && HS.Evaluate(cs, rs + [r], r.project).healthScore <= HS.Evaluate(cs, rs, r.project).healthScore
    ensures !HS.IsOpenHighRiskOf(r, r.project) ==> HS.Evaluate(cs, rs + [r], r.project) == HS.Evaluate(cs, rs, r.project)
  {
    HS.OpenHighRisksAppend(rs, r, r.project);
    HS.MoreRisksNeverRaise(HS.RecentEmployeeUpdates(cs, r.project), HS.LatestClientFeedback(cs, r.project),
                           HS.OpenHighRisks(rs, r.project));
  }
}
