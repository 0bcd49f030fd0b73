/** The check-in ingestion handler (app/api/checkins/route.ts): any signed-in
    user may post a check-in; it is stored under the caller's identity and
    the project's health score is recomputed before the reply. */
module CheckInsRoute {

  import opened Common
  import opened CheckInModel
  import opened DocumentStore
  import HS = HealthScore

  /** The document handed to `CheckIn.create`: the request body with `user`
      set to the caller, whatever the body said. */
  function Stamped(body: CheckInDoc, caller: AuthUser): (d: CheckInDoc)
    ensures d.user == Some(caller.id)
    ensures d.(user := body.user) == body
  {
    body.(user := Some(caller.id))
  }

  /** `POST /api/checkins`. Without a session the reply is 401 and nothing
      changes. A document the schema rejects, or a failing insert, gives 500
      and nothing changes. Otherwise the check-in is stored; a failure while
      recomputing then gives 500 and leaves the stored check-in in place,
      and without one the project named in the body gets the engine's
      score over the collections including the new check-in. No role is
      checked. */
  method Post(store: Store, user: Option<AuthUser>, body: CheckInDoc, now: Time, fault: Fault)
    returns (resp: Response<CheckIn>)
    requires store.Valid()
    modifies store
    ensures store.Valid()
    ensures user.None? ==> resp == Unauthorized && unchanged(store)
    ensures user.Some? && (Create(Stamped(body, user.value), now).None? || fault == CreateFails) ==>
              resp == ServerError && unchanged(store)
    ensures user.Some? && Create(Stamped(body, user.value), now).Some? && fault != CreateFails ==>
              var c := Create(Stamped(body, user.value), now).value;
              && store.checkIns == old(store.checkIns) + [c]
              && store.risks == old(store.risks)
              && (fault == RecomputeFails ==> resp == ServerError && store.projects == old(store.projects))
              && (fault == NoFault ==>
                    var h := HS.Evaluate(store.checkIns, store.risks, c.project);
                    resp == Ok(c) && store.projects == UpdateById(old(store.projects), c.project, h.healthScore, h.status))
  {
    if user.None? {
      return Unauthorized;
    }
    var doc := Stamped(body, user.value);
    var created := Create(doc, now);
    if created.None? || fault == CreateFails {
      return ServerError;
    }
    var checkIn := created.value;
    store.InsertCheckIn(checkIn);
    if fault == RecomputeFails {
      return ServerError;
    }
    var _ := HS.CalculateAndUpdateHealthScore(store, body.project.value);
    resp := Ok(checkIn);
  }

  /** The stored check-in names the caller even when the body named someone
      else, and keeps every other field of the body. */
  lemma CallerOwnsCheckIn(body: CheckInDoc, caller: AuthUser, now: Time)
    requires Create(Stamped(body, caller), now).Some?
    ensures var c := Create(Stamped(body, caller), now).value;
      c.user == caller.id && c.project == body.project.value && TypeLabel(c.kind) == body.kind.value
      && c.progress == body.progress && c.confidence == body.confidence
      && c.satisfaction == body.satisfaction && c.communication == body.communication
  {
    var c := Create(Stamped(body, caller), now).value;
    assert ToDoc(c) == Stamped(body, caller).(createdAt := Some(c.createdAt));
  }

  /** A body without a project or type, or with a value out of range, is
      refused whoever posts it. */
  lemma InvalidBodyRefused(body: CheckInDoc, caller: AuthUser, now: Time)
    requires body.project.None? || body.kind.None?
             || !FieldsInRange(body.progress, body.confidence, body.satisfaction, body.communication)
    ensures Create(Stamped(body, caller), now).None?
  {
  }

  /** When the posted check-in's creation time is later than every stored
      check-in's, a posted employee update becomes the first update the
      engine reads and a posted client feedback the feedback it reads. That
      time is the store's clock `now` unless the body supplied its own. */
  lemma PostedCheckInIsRead(cs: seq<CheckIn>, body: CheckInDoc, caller: AuthUser, now: Time)
    requires Create(Stamped(body, caller), now).Some?
    requires forall i :: 0 <= i < |cs| ==> cs[i].createdAt < Create(Stamped(body, caller), now).value.createdAt
    ensures var c := Create(Stamped(body, caller), now).value;
      && (c.kind == EmployeeUpdate ==>
            HS.RecentEmployeeUpdates(cs + [c], c.project) != []
            && HS.RecentEmployeeUpdates(cs + [c], c.project)[0] == c
            && HS.ScheduleProgressScore(HS.RecentEmployeeUpdates(cs + [c], c.project)) == HS.ProgressOrDefault(c))
      && (c.kind == ClientFeedback ==> HS.LatestClientFeedback(cs + [c], c.project) == Some(c))
  {
    var c := Create(Stamped(body, caller), now).value;
    if c.kind == EmployeeUpdate {
      HS.NewestUpdateLeads(cs, c, c.project);
    } else {
      HS.NewestFeedbackLeads(cs, c, c.project);
    }
  }

  /** The body may carry its own `createdAt`, which the store keeps: a client
      feedback posted with a time earlier than a stored feedback of the same
      project is not the feedback the engine reads. */
  lemma BackdatedFeedbackNotRead(cs: seq<CheckIn>, body: CheckInDoc, caller: AuthUser, now: Time, k: CheckIn)
    requires Create(Stamped(body, caller), now).Some?
    requires Create(Stamped(body, caller), now).value.kind == ClientFeedback
    requires body.createdAt.Some?
    requires k in cs && k.project == body.project.value && k.kind == ClientFeedback
    requires body.createdAt.value < k.createdAt
    ensures var c := Create(Stamped(body, caller), now).value;
      HS.LatestClientFeedback(cs + [c], c.project) != Some(c)
  {
    var c := Create(Stamped(body, caller), now).value;
    assert k in cs + [c];
    HS.LatestFeedbackSelection(cs + [c], c.project);
  }
}
