/** The document store the handlers and the score engine work on: the
    check-in and risk collections (append-only) and the project collection,
    whose entries change only through `FindByIdAndUpdate`. */
module DocumentStore {

  import opened Common
  import CI = CheckInModel
  import RM = RiskModel
  import PM = ProjectModel

  /** No two projects share an identifier. */
  predicate DistinctIds(ps: seq<PM.Project>)
  {
    forall i, j :: 0 <= i < j < |ps| ==> ps[i].id != ps[j].id
  }

  /** The project with identifier `id`, if there is one. */
  function FindById(ps: seq<PM.Project>, id: Id): (r: Option<PM.Project>)
    ensures r.Some? ==> r.value in ps && r.value.id == id
    ensures r.None? ==> forall i :: 0 <= i < |ps| ==> ps[i].id != id
  {
    if ps == [] then None
    else if ps[0].id == id then Some(ps[0])
    else FindById(ps[1..], id)
  }

  /** `findByIdAndUpdate(id, {healthScore, status})`: the entry with that
      identifier gets the new pair; an unknown identifier changes nothing. */
  function UpdateById(ps: seq<PM.Project>, id: Id, score: int, status: PM.ProjectStatus): (r: seq<PM.Project>)
    ensures |r| == |ps|
    ensures forall i :: 0 <= i < |ps| && ps[i].id != id ==> r[i] == ps[i]
    ensures forall i :: 0 <= i < |ps| && ps[i].id == id ==> r[i] == PM.WithHealth(ps[i], score, status)
  {
    if ps == [] then []
    else [if ps[0].id == id then PM.WithHealth(ps[0], score, status) else ps[0]]
         + UpdateById(ps[1..], id, score, status)
  }

  /** With distinct identifiers at most one entry differs after the update,
      and none when the identifier is unknown. */
  lemma UpdateChangesAtMostOne(ps: seq<PM.Project>, id: Id, score: int, status: PM.ProjectStatus)
    requires DistinctIds(ps)
    ensures var r := UpdateById(ps, id, score, status);
      forall i, j :: 0 <= i < |ps| && 0 <= j < |ps| && r[i] != ps[i] && r[j] != ps[j] ==> i == j
    ensures FindById(ps, id).None? ==> UpdateById(ps, id, score, status) == ps
  {
  }

  /** Writing the same pair twice is the same as writing it once. */
  lemma {:induction false} UpdateByIdIdempotent(ps: seq<PM.Project>, id: Id, score: int, status: PM.ProjectStatus)
    ensures UpdateById(UpdateById(ps, id, score, status), id, score, status) == UpdateById(ps, id, score, status)
  {
    if ps != [] {
      UpdateByIdIdempotent(ps[1..], id, score, status);
    }
  }

  class Store {
    var checkIns: seq<CI.CheckIn>
    var risks: seq<RM.Risk>
    var projects: seq<PM.Project>

    /** Every stored record satisfies its schema and project identifiers are unique. */
    ghost predicate Valid()
      reads this
    {
      && (forall i :: 0 <= i < |checkIns| ==> CI.Valid(checkIns[i]))
      && (forall i :: 0 <= i < |risks| ==> RM.Valid(risks[i]))
      && (forall i :: 0 <= i < |projects| ==> PM.Valid(projects[i]))
      && DistinctIds(projects)
    }

    constructor (initial: seq<PM.Project>)
      requires forall i :: 0 <= i < |initial| ==> PM.Valid(initial[i])
      requires DistinctIds(initial)
      ensures Valid()
      ensures checkIns == [] && risks == [] && projects == initial
    {
      checkIns, risks, projects := [], [], initial;
    }

    /** Appends a created check-in; nothing else changes. */
    method InsertCheckIn(c: CI.CheckIn)
      requires Valid() && CI.Valid(c)
      modifies this
      ensures Valid()
      ensures checkIns == old(checkIns) + [c]
      ensures risks == old(risks) && projects == old(projects)
    {
      checkIns := checkIns + [c];
    }

    /** Appends a created risk; nothing else changes. */
    method InsertRisk(r: RM.Risk)
      requires Valid() && RM.Valid(r)
      modifies this
      ensures Valid()
      ensures risks == old(risks) + [r]
      ensures checkIns == old(checkIns) && projects == old(projects)
    {
      risks := risks + [r];
    }

    /** Writes a health score and status onto the project with identifier `id`. */
    method FindByIdAndUpdate(id: Id, score: int, status: PM.ProjectStatus)
      requires Valid() && PM.HealthScoreInRange(score)
      modifies this
      ensures Valid()
      ensures projects == UpdateById(old(projects), id, score, status)
      ensures checkIns == old(checkIns) && risks == old(risks)
    {
      projects := UpdateById(projects, id, score, status);
    }
  }
}
