/** The project record (models/Project.ts): its status enum, the health-score
    range, the required fields and the defaults. */
module ProjectModel {

  import opened Common

  datatype ProjectStatus = OnTrack | AtRisk | Critical | Completed

  /** The string stored for each status. */
  function StatusLabel(s: ProjectStatus): string
  {
    match s
    case OnTrack => "On Track"
    case AtRisk => "At Risk"
    case Critical => "Critical"
    case Completed => "Completed"
  }

  /** No two statuses share a label, so comparing labels compares statuses. */
  lemma StatusLabelInjective(a: ProjectStatus, b: ProjectStatus)
    ensures StatusLabel(a) == StatusLabel(b) <==> a == b
  {
  }

  function ParseStatus(s: string): (r: Option<ProjectStatus>)
    ensures r.Some? ==> StatusLabel(r.value) == s
    ensures forall v: ProjectStatus :: StatusLabel(v) == s ==> r == Some(v)
  {
    if s == "On Track" then Some(OnTrack)
    else if s == "At Risk" then Some(AtRisk)
    else if s == "Critical" then Some(Critical)
    else if s == "Completed" then Some(Completed)
    else None
  }

  const DefaultHealthScore: int := 85

  /** A project body as submitted; `employees` may be missing or empty. */
  datatype ProjectDoc = ProjectDoc(
    name: Option<string>,
    description: Option<string>,
    startDate: Option<Time>,
    endDate: Option<Time>,
    status: Option<string>,
    healthScore: Option<int>,
    client: Option<Id>,
    employees: Option<seq<Id>>)

  datatype Project = Project(
    id: Id,
    name: string,
    description: string,
    startDate: Time,
    endDate: Time,
    status: ProjectStatus,
    healthScore: int,
    client: Id,
    employees: seq<Id>)

  predicate HealthScoreInRange(h: int)
  {
    0 <= h <= 100
  }

  predicate Valid(p: Project)
  {
    p.name != "" && p.description != "" && HealthScoreInRange(p.healthScore)
  }

  predicate ValidDoc(d: ProjectDoc)
  {
    && d.name.Some? && d.name.value != ""
    && d.description.Some? && d.description.value != ""
    && d.startDate.Some?
    && d.endDate.Some?
    && (d.status.None? || ParseStatus(d.status.value).Some?)
    && (d.healthScore.None? || HealthScoreInRange(d.healthScore.value))
    && d.client.Some?
  }

  /** `Project.create(d)` under identifier `id`: defaults On Track, 85 and no
      employees; nothing when validation fails. */
  function Create(id: Id, d: ProjectDoc): (r: Option<Project>)
    ensures r.Some? <==> ValidDoc(d)
    ensures r.Some? ==> Valid(r.value) && r.value.id == id
    ensures r.Some? && d.status.None? ==> r.value.status == OnTrack
    ensures r.Some? && d.healthScore.None? ==> r.value.healthScore == DefaultHealthScore
    ensures r.Some? && d.employees.None? ==> r.value.employees == []
    ensures r.Some? ==>
              && Some(r.value.name) == d.name && Some(r.value.description) == d.description
              && Some(r.value.startDate) == d.startDate && Some(r.value.endDate) == d.endDate
              && Some(r.value.client) == d.client
    ensures r.Some? && d.status.Some? ==> Some(r.value.status) == ParseStatus(d.status.value)
    ensures r.Some? && d.healthScore.Some? ==> r.value.healthScore == d.healthScore.value
    ensures r.Some? && d.employees.Some? ==> r.value.employees == d.employees.value
  {
    if ValidDoc(d) then
      Some(Project(id, d.name.value, d.description.value, d.startDate.value, d.endDate.value,
                   if d.status.None? then OnTrack else ParseStatus(d.status.value).value,
                   if d.healthScore.None? then DefaultHealthScore else d.healthScore.value,
                   d.client.value,
                   if d.employees.None? then [] else d.employees.value))
    else None
  }

  /** The document a stored project was created from, every field given. */
  function ToDoc(p: Project): ProjectDoc
  {
    ProjectDoc(Some(p.name), Some(p.description), Some(p.startDate), Some(p.endDate),
               Some(StatusLabel(p.status)), Some(p.healthScore), Some(p.client), Some(p.employees))
  }

  /** Every valid stored project is created again, under its own
      identifier, from its own document. */
  lemma CreateToDoc(p: Project)
    requires Valid(p)
    ensures Create(p.id, ToDoc(p)) == Some(p)
  {
    assert ParseStatus(StatusLabel(p.status)) == Some(p.status);
  }

  /** The score engine's write: the health score and status it computed,
      everything else kept. */
  function WithHealth(p: Project, score: int, status: ProjectStatus): (q: Project)
    ensures q.healthScore == score && q.status == status
    ensures q.id == p.id && q.client == p.client && q.employees == p.employees
    ensures q.name == p.name && q.description == p.description
    ensures q.(healthScore := p.healthScore, status := p.status) == p
    ensures Valid(p) && HealthScoreInRange(score) ==> Valid(q)
  {
    p.(healthScore := score, status := status)
  }
}
