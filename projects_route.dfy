/** The project listing handler (app/api/projects/route.ts): each role sees
    its own slice of the projects, lowest health score first, each flagged
    when it has had no check-in in the last seven days. */
module ProjectsRoute {

  import opened Common
  import opened Sequences
  import opened ProjectModel
  import opened DocumentStore
  import CI = CheckInModel

  /** An entry of the reply: the project and its `missingCheckIn` flag. */
  datatype ProjectListing = ProjectListing(project: Project, missingCheckIn: bool)

  /** The projects a user's query selects: all of them for an administrator,
      those listing the user among `employees` for an employee, those whose
      `client` is the user for a client. Any other role runs no query. */
  predicate Visible(p: Project, u: AuthUser)
  {
    match u.role
    case Admin => true
    case Employee => u.id in p.employees
    case Client => p.client == u.id
    case OtherRole(_) => false
  }

  /** Sort key for `sort({healthScore: 1})`. */
  function HealthKey(p: Project): int { p.healthScore }

  /** `CheckIn.findOne({project: pid, createdAt: {$gte: since}})`. */
  function RecentCheckIn(cs: seq<CI.CheckIn>, pid: Id, since: Time): (r: Option<CI.CheckIn>)
    ensures r.Some? ==> r.value in cs && r.value.project == pid && r.value.createdAt >= since
    ensures r.None? <==> forall i :: 0 <= i < |cs| ==> !(cs[i].project == pid && cs[i].createdAt >= since)
  {
    if cs == [] then None
    else if cs[0].project == pid && cs[0].createdAt >= since then Some(cs[0])
    else RecentCheckIn(cs[1..], pid, since)
  }

  /** `{...project, missingCheckIn: !recentCheckIn}` with the window
      starting seven days before `now`. */
  function WithMissingFlag(cs: seq<CI.CheckIn>, p: Project, now: Time): (l: ProjectListing)
    ensures l.project == p
    ensures l.missingCheckIn <==>
              forall i :: 0 <= i < |cs| ==> cs[i].project != p.id || cs[i].createdAt < now - WeekMillis
  {
    ProjectListing(p, RecentCheckIn(cs, p.id, now - WeekMillis).None?)
  }

  /** The projects of a reply, in order. */
  function Projects(ls: seq<ProjectListing>): (ps: seq<Project>)
    ensures |ps| == |ls|
    ensures forall i :: 0 <= i < |ls| ==> ps[i] == ls[i].project
  {
    if ls == [] then [] else [ls[0].project] + Projects(ls[1..])
  }

  /** The reply entries for `ps`, in order. */
  function Listings(cs: seq<CI.CheckIn>, ps: seq<Project>, now: Time): (ls: seq<ProjectListing>)
    ensures Projects(ls) == ps
    ensures forall i :: 0 <= i < |ls| ==> ls[i] == WithMissingFlag(cs, ps[i], now)
  {
    if ps == [] then [] else [WithMissingFlag(cs, ps[0], now)] + Listings(cs, ps[1..], now)
  }

  /** `GET /api/projects`. Without a session the reply is 401. A role
      other than the three known ones leaves the project list undefined and
      the handler fails with 500. Otherwise the reply holds exactly the
      projects visible to the user, each once per stored copy, in ascending
      order of health score, each with the flag `WithMissingFlag` gives it
      for the seven days before `now`. */
  method Get(store: Store, user: Option<AuthUser>, now: Time) returns (resp: Response<seq<ProjectListing>>)
    ensures user.None? <==> resp == Unauthorized
    ensures resp == ServerError <==> user.Some? && user.value.role.OtherRole?
    ensures resp.Ok? ==>
              && SortedBy(Projects(resp.body), HealthKey)
              && multiset(Projects(resp.body)) == multiset(Filter(store.projects, (p: Project) => Visible(p, user.value)))
    ensures resp.Ok? ==> forall p: Project :: p in Projects(resp.body) <==> p in store.projects && Visible(p, user.value)
    ensures resp.Ok? ==> forall i :: 0 <= i < |resp.body| ==>
              resp.body[i] == WithMissingFlag(store.checkIns, resp.body[i].project, now)
  {
    if user.None? {
      return Unauthorized;
    }
    var u := user.value;
    var found: seq<Project>;
    if u.role == Admin {
      found := store.projects;
      FilterAll(store.projects, (p: Project) => Visible(p, u));
    } else if u.role == Employee {
      found := Filter(store.projects, (p: Project) => u.id in p.employees);
      FilterSameCondition(store.projects, (p: Project) => u.id in p.employees, (p: Project) => Visible(p, u));
    } else if u.role == Client {
      found := Filter(store.projects, (p: Project) => p.client == u.id);
      FilterSameCondition(store.projects, (p: Project) => p.client == u.id, (p: Project) => Visible(p, u));
    } else {
      return ServerError;
    }
    assert found == Filter(store.projects, (p: Project) => Visible(p, u));
    var projects := SortBy(found, HealthKey);
    VisibleMembers(store.projects, u, projects);
    resp := Ok(Listings(store.checkIns, projects, now));
  }

  /** A sequence with the multiset of the visible projects holds exactly them. */
  lemma VisibleMembers(ps: seq<Project>, u: AuthUser, r: seq<Project>)
    requires multiset(r) == multiset(Filter(ps, (p: Project) => Visible(p, u)))
    ensures forall p: Project :: p in r <==> p in ps && Visible(p, u)
  {
    var f := Filter(ps, (p: Project) => Visible(p, u));
    forall p: Project ensures p in r <==> p in ps && Visible(p, u) {
      assert p in r <==> p in multiset(f);
    }
  }

  /** A check-in of the project created within the window clears its flag;
      one created exactly seven days earlier still counts. */
  lemma CheckInClearsFlag(cs: seq<CI.CheckIn>, c: CI.CheckIn, p: Project, now: Time)
    requires c.project == p.id && now - WeekMillis <= c.createdAt
    ensures !WithMissingFlag(cs + [c], p, now).missingCheckIn
  {
    assert (cs + [c])[|cs|] == c;
  }

  /** New check-ins never raise the flag, and a project flagged at one time
      stays flagged at every later time while no check-in is added. */
  lemma FlagMonotone(cs: seq<CI.CheckIn>, c: CI.CheckIn, p: Project, now: Time, later: Time)
    requires now <= later
    ensures WithMissingFlag(cs + [c], p, now).missingCheckIn ==> WithMissingFlag(cs, p, now).missingCheckIn
    ensures WithMissingFlag(cs, p, now).missingCheckIn ==> WithMissingFlag(cs, p, later).missingCheckIn
  {
    if WithMissingFlag(cs + [c], p, now).missingCheckIn {
      forall i | 0 <= i < |cs| ensures cs[i].project != p.id || cs[i].createdAt < now - WeekMillis {
        assert (cs + [c])[i] == cs[i];
      }
    }
  }
}
