/** The project collection endpoint: `GET /api/projects` lists every project
    with its creator and five newest comments, `POST /api/projects` validates a
    payload, provisions the placeholder creator when it is missing and inserts
    one project owned by it. */
module ProjectRoute {
  import opened Wrappers
  import opened Text
  import opened Json
  import opened Zod
  import opened Statuses
  import opened ProjectSchema
  import opened Store
  import opened Ordering
  import CommentRoute

  // ---------------------------------------------------------------------------
  // The placeholder creator
  // ---------------------------------------------------------------------------

  const TempEmail := "temp@example.com"

  /** The user the handler creates when no user has the placeholder e-mail. */
  const TempUser := User(Some("Utilisateur Temporaire"), Some(TempEmail), None, "USER")

  /** The ids of the users holding the placeholder e-mail. */
  function SentinelIds(users: map<Id, User>): set<Id> {
    set k | k in users && users[k].email == Some(TempEmail)
  }

  /** `findFirst({ where: { email } })`: some user with that e-mail, or none when there is none. */
  method FindByEmail(users: map<Id, User>, email: string) returns (r: Option<Id>)
    ensures r.Some? ==> r.value in users && users[r.value].email == Some(email)
    ensures r.None? <==> forall k :: k in users ==> users[k].email != Some(email)
  {
    var todo := users.Keys;
    while todo != {}
      invariant todo <= users.Keys
      invariant forall k :: k in users && k !in todo ==> users[k].email != Some(email)
      decreases todo
    {
      var k :| k in todo;
      if users[k].email == Some(email) {
        return Some(k);
      }
      todo := todo - {k};
    }
    return None;
  }

  /** Adding the placeholder user where none exists makes it the only one. */
  lemma AddSentinel(users: map<Id, User>, id: Id)
    requires SentinelIds(users) == {} && id !in users
    ensures SentinelIds(users[id := TempUser]) == {id}
  {
    forall k | k in users
      ensures users[k].email != Some(TempEmail)
    {
      assert k !in SentinelIds(users);
    }
  }

  // ---------------------------------------------------------------------------
  // POST
  // ---------------------------------------------------------------------------

  datatype Outcome =
    | Created(id: Id, project: Project, creator: User)
    | Invalid(errors: seq<FieldError>)
    | Failed

  function StatusCode(o: Outcome): nat {
    match o
    case Created(_, _, _) => 201
    case Invalid(_) => 400
    case Failed => 500
  }

  /** `value ? new Date(value) : null`: a falsy date is stored as null; `toIso` converts a
      date string and yields `None` for one that names no date, which the store refuses. */
  function StoredDate(d: Option<string>, toIso: string -> Option<string>): (r: Result<Option<string>, ()>)
    ensures !Truthy(d) ==> r == Success(None)
    ensures Truthy(d) ==> (r.Success? <==> toIso(d.value).Some?)
    ensures Truthy(d) && r.Success? ==> r.value == toIso(d.value)
  {
    if !Truthy(d) then Success(None)
    else match toIso(d.value)
      case None => Failure(())
      case Some(iso) => Success(Some(iso))
  }

  /** The row to insert: falsy description and image become null, the dates are converted. */
  function NewProject(v: ProjectInput, toIso: string -> Option<string>, creator: Id, now: int): Result<Project, ()> {
    var start := StoredDate(v.startDate, toIso);
    var end := StoredDate(v.endDate, toIso);
    if start.Failure? || end.Failure? then Failure(())
    else Success(Project(v.name, OrNull(v.description), OrNull(v.image), v.status, v.priority,
                         start.value, end.value, Some(creator), now))
  }

  /** `POST /api/projects`. `body` is `None` when the request body is not valid JSON; `newUserId`,
      `newProjectId` and `now` are what the store assigns. The steps are not one transaction: a
      placeholder user created before a failed project insert stays. */
  method Create(s: Store, body: Option<Payload>, isUrl: string -> bool, toIso: string -> Option<string>,
                newUserId: Id, newProjectId: Id, now: int) returns (s': Store, o: Outcome)
    ensures s'.comments == s.comments
    ensures body.None? ==> s' == s && o == Failed
    ensures o.Invalid? <==> body.Some? && !Accepts(body.value, isUrl, Server)
    ensures o.Invalid? ==> s' == s && o.errors == Flatten(Parse(body.value, isUrl, Server).error)
    // the placeholder user: reused when present, otherwise created once the body is valid
    ensures body.Some? && Accepts(body.value, isUrl, Server) && SentinelIds(s.users) != {} ==>
              s'.users == s.users
    ensures body.Some? && Accepts(body.value, isUrl, Server) && SentinelIds(s.users) == {} && newUserId !in s.users ==>
              s'.users == s.users[newUserId := TempUser]
    ensures !(body.Some? && Accepts(body.value, isUrl, Server)) ==> s'.users == s.users
    ensures SentinelIds(s.users) == {} ==> SentinelIds(s'.users) <= {newUserId}
    ensures SentinelIds(s.users) != {} ==> SentinelIds(s'.users) == SentinelIds(s.users)
    // the project
    ensures o.Created? <==>
              && body.Some? && Accepts(body.value, isUrl, Server)
              && (SentinelIds(s.users) != {} || newUserId !in s.users)
              && StoredDate(Parse(body.value, isUrl, Server).value.startDate, toIso).Success?
              && StoredDate(Parse(body.value, isUrl, Server).value.endDate, toIso).Success?
              && newProjectId !in s.projects
    ensures !o.Created? ==> s'.projects == s.projects
    ensures o.Created? ==>
              && o.id == newProjectId
              && s'.projects == s.projects[newProjectId := o.project]
              && o.project.creatorId.Some?
              && o.project.creatorId.value in SentinelIds(s'.users)
              && o.creator == s'.users[o.project.creatorId.value]
              && o.project.createdAt == now
    ensures o.Created? ==>
              var v := Parse(body.value, isUrl, Server).value;
              && o.project.name == v.name && o.project.status == v.status && o.project.priority == v.priority
              && o.project.description == OrNull(v.description)
              && o.project.image == OrNull(v.image)
              && (o.project.startDate.Some? <==> Truthy(v.startDate))
              && (o.project.endDate.Some? <==> Truthy(v.endDate))
              && o.project.startDate == StoredDate(v.startDate, toIso).value
              && o.project.endDate == StoredDate(v.endDate, toIso).value
  {
    if body.None? {
      return s, Failed;
    }
    var parsed := Parse(body.value, isUrl, Server);
    if parsed.Failure? {
      return s, Invalid(Flatten(parsed.error));
    }
    var v := parsed.value;
    var found := FindByEmail(s.users, TempEmail);
    var creator: Id;
    s' := s;
    if found.Some? {
      creator := found.value;
      assert creator in SentinelIds(s.users);
    } else {
      assert SentinelIds(s.users) == {};
      if newUserId in s.users {
        return s, Failed;
      }
      AddSentinel(s.users, newUserId);
      s' := s.(users := s.users[newUserId := TempUser]);
      creator := newUserId;
    }
    var row := NewProject(v, toIso, creator, now);
    if row.Failure? || newProjectId in s'.projects {
      return s', Failed;
    }
    s' := s'.(projects := s'.projects[newProjectId := row.value]);
    o := Created(newProjectId, row.value, s'.users[creator]);
  }

  /** Any run of creations keeps at most one placeholder user, and leaves exactly one once a
      project has been created. */
  method CreateMany(s: Store, bodies: seq<Option<Payload>>, isUrl: string -> bool, toIso: string -> Option<string>,
                    userIds: seq<Id>, projectIds: seq<Id>, now: int) returns (s': Store, os: seq<Outcome>)
    requires |SentinelIds(s.users)| <= 1
    requires |userIds| == |bodies| && |projectIds| == |bodies|
    ensures |os| == |bodies|
    ensures |SentinelIds(s'.users)| <= 1
    ensures (exists i :: 0 <= i < |os| && os[i].Created?) ==> |SentinelIds(s'.users)| == 1
  {
    s' := s;
    os := [];
    var i := 0;
    while i < |bodies|
      invariant 0 <= i <= |bodies|
      invariant |os| == i
      invariant |SentinelIds(s'.users)| <= 1
      invariant (exists j :: 0 <= j < i && os[j].Created?) ==> |SentinelIds(s'.users)| == 1
    {
      var before := SentinelIds(s'.users);
      var next, o := Create(s', bodies[i], isUrl, toIso, userIds[i], projectIds[i], now);
      var after := SentinelIds(next.users);
      if before == {} {
        assert after == {} || after == {userIds[i]};
      }
      if o.Created? {
        assert o.project.creatorId.value in after;
        assert |after| >= 1;
      }
      os := os + [o];
      s' := next;
      i := i + 1;
    }
  }

  // ---------------------------------------------------------------------------
  // GET
  // ---------------------------------------------------------------------------

  const RecentLimit: nat := 5

  datatype RecentComment = RecentComment(id: Id, title: string, createdAt: int, author: Option<User>)

  /** A listed project with its creator, its newest comments and its comment count. */
  datatype ProjectView = ProjectView(
    id: Id,
    project: Project,
    creator: Option<User>,
    recent: seq<RecentComment>,
    commentCount: nat)

  function ProjectStamps(m: map<Id, Project>): map<Id, int> {
    CreationTimes(m, (p: Project) => p.createdAt)
  }

  /** The ids of the comments attached to a project. */
  function CommentIdsOf(s: Store, pid: Id): set<Id> {
    set k | k in s.comments && s.comments[k].projectId == Some(pid)
  }

  function RecentIds(rs: seq<RecentComment>): seq<Id> {
    IdsOf(rs, (r: RecentComment) => r.id)
  }

  function ProjectIds(vs: seq<ProjectView>): seq<Id> {
    IdsOf(vs, (v: ProjectView) => v.id)
  }

  /** The project's five newest comments (all when fewer), newest first, none left out newer. */
  ghost predicate RecentOf(s: Store, pid: Id, rs: seq<RecentComment>) {
    var ids := RecentIds(rs);
    var stamps := CommentRoute.Stamps(s.comments);
    && |ids| == Min(RecentLimit, |CommentIdsOf(s, pid)|)
    && (forall k :: k in ids ==> k in CommentIdsOf(s, pid))
    && Distinct(ids)
    && SortedBy(stamps, NewestFirst, ids)
    && (forall k, i :: k in CommentIdsOf(s, pid) && k !in ids && 0 <= i < |ids| ==> stamps[k] <= stamps[ids[i]])
    && (forall i :: 0 <= i < |rs| ==>
          && rs[i].title == s.comments[rs[i].id].title
          && rs[i].createdAt == s.comments[rs[i].id].createdAt
          && rs[i].author == Lookup(s.users, s.comments[rs[i].id].authorId))
  }

  ghost predicate ProjectViewOf(s: Store, v: ProjectView) {
    && v.id in s.projects
    && v.project == s.projects[v.id]
    && v.creator == Lookup(s.users, v.project.creatorId)
    && RecentOf(s, v.id, v.recent)
    && v.commentCount == |CommentIdsOf(s, v.id)|
  }

  method Recent(s: Store, pid: Id) returns (rs: seq<RecentComment>)
    ensures RecentOf(s, pid, rs)
  {
    var ids := Newest(CommentRoute.Stamps(s.comments), CommentIdsOf(s, pid), RecentLimit);
    rs := seq(|ids|, i requires 0 <= i < |ids| =>
                var c := s.comments[ids[i]];
                RecentComment(ids[i], c.title, c.createdAt, Lookup(s.users, c.authorId)));
    assert RecentIds(rs) == ids;
  }

  /** One project with its creator, its newest comments and its comment count. */
  method View(s: Store, id: Id) returns (v: ProjectView)
    requires id in s.projects
    ensures v.id == id && ProjectViewOf(s, v)
  {
    var p := s.projects[id];
    var recent := Recent(s, id);
    v := ProjectView(id, p, Lookup(s.users, p.creatorId), recent, |CommentIdsOf(s, id)|);
  }

  /** `GET /api/projects`: every project once, newest first, each with its relations. */
  method List(s: Store) returns (r: seq<ProjectView>)
    ensures Distinct(ProjectIds(r))
    ensures forall k :: k in ProjectIds(r) <==> k in s.projects
    ensures SortedBy(ProjectStamps(s.projects), NewestFirst, ProjectIds(r))
    ensures forall i :: 0 <= i < |r| ==> ProjectViewOf(s, r[i])
  {
    var ids := SortIds(ProjectStamps(s.projects), s.projects.Keys, NewestFirst);
    r := [];
    var i := 0;
    while i < |ids|
      invariant 0 <= i <= |ids|
      invariant |r| == i
      invariant forall j :: 0 <= j < i ==> r[j].id == ids[j] && ProjectViewOf(s, r[j])
    {
      var v := View(s, ids[i]);
      r := r + [v];
      i := i + 1;
    }
    assert ProjectIds(r) == ids;
  }
}
