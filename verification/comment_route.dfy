/** The comment collection endpoint: `GET /api/comments` lists comments with
    their nested relations, `POST /api/comments` validates a payload, checks
    the ids it names and inserts one comment. */
module CommentRoute {
  import opened Wrappers
  import opened Text
  import opened Json
  import opened Zod
  import opened CommentSchema
  import opened Store
  import opened Ordering

  // ---------------------------------------------------------------------------
  // GET: the filter
  // ---------------------------------------------------------------------------

  /** The two query parameters the handler reads, as `searchParams.get` returns them. */
  datatype Query = Query(projectId: Option<string>, parentCommentId: Option<string>)

  datatype ParentFilter = AnyParent | RootsOnly | ChildrenOf(parent: Id)

  /** A `where` clause over comments: an optional project and a constraint on the parent. */
  datatype Where = Where(projectId: Option<Id>, parent: ParentFilter)

  predicate Matches(c: Comment, w: Where) {
    && (w.projectId.Some? ==> c.projectId == w.projectId)
    && match w.parent
       case AnyParent => true
       case RootsOnly => c.parentCommentId.None?
       case ChildrenOf(p) => c.parentCommentId == Some(p)
  }

  /** The filter the handler builds from the query. */
  function BuildWhere(q: Query): Where {
    Where(OrNull(q.projectId), if Truthy(q.parentCommentId) then ChildrenOf(q.parentCommentId.value) else RootsOnly)
  }

  /** Without a `parentCommentId` parameter only root comments match; with one, only that
      comment's direct replies; the project constraint applies only to a non-empty `projectId`. */
  lemma FilterSemantics(q: Query, c: Comment)
    ensures !Truthy(q.parentCommentId) ==> (Matches(c, BuildWhere(q)) ==> c.parentCommentId.None?)
    ensures Truthy(q.parentCommentId) ==> (Matches(c, BuildWhere(q)) ==> c.parentCommentId == q.parentCommentId)
    ensures Truthy(q.projectId) && Matches(c, BuildWhere(q)) ==> c.projectId == q.projectId
    ensures !Truthy(q.projectId) ==>
              (Matches(c, BuildWhere(q)) <==> Matches(c, Where(None, BuildWhere(q).parent)))
  {
  }

  // ---------------------------------------------------------------------------
  // GET: listings and their nested shape
  // ---------------------------------------------------------------------------

  function Stamps(m: map<Id, Comment>): map<Id, int> {
    CreationTimes(m, (c: Comment) => c.createdAt)
  }

  /** `ids` lists every comment matching `w` exactly once, arranged by creation time. */
  ghost predicate IsListing(m: map<Id, Comment>, w: Where, dir: Direction, ids: seq<Id>) {
    && Distinct(ids)
    && (forall k :: k in ids <==> k in m && Matches(m[k], w))
    && SortedBy(Stamps(m), dir, ids)
  }

  function MatchingIds(m: map<Id, Comment>, w: Where): set<Id> {
    set k | k in m && Matches(m[k], w)
  }

  /** A reply as nested under its parent: the row and its author. */
  datatype Child = Child(id: Id, comment: Comment, author: Option<User>)

  datatype ParentSummary = ParentSummary(id: Id, title: string, author: Option<User>)

  datatype ProjectSummary = ProjectSummary(id: Id, name: string)

  /** A listed comment with its author, parent summary, project summary, replies and reply count. */
  datatype CommentView = CommentView(
    id: Id,
    comment: Comment,
    author: Option<User>,
    parent: Option<ParentSummary>,
    project: Option<ProjectSummary>,
    children: seq<Child>,
    childCount: nat)

  function AuthorOf(s: Store, c: Comment): Option<User> {
    Lookup(s.users, c.authorId)
  }

  function ParentOf(s: Store, c: Comment): Option<ParentSummary> {
    match Lookup(s.comments, c.parentCommentId)
    case Some(p) => Some(ParentSummary(c.parentCommentId.value, p.title, AuthorOf(s, p)))
    case None => None
  }

  function ProjectOf(s: Store, c: Comment): Option<ProjectSummary> {
    match Lookup(s.projects, c.projectId)
    case Some(p) => Some(ProjectSummary(c.projectId.value, p.name))
    case None => None
  }

  /** The ids of a comment's direct replies. */
  function ReplyIds(s: Store, id: Id): set<Id> {
    set k | k in s.comments && s.comments[k].parentCommentId == Some(id)
  }

  function ChildIds(cs: seq<Child>): seq<Id> {
    IdsOf(cs, (c: Child) => c.id)
  }

  function ViewIds(vs: seq<CommentView>): seq<Id> {
    IdsOf(vs, (v: CommentView) => v.id)
  }

  /** `childComments` with `orderBy: { createdAt: "asc" }`: all direct replies, oldest first. */
  ghost predicate ChildrenListed(s: Store, id: Id, cs: seq<Child>) {
    && IsListing(s.comments, Where(None, ChildrenOf(id)), OldestFirst, ChildIds(cs))
    && forall i :: 0 <= i < |cs| ==> cs[i].comment == s.comments[cs[i].id] && cs[i].author == AuthorOf(s, cs[i].comment)
  }

  /** A view shows the stored row with its relations, and its reply count is the number of replies shown. */
  ghost predicate ViewOf(s: Store, v: CommentView) {
    && v.id in s.comments
    && v.comment == s.comments[v.id]
    && v.author == AuthorOf(s, v.comment)
    && v.parent == ParentOf(s, v.comment)
    && v.project == ProjectOf(s, v.comment)
    && ChildrenListed(s, v.id, v.children)
    && v.childCount == |v.children|
  }

  method Children(s: Store, id: Id) returns (cs: seq<Child>)
    ensures ChildrenListed(s, id, cs)
  {
    var ids := SortIds(Stamps(s.comments), ReplyIds(s, id), OldestFirst);
    cs := seq(|ids|, i requires 0 <= i < |ids| => Child(ids[i], s.comments[ids[i]], AuthorOf(s, s.comments[ids[i]])));
    assert ChildIds(cs) == ids;
  }

  /** `GET /api/comments`: the matching comments newest first, each with its nested relations. */
  method List(s: Store, q: Query) returns (r: seq<CommentView>)
    ensures IsListing(s.comments, BuildWhere(q), NewestFirst, ViewIds(r))
    ensures forall i :: 0 <= i < |r| ==> ViewOf(s, r[i])
  {
    var w := BuildWhere(q);
    var ids := SortIds(Stamps(s.comments), MatchingIds(s.comments, w), NewestFirst);
    r := [];
    var i := 0;
    while i < |ids|
      invariant 0 <= i <= |ids|
      invariant |r| == i
      invariant forall j :: 0 <= j < i ==> r[j].id == ids[j] && ViewOf(s, r[j])
    {
      var id := ids[i];
      var c := s.comments[id];
      var children := Children(s, id);
      var count := |ReplyIds(s, id)|;
      ListingCardinality(ChildIds(children), ReplyIds(s, id));
      r := r + [CommentView(id, c, AuthorOf(s, c), ParentOf(s, c), ProjectOf(s, c), children, count)];
      i := i + 1;
    }
    assert ViewIds(r) == ids;
  }

  // ---------------------------------------------------------------------------
  // POST
  // ---------------------------------------------------------------------------

  /** Which referenced row was not found, in the order the handler looks. */
  datatype Missing = MissingUser | MissingProject | MissingParent

  function MissingMessage(m: Missing): string {
    match m
    case MissingUser => "Utilisateur non trouvé"
    case MissingProject => "Projet non trouvé"
    case MissingParent => "Commentaire parent non trouvé"
  }

  datatype Outcome =
    | Created(id: Id, comment: Comment)
    | Invalid(issues: seq<Issue>)
    | NotFound(missing: Missing)
    | Failed

  function StatusCode(o: Outcome): nat {
    match o
    case Created(_, _) => 201
    case Invalid(_) => 400
    case NotFound(_) => 404
    case Failed => 500
  }

  /** A truthy id that names no row of the map. */
  predicate Dangling<T>(id: Option<string>, m: map<Id, T>) {
    Truthy(id) && id.value !in m
  }

  /** The first reference that does not resolve, looking at the author, then the project, then the
      parent. A falsy id (absent, null or "") is not looked up. */
  function FirstMissing(s: Store, v: CommentInput): (r: Option<Missing>)
    ensures r == Some(MissingUser) <==> Dangling(v.authorId, s.users)
    ensures r == Some(MissingProject) <==> !Dangling(v.authorId, s.users) && Dangling(v.projectId, s.projects)
    ensures r == Some(MissingParent) <==>
              !Dangling(v.authorId, s.users) && !Dangling(v.projectId, s.projects) && Dangling(v.parentCommentId, s.comments)
    ensures r.None? <==>
              !Dangling(v.authorId, s.users) && !Dangling(v.projectId, s.projects) && !Dangling(v.parentCommentId, s.comments)
  {
    if Truthy(v.authorId) && v.authorId.value !in s.users then Some(MissingUser)
    else if Truthy(v.projectId) && v.projectId.value !in s.projects then Some(MissingProject)
    else if Truthy(v.parentCommentId) && v.parentCommentId.value !in s.comments then Some(MissingParent)
    else None
  }

  /** The sparse insert: title and content, plus each id only when it is truthy. */
  function NewComment(v: CommentInput, now: int): Comment {
    Comment(v.title, v.content, now, OrNull(v.authorId), OrNull(v.projectId), OrNull(v.parentCommentId))
  }

  /** `POST /api/comments`. `body` is `None` when the request body is not valid JSON; `newId` and
      `now` are the id and creation time the store assigns; an id already in use fails the insert. */
  function Create(s: Store, body: Option<Payload>, isUuid: string -> bool, newId: Id, now: int): (r: (Store, Outcome))
    ensures r.1.Invalid? <==> body.Some? && !Accepts(body.value, isUuid)
    ensures r.1.Invalid? ==> r.1.issues == Parse(body.value, isUuid, ServerMessages).error
    ensures r.1.NotFound? <==>
              body.Some? && Accepts(body.value, isUuid)
              && FirstMissing(s, Parse(body.value, isUuid, ServerMessages).value).Some?
    ensures r.1.NotFound? ==> Some(r.1.missing) == FirstMissing(s, Parse(body.value, isUuid, ServerMessages).value)
    ensures r.1.Created? <==>
              body.Some? && Accepts(body.value, isUuid)
              && FirstMissing(s, Parse(body.value, isUuid, ServerMessages).value).None?
              && newId !in s.comments
    ensures r.1.Created? ==>
              && r.1.id == newId
              && r.1.comment == NewComment(Parse(body.value, isUuid, ServerMessages).value, now)
              && r.0 == s.(comments := s.comments[newId := r.1.comment])
    ensures !r.1.Created? ==> r.0 == s
  {
    if body.None? then (s, Failed)
    else
      match Parse(body.value, isUuid, ServerMessages)
      case Failure(issues) => (s, Invalid(issues))
      case Success(v) =>
        match FirstMissing(s, v)
        case Some(m) => (s, NotFound(m))
        case None =>
          if newId in s.comments then (s, Failed)
          else
            var c := NewComment(v, now);
            (s.(comments := s.comments[newId := c]), Created(newId, c))
  }

  // ---------------------------------------------------------------------------
  // Properties of POST
  // ---------------------------------------------------------------------------

  /** The status follows the outcome: 201 on creation, 400 exactly for a refused payload,
      404 for a missing reference, 500 otherwise. */
  lemma CreateStatus(s: Store, body: Option<Payload>, isUuid: string -> bool, newId: Id, now: int)
    ensures var o := Create(s, body, isUuid, newId, now).1;
            (StatusCode(o) == 201 <==> o.Created?) && (StatusCode(o) == 400 <==> o.Invalid?)
            && (StatusCode(o) == 404 <==> o.NotFound?) && (StatusCode(o) == 500 <==> o.Failed?)
  {
  }

  /** A created comment is exactly one new row; every other row, user and project is unchanged. */
  lemma CreateAddsExactlyOne(s: Store, body: Option<Payload>, isUuid: string -> bool, newId: Id, now: int)
    requires Create(s, body, isUuid, newId, now).1.Created?
    ensures var s' := Create(s, body, isUuid, newId, now).0;
            && s'.comments.Keys == s.comments.Keys + {newId}
            && newId !in s.comments
            && |s'.comments| == |s.comments| + 1
            && (forall k :: k in s.comments ==> s'.comments[k] == s.comments[k])
            && s'.users == s.users && s'.projects == s.projects
  {
  }

  /** What is stored: the given title and content; each id only when the body gave a truthy one. */
  lemma CreatedContents(s: Store, f: map<string, Value>, isUuid: string -> bool, newId: Id, now: int)
    requires Create(s, Some(Object(f)), isUuid, newId, now).1.Created?
    ensures var c := Create(s, Some(Object(f)), isUuid, newId, now).1.comment;
            && c.title == f["title"].s && c.content == f["content"].s && c.createdAt == now
            && (c.projectId.Some? <==> Truthy(IdValue(f, "projectId")))
            && (c.projectId.Some? ==> c.projectId == IdValue(f, "projectId"))
            && (c.parentCommentId.Some? <==> Truthy(IdValue(f, "parentCommentId")))
            && (c.parentCommentId.Some? ==> c.parentCommentId == IdValue(f, "parentCommentId"))
            && (c.authorId.Some? <==> Truthy(IdValue(f, "authorId")))
            && (c.authorId.Some? ==> c.authorId == IdValue(f, "authorId"))
  {
  }

  /** An explicit null author is accepted and skips the user lookup: it never yields the user 404. */
  lemma NullAuthorSkipsUserCheck(s: Store, f: map<string, Value>, isUuid: string -> bool, newId: Id, now: int)
    requires "authorId" in f && f["authorId"] == JNull
    ensures Create(s, Some(Object(f)), isUuid, newId, now).1 != NotFound(MissingUser)
    ensures Create(s, Some(Object(f)), isUuid, newId, now).1.Created? ==>
              Create(s, Some(Object(f)), isUuid, newId, now).1.comment.authorId.None?
  {
  }

  /** An accepted payload naming an unknown author is answered 404 "Utilisateur non trouvé",
      whatever else is missing, and nothing is stored. */
  lemma UnknownAuthorIs404(s: Store, f: map<string, Value>, isUuid: string -> bool, newId: Id, now: int)
    requires Accepts(Object(f), isUuid)
    requires f["authorId"].JStr? && f["authorId"].s != "" && f["authorId"].s !in s.users
    ensures Create(s, Some(Object(f)), isUuid, newId, now) == (s, NotFound(MissingUser))
    ensures MissingMessage(MissingUser) == "Utilisateur non trouvé"
  {
  }

  /** Creating keeps every comment's author, project and parent resolvable. */
  lemma CreatePreservesReferences(s: Store, body: Option<Payload>, isUuid: string -> bool, newId: Id, now: int)
    requires CommentReferencesResolve(s)
    ensures CommentReferencesResolve(Create(s, body, isUuid, newId, now).0)
  {
    var (s', o) := Create(s, body, isUuid, newId, now);
    if o.Created? {
      forall k | k in s'.comments
        ensures s'.comments[k].authorId.Some? ==> s'.comments[k].authorId.value in s'.users
        ensures s'.comments[k].projectId.Some? ==> s'.comments[k].projectId.value in s'.projects
        ensures s'.comments[k].parentCommentId.Some? ==> s'.comments[k].parentCommentId.value in s'.comments
      {
        if k != newId {
          assert s'.comments[k] == s.comments[k];
        }
      }
    }
  }

  /** The default listing (no query parameters) shows a newly created comment exactly when it was
      created without a truthy parent: a reply never appears among the roots. */
  lemma CreatedInRootListing(s: Store, body: Option<Payload>, isUuid: string -> bool, newId: Id, now: int, ids: seq<Id>)
    requires Create(s, body, isUuid, newId, now).1.Created?
    requires IsListing(Create(s, body, isUuid, newId, now).0.comments, BuildWhere(Query(None, None)), NewestFirst, ids)
    ensures newId in ids <==> !Truthy(Parse(body.value, isUuid, ServerMessages).value.parentCommentId)
  {
  }
}
