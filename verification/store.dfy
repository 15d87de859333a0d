/** The relational store the handlers read and write, as three finite maps
    keyed by id. Only the columns the handlers touch are kept. */
module Store {
  import opened Wrappers
  import opened Statuses

  type Id = string

  datatype User = User(name: Option<string>, email: Option<string>, image: Option<string>, role: string)

  datatype Project = Project(
    name: string,
    description: Option<string>,
    image: Option<string>,
    status: Status,
    priority: int,
    startDate: Option<string>,
    endDate: Option<string>,
    creatorId: Option<Id>,
    createdAt: int)

  /** A comment row; an absent `parentCommentId` makes it a root comment. */
  datatype Comment = Comment(
    title: string,
    content: string,
    createdAt: int,
    authorId: Option<Id>,
    projectId: Option<Id>,
    parentCommentId: Option<Id>)

  datatype Store = Store(users: map<Id, User>, projects: map<Id, Project>, comments: map<Id, Comment>)

  /** Every id a comment holds names an existing row: its author, its project and its parent. */
  ghost predicate CommentReferencesResolve(s: Store) {
    forall k :: k in s.comments ==>
      && (s.comments[k].authorId.Some? ==> s.comments[k].authorId.value in s.users)
      && (s.comments[k].projectId.Some? ==> s.comments[k].projectId.value in s.projects)
      && (s.comments[k].parentCommentId.Some? ==> s.comments[k].parentCommentId.value in s.comments)
  }

  function Lookup<T>(m: map<Id, T>, id: Option<Id>): (r: Option<T>)
    ensures r.Some? <==> id.Some? && id.value in m
    ensures r.Some? ==> r.value == m[id.value]
  {
    if id.Some? && id.value in m then Some(m[id.value]) else None
  }
}
