/** The comment payload schema. The API handler and the comment form declare
    the same rules (a title of 1 to 200 characters, non-empty content, optional
    nullable UUID project and parent ids, and an `authorId` key that must be
    present but may be null and is not checked for UUID form); they differ
    only in their messages, so the schema is defined once, over its messages. */
module CommentSchema {
  import opened Wrappers
  import opened Json
  import opened Zod

  const TitleMax: nat := 200

  /** What a successful validation yields. An absent or null optional id is `None`. */
  datatype CommentInput = CommentInput(
    title: string,
    content: string,
    projectId: Option<string>,
    parentCommentId: Option<string>,
    authorId: Option<string>)

  /** The schema's keys, in declaration order. */
  const Keys := ["title", "content", "projectId", "parentCommentId", "authorId"]

  datatype Messages = Messages(titleMin: string, titleMax: string, contentMin: string)

  /** The handler's schema gives no messages of its own. */
  const ServerMessages := Messages(DefaultMinLength(1), DefaultMaxLength(TitleMax), DefaultMinLength(1))

  /** The form's schema names each rule in French. */
  const ClientMessages := Messages("Le titre est requis", "Le titre ne peut pas dépasser 200 caractères", "Le contenu est requis")

  /** An optional id key is acceptable when absent, null, or a UUID-form string. */
  ghost predicate OptionalIdAccepted(f: map<string, Value>, key: string, isUuid: string -> bool) {
    key !in f || f[key].JNull? || (f[key].JStr? && isUuid(f[key].s))
  }

  /** The schema's rules stated directly on the body. */
  ghost predicate Accepts(p: Payload, isUuid: string -> bool) {
    && p.Object?
    && "title" in p.fields && p.fields["title"].JStr? && 1 <= |p.fields["title"].s| <= TitleMax
    && "content" in p.fields && p.fields["content"].JStr? && 1 <= |p.fields["content"].s|
    && OptionalIdAccepted(p.fields, "projectId", isUuid)
    && OptionalIdAccepted(p.fields, "parentCommentId", isUuid)
    && "authorId" in p.fields && (p.fields["authorId"].JNull? || p.fields["authorId"].JStr?)
  }

  /** The value an optional id key yields: its string, or nothing when absent or null. */
  function IdValue(f: map<string, Value>, key: string): Option<string> {
    if key in f && f[key].JStr? then Some(f[key].s) else None
  }

  /** The outcome of each field's validator, in the schema's field order. */
  datatype Checked = Checked(
    title: Result<string, Issue>,
    content: Result<string, Issue>,
    projectId: Result<Option<string>, Issue>,
    parentCommentId: Result<Option<string>, Issue>,
    authorId: Result<Option<string>, Issue>)

  function Check(f: map<string, Value>, isUuid: string -> bool, msgs: Messages): Checked {
    Checked(
      BoundedString("title", Get(f, "title"), 1, Some(TitleMax), msgs.titleMin, msgs.titleMax),
      BoundedString("content", Get(f, "content"), 1, None, msgs.contentMin, ""),
      OptionalUuid("projectId", Get(f, "projectId"), isUuid),
      OptionalUuid("parentCommentId", Get(f, "parentCommentId"), isUuid),
      NullableString("authorId", Get(f, "authorId")))
  }

  predicate AllPass(c: Checked) {
    c.title.Success? && c.content.Success? && c.projectId.Success? && c.parentCommentId.Success? && c.authorId.Success?
  }

  /** Every failed field contributes its issue, in field order. */
  function Issues(c: Checked): (issues: seq<Issue>)
    ensures issues == [] <==> AllPass(c)
  {
    IssuesOf(c.title) + IssuesOf(c.content) + IssuesOf(c.projectId) + IssuesOf(c.parentCommentId)
    + IssuesOf(c.authorId)
  }

  /** The field validators together enforce exactly the schema's rules. */
  lemma CheckAccepts(f: map<string, Value>, isUuid: string -> bool, msgs: Messages)
    ensures AllPass(Check(f, isUuid, msgs)) <==> Accepts(Object(f), isUuid)
  {
  }

  /** Each field's validator reports under the field's own key, so every issue lies under a key
      of the schema. */
  lemma CheckIssuesOnKeys(f: map<string, Value>, isUuid: string -> bool, msgs: Messages)
    ensures OnKeys(Issues(Check(f, isUuid, msgs)), Keys)
  {
    var c := Check(f, isUuid, msgs);
    assert Keys[0] == "title" && Keys[1] == "content" && Keys[2] == "projectId";
    assert Keys[3] == "parentCommentId" && Keys[4] == "authorId";
    FieldOnKey(c.title, "title", Keys);
    FieldOnKey(c.content, "content", Keys);
    FieldOnKey(c.projectId, "projectId", Keys);
    FieldOnKey(c.parentCommentId, "parentCommentId", Keys);
    FieldOnKey(c.authorId, "authorId", Keys);
    var a := IssuesOf(c.title) + IssuesOf(c.content);
    OnKeysAppend(IssuesOf(c.title), IssuesOf(c.content), Keys);
    OnKeysAppend(a, IssuesOf(c.projectId), Keys);
    a := a + IssuesOf(c.projectId);
    OnKeysAppend(a, IssuesOf(c.parentCommentId), Keys);
    a := a + IssuesOf(c.parentCommentId);
    OnKeysAppend(a, IssuesOf(c.authorId), Keys);
  }

  /** `commentSchema.parse(body)`: the validated input, or every issue in field order. */
  function Parse(p: Payload, isUuid: string -> bool, msgs: Messages): (r: Result<CommentInput, seq<Issue>>)
    ensures r.Success? <==> Accepts(p, isUuid)
    ensures r.Success? ==>
              && r.value.title == p.fields["title"].s
              && r.value.content == p.fields["content"].s
              && r.value.projectId == IdValue(p.fields, "projectId")
              && r.value.parentCommentId == IdValue(p.fields, "parentCommentId")
              && r.value.authorId == IdValue(p.fields, "authorId")
    ensures r.Failure? ==> |r.error| >= 1
    ensures p.Object? && r.Failure? ==> OnKeys(r.error, Keys)
  {
    match p
    case NotAnObject(v) => Failure([NotAnObjectIssue(v)])
    case Object(f) =>
      var c := Check(f, isUuid, msgs);
      CheckAccepts(f, isUuid, msgs);
      if AllPass(c) then
        Success(CommentInput(c.title.value, c.content.value, c.projectId.value, c.parentCommentId.value,
                             c.authorId.value))
      else
        CheckIssuesOnKeys(f, isUuid, msgs);
        Failure(Issues(c))
  }

  /** The input rules as a property of a validated value. */
  ghost predicate WellFormed(c: CommentInput, isUuid: string -> bool) {
    && 1 <= |c.title| <= TitleMax
    && 1 <= |c.content|
    && (c.projectId.Some? ==> isUuid(c.projectId.value))
    && (c.parentCommentId.Some? ==> isUuid(c.parentCommentId.value))
  }

  /** `JSON.stringify(validatedData)` as the form sends it: every key present, `null` for no id. */
  function Serialize(c: CommentInput): Payload {
    Object(map[
      "title" := JStr(c.title),
      "content" := JStr(c.content),
      "projectId" := StringOrNull(c.projectId),
      "parentCommentId" := StringOrNull(c.parentCommentId),
      "authorId" := StringOrNull(c.authorId)])
  }

  /** Whatever validates is well formed. */
  lemma ParsedIsWellFormed(p: Payload, isUuid: string -> bool, msgs: Messages)
    requires Parse(p, isUuid, msgs).Success?
    ensures WellFormed(Parse(p, isUuid, msgs).value, isUuid)
  {
  }

  /** Round trip: a well-formed input, sent as JSON, validates back to itself, with either set of messages. */
  lemma ParseSerialize(c: CommentInput, isUuid: string -> bool, msgs: Messages)
    requires WellFormed(c, isUuid)
    ensures Parse(Serialize(c), isUuid, msgs) == Success(c)
  {
    var f := Serialize(c).fields;
    assert IdValue(f, "projectId") == c.projectId;
    assert IdValue(f, "parentCommentId") == c.parentCommentId;
    assert IdValue(f, "authorId") == c.authorId;
  }

  /** The form and the handler accept exactly the same bodies and read them the same way. */
  lemma ClientAgreesWithServer(p: Payload, isUuid: string -> bool)
    ensures Parse(p, isUuid, ClientMessages).Success? <==> Parse(p, isUuid, ServerMessages).Success?
    ensures Parse(p, isUuid, ClientMessages).Success? ==>
              Parse(p, isUuid, ClientMessages).value == Parse(p, isUuid, ServerMessages).value
  {
  }

  /** A title of length 0 or over 200 is reported first, on `title`, with the schema's message for the bound. */
  lemma TitleOutOfBounds(f: map<string, Value>, isUuid: string -> bool, msgs: Messages)
    requires "title" in f && f["title"].JStr?
    requires |f["title"].s| == 0 || |f["title"].s| > TitleMax
    ensures Parse(Object(f), isUuid, msgs).Failure?
    ensures Parse(Object(f), isUuid, msgs).error[0] ==
              if |f["title"].s| == 0 then Issue(["title"], TooSmall, msgs.titleMin)
              else Issue(["title"], TooBig, msgs.titleMax)
  {
  }

  /** Empty content is reported on `content` with the schema's message. */
  lemma EmptyContent(f: map<string, Value>, isUuid: string -> bool, msgs: Messages)
    requires "content" in f && f["content"] == JStr("")
    ensures Parse(Object(f), isUuid, msgs).Failure?
    ensures Issue(["content"], TooSmall, msgs.contentMin) in Parse(Object(f), isUuid, msgs).error
  {
  }

  /** `authorId` is nullable but not optional: a body without the key is refused with "Required". */
  lemma AuthorKeyRequired(f: map<string, Value>, isUuid: string -> bool, msgs: Messages)
    requires "authorId" !in f
    ensures Parse(Object(f), isUuid, msgs).Failure?
    ensures Issue(["authorId"], InvalidType, "Required") in Parse(Object(f), isUuid, msgs).error
  {
  }
}
