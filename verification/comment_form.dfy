/** The comment form: its field state, how it is initialised from the props
    and from the comment being edited, `handleChange`, the submit flow
    (client-side validation, the save request, error routing) and what the
    form shows in each mode. */
module CommentForm {
  import opened Wrappers
  import opened Text
  import opened Json
  import opened Zod
  import opened CommentSchema
  import opened Http

  // ---------------------------------------------------------------------------
  // State
  // ---------------------------------------------------------------------------

  datatype Field = Title | Content | ProjectId | ParentCommentId

  function Key(f: Field): string {
    match f
    case Title => "title"
    case Content => "content"
    case ProjectId => "projectId"
    case ParentCommentId => "parentCommentId"
  }

  /** The edited values. Any of them may be null: an emptied input stores null. */
  datatype FormData = FormData(
    title: Option<string>,
    content: Option<string>,
    projectId: Option<string>,
    parentCommentId: Option<string>)

  function Value(d: FormData, f: Field): Option<string> {
    match f
    case Title => d.title
    case Content => d.content
    case ProjectId => d.projectId
    case ParentCommentId => d.parentCommentId
  }

  function With(d: FormData, f: Field, v: Option<string>): (r: FormData)
    ensures Value(r, f) == v
    ensures forall g :: g != f ==> Value(r, g) == Value(d, g)
  {
    match f
    case Title => d.(title := v)
    case Content => d.(content := v)
    case ProjectId => d.(projectId := v)
    case ParentCommentId => d.(parentCommentId := v)
  }

  datatype FormState = FormState(data: FormData, errors: map<string, string>, loading: bool)

  /** The component's props: the project and the parent a new comment attaches to. */
  datatype Props = Props(projectId: Option<string>, parentCommentId: Option<string>)

  /** The comment being edited, with the columns the form reads. */
  datatype Existing = Existing(
    id: string,
    title: string,
    content: string,
    projectId: Option<string>,
    parentCommentId: Option<string>)

  // ---------------------------------------------------------------------------
  // Initialisation
  // ---------------------------------------------------------------------------

  /** The state on first render: empty texts, the ids from the props (falsy ones as null). */
  function Initial(props: Props): FormState {
    FormState(FormData(Some(""), Some(""), OrNull(props.projectId), OrNull(props.parentCommentId)), map[], false)
  }

  /** The effect that runs when the edited comment or the props change. */
  function Sync(prev: FormData, props: Props, existing: Option<Existing>): FormData {
    match existing
    case Some(c) =>
      FormData(Some(c.title), Some(c.content),
               FirstTruthy(c.projectId, props.projectId),
               FirstTruthy(c.parentCommentId, props.parentCommentId))
    case None =>
      prev.(projectId := OrNull(props.projectId), parentCommentId := OrNull(props.parentCommentId))
  }

  /** When editing, the comment's texts are loaded and each of its ids wins over the prop,
      which wins over null; otherwise the texts typed so far stay and the ids follow the props. */
  lemma SyncPrecedence(prev: FormData, props: Props, existing: Option<Existing>)
    ensures var d := Sync(prev, props, existing);
            existing.Some? ==>
              && d.title == Some(existing.value.title) && d.content == Some(existing.value.content)
              && (Truthy(existing.value.projectId) ==> d.projectId == existing.value.projectId)
              && (!Truthy(existing.value.projectId) ==> d.projectId == OrNull(props.projectId))
              && (Truthy(existing.value.parentCommentId) ==> d.parentCommentId == existing.value.parentCommentId)
              && (!Truthy(existing.value.parentCommentId) ==> d.parentCommentId == OrNull(props.parentCommentId))
    ensures var d := Sync(prev, props, existing);
            existing.None? ==>
              && d.title == prev.title && d.content == prev.content
              && d.projectId == OrNull(props.projectId) && d.parentCommentId == OrNull(props.parentCommentId)
  {
  }

  /** For a new comment, the effect agrees with the initial state: syncing it changes nothing. */
  lemma InitialIsSynced(props: Props)
    ensures Sync(Initial(props).data, props, None) == Initial(props).data
  {
  }

  // ---------------------------------------------------------------------------
  // handleChange
  // ---------------------------------------------------------------------------

  /** `handleChange(field, value)`: stores the value, or null for an empty one, and blanks the
      field's error message when it has a non-empty one. */
  function HandleChange(st: FormState, f: Field, value: string): (r: FormState)
    ensures Value(r.data, f) == (if value == "" then None else Some(value))
    ensures forall g :: g != f ==> Value(r.data, g) == Value(st.data, g)
    ensures r.errors.Keys == st.errors.Keys
    ensures forall k :: k in st.errors && k != Key(f) ==> r.errors[k] == st.errors[k]
    ensures Key(f) in st.errors ==> r.errors[Key(f)] == ""
    ensures r.loading == st.loading
  {
    var data := With(st.data, f, if value == "" then None else Some(value));
    var errors := if Key(f) in st.errors && st.errors[Key(f)] != "" then st.errors[Key(f) := ""] else st.errors;
    FormState(data, errors, st.loading)
  }

  /** Typing the same value twice is the same as typing it once. */
  lemma HandleChangeIdempotent(st: FormState, f: Field, value: string)
    ensures HandleChange(HandleChange(st, f, value), f, value) == HandleChange(st, f, value)
  {
  }

  /** Changes to two different fields do not interfere: their order does not matter. */
  lemma HandleChangeCommutes(st: FormState, f: Field, g: Field, a: string, b: string)
    requires f != g
    ensures HandleChange(HandleChange(st, f, a), g, b) == HandleChange(HandleChange(st, g, b), f, a)
  {
    var x := HandleChange(HandleChange(st, f, a), g, b);
    var y := HandleChange(HandleChange(st, g, b), f, a);
    assert Key(f) != Key(g);
    assert x.errors == y.errors by {
      assert x.errors.Keys == y.errors.Keys;
      forall k | k in x.errors
        ensures x.errors[k] == y.errors[k]
      {
      }
    }
    assert x.data == y.data by {
      assert Value(x.data, Title) == Value(y.data, Title);
      assert Value(x.data, Content) == Value(y.data, Content);
      assert Value(x.data, ProjectId) == Value(y.data, ProjectId);
      assert Value(x.data, ParentCommentId) == Value(y.data, ParentCommentId);
    }
  }

  // ---------------------------------------------------------------------------
  // Submit
  // ---------------------------------------------------------------------------

  const SubmitKey := "submit"

  /** `dataToValidate`: the texts as they are, falsy ids and a missing session user as null. */
  function DataToValidate(d: FormData, sessionUser: Option<string>): Payload {
    Object(map[
      "title" := StringOrNull(d.title),
      "content" := StringOrNull(d.content),
      "projectId" := StringOrNull(OrNull(d.projectId)),
      "parentCommentId" := StringOrNull(OrNull(d.parentCommentId)),
      "authorId" := StringOrNull(OrNull(sessionUser))])
  }

  /** The ids sent are the truthy ones and null otherwise; the author is the session's user or null. */
  lemma DataToValidateIds(d: FormData, sessionUser: Option<string>, isUuid: string -> bool)
    requires Parse(DataToValidate(d, sessionUser), isUuid, ClientMessages).Success?
    ensures var v := Parse(DataToValidate(d, sessionUser), isUuid, ClientMessages).value;
            && v.projectId == OrNull(d.projectId)
            && v.parentCommentId == OrNull(d.parentCommentId)
            && v.authorId == OrNull(sessionUser)
            && Some(v.title) == d.title && Some(v.content) == d.content
  {
  }

  /** The message a failed save shows: the answer's `message`, else "Erreur <status>"; a body that
      is not JSON or a network failure shows that error's own message. */
  function FailureMessage(reply: Reply): string {
    match reply
    case NetworkError(m) => m
    case Answered(status, NotJson(e)) => e
    case Answered(status, Json(message)) =>
      if Truthy(message) then message.value else "Erreur " + NatToString(status)
  }

  /** The state after a submit, the request sent with its body (if any), and whether `onSave` ran. */
  datatype Submitted = Submitted(state: FormState, sent: Option<(Request, Payload)>, saved: bool)

  function EditedId(existing: Option<Existing>): Option<string> {
    match existing
    case Some(c) => Some(c.id)
    case None => None
  }

  /** `handleSubmit`. `reply` is what the save request would get back; it matters only when
      the request is sent. */
  function Submit(st: FormState, existing: Option<Existing>, sessionUser: Option<string>,
                  isUuid: string -> bool, reply: Reply): (r: Submitted)
    ensures !r.state.loading && r.state.data == st.data
    ensures r.sent.Some? <==> Accepts(DataToValidate(st.data, sessionUser), isUuid)
    ensures r.sent.Some? ==> r.sent.value.0 == SaveRequest("comments", EditedId(existing))
    ensures r.saved <==> r.sent.Some? && Ok(reply)
    ensures r.saved ==> r.state.errors == map[]
    ensures r.sent.None? ==>
              && r.state.errors == FieldErrors(Parse(DataToValidate(st.data, sessionUser), isUuid, ClientMessages).error)
              && SubmitKey !in r.state.errors
    ensures r.sent.Some? && !r.saved ==> r.state.errors == map[SubmitKey := FailureMessage(reply)]
  {
    var payload := DataToValidate(st.data, sessionUser);
    match Parse(payload, isUuid, ClientMessages)
    case Failure(issues) =>
      forall i | 0 <= i < |issues|
        ensures FieldOf(issues[i]) != Some(SubmitKey)
      {
        assert issues[i].path[0] in Keys;
      }
      FieldErrorsOnlyNamed(issues, SubmitKey);
      Submitted(FormState(st.data, FieldErrors(issues), false), None, false)
    case Success(v) =>
      var sent := Some((SaveRequest("comments", EditedId(existing)), Serialize(v)));
      if Ok(reply) then Submitted(FormState(st.data, map[], false), sent, true)
      else Submitted(FormState(st.data, map[SubmitKey := FailureMessage(reply)], false), sent, false)
  }

  /** The form never sends a body the handler's schema refuses: the handler reads back exactly the
      input the form validated. */
  lemma SubmitSendsWhatServerAccepts(st: FormState, existing: Option<Existing>, sessionUser: Option<string>,
                                     isUuid: string -> bool, reply: Reply)
    requires Submit(st, existing, sessionUser, isUuid, reply).sent.Some?
    ensures var body := Submit(st, existing, sessionUser, isUuid, reply).sent.value.1;
            Parse(body, isUuid, ServerMessages) == Parse(DataToValidate(st.data, sessionUser), isUuid, ClientMessages)
  {
    var v := Parse(DataToValidate(st.data, sessionUser), isUuid, ClientMessages).value;
    ParsedIsWellFormed(DataToValidate(st.data, sessionUser), isUuid, ClientMessages);
    ParseSerialize(v, isUuid, ServerMessages);
  }

  /** Without a message from the server, the shown error carries the status, which can be read back. */
  lemma StatusInFailureMessage(status: nat, message: Option<string>)
    requires !Truthy(message)
    ensures var m := FailureMessage(Answered(status, Json(message)));
            |m| > 7 && m[..7] == "Erreur " && ParseNat(m[7..]) == status
  {
    var m := FailureMessage(Answered(status, Json(message)));
    assert m[7..] == NatToString(status);
    ParseNatToString(status);
  }

  // ---------------------------------------------------------------------------
  // Enablement and mode
  // ---------------------------------------------------------------------------

  function TextOf(o: Option<string>): string {
    o.GetOr("")
  }

  /** `loading || !title.trim() || !content.trim()`; a null text counts as empty. */
  predicate SubmitDisabled(st: FormState) {
    st.loading || Trim(TextOf(st.data.title)) == "" || Trim(TextOf(st.data.content)) == ""
  }

  /** Submit is disabled exactly while loading or when the title or the content is blank. */
  lemma SubmitDisabledIffBlank(st: FormState)
    ensures SubmitDisabled(st) <==> st.loading || IsBlank(TextOf(st.data.title)) || IsBlank(TextOf(st.data.content))
  {
    TrimEmptyIffBlank(TextOf(st.data.title));
    TrimEmptyIffBlank(TextOf(st.data.content));
  }

  /** An enabled submit always has a non-empty title and content. */
  lemma EnabledHasTexts(st: FormState)
    requires !SubmitDisabled(st)
    ensures st.data.title.Some? && |st.data.title.value| >= 1
    ensures st.data.content.Some? && |st.data.content.value| >= 1
  {
    SubmitDisabledIffBlank(st);
  }

  datatype Mode = Editing | Replying | Creating

  /** `isEdit` takes precedence over `isReply`; a reply is a truthy `parentCommentId` prop. */
  function ModeOf(existing: Option<Existing>, props: Props): (m: Mode)
    ensures m == Editing <==> existing.Some?
    ensures m == Replying <==> existing.None? && Truthy(props.parentCommentId)
    ensures m == Creating <==> existing.None? && !Truthy(props.parentCommentId)
  {
    if existing.Some? then Editing
    else if Truthy(props.parentCommentId) then Replying
    else Creating
  }

  function Heading(m: Mode): string {
    match m
    case Editing => "Modifier le commentaire"
    case Replying => "Répondre au commentaire"
    case Creating => "Nouveau commentaire"
  }

  function ButtonLabel(m: Mode): string {
    match m
    case Editing => "Modifier"
    case Replying => "Répondre"
    case Creating => "Créer"
  }

  /** Reads the mode back from a heading. */
  function ModeOfHeading(h: string): Option<Mode> {
    if h == "Modifier le commentaire" then Some(Editing)
    else if h == "Répondre au commentaire" then Some(Replying)
    else if h == "Nouveau commentaire" then Some(Creating)
    else None
  }

  /** The heading and the button label each tell the mode apart: both are determined by the
      mode and determine it. */
  lemma ModeShown(m: Mode, n: Mode)
    ensures ModeOfHeading(Heading(m)) == Some(m)
    ensures ButtonLabel(m) == ButtonLabel(n) <==> m == n
    ensures Heading(m) == Heading(n) <==> m == n
  {
  }
}
