/** The comment list: the query it sends, the refresh after a fetch, the modal
    that hosts the comment form (which comment is edited, which one is replied
    to), the labels it prints and the delete flow. */
module CommentList {
  import opened Wrappers
  import opened Text
  import opened Store
  import opened Http
  import CommentRoute
  import CommentForm

  /** The list's props. `featureId` is sent along but the handler does not read it. */
  datatype ListProps = ListProps(projectId: Option<string>, featureId: Option<string>, parentCommentId: Option<string>)

  // ---------------------------------------------------------------------------
  // The query
  // ---------------------------------------------------------------------------

  datatype Param = Param(key: string, value: string)

  /** The parameter for a prop, when the prop is truthy. */
  function ParamIf(key: string, prop: Option<string>): seq<Param> {
    if Truthy(prop) then [Param(key, prop.value)] else []
  }

  /** The search parameters, in the order they are appended. */
  function Params(props: ListProps): seq<Param> {
    ParamIf("projectId", props.projectId) + ParamIf("featureId", props.featureId)
    + ParamIf("parentCommentId", props.parentCommentId)
  }

  /** `searchParams.get(key)`: the first value under the key. */
  function ParamGet(params: seq<Param>, key: string): (r: Option<string>)
    ensures r.Some? <==> exists i :: 0 <= i < |params| && params[i].key == key
    ensures r.Some? ==> exists i :: 0 <= i < |params| && params[i] == Param(key, r.value)
  {
    if params == [] then None
    else if params[0].key == key then Some(params[0].value)
    else
      var r := ParamGet(params[1..], key);
      assert forall i :: 0 <= i < |params| - 1 ==> params[1..][i] == params[i + 1];
      if r.None? then
        assert forall i :: 1 <= i < |params| ==> params[i] == params[1..][i - 1];
        r
      else r
  }

  /** Looking a key up in two concatenated lists looks in the first, then in the second. */
  lemma {:induction false} ParamGetAppend(a: seq<Param>, b: seq<Param>, key: string)
    ensures ParamGet(a + b, key) == if ParamGet(a, key).Some? then ParamGet(a, key) else ParamGet(b, key)
    decreases |a|
  {
    if a != [] {
      assert (a + b)[0] == a[0];
      assert (a + b)[1..] == a[1..] + b;
      ParamGetAppend(a[1..], b, key);
    } else {
      assert a + b == b;
    }
  }

  /** Each parameter is present exactly when its prop is non-empty, and carries the prop's value. */
  lemma ParamsFromProps(props: ListProps)
    ensures ParamGet(Params(props), "projectId") == OrNull(props.projectId)
    ensures ParamGet(Params(props), "featureId") == OrNull(props.featureId)
    ensures ParamGet(Params(props), "parentCommentId") == OrNull(props.parentCommentId)
  {
    var a := ParamIf("projectId", props.projectId);
    var b := ParamIf("featureId", props.featureId);
    var c := ParamIf("parentCommentId", props.parentCommentId);
    assert Params(props) == (a + b) + c;
    ParamGetAppend(a + b, c, "projectId");
    ParamGetAppend(a + b, c, "featureId");
    ParamGetAppend(a + b, c, "parentCommentId");
    ParamGetAppend(a, b, "projectId");
    ParamGetAppend(a, b, "featureId");
    ParamGetAppend(a, b, "parentCommentId");
  }

  /** What the handler reads from the query. */
  function ServerQuery(params: seq<Param>): CommentRoute.Query {
    CommentRoute.Query(ParamGet(params, "projectId"), ParamGet(params, "parentCommentId"))
  }

  /** The list shows the project's root comments, or the direct replies of the `parentCommentId`
      prop when it is non-empty; `featureId` changes nothing. */
  lemma ListFilter(props: ListProps, feature: Option<string>)
    ensures CommentRoute.BuildWhere(ServerQuery(Params(props))) ==
              CommentRoute.Where(OrNull(props.projectId),
                                 if Truthy(props.parentCommentId) then CommentRoute.ChildrenOf(props.parentCommentId.value)
                                 else CommentRoute.RootsOnly)
    ensures ServerQuery(Params(props.(featureId := feature))) == ServerQuery(Params(props))
  {
    ParamsFromProps(props);
    ParamsFromProps(props.(featureId := feature));
  }

  // ---------------------------------------------------------------------------
  // The modal
  // ---------------------------------------------------------------------------

  datatype Modal = Modal(open: bool, editing: Option<CommentForm.Existing>, replyingTo: Option<Id>)

  const Closed := Modal(false, None, None)

  datatype Event =
    | OpenAdd
    | Edit(c: CommentForm.Existing)
    | ReplyTo(id: Id)
    | Saved
    | Cancelled

  /** `setShowAddModal(true)`, `handleEdit`, `handleReply`, `handleCommentSaved` and the form's cancel. */
  function Step(m: Modal, e: Event): (r: Modal)
    ensures e.OpenAdd? ==> r == m.(open := true)
    ensures e.Edit? ==> r == m.(open := true, editing := Some(e.c))
    ensures e.ReplyTo? ==> r == m.(open := true, replyingTo := Some(e.id))
    ensures e.Saved? || e.Cancelled? ==> r == Closed
  {
    match e
    case OpenAdd => m.(open := true)
    case Edit(c) => m.(open := true, editing := Some(c))
    case ReplyTo(id) => m.(open := true, replyingTo := Some(id))
    case Saved => Closed
    case Cancelled => Closed
  }

  /** Only a save fetches the list again. */
  function Refetches(e: Event): bool {
    e.Saved?
  }

  /** A closed modal remembers no comment. */
  predicate Clear(m: Modal) {
    !m.open ==> m.editing.None? && m.replyingTo.None?
  }

  function Run(m: Modal, es: seq<Event>): Modal
    decreases |es|
  {
    if es == [] then m else Run(Step(m, es[0]), es[1..])
  }

  /** Whatever happens, a closed modal holds neither an edited nor a replied-to comment, and the
      last save or cancel leaves it closed and clear. */
  lemma {:induction false} RunKeepsClear(m: Modal, es: seq<Event>)
    requires Clear(m)
    ensures Clear(Run(m, es))
    ensures |es| > 0 && (es[|es| - 1].Saved? || es[|es| - 1].Cancelled?) ==> Run(m, es) == Closed
    decreases |es|
  {
    if es != [] {
      RunKeepsClear(Step(m, es[0]), es[1..]);
      if |es| == 1 {
        assert Run(m, es) == Run(Step(m, es[0]), []);
      } else {
        assert es[1..][|es[1..]| - 1] == es[|es| - 1];
      }
    }
  }

  /** `replyingTo?.id || parentCommentId`: the comment being replied to wins over the prop. */
  function ReplyTarget(m: Modal, props: ListProps): (r: Option<string>)
    ensures Truthy(m.replyingTo) ==> r == m.replyingTo
    ensures !Truthy(m.replyingTo) ==> r == props.parentCommentId
  {
    if Truthy(m.replyingTo) then m.replyingTo else props.parentCommentId
  }

  /** The props the list gives the form. */
  function FormProps(m: Modal, props: ListProps): CommentForm.Props {
    CommentForm.Props(props.projectId, ReplyTarget(m, props))
  }

  /** Clicking "reply" on a comment, from a closed list, opens the form in reply mode with that
      comment as the parent of the new one. */
  lemma ReplyReachesForm(m: Modal, props: ListProps, id: Id)
    requires !m.open && Clear(m) && id != ""
    ensures var m' := Step(m, ReplyTo(id));
            && m'.open
            && CommentForm.ModeOf(m'.editing, FormProps(m', props)) == CommentForm.Replying
            && CommentForm.Initial(FormProps(m', props)).data.parentCommentId == Some(id)
  {
  }

  /** Clicking "edit" on a comment, from a closed list, opens the form in edit mode on it. */
  lemma EditReachesForm(m: Modal, props: ListProps, c: CommentForm.Existing)
    requires !m.open && Clear(m)
    ensures var m' := Step(m, Edit(c));
            && m'.open && m'.editing == Some(c)
            && CommentForm.ModeOf(m'.editing, FormProps(m', props)) == CommentForm.Editing
  {
  }

  // ---------------------------------------------------------------------------
  // Labels and deletion
  // ---------------------------------------------------------------------------

  /** "N commentaire(s) au total". */
  function CountLabel(n: nat): string {
    CountPhrase(n, "commentaire", " au total")
  }

  /** The label reads back as the count, with "commentaires" exactly when there is more than one. */
  lemma CountLabelReadsBack(n: nat)
    ensures var p := CountLabel(n);
            var k := |NatToString(n)|;
            && k < |p| && ParseNat(p[..k]) == n
            && (p[k + 1..] == "commentaires au total" <==> n > 1)
            && (p[k + 1..] == "commentaire au total" <==> n <= 1)
  {
    CountPhraseReadsBack(n, "commentaire", " au total");
  }

  /** The replies badge: shown only for a comment with replies, as "N réponse(s)". */
  function ReplyBadge(childCount: nat): (r: Option<string>)
    ensures r.Some? <==> childCount > 0
    ensures r.Some? ==> r.value == CountPhrase(childCount, "réponse", "")
  {
    if childCount > 0 then Some(CountPhrase(childCount, "réponse", "")) else None
  }

  /** For a listed comment, the badge appears exactly when replies are nested under it, and
      counts them. */
  lemma BadgeMatchesReplies(s: Store, v: CommentRoute.CommentView)
    requires CommentRoute.ViewOf(s, v)
    ensures ReplyBadge(v.childCount).Some? <==> |v.children| > 0
    ensures ReplyBadge(v.childCount).Some? ==> ReplyBadge(v.childCount).value == CountPhrase(|v.children|, "réponse", "")
  {
  }

  /** `handleDelete` on a comment. */
  function DeleteComment(id: Id, confirmed: bool, reply: Reply): (e: DeleteEffect)
    ensures e.sent.Some? <==> confirmed
    ensures e.sent.Some? ==> e.sent.value == Request(Delete, ItemUrl("comments", id))
    ensures e.refetch <==> confirmed && Ok(reply)
    ensures e.alert == (if confirmed && !Ok(reply) then Some(CommentDeleteError) else None)
  {
    DeleteFlow("comments", id, confirmed, reply, CommentDeleteError)
  }
}
