/** What the client components send to the API and what they do with the
    answer: the save request of both forms, the replies a `fetch` can produce,
    and the confirm-then-delete flow of both lists. */
module Http {
  import opened Wrappers

  datatype Verb = Get | Post | Put | Delete

  datatype Request = Request(verb: Verb, url: string)

  function CollectionUrl(collection: string): string {
    "/api/" + collection
  }

  function ItemUrl(collection: string, id: string): string {
    CollectionUrl(collection) + "/" + id
  }

  /** The id an item URL of the collection names, if it is one. */
  function ItemId(collection: string, url: string): Option<string> {
    var prefix := CollectionUrl(collection) + "/";
    if |prefix| <= |url| && url[..|prefix|] == prefix then Some(url[|prefix|..]) else None
  }

  /** A save goes to the record's own URL with PUT when a record is being edited, and to the
      collection with POST otherwise. */
  function SaveRequest(collection: string, existing: Option<string>): (r: Request)
    ensures r.verb == Put <==> existing.Some?
    ensures r.verb == Post <==> existing.None?
  {
    match existing
    case Some(id) => Request(Put, ItemUrl(collection, id))
    case None => Request(Post, CollectionUrl(collection))
  }

  /** The request names the edited record, and only then an item URL: the id is recovered from it. */
  lemma SaveRequestTarget(collection: string, existing: Option<string>)
    ensures ItemId(collection, SaveRequest(collection, existing).url) == existing
  {
    var prefix := CollectionUrl(collection) + "/";
    var url := SaveRequest(collection, existing).url;
    match existing {
      case Some(id) =>
        assert url == prefix + id;
        assert url[..|prefix|] == prefix;
      case None =>
        assert |url| < |prefix|;
    }
  }

  /** Two different edits never target the same URL. */
  lemma SaveRequestInjective(collection: string, a: Option<string>, b: Option<string>)
    requires SaveRequest(collection, a) == SaveRequest(collection, b)
    ensures a == b
  {
    SaveRequestTarget(collection, a);
    SaveRequestTarget(collection, b);
  }

  /** What `response.json()` gives on a failed response: a parse error, or a document whose
      `message` field is `message` (`None` when it has none). */
  datatype ErrorBody = NotJson(parseError: string) | Json(message: Option<string>)

  /** The outcome of a `fetch`: an answer with a status, or a rejected promise. */
  datatype Reply = Answered(status: nat, body: ErrorBody) | NetworkError(message: string)

  /** `response.ok`. */
  predicate Ok(r: Reply) {
    r.Answered? && 200 <= r.status <= 299
  }

  const CommentDeleteError := "Erreur lors de la suppression du commentaire"
  const ProjectDeleteError := "Erreur lors de la suppression du projet"

  /** What a delete click leads to: the request sent, whether the list is fetched again, and
      the alert shown. */
  datatype DeleteEffect = DeleteEffect(sent: Option<Request>, refetch: bool, alert: Option<string>)

  /** `handleDelete`: nothing without confirmation; otherwise a DELETE to the item, then a refetch
      on an ok answer and the alert `failure` on any other answer or a network error. */
  function DeleteFlow(collection: string, id: string, confirmed: bool, reply: Reply, failure: string): (e: DeleteEffect)
    ensures e.sent.Some? <==> confirmed
    ensures e.sent.Some? ==> e.sent.value.verb == Delete && ItemId(collection, e.sent.value.url) == Some(id)
    ensures e.refetch <==> confirmed && Ok(reply)
    ensures e.alert.Some? <==> confirmed && !Ok(reply)
    ensures e.alert.Some? ==> e.alert.value == failure
  {
    SaveRequestTarget(collection, Some(id));
    if !confirmed then DeleteEffect(None, false, None)
    else if Ok(reply) then DeleteEffect(Some(Request(Delete, ItemUrl(collection, id))), true, None)
    else DeleteEffect(Some(Request(Delete, ItemUrl(collection, id))), false, Some(failure))
  }

  /** A delete either refreshes the list or alerts, never both, and does neither unconfirmed. */
  lemma DeleteRefreshOrAlert(collection: string, id: string, confirmed: bool, reply: Reply, failure: string)
    ensures var e := DeleteFlow(collection, id, confirmed, reply, failure);
            !(e.refetch && e.alert.Some?) && (confirmed <==> e.refetch || e.alert.Some?)
  {
  }

  /** The answer to a list request: the decoded items on an ok status, a non-ok status, or a
      network failure. */
  datatype ListReply<T> = Listed(items: seq<T>) | NotOk(status: nat) | Unreachable

  datatype Shown<T> = Shown(items: seq<T>, loading: bool)

  /** The lists' fetch: the items are replaced only by an ok answer, and loading ends either way. */
  function Refresh<T>(current: seq<T>, reply: ListReply<T>): (r: Shown<T>)
    ensures !r.loading
    ensures reply.Listed? ==> r.items == reply.items
    ensures !reply.Listed? ==> r.items == current
  {
    match reply
    case Listed(items) => Shown(items, false)
    case _ => Shown(current, false)
  }
}
