/** The project list: the priority colour bands, the two recent comments shown
    per project, the modal that hosts the project form, the count label and
    the delete flow. */
module ProjectList {
  import opened Wrappers
  import opened Text
  import opened Store
  import opened Ordering
  import opened Http
  import ProjectRoute
  import CommentRoute
  import ProjectForm

  // ---------------------------------------------------------------------------
  // Priority colours
  // ---------------------------------------------------------------------------

  const Classes := ["text-gray-600", "text-yellow-600", "text-orange-600 font-medium", "text-red-600 font-semibold"]

  /** `getPriorityColor`. */
  function PriorityClass(priority: int): string {
    if priority >= 4 then "text-red-600 font-semibold"
    else if priority >= 3 then "text-orange-600 font-medium"
    else if priority >= 2 then "text-yellow-600"
    else "text-gray-600"
  }

  /** The band of a priority, from 0 (1 and below) to 3 (4 and above). */
  function Band(priority: int): (b: nat)
    ensures b < |Classes|
  {
    if priority <= 1 then 0 else if priority >= 4 then 3 else priority - 1
  }

  /** The colour is the band's class, and the bands rise with the priority. */
  lemma PriorityBands(p: int, q: int)
    ensures PriorityClass(p) == Classes[Band(p)]
    ensures p <= q ==> Band(p) <= Band(q)
    ensures PriorityClass(p) == PriorityClass(q) <==> Band(p) == Band(q)
  {
  }

  // ---------------------------------------------------------------------------
  // Recent comments
  // ---------------------------------------------------------------------------

  const ShownRecent: nat := 2

  /** `project.comments.slice(0, 2)`. */
  function RecentShown(rs: seq<ProjectRoute.RecentComment>): (r: seq<ProjectRoute.RecentComment>)
    ensures |r| == Min(ShownRecent, |rs|)
    ensures r == rs[..|r|]
  {
    rs[..Min(ShownRecent, |rs|)]
  }

  /** With the handler's listing, the card shows the project's two newest comments (fewer when it
      has fewer), newest first; no comment left out is newer than one shown. */
  lemma ShownAreNewest(s: Store, pid: Id, rs: seq<ProjectRoute.RecentComment>)
    requires ProjectRoute.RecentOf(s, pid, rs)
    ensures var shown := ProjectRoute.RecentIds(RecentShown(rs));
            var stamps := CommentRoute.Stamps(s.comments);
            && |shown| == Min(ShownRecent, |ProjectRoute.CommentIdsOf(s, pid)|)
            && SortedBy(stamps, NewestFirst, shown)
            && (forall k, i :: k in ProjectRoute.CommentIdsOf(s, pid) && k !in shown && 0 <= i < |shown| ==>
                  stamps[k] <= stamps[shown[i]])
  {
    var all := ProjectRoute.RecentIds(rs);
    var shown := ProjectRoute.RecentIds(RecentShown(rs));
    var stamps := CommentRoute.Stamps(s.comments);
    assert forall i :: 0 <= i < |shown| ==> shown[i] == all[i];
    forall k, i | k in ProjectRoute.CommentIdsOf(s, pid) && k !in shown && 0 <= i < |shown|
      ensures stamps[k] <= stamps[shown[i]]
    {
      if k in all {
        var j :| 0 <= j < |all| && all[j] == k;
        forall x | 0 <= x < |shown|
          ensures shown[x] != k
        {
        }
        assert i < j;
      }
    }
  }

  // ---------------------------------------------------------------------------
  // The modal
  // ---------------------------------------------------------------------------

  datatype Modal = Modal(open: bool, editing: Option<Id>)

  const Closed := Modal(false, None)

  datatype Event = OpenAdd | Edit(id: Id) | Saved | Cancelled

  /** The add button, `handleEdit`, `handleProjectSaved` and the form's cancel. */
  function Step(m: Modal, e: Event): (r: Modal)
    ensures e.OpenAdd? ==> r == m.(open := true)
    ensures e.Edit? ==> r == Modal(true, Some(e.id))
    ensures e.Saved? || e.Cancelled? ==> r == Closed
  {
    match e
    case OpenAdd => m.(open := true)
    case Edit(id) => Modal(true, Some(id))
    case Saved => Closed
    case Cancelled => Closed
  }

  /** Editing a project opens the form in edit mode, saving to that project's URL; after a save or
      a cancel, the add button opens it for a new project. */
  lemma ModalDrivesForm(m: Modal, id: Id, e: Event)
    requires e.Saved? || e.Cancelled?
    ensures var m' := Step(m, Edit(id));
            && ProjectForm.Heading(m'.editing) == "Modifier le projet"
            && SaveRequest("projects", m'.editing) == Request(Put, ItemUrl("projects", id))
    ensures var m' := Step(Step(m, e), OpenAdd);
            && m'.open
            && ProjectForm.Heading(m'.editing) == "Nouveau projet"
            && SaveRequest("projects", m'.editing) == Request(Post, CollectionUrl("projects"))
  {
  }

  // ---------------------------------------------------------------------------
  // Labels and deletion
  // ---------------------------------------------------------------------------

  /** "N projet(s) au total". */
  function CountLabel(n: nat): string {
    CountPhrase(n, "projet", " au total")
  }

  /** The label reads back as the count, with "projets" exactly when there is more than one. */
  lemma CountLabelReadsBack(n: nat)
    ensures var p := CountLabel(n);
            var k := |NatToString(n)|;
            && k < |p| && ParseNat(p[..k]) == n
            && (p[k + 1..] == "projets au total" <==> n > 1)
            && (p[k + 1..] == "projet au total" <==> n <= 1)
  {
    CountPhraseReadsBack(n, "projet", " au total");
  }

  /** `handleDelete` on a project. */
  function DeleteProject(id: Id, confirmed: bool, reply: Reply): (e: DeleteEffect)
    ensures e.sent.Some? <==> confirmed
    ensures e.sent.Some? ==> e.sent.value == Request(Delete, ItemUrl("projects", id))
    ensures e.refetch <==> confirmed && Ok(reply)
    ensures e.alert == (if confirmed && !Ok(reply) then Some(ProjectDeleteError) else None)
  {
    DeleteFlow("projects", id, confirmed, reply, ProjectDeleteError)
  }
}
