/** The home page: the four counters it loads from both collection handlers and
    the greeting chosen by the hour. */
module Dashboard {
  import opened Wrappers
  import opened Store
  import opened Ordering
  import opened Http
  import CommentRoute
  import ProjectRoute
  import ProjectsPage

  datatype DashboardStats = DashboardStats(totalProjects: nat, totalComments: nat, activeProjects: nat, completedProjects: nat)

  const InitialStats := DashboardStats(0, 0, 0, 0)

  /** `projects.filter(p => p.status === status)`. */
  function WithStatus(statuses: seq<string>, status: string): (r: seq<string>)
    ensures |r| <= |statuses|
    ensures forall i :: 0 <= i < |r| ==> r[i] == status
    decreases |statuses|
  {
    if statuses == [] then []
    else
      var init := WithStatus(statuses[..|statuses| - 1], status);
      if statuses[|statuses| - 1] == status then init + [status] else init
  }

  /** The filter keeps exactly as many entries as the page's tally counts. */
  lemma {:induction false} WithStatusCounts(statuses: seq<string>, status: string)
    ensures |WithStatus(statuses, status)| == ProjectsPage.Count(statuses, status)
    decreases |statuses|
  {
    if statuses != [] {
      var init := statuses[..|statuses| - 1];
      var last := statuses[|statuses| - 1];
      assert statuses == init + [last];
      WithStatusCounts(init, status);
      ProjectsPage.CountSnoc(init, last, status);
    }
  }

  /** Two different statuses never count more entries, together, than there are. */
  lemma {:induction false} TwoCountsBound(statuses: seq<string>, a: string, b: string)
    requires a != b
    ensures ProjectsPage.Count(statuses, a) + ProjectsPage.Count(statuses, b) <= |statuses|
    decreases |statuses|
  {
    if statuses != [] {
      TwoCountsBound(statuses[1..], a, b);
    }
  }

  /** `fetchStats`: both lists are requested together; the counters change only when both
      answers are ok, and loading ends whatever happens. */
  function Load<C>(current: DashboardStats, projects: ListReply<string>, comments: ListReply<C>): (r: (DashboardStats, bool))
    ensures !r.1
    ensures !(projects.Listed? && comments.Listed?) ==> r.0 == current
    ensures projects.Listed? && comments.Listed? ==>
              && r.0.totalProjects == |projects.items|
              && r.0.totalComments == |comments.items|
              && r.0.activeProjects == ProjectsPage.Count(projects.items, "IN_PROGRESS")
              && r.0.completedProjects == ProjectsPage.Count(projects.items, "DONE")
              && r.0.activeProjects + r.0.completedProjects <= r.0.totalProjects
  {
    if projects.Listed? && comments.Listed? then
      var ps := projects.items;
      WithStatusCounts(ps, "IN_PROGRESS");
      WithStatusCounts(ps, "DONE");
      TwoCountsBound(ps, "IN_PROGRESS", "DONE");
      (DashboardStats(|ps|, |comments.items|, |WithStatus(ps, "IN_PROGRESS")|, |WithStatus(ps, "DONE")|), false)
    else (current, false)
  }

  /** On the same listing, the home page's "in progress" and "done" counters agree with the
      projects page's tally. */
  lemma AgreesWithProjectsPage<C>(current: DashboardStats, ps: seq<string>, cs: seq<C>)
    ensures var r := Load(current, Listed(ps), Listed(cs)).0;
            var tally := ProjectsPage.ByStatus(ps);
            && "IN_PROGRESS" in tally && r.activeProjects == tally["IN_PROGRESS"]
            && "DONE" in tally && r.completedProjects == tally["DONE"]
  {
    ProjectsPage.ByStatusCounts(ps, "IN_PROGRESS");
    ProjectsPage.ByStatusCounts(ps, "DONE");
  }

  /** The ids of the comments that answer no other comment. */
  function RootIds(s: Store): set<Id> {
    set k | k in s.comments && s.comments[k].parentCommentId.None?
  }

  /** Fed by the two handlers' listings, the page counts every project but only the root
      comments: the comments request carries no filter, so replies are not listed. */
  lemma TotalsFromStore(s: Store, pvs: seq<ProjectRoute.ProjectView>, cvs: seq<CommentRoute.CommentView>)
    requires Distinct(ProjectRoute.ProjectIds(pvs))
    requires forall k :: k in ProjectRoute.ProjectIds(pvs) <==> k in s.projects
    requires CommentRoute.IsListing(s.comments, CommentRoute.BuildWhere(CommentRoute.Query(None, None)), NewestFirst, CommentRoute.ViewIds(cvs))
    ensures var r := Load(InitialStats, Listed(ProjectsPage.StatusesOf(pvs)), Listed(cvs)).0;
            && r.totalProjects == |s.projects|
            && r.totalComments == |RootIds(s)|
  {
    ListingCardinality(ProjectRoute.ProjectIds(pvs), s.projects.Keys);
    var ids := CommentRoute.ViewIds(cvs);
    forall k
      ensures k in ids <==> k in RootIds(s)
    {
    }
    ListingCardinality(ids, RootIds(s));
  }

  // ---------------------------------------------------------------------------
  // Greeting
  // ---------------------------------------------------------------------------

  const Greetings := ["Bonjour", "Bon après-midi", "Bonsoir"]

  /** `getGreeting`, on the local hour. */
  function Greeting(hour: nat): string {
    if hour < 12 then "Bonjour"
    else if hour < 18 then "Bon après-midi"
    else "Bonsoir"
  }

  /** The part of the day, from 0 (morning) to 2 (evening). */
  function Period(hour: nat): (p: nat)
    ensures p < |Greetings|
  {
    if hour < 12 then 0 else if hour < 18 then 1 else 2
  }

  /** The greeting is the period's, the periods follow each other through the day, and each
      greeting is used for some hour of the day. */
  lemma GreetingsThroughTheDay(h: nat, k: nat)
    ensures Greeting(h) == Greetings[Period(h)]
    ensures h <= k ==> Period(h) <= Period(k)
    ensures Greeting(h) == Greeting(k) <==> Period(h) == Period(k)
    ensures Greeting(0) == "Bonjour" && Greeting(12) == "Bon après-midi" && Greeting(23) == "Bonsoir"
  {
  }
}
