/** The projects page: the statistics it computes from the project listing
    (the per-status tally and the number of distinct member ids) and its
    filter controls. */
module ProjectsPage {
  import opened Wrappers
  import opened Statuses
  import opened Http
  import opened StatusLabels
  import ProjectRoute

  // ---------------------------------------------------------------------------
  // Per-status tally
  // ---------------------------------------------------------------------------

  /** The starting tally: zero for each of the six statuses. */
  const Zero: map<string, nat> := map["TODO" := 0, "IN_PROGRESS" := 0, "REVIEW" := 0, "DONE" := 0, "BLOCKED" := 0, "CANCELLED" := 0]

  /** `acc[status] = (acc[status] || 0) + 1`. */
  function Bump(acc: map<string, nat>, status: string): map<string, nat> {
    acc[status := (if status in acc then acc[status] else 0) + 1]
  }

  /** The `reduce` over the listed statuses, in order. */
  function ByStatus(statuses: seq<string>): map<string, nat>
    decreases |statuses|
  {
    if statuses == [] then Zero
    else Bump(ByStatus(statuses[..|statuses| - 1]), statuses[|statuses| - 1])
  }

  /** How many listed projects have the status: the reference the tally is checked against. */
  function Count(statuses: seq<string>, status: string): nat
    decreases |statuses|
  {
    if statuses == [] then 0
    else (if statuses[0] == status then 1 else 0) + Count(statuses[1..], status)
  }

  lemma {:induction false} CountSnoc(statuses: seq<string>, x: string, status: string)
    ensures Count(statuses + [x], status) == Count(statuses, status) + (if x == status then 1 else 0)
    decreases |statuses|
  {
    if statuses == [] {
      assert [] + [x] == [x];
      assert [x][1..] == [];
    } else {
      assert (statuses + [x])[0] == statuses[0];
      assert (statuses + [x])[1..] == statuses[1..] + [x];
      CountSnoc(statuses[1..], x, status);
    }
  }

  /** The tally has a key for each of the six statuses and for every other status met, and each
      key counts exactly the projects with that status. */
  lemma {:induction false} ByStatusCounts(statuses: seq<string>, k: string)
    ensures k in ByStatus(statuses) <==> k in Zero || k in statuses
    ensures k in ByStatus(statuses) ==> ByStatus(statuses)[k] == Count(statuses, k)
    ensures k !in ByStatus(statuses) ==> Count(statuses, k) == 0
    decreases |statuses|
  {
    if statuses == [] {
      assert Count(statuses, k) == 0;
    } else {
      var init := statuses[..|statuses| - 1];
      var last := statuses[|statuses| - 1];
      assert statuses == init + [last];
      ByStatusCounts(init, k);
      CountSnoc(init, last, k);
      if k in init {
        assert k in statuses;
      }
    }
  }

  /** The sum of the six counters. */
  function Sum6(m: map<string, nat>): nat
    requires Zero.Keys <= m.Keys
  {
    m["TODO"] + m["IN_PROGRESS"] + m["REVIEW"] + m["DONE"] + m["BLOCKED"] + m["CANCELLED"]
  }

  lemma {:induction false} CountsCoverAll(statuses: seq<string>)
    requires forall i :: 0 <= i < |statuses| ==> statuses[i] in Names
    ensures Count(statuses, "TODO") + Count(statuses, "IN_PROGRESS") + Count(statuses, "REVIEW")
            + Count(statuses, "DONE") + Count(statuses, "BLOCKED") + Count(statuses, "CANCELLED") == |statuses|
    decreases |statuses|
  {
    if statuses != [] {
      assert statuses[0] in Names;
      CountsCoverAll(statuses[1..]);
    }
  }

  /** When every project has one of the six statuses, the counters add up to the total. */
  lemma ByStatusSumsToTotal(statuses: seq<string>)
    requires forall i :: 0 <= i < |statuses| ==> statuses[i] in Names
    ensures Zero.Keys <= ByStatus(statuses).Keys
    ensures Sum6(ByStatus(statuses)) == |statuses|
  {
    var m := ByStatus(statuses);
    forall k | k in Zero
      ensures k in m && m[k] == Count(statuses, k)
    {
      ByStatusCounts(statuses, k);
    }
    CountsCoverAll(statuses);
  }

  /** The statuses of the handler's listing, as the page reads them. */
  function StatusesOf(vs: seq<ProjectRoute.ProjectView>): (r: seq<string>)
    ensures |r| == |vs| && forall i :: 0 <= i < |vs| ==> r[i] == Name(vs[i].project.status)
  {
    seq(|vs|, i requires 0 <= i < |vs| => Name(vs[i].project.status))
  }

  /** On the handler's listing every status is one of the six, so the tally adds up to the total. */
  lemma ListingTallyIsTotal(vs: seq<ProjectRoute.ProjectView>)
    ensures Zero.Keys <= ByStatus(StatusesOf(vs)).Keys
    ensures Sum6(ByStatus(StatusesOf(vs))) == |vs|
  {
    forall i | 0 <= i < |vs|
      ensures StatusesOf(vs)[i] in Names
    {
      NamesRoundTrip(vs[i].project.status, "");
    }
    ByStatusSumsToTotal(StatusesOf(vs));
  }

  // ---------------------------------------------------------------------------
  // Distinct members
  // ---------------------------------------------------------------------------

  /** The ids gathered from the projects' `users` lists; a project without the list adds none. */
  function MemberIds(users: seq<Option<seq<string>>>): set<string>
    decreases |users|
  {
    if users == [] then {}
    else
      var init := MemberIds(users[..|users| - 1]);
      match users[|users| - 1]
      case None => init
      case Some(us) => init + set u | u in us
  }

  /** The total length of the lists. */
  function ListedMembers(users: seq<Option<seq<string>>>): nat
    decreases |users|
  {
    if users == [] then 0
    else ListedMembers(users[..|users| - 1]) + (match users[|users| - 1] case None => 0 case Some(us) => |us|)
  }

  lemma {:induction false} SetOfSeqBound(us: seq<string>)
    ensures |set u | u in us| <= |us|
    decreases |us|
  {
    if us != [] {
      var init := us[..|us| - 1];
      SetOfSeqBound(init);
      assert (set u | u in us) == (set u | u in init) + {us[|us| - 1]} by {
        assert us == init + [us[|us| - 1]];
      }
    }
  }

  /** An id is counted exactly when some project lists it. */
  lemma {:induction false} MemberIdsExactly(users: seq<Option<seq<string>>>, id: string)
    ensures id in MemberIds(users) <==>
              exists i :: 0 <= i < |users| && users[i].Some? && id in users[i].value
    decreases |users|
  {
    if users != [] {
      var init := users[..|users| - 1];
      MemberIdsExactly(init, id);
      if exists i :: 0 <= i < |init| && init[i].Some? && id in init[i].value {
        var i :| 0 <= i < |init| && init[i].Some? && id in init[i].value;
        assert users[i] == init[i];
      }
      if exists i :: 0 <= i < |users| && users[i].Some? && id in users[i].value {
        var i :| 0 <= i < |users| && users[i].Some? && id in users[i].value;
        if i < |init| {
          assert users[i] == init[i];
        }
      }
    }
  }

  /** There are never more distinct members than listed memberships. */
  lemma {:induction false} MemberIdsBound(users: seq<Option<seq<string>>>)
    ensures |MemberIds(users)| <= ListedMembers(users)
    decreases |users|
  {
    if users != [] {
      var init := users[..|users| - 1];
      MemberIdsBound(init);
      match users[|users| - 1] {
        case None =>
        case Some(us) =>
          SetOfSeqBound(us);
          var a := MemberIds(init);
          var b := set u | u in us;
          assert |a + b| <= |a| + |b| by {
            assert |a + b| + |a * b| == |a| + |b|;
          }
      }
    }
  }

  // ---------------------------------------------------------------------------
  // Projects as the page reads them
  // ---------------------------------------------------------------------------

  /** One project as the page reads it: its status, its creation instant and, when present, its
      members' ids. */
  datatype Row = Row(status: string, createdAt: int, users: Option<seq<string>>)

  datatype Stats = Stats(total: nat, byStatus: map<string, nat>, thisMonth: nat, activeUsers: nat)

  const InitialStats := Stats(0, Zero, 0, 0)

  function StatusColumn(ps: seq<Row>): (r: seq<string>)
    ensures |r| == |ps| && forall i :: 0 <= i < |ps| ==> r[i] == ps[i].status
  {
    seq(|ps|, i requires 0 <= i < |ps| => ps[i].status)
  }

  function UserColumn(ps: seq<Row>): (r: seq<Option<seq<string>>>)
    ensures |r| == |ps| && forall i :: 0 <= i < |ps| ==> r[i] == ps[i].users
  {
    seq(|ps|, i requires 0 <= i < |ps| => ps[i].users)
  }

  /** The positions of the projects created at or after `since`. */
  function CreatedSince(ps: seq<Row>, since: int): set<nat> {
    set i: nat | i < |ps| && ps[i].createdAt >= since
  }

  /** `projects.filter(p => new Date(p.createdAt) >= since).length`. */
  function CountSince(ps: seq<Row>, since: int): (n: nat)
    ensures n == |CreatedSince(ps, since)|
    ensures n <= |ps|
    decreases |ps|
  {
    if ps == [] then 0
    else
      var init := ps[..|ps| - 1];
      CreatedSinceSnoc(ps, since);
      CountSince(init, since) + (if ps[|ps| - 1].createdAt >= since then 1 else 0)
  }

  /** The last project joins the positions counted exactly when it is recent enough. */
  lemma CreatedSinceSnoc(ps: seq<Row>, since: int)
    requires ps != []
    ensures var last: nat := |ps| - 1;
            && last !in CreatedSince(ps[..last], since)
            && CreatedSince(ps, since) ==
                 CreatedSince(ps[..last], since) + (if ps[last].createdAt >= since then {last} else {})
  {
    var last: nat := |ps| - 1;
    forall i: nat | i < last
      ensures ps[i] == ps[..last][i]
    {
    }
  }

  // ---------------------------------------------------------------------------
  // The start of the month
  // ---------------------------------------------------------------------------

  /** Instants are seconds of local time; `monthStart` is midnight on the first of the current
      month and `now` the current instant, both read from the clock. */
  const DaySeconds: nat := 86400

  /** The threshold as written: `new Date()` with its day of the month set to 1, which keeps the
      current time of day. */
  function MonthStartAsWritten(monthStart: int, now: int): int {
    monthStart + now % DaySeconds
  }

  /** The threshold intended: midnight on the first of the month. */
  function MonthStartIntended(monthStart: int, now: int): int {
    monthStart
  }

  /** As written, a project created on the first of the month before the current time of day is not
      counted: at noon on the 5th, one created at 01:00 on the 1st is left out. */
  lemma AsWrittenMissesFirstMorning()
    ensures var ps := [Row("TODO", 3600, None)];
            var now := 4 * DaySeconds + 43200;
            && CountSince(ps, MonthStartAsWritten(0, now)) == 0
            && CountSince(ps, MonthStartIntended(0, now)) == 1
  {
    var ps := [Row("TODO", 3600, None)];
    var now := 4 * DaySeconds + 43200;
    assert 0 !in CreatedSince(ps, MonthStartAsWritten(0, now));
    assert CreatedSince(ps, MonthStartAsWritten(0, now)) == {};
    assert CreatedSince(ps, MonthStartIntended(0, now)) == {0};
  }

  /** With the intended threshold, a project is counted exactly when it was created this month;
      the written one loses exactly those created on the first before the current time of day. */
  lemma IntendedCountsWholeMonth(ps: seq<Row>, monthStart: int, now: int, i: nat)
    requires monthStart <= now && i < |ps|
    ensures i in CreatedSince(ps, MonthStartIntended(monthStart, now)) <==> ps[i].createdAt >= monthStart
    ensures i in CreatedSince(ps, MonthStartAsWritten(monthStart, now)) <==>
              i in CreatedSince(ps, MonthStartIntended(monthStart, now))
              && ps[i].createdAt >= monthStart + now % DaySeconds
    ensures CountSince(ps, MonthStartAsWritten(monthStart, now)) <= CountSince(ps, MonthStartIntended(monthStart, now))
  {
    assert CreatedSince(ps, MonthStartAsWritten(monthStart, now)) <= CreatedSince(ps, MonthStartIntended(monthStart, now));
    SubsetCardinality(CreatedSince(ps, MonthStartAsWritten(monthStart, now)), CreatedSince(ps, MonthStartIntended(monthStart, now)));
  }

  lemma SubsetCardinality<T>(a: set<T>, b: set<T>)
    requires a <= b
    ensures |a| <= |b|
  {
    assert b == a + (b - a);
  }

  // ---------------------------------------------------------------------------
  // Loading
  // ---------------------------------------------------------------------------

  /** `fetchStats`: the statistics change only on an ok answer, which sets the total, the tally
      by status, the number of projects created since the threshold the page computes (the first
      of the month at the current time of day, as written) and the number of distinct member ids.
      That count never exceeds the number created since midnight on the first. Loading ends
      either way. */
  function LoadStats(current: Stats, reply: ListReply<Row>, monthStart: int, now: int): (r: (Stats, bool))
    ensures !r.1
    ensures !reply.Listed? ==> r.0 == current
    ensures reply.Listed? ==>
              && r.0.total == |reply.items|
              && (forall k :: k in r.0.byStatus <==> k in Zero || k in StatusColumn(reply.items))
              && (forall k :: k in r.0.byStatus ==> r.0.byStatus[k] == Count(StatusColumn(reply.items), k))
              && r.0.thisMonth == |CreatedSince(reply.items, MonthStartAsWritten(monthStart, now))| <= r.0.total
              && r.0.thisMonth <= |CreatedSince(reply.items, MonthStartIntended(monthStart, now))|
              && r.0.activeUsers == |MemberIds(UserColumn(reply.items))|
              && r.0.activeUsers <= ListedMembers(UserColumn(reply.items))
  {
    match reply
    case Listed(ps) =>
      forall k
        ensures k in ByStatus(StatusColumn(ps)) <==> k in Zero || k in StatusColumn(ps)
        ensures k in ByStatus(StatusColumn(ps)) ==> ByStatus(StatusColumn(ps))[k] == Count(StatusColumn(ps), k)
      {
        ByStatusCounts(StatusColumn(ps), k);
      }
      MemberIdsBound(UserColumn(ps));
      var since := MonthStartAsWritten(monthStart, now);
      SubsetCardinality(CreatedSince(ps, since), CreatedSince(ps, MonthStartIntended(monthStart, now)));
      (Stats(|ps|, ByStatus(StatusColumn(ps)), CountSince(ps, since), |MemberIds(UserColumn(ps))|), false)
    case _ => (current, false)
  }

  // ---------------------------------------------------------------------------
  // Filters
  // ---------------------------------------------------------------------------

  /** The two selects; "" means no selection. */
  datatype Filters = Filters(status: string, priority: string)

  const NoFilters := Filters("", "")

  /** The reset button is disabled when neither filter is selected. */
  predicate ResetDisabled(f: Filters) {
    f.status == "" && f.priority == ""
  }

  /** Clicking reset clears both selections. */
  function Reset(f: Filters): (r: Filters)
    ensures ResetDisabled(r)
  {
    NoFilters
  }

  /** The badges shown for the active filters: the status label and "Priorité N". */
  function FilterBadges(f: Filters): (r: (Option<string>, Option<string>))
    ensures r.0.Some? <==> f.status != ""
    ensures r.1.Some? <==> f.priority != ""
    ensures r.0.Some? ==> r.0.value == StatusLabel(f.status)
    ensures r.1.Some? ==> r.1.value == "Priorité " + f.priority
  {
    (if f.status != "" then Some(StatusLabel(f.status)) else None,
     if f.priority != "" then Some("Priorité " + f.priority) else None)
  }

  /** Reset is offered exactly when it would change something, and exactly when a badge shows. */
  lemma ResetOfferedIffUseful(f: Filters)
    ensures !ResetDisabled(f) <==> Reset(f) != f
    ensures !ResetDisabled(f) <==> FilterBadges(f).0.Some? || FilterBadges(f).1.Some?
  {
  }
}
