/** The six project statuses and their wire names. */
module Statuses {
  import opened Wrappers

  datatype Status = Todo | InProgress | Review | Done | Blocked | Cancelled

  /** The wire names, in the order the schemas and the statistics list them. */
  const Names: seq<string> := ["TODO", "IN_PROGRESS", "REVIEW", "DONE", "BLOCKED", "CANCELLED"]

  function Name(s: Status): string {
    match s
    case Todo => "TODO"
    case InProgress => "IN_PROGRESS"
    case Review => "REVIEW"
    case Done => "DONE"
    case Blocked => "BLOCKED"
    case Cancelled => "CANCELLED"
  }

  function FromName(n: string): Option<Status> {
    if n == "TODO" then Some(Todo)
    else if n == "IN_PROGRESS" then Some(InProgress)
    else if n == "REVIEW" then Some(Review)
    else if n == "DONE" then Some(Done)
    else if n == "BLOCKED" then Some(Blocked)
    else if n == "CANCELLED" then Some(Cancelled)
    else None
  }

  /** Names and statuses correspond one to one: a name is recognised exactly when it is
      one of the six, and reading a name back gives the status it names. */
  lemma NamesRoundTrip(s: Status, n: string)
    ensures FromName(Name(s)) == Some(s)
    ensures Name(s) in Names
    ensures FromName(n).Some? <==> n in Names
    ensures FromName(n) == Some(s) ==> Name(s) == n
  {
  }
}
