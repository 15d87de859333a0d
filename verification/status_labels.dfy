/** `getStatusLabel`, which the project list and the projects page each define
    identically: the French label of a status name, or the name itself when it
    is not one of the six. */
module StatusLabels {
  import opened Wrappers
  import opened Statuses

  const Labels := ["À faire", "En cours", "En révision", "Terminé", "Bloqué", "Annulé"]

  function StatusLabel(name: string): string {
    if name == "TODO" then "À faire"
    else if name == "IN_PROGRESS" then "En cours"
    else if name == "REVIEW" then "En révision"
    else if name == "DONE" then "Terminé"
    else if name == "BLOCKED" then "Bloqué"
    else if name == "CANCELLED" then "Annulé"
    else name
  }

  /** Reads a status back from one of the six labels. */
  function StatusOfLabel(shown: string): Option<Status> {
    if shown == "À faire" then Some(Todo)
    else if shown == "En cours" then Some(InProgress)
    else if shown == "En révision" then Some(Review)
    else if shown == "Terminé" then Some(Done)
    else if shown == "Bloqué" then Some(Blocked)
    else if shown == "Annulé" then Some(Cancelled)
    else None
  }

  /** Each status gets one of the six labels, from which it is read back; so two statuses share a
      label only when they are the same. */
  lemma StatusLabelRoundTrip(s: Status, t: Status)
    ensures StatusLabel(Name(s)) in Labels
    ensures StatusOfLabel(StatusLabel(Name(s))) == Some(s)
    ensures StatusLabel(Name(s)) == StatusLabel(Name(t)) <==> s == t
  {
  }

  /** A name outside the six is shown as it is. */
  lemma UnknownStatusShownRaw(name: string)
    requires name !in Names
    ensures StatusLabel(name) == name
  {
  }
}
