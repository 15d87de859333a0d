/** The project form. Its state is the object the form's schema parses, kept
    as JSON values: the default and edit initialisation, `handleChange`, the
    outgoing payload with its null and date coercions, and the submit flow. */
module ProjectForm {
  import opened Wrappers
  import opened Text
  import opened Json
  import opened Zod
  import opened Statuses
  import opened ProjectSchema
  import opened Store
  import opened Http

  datatype Field = Name | Description | Image | StatusField | Priority | StartDate | EndDate

  function Key(f: Field): string {
    match f
    case Name => "name"
    case Description => "description"
    case Image => "image"
    case StatusField => "status"
    case Priority => "priority"
    case StartDate => "startDate"
    case EndDate => "endDate"
  }

  lemma KeyInjective(f: Field, g: Field)
    ensures Key(f) == Key(g) <==> f == g
  {
  }

  datatype FormState = FormState(data: map<string, Value>, errors: map<string, string>, loading: bool)

  /** The untouched form: empty texts, status TODO, priority 1. */
  const Default: map<string, Value> := map[
    "name" := JStr(""),
    "description" := JStr(""),
    "image" := JStr(""),
    "status" := JStr("TODO"),
    "priority" := JNum(1),
    "startDate" := JStr(""),
    "endDate" := JStr("")]

  /** The untouched form is refused for its name alone, with the form's message. */
  lemma DefaultFailsOnlyOnName(isUrl: string -> bool)
    ensures Parse(Object(Default), isUrl, Client) == Failure([Issue(["name"], TooSmall, NameRequired)])
  {
    var c := Check(Default, isUrl, Client);
    assert c.name == Failure(Issue(["name"], TooSmall, NameRequired));
    assert c.status.Success? by {
      assert Default["status"].s == Names[0];
    }
    assert c.description.Success? && c.image.Success? && c.priority.Success?;
    assert c.startDate.Success? && c.endDate.Success?;
    assert Issues(c) == [Issue(["name"], TooSmall, NameRequired)];
  }

  /** The edit effect: null description and image become "", each date is shown as its day
      (`day` renders the stored instant as `YYYY-MM-DD`), an absent date as "". */
  function FromProject(p: Project, day: string -> string): (d: map<string, Value>)
    ensures d.Keys == Default.Keys
  {
    map[
      "name" := JStr(p.name),
      "description" := JStr(p.description.GetOr("")),
      "image" := JStr(p.image.GetOr("")),
      "status" := JStr(Statuses.Name(p.status)),
      "priority" := JNum(p.priority),
      "startDate" := JStr(if Truthy(p.startDate) then day(p.startDate.value) else ""),
      "endDate" := JStr(if Truthy(p.endDate) then day(p.endDate.value) else "")]
  }

  /** `handleChange(field, value)`: stores the value as given and blanks the field's error. */
  function HandleChange(st: FormState, f: Field, v: Value): (r: FormState)
    ensures Key(f) in r.data && r.data[Key(f)] == v
    ensures r.data.Keys == st.data.Keys + {Key(f)}
    ensures forall k :: k in st.data && k != Key(f) ==> r.data[k] == st.data[k]
    ensures r.errors.Keys == st.errors.Keys
    ensures forall k :: k in st.errors && k != Key(f) ==> r.errors[k] == st.errors[k]
    ensures Key(f) in st.errors ==> r.errors[Key(f)] == ""
    ensures r.loading == st.loading
  {
    var errors := if Key(f) in st.errors && st.errors[Key(f)] != "" then st.errors[Key(f) := ""] else st.errors;
    FormState(st.data[Key(f) := v], errors, st.loading)
  }

  /** Changes to two different fields can be made in either order. */
  lemma HandleChangeCommutes(st: FormState, f: Field, g: Field, a: Value, b: Value)
    requires f != g
    ensures HandleChange(HandleChange(st, f, a), g, b) == HandleChange(HandleChange(st, g, b), f, a)
  {
    KeyInjective(f, g);
    var x := HandleChange(HandleChange(st, f, a), g, b);
    var y := HandleChange(HandleChange(st, g, b), f, a);
    assert x.data == y.data;
    assert x.errors == y.errors by {
      forall k | k in x.errors
        ensures x.errors[k] == y.errors[k]
      {
      }
    }
  }

  // ---------------------------------------------------------------------------
  // The outgoing payload
  // ---------------------------------------------------------------------------

  /** `value ? new Date(value).toISOString() : null`; `toIso` yields `None` for a string that names
      no date, where the conversion throws. */
  function SentDate(d: Option<string>, toIso: string -> Option<string>): (r: Option<Value>)
    ensures !Truthy(d) ==> r == Some(JNull)
    ensures Truthy(d) ==> (r.Some? <==> toIso(d.value).Some?)
    ensures Truthy(d) && r.Some? ==> r.value == JStr(toIso(d.value).value)
  {
    if !Truthy(d) then Some(JNull)
    else match toIso(d.value)
      case Some(iso) => Some(JStr(iso))
      case None => None
  }

  /** `apiData`: the validated values with image "" as null and the dates converted; `None` when
      a date conversion throws. */
  function ApiPayload(v: ProjectInput, toIso: string -> Option<string>): (r: Option<Payload>)
    ensures r.Some? <==> SentDate(v.startDate, toIso).Some? && SentDate(v.endDate, toIso).Some?
  {
    var start := SentDate(v.startDate, toIso);
    var end := SentDate(v.endDate, toIso);
    if start.None? || end.None? then None
    else
      var fields := map[
        "name" := JStr(v.name),
        "image" := StringOrNull(OrNull(v.image)),
        "status" := JStr(Statuses.Name(v.status)),
        "priority" := JNum(v.priority),
        "startDate" := start.value,
        "endDate" := end.value];
      Some(Object(if v.description.Some? then fields["description" := JStr(v.description.value)] else fields))
  }

  /** What the form validated, once coerced, is accepted by the handler and read the same way:
      same name, description, status and priority; the image only when non-empty; each date converted. */
  lemma ApiPayloadAccepted(p: Payload, isUrl: string -> bool, toIso: string -> Option<string>)
    requires Parse(p, isUrl, Client).Success?
    requires ApiPayload(Parse(p, isUrl, Client).value, toIso).Some?
    ensures var v := Parse(p, isUrl, Client).value;
            var q := ApiPayload(v, toIso).value;
            && Parse(q, isUrl, Server).Success?
            && Parse(q, isUrl, Server).value.name == v.name
            && Parse(q, isUrl, Server).value.description == v.description
            && Parse(q, isUrl, Server).value.image == OrNull(v.image)
            && Parse(q, isUrl, Server).value.status == v.status
            && Parse(q, isUrl, Server).value.priority == v.priority
            && (Parse(q, isUrl, Server).value.startDate.Some? <==> Truthy(v.startDate))
            && (Parse(q, isUrl, Server).value.endDate.Some? <==> Truthy(v.endDate))
            && (Truthy(v.startDate) ==> Parse(q, isUrl, Server).value.startDate == toIso(v.startDate.value))
            && (Truthy(v.endDate) ==> Parse(q, isUrl, Server).value.endDate == toIso(v.endDate.value))
  {
    var v := Parse(p, isUrl, Client).value;
    var q := ApiPayload(v, toIso).value;
    NamesRoundTrip(v.status, Statuses.Name(v.status));
    assert q.fields["name"] == JStr(v.name);
    assert q.fields["status"] == JStr(Statuses.Name(v.status));
    assert q.fields["priority"] == JNum(v.priority);
    assert Accepts(q, isUrl, Server);
    var w := Parse(q, isUrl, Server).value;
    assert FromName(Statuses.Name(w.status)) == FromName(Statuses.Name(v.status));
    NamesRoundTrip(w.status, Statuses.Name(w.status));
  }

  /** Opening a project for editing and saving it unchanged sends its image back as it is stored
      (null stays null), and its description as text ("" for null). */
  lemma EditKeepsImage(pr: Project, day: string -> string, isUrl: string -> bool, toIso: string -> Option<string>)
    requires Parse(Object(FromProject(pr, day)), isUrl, Client).Success?
    requires ApiPayload(Parse(Object(FromProject(pr, day)), isUrl, Client).value, toIso).Some?
    ensures var q := ApiPayload(Parse(Object(FromProject(pr, day)), isUrl, Client).value, toIso).value;
            && q.fields["image"] == StringOrNull(OrNull(pr.image))
            && q.fields["description"] == JStr(pr.description.GetOr(""))
            && q.fields["name"] == JStr(pr.name)
  {
  }

  // ---------------------------------------------------------------------------
  // Submit
  // ---------------------------------------------------------------------------

  const SubmitKey := "submit"
  const SaveError := "Erreur lors de la sauvegarde"

  /** The message of a non-ok answer: its `message`, or the default. A body that is not JSON makes
      `response.json()` throw, which lands in the generic branch with the same default. */
  function RejectionMessage(body: ErrorBody): string {
    match body
    case Json(message) => if Truthy(message) then message.value else SaveError
    case NotJson(_) => SaveError
  }

  datatype Submitted = Submitted(state: FormState, sent: Option<(Request, Payload)>, saved: bool)

  /** Every issue of a failed validation names a form field, so none lands on the `submit` key. */
  lemma IssuesMissSubmit(data: map<string, Value>, isUrl: string -> bool)
    requires Parse(Object(data), isUrl, Client).Failure?
    ensures SubmitKey !in FieldErrors(Parse(Object(data), isUrl, Client).error)
  {
    var issues := Parse(Object(data), isUrl, Client).error;
    forall i | 0 <= i < |issues|
      ensures FieldOf(issues[i]) != Some(SubmitKey)
    {
      assert issues[i].path[0] in ProjectSchema.Keys;
    }
    FieldErrorsOnlyNamed(issues, SubmitKey);
  }

  /** `handleSubmit`: validate the form; on failure route each issue to its field; otherwise convert
      and send, then call `onSave` on an ok answer or show one `submit` message. */
  function Submit(st: FormState, existing: Option<Id>, isUrl: string -> bool, toIso: string -> Option<string>,
                  reply: Reply): (r: Submitted)
    ensures !r.state.loading && r.state.data == st.data
    ensures Parse(Object(st.data), isUrl, Client).Failure? ==>
              && r.sent.None? && !r.saved
              && r.state.errors == FieldErrors(Parse(Object(st.data), isUrl, Client).error)
              && SubmitKey !in r.state.errors
    ensures r.sent.Some? <==>
              Parse(Object(st.data), isUrl, Client).Success?
              && ApiPayload(Parse(Object(st.data), isUrl, Client).value, toIso).Some?
    ensures r.sent.Some? ==>
              r.sent.value == (SaveRequest("projects", existing),
                               ApiPayload(Parse(Object(st.data), isUrl, Client).value, toIso).value)
    ensures r.saved <==> r.sent.Some? && Ok(reply)
    ensures r.saved ==> r.state.errors == map[]
    ensures Parse(Object(st.data), isUrl, Client).Success? && !r.saved ==> r.state.errors.Keys == {SubmitKey}
    ensures r.sent.Some? && reply.Answered? && !Ok(reply) ==>
              r.state.errors[SubmitKey] == RejectionMessage(reply.body)
    ensures Parse(Object(st.data), isUrl, Client).Success? && (r.sent.None? || reply.NetworkError?) ==>
              r.state.errors[SubmitKey] == SaveError
  {
    match Parse(Object(st.data), isUrl, Client)
    case Failure(issues) =>
      IssuesMissSubmit(st.data, isUrl);
      Submitted(FormState(st.data, FieldErrors(issues), false), None, false)
    case Success(v) =>
      match ApiPayload(v, toIso)
      case None => Submitted(FormState(st.data, map[SubmitKey := SaveError], false), None, false)
      case Some(body) =>
        var sent := Some((SaveRequest("projects", existing), body));
        if Ok(reply) then Submitted(FormState(st.data, map[], false), sent, true)
        else
          var message := if reply.Answered? then RejectionMessage(reply.body) else SaveError;
          Submitted(FormState(st.data, map[SubmitKey := message], false), sent, false)
  }

  // ---------------------------------------------------------------------------
  // What the form shows
  // ---------------------------------------------------------------------------

  function Heading(existing: Option<Id>): string {
    if existing.Some? then "Modifier le projet" else "Nouveau projet"
  }

  function ButtonLabel(existing: Option<Id>): string {
    if existing.Some? then "Modifier" else "Créer"
  }

  /** The heading, the button label and the request all agree on whether a project is being edited. */
  lemma EditingShownAndSent(existing: Option<Id>)
    ensures Heading(existing) == "Modifier le projet" <==> existing.Some?
    ensures ButtonLabel(existing) == "Modifier" <==> existing.Some?
    ensures SaveRequest("projects", existing).verb == Put <==> existing.Some?
  {
  }

  /** Submit is disabled only while a save is in flight. */
  predicate SubmitDisabled(st: FormState) {
    st.loading
  }
}
