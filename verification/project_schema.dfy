/** The project payload schema, as the API handler and the project form each
    declare it. Both require a name of 1 to 100 characters, one of the six
    statuses and a priority from 1 to 5, and allow a description that is
    absent or a string. They differ on nulls: the handler also accepts `null`
    for the image and the dates, the form does not. */
module ProjectSchema {
  import opened Wrappers
  import opened Json
  import opened Zod
  import opened Statuses

  const NameMax: nat := 100
  const NameRequired := "Le nom est requis"
  const NameTooLong := "Le nom ne peut pas dépasser 100 caractères"
  const InvalidUrl := "URL invalide"

  /** The schema's keys, in declaration order. */
  const Keys := ["name", "description", "image", "status", "priority", "startDate", "endDate"]

  /** Which of the two declarations is meant. */
  datatype Side = Server | Client

  /** What a successful validation yields; `None` stands for an absent or null value. */
  datatype ProjectInput = ProjectInput(
    name: string,
    description: Option<string>,
    image: Option<string>,
    status: Status,
    priority: int,
    startDate: Option<string>,
    endDate: Option<string>)

  /** An optional string key, which on the server side may also be null. */
  ghost predicate OptionalStringAccepted(f: map<string, Value>, key: string, nullable: bool) {
    key !in f || f[key].JStr? || (nullable && f[key].JNull?)
  }

  /** The schema's rules stated directly on the body. */
  ghost predicate Accepts(p: Payload, isUrl: string -> bool, side: Side) {
    && p.Object?
    && "name" in p.fields && p.fields["name"].JStr? && 1 <= |p.fields["name"].s| <= NameMax
    && OptionalStringAccepted(p.fields, "description", false)
    && ("image" !in p.fields || (side == Server && p.fields["image"].JNull?)
        || (p.fields["image"].JStr? && (isUrl(p.fields["image"].s) || p.fields["image"].s == "")))
    && "status" in p.fields && p.fields["status"].JStr? && p.fields["status"].s in Names
    && "priority" in p.fields && p.fields["priority"].JNum? && 1 <= p.fields["priority"].n <= 5
    && OptionalStringAccepted(p.fields, "startDate", side == Server)
    && OptionalStringAccepted(p.fields, "endDate", side == Server)
  }

  function StringValue(f: map<string, Value>, key: string): Option<string> {
    if key in f && f[key].JStr? then Some(f[key].s) else None
  }

  /** The outcome of each field's validator, in the schema's field order. */
  datatype Checked = Checked(
    name: Result<string, Issue>,
    description: Result<Option<string>, Issue>,
    image: Result<Option<string>, Issue>,
    status: Result<string, Issue>,
    priority: Result<int, Issue>,
    startDate: Result<Option<string>, Issue>,
    endDate: Result<Option<string>, Issue>)

  function Check(f: map<string, Value>, isUrl: string -> bool, side: Side): Checked {
    var nullable := side == Server;
    Checked(
      BoundedString("name", Get(f, "name"), 1, Some(NameMax), NameRequired, NameTooLong),
      OptionalString("description", Get(f, "description"), false),
      UrlOrEmpty("image", Get(f, "image"), isUrl, nullable, InvalidUrl),
      EnumString("status", Get(f, "status"), Names),
      NumberRange("priority", Get(f, "priority"), 1, 5),
      OptionalString("startDate", Get(f, "startDate"), nullable),
      OptionalString("endDate", Get(f, "endDate"), nullable))
  }

  predicate AllPass(c: Checked) {
    && c.name.Success? && c.description.Success? && c.image.Success? && c.status.Success?
    && c.priority.Success? && c.startDate.Success? && c.endDate.Success?
  }

  /** Every failed field contributes its issue, in field order. */
  function Issues(c: Checked): (issues: seq<Issue>)
    ensures issues == [] <==> AllPass(c)
  {
    IssuesOf(c.name) + IssuesOf(c.description) + IssuesOf(c.image) + IssuesOf(c.status)
    + IssuesOf(c.priority) + IssuesOf(c.startDate) + IssuesOf(c.endDate)
  }

  /** Each field's validator reports under the field's own key, so every issue lies under a key
      of the schema. */
  lemma CheckIssuesOnKeys(f: map<string, Value>, isUrl: string -> bool, side: Side)
    ensures OnKeys(Issues(Check(f, isUrl, side)), Keys)
  {
    var c := Check(f, isUrl, side);
    assert Keys[0] == "name" && Keys[1] == "description" && Keys[2] == "image" && Keys[3] == "status";
    assert Keys[4] == "priority" && Keys[5] == "startDate" && Keys[6] == "endDate";
    FieldOnKey(c.name, "name", Keys);
    FieldOnKey(c.description, "description", Keys);
    FieldOnKey(c.image, "image", Keys);
    FieldOnKey(c.status, "status", Keys);
    FieldOnKey(c.priority, "priority", Keys);
    FieldOnKey(c.startDate, "startDate", Keys);
    FieldOnKey(c.endDate, "endDate", Keys);
    var a := IssuesOf(c.name) + IssuesOf(c.description);
    OnKeysAppend(IssuesOf(c.name), IssuesOf(c.description), Keys);
    OnKeysAppend(a, IssuesOf(c.image), Keys);
    a := a + IssuesOf(c.image);
    OnKeysAppend(a, IssuesOf(c.status), Keys);
    a := a + IssuesOf(c.status);
    OnKeysAppend(a, IssuesOf(c.priority), Keys);
    a := a + IssuesOf(c.priority);
    OnKeysAppend(a, IssuesOf(c.startDate), Keys);
    a := a + IssuesOf(c.startDate);
    OnKeysAppend(a, IssuesOf(c.endDate), Keys);
  }

  /** No failure is dropped: the issue of every failed field appears in the report. */
  lemma FailedFieldsReported(c: Checked)
    ensures c.name.Failure? ==> c.name.error in Issues(c)
    ensures c.description.Failure? ==> c.description.error in Issues(c)
    ensures c.image.Failure? ==> c.image.error in Issues(c)
    ensures c.status.Failure? ==> c.status.error in Issues(c)
    ensures c.priority.Failure? ==> c.priority.error in Issues(c)
    ensures c.startDate.Failure? ==> c.startDate.error in Issues(c)
    ensures c.endDate.Failure? ==> c.endDate.error in Issues(c)
  {
  }

  /** The field validators together enforce exactly the schema's rules. */
  lemma CheckAccepts(f: map<string, Value>, isUrl: string -> bool, side: Side)
    ensures AllPass(Check(f, isUrl, side)) <==> Accepts(Object(f), isUrl, side)
  {
  }

  /** `projectSchema.parse(body)`: the validated input, or every issue in field order. */
  function Parse(p: Payload, isUrl: string -> bool, side: Side): (r: Result<ProjectInput, seq<Issue>>)
    ensures r.Success? <==> Accepts(p, isUrl, side)
    ensures r.Success? ==>
              && r.value.name == p.fields["name"].s
              && r.value.description == StringValue(p.fields, "description")
              && r.value.image == StringValue(p.fields, "image")
              && Name(r.value.status) == p.fields["status"].s
              && r.value.priority == p.fields["priority"].n
              && r.value.startDate == StringValue(p.fields, "startDate")
              && r.value.endDate == StringValue(p.fields, "endDate")
    ensures r.Failure? ==> |r.error| >= 1
    ensures p.Object? && r.Failure? ==> OnKeys(r.error, Keys)
  {
    match p
    case NotAnObject(v) => Failure([NotAnObjectIssue(v)])
    case Object(f) =>
      var c := Check(f, isUrl, side);
      CheckAccepts(f, isUrl, side);
      if AllPass(c) then
        NamesRoundTrip(Todo, c.status.value);
        Success(ProjectInput(c.name.value, c.description.value, c.image.value,
                             FromName(c.status.value).value, c.priority.value,
                             c.startDate.value, c.endDate.value))
      else
        CheckIssuesOnKeys(f, isUrl, side);
        Failure(Issues(c))
  }

  /** Whatever the form's schema accepts, the handler's accepts too, and reads the same way. */
  lemma ClientAcceptedImpliesServerAccepted(p: Payload, isUrl: string -> bool)
    requires Parse(p, isUrl, Client).Success?
    ensures Parse(p, isUrl, Server) == Parse(p, isUrl, Client)
  {
  }

  /** A null image separates the two: the handler accepts it, the form reports a failed union on `image`. */
  lemma NullImageOnlyOnServer(f: map<string, Value>, isUrl: string -> bool)
    requires "image" in f && f["image"] == JNull
    requires Accepts(Object(f - {"image"}), isUrl, Server)
    ensures Parse(Object(f), isUrl, Server).Success?
    ensures Parse(Object(f), isUrl, Server).value.image == None
    ensures Parse(Object(f), isUrl, Client).Failure?
    ensures Issue(["image"], InvalidUnion, "Invalid input") in Parse(Object(f), isUrl, Client).error
  {
    assert (f - {"image"})["name"] == f["name"];
  }

  /** A description may be absent or a string but never null, on either side. */
  lemma NullDescriptionRejected(f: map<string, Value>, isUrl: string -> bool, side: Side)
    requires "description" in f && f["description"] == JNull
    ensures Parse(Object(f), isUrl, side).Failure?
    ensures TypeIssue("description", "string", Some(JNull)) in Parse(Object(f), isUrl, side).error
  {
    FailedFieldsReported(Check(f, isUrl, side));
  }

  /** The name bounds are reported on `name` with the schema's own messages. */
  lemma NameOutOfBounds(f: map<string, Value>, isUrl: string -> bool, side: Side)
    requires "name" in f && f["name"].JStr?
    requires |f["name"].s| == 0 || |f["name"].s| > NameMax
    ensures Parse(Object(f), isUrl, side).Failure?
    ensures Parse(Object(f), isUrl, side).error[0] ==
              if |f["name"].s| == 0 then Issue(["name"], TooSmall, NameRequired)
              else Issue(["name"], TooBig, NameTooLong)
  {
  }
}
