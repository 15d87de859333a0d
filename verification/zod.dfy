/** The part of the schema-validation library the forms and handlers use:
    one validator per kind of field, the issue record a failed validation
    produces, and the two ways the application turns a list of issues into
    an error report (a per-field map on the client, a flat list on the
    server). Default messages follow the library's English wording; the
    schemas pass their own messages where they define one. */
module Zod {
  import opened Wrappers
  import opened Json
  import opened Text

  datatype IssueCode = InvalidType | TooSmall | TooBig | InvalidString | InvalidEnumValue | InvalidUnion

  /** One validation failure: where it happened (a path of keys), what kind it is, and its message. */
  datatype Issue = Issue(path: seq<string>, code: IssueCode, message: string)

  /** The issues of one field's validation: none on success, its one issue on failure. */
  function IssuesOf<T>(r: Result<T, Issue>): (issues: seq<Issue>)
    ensures r.Success? <==> issues == []
    ensures r.Failure? ==> issues == [r.error]
  {
    if r.Failure? then [r.error] else []
  }

  /** Every issue lies directly under one of `keys`. */
  predicate OnKeys(issues: seq<Issue>, keys: seq<string>) {
    forall i :: 0 <= i < |issues| ==> |issues[i].path| == 1 && issues[i].path[0] in keys
  }

  /** A field validated under `key` reports its issue there. */
  lemma FieldOnKey<T>(r: Result<T, Issue>, key: string, keys: seq<string>)
    requires key in keys
    requires r.Failure? ==> r.error.path == [key]
    ensures OnKeys(IssuesOf(r), keys)
  {
  }

  lemma OnKeysAppend(a: seq<Issue>, b: seq<Issue>, keys: seq<string>)
    requires OnKeys(a, keys) && OnKeys(b, keys)
    ensures OnKeys(a + b, keys)
  {
    forall i | 0 <= i < |a + b|
      ensures |(a + b)[i].path| == 1 && (a + b)[i].path[0] in keys
    {
      if i < |a| {
        assert (a + b)[i] == a[i];
      } else {
        assert (a + b)[i] == b[i - |a|];
      }
    }
  }

  /** The issue for a value of the wrong type; a missing key is reported as "Required". */
  function TypeIssue(key: string, expected: string, v: Option<Value>): (issue: Issue)
    ensures issue.path == [key] && issue.code == InvalidType
    ensures v.None? <==> issue.message == "Required"
  {
    match v
    case None => Issue([key], InvalidType, "Required")
    case Some(x) => Issue([key], InvalidType, "Expected " + expected + ", received " + TypeName(x))
  }

  /** The issue for a body that is not a JSON object at all; its path is empty. */
  function NotAnObjectIssue(received: Value): (issue: Issue)
    ensures issue.path == [] && issue.code == InvalidType
  {
    Issue([], InvalidType, "Expected object, received " + TypeName(received))
  }

  function DefaultMinLength(n: nat): string {
    "String must contain at least " + NatToString(n) + " character(s)"
  }

  function DefaultMaxLength(n: nat): string {
    "String must contain at most " + NatToString(n) + " character(s)"
  }

  /** `z.string().min(min).max(max)`: a required string whose length lies in the bounds. */
  function BoundedString(key: string, v: Option<Value>, min: nat, max: Option<nat>, minMsg: string, maxMsg: string)
    : (r: Result<string, Issue>)
    ensures r.Success? <==>
              v.Some? && v.value.JStr? && min <= |v.value.s| && (max.None? || |v.value.s| <= max.value)
    ensures r.Success? ==> r.value == v.value.s
    ensures r.Failure? ==> r.error.path == [key]
    ensures v.Some? && v.value.JStr? && |v.value.s| < min ==>
              r == Failure(Issue([key], TooSmall, minMsg))
    ensures v.Some? && v.value.JStr? && min <= |v.value.s| && max.Some? && |v.value.s| > max.value ==>
              r == Failure(Issue([key], TooBig, maxMsg))
  {
    match v
    case Some(JStr(s)) =>
      if |s| < min then Failure(Issue([key], TooSmall, minMsg))
      else if max.Some? && |s| > max.value then Failure(Issue([key], TooBig, maxMsg))
      else Success(s)
    case _ => Failure(TypeIssue(key, "string", v))
  }

  /** `z.string().nullable()`: the key must be present; its value is a string or null. */
  function NullableString(key: string, v: Option<Value>): (r: Result<Option<string>, Issue>)
    ensures r.Success? <==> v.Some? && (v.value.JNull? || v.value.JStr?)
    ensures r.Success? ==> (r.value.None? <==> v.value.JNull?)
    ensures r.Success? && v.value.JStr? ==> r.value == Some(v.value.s)
    ensures v.None? ==> r == Failure(Issue([key], InvalidType, "Required"))
    ensures r.Failure? ==> r.error.path == [key]
  {
    match v
    case Some(JNull) => Success(None)
    case Some(JStr(s)) => Success(Some(s))
    case _ => Failure(TypeIssue(key, "string", v))
  }

  /** `z.string().optional()`, and `.nullable()` too when `nullable` holds:
      absent (and, if allowed, null) gives no string. */
  function OptionalString(key: string, v: Option<Value>, nullable: bool): (r: Result<Option<string>, Issue>)
    ensures r.Success? <==> v.None? || v.value.JStr? || (nullable && v.value.JNull?)
    ensures r.Success? ==> (r.value.None? <==> !(v.Some? && v.value.JStr?))
    ensures r.Success? && v.Some? && v.value.JStr? ==> r.value == Some(v.value.s)
    ensures r.Failure? ==> r.error.path == [key] && r.error.code == InvalidType
  {
    match v
    case None => Success(None)
    case Some(JStr(s)) => Success(Some(s))
    case Some(JNull) => if nullable then Success(None) else Failure(TypeIssue(key, "string", v))
    case _ => Failure(TypeIssue(key, "string", v))
  }

  /** `z.string().uuid().nullable().optional()`: absent, null, or a string in UUID form. */
  function OptionalUuid(key: string, v: Option<Value>, isUuid: string -> bool): (r: Result<Option<string>, Issue>)
    ensures r.Success? <==> v.None? || v.value.JNull? || (v.value.JStr? && isUuid(v.value.s))
    ensures r.Success? ==> (r.value.None? <==> !(v.Some? && v.value.JStr?))
    ensures r.Success? && v.Some? && v.value.JStr? ==> r.value == Some(v.value.s)
    ensures r.Failure? ==> r.error.path == [key]
  {
    match v
    case None => Success(None)
    case Some(JNull) => Success(None)
    case Some(JStr(s)) => if isUuid(s) then Success(Some(s)) else Failure(Issue([key], InvalidString, "Invalid uuid"))
    case _ => Failure(TypeIssue(key, "string", v))
  }

  /** `z.string().url(msg).optional()`, `.nullable()` too when `nullable` holds, `.or(z.literal(""))`.
      A non-URL string fails with the URL message; a value of another type fails both
      alternatives and is reported as a failed union. */
  function UrlOrEmpty(key: string, v: Option<Value>, isUrl: string -> bool, nullable: bool, urlMsg: string)
    : (r: Result<Option<string>, Issue>)
    ensures r.Success? <==>
              v.None? || (nullable && v.value.JNull?) || (v.value.JStr? && (isUrl(v.value.s) || v.value.s == ""))
    ensures r.Success? ==> (r.value.None? <==> !(v.Some? && v.value.JStr?))
    ensures r.Success? && v.Some? && v.value.JStr? ==> r.value == Some(v.value.s)
    ensures r.Failure? ==> r.error.path == [key]
    ensures r.Failure? && v.Some? && v.value.JStr? ==> r.error == Issue([key], InvalidString, urlMsg)
  {
    match v
    case None => Success(None)
    case Some(JStr(s)) =>
      if isUrl(s) || s == "" then Success(Some(s)) else Failure(Issue([key], InvalidString, urlMsg))
    case Some(JNull) =>
      if nullable then Success(None) else Failure(Issue([key], InvalidUnion, "Invalid input"))
    case _ => Failure(Issue([key], InvalidUnion, "Invalid input"))
  }

  /** `'A' | 'B' | ...`, the way the library lists the members of an enumeration. */
  function Alternatives(allowed: seq<string>): string {
    if |allowed| == 0 then ""
    else if |allowed| == 1 then "'" + allowed[0] + "'"
    else "'" + allowed[0] + "' | " + Alternatives(allowed[1..])
  }

  /** `z.enum([...])`: a string that is one of the allowed members. */
  function EnumString(key: string, v: Option<Value>, allowed: seq<string>): (r: Result<string, Issue>)
    ensures r.Success? <==> v.Some? && v.value.JStr? && v.value.s in allowed
    ensures r.Success? ==> r.value == v.value.s
    ensures r.Failure? ==> r.error.path == [key]
    ensures r.Failure? && v.Some? && v.value.JStr? ==> r.error.code == InvalidEnumValue
  {
    match v
    case Some(JStr(s)) =>
      if s in allowed then Success(s)
      else Failure(Issue([key], InvalidEnumValue,
                         "Invalid enum value. Expected " + Alternatives(allowed) + ", received '" + s + "'"))
    case _ => Failure(TypeIssue(key, Alternatives(allowed), v))
  }

  /** `z.number().min(min).max(max)`: a required number in the closed range. */
  function NumberRange(key: string, v: Option<Value>, min: nat, max: nat): (r: Result<int, Issue>)
    ensures r.Success? <==> v.Some? && v.value.JNum? && min <= v.value.n <= max
    ensures r.Success? ==> r.value == v.value.n
    ensures r.Failure? ==> r.error.path == [key]
  {
    match v
    case Some(JNum(n)) =>
      if n < min then Failure(Issue([key], TooSmall, "Number must be greater than or equal to " + NatToString(min)))
      else if n > max then Failure(Issue([key], TooBig, "Number must be less than or equal to " + NatToString(max)))
      else Success(n)
    case _ => Failure(TypeIssue(key, "number", v))
  }

  // ---------------------------------------------------------------------------
  // Client-side report: one message per field, keyed by the first path segment
  // ---------------------------------------------------------------------------

  /** The field an issue is reported under on the client: the first path segment when it is truthy. */
  function FieldOf(issue: Issue): Option<string> {
    if |issue.path| > 0 && issue.path[0] != "" then Some(issue.path[0]) else None
  }

  /** `error.errors.forEach(err => { if (err.path[0]) fieldErrors[err.path[0]] = err.message })`. */
  function FieldErrors(issues: seq<Issue>): map<string, string>
    decreases |issues|
  {
    if issues == [] then map[]
    else
      var before := FieldErrors(issues[..|issues| - 1]);
      var last := issues[|issues| - 1];
      match FieldOf(last)
      case Some(k) => before[k := last.message]
      case None => before
  }

  /** Every key of the per-field report is the field of some issue. */
  lemma {:induction false} FieldErrorsKeys(issues: seq<Issue>, k: string)
    requires k in FieldErrors(issues)
    ensures exists i :: 0 <= i < |issues| && FieldOf(issues[i]) == Some(k)
    decreases |issues|
  {
    var n := |issues|;
    if FieldOf(issues[n - 1]) != Some(k) {
      FieldErrorsKeys(issues[..n - 1], k);
      var i :| 0 <= i < n - 1 && FieldOf(issues[..n - 1][i]) == Some(k);
      assert issues[i] == issues[..n - 1][i];
    }
  }

  /** The message kept for a field is that of the LAST issue on that field. */
  lemma {:induction false} FieldErrorsLastWins(issues: seq<Issue>, i: nat)
    requires i < |issues| && FieldOf(issues[i]).Some?
    requires forall j :: i < j < |issues| ==> FieldOf(issues[j]) != FieldOf(issues[i])
    ensures FieldOf(issues[i]).value in FieldErrors(issues)
    ensures FieldErrors(issues)[FieldOf(issues[i]).value] == issues[i].message
    decreases |issues|
  {
    var n := |issues|;
    if i < n - 1 {
      var prefix := issues[..n - 1];
      assert prefix[i] == issues[i];
      forall j | i < j < |prefix|
        ensures FieldOf(prefix[j]) != FieldOf(prefix[i])
      {
        assert prefix[j] == issues[j];
      }
      FieldErrorsLastWins(prefix, i);
    }
  }

  /** A field that no issue names gets no entry. */
  lemma {:induction false} FieldErrorsOnlyNamed(issues: seq<Issue>, k: string)
    requires forall i :: 0 <= i < |issues| ==> FieldOf(issues[i]) != Some(k)
    ensures k !in FieldErrors(issues)
    decreases |issues|
  {
    if issues != [] {
      var prefix := issues[..|issues| - 1];
      forall i | 0 <= i < |prefix|
        ensures FieldOf(prefix[i]) != Some(k)
      {
        assert prefix[i] == issues[i];
      }
      FieldErrorsOnlyNamed(prefix, k);
    }
  }

  // ---------------------------------------------------------------------------
  // Server-side report: `{ field: path.join("."), message }` for every issue
  // ---------------------------------------------------------------------------

  datatype FieldError = FieldError(field: string, message: string)

  /** `error.errors.map(err => ({ field: err.path.join("."), message: err.message }))`. */
  function Flatten(issues: seq<Issue>): (r: seq<FieldError>)
    ensures |r| == |issues|
    ensures forall i :: 0 <= i < |r| ==> r[i].message == issues[i].message
  {
    seq(|issues|, i requires 0 <= i < |issues| => FieldError(Join(issues[i].path, '.'), issues[i].message))
  }

  /** Nothing is lost by flattening: splitting a reported field on "." gives the issue's path
      back, for every non-empty path whose keys contain no ".". */
  lemma FlattenKeepsPath(issues: seq<Issue>, i: nat)
    requires i < |issues|
    requires |issues[i].path| >= 1
    requires forall j :: 0 <= j < |issues[i].path| ==> '.' !in issues[i].path[j]
    ensures Split(Flatten(issues)[i].field, '.') == issues[i].path
  {
    SplitJoin(issues[i].path, '.');
  }
}
