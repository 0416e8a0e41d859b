/** Request validation (server/src/validation.ts): the request bodies the
    three POST endpoints accept, the `:id` route parameter and the health
    response shape.  A schema either yields the parsed, trimmed input or the
    list of issues it found.  Lengths are sequence lengths; the UUID test is
    the 8-4-4-4-12 hexadecimal text form of section 3 of RFC 4122. */
module Validation {
  import opened Wrappers
  import opened Json
  import opened Text

  /** One problem found in a request: the offending key (empty for the body
      itself) and the message. */
  datatype Issue = Issue(path: string, message: string)

  function MinLengthMessage(field: string, min: nat): string {
    field + " must be at least " + NatToString(min) + " characters"
  }

  function MaxLengthMessage(field: string, max: nat): string {
    field + " must be at most " + NatToString(max) + " characters"
  }

  function RequiredMessage(field: string): string {
    field + " is required"
  }

  function UuidMessage(field: string): string {
    field + " must be a valid UUID"
  }

  const EmptyIdeaMessage := "Idea cannot be empty after trimming"

  // ---------------------------------------------------------------- UUIDs

  predicate IsHexDigit(c: char) {
    ('0' <= c <= '9') || ('a' <= c <= 'f') || ('A' <= c <= 'F')
  }

  /** The positions of the four dashes in the 36-character UUID text. */
  predicate IsDashPosition(i: int) {
    i == 8 || i == 13 || i == 18 || i == 23
  }

  /** The textual UUID form: 36 characters, dashes at 8, 13, 18 and 23,
      hexadecimal digits everywhere else. */
  predicate IsUuid(s: string) {
    && |s| == 36
    && forall i :: 0 <= i < 36 ==> if IsDashPosition(i) then s[i] == '-' else IsHexDigit(s[i])
  }

  predicate AllHex(h: string) {
    forall i :: 0 <= i < |h| ==> IsHexDigit(h[i])
  }

  /** Writes 32 hexadecimal digits as a UUID, in groups of 8, 4, 4, 4 and 12. */
  function UuidText(h: string): (r: string)
    requires |h| == 32
    ensures |r| == 36
  {
    h[..8] + "-" + h[8..12] + "-" + h[12..16] + "-" + h[16..20] + "-" + h[20..]
  }

  /** The hexadecimal digits of a UUID text, dashes removed. */
  function UuidDigits(s: string): (h: string)
    requires |s| == 36
    ensures |h| == 32
  {
    s[..8] + s[9..13] + s[14..18] + s[19..23] + s[24..]
  }

  /** Any 32 hexadecimal digits written as a UUID pass the UUID test, and
      removing the dashes gives the digits back. */
  lemma UuidTextIsUuid(h: string)
    requires |h| == 32 && AllHex(h)
    ensures IsUuid(UuidText(h))
    ensures UuidDigits(UuidText(h)) == h
  {
    var s := UuidText(h);
    forall i | 0 <= i < 36
      ensures if IsDashPosition(i) then s[i] == '-' else IsHexDigit(s[i])
    {
      if i < 8 { assert s[i] == h[i]; }
      else if 8 < i < 13 { assert s[i] == h[i - 1]; }
      else if 13 < i < 18 { assert s[i] == h[i - 2]; }
      else if 18 < i < 23 { assert s[i] == h[i - 3]; }
      else if 23 < i { assert s[i] == h[i - 4]; }
    }
    assert UuidDigits(s) == h by {
      assert s[..8] == h[..8] && s[9..13] == h[8..12] && s[14..18] == h[12..16];
      assert s[19..23] == h[16..20] && s[24..] == h[20..];
      assert h == h[..8] + h[8..12] + h[12..16] + h[16..20] + h[20..];
    }
  }

  /** Every text that passes the UUID test is the UUID text of its digits. */
  lemma UuidDigitsRoundTrip(s: string)
    requires IsUuid(s)
    ensures AllHex(UuidDigits(s))
    ensures UuidText(UuidDigits(s)) == s
  {
    var h := UuidDigits(s);
    forall j | 0 <= j < 32 ensures IsHexDigit(h[j]) {
      if j < 8 { assert h[j] == s[j]; }
      else if j < 12 { assert h[j] == s[j + 1]; }
      else if j < 16 { assert h[j] == s[j + 2]; }
      else if j < 20 { assert h[j] == s[j + 3]; }
      else { assert h[j] == s[j + 4]; }
    }
    var u := UuidText(h);
    forall i | 0 <= i < 36 ensures u[i] == s[i] {
      if i < 8 { assert u[i] == h[i]; }
      else if i == 8 || i == 13 || i == 18 || i == 23 { assert IsDashPosition(i); }
      else if i < 13 { assert u[i] == h[i - 1]; }
      else if i < 18 { assert u[i] == h[i - 2]; }
      else if i < 23 { assert u[i] == h[i - 3]; }
      else { assert u[i] == h[i - 4]; }
    }
  }

  // -------------------------------------------------------- string fields

  /** `body[key]` read as a string: a missing key is "Required", any other
      JSON type is a type error. */
  function ReadString(fields: map<string, Value>, key: string): (r: Result<string, Issue>)
    ensures r.Ok? <==> key in fields && fields[key].Str?
    ensures r.Ok? ==> r.value == fields[key].s
    ensures r.Err? ==> r.error.path == key
  {
    if key !in fields then Err(Issue(key, "Required"))
    else if !fields[key].Str? then Err(Issue(key, "Expected string"))
    else Ok(fields[key].s)
  }

  /** The raw string under `key` of an object body, if there is one. */
  function Raw(body: Value, key: string): Option<string> {
    if body.Obj? && key in body.fields && body.fields[key].Str? then Some(body.fields[key].s) else None
  }

  /** A string rule: `.min(min, minMessage).max(max, maxMessage)`. */
  datatype LengthRule = LengthRule(min: nat, minMessage: string, max: nat, maxMessage: string)

  /** The issues the two length checks report on the raw string. */
  function LengthIssues(key: string, raw: string, rule: LengthRule): (r: seq<Issue>)
    ensures r == [] <==> rule.min <= |raw| <= rule.max
    ensures forall i :: 0 <= i < |r| ==> r[i].path == key
  {
    (if |raw| < rule.min then [Issue(key, rule.minMessage)] else [])
    + (if |raw| > rule.max then [Issue(key, rule.maxMessage)] else [])
  }

  /** `z.string().min(..).max(..).transform(trim)`: the bounds are checked
      on the raw string, then the value is trimmed. */
  function BoundedTrimmed(fields: map<string, Value>, key: string, rule: LengthRule): (r: Result<string, seq<Issue>>)
    ensures r.Ok? <==> key in fields && fields[key].Str? && rule.min <= |fields[key].s| <= rule.max
    ensures r.Ok? ==> r.value == Trim(fields[key].s)
    ensures r.Ok? ==> |r.value| <= |fields[key].s| && |r.value| <= rule.max
    ensures r.Err? ==> |r.error| > 0
  {
    match ReadString(fields, key)
    case Err(issue) => Err([issue])
    case Ok(raw) =>
      var issues := LengthIssues(key, raw, rule);
      if issues == [] then Ok(Trim(raw)) else Err(issues)
  }

  /** `z.string().uuid(message)`: the value is kept as it is. */
  function UuidField(fields: map<string, Value>, key: string, field: string): (r: Result<string, seq<Issue>>)
    ensures r.Ok? <==> key in fields && fields[key].Str? && IsUuid(fields[key].s)
    ensures r.Ok? ==> r.value == fields[key].s
    ensures r.Err? ==> |r.error| > 0
  {
    match ReadString(fields, key)
    case Err(issue) => Err([issue])
    case Ok(raw) => if IsUuid(raw) then Ok(raw) else Err([Issue(key, UuidMessage(field))])
  }

  /** The issues of a field result, none when it parsed. */
  function IssuesOf<T>(r: Result<T, seq<Issue>>): seq<Issue> {
    if r.Err? then r.error else []
  }

  const NotAnObject := Issue("", "Expected object")

  // -------------------------------------------------------------- schemas

  datatype InitInput = InitInput(idea: string)
  datatype AnswerInput = AnswerInput(projectId: string, answer: string)
  datatype RefineInput = RefineInput(projectId: string, comments: string)

  const IdeaRule := LengthRule(5, MinLengthMessage("Idea", 5), 2000, MaxLengthMessage("Idea", 2000))
  const AnswerRule := LengthRule(1, RequiredMessage("Answer"), 5000, MaxLengthMessage("Answer", 5000))
  const CommentsRule := LengthRule(5, MinLengthMessage("Comments", 5), 3000, MaxLengthMessage("Comments", 3000))

  /** `initProjectSchema.safeParse(body)`: an idea of 5 to 2000 characters
      before trimming, non-empty after trimming; the output is trimmed.
      A failed length check does not stop zod: the transform is skipped but
      the refinement still runs, on the untrimmed value, so an empty idea
      reports both the length issue and the emptiness issue. */
  function ParseInit(body: Value): (r: Result<InitInput, seq<Issue>>)
    ensures r.Ok? <==> Raw(body, "idea").Some? && 5 <= |Raw(body, "idea").value| <= 2000
                       && !AllWhitespace(Raw(body, "idea").value)
    ensures r.Ok? ==> r.value.idea == Trim(Raw(body, "idea").value)
    ensures r.Ok? ==> 0 < |r.value.idea| <= |Raw(body, "idea").value| && |r.value.idea| <= 2000
    ensures r.Err? ==> |r.error| > 0
    ensures r.Err? ==> (Issue("idea", EmptyIdeaMessage) in r.error <==>
      Raw(body, "idea").Some? && (Raw(body, "idea").value == "" || (5 <= |Raw(body, "idea").value| <= 2000 && AllWhitespace(Raw(body, "idea").value))))
  {
    if !body.Obj? then Err([NotAnObject])
    else
      match BoundedTrimmed(body.fields, "idea", IdeaRule)
      case Err(issues) =>
        IdeaMessagesDiffer();
        if Raw(body, "idea") == Some("") then Err(issues + [Issue("idea", EmptyIdeaMessage)]) else Err(issues)
      case Ok(idea) => if |idea| > 0 then Ok(InitInput(idea)) else Err([Issue("idea", EmptyIdeaMessage)])
  }

  /** `answerSchema.safeParse(body)`: a UUID project id and an answer of 1 to
      5000 characters before trimming; the output answer is trimmed and may
      be empty.  Issues of both fields are reported together. */
  function ParseAnswer(body: Value): (r: Result<AnswerInput, seq<Issue>>)
    ensures r.Ok? <==> Raw(body, "projectId").Some? && IsUuid(Raw(body, "projectId").value)
                       && Raw(body, "answer").Some? && 1 <= |Raw(body, "answer").value| <= 5000
    ensures r.Ok? ==> r.value.projectId == Raw(body, "projectId").value
    ensures r.Ok? ==> r.value.answer == Trim(Raw(body, "answer").value)
    ensures r.Ok? ==> |r.value.answer| <= |Raw(body, "answer").value| && |r.value.answer| <= 5000
    ensures r.Err? ==> |r.error| > 0
  {
    if !body.Obj? then Err([NotAnObject])
    else
      var id := UuidField(body.fields, "projectId", "Project ID");
      var answer := BoundedTrimmed(body.fields, "answer", AnswerRule);
      if id.Ok? && answer.Ok? then Ok(AnswerInput(id.value, answer.value))
      else Err(IssuesOf(id) + IssuesOf(answer))
  }

  /** `refineSchema.safeParse(body)`: a UUID project id and comments of 5 to
      3000 characters before trimming; the output is trimmed and may be
      empty. */
  function ParseRefine(body: Value): (r: Result<RefineInput, seq<Issue>>)
    ensures r.Ok? <==> Raw(body, "projectId").Some? && IsUuid(Raw(body, "projectId").value)
                       && Raw(body, "comments").Some? && 5 <= |Raw(body, "comments").value| <= 3000
    ensures r.Ok? ==> r.value.projectId == Raw(body, "projectId").value
    ensures r.Ok? ==> r.value.comments == Trim(Raw(body, "comments").value)
    ensures r.Ok? ==> |r.value.comments| <= |Raw(body, "comments").value| && |r.value.comments| <= 3000
    ensures r.Err? ==> |r.error| > 0
  {
    if !body.Obj? then Err([NotAnObject])
    else
      var id := UuidField(body.fields, "projectId", "Project ID");
      var comments := BoundedTrimmed(body.fields, "comments", CommentsRule);
      if id.Ok? && comments.Ok? then Ok(RefineInput(id.value, comments.value))
      else Err(IssuesOf(id) + IssuesOf(comments))
  }

  /** `projectIdParamSchema.safeParse({ id })` for the route parameter. */
  function ParseProjectId(id: string): (r: Result<string, seq<Issue>>)
    ensures r.Ok? <==> IsUuid(id)
    ensures r.Ok? ==> r.value == id
    ensures r.Err? ==> r.error == [Issue("id", UuidMessage("Project ID"))]
  {
    UuidField(map["id" := Str(id)], "id", "Project ID")
  }

  /** Because the bounds are checked before trimming, an idea that is
      shorter than five characters once trimmed still gets through. */
  lemma ShortIdeaAfterTrim()
    ensures ParseInit(Obj(map["idea" := Str("  ab  ")])) == Ok(InitInput("ab"))
  {
    TrimExample();
  }

  lemma TrimExample()
    ensures Trim("  ab  ") == "ab"
  {
    assert AllWhitespace("  ") by { assert IsWhitespace(' '); }
    assert !IsWhitespace('a') && !IsWhitespace('b');
    TrimSurrounded("  ", "ab", "  ");
    assert "  " + "ab" + "  " == "  ab  ";
  }

  /** A whitespace-only answer within the bounds is accepted as "". */
  lemma BlankAnswerAccepted(projectId: string, raw: string)
    requires IsUuid(projectId)
    requires 1 <= |raw| <= 5000 && AllWhitespace(raw)
    ensures ParseAnswer(Obj(map["projectId" := Str(projectId), "answer" := Str(raw)]))
            == Ok(AnswerInput(projectId, ""))
  {
  }

  /** The length messages of the idea are not the emptiness message. */
  lemma IdeaMessagesDiffer()
    ensures MinLengthMessage("Idea", 5) != EmptyIdeaMessage
    ensures MaxLengthMessage("Idea", 2000) != EmptyIdeaMessage
  {
    assert MinLengthMessage("Idea", 5)[5] == 'm';
    assert MaxLengthMessage("Idea", 2000)[5] == 'm';
  }

  /** An empty idea fails the minimum length and, since the refinement
      still runs on it, the emptiness check as well. */
  lemma EmptyIdeaIssues()
    ensures ParseInit(Obj(map["idea" := Str("")])) ==
      Err([Issue("idea", MinLengthMessage("Idea", 5)), Issue("idea", EmptyIdeaMessage)])
  {
    var body := Obj(map["idea" := Str("")]);
    assert LengthIssues("idea", "", IdeaRule) == [Issue("idea", MinLengthMessage("Idea", 5))];
    assert BoundedTrimmed(body.fields, "idea", IdeaRule) == Err([Issue("idea", MinLengthMessage("Idea", 5))]);
    assert Raw(body, "idea") == Some("");
    assert [Issue("idea", MinLengthMessage("Idea", 5))] + [Issue("idea", EmptyIdeaMessage)]
        == [Issue("idea", MinLengthMessage("Idea", 5)), Issue("idea", EmptyIdeaMessage)];
    assert ParseInit(body) == Err([Issue("idea", MinLengthMessage("Idea", 5))] + [Issue("idea", EmptyIdeaMessage)]);
  }

  /** A whitespace-only idea within the bounds is refused with the
      emptiness message alone. */
  lemma BlankIdeaRefused(raw: string)
    requires 5 <= |raw| <= 2000 && AllWhitespace(raw)
    ensures ParseInit(Obj(map["idea" := Str(raw)])) == Err([Issue("idea", EmptyIdeaMessage)])
  {
  }

  // ------------------------------------------------------- health schema

  predicate AllDigits(s: string) {
    forall i :: 0 <= i < |s| ==> IsDigit(s[i])
  }

  /** `z.string().datetime()` with its defaults: `YYYY-MM-DDTHH:MM:SS`,
      optionally a dot and one or more fraction digits, then `Z`. */
  predicate IsIsoDateTime(s: string) {
    && |s| >= 20
    && AllDigits(s[..4]) && s[4] == '-' && AllDigits(s[5..7]) && s[7] == '-' && AllDigits(s[8..10])
    && s[10] == 'T' && AllDigits(s[11..13]) && s[13] == ':' && AllDigits(s[14..16]) && s[16] == ':'
    && AllDigits(s[17..19])
    && s[|s| - 1] == 'Z'
    && (|s| == 20 || (|s| >= 22 && s[19] == '.' && AllDigits(s[20..|s| - 1])))
  }

  /** `healthCheckSchema`: a status of 'ok' or 'error', an ISO timestamp, a
      version string, an optional numeric uptime and an optional memory
      object with numeric `used` and `total`. */
  predicate HealthCheckValid(v: Value) {
    && v.Obj?
    && "status" in v.fields && v.fields["status"] in {Str("ok"), Str("error")}
    && "timestamp" in v.fields && v.fields["timestamp"].Str? && IsIsoDateTime(v.fields["timestamp"].s)
    && "version" in v.fields && v.fields["version"].Str?
    && ("uptime" in v.fields ==> v.fields["uptime"].Num?)
    && ("memory" in v.fields ==>
         var m := v.fields["memory"];
         m.Obj? && "used" in m.fields && m.fields["used"].Num? && "total" in m.fields && m.fields["total"].Num?)
  }

  /** A calendar instant with millisecond precision, as `toISOString` prints it. */
  datatype Instant = Instant(year: nat, month: nat, day: nat, hour: nat, minute: nat, second: nat, millis: nat)

  /** The last year a JavaScript `Date` can hold (section 21.4.1.22 of
      ECMA-262 limits time values to 8.64e15 ms around 1970). */
  const MaxYear := 275760

  /** The fields of a valid `Date`: every one within its calendar range. */
  predicate IsDate(t: Instant) {
    t.year <= MaxYear && 1 <= t.month <= 12 && 1 <= t.day <= 31 && t.hour < 24 && t.minute < 60 && t.second < 60
    && t.millis < 1000
  }

  /** `n` written with exactly `width` decimal digits, zero-padded. */
  function Padded(n: nat, width: nat): (r: string)
    ensures |r| == width
    ensures AllDigits(r)
  {
    if width == 0 then [] else Padded(n / 10, width - 1) + [DigitChar(n % 10)]
  }

  /** Four digits for the years 0 to 9999; later years take the expanded
      form, a plus sign and six digits. */
  function YearText(year: nat): (r: string)
    ensures year < 10000 ==> r == Padded(year, 4)
    ensures year >= 10000 ==> r == "+" + Padded(year, 6)
  {
    if year < 10000 then Padded(year, 4) else "+" + Padded(year, 6)
  }

  /** `Date.prototype.toISOString`: `YYYY-MM-DDTHH:MM:SS.sssZ`, or
      `+YYYYYY-MM-DDTHH:MM:SS.sssZ` from the year 10000 on. */
  function ToIsoString(t: Instant): (r: string)
    requires IsDate(t)
    ensures t.year < 10000 ==> |r| == 24
    ensures t.year >= 10000 ==> |r| == 27 && r[0] == '+'
  {
    YearText(t.year) + "-" + Padded(t.month, 2) + "-" + Padded(t.day, 2)
    + "T" + Padded(t.hour, 2) + ":" + Padded(t.minute, 2) + ":" + Padded(t.second, 2)
    + "." + Padded(t.millis, 3) + "Z"
  }

  /** The four-digit form reads back to the instant it was printed from. */
  lemma IsoStringReadsBack(t: Instant)
    requires IsDate(t) && t.year < 10000
    ensures var s := ToIsoString(t);
      && AllDigits(s[..4]) && ParseNat(s[..4]) == t.year
      && AllDigits(s[5..7]) && ParseNat(s[5..7]) == t.month
      && AllDigits(s[8..10]) && ParseNat(s[8..10]) == t.day
      && AllDigits(s[11..13]) && ParseNat(s[11..13]) == t.hour
      && AllDigits(s[14..16]) && ParseNat(s[14..16]) == t.minute
      && AllDigits(s[17..19]) && ParseNat(s[17..19]) == t.second
      && AllDigits(s[20..23]) && ParseNat(s[20..23]) == t.millis
  {
    IsoStringPieces(t);
    assert Pow10(2) == 100 && Pow10(3) == 1000 && Pow10(4) == 10000;
    PaddedRoundTrip(t.year, 4);
    PaddedRoundTrip(t.month, 2);
    PaddedRoundTrip(t.day, 2);
    PaddedRoundTrip(t.hour, 2);
    PaddedRoundTrip(t.minute, 2);
    PaddedRoundTrip(t.second, 2);
    PaddedRoundTrip(t.millis, 3);
  }

  /** Where each field sits in the four-digit form. */
  lemma IsoStringPieces(t: Instant)
    requires IsDate(t) && t.year < 10000
    ensures var s := ToIsoString(t);
      && s[..4] == Padded(t.year, 4) && s[4] == '-' && s[5..7] == Padded(t.month, 2) && s[7] == '-'
      && s[8..10] == Padded(t.day, 2) && s[10] == 'T' && s[11..13] == Padded(t.hour, 2) && s[13] == ':'
      && s[14..16] == Padded(t.minute, 2) && s[16] == ':' && s[17..19] == Padded(t.second, 2)
      && s[19] == '.' && s[20..23] == Padded(t.millis, 3) && s[23] == 'Z'
  {
    IsoLayout(Padded(t.year, 4), Padded(t.month, 2), Padded(t.day, 2), Padded(t.hour, 2),
      Padded(t.minute, 2), Padded(t.second, 2), Padded(t.millis, 3));
  }

  lemma IsoLayout(y: string, mo: string, d: string, h: string, mi: string, sec: string, ms: string)
    requires |y| == 4 && |mo| == 2 && |d| == 2 && |h| == 2 && |mi| == 2 && |sec| == 2 && |ms| == 3
    ensures var s := y + "-" + mo + "-" + d + "T" + h + ":" + mi + ":" + sec + "." + ms + "Z";
      && s[..4] == y && s[4] == '-' && s[5..7] == mo && s[7] == '-' && s[8..10] == d && s[10] == 'T'
      && s[11..13] == h && s[13] == ':' && s[14..16] == mi && s[16] == ':' && s[17..19] == sec
      && s[19] == '.' && s[20..23] == ms && s[23] == 'Z'
  {
    var date := y + "-" + mo + "-" + d;
    var time := "T" + h + ":" + mi + ":" + sec + "." + ms + "Z";
    assert date[..4] == y && date[5..7] == mo && date[8..10] == d;
    assert time[1..3] == h && time[4..6] == mi && time[7..9] == sec && time[10..13] == ms;
    assert y + "-" + mo + "-" + d + "T" + h + ":" + mi + ":" + sec + "." + ms + "Z" == date + time;
  }

  /** The schema accepts the timestamp exactly in the four-digit years: its
      pattern has no room for the expanded form's sign. */
  lemma IsoStringIsDateTime(t: Instant)
    requires IsDate(t)
    ensures IsIsoDateTime(ToIsoString(t)) <==> t.year < 10000
  {
    var s := ToIsoString(t);
    if t.year < 10000 {
      IsoStringPieces(t);
    } else {
      assert !IsDigit(s[..4][0]);
    }
  }

  /** Reads the digits of `Padded` back, for a number that fits. */
  lemma {:induction false} PaddedRoundTrip(n: nat, width: nat)
    requires n < Pow10(width)
    ensures ParseNat(Padded(n, width)) == n
  {
    if width > 0 {
      PaddedRoundTrip(n / 10, width - 1);
      var r := Padded(n, width);
      assert r[..|r| - 1] == Padded(n / 10, width - 1);
    }
  }

  function Pow10(k: nat): (r: nat)
    ensures r >= 1
  {
    if k == 0 then 1 else 10 * Pow10(k - 1)
  }
}
