/** The validation middleware and the reusable schemas that sit beside it
    (backend/src/middleware/validate.middleware.ts). */
module Validation {
  import opened Base
  import opened Zod
  import opened Errors
  import opened Http
  import TodoSchema

  // ---------------------------------------------------------------------
  // validate and validateAll
  // ---------------------------------------------------------------------

  /** How `schema.parseAsync(data)` settles: with the parsed value, by throwing
      the library's validation error, or by throwing anything else. */
  datatype SchemaOutcome = Parsed(value: Json) | Invalid(issues: seq<Issue>) | Failed(err: Thrown)

  /** One entry of the 400 response's `details`; `target` is set by validateAll only. */
  datatype FieldError = FieldError(target: Option<Target>, field: string, message: string, code: string)

  datatype ValidationFailure = ValidationFailure(success: bool, error: string, code: string, statusCode: int, details: seq<FieldError>)

  /** An issue as reported: its path joined with '.'. */
  function Describe(target: Option<Target>, i: Issue): FieldError
  {
    FieldError(target, Join(i.path, "."), i.message, CodeText(i.code))
  }

  /** One detail per issue, in order. */
  function DescribeAll(target: Option<Target>, issues: seq<Issue>): (r: seq<FieldError>)
    ensures |r| == |issues|
    ensures forall k :: 0 <= k < |issues| ==> r[k] == Describe(target, issues[k])
  {
    if issues == [] then [] else [Describe(target, issues[0])] + DescribeAll(target, issues[1..])
  }

  function Rejection(details: seq<FieldError>): ValidationFailure
  {
    ValidationFailure(false, "Validation failed", "VALIDATION_ERROR", 400, details)
  }

  /** `validate(schema, target)`: on success the part is replaced by the parsed
      value and the chain continues; validation issues answer 400 with one detail
      per issue; any other failure is forwarded. Nothing else in the request changes. */
  method Validate(schema: Json -> SchemaOutcome, target: Target, req: Request) returns (o: Outcome<ValidationFailure>)
    modifies req
    ensures var out := schema(old(req.Get(target)));
      && (out.Parsed? ==> o == Next && req.Get(target) == out.value)
      && (out.Invalid? ==> o == Respond(400, Rejection(DescribeAll(None, out.issues))) && req.Get(target) == old(req.Get(target)))
      && (out.Failed? ==> o == NextWithError(out.err) && req.Get(target) == old(req.Get(target)))
    ensures forall t :: t != target ==> req.Get(t) == old(req.Get(t))
    ensures req.user == old(req.user) && req.userId == old(req.userId) && req.authorization == old(req.authorization)
    ensures req.verb == old(req.verb) && req.url == old(req.url)
  {
    var data := req.Get(target);
    var out := schema(data);
    match out
    case Parsed(v) =>
      req.Set(target, v);
      o := Next;
    case Invalid(issues) =>
      o := Respond(400, Rejection(DescribeAll(None, issues)));
    case Failed(err) =>
      o := NextWithError(err);
  }

  /** One `[target, schema]` pair of the schemas object, in its own order. */
  datatype Entry = Entry(target: Target, schema: Option<Json -> SchemaOutcome>)

  /** The three request parts as the loop leaves them. */
  datatype Parts = Parts(body: Json, params: Json, query: Json)

  function Read(d: Parts, t: Target): Json
  {
    match t
    case Body => d.body
    case Params => d.params
    case Query => d.query
  }

  function Write(d: Parts, t: Target, v: Json): (r: Parts)
    ensures Read(r, t) == v
    ensures forall u :: u != t ==> Read(r, u) == Read(d, u)
  {
    match t
    case Body => d.(body := v)
    case Params => d.(params := v)
    case Query => d.(query := v)
  }

  /** The loop's state: the request parts, the details gathered, and the
      non-validation error that stopped it, if any. */
  datatype Progress = Progress(parts: Parts, errors: seq<FieldError>, crash: Option<Thrown>)

  /** One iteration: skip an absent schema, replace the part on success, gather
      the issues tagged with the target, or stop on any other error. */
  function Step(e: Entry, p: Progress): Progress
  {
    if p.crash.Some? || e.schema.None? then p
    else
      match e.schema.value(Read(p.parts, e.target))
      case Parsed(v) => p.(parts := Write(p.parts, e.target, v))
      case Invalid(issues) => p.(errors := p.errors + DescribeAll(Some(e.target), issues))
      case Failed(err) => p.(crash := Some(err))
  }

  /** The loop over the entries, one `Step` each. */
  function RunAll(entries: seq<Entry>, start: Progress): Progress
    decreases |entries|
  {
    if entries == [] then start else Step(entries[|entries| - 1], RunAll(entries[..|entries| - 1], start))
  }

  /** After the loop: a forwarded error, a 400 listing every detail, or next(). */
  function Verdict(p: Progress): Outcome<ValidationFailure>
  {
    if p.crash.Some? then NextWithError(p.crash.value)
    else if |p.errors| > 0 then Respond(400, Rejection(p.errors))
    else Next
  }

  /** Once an error has stopped the loop, later entries change nothing. */
  lemma {:induction false} CrashSticks(entries: seq<Entry>, start: Progress, i: nat)
    requires i <= |entries|
    requires RunAll(entries[..i], start).crash.Some?
    ensures RunAll(entries, start) == RunAll(entries[..i], start)
    decreases |entries| - i
  {
    if i < |entries| {
      var n := |entries|;
      assert entries[..i + 1][..i] == entries[..i];
      CrashSticks(entries, start, i + 1);
    } else {
      assert entries[..i] == entries;
    }
  }

  /** `validateAll(schemas)`: validates every part that has a schema, replacing
      the parts that pass, gathering every issue tagged with its part, and
      answering 400 exactly when some issue was found; a non-validation error
      stops the loop and is forwarded. */
  method ValidateAll(entries: seq<Entry>, req: Request) returns (o: Outcome<ValidationFailure>)
    modifies req
    ensures var p := RunAll(entries, Progress(Parts(old(req.body), old(req.params), old(req.query)), [], None));
      && o == Verdict(p)
      && req.body == p.parts.body && req.params == p.parts.params && req.query == p.parts.query
    ensures req.user == old(req.user) && req.userId == old(req.userId) && req.authorization == old(req.authorization)
    ensures req.verb == old(req.verb) && req.url == old(req.url)
  {
    ghost var start := Progress(Parts(req.body, req.params, req.query), [], None);
    var allErrors: seq<FieldError> := [];
    var i := 0;
    while i < |entries|
      invariant 0 <= i <= |entries|
      invariant RunAll(entries[..i], start) == Progress(Parts(req.body, req.params, req.query), allErrors, None)
      invariant req.user == old(req.user) && req.userId == old(req.userId) && req.authorization == old(req.authorization)
      invariant req.verb == old(req.verb) && req.url == old(req.url)
    {
      var e := entries[i];
      assert entries[..i + 1][..i] == entries[..i];
      if e.schema.Some? {
        ghost var prev := Parts(req.body, req.params, req.query);
        assert Read(prev, e.target) == req.Get(e.target) by {
          match e.target { case Body => case Params => case Query => }
        }
        var out := e.schema.value(req.Get(e.target));
        match out
        case Parsed(v) =>
          req.Set(e.target, v);
          assert Parts(req.body, req.params, req.query) == Write(prev, e.target, v) by {
            match e.target { case Body => case Params => case Query => }
          }
        case Invalid(issues) =>
          allErrors := GatherIssues(e.target, issues, allErrors);
        case Failed(err) =>
          CrashSticks(entries, start, i + 1);
          o := NextWithError(err);
          return;
      }
      i := i + 1;
    }
    assert entries[..i] == entries;
    if |allErrors| > 0 {
      o := Respond(400, Rejection(allErrors));
    } else {
      o := Next;
    }
  }

  /** The inner loop of validateAll: one detail per issue, tagged with the target. */
  method GatherIssues(target: Target, issues: seq<Issue>, errors: seq<FieldError>) returns (errors': seq<FieldError>)
    ensures errors' == errors + DescribeAll(Some(target), issues)
  {
    errors' := errors;
    var j := 0;
    while j < |issues|
      invariant 0 <= j <= |issues|
      invariant errors' == errors + DescribeAll(Some(target), issues[..j])
    {
      assert issues[..j + 1] == issues[..j] + [issues[j]];
      DescribeAllAppend(Some(target), issues[..j], issues[j]);
      ghost var done := DescribeAll(Some(target), issues[..j]);
      var detail := FieldError(Some(target), Join(issues[j].path, "."), issues[j].message, CodeText(issues[j].code));
      assert errors + done + [detail] == errors + (done + [detail]);
      errors' := errors' + [detail];
      j := j + 1;
    }
    assert issues[..j] == issues;
  }

  lemma DescribeAllAppend(target: Option<Target>, issues: seq<Issue>, i: Issue)
    ensures DescribeAll(target, issues + [i]) == DescribeAll(target, issues) + [Describe(target, i)]
  {
  }

  /** The parts named by the entries. */
  function Targets(entries: seq<Entry>): set<Target>
  {
    set k | 0 <= k < |entries| :: entries[k].target
  }

  /** The schemas object has one key per part, so no part appears twice. */
  predicate DistinctTargets(entries: seq<Entry>)
  {
    forall j, k :: 0 <= j < k < |entries| ==> entries[j].target != entries[k].target
  }

  /** The details an entry contributes when its schema sees the part `data`. */
  function EntryErrors(e: Entry, data: Parts): seq<FieldError>
  {
    if e.schema.None? then []
    else
      match e.schema.value(Read(data, e.target))
      case Invalid(issues) => DescribeAll(Some(e.target), issues)
      case _ => []
  }

  function AllEntryErrors(entries: seq<Entry>, data: Parts): seq<FieldError>
    decreases |entries|
  {
    if entries == [] then [] else AllEntryErrors(entries[..|entries| - 1], data) + EntryErrors(entries[|entries| - 1], data)
  }

  /** The loop writes only the parts the entries name. */
  lemma {:induction false} OnlyNamedPartsChange(entries: seq<Entry>, start: Progress, t: Target)
    requires t !in Targets(entries)
    ensures Read(RunAll(entries, start).parts, t) == Read(start.parts, t)
    decreases |entries|
  {
    if entries != [] {
      var init := entries[..|entries| - 1];
      assert Targets(init) <= Targets(entries) by {
        forall x | x in Targets(init) ensures x in Targets(entries) {
          var k :| 0 <= k < |init| && init[k].target == x;
          assert entries[k].target == x;
        }
      }
      OnlyNamedPartsChange(init, start, t);
      assert entries[|entries| - 1].target != t;
    }
  }

  /** The last entry names a part that no earlier entry names. */
  lemma LastTargetFresh(entries: seq<Entry>)
    requires DistinctTargets(entries) && entries != []
    ensures DistinctTargets(entries[..|entries| - 1])
    ensures entries[|entries| - 1].target !in Targets(entries[..|entries| - 1])
  {
  }

  /** A stopped loop stays stopped, so a run that ends without a forwarded
      error had none before its last entry either. */
  lemma NoCrashBefore(entries: seq<Entry>, start: Progress)
    requires entries != [] && RunAll(entries, start).crash.None?
    ensures RunAll(entries[..|entries| - 1], start).crash.None?
  {
  }

  /** A step that stops nothing adds exactly the entry's own details, computed
      on any data that agrees on the entry's part. */
  lemma StepErrors(e: Entry, p: Progress, data: Parts)
    requires p.crash.None? && Step(e, p).crash.None?
    requires Read(p.parts, e.target) == Read(data, e.target)
    ensures Step(e, p).errors == p.errors + EntryErrors(e, data)
  {
  }

  /** The induction step: the last entry adds its own details, computed on the
      incoming data since no earlier entry wrote its part. */
  lemma GatherLast(entries: seq<Entry>, start: Progress)
    requires entries != [] && RunAll(entries, start).crash.None?
    requires var last := entries[|entries| - 1];
      Read(RunAll(entries[..|entries| - 1], start).parts, last.target) == Read(start.parts, last.target)
    requires RunAll(entries[..|entries| - 1], start).crash.None?
    requires RunAll(entries[..|entries| - 1], start).errors == AllEntryErrors(entries[..|entries| - 1], start.parts)
    ensures RunAll(entries, start).errors == AllEntryErrors(entries, start.parts)
  {
    StepErrors(entries[|entries| - 1], RunAll(entries[..|entries| - 1], start), start.parts);
  }

  /** With distinct parts, every schema sees the request as it came in, so when
      nothing was forwarded the details are every issue of every entry, in entry
      order, each tagged with its part. */
  lemma {:induction false} GathersEveryIssue(entries: seq<Entry>, start: Progress)
    requires start.errors == []
    requires DistinctTargets(entries)
    requires RunAll(entries, start).crash.None?
    ensures RunAll(entries, start).errors == AllEntryErrors(entries, start.parts)
    decreases |entries|
  {
    if entries != [] {
      NoCrashBefore(entries, start);
      LastTargetFresh(entries);
      GathersEveryIssue(entries[..|entries| - 1], start);
      OnlyNamedPartsChange(entries[..|entries| - 1], start, entries[|entries| - 1].target);
      GatherLast(entries, start);
    }
  }

  /** With distinct parts and nothing forwarded, a part whose schema accepted the
      incoming data holds the parsed value afterwards. */
  lemma {:induction false} PassedPartsReplaced(entries: seq<Entry>, start: Progress, k: nat)
    requires DistinctTargets(entries)
    requires k < |entries| && entries[k].schema.Some?
    requires entries[k].schema.value(Read(start.parts, entries[k].target)).Parsed?
    requires RunAll(entries, start).crash.None?
    ensures Read(RunAll(entries, start).parts, entries[k].target) == entries[k].schema.value(Read(start.parts, entries[k].target)).value
    decreases |entries|
  {
    var n := |entries|;
    var init := entries[..n - 1];
    var t := entries[k].target;
    NoCrashBefore(entries, start);
    LastTargetFresh(entries);
    if k == n - 1 {
      OnlyNamedPartsChange(init, start, t);
    } else {
      PassedPartsReplaced(init, start, k);
    }
  }

  /** The loop answers 400 exactly when nothing was forwarded and some issue was found. */
  lemma VerdictRule(p: Progress)
    ensures Verdict(p).Respond? <==> p.crash.None? && p.errors != []
    ensures Verdict(p).Respond? ==> Verdict(p).status == 400 && Verdict(p).response.details == p.errors
    ensures Verdict(p) == Next <==> p.crash.None? && p.errors == []
  {
  }

  // ---------------------------------------------------------------------
  // emailSchema and passwordSchema
  // ---------------------------------------------------------------------

  const EmailChecks: seq<Check> := [
    Regex(EmailAddress, "Invalid email address"),
    MinLength(3, "Email must be at least 3 characters"),
    MaxLength(255, "Email must not exceed 255 characters")]

  const PasswordChecks: seq<Check> := [
    MinLength(12, "Password must be at least 12 characters"),
    MaxLength(128, "Password must not exceed 128 characters"),
    Regex(HasUpper, "Password must contain at least one uppercase letter"),
    Regex(HasLower, "Password must contain at least one lowercase letter"),
    Regex(HasDigit, "Password must contain at least one number"),
    Regex(HasSpecial, "Password must contain at least one special character")]

  /** An e-mail is an address of 3..255 characters, kept as written. */
  lemma EmailRule(s: string)
    ensures AllPass(s, EmailChecks) <==> LooksLikeEmail(s) && 3 <= |s| <= 255
    ensures Transformed(s, EmailChecks) == s
  {
    EmailChecksApart(s);
    assert Passes(EmailChecks[0], s) == LooksLikeEmail(s);
  }

  /** The three e-mail checks, each on the raw string. */
  lemma EmailChecksApart(s: string)
    ensures AllPass(s, EmailChecks) <==> Passes(EmailChecks[0], s) && 3 <= |s| <= 255
    ensures Transformed(s, EmailChecks) == s
  {
    ThreeChecks(s, EmailChecks[0], EmailChecks[1], EmailChecks[2]);
    assert EmailChecks == [EmailChecks[0], EmailChecks[1], EmailChecks[2]];
  }

  predicate StrongPassword(s: string)
  {
    && 12 <= |s| <= 128
    && (exists i :: 0 <= i < |s| && IsUpper(s[i]))
    && (exists i :: 0 <= i < |s| && IsLower(s[i]))
    && (exists i :: 0 <= i < |s| && IsDigit(s[i]))
    && (exists i :: 0 <= i < |s| && !IsAlnum(s[i]))
  }

  /** A password has 12..128 characters with an upper-case letter, a lower-case
      letter, a digit and a character outside [A-Za-z0-9]. */
  lemma PasswordRule(s: string)
    ensures AllPass(s, PasswordChecks) <==> StrongPassword(s)
    ensures Transformed(s, PasswordChecks) == s
  {
    AllPassWithoutTrim(s, PasswordChecks);
    assert Passes(PasswordChecks[0], s) == (|s| >= 12);
    assert Passes(PasswordChecks[1], s) == (|s| <= 128);
    assert Passes(PasswordChecks[2], s) == Matches(HasUpper, s);
    assert Passes(PasswordChecks[3], s) == Matches(HasLower, s);
    assert Passes(PasswordChecks[4], s) == Matches(HasDigit, s);
    assert Passes(PasswordChecks[5], s) == Matches(HasSpecial, s);
  }

  /** `emailSchema` on its own. */
  function EmailSchema(v: Option<Json>, path: seq<string>): (r: Result<string, seq<Issue>>)
    ensures r.Ok? <==> v.Some? && v.value.JStr? && LooksLikeEmail(v.value.s) && 3 <= |v.value.s| <= 255
    ensures r.Ok? ==> r.value == v.value.s
  {
    if v.Some? && v.value.JStr? then EmailRule(v.value.s); ParseString(v, EmailChecks, path)
    else ParseString(v, EmailChecks, path)
  }

  /** `passwordSchema` on its own. */
  function PasswordSchema(v: Option<Json>, path: seq<string>): (r: Result<string, seq<Issue>>)
    ensures r.Ok? <==> v.Some? && v.value.JStr? && StrongPassword(v.value.s)
    ensures r.Ok? ==> r.value == v.value.s
  {
    if v.Some? && v.value.JStr? then PasswordRule(v.value.s); ParseString(v, PasswordChecks, path)
    else ParseString(v, PasswordChecks, path)
  }

  // ---------------------------------------------------------------------
  // paginationSchema and searchSchema
  // ---------------------------------------------------------------------

  /** `val ? parseInt(val, 10) : d`: None stands for NaN. */
  function NumberOrDefault(v: Option<string>, d: int): Option<int>
  {
    if v.None? || v.value == "" then Some(d) else ParseIntJs(v.value)
  }

  datatype Pagination = Pagination(page: int, limit: int, sortBy: Option<string>, sortOrder: TodoSchema.SortOrder)

  const PageMessage := "Page must be greater than 0"
  const LimitMessage := "Limit must be between 1 and 100"

  /** The two object-level refinements, both run once every field has its type. */
  function PagingIssues(page: Option<int>, limit: Option<int>): seq<Issue>
  {
    (if page.Some? && page.value > 0 then [] else [Issue(["page"], Custom, PageMessage)])
    + (if limit.Some? && 0 < limit.value <= 100 then [] else [Issue(["limit"], Custom, LimitMessage)])
  }

  function PaginationSchema(query: Json): Result<Pagination, seq<Issue>>
  {
    match ObjectFields(query)
    case Err(e) => Err(e)
    case Ok(m) =>
      var page := ParseOptionalString(Lookup(m, "page"), [], ["page"]);
      var limit := ParseOptionalString(Lookup(m, "limit"), [], ["limit"]);
      var sortBy := ParseOptionalString(Lookup(m, "sortBy"), [], ["sortBy"]);
      var sortOrder := TodoSchema.ParseSortOrder(Lookup(m, "sortOrder"));
      if page.Ok? && limit.Ok? && sortBy.Ok? && sortOrder.Ok? then
        var p := NumberOrDefault(page.value, 1);
        var l := NumberOrDefault(limit.value, 20);
        var issues := PagingIssues(p, l);
        if issues == [] then Ok(Pagination(p.value, l.value, sortBy.value, sortOrder.value)) else Err(issues)
      else
        Err(IssuesOf(page) + IssuesOf(limit) + IssuesOf(sortBy) + IssuesOf(sortOrder))
  }

  predicate OptionalText(v: Option<Json>) { v.None? || v.value.JStr? }

  function TextOf(v: Option<Json>): Option<string>
  {
    if v.Some? && v.value.JStr? then Some(v.value.s) else None
  }

  /** Pagination is accepted exactly when the fields are text and the page is a
      positive number and the limit a number in 1..100 as `parseInt` reads them;
      an absent or empty page is 1 and limit 20. */
  lemma PaginationRule(m: map<string, Json>)
    ensures var r := PaginationSchema(JObj(m));
      var p := NumberOrDefault(TextOf(Lookup(m, "page")), 1);
      var l := NumberOrDefault(TextOf(Lookup(m, "limit")), 20);
      && (r.Ok? <==> (OptionalText(Lookup(m, "page")) && OptionalText(Lookup(m, "limit")) && OptionalText(Lookup(m, "sortBy"))
                      && TodoSchema.ParseSortOrder(Lookup(m, "sortOrder")).Ok?
                      && p.Some? && p.value > 0 && l.Some? && 0 < l.value <= 100))
      && (r.Ok? ==> r.value.page == p.value && r.value.limit == l.value)
  {
    var page, limit, sortBy := Lookup(m, "page"), Lookup(m, "limit"), Lookup(m, "sortBy");
    if page.Some? && page.value.JStr? {
      assert Transformed(page.value.s, []) == page.value.s;
    }
    if limit.Some? && limit.value.JStr? {
      assert Transformed(limit.value.s, []) == limit.value.s;
    }
  }

  /** An absent page and limit read as 1 and 20. */
  lemma PaginationDefaults()
    ensures PaginationSchema(JObj(map[])) == Ok(Pagination(1, 20, None, TodoSchema.Desc))
  {
  }

  /** A page text without digits reads as NaN and is refused. */
  lemma PaginationRefusesNaN(m: map<string, Json>)
    requires Lookup(m, "page") == Some(JStr("abc"))
    ensures PaginationSchema(JObj(m)).Err?
  {
    assert ParseIntJs("abc") == None by {
      assert LeadingSpace("abc") == 0;
      assert DigitPrefix("abc") == 0;
    }
    PaginationRule(m);
  }

  /** `parseInt` stops at the first non-digit, so a page of "2x" is page 2. */
  lemma PaginationReadsLeadingDigits(m: map<string, Json>)
    requires Lookup(m, "page") == Some(JStr("2x"))
    requires PaginationSchema(JObj(m)).Ok?
    ensures PaginationSchema(JObj(m)).value.page == 2
  {
    assert ParseIntJs("2x") == Some(2) by {
      assert LeadingSpace("2x") == 0;
      assert "2x"[0..] == "2x";
      assert DigitPrefix("2x"[1..]) == 0;
      assert DigitPrefix("2x") == 1;
      assert "2x"[..1] == "2";
      assert DigitsValue("2") == 2 by { assert "2"[..0] == []; }
    }
    PaginationRule(m);
  }

  datatype Search = Search(q: string, page: Option<int>, limit: Option<int>)

  const SearchChecks: seq<Check> := [MinLength(1, "Search query cannot be empty"), MaxLength(200, "Search query too long")]

  function SearchSchema(query: Json): Result<Search, seq<Issue>>
  {
    match ObjectFields(query)
    case Err(e) => Err(e)
    case Ok(m) =>
      var q := ParseString(Lookup(m, "q"), SearchChecks, ["q"]);
      var page := ParseOptionalString(Lookup(m, "page"), [], ["page"]);
      var limit := ParseOptionalString(Lookup(m, "limit"), [], ["limit"]);
      if q.Ok? && page.Ok? && limit.Ok? then
        Ok(Search(q.value, NumberOrDefault(page.value, 1), NumberOrDefault(limit.value, 20)))
      else
        Err(IssuesOf(q) + IssuesOf(page) + IssuesOf(limit))
  }

  /** `searchSchema`: q has 1..200 characters; page and limit are parsed but
      never range-checked, so NaN (None) and negative numbers pass. */
  lemma SearchRule(m: map<string, Json>)
    ensures var r := SearchSchema(JObj(m));
      && (r.Ok? <==> (IsText(Lookup(m, "q")) && 1 <= |Lookup(m, "q").value.s| <= 200
                      && OptionalText(Lookup(m, "page")) && OptionalText(Lookup(m, "limit"))))
      && (r.Ok? ==> r.value.q == Lookup(m, "q").value.s
                    && r.value.page == NumberOrDefault(TextOf(Lookup(m, "page")), 1)
                    && r.value.limit == NumberOrDefault(TextOf(Lookup(m, "limit")), 20))
  {
    if IsText(Lookup(m, "q")) {
      var s := Lookup(m, "q").value.s;
      AllPassWithoutTrim(s, SearchChecks);
      assert Passes(SearchChecks[0], s) == (|s| >= 1);
      assert Passes(SearchChecks[1], s) == (|s| <= 200);
    }
    if IsText(Lookup(m, "page")) { assert Transformed(Lookup(m, "page").value.s, []) == Lookup(m, "page").value.s; }
    if IsText(Lookup(m, "limit")) { assert Transformed(Lookup(m, "limit").value.s, []) == Lookup(m, "limit").value.s; }
  }

  /** A page that is not a number still passes the search schema. */
  lemma SearchKeepsNaN()
    ensures SearchSchema(JObj(map["q" := JStr("milk"), "page" := JStr("abc")])).Ok?
    ensures SearchSchema(JObj(map["q" := JStr("milk"), "page" := JStr("abc")])).value.page == None
  {
    var m := map["q" := JStr("milk"), "page" := JStr("abc")];
    assert Lookup(m, "q") == Some(JStr("milk"));
    assert Lookup(m, "page") == Some(JStr("abc"));
    assert Lookup(m, "limit") == None;
    assert ParseIntJs("abc") == None by {
      assert LeadingSpace("abc") == 0;
      assert DigitPrefix("abc") == 0;
    }
    SearchRule(m);
  }

  predicate IsText(v: Option<Json>) { v.Some? && v.value.JStr? }

  // ---------------------------------------------------------------------
  // dateRangeSchema
  // ---------------------------------------------------------------------

  datatype DateRange = DateRange(startDate: Option<string>, endDate: Option<string>)

  const RangeMessage := "Start date must be before or equal to end date"

  /** The issues of one optional datetime field: a type issue stops the object
      before its refinement, a format issue does not. */
  function DateFieldIssues(v: Option<Json>, message: string, path: seq<string>): seq<Issue>
  {
    if v.None? then []
    else if !v.value.JStr? then [TypeIssue(path, "string", v)]
    else RunChecks(v.value.s, [Regex(IsoDatetime, message)], path)
  }

  /** `new Date(start) <= new Date(end)` when both are non-empty; `instant` is
      the date parser, None standing for an invalid date (NaN compares false). */
  predicate RangeHolds(start: Option<string>, end: Option<string>, instant: string -> Option<int>)
  {
    !(start.Some? && start.value != "" && end.Some? && end.value != "")
    || (instant(start.value).Some? && instant(end.value).Some? && instant(start.value).value <= instant(end.value).value)
  }

  function DateRangeSchema(query: Json, instant: string -> Option<int>): Result<DateRange, seq<Issue>>
  {
    match ObjectFields(query)
    case Err(e) => Err(e)
    case Ok(m) =>
      var s, e := Lookup(m, "startDate"), Lookup(m, "endDate");
      var fieldIssues := DateFieldIssues(s, "Invalid start date format. Use ISO 8601.", ["startDate"])
                         + DateFieldIssues(e, "Invalid end date format. Use ISO 8601.", ["endDate"]);
      if !OptionalText(s) || !OptionalText(e) then Err(fieldIssues)
      else
        var issues := fieldIssues + (if RangeHolds(TextOf(s), TextOf(e), instant) then [] else [Issue([], Custom, RangeMessage)]);
        if issues == [] then Ok(DateRange(TextOf(s), TextOf(e))) else Err(issues)
  }

  /** With a date parser that reads every well-formed datetime, a range is
      refused exactly when a field is malformed or both are given and the start
      comes after the end. */
  lemma DateRangeRule(m: map<string, Json>, instant: string -> Option<int>)
    requires forall x :: LooksLikeIsoDatetime(x) ==> instant(x).Some?
    ensures var s, e := Lookup(m, "startDate"), Lookup(m, "endDate");
      DateRangeSchema(JObj(m), instant).Ok? <==>
        && OptionalText(s) && OptionalText(e)
        && (s.Some? ==> LooksLikeIsoDatetime(s.value.s))
        && (e.Some? ==> LooksLikeIsoDatetime(e.value.s))
        && !(s.Some? && e.Some? && instant(s.value.s).value > instant(e.value.s).value)
  {
    var s, e := Lookup(m, "startDate"), Lookup(m, "endDate");
    if IsText(s) {
      SingleCheck(s.value.s, Regex(IsoDatetime, "Invalid start date format. Use ISO 8601."));
    }
    if IsText(e) {
      SingleCheck(e.value.s, Regex(IsoDatetime, "Invalid end date format. Use ISO 8601."));
    }
  }
}
