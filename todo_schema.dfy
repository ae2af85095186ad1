/** The todo enumerations and the three request schemas of the todo routes
    (backend/src/schemas/todo.schema.ts). */
module TodoSchema {
  import opened Base
  import opened Zod

  // ---------------------------------------------------------------------
  // Enumerations
  // ---------------------------------------------------------------------

  /** Declared in this order by the database type, which is also its sort order. */
  datatype Priority = Low | Medium | High | Critical

  datatype Status = Pending | InProgress | Completed | Archived

  const PriorityNames: seq<string> := ["low", "medium", "high", "critical"]
  const StatusNames: seq<string> := ["pending", "in_progress", "completed", "archived"]

  /** Position in the declaration of the database enum type. */
  function PriorityRank(p: Priority): (k: nat)
    ensures k < |PriorityNames|
  {
    match p
    case Low => 0
    case Medium => 1
    case High => 2
    case Critical => 3
  }

  function StatusRank(s: Status): (k: nat)
    ensures k < |StatusNames|
  {
    match s
    case Pending => 0
    case InProgress => 1
    case Completed => 2
    case Archived => 3
  }

  function PriorityAt(k: nat): Priority
  {
    if k == 0 then Low else if k == 1 then Medium else if k == 2 then High else Critical
  }

  function StatusAt(k: nat): Status
  {
    if k == 0 then Pending else if k == 1 then InProgress else if k == 2 then Completed else Archived
  }

  function PriorityName(p: Priority): string
  {
    PriorityNames[PriorityRank(p)]
  }

  function StatusName(s: Status): string
  {
    StatusNames[StatusRank(s)]
  }

  /** The enum names are a bijection with the enum values, in declaration order. */
  lemma EnumNamesRoundTrip(p: Priority, s: Status, k: nat)
    ensures PriorityAt(PriorityRank(p)) == p && StatusAt(StatusRank(s)) == s
    ensures k < 4 ==> PriorityRank(PriorityAt(k)) == k && StatusRank(StatusAt(k)) == k
    ensures forall q: Priority :: PriorityName(q) == PriorityName(p) ==> q == p
    ensures forall t: Status :: StatusName(t) == StatusName(s) ==> t == s
  {
  }

  /** The database orders priorities low < medium < high < critical. */
  lemma PriorityOrder()
    ensures PriorityRank(Low) < PriorityRank(Medium) < PriorityRank(High) < PriorityRank(Critical)
    ensures StatusRank(Pending) < StatusRank(InProgress) < StatusRank(Completed) < StatusRank(Archived)
  {
  }


  /** The columns a listing may be sorted by; only these names reach the ORDER BY. */
  datatype SortColumn = ByCreatedAt | ByUpdatedAt | ByDueDate | ByPriority | ByStatus | ByPosition | ByTitle

  const SortColumnNames: seq<string> := ["created_at", "updated_at", "due_date", "priority", "status", "position", "title"]

  function SortColumnAt(k: nat): SortColumn
  {
    if k == 0 then ByCreatedAt else if k == 1 then ByUpdatedAt else if k == 2 then ByDueDate
    else if k == 3 then ByPriority else if k == 4 then ByStatus else if k == 5 then ByPosition else ByTitle
  }

  function SortColumnName(c: SortColumn): string
  {
    match c
    case ByCreatedAt => "created_at"
    case ByUpdatedAt => "updated_at"
    case ByDueDate => "due_date"
    case ByPriority => "priority"
    case ByStatus => "status"
    case ByPosition => "position"
    case ByTitle => "title"
  }

  /** The k-th sort column is named by the k-th name. */
  lemma SortColumnNamed(k: nat)
    requires k < |SortColumnNames|
    ensures SortColumnName(SortColumnAt(k)) == SortColumnNames[k]
  {
  }

  datatype SortOrder = Asc | Desc

  // ---------------------------------------------------------------------
  // Field parsers
  // ---------------------------------------------------------------------

  const TitleRequired := "Title is required"
  const TitleTooLong := "Title must not exceed 500 characters"
  const DescriptionTooLong := "Description must not exceed 5000 characters"
  const TagTooLong := "String must contain at most 50 character(s)"

  /** `z.string().min(1).max(500).trim()`: the bounds test the raw title, the value is trimmed. */
  function ParseTitle(v: Option<Json>): (r: Result<string, seq<Issue>>)
    ensures r.Ok? <==> TitleOk(v)
    ensures r.Ok? ==> r.value == Trim(v.value.s)
  {
    if IsStr(v) then
      BoundsThenTrim(v.value.s, 1, 500, TitleRequired, TitleTooLong);
      ParseString(v, [MinLength(1, TitleRequired), MaxLength(500, TitleTooLong), TrimSpace], ["title"])
    else ParseString(v, [MinLength(1, TitleRequired), MaxLength(500, TitleTooLong), TrimSpace], ["title"])
  }

  /** A nullish string field with one non-trimming check. */
  function ParseNullishChecked(v: Option<Json>, c: Check, path: seq<string>): (r: Result<Nullish<string>, seq<Issue>>)
    requires !c.TrimSpace?
    ensures r.Ok? <==> v.None? || v == Some(JNull) || (IsStr(v) && Passes(c, v.value.s))
    ensures v.None? ==> r == Ok(Undefined)
    ensures v == Some(JNull) ==> r == Ok(Null)
    ensures r.Ok? && IsStr(v) ==> r.value == Given(v.value.s)
    ensures r.Ok? ==> r.value == SentNullish(v)
  {
    if IsStr(v) then
      SingleCheck(v.value.s, c);
      ParseNullishString(v, [c], path)
    else ParseNullishString(v, [c], path)
  }

  /** `z.string().max(5000).optional().nullable()`. */
  function ParseDescription(v: Option<Json>): (r: Result<Nullish<string>, seq<Issue>>)
    ensures r.Ok? <==> DescriptionOk(v)
    ensures r.Ok? ==> r.value == SentNullish(v)
  {
    ParseNullishChecked(v, MaxLength(5000, DescriptionTooLong), ["description"])
  }

  /** `z.string().datetime({message}).optional().nullable()`. */
  function ParseNullishDate(v: Option<Json>, message: string, path: seq<string>): (r: Result<Nullish<string>, seq<Issue>>)
    ensures r.Ok? <==> DateOk(v)
    ensures r.Ok? ==> r.value == SentNullish(v)
  {
    ParseNullishChecked(v, Regex(IsoDatetime, message), path)
  }

  /** The texts of a list of JSON strings, in order. */
  function Texts(items: seq<Json>): (r: seq<string>)
    ensures |r| == |items|
    ensures forall k :: 0 <= k < |items| && items[k].JStr? ==> r[k] == items[k].s
  {
    if items == [] then [] else [if items[0].JStr? then items[0].s else []] + Texts(items[1..])
  }

  /** The tag list a field carries as sent: left out, or the texts of its array. */
  function SentTags(v: Option<Json>): Option<seq<string>>
  {
    if v.Some? && v.value.JArr? then Some(Texts(v.value.items)) else None
  }

  /** `z.array(z.string().max(50)).max(10).optional()`. */
  function ParseTags(v: Option<Json>): (r: Result<Option<seq<string>>, seq<Issue>>)
    ensures r.Ok? <==> TagsOk(v)
    ensures v.None? ==> r == Ok(None)
    ensures r.Ok? && v.Some? ==> r.value.Some? && |r.value.value| == |v.value.items|
                                 && forall k :: 0 <= k < |v.value.items| ==> r.value.value[k] == v.value.items[k].s
    ensures r.Ok? ==> r.value == SentTags(v)
  {
    if v.None? then Ok(None)
    else
      var checks := [MaxLength(50, TagTooLong)];
      if v.value.JArr? then
        forall k | 0 <= k < |v.value.items| && v.value.items[k].JStr?
          ensures ElementOk(v.value.items[k], checks) <==> |v.value.items[k].s| <= 50
          ensures Transformed(v.value.items[k].s, checks) == v.value.items[k].s
        {
          SingleCheck(v.value.items[k].s, checks[0]);
        }
        match ParseStringArray(v, checks, 10, "Maximum 10 tags allowed", ["tags"])
        case Ok(tags) =>
          assert tags == Texts(v.value.items);
          Ok(Some(tags))
        case Err(e) => Err(e)
      else
        match ParseStringArray(v, checks, 10, "Maximum 10 tags allowed", ["tags"])
        case Ok(tags) => Ok(Some(tags))
        case Err(e) => Err(e)
  }

  /** `z.enum(todoStatusValues)`. */
  function ParseStatus(v: Option<Json>, path: seq<string>): (r: Result<Status, seq<Issue>>)
    ensures r.Ok? <==> IsStr(v) && v.value.s in StatusNames
    ensures r.Ok? ==> StatusName(r.value) == v.value.s
  {
    match ParseEnum(v, StatusNames, path)
    case Ok(k) => Ok(StatusAt(k))
    case Err(e) => Err(e)
  }

  /** `z.enum(todoPriorityValues)`. */
  function ParsePriority(v: Option<Json>, path: seq<string>): (r: Result<Priority, seq<Issue>>)
    ensures r.Ok? <==> IsStr(v) && v.value.s in PriorityNames
    ensures r.Ok? ==> PriorityName(r.value) == v.value.s
  {
    match ParseEnum(v, PriorityNames, path)
    case Ok(k) => Ok(PriorityAt(k))
    case Err(e) => Err(e)
  }

  /** `.optional()` around a parser: an absent field stays absent. */
  function Optional<T>(v: Option<Json>, parsed: Result<T, seq<Issue>>): (r: Result<Option<T>, seq<Issue>>)
    ensures v.None? ==> r == Ok(None)
    ensures v.Some? ==> (r.Ok? <==> parsed.Ok?) && (r.Ok? ==> r.value == Some(parsed.value))
  {
    if v.None? then Ok(None)
    else
      match parsed
      case Ok(x) => Ok(Some(x))
      case Err(e) => Err(e)
  }

  /** `.default(d)` around a parser: an absent field takes the default. */
  function Default<T>(v: Option<Json>, parsed: Result<T, seq<Issue>>, d: T): (r: Result<T, seq<Issue>>)
    ensures v.None? ==> r == Ok(d)
    ensures v.Some? ==> r == parsed
  {
    if v.None? then Ok(d) else parsed
  }

  // ---------------------------------------------------------------------
  // createTodoSchema
  // ---------------------------------------------------------------------

  datatype CreateTodoInput = CreateTodoInput(
    title: string,
    description: Nullish<string>,
    status: Status,
    priority: Priority,
    dueDate: Nullish<string>,
    tags: Option<seq<string>>,
    starred: bool,
    reminderAt: Nullish<string>)

  /** Every field is parsed and the issues of all fields are reported together. */
  function CreateTodoSchema(body: Json): Result<CreateTodoInput, seq<Issue>>
  {
    match ObjectFields(body)
    case Err(e) => Err(e)
    case Ok(m) =>
      var title := ParseTitle(Lookup(m, "title"));
      var description := ParseDescription(Lookup(m, "description"));
      var status := Default(Lookup(m, "status"), ParseStatus(Lookup(m, "status"), ["status"]), Pending);
      var priority := Default(Lookup(m, "priority"), ParsePriority(Lookup(m, "priority"), ["priority"]), Medium);
      var dueDate := ParseNullishDate(Lookup(m, "dueDate"), "Due date must be a valid ISO datetime", ["dueDate"]);
      var tags := ParseTags(Lookup(m, "tags"));
      var starred := Default(Lookup(m, "starred"), ParseBool(Lookup(m, "starred"), ["starred"]), false);
      var reminderAt := ParseNullishDate(Lookup(m, "reminderAt"), "Reminder must be a valid ISO datetime", ["reminderAt"]);
      if title.Ok? && description.Ok? && status.Ok? && priority.Ok? && dueDate.Ok?
         && tags.Ok? && starred.Ok? && reminderAt.Ok?
      then
        Ok(CreateTodoInput(title.value, description.value, status.value, priority.value,
                           dueDate.value, tags.value, starred.value, reminderAt.value))
      else
        Err(IssuesOf(title) + IssuesOf(description) + IssuesOf(status) + IssuesOf(priority)
            + IssuesOf(dueDate) + IssuesOf(tags) + IssuesOf(starred) + IssuesOf(reminderAt))
  }

  // ---------------------------------------------------------------------
  // What each field admits, stated without the parsers
  // ---------------------------------------------------------------------

  predicate NullishStringOk(v: Option<Json>) { v.None? || v == Some(JNull) || IsStr(v) }

  predicate DescriptionOk(v: Option<Json>)
  {
    NullishStringOk(v) && (IsStr(v) ==> |v.value.s| <= 5000)
  }

  predicate DateOk(v: Option<Json>)
  {
    NullishStringOk(v) && (IsStr(v) ==> LooksLikeIsoDatetime(v.value.s))
  }

  predicate TitleOk(v: Option<Json>) { IsStr(v) && 1 <= |v.value.s| <= 500 }

  predicate PositionOk(v: Option<Json>)
  {
    v.None? || (v.value.JNum? && IsInteger(v.value.n) && v.value.n > 0.0)
  }

  predicate TagsOk(v: Option<Json>)
  {
    v.None? ||
    (v.value.JArr? && |v.value.items| <= 10
     && forall k :: 0 <= k < |v.value.items| ==> v.value.items[k].JStr? && |v.value.items[k].s| <= 50)
  }

  predicate OptionalIn(v: Option<Json>, names: seq<string>)
  {
    v.None? || (IsStr(v) && v.value.s in names)
  }

  predicate OptionalBool(v: Option<Json>)
  {
    v.None? || v.value.JBool?
  }

  /** What a create body must look like, field by field. */
  predicate CreateBodyOk(body: Json)
  {
    body.JObj? &&
    var m := body.fields;
    && TitleOk(Lookup(m, "title"))
    && DescriptionOk(Lookup(m, "description"))
    && OptionalIn(Lookup(m, "status"), StatusNames)
    && OptionalIn(Lookup(m, "priority"), PriorityNames)
    && DateOk(Lookup(m, "dueDate"))
    && TagsOk(Lookup(m, "tags"))
    && OptionalBool(Lookup(m, "starred"))
    && DateOk(Lookup(m, "reminderAt"))
  }

  /** The create schema accepts exactly the bodies `CreateBodyOk` describes. */
  lemma CreateTodoSchemaAccepts(body: Json)
    ensures CreateTodoSchema(body).Ok? <==> CreateBodyOk(body)
  {
    if body.JObj? {
      var m := body.fields;
      assert ObjectFields(body) == Ok(m);
      var title := ParseTitle(Lookup(m, "title"));
      var status := Default(Lookup(m, "status"), ParseStatus(Lookup(m, "status"), ["status"]), Pending);
      var priority := Default(Lookup(m, "priority"), ParsePriority(Lookup(m, "priority"), ["priority"]), Medium);
      var starred := Default(Lookup(m, "starred"), ParseBool(Lookup(m, "starred"), ["starred"]), false);
      assert status.Ok? <==> OptionalIn(Lookup(m, "status"), StatusNames);
      assert priority.Ok? <==> OptionalIn(Lookup(m, "priority"), PriorityNames);
      assert starred.Ok? <==> OptionalBool(Lookup(m, "starred"));
    }
  }

  /** An accepted create body has its title trimmed and the defaults pending,
      medium and not starred filled in; description, dueDate and reminderAt are
      kept as sent (left out, null or the text), and so are the tags. */
  lemma CreateTodoSchemaValue(m: map<string, Json>)
    requires CreateTodoSchema(JObj(m)).Ok?
    ensures var r := CreateTodoSchema(JObj(m)).value;
      && r.title == Trim(Lookup(m, "title").value.s)
      && (Lookup(m, "status").None? ==> r.status == Pending)
      && (Lookup(m, "status").Some? ==> StatusName(r.status) == Lookup(m, "status").value.s)
      && (Lookup(m, "priority").None? ==> r.priority == Medium)
      && (Lookup(m, "priority").Some? ==> PriorityName(r.priority) == Lookup(m, "priority").value.s)
      && r.starred == (Lookup(m, "starred").Some? && Lookup(m, "starred").value.b)
      && r.description == SentNullish(Lookup(m, "description"))
      && r.dueDate == SentNullish(Lookup(m, "dueDate"))
      && r.reminderAt == SentNullish(Lookup(m, "reminderAt"))
      && r.tags == SentTags(Lookup(m, "tags"))
  {
    CreateFieldsParse(m);
  }

  /** An accepted create body holds what each field's parser made of it. */
  lemma CreateFieldsParse(m: map<string, Json>)
    requires CreateTodoSchema(JObj(m)).Ok?
    ensures var r := CreateTodoSchema(JObj(m)).value;
      var status := Default(Lookup(m, "status"), ParseStatus(Lookup(m, "status"), ["status"]), Pending);
      var priority := Default(Lookup(m, "priority"), ParsePriority(Lookup(m, "priority"), ["priority"]), Medium);
      var starred := Default(Lookup(m, "starred"), ParseBool(Lookup(m, "starred"), ["starred"]), false);
      var dueDate := ParseNullishDate(Lookup(m, "dueDate"), "Due date must be a valid ISO datetime", ["dueDate"]);
      var reminderAt := ParseNullishDate(Lookup(m, "reminderAt"), "Reminder must be a valid ISO datetime", ["reminderAt"]);
      && ParseTitle(Lookup(m, "title")).Ok? && r.title == ParseTitle(Lookup(m, "title")).value
      && ParseDescription(Lookup(m, "description")).Ok? && r.description == ParseDescription(Lookup(m, "description")).value
      && status.Ok? && r.status == status.value
      && priority.Ok? && r.priority == priority.value
      && dueDate.Ok? && r.dueDate == dueDate.value
      && ParseTags(Lookup(m, "tags")).Ok? && r.tags == ParseTags(Lookup(m, "tags")).value
      && starred.Ok? && r.starred == starred.value
      && reminderAt.Ok? && r.reminderAt == reminderAt.value
  {
    assert ObjectFields(JObj(m)) == Ok(m);
  }

  /** The length checks run before the trim, so a title of blanks passes the
      schema and comes out empty. */
  lemma BlankTitleSurvivesSchema(m: map<string, Json>, blanks: string)
    requires 1 <= |blanks| <= 500 && AllWhitespace(blanks)
    requires Lookup(m, "title") == Some(JStr(blanks))
    requires CreateBodyOk(JObj(m))
    ensures CreateTodoSchema(JObj(m)).Ok? && CreateTodoSchema(JObj(m)).value.title == []
  {
    CreateTodoSchemaAccepts(JObj(m));
    CreateTodoSchemaValue(m);
  }

  // ---------------------------------------------------------------------
  // updateTodoSchema
  // ---------------------------------------------------------------------

  datatype UpdateTodoInput = UpdateTodoInput(
    title: Option<string>,
    description: Nullish<string>,
    status: Option<Status>,
    priority: Option<Priority>,
    dueDate: Nullish<string>,
    tags: Option<seq<string>>,
    starred: Option<bool>,
    reminderAt: Nullish<string>,
    position: Option<int>)

  /** Every field optional; description, dueDate and reminderAt also nullable. */
  function UpdateTodoSchema(body: Json): Result<UpdateTodoInput, seq<Issue>>
  {
    match ObjectFields(body)
    case Err(e) => Err(e)
    case Ok(m) =>
      var title := Optional(Lookup(m, "title"), ParseTitle(Lookup(m, "title")));
      var description := ParseDescription(Lookup(m, "description"));
      var status := Optional(Lookup(m, "status"), ParseStatus(Lookup(m, "status"), ["status"]));
      var priority := Optional(Lookup(m, "priority"), ParsePriority(Lookup(m, "priority"), ["priority"]));
      var dueDate := ParseNullishDate(Lookup(m, "dueDate"), "Due date must be a valid ISO datetime", ["dueDate"]);
      var tags := ParseTags(Lookup(m, "tags"));
      var starred := Optional(Lookup(m, "starred"), ParseBool(Lookup(m, "starred"), ["starred"]));
      var reminderAt := ParseNullishDate(Lookup(m, "reminderAt"), "Reminder must be a valid ISO datetime", ["reminderAt"]);
      var position := Optional(Lookup(m, "position"), ParsePositiveInt(Lookup(m, "position"), ["position"]));
      if title.Ok? && description.Ok? && status.Ok? && priority.Ok? && dueDate.Ok?
         && tags.Ok? && starred.Ok? && reminderAt.Ok? && position.Ok?
      then
        Ok(UpdateTodoInput(title.value, description.value, status.value, priority.value,
                           dueDate.value, tags.value, starred.value, reminderAt.value, position.value))
      else
        Err(IssuesOf(title) + IssuesOf(description) + IssuesOf(status) + IssuesOf(priority)
            + IssuesOf(dueDate) + IssuesOf(tags) + IssuesOf(starred) + IssuesOf(reminderAt) + IssuesOf(position))
  }

  predicate UpdateBodyOk(body: Json)
  {
    body.JObj? &&
    var m := body.fields;
    && (Lookup(m, "title").None? || TitleOk(Lookup(m, "title")))
    && DescriptionOk(Lookup(m, "description"))
    && OptionalIn(Lookup(m, "status"), StatusNames)
    && OptionalIn(Lookup(m, "priority"), PriorityNames)
    && DateOk(Lookup(m, "dueDate"))
    && TagsOk(Lookup(m, "tags"))
    && OptionalBool(Lookup(m, "starred"))
    && DateOk(Lookup(m, "reminderAt"))
    && PositionOk(Lookup(m, "position"))
  }

  /** The update schema succeeds exactly when each of its nine field parsers does. */
  lemma UpdateFieldsParse(m: map<string, Json>)
    ensures UpdateTodoSchema(JObj(m)).Ok? <==>
      && Optional(Lookup(m, "title"), ParseTitle(Lookup(m, "title"))).Ok?
      && ParseDescription(Lookup(m, "description")).Ok?
      && Optional(Lookup(m, "status"), ParseStatus(Lookup(m, "status"), ["status"])).Ok?
      && Optional(Lookup(m, "priority"), ParsePriority(Lookup(m, "priority"), ["priority"])).Ok?
      && ParseNullishDate(Lookup(m, "dueDate"), "Due date must be a valid ISO datetime", ["dueDate"]).Ok?
      && ParseTags(Lookup(m, "tags")).Ok?
      && Optional(Lookup(m, "starred"), ParseBool(Lookup(m, "starred"), ["starred"])).Ok?
      && ParseNullishDate(Lookup(m, "reminderAt"), "Reminder must be a valid ISO datetime", ["reminderAt"]).Ok?
      && Optional(Lookup(m, "position"), ParsePositiveInt(Lookup(m, "position"), ["position"])).Ok?
  {
    assert ObjectFields(JObj(m)) == Ok(m);
  }

  /** The update schema accepts exactly the bodies `UpdateBodyOk` describes. */
  lemma UpdateTodoSchemaAccepts(body: Json)
    ensures UpdateTodoSchema(body).Ok? <==> UpdateBodyOk(body)
  {
    if body.JObj? {
      var m := body.fields;
      UpdateFieldsParse(m);
      var title := Optional(Lookup(m, "title"), ParseTitle(Lookup(m, "title")));
      var status := Optional(Lookup(m, "status"), ParseStatus(Lookup(m, "status"), ["status"]));
      var priority := Optional(Lookup(m, "priority"), ParsePriority(Lookup(m, "priority"), ["priority"]));
      var starred := Optional(Lookup(m, "starred"), ParseBool(Lookup(m, "starred"), ["starred"]));
      var position := Optional(Lookup(m, "position"), ParsePositiveInt(Lookup(m, "position"), ["position"]));
      assert title.Ok? <==> Lookup(m, "title").None? || TitleOk(Lookup(m, "title"));
      assert status.Ok? <==> OptionalIn(Lookup(m, "status"), StatusNames);
      assert priority.Ok? <==> OptionalIn(Lookup(m, "priority"), PriorityNames);
      assert starred.Ok? <==> OptionalBool(Lookup(m, "starred"));
      assert position.Ok? <==> PositionOk(Lookup(m, "position"));
    }
  }

  /** An absent field stays absent (so the update leaves that column alone), a
      null description/dueDate/reminderAt is kept as an explicit null, a given
      title is trimmed and every other given value is kept as sent. */
  lemma UpdateTodoSchemaValue(m: map<string, Json>)
    requires UpdateTodoSchema(JObj(m)).Ok?
    ensures var r := UpdateTodoSchema(JObj(m)).value;
      && (Lookup(m, "title").None? <==> r.title.None?)
      && (r.title.Some? ==> r.title.value == Trim(Lookup(m, "title").value.s))
      && (Lookup(m, "status").None? <==> r.status.None?)
      && (r.status.Some? ==> StatusName(r.status.value) == Lookup(m, "status").value.s)
      && (Lookup(m, "priority").None? <==> r.priority.None?)
      && (r.priority.Some? ==> PriorityName(r.priority.value) == Lookup(m, "priority").value.s)
      && (Lookup(m, "starred").None? <==> r.starred.None?)
      && (r.starred.Some? ==> r.starred.value == Lookup(m, "starred").value.b)
      && (Lookup(m, "position").None? <==> r.position.None?)
      && (r.position.Some? ==> r.position.value > 0 && r.position.value as real == Lookup(m, "position").value.n)
      && (Lookup(m, "tags").None? <==> r.tags.None?)
      && r.tags == SentTags(Lookup(m, "tags"))
      && (Lookup(m, "description").None? <==> r.description == Undefined)
      && (Lookup(m, "description") == Some(JNull) <==> r.description == Null)
      && r.description == SentNullish(Lookup(m, "description"))
      && (Lookup(m, "dueDate").None? <==> r.dueDate == Undefined)
      && (Lookup(m, "dueDate") == Some(JNull) <==> r.dueDate == Null)
      && r.dueDate == SentNullish(Lookup(m, "dueDate"))
      && (Lookup(m, "reminderAt").None? <==> r.reminderAt == Undefined)
      && (Lookup(m, "reminderAt") == Some(JNull) <==> r.reminderAt == Null)
      && r.reminderAt == SentNullish(Lookup(m, "reminderAt"))
  {
    UpdateOptionalValues(m);
    UpdateNullishValues(m);
  }

  /** Title, status, priority, starred, position and tags of an accepted update
      are absent exactly when left out, and otherwise what was sent. */
  lemma UpdateOptionalValues(m: map<string, Json>)
    requires UpdateTodoSchema(JObj(m)).Ok?
    ensures var r := UpdateTodoSchema(JObj(m)).value;
      && (Lookup(m, "title").None? <==> r.title.None?)
      && (r.title.Some? ==> r.title.value == Trim(Lookup(m, "title").value.s))
      && (Lookup(m, "status").None? <==> r.status.None?)
      && (r.status.Some? ==> StatusName(r.status.value) == Lookup(m, "status").value.s)
      && (Lookup(m, "priority").None? <==> r.priority.None?)
      && (r.priority.Some? ==> PriorityName(r.priority.value) == Lookup(m, "priority").value.s)
      && (Lookup(m, "starred").None? <==> r.starred.None?)
      && (r.starred.Some? ==> r.starred.value == Lookup(m, "starred").value.b)
      && (Lookup(m, "position").None? <==> r.position.None?)
      && (r.position.Some? ==> r.position.value > 0 && r.position.value as real == Lookup(m, "position").value.n)
      && (Lookup(m, "tags").None? <==> r.tags.None?)
      && r.tags == SentTags(Lookup(m, "tags"))
  {
    UpdateFieldValues(m);
  }

  /** Description, dueDate and reminderAt of an accepted update are left out,
      null or the text, as sent. */
  lemma UpdateNullishValues(m: map<string, Json>)
    requires UpdateTodoSchema(JObj(m)).Ok?
    ensures var r := UpdateTodoSchema(JObj(m)).value;
      && (Lookup(m, "description").None? <==> r.description == Undefined)
      && (Lookup(m, "description") == Some(JNull) <==> r.description == Null)
      && r.description == SentNullish(Lookup(m, "description"))
      && (Lookup(m, "dueDate").None? <==> r.dueDate == Undefined)
      && (Lookup(m, "dueDate") == Some(JNull) <==> r.dueDate == Null)
      && r.dueDate == SentNullish(Lookup(m, "dueDate"))
      && (Lookup(m, "reminderAt").None? <==> r.reminderAt == Undefined)
      && (Lookup(m, "reminderAt") == Some(JNull) <==> r.reminderAt == Null)
      && r.reminderAt == SentNullish(Lookup(m, "reminderAt"))
  {
    UpdateFieldValues(m);
  }

  /** An accepted update body holds what each field's parser made of it. */
  lemma UpdateFieldValues(m: map<string, Json>)
    requires UpdateTodoSchema(JObj(m)).Ok?
    ensures var r := UpdateTodoSchema(JObj(m)).value;
      var title := Optional(Lookup(m, "title"), ParseTitle(Lookup(m, "title")));
      var status := Optional(Lookup(m, "status"), ParseStatus(Lookup(m, "status"), ["status"]));
      var priority := Optional(Lookup(m, "priority"), ParsePriority(Lookup(m, "priority"), ["priority"]));
      var dueDate := ParseNullishDate(Lookup(m, "dueDate"), "Due date must be a valid ISO datetime", ["dueDate"]);
      var starred := Optional(Lookup(m, "starred"), ParseBool(Lookup(m, "starred"), ["starred"]));
      var reminderAt := ParseNullishDate(Lookup(m, "reminderAt"), "Reminder must be a valid ISO datetime", ["reminderAt"]);
      var position := Optional(Lookup(m, "position"), ParsePositiveInt(Lookup(m, "position"), ["position"]));
      && title.Ok? && r.title == title.value
      && ParseDescription(Lookup(m, "description")).Ok? && r.description == ParseDescription(Lookup(m, "description")).value
      && status.Ok? && r.status == status.value
      && priority.Ok? && r.priority == priority.value
      && dueDate.Ok? && r.dueDate == dueDate.value
      && ParseTags(Lookup(m, "tags")).Ok? && r.tags == ParseTags(Lookup(m, "tags")).value
      && starred.Ok? && r.starred == starred.value
      && reminderAt.Ok? && r.reminderAt == reminderAt.value
      && position.Ok? && r.position == position.value
  {
    assert ObjectFields(JObj(m)) == Ok(m);
  }

  /** An explicit null is refused for every field that is not nullable. */
  lemma UpdateRefusesNull(m: map<string, Json>, key: string)
    requires key in {"title", "status", "priority", "tags", "starred", "position"}
    requires Lookup(m, key) == Some(JNull)
    ensures UpdateTodoSchema(JObj(m)).Err?
  {
    UpdateTodoSchemaAccepts(JObj(m));
  }

  // ---------------------------------------------------------------------
  // getTodosQuerySchema
  // ---------------------------------------------------------------------

  datatype TodoQuery = TodoQuery(
    status: Option<Status>,
    priority: Option<Priority>,
    starred: Option<bool>,
    search: Option<string>,
    dueDateFrom: Option<string>,
    dueDateTo: Option<string>,
    tags: Option<seq<string>>,
    page: nat,
    limit: nat,
    sortBy: SortColumn,
    sortOrder: SortOrder)

  /** Every piece, trimmed. */
  function TrimAll(parts: seq<string>): (r: seq<string>)
    ensures |r| == |parts|
    ensures forall k :: 0 <= k < |parts| ==> r[k] == Trim(parts[k])
  {
    if parts == [] then [] else [Trim(parts[0])] + TrimAll(parts[1..])
  }

  /** `filter(Boolean)` on strings: the non-empty ones, in order. */
  function NonEmpty(parts: seq<string>): (r: seq<string>)
    ensures |r| <= |parts|
    ensures forall k :: 0 <= k < |r| ==> r[k] != [] && r[k] in parts
    ensures forall k :: 0 <= k < |parts| && parts[k] != [] ==> parts[k] in r
  {
    if parts == [] then []
    else if parts[0] == [] then NonEmpty(parts[1..])
    else [parts[0]] + NonEmpty(parts[1..])
  }

  /** The `tags` query text: split on commas, each piece trimmed, empty pieces dropped. */
  function TagList(s: string): seq<string>
  {
    NonEmpty(TrimAll(Split(s, ',')))
  }

  /** Trimming a comma-free piece gives a comma-free, already trimmed piece. */
  lemma TrimmedPiece(p: string)
    requires ',' !in p
    ensures ',' !in Trim(p) && Trim(Trim(p)) == Trim(p)
  {
    TrimIdempotent(p);
    var a, b :| 0 <= a <= b <= |p| && Trim(p) == p[a..b];
    assert forall i :: 0 <= i < |Trim(p)| ==> Trim(p)[i] == p[a + i];
  }

  /** Every tag of the list is non-empty, trimmed and free of commas, and every
      non-blank comma-separated piece of the text is in the list, trimmed. */
  lemma TagListShape(s: string)
    ensures forall k :: 0 <= k < |TagList(s)| ==>
      TagList(s)[k] != [] && Trim(TagList(s)[k]) == TagList(s)[k] && ',' !in TagList(s)[k]
    ensures forall k :: 0 <= k < |Split(s, ',')| && !AllWhitespace(Split(s, ',')[k]) ==> Trim(Split(s, ',')[k]) in TagList(s)
  {
    forall k | 0 <= k < |TagList(s)|
      ensures Trim(TagList(s)[k]) == TagList(s)[k] && ',' !in TagList(s)[k]
    {
      TagClean(s, k);
    }
    TagPiecesKept(s);
  }

  /** The `k`-th tag is the trim of some comma-free piece. */
  lemma TagClean(s: string, k: nat)
    requires k < |TagList(s)|
    ensures Trim(TagList(s)[k]) == TagList(s)[k] && ',' !in TagList(s)[k]
  {
    var parts := Split(s, ',');
    var trimmed := TrimAll(parts);
    var j :| 0 <= j < |trimmed| && trimmed[j] == TagList(s)[k];
    assert ',' !in parts[j] && trimmed[j] == Trim(parts[j]);
    TrimmedPiece(parts[j]);
  }

  /** A piece that is not blank survives, trimmed. */
  lemma TagPiecesKept(s: string)
    ensures forall k :: 0 <= k < |Split(s, ',')| && !AllWhitespace(Split(s, ',')[k]) ==> Trim(Split(s, ',')[k]) in TagList(s)
  {
    var parts := Split(s, ',');
    var trimmed := TrimAll(parts);
    assert forall k :: 0 <= k < |parts| && !AllWhitespace(parts[k]) ==> trimmed[k] != [] && trimmed[k] == Trim(parts[k]);
  }

  /** Joining well-formed tags with commas and decoding the text gives the tags back. */
  lemma TagListRoundTrip(tags: seq<string>)
    requires |tags| >= 1
    requires forall k :: 0 <= k < |tags| ==> tags[k] != [] && Trim(tags[k]) == tags[k] && ',' !in tags[k]
    ensures TagList(Join(tags, ",")) == tags
  {
    SplitJoin(tags, ',');
    assert TrimAll(tags) == tags;
    NonEmptyKeepsFull(tags);
  }

  lemma {:induction false} NonEmptyKeepsFull(parts: seq<string>)
    requires forall k :: 0 <= k < |parts| ==> parts[k] != []
    ensures NonEmpty(parts) == parts
  {
    if parts != [] {
      NonEmptyKeepsFull(parts[1..]);
    }
  }

  /** The `.refine` bound of page and limit: `val > 0`, and `val <= hi` when
      there is an upper bound. */
  predicate InBounds(n: JsNumber, hi: Option<nat>)
  {
    AboveZero(n) && (hi.None? || AtMost(n, hi.value))
  }

  /** `z.string().optional().default(d).pipe(z.string().regex(/^\d+$/).transform(Number).refine(..))`.
      A failed regex leaves the result dirty, so the transform is skipped and
      the refinement compares the raw text with the bound, through `Number`. */
  function ParseCount(v: Option<Json>, default: string, field: string, digitsMessage: string,
                      hi: Option<nat>, rangeMessage: string): (r: Result<nat, seq<Issue>>)
  {
    var raw := if v.None? then JStr(default) else v.value;
    if !raw.JStr? then Err([TypeIssue([field], "string", Some(raw))])
    else if !Matches(OnlyDigits, raw.s) then
      Err([Issue([field], InvalidString, digitsMessage)]
          + (if InBounds(StringToNumber(raw.s), hi) then [] else [Issue([field], Custom, rangeMessage)]))
    else
      var n := DigitsValue(raw.s);
      if 0 < n && (hi.None? || n <= hi.value) then Ok(n) else Err([Issue([field], Custom, rangeMessage)])
  }

  function ParsePage(v: Option<Json>): Result<nat, seq<Issue>>
  {
    ParseCount(v, "1", "page", "Page must be a positive integer", None, "Page must be greater than 0")
  }

  function ParseLimit(v: Option<Json>): Result<nat, seq<Issue>>
  {
    ParseCount(v, "20", "limit", "Limit must be a positive integer", Some(100), "Limit must be between 1 and 100")
  }

  /** The run of digits the regex admits is read by `Number` as its decimal
      value, so the refinement on the transformed number is the bound on that value. */
  lemma CountTransform(s: string, hi: Option<nat>)
    requires Matches(OnlyDigits, s)
    ensures StringToNumber(s) == Finite(DigitsValue(s) as real)
    ensures InBounds(StringToNumber(s), hi) <==> 0 < DigitsValue(s) && (hi.None? || DigitsValue(s) <= hi.value)
  {
    NumberOfDigits(s);
  }

  /** A page or limit text that is not a run of digits gets the regex issue,
      and the range issue too exactly when `Number` of the text misses the
      bound: "abc", "" and "-5" get both, " 7" and "1.5" only the first. */
  lemma PagingIssues(v: Option<Json>)
    requires IsStr(v) && !Matches(OnlyDigits, v.value.s)
    ensures ParsePage(v).Err? && ParsePage(v).error[0] == Issue(["page"], InvalidString, "Page must be a positive integer")
    ensures |ParsePage(v).error| == 2 <==> !AboveZero(StringToNumber(v.value.s))
    ensures |ParsePage(v).error| == 1 <==> AboveZero(StringToNumber(v.value.s))
    ensures ParseLimit(v).Err? && ParseLimit(v).error[0] == Issue(["limit"], InvalidString, "Limit must be a positive integer")
    ensures |ParseLimit(v).error| == 2 <==> !InBounds(StringToNumber(v.value.s), Some(100))
  {
  }

  /** The 400 answer for a page of "abc", "" or "-5" has two details, the
      regex issue and the range issue; for " 7" it has the regex issue only. */
  lemma PageIssueCounts()
    ensures |ParsePage(Some(JStr("abc"))).error| == 2
    ensures |ParsePage(Some(JStr(""))).error| == 2
    ensures |ParsePage(Some(JStr("-5"))).error| == 2
    ensures |ParsePage(Some(JStr(" 7"))).error| == 1
  {
    NumberMissesBound();
    NumberOfPadded();
    assert !Matches(OnlyDigits, "abc") by { assert !IsDigit("abc"[0]); }
    assert !Matches(OnlyDigits, "-5") by { assert !IsDigit("-5"[0]); }
    assert !Matches(OnlyDigits, " 7") by { assert !IsDigit(" 7"[0]); }
    PagingIssues(Some(JStr("abc")));
    PagingIssues(Some(JStr("")));
    PagingIssues(Some(JStr("-5")));
    PagingIssues(Some(JStr(" 7")));
  }

  /** Texts the regex refuses, as `Number` reads them: "abc" is NaN, the empty
      text 0 and "-5" negative, so neither meets `val > 0`. */
  lemma NumberMissesBound()
    ensures StringToNumber("abc") == NaN
    ensures StringToNumber("") == Finite(0.0)
    ensures StringToNumber("-5") == Finite(-5.0)
  {
    NumberOfWord();
    NumberOfNegative();
  }

  /** Texts the regex refuses that `Number` still reads above zero: " 7" is 7
      (the whitespace is trimmed) and "1.5" is 1.5. */
  lemma NumberMeetsBound()
    ensures StringToNumber(" 7") == Finite(7.0)
    ensures StringToNumber("1.5") == Finite(1.5)
  {
    NumberOfPadded();
    NumberOfFraction();
  }

  lemma NumberOfWord()
    ensures StringToNumber("abc") == NaN
  {
    TrimUnpadded("abc");
    assert SignedNumber("abc") == NaN by {
      assert "abc" != "Infinity";
      assert DecimalValue("abc") == None by { assert DigitPrefix("abc") == 0; }
    }
  }

  lemma NumberOfNegative()
    ensures StringToNumber("-5") == Finite(-5.0)
  {
    TrimUnpadded("-5");
    assert SignedNumber("-5") == Finite(-5.0) by {
      assert "-5"[1..] == "5" && "5" != "Infinity";
      DigitsDecimal("5");
      assert DigitsValue("5") == 5 by { assert "5"[..0] == []; }
    }
  }

  lemma NumberOfPadded()
    ensures StringToNumber(" 7") == Finite(7.0)
  {
    assert Trim(" 7") == "7" by {
      assert LeadingSpace(" 7"[1..]) == 0;
      assert LeadingSpace(" 7") == 1 && TrailingSpace(" 7") == 0 && " 7"[1..2] == "7";
    }
    assert SignedNumber("7") == Finite(7.0) by {
      assert "7" != "Infinity";
      DigitsDecimal("7");
      assert DigitsValue("7") == 7 by { assert "7"[..0] == []; }
    }
  }

  lemma NumberOfFraction()
    ensures StringToNumber("1.5") == Finite(1.5)
  {
    TrimUnpadded("1.5");
    assert "1.5" != "Infinity";
    assert DecimalValue("1.5") == Some(1.5) by { DecimalOfFraction(); }
  }

  lemma DecimalOfFraction()
    ensures DecimalValue("1.5") == Some(1.5)
  {
    var dec := "1.5";
    assert DigitPrefix(dec[1..]) == 0;
    assert DigitPrefix(dec) == 1 && dec[..1] == "1" && dec[1..] == ".5" && dec[1..][1..] == "5";
    assert DigitPrefix("5"[1..]) == 0;
    assert DigitPrefix("5") == 1 && "5"[..1] == "5" && "5"[1..] == [];
    assert "1" + "5" == "15";
    assert DigitsValue("15") == 15 by { assert "15"[..1] == "1" && "1"[..0] == []; }
    assert ExponentPart([]) == Some(0);
    assert Scale(15.0, -1) == 1.5;
  }

  /** A page is 1 by default or a run of digits naming a positive number; a
      limit is 20 by default or a run of digits naming 1..100. */
  lemma PagingRule(v: Option<Json>)
    ensures v.None? ==> ParsePage(v) == Ok(1) && ParseLimit(v) == Ok(20)
    ensures v.Some? ==> (ParsePage(v).Ok? <==> IsStr(v) && v.value.s != [] && AllDigits(v.value.s) && DigitsValue(v.value.s) > 0)
    ensures v.Some? ==> (ParseLimit(v).Ok? <==> IsStr(v) && v.value.s != [] && AllDigits(v.value.s) && 0 < DigitsValue(v.value.s) <= 100)
    ensures v.Some? && ParsePage(v).Ok? ==> ParsePage(v).value == DigitsValue(v.value.s)
    ensures v.Some? && ParseLimit(v).Ok? ==> ParseLimit(v).value == DigitsValue(v.value.s)
  {
    if v.None? {
      assert DigitsValue("1") == 1 by { assert "1"[..0] == []; }
      assert DigitsValue("20") == 20 by { assert "20"[..1] == "2"; assert "2"[..0] == []; }
    }
  }

  /** `z.enum(['true', 'false']).transform(v => v === 'true').optional()`. */
  function ParseStarredFlag(v: Option<Json>): (r: Result<Option<bool>, seq<Issue>>)
    ensures r.Ok? <==> v.None? || v == Some(JStr("true")) || v == Some(JStr("false"))
    ensures r.Ok? ==> (r.value == Some(true) <==> v == Some(JStr("true")))
    ensures r.Ok? ==> (r.value == Some(false) <==> v == Some(JStr("false")))
  {
    Optional(v, match ParseEnum(v, ["true", "false"], ["starred"])
                case Ok(k) => Ok(k == 0)
                case Err(e) => Err(e))
  }

  function ParseSortBy(v: Option<Json>): (r: Result<SortColumn, seq<Issue>>)
    ensures v.None? ==> r == Ok(ByCreatedAt)
    ensures v.Some? ==> (r.Ok? <==> IsStr(v) && v.value.s in SortColumnNames)
    ensures v.Some? && r.Ok? ==> SortColumnName(r.value) == v.value.s
  {
    var parsed := (match ParseEnum(v, SortColumnNames, ["sortBy"])
                   case Ok(k) => SortColumnNamed(k); Ok(SortColumnAt(k))
                   case Err(e) => Err(e));
    Default(v, parsed, ByCreatedAt)
  }

  function ParseSortOrder(v: Option<Json>): (r: Result<SortOrder, seq<Issue>>)
    ensures v.None? ==> r == Ok(Desc)
    ensures r.Ok? <==> v.None? || v == Some(JStr("asc")) || v == Some(JStr("desc"))
    ensures r.Ok? ==> (r.value == Asc <==> v == Some(JStr("asc")))
  {
    Default(v, match ParseEnum(v, ["asc", "desc"], ["sortOrder"])
               case Ok(k) => Ok(if k == 0 then Asc else Desc)
               case Err(e) => Err(e), Desc)
  }

  /** `z.string().<checks>.optional()` with one non-trimming check. */
  function ParseOptionalChecked(v: Option<Json>, c: Check, path: seq<string>): (r: Result<Option<string>, seq<Issue>>)
    requires !c.TrimSpace?
    ensures r.Ok? <==> v.None? || (IsStr(v) && Passes(c, v.value.s))
    ensures r.Ok? ==> (r.value.Some? <==> v.Some?) && (v.Some? ==> r.value.value == v.value.s)
  {
    if IsStr(v) then
      SingleCheck(v.value.s, c);
      ParseOptionalString(v, [c], path)
    else ParseOptionalString(v, [c], path)
  }

  function TodoQuerySchema(query: Json): Result<TodoQuery, seq<Issue>>
  {
    match ObjectFields(query)
    case Err(e) => Err(e)
    case Ok(m) =>
      var status := Optional(Lookup(m, "status"), ParseStatus(Lookup(m, "status"), ["status"]));
      var priority := Optional(Lookup(m, "priority"), ParsePriority(Lookup(m, "priority"), ["priority"]));
      var starred := ParseStarredFlag(Lookup(m, "starred"));
      var search := ParseOptionalChecked(Lookup(m, "search"), MaxLength(200, "Search query too long"), ["search"]);
      var dueDateFrom := ParseOptionalChecked(Lookup(m, "dueDateFrom"),
                           Regex(IsoDatetime, "Due date from must be a valid ISO datetime"), ["dueDateFrom"]);
      var dueDateTo := ParseOptionalChecked(Lookup(m, "dueDateTo"),
                         Regex(IsoDatetime, "Due date to must be a valid ISO datetime"), ["dueDateTo"]);
      var tags := Optional(Lookup(m, "tags"), ParseString(Lookup(m, "tags"), [], ["tags"]));
      var page := ParsePage(Lookup(m, "page"));
      var limit := ParseLimit(Lookup(m, "limit"));
      var sortBy := ParseSortBy(Lookup(m, "sortBy"));
      var sortOrder := ParseSortOrder(Lookup(m, "sortOrder"));
      if status.Ok? && priority.Ok? && starred.Ok? && search.Ok? && dueDateFrom.Ok? && dueDateTo.Ok?
         && tags.Ok? && page.Ok? && limit.Ok? && sortBy.Ok? && sortOrder.Ok?
      then
        Ok(TodoQuery(status.value, priority.value, starred.value, search.value, dueDateFrom.value, dueDateTo.value,
                     if tags.value.Some? then Some(TagList(tags.value.value)) else None,
                     page.value, limit.value, sortBy.value, sortOrder.value))
      else
        Err(IssuesOf(status) + IssuesOf(priority) + IssuesOf(starred) + IssuesOf(search)
            + IssuesOf(dueDateFrom) + IssuesOf(dueDateTo) + IssuesOf(tags) + IssuesOf(page)
            + IssuesOf(limit) + IssuesOf(sortBy) + IssuesOf(sortOrder))
  }

  /** The listing query's decoding: `starred` is the text 'true' or 'false',
      paging is within bounds with defaults 1 and 20, sorting defaults to
      created_at descending, and the tag list is `TagList` of the text. */
  lemma TodoQuerySchemaValue(m: map<string, Json>)
    requires TodoQuerySchema(JObj(m)).Ok?
    ensures var q := TodoQuerySchema(JObj(m)).value;
      && (q.starred == Some(true) <==> Lookup(m, "starred") == Some(JStr("true")))
      && (q.starred == Some(false) <==> Lookup(m, "starred") == Some(JStr("false")))
      && q.page >= 1 && 1 <= q.limit <= 100
      && (Lookup(m, "page").None? ==> q.page == 1)
      && (Lookup(m, "limit").None? ==> q.limit == 20)
      && (Lookup(m, "sortBy").None? ==> q.sortBy == ByCreatedAt)
      && (q.sortOrder == Asc <==> Lookup(m, "sortOrder") == Some(JStr("asc")))
      && (q.tags.Some? <==> Lookup(m, "tags").Some?)
      && (q.tags.Some? ==> q.tags.value == TagList(Lookup(m, "tags").value.s))
      && (q.search.Some? ==> |q.search.value| <= 200)
  {
    QueryPagingValue(m);
    QueryFlagsValue(m);
    QueryTagsValue(m);
    QuerySearchValue(m);
  }

  /** The paging part of `TodoQuerySchemaValue`. */
  lemma QueryPagingValue(m: map<string, Json>)
    requires TodoQuerySchema(JObj(m)).Ok?
    ensures var q := TodoQuerySchema(JObj(m)).value;
      && q.page >= 1 && 1 <= q.limit <= 100
      && (Lookup(m, "page").None? ==> q.page == 1)
      && (Lookup(m, "limit").None? ==> q.limit == 20)
  {
    QueryFieldsParse(m);
    PagingRule(Lookup(m, "page"));
    PagingRule(Lookup(m, "limit"));
  }

  /** The flag and sorting part of `TodoQuerySchemaValue`. */
  lemma QueryFlagsValue(m: map<string, Json>)
    requires TodoQuerySchema(JObj(m)).Ok?
    ensures var q := TodoQuerySchema(JObj(m)).value;
      && (q.starred == Some(true) <==> Lookup(m, "starred") == Some(JStr("true")))
      && (q.starred == Some(false) <==> Lookup(m, "starred") == Some(JStr("false")))
      && (Lookup(m, "sortBy").None? ==> q.sortBy == ByCreatedAt)
      && (q.sortOrder == Asc <==> Lookup(m, "sortOrder") == Some(JStr("asc")))
  {
    QueryFieldsParse(m);
  }

  /** The tag part of `TodoQuerySchemaValue`. */
  lemma QueryTagsValue(m: map<string, Json>)
    requires TodoQuerySchema(JObj(m)).Ok?
    ensures var q := TodoQuerySchema(JObj(m)).value;
      && (q.tags.Some? <==> Lookup(m, "tags").Some?)
      && (q.tags.Some? ==> q.tags.value == TagList(Lookup(m, "tags").value.s))
  {
    QueryFieldsParse(m);
    if IsStr(Lookup(m, "tags")) {
      assert Transformed(Lookup(m, "tags").value.s, []) == Lookup(m, "tags").value.s;
    }
  }

  /** The search part of `TodoQuerySchemaValue`. */
  lemma QuerySearchValue(m: map<string, Json>)
    requires TodoQuerySchema(JObj(m)).Ok?
    ensures var q := TodoQuerySchema(JObj(m)).value;
      q.search.Some? ==> |q.search.value| <= 200
  {
    QueryFieldsParse(m);
    var v := Lookup(m, "search");
    var search := ParseOptionalChecked(v, MaxLength(200, "Search query too long"), ["search"]);
    if search.value.Some? {
      assert IsStr(v) && Passes(MaxLength(200, "Search query too long"), v.value.s);
    }
  }

  /** An accepted listing query holds what each field's parser made of it. */
  lemma QueryFieldsParse(m: map<string, Json>)
    requires TodoQuerySchema(JObj(m)).Ok?
    ensures var tags := Optional(Lookup(m, "tags"), ParseString(Lookup(m, "tags"), [], ["tags"]));
      var search := ParseOptionalChecked(Lookup(m, "search"), MaxLength(200, "Search query too long"), ["search"]);
      var q := TodoQuerySchema(JObj(m)).value;
      && ParsePage(Lookup(m, "page")).Ok? && q.page == ParsePage(Lookup(m, "page")).value
      && ParseLimit(Lookup(m, "limit")).Ok? && q.limit == ParseLimit(Lookup(m, "limit")).value
      && ParseStarredFlag(Lookup(m, "starred")).Ok? && q.starred == ParseStarredFlag(Lookup(m, "starred")).value
      && ParseSortBy(Lookup(m, "sortBy")).Ok? && q.sortBy == ParseSortBy(Lookup(m, "sortBy")).value
      && ParseSortOrder(Lookup(m, "sortOrder")).Ok? && q.sortOrder == ParseSortOrder(Lookup(m, "sortOrder")).value
      && search.Ok? && q.search == search.value
      && tags.Ok? && q.tags == (if tags.value.Some? then Some(TagList(tags.value.value)) else None)
  {
    assert ObjectFields(JObj(m)) == Ok(m);
  }

  /** A `starred` value other than 'true' or 'false' refuses the query, and so
      does a page that is not a run of digits naming a positive number, and a
      limit that is not a run of digits naming 1..100. */
  lemma TodoQueryRefuses(m: map<string, Json>)
    requires || (Lookup(m, "starred").Some? && Lookup(m, "starred").value != JStr("true") && Lookup(m, "starred").value != JStr("false"))
             || (Lookup(m, "page").Some? && !(IsStr(Lookup(m, "page")) && Lookup(m, "page").value.s != []
                   && AllDigits(Lookup(m, "page").value.s) && DigitsValue(Lookup(m, "page").value.s) > 0))
             || (Lookup(m, "limit").Some? && !(IsStr(Lookup(m, "limit")) && Lookup(m, "limit").value.s != []
                   && AllDigits(Lookup(m, "limit").value.s) && 0 < DigitsValue(Lookup(m, "limit").value.s) <= 100))
    ensures TodoQuerySchema(JObj(m)).Err?
  {
    PagingRule(Lookup(m, "page"));
    PagingRule(Lookup(m, "limit"));
    QueryNeedsStarredAndPage(m);
  }

  /** The listing query is refused when its `starred` flag, its page or its limit is. */
  lemma QueryNeedsStarredAndPage(m: map<string, Json>)
    ensures TodoQuerySchema(JObj(m)).Ok? ==>
      ParseStarredFlag(Lookup(m, "starred")).Ok? && ParsePage(Lookup(m, "page")).Ok? && ParseLimit(Lookup(m, "limit")).Ok?
  {
    assert ObjectFields(JObj(m)) == Ok(m);
  }
}
