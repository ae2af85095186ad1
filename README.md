# Todo backend: verified model of the service core

This project models the core of a todo REST backend written in TypeScript. The backend uses Express, zod, PostgreSQL and Firebase authentication.

The model covers:

- **The persistence services.** These are `todo.service.ts` and `user.service.ts`. They act on two tables held in a `Database` class whose fields the methods update in place:
  - create, look up, list, update, soft- and hard-delete todos;
  - per-user statistics;
  - create, look up, update and soft-delete users.
- **The two dynamic SQL builders.** The WHERE builder of the listing and the SET builders of both updates are imperative methods. They push placeholders and values step by step, and each is proved against the meaning of the statement it builds.
- **The request schemas.** These are the zod schemas for todos, accounts and the shared validators, and the `validate` / `validateAll` middleware.
- **The classifiers.** These are the error handler, bearer-token authentication and the request logger's redaction and level choice.

The table constraints of the migrations are the invariants:

- `completed_at` is set exactly when the status is `completed`;
- a trimmed title is never empty;
- `firebase_uid` and `email` are unique over every row, soft-deleted ones included;
- the users' e-mail check holds;
- the enum order is the order of declaration.

Other modelling choices:

- `NOW()` and `CURRENT_DATE` are integer parameters, in seconds.
- The database's text-to-timestamp cast is a parameter `cast`.
- Row ids are naturals. A fresh id is one larger than every id in use.
- A database error is a `PgError` value. It carries the code, constraint and message that the services and the error handler read.

Modules:

- `Base`: options, results, JavaScript `trim`, `split`/`join` and `parseInt`.
- `Zod`: the parts of the validation library the schemas use.
- `Errors`: the error middleware.
- `Http`: the request object.
- `TodoSchema`, `AuthSchema`, `Validation`.
- `Auth`, `RequestLogging`.
- `Store`: rows, constraints and the `Database` class.
- `TodoService`, `Like`, `TodoListing`, `TodoStats`, `UserService`.

Creating a todo for a uid with no live user runs the insert with a NULL `user_id`. That fails as a 500 database error, not a 404 (todo.service.ts:64-101). `TodoService.NoOwnerIsDatabaseError` states it.

## Model

| member | source | states |
|---|---|---|
| Base.Trim | backend/src/schemas/todo.schema.ts:17-20 | `.trim()` returns the slice between leading and trailing whitespace; the result is empty exactly when the text is all whitespace, and otherwise starts and ends with non-whitespace |
| Base.TrimIdempotent | backend/src/schemas/todo.schema.ts:102 | trimming an already trimmed tag changes nothing |
| Base.Lower | backend/src/services/todo.service.ts:185 | the case folding of ILIKE keeps the length and folds every character |
| Base.TextBefore | backend/src/middleware/auth.middleware.ts:37 | element 1 of `split('Bearer ')` is a prefix of the rest of the header that contains no further separator, and stops at the next separator or at the end |
| Base.Split | backend/src/schemas/todo.schema.ts:102 | `split(',')` yields at least one piece and no piece contains the separator |
| Base.JoinSplit | backend/src/schemas/todo.schema.ts:102 | joining the pieces of a split with the separator gives back the original text |
| Base.SplitJoin | backend/src/schemas/todo.schema.ts:102 | splitting a join of separator-free pieces gives back the pieces |
| Base.ParseIntJs | backend/src/middleware/validate.middleware.ts:140-141 | `parseInt(s, 10)` of a run of digits is its decimal value |
| Base.NumberOfDigits | backend/src/schemas/todo.schema.ts:112 | `Number(s)` of a run of digits is its decimal value |
| Zod.RunChecks | backend/src/schemas/todo.schema.ts:17-20 | a string chain reports no issue exactly when every check passes on the text as it stands at that check; every issue carries the field's path |
| Zod.AllPassWithoutTrim | backend/src/schemas/todo.schema.ts:21-22 | a chain without `trim` tests every check on the raw text and leaves it unchanged |
| Zod.SingleCheck | backend/src/schemas/todo.schema.ts:33 | a one-check chain accepts what the check accepts, unchanged |
| Zod.BoundsThenTrim | backend/src/schemas/todo.schema.ts:17-20 | `.min(lo).max(hi).trim()` accepts exactly the raw texts of length lo..hi and yields the trimmed text |
| Zod.ParseString | backend/src/schemas/auth.schema.ts:21 | a required string field is accepted exactly when present, a string and passing its chain; the value is the transformed text; a refusal has at least one issue, all at that path |
| Zod.ParseOptionalString | backend/src/schemas/todo.schema.ts:92-94 | `.optional()`: an absent field is accepted as absent; a present one is parsed as a required one |
| Zod.ParseNullishString | backend/src/schemas/todo.schema.ts:21-24 | `.optional().nullable()`: absent gives undefined, null gives null, anything else is parsed as a required string |
| Zod.ParseBool | backend/src/schemas/todo.schema.ts:36-37 | `z.boolean()` accepts exactly a boolean and returns it |
| Zod.ParseEnum | backend/src/schemas/todo.schema.ts:25-28 | `z.enum(options)` accepts exactly a string among the options and returns its position |
| Zod.ParsePositiveInt | backend/src/schemas/todo.schema.ts:74-77 | `z.number().int().positive()` accepts exactly a whole number above zero and returns it |
| Zod.ParseStringArray | backend/src/schemas/todo.schema.ts:33-35 | an array of checked strings is accepted exactly when it has at most the maximum number of items and every item passes; the values keep their order |
| Zod.ObjectFields | backend/src/schemas/todo.schema.ts:16 | `z.object` accepts exactly an object and reads its fields |
| Errors.SubclassTable | backend/src/middleware/error.middleware.ts:11-64 | each subclass has a fixed status and code: 400 VALIDATION_ERROR, 401, 403, 404 NOT_FOUND, 409 CONFLICT and 500 DATABASE_ERROR; each keeps a given message or uses its default; the base defaults are 500 INTERNAL_ERROR |
| Errors.ErrorHandler | backend/src/middleware/error.middleware.ts:160-179 | the response never reports success; the stack is included exactly under NODE_ENV `development`; only an application error can answer with a status other than 400, 409 or 500 |
| Errors.AppErrorsKeepTheirFields | backend/src/middleware/error.middleware.ts:95-99 | an application error is answered with its own status, code and message and no details |
| Errors.PostgresCodeTable | backend/src/middleware/error.middleware.ts:108-142 | the vendor codes map to 23505 409 CONFLICT with the constraint, 23503 400, 23514 400 with the constraint, 23502 400 with the column; every other code maps to 500 DATABASE_ERROR |
| Errors.GenericErrorMessage | backend/src/middleware/error.middleware.ts:88-147 | an error with no code keeps 500 INTERNAL_ERROR and shows its own message when it has one, otherwise the default text |
| Errors.ZodNameBeatsCode | backend/src/middleware/error.middleware.ts:101-108 | anything named `ZodError` is a 400 VALIDATION_ERROR even when it also carries a code |
| Errors.ZodIssuesAreDetails | backend/src/middleware/error.middleware.ts:101-106 | a thrown validation error's issues become the details |
| Errors.NotFoundHandler | backend/src/middleware/error.middleware.ts:198-207 | the fallback forwards a not-found error reading "Route METHOD PATH not found" |
| Errors.UnknownRouteAnswers404 | backend/src/middleware/error.middleware.ts:198-207 | an unknown route is answered 404 NOT_FOUND with that message |
| Http.Request.Set | backend/src/middleware/validate.middleware.ts:32 | writing one request part replaces that part and leaves the other parts, the header and the user untouched |
| TodoSchema.EnumNamesRoundTrip | backend/src/schemas/todo.schema.ts:6-11 | the four status names and the four priority names are a bijection with the enum values, in declaration order |
| TodoSchema.PriorityOrder | backend/src/migrations/1767380265090_create-todos-table.js:3-4 | the database orders low < medium < high < critical and pending < in_progress < completed < archived |
| TodoSchema.ParseTitle | backend/src/schemas/todo.schema.ts:17-20 | a title is accepted exactly when it is a string of 1..500 characters as sent; the value is trimmed |
| TodoSchema.ParseNullishChecked | backend/src/schemas/todo.schema.ts:21-24 | a nullable optional string field is accepted when absent, null or a passing string, and keeps which of the three it was and the text as sent |
| TodoSchema.ParseTags | backend/src/schemas/todo.schema.ts:33-35 | tags are accepted when absent or an array of at most 10 strings of at most 50 characters each; they are kept in order, as sent |
| TodoSchema.ParseStatus | backend/src/schemas/todo.schema.ts:25 | a status is accepted exactly when it is one of the four names, and that name is kept |
| TodoSchema.ParsePriority | backend/src/schemas/todo.schema.ts:27 | a priority is accepted exactly when it is one of the four names, and that name is kept |
| TodoSchema.Optional | backend/src/schemas/todo.schema.ts:57-58 | `.optional()` keeps an absent field absent and otherwise defers to the inner parser |
| TodoSchema.Default | backend/src/schemas/todo.schema.ts:25-28 | `.default(d)` gives d for an absent field and otherwise defers to the inner parser |
| TodoSchema.CreateTodoSchemaAccepts | backend/src/schemas/todo.schema.ts:16-42 | the create schema accepts exactly the bodies whose fields each satisfy their rule |
| TodoSchema.CreateTodoSchemaValue | backend/src/schemas/todo.schema.ts:16-42 | an accepted create body has its title trimmed; the status defaults to pending, the priority to medium and starred to false; description, due date and reminder are kept as sent (absent, null or the text), and so are the tags |
| TodoSchema.CreateFieldsParse | backend/src/schemas/todo.schema.ts:16-42 | an accepted create body holds, field by field, the value each field's parser made of the body |
| TodoSchema.BlankTitleSurvivesSchema | backend/src/schemas/todo.schema.ts:17-20 | the length checks run before the trim, so a title of blanks passes the schema and becomes empty |
| TodoSchema.UpdateTodoSchemaAccepts | backend/src/schemas/todo.schema.ts:47-78 | the update schema accepts exactly the bodies whose fields each satisfy their rule |
| TodoSchema.UpdateTodoSchemaValue | backend/src/schemas/todo.schema.ts:47-78 | every field of an accepted update is absent exactly when it was not sent; the title is trimmed; status and priority are the names sent; starred, position and tags are the values sent, the position positive; description, due date and reminder are kept as sent, an explicit null as null |
| TodoSchema.UpdateOptionalValues | backend/src/schemas/todo.schema.ts:47-78 | title, status, priority, starred, position and tags of an accepted update are absent exactly when not sent, and otherwise the value sent (the title trimmed) |
| TodoSchema.UpdateNullishValues | backend/src/schemas/todo.schema.ts:47-78 | description, due date and reminder of an accepted update are undefined exactly when not sent, null exactly when null was sent, and otherwise the text sent |
| TodoSchema.UpdateFieldValues | backend/src/schemas/todo.schema.ts:47-78 | an accepted update body holds, field by field, the value each field's parser made of the body |
| TodoSchema.UpdateRefusesNull | backend/src/schemas/todo.schema.ts:47-78 | null is refused for title, status, priority, tags, starred and position |
| TodoSchema.TrimAll | backend/src/schemas/todo.schema.ts:102 | `map(tag => tag.trim())` trims every piece and keeps their number |
| TodoSchema.NonEmpty | backend/src/schemas/todo.schema.ts:102 | `filter(Boolean)` keeps exactly the non-empty pieces |
| TodoSchema.TrimmedPiece | backend/src/schemas/todo.schema.ts:102 | trimming a comma-free piece gives a comma-free, already trimmed piece |
| TodoSchema.TagListShape | backend/src/schemas/todo.schema.ts:101-103 | every decoded tag is non-empty, trimmed and comma-free; every piece that is not blank appears trimmed |
| TodoSchema.TagListRoundTrip | backend/src/schemas/todo.schema.ts:101-103 | decoding the comma-joined text of well-formed tags gives back the tags |
| TodoSchema.NonEmptyKeepsFull | backend/src/schemas/todo.schema.ts:102 | filtering a list with no empty piece changes nothing |
| TodoSchema.PagingRule | backend/src/schemas/todo.schema.ts:106-123 | page defaults to 1 and limit to 20; a given value must be all digits, with page > 0 and limit in 1..100, and reads as its decimal value |
| TodoSchema.ParseStarredFlag | backend/src/schemas/todo.schema.ts:89-91 | `starred` accepts only 'true' or 'false' and maps them to the booleans |
| TodoSchema.ParseSortBy | backend/src/schemas/todo.schema.ts:126-127 | the sort column is one of the seven names, created_at by default |
| TodoSchema.ParseSortOrder | backend/src/schemas/todo.schema.ts:128-129 | the sort order is asc or desc, desc by default |
| TodoSchema.ParseOptionalChecked | backend/src/schemas/todo.schema.ts:92-94 | an optional checked string is accepted when absent or passing, and kept as sent |
| TodoSchema.TodoQuerySchemaValue | backend/src/schemas/todo.schema.ts:83-130 | an accepted query has the starred flag from its text, page ≥ 1, limit 1..100, the defaults 1, 20, created_at and desc, the tag list decoded, and a search of at most 200 characters |
| TodoSchema.TodoQueryRefuses | backend/src/schemas/todo.schema.ts:89-123 | a query is refused whenever starred is given but is not 'true' or 'false', or a page is given that is not a run of digits naming a positive number, or a limit is given that is not a run of digits naming 1..100 |
| TodoSchema.CountTransform | backend/src/schemas/todo.schema.ts:110-122 | `Number` reads the run of digits the regex admits as its decimal value, so the refinement on the transformed number is the bound on that value |
| TodoSchema.PagingIssues | backend/src/schemas/todo.schema.ts:106-123 | a page or limit text that fails the regex gets the regex issue first, and the range issue as well exactly when `Number` of the raw text fails the refinement |
| TodoSchema.PageIssueCounts | backend/src/schemas/todo.schema.ts:106-114 | a page of "abc", "" or "-5" gives two issues, a page of " 7" one |
| TodoSchema.NumberMissesBound | backend/src/schemas/todo.schema.ts:112-113 | `Number` reads "abc" as NaN, "" as 0 and "-5" as -5, none above zero |
| TodoSchema.NumberMeetsBound | backend/src/schemas/todo.schema.ts:112-113 | `Number` reads " 7" as 7 and "1.5" as 1.5, both above zero |
| Validation.DescribeAll | backend/src/middleware/validate.middleware.ts:38-42 | one detail per issue, in order, with the path joined by '.' |
| Validation.Validate | backend/src/middleware/validate.middleware.ts:23-57 | on success the part is replaced and next() is called; on a validation error the answer is 400 with one detail per issue and the part is kept; any other error goes to next(error); no other part changes, and neither do the verb, the URL, the header or the user |
| Validation.ValidateAll | backend/src/middleware/validate.middleware.ts:75-119 | the method computes the loop's outcome and the request parts it leaves; the verb, the URL, the header and the user are kept |
| Validation.CrashSticks | backend/src/middleware/validate.middleware.ts:96-98 | once a non-validation error stops the loop, later schemas change nothing |
| Validation.OnlyNamedPartsChange | backend/src/middleware/validate.middleware.ts:80-85 | the loop writes only the parts that have a schema |
| Validation.GathersEveryIssue | backend/src/middleware/validate.middleware.ts:86-95 | when nothing is forwarded, the details are every issue of every schema, each tagged with its part, in order |
| Validation.PassedPartsReplaced | backend/src/middleware/validate.middleware.ts:83-85 | a part whose schema accepted it holds the parsed value afterwards |
| Validation.VerdictRule | backend/src/middleware/validate.middleware.ts:104-118 | the answer is 400 with all the details exactly when nothing was forwarded and some issue was found; next() is called exactly when there is neither |
| Validation.EmailRule | backend/src/middleware/validate.middleware.ts:183-186 | an e-mail is an address of 3..255 characters, kept as written |
| Validation.PasswordRule | backend/src/middleware/validate.middleware.ts:192-198 | a password has 12..128 characters with an upper-case letter, a lower-case letter, a digit and another character |
| Validation.EmailSchema | backend/src/middleware/validate.middleware.ts:183-186 | `emailSchema` accepts exactly a string address of 3..255 characters and keeps it |
| Validation.PasswordSchema | backend/src/middleware/validate.middleware.ts:192-198 | `passwordSchema` accepts exactly a strong password and keeps it |
| Validation.PaginationRule | backend/src/middleware/validate.middleware.ts:139-150 | pagination is accepted exactly when the fields are text, the sort order is valid, the page reads as a number above 0 and the limit as a number in 1..100 |
| Validation.PaginationDefaults | backend/src/middleware/validate.middleware.ts:140-143 | an empty query reads as page 1, limit 20, descending |
| Validation.PaginationRefusesNaN | backend/src/middleware/validate.middleware.ts:140-146 | a page text without digits reads as NaN and is refused |
| Validation.PaginationReadsLeadingDigits | backend/src/middleware/validate.middleware.ts:140 | `parseInt` stops at the first non-digit, so a page of "2x" is page 2 |
| Validation.SearchRule | backend/src/middleware/validate.middleware.ts:156-160 | the search query needs q of 1..200 characters; page and limit are parsed but never checked |
| Validation.SearchKeepsNaN | backend/src/middleware/validate.middleware.ts:158 | a page that is not a number passes the search schema as NaN |
| Validation.DateRangeRule | backend/src/middleware/validate.middleware.ts:166-177 | a range is refused only for a malformed date or when both dates are present and the start is after the end |
| Auth.ExtractToken | backend/src/middleware/auth.middleware.ts:28-45 | no header, or one not starting with exactly 'Bearer ', has no token; an empty element 1 is an empty token; otherwise the token is the text after the prefix up to the next separator |
| Auth.TokenRoundTrip | backend/src/middleware/auth.middleware.ts:37 | a token without the separator, sent after the prefix, is read back unchanged |
| Auth.VerifyFailure | backend/src/middleware/auth.middleware.ts:60-92 | each provider failure code gets its own answer: expired, revoked, argument-error as AUTH_TOKEN_INVALID, anything else AUTH_FAILED |
| Auth.Authenticate | backend/src/middleware/auth.middleware.ts:24-93 | a request is admitted exactly when a token is found and the provider accepts it; a refusal uses one of the five codes; AUTH_TOKEN_MISSING is answered exactly when there is no bearer prefix |
| Auth.NoTokenNoVerifier | backend/src/middleware/auth.middleware.ts:28-46 | without a token the provider is never consulted and the request is refused |
| Auth.BearerAdmitted | backend/src/middleware/auth.middleware.ts:37-55 | a well-formed bearer header is admitted exactly when the provider accepts its token, with the provider's user; otherwise the failure code decides the answer |
| Auth.AuthenticateUser | backend/src/middleware/auth.middleware.ts:19-94 | on admission the user and its uid are recorded and next() is called; otherwise 401 and the user fields are untouched; the body, params, query, header, verb and URL are never changed |
| Auth.OptionalUser | backend/src/middleware/auth.middleware.ts:106-121 | a user is recorded exactly when a token is found and accepted |
| Auth.OptionalAuth | backend/src/middleware/auth.middleware.ts:101-129 | always continues and sets the user and its uid only when one was admitted; the body, params, query, header, verb and URL are never changed |
| AuthSchema.ParseDisplayName | backend/src/schemas/auth.schema.ts:10-13 | a display name has 2..100 characters as sent and is trimmed |
| AuthSchema.ParseIdToken | backend/src/schemas/auth.schema.ts:21 | the identity token must be a non-empty string |
| AuthSchema.ParsePhotoUrl | backend/src/schemas/auth.schema.ts:33-36 | the photo address is absent, or a URL of at most 500 characters; null is refused |
| AuthSchema.RegisterSchema | backend/src/schemas/auth.schema.ts:7-14 | only an object can be accepted |
| AuthSchema.RegisterSchemaRule | backend/src/schemas/auth.schema.ts:7-14 | registration is accepted exactly for a valid e-mail, a strong password and a name of 2..100 characters; the name is trimmed |
| AuthSchema.BlankNameSurvivesSchema | backend/src/schemas/auth.schema.ts:10-13 | the trim comes after the length checks, so a name of spaces is accepted and becomes empty |
| AuthSchema.LoginSchema | backend/src/schemas/auth.schema.ts:19-22 | only an object can be accepted |
| AuthSchema.LoginSchemaRule | backend/src/schemas/auth.schema.ts:19-22 | login is accepted exactly for a valid e-mail and a non-empty token |
| AuthSchema.UpdateProfileSchema | backend/src/schemas/auth.schema.ts:27-37 | only an object can be accepted |
| AuthSchema.UpdateProfileSchemaRule | backend/src/schemas/auth.schema.ts:27-37 | each field may be left out or must be valid; the name is trimmed; the photo is kept |
| RequestLogging.UserIdToken | backend/src/middleware/logger.middleware.ts:8-10 | the user id is logged as sent, or as 'anonymous' when absent or empty |
| RequestLogging.Spread | backend/src/middleware/logger.middleware.ts:21 | spreading an object copies its fields; spreading anything else gives only index keys |
| RequestLogging.Redact | backend/src/middleware/logger.middleware.ts:21-28 | the redacted copy has exactly the keys of the body |
| RequestLogging.Sanitize | backend/src/middleware/logger.middleware.ts:21-28 | the copy-and-overwrite loop masks exactly the sensitive names with a truthy value and copies every other key |
| RequestLogging.SanitizeIsRedact | backend/src/middleware/logger.middleware.ts:21-28 | the loop's copy is the redacted copy |
| RequestLogging.NoSecretLogged | backend/src/middleware/logger.middleware.ts:24-28 | a sensitive name holds the mask or a falsy value |
| RequestLogging.RedactIdempotent | backend/src/middleware/logger.middleware.ts:24-28 | redacting twice is redacting once |
| RequestLogging.BodyTokenOf | backend/src/middleware/logger.middleware.ts:15-31 | the body is logged as '-' exactly for GET and HEAD, otherwise as the redacted copy |
| RequestLogging.PlainBodyLoggedAsIs | backend/src/middleware/logger.middleware.ts:21-30 | a body without sensitive names is logged as sent |
| RequestLogging.LogLevel | backend/src/middleware/logger.middleware.ts:80-86 | error exactly for status ≥ 500, warn exactly for 400..499, http otherwise |
| RequestLogging.LevelMonotone | backend/src/middleware/logger.middleware.ts:80-86 | a higher status is never logged at a lower severity |
| RequestLogging.FinishRecord | backend/src/middleware/logger.middleware.ts:65-87 | the finish record has the level and message for its status, the original URL when there is one, the elapsed time and the user token |
| Store.TrimmedTitleCheck | backend/src/migrations/1767380265090_create-todos-table.js:98-100 | a trimmed title passes `LENGTH(TRIM(title)) >= 1` exactly when it is non-empty |
| Store.Iota | backend/src/services/todo.service.ts:163-204 | the k-th placeholder names the k-th value |
| Store.EnumCastRoundTrip | backend/src/migrations/1767380265090_create-todos-table.js:3-4 | the database reads back every enum name it is sent |
| Store.TodoRowError | backend/src/migrations/1767380265090_create-todos-table.js:98-103 | a todo row is stored exactly when it has an owner, fits its columns, and passes the title and completion checks |
| Store.UserRowError | backend/src/migrations/1767380198554_create-users-table.js:9-69 | a user row is stored exactly when it fits its columns, passes the e-mail check (local part, `@`, domain, `.`, a top-level part of two or more letters), and shares neither uid nor e-mail with any other row, deleted or not |
| Store.EmailCheckTopLevel | backend/src/migrations/1767380198554_create-users-table.js:67-69 | the e-mail check wants two or more letters after the last dot: `a@b.co` passes and `a@b.c` is refused |
| Store.UserIdByUid | backend/src/services/todo.service.ts:65-67 | the subquery finds a user with that uid, live when asked |
| Store.UidNamesOneUser | backend/src/services/todo.service.ts:65-67 | with unique uids, the live and the unfiltered subqueries agree whenever a live user exists |
| Store.AppendTodoValid | backend/src/services/todo.service.ts:51-97 | inserting a fresh, fitting row with an existing owner keeps the todos table consistent |
| Store.FreshId | backend/src/migrations/1767380198554_create-users-table.js:4-8 | a new users or todos id (the `gen_random_uuid()` default, also in 1767380265090_create-todos-table.js:7-11) lies above, so differs from, every id in use |
| TodoService.TextOrNull | backend/src/services/todo.service.ts:88 | `description \|\| null` is null for an absent, null or empty text and keeps any other text |
| TodoService.TimeOrNull | backend/src/services/todo.service.ts:91-94 | `dueDate \|\| null` and `reminderAt \|\| null` are null for an absent, null or empty text and otherwise the cast instant |
| TodoService.MaxPosition | backend/src/services/todo.service.ts:67 | `MAX(position)` over an owner's rows is absent exactly when the owner has none, and is an upper bound attained by some row |
| TodoService.NextPosition | backend/src/services/todo.service.ts:67 | the new position is above every position of the owner's rows, deleted ones included, and is 1 when there are none |
| TodoService.CompletionStamp | backend/src/migrations/1767380265090_create-todos-table.js:101-103 | a completion time is present exactly for the completed status |
| TodoService.InsertTodo | backend/src/services/todo.service.ts:51-101 | the insert succeeds exactly when a live owner exists and the proposed row passes the checks; any failure is a 500 database error |
| TodoService.CreateTodoAsWritten | backend/src/services/todo.service.ts:46-102 | the insert as written never stores a completion time |
| TodoService.CompletedCreateRefused | backend/src/services/todo.service.ts:85-100 | as written, a valid create with status completed fails the completion check and becomes a 500 |
| TodoService.CreateTodoResult | backend/src/services/todo.service.ts:46-102 | following the corrected create named under "## Findings" (a completed status stores `completed_at = NOW()`): create succeeds exactly for a live owner, a title of at most 500 characters that is not blank, and a position that fits; the stored row keeps the completion rule |
| TodoService.CreateTodoStores | backend/src/services/todo.service.ts:85-95 | following the corrected create named under "## Findings" (a completed status stores `completed_at = NOW()`): the stored row has the live owner, the title, status, priority and starred as given, null for falsy texts, no tags by default, a fresh id, a position above the owner's, and both timestamps now |
| TodoService.NoOwnerIsDatabaseError | backend/src/services/todo.service.ts:64-101 | without a live user for the uid the create fails as a 500 database error, not a not-found |
| TodoService.BlankTitleRefused | backend/src/migrations/1767380265090_create-todos-table.js:98-100 | an empty title is refused by the database |
| TodoService.CreateTodo | backend/src/services/todo.service.ts:46-102 | following the corrected create named under "## Findings" (a completed status stores `completed_at = NOW()`): the table gains exactly the created row on success and is unchanged on failure; the invariants are kept |
| TodoService.GetTodoById | backend/src/services/todo.service.ts:107-146 | a todo is found exactly when a row has the id, is live, and its owner is live with that uid |
| TodoService.OnlyOwnerSees | backend/src/services/todo.service.ts:128-133 | with unique uids, a todo is visible to one uid at most |
| TodoService.UpdateKeepsCompletedLogic | backend/src/services/todo.service.ts:300-311 | an update keeps `completed_at` set exactly when the status is completed |
| TodoService.UpdateIdempotent | backend/src/services/todo.service.ts:286-348 | applying the same update twice at the same instant is applying it once |
| TodoService.UpdateKeepsIdentity | backend/src/services/todo.service.ts:286-348 | an update keeps the id, owner, creation time and deletion mark; an update that changes nothing only refreshes `updated_at` |
| TodoService.AddField | backend/src/services/todo.service.ts:291-341 | one builder stage adds its column and value exactly when the field is supplied and keeps every placeholder naming its value |
| TodoService.AddStatus | backend/src/services/todo.service.ts:301-311 | the status stage adds the status value and the `completed_at` entry: NOW() for completed, NULL otherwise |
| TodoService.BuildTodoSet | backend/src/services/todo.service.ts:286-341 | the k-th placeholder names the k-th value; the SET list applied to any row is the intended change; it is empty exactly when nothing is supplied |
| TodoService.UpdateTodoResult | backend/src/services/todo.service.ts:274-392 | not found (404) exactly when the lookup fails; an empty update is a 500; any other failure is a 500; success returns the updated row, which passes the checks |
| TodoService.UpdateAcceptedIff | backend/src/services/todo.service.ts:351-391 | on a consistent table, an update of a visible todo succeeds exactly when the new title fits and is not blank and the position fits |
| TodoService.ReplaceTodoValid | backend/src/services/todo.service.ts:353-361 | replacing a row by a fitting one with the same id and owner keeps the table consistent |
| TodoService.StampedSet | backend/src/services/todo.service.ts:348-351 | adding `updated_at = NOW()` and the two WHERE values to a correct SET list gives the full update |
| TodoService.UpdateTodo | backend/src/services/todo.service.ts:274-392 | returns the specified result; on success exactly the visible row is replaced; on failure nothing changes |
| TodoService.GoneAfterMark | backend/src/services/todo.service.ts:403-413 | once a row is marked deleted it is no longer found |
| TodoService.SoftDeleteTodo | backend/src/services/todo.service.ts:397-425 | marks the visible row deleted, or answers not found when there is none; afterwards the todo is not found, so a second delete fails |
| TodoService.RemoveTodoValid | backend/src/services/todo.service.ts:437-443 | removing a row keeps the table consistent and leaves no row with its id |
| TodoService.HardDeleteTodo | backend/src/services/todo.service.ts:431-456 | removes the row with that id whose owner has the uid, deleted or not, or answers not found; afterwards no row has the id |
| Like.Surround | backend/src/services/todo.service.ts:186 | the search pattern is the text between two `%` |
| Like.PercentMatchesAll | backend/src/services/todo.service.ts:185 | a lone `%` matches every text |
| Like.LeadingPercent | backend/src/services/todo.service.ts:185 | a leading `%` matches exactly when the rest matches some suffix |
| Like.LiteralThenPercent | backend/src/services/todo.service.ts:185 | literal text followed by `%` matches exactly the texts it prefixes |
| Like.SurroundedLiteral | backend/src/services/todo.service.ts:185-186 | `%q%` matches exactly the texts containing q, when q has no wildcard |
| Like.LowerKeepsNoWildcards | backend/src/services/todo.service.ts:185 | case folding introduces no wildcard |
| Like.SearchIsSubstring | backend/src/services/todo.service.ts:184-188 | for a search without wildcards, ILIKE `%text%` is a case-insensitive substring test |
| Like.UnderscoreSearchMatchesAny | backend/src/services/todo.service.ts:184-188 | wildcards in the search are not escaped: searching for `_` matches every non-empty text |
| TodoListing.OwnersOf | backend/src/services/todo.service.ts:212 | the join rows of one todo are exactly its owners |
| TodoListing.InnerJoin | backend/src/services/todo.service.ts:211-212 | the inner join holds exactly the pairs of a todo and the user it belongs to |
| TodoListing.SelectRows | backend/src/services/todo.service.ts:209-214 | the selection holds exactly the todos of the join rows that satisfy the condition |
| TodoListing.SameSelection | backend/src/services/todo.service.ts:206 | two conditions that agree on every join row select the same rows |
| TodoListing.MatchingIsVisible | backend/src/services/todo.service.ts:157-206 | a todo is listed exactly when it is visible to the uid and passes every supplied filter |
| TodoListing.AllFilters | backend/src/services/todo.service.ts:165-204 | the seven optional filters together are the filter conjunction |
| TodoListing.CondMeans | backend/src/services/todo.service.ts:165-204 | each condition pushed with its value at the next placeholder means its filter: status, priority, starred, ILIKE on title or description, inclusive due bounds, tag overlap |
| TodoListing.AddFilter | backend/src/services/todo.service.ts:165-204 | a filter is pushed exactly when supplied; starred whenever defined, tags only when non-empty; every placeholder keeps naming its value |
| TodoListing.BuildTodoWhere | backend/src/services/todo.service.ts:157-206 | every placeholder names a pushed value; the built WHERE holds for a join row exactly when the row belongs to the uid, both are live and every supplied filter holds |
| TodoListing.TextLeTotal | backend/src/services/todo.service.ts:227 | title order is total |
| TodoListing.TextLeTransitive | backend/src/services/todo.service.ts:227 | title order is transitive |
| TodoListing.BeforeTotal | backend/src/services/todo.service.ts:225-227 | the ORDER BY relation is total for every column and direction |
| TodoListing.BeforeTransitive | backend/src/services/todo.service.ts:225-227 | the ORDER BY relation is transitive |
| TodoListing.Insert | backend/src/services/todo.service.ts:249 | inserting into a sorted list keeps it sorted and adds exactly the row |
| TodoListing.SortRows | backend/src/services/todo.service.ts:249 | ORDER BY yields a sorted permutation of the rows |
| TodoListing.CeilDiv | backend/src/services/todo.service.ts:222 | `Math.ceil(total / limit)` is the least c with c·limit ≥ total |
| TodoListing.Window | backend/src/services/todo.service.ts:250 | LIMIT/OFFSET returns limit rows, fewer at the end, none past it |
| TodoListing.PageOf | backend/src/services/todo.service.ts:219 | `page \|\| 1` |
| TodoListing.LimitOf | backend/src/services/todo.service.ts:220 | `limit \|\| 20` |
| TodoListing.HasMoreIff | backend/src/services/todo.service.ts:222-263 | `page < totalPages` holds exactly when page·limit < total |
| TodoListing.PageContents | backend/src/services/todo.service.ts:209-265 | the page is the window, at the page's offset, of the matching rows sorted as requested; the total counts every match before paging; a page has at most limit rows, sorted, each visible and matching; hasMore iff page·limit < total |
| TodoListing.PastLastPage | backend/src/services/todo.service.ts:219-263 | a page past the end is empty, has no more, and keeps the same total |
| TodoListing.EarlyPagesFull | backend/src/services/todo.service.ts:250-263 | a page with more after it is full |
| TodoListing.GetTodosByUserId | backend/src/services/todo.service.ts:151-269 | the method builds the WHERE, counts, sorts and pages, and returns the specified page with LIMIT and OFFSET as the last two values |
| TodoStats.OwnRowsAreVisible | backend/src/services/todo.service.ts:485-489 | the statistics read exactly the todos visible to the uid |
| TodoStats.Count | backend/src/services/todo.service.ts:466-484 | a filtered count never exceeds the rows |
| TodoStats.CountAll | backend/src/services/todo.service.ts:466 | the unfiltered count is the number of rows |
| TodoStats.StatusesPartition | backend/src/services/todo.service.ts:467-470 | the four status counts add up to the total |
| TodoStats.PrioritiesPartition | backend/src/services/todo.service.ts:471-474 | the four priority counts add up to the total |
| TodoStats.CountDisjoint | backend/src/services/todo.service.ts:476-483 | two filters that never hold together count at most every row once |
| TodoStats.CountMonotone | backend/src/services/todo.service.ts:469-475 | a filter implied by another counts no more rows |
| TodoStats.StatsAddUp | backend/src/services/todo.service.ts:461-519 | status and priority counts each partition the total; due soon and overdue are disjoint; starred ≤ total; on a consistent table completed today ≤ completed |
| UserService.LiveByUid | backend/src/services/user.service.ts:67 | finds the live row with that uid, or reports there is none |
| UserService.FindUserByFirebaseUid | backend/src/services/user.service.ts:52-80 | a user is returned exactly when a live row has the uid |
| UserService.FindUserByEmail | backend/src/services/user.service.ts:85-113 | a user is returned exactly when a live row has the e-mail |
| UserService.FindsTheOnlyUser | backend/src/services/user.service.ts:67-100 | on a consistent table each live user is found by its own uid and by its own e-mail |
| UserService.CreateUserError | backend/src/services/user.service.ts:35-46 | a conflict (409) exactly for 23505 on the uid or e-mail key; every other failure is "Failed to create user: …" |
| UserService.CreateUserResult | backend/src/services/user.service.ts:8-47 | the insert succeeds exactly when the proposed row passes the checks, and then returns it |
| UserService.CreateUserAccepts | backend/src/services/user.service.ts:16-31 | a user is created exactly when the widths and the e-mail check (whose top-level part needs two letters or more) pass and no row, deleted or not, has the uid or e-mail; the row is unverified, active, never logged in, with null photo for a falsy address and a fresh id |
| UserService.UidInUseConflicts | backend/src/services/user.service.ts:37-40 | a uid already stored, even on a deleted row, gives the uid conflict |
| UserService.EmailInUseConflicts | backend/src/services/user.service.ts:41-43 | an e-mail stored under another uid gives the e-mail conflict |
| UserService.AppendUserValid | backend/src/migrations/1767380198554_create-users-table.js:9-18 | appending a row that passes the checks keeps both tables consistent |
| UserService.CreateUser | backend/src/services/user.service.ts:8-47 | the table gains exactly the created row on success and is unchanged on failure |
| UserService.BuildUserSet | backend/src/services/user.service.ts:124-151 | each SET placeholder k names the k-th value; `updated_at` comes last; the uid is the placeholder after the n field values; the SET list applied to any row is the intended update |
| UserService.UpdateUserResult | backend/src/services/user.service.ts:118-183 | an empty update is a database error before any lookup; a missing or deleted user is not found; success is the row with the given fields written, a null photo cleared and `updated_at` refreshed |
| UserService.UpdateUserAcceptedIff | backend/src/services/user.service.ts:153-176 | on a consistent table an update of a live user succeeds exactly when the new display name fits its column |
| UserService.ReplaceUserValid | backend/src/migrations/1767380198554_create-users-table.js:9-18 | replacing a row by a fitting one with the same id, uid and e-mail keeps both tables consistent |
| UserService.UpdateUser | backend/src/services/user.service.ts:118-183 | returns the specified result; on success exactly the live row is replaced; otherwise nothing changes |
| UserService.UpdateLastLogin | backend/src/services/user.service.ts:188-200 | stamps the live row's last login and nothing else, and is silent when there is none |
| UserService.NoLiveRowAfterMark | backend/src/services/user.service.ts:208-210 | once the row is marked deleted no live row has its uid |
| UserService.SoftDeleteUser | backend/src/services/user.service.ts:205-224 | marks the live row deleted and inactive, or answers not found when there is none; afterwards no live row has the uid |
| UserService.DeletedUserCannotReturn | backend/src/migrations/1767380198554_create-users-table.js:9-13 | a deleted account is no longer found, yet registering its uid again is a conflict |
| UserService.DeletedUserTodosHidden | backend/src/services/todo.service.ts:128-133 | after the owner is deleted none of their todos is found under that uid |

## Left out

- Actual SQL execution, the connection pool, configuration, Firebase setup and application start-up are left out: they are I/O. The tables are values in a `Database` object.
- Database failures other than constraint violations are left out: connection loss, timeouts and malformed ids. So the catch blocks of the lookups (`Failed to find user`, `Failed to fetch todo`, …) and of `getStats` are not modelled.
- Concurrency is left out. Because of that, the update's "Todo not found after update" branch cannot be reached in the model: the lookup and the update see the same table.
- UUID ids are naturals, so the `uuid` parameter schemas are not modelled. The id is a number before the service is called.
- Timestamps are seconds. The ISO-8601 text of dates reaches the model through the `cast` parameter. `DATE(completed_at)` and `CURRENT_DATE` are taken in one fixed time zone.
- The zod format checks (e-mail, URL, ISO datetime) are modelled as structural shape predicates, not the library's exact regular expressions. The same goes for the users' e-mail check, which is case-insensitive in the database and modelled on ASCII letters.
- Lengths are counted in characters (Unicode scalar values), not in UTF-16 code units as zod's `.min`/`.max` count them. A character above U+FFFF counts once here and twice in the source. This affects the title (1..500), description (5000), tag (50), search (200), displayName (2..100), e-mail (3..255), password (12..128) and photoURL (500) checks.
- Base.StringToNumber: a number is an exact real, not a double. Texts that round to 0 or to exactly 100, such as "1e-400" or "100.00000000000000001", meet or miss the page and limit refinements differently from the source.
- PostgreSQL collation is modelled as code-point order for titles. Case folding for ILIKE is ASCII only.
- TodoListing.SortRows: ties are kept in input order. PostgreSQL leaves the order among equal keys unspecified, so only sortedness and permutation are promised.
- The exact wording of driver messages inside `Failed to …: <message>` is a fixed text per constraint, not the driver's text.
- When a row breaks several constraints, the one reported is chosen in a fixed order: widths, then checks, then unique keys.
- Base.ParseIntJs: the contract speaks only of all-digit text. Leading whitespace, signs and trailing non-digits are handled in its body, and `Validation.PaginationReadsLeadingDigits` exercises them.
- AuthSchema.RegisterSchema, AuthSchema.LoginSchema, AuthSchema.UpdateProfileSchema: their own contracts only say that an object is required. The full acceptance rule is in the `…Rule` lemma beside each.
- TodoService.CreateTodo: it follows the corrected create named under "## Findings", which stores `completed_at = NOW()` for a todo created as completed. The insert as written is `TodoService.CreateTodoAsWritten`.
- TodoService.CreateTodoAsWritten: its contract states only that no completion time is stored. The consequence is in `TodoService.CompletedCreateRefused`.
- The controllers, the routes and `asyncHandler` are left out. They are HTTP glue that renames fields and forwards promise rejections.
- The rate limiter is left out. Its counting happens inside a library that is not part of this model.
- `requestLogger` (morgan formats), `requestIdMiddleware` and `errorLogger` are left out. They are clock, randomness and log sinks. The log record's `ip`, `userAgent` and `contentLength` are not modelled.
- `JSON.stringify` of the logged body is left out. The model keeps the redacted map.
- The type declarations that disagree with the table definitions are not modelled. The service reads and writes a single `starred` flag, and the model has that one flag.

## Findings

| source | as written | input that shows it | evidently intended | confidence | as-written member | corrected member |
|---|---|---|---|---|---|---|
| backend/src/services/todo.service.ts:85-95 | `createTodo` inserts the given status but never sets `completed_at`, so the `todo_completed_logic` check refuses a todo created with status `completed` and the request ends as a 500 database error | a valid create body with `"status": "completed"` for a live user | a todo created as completed gets `completed_at = NOW()`, as `updateTodo` does for the same status | not executed | TodoService.CreateTodoAsWritten | TodoService.CreateTodoResult |
