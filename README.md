# moodle-mcp-server, modelled in Dafny

This project models the data logic of `moodle-mcp-server`. The server is a Model Context Protocol (MCP) bridge: it answers `tools/list` with a catalog of Moodle tools. It answers `tools/call` by making one or more Moodle web-service calls (`core_course_get_courses`, `mod_assign_get_submissions`, ...), reshaping the JSON replies and returning them as a text block. Failures are classified into error replies or rethrown protocol errors.

The repository has two copies of this logic:

- The **modular** copy is `src/server.ts` plus `src/tools/`. It has 13 tools, four of them for forums, and it checks that list replies are arrays (`validateArrayResponse`).
- The **monolithic** copy is `src/index.ts`. It has the nine older tools and has no shape check.

Each handler is modelled once. Where the copies differ, the model takes a `Layout` parameter (`Modular` or `Monolithic`).

## How the pieces map

| file | module | what it holds |
|---|---|---|
| `js.dfy` | `Js` | JSON values as JavaScript sees them, plus the few language rules the code relies on: truthiness, `||`, `===`, `typeof`, `String(x)`, optional chaining, and the `TypeError` thrown by reading a property of `null`/`undefined` or calling an array method on a non-array. It also has the throwing forms of `filter`, `map`, `find` and `some`. |
| `normalize.dfy` | `Normalize` | HTML stripping (`replace(/<[^>]*>/g, '')` then `trim()`), truncation (`substring(0, n)`), the "falsy timestamp is null" rule, `=== 1` flags, and the `{...record, date: ...}` reshape. |
| `moodle_client.dfy` | `MoodleClient` | The upstream as an oracle `Client = Request -> Reply`, course-id resolution and response-shape validation. |
| `courses.dfy`, `students.dfy`, `assignments.dfy`, `quizzes.dfy`, `forums.dfy` | same names | One handler per tool, each returning `Run(result, calls)`: the result or the thrown exception, and the upstream requests issued, in order. |
| `server.dfy` | `Server` | The tool catalog, name routing, and the `try/catch` classification of `tools/call`. |

Modelling choices in brief:

- Thrown exceptions are the `Err` side of `Js.Result`. There are three kinds:
  - `TypeError`, thrown by the JavaScript runtime.
  - `McpError(code, message)`, for InvalidParams, InternalError and MethodNotFound.
  - `AxiosError(responseData, message)`, an HTTP failure.
- The `calls` trace lets the contracts state that validation happens "before any upstream call".
- The `Promise.all` fan-out in `get_submissions` is a sequential, order-preserving map that stops at the first failure.
- The plugin scan of `get_submission_content` is the one place where the source mutates state: two `for` loops reassign `submissionText` and push onto `files`. It is modelled twice:
  - `Assignments.ScanPlugins`, a method with the same loops, proved equal to the fold `Assignments.Scan`.
  - Properties of `Scan`, proved as lemmas.
- The server resolves the default course id from the `MOODLE_COURSE_ID` environment variable. The model receives it as `Config.defaultCourseId`.
- Where the documented behaviour and the code differ, the model follows the code:
  - Stripping removes only complete `<...>` runs, so a stray `<` with no later `>`, or a lone `>`, stays in the text (`Normalize.StrayBracketsRemain`).
  - A `courseId` of `[]` is truthy, but `String([])` is empty, so it resolves to the course id `""` (`MoodleClient.EmptyArrayCourseIdResolvesToEmpty`).

## Model

| member | source | states |
|---|---|---|
| Js.NatToDecimal | src/moodle-client.ts:31 | the decimal form of a number is a non-empty run of digits |
| Js.IntToDecimal | src/moodle-client.ts:31 | `String(n)` of an integer is never empty |
| Js.TruthyScalarHasNonEmptyString | src/moodle-client.ts:30-31 | a truthy value that is not an array prints as a non-empty string |
| Js.EmptyArrayPrintsEmpty | src/moodle-client.ts:30-31 | `[]` is truthy, yet `String([])` is empty |
| Js.Get | src/tools/courses.ts:18 | reading a property throws a TypeError exactly on null/undefined; otherwise it yields the property, or undefined when absent |
| Js.OptGet | src/moodle-client.ts:30 | `x?.k` is undefined on null/undefined and the property otherwise; it never throws |
| Js.ArrayMethod | src/tools/courses.ts:16 | an array method exists exactly on arrays; on anything else the call is a TypeError |
| Js.StringMethod | src/tools/courses.ts:22 | a string method exists exactly on strings; on anything else the call is a TypeError |
| Js.Iterate | src/tools/assignments.ts:186 | `for...of` accepts exactly arrays and strings, giving an array's elements in order |
| Js.FilterKeepsAcceptedInOrder | src/tools/courses.ts:16 | a completed `filter` keeps exactly the accepted elements, as a strictly increasing selection of positions |
| Js.FilterThrowsIffCallbackThrows | src/tools/students.ts:18 | `filter` throws exactly when its callback throws on some element |
| Js.MapAllPointwise | src/tools/courses.ts:17-24 | a completed `map` has one result per element, each the callback's value at that element |
| Js.MapAllOkIffPointwiseOk | src/tools/courses.ts:53-65 | `map` completes exactly when its callback completes on every element |
| Js.MapAllStep | src/tools/assignments.ts:197-204 | extending a mapped prefix by one element either appends its value or ends the whole map with its error |
| Js.MapAllStopsAfter | src/tools/assignments.ts:197-204 | once a prefix throws, the whole map throws that error |
| Js.MapAllErrorFromCallback | src/tools/assignments.ts:197-204 | a failed map's error is the callback's error at some element |
| Js.FindFirstAccepted | src/tools/assignments.ts:93 | `find` yields the first accepted element, or undefined when the callback rejected every element |
| Js.FindTotal | src/tools/assignments.ts:93 | `find` completes when its callback completes on every element |
| Js.FindErrorFromCallback | src/tools/assignments.ts:188 | a failed `find`'s error is the callback's error at some element |
| Js.AnyMeansSomeAccepted | src/tools/students.ts:18 | `some` is true exactly when some element is accepted, and false only when every element is rejected |
| Js.Truthy | src/moodle-client.ts:30 | JavaScript truthiness: false exactly on undefined, null, false, 0 and "" (numbers are integers here, so NaN does not arise) |
| Js.Nullish | src/tools/courses.ts:58 | null or undefined, where `?.` stops |
| Js.Or | src/tools/assignments.ts:18 | `a \|\| b`: `a` when truthy, else `b` |
| Js.StrictEq | src/tools/courses.ts:16 | `===` on JSON values: equal scalars of the same type; two arrays or objects from JSON are never identical |
| Js.TypeOf | src/moodle-client.ts:44-52 | `typeof v` for each kind of JSON value |
| Js.DigitChar | src/moodle-client.ts:31 | the character of one decimal digit |
| Js.JoinWithCommas | src/moodle-client.ts:31 | `Array.prototype.join` with its default comma separator |
| Js.JsString | src/moodle-client.ts:31 | `String(v)`: an array joins its elements with commas, writing null and undefined as "" |
| Js.Prop | src/tools/courses.ts:18-23 | the own data field of an object, else undefined |
| Js.Index | src/tools/assignments.ts:77 | `v[i]`: a TypeError on null or undefined, the element of an array, else undefined |
| Js.Filter | src/tools/courses.ts:16 | `xs.filter(keep)`, stopping at the first callback error; `FilterKeepsAcceptedInOrder` states it |
| Js.MapAll | src/tools/courses.ts:17-24 | `xs.map(f)`, stopping at the first callback error; the `MapAll*` lemmas state it |
| Js.Find | src/tools/assignments.ts:17 | `xs.find(p)`, stopping at the first acceptance; the `Find*` lemmas state it |
| Js.Any | src/tools/students.ts:18 | `xs.some(p)`, stopping at the first acceptance; `AnyMeansSomeAccepted` states it |
| Normalize.CloseAt | src/tools/courses.ts:22 | the `[^>]*>` part of the tag pattern ends at the first `>` at or after the start |
| Normalize.WithDates | src/tools/assignments.ts:20-25 | `{...a, d: a.d ? date : null}`: each date key holds its converted date; every other own field of the record is copied unchanged; no other key appears; spreading null/undefined throws only when a date is read |
| Normalize.DateOrNullZeroIsUnset | src/tools/students.ts:25 | a timestamp is null exactly when the upstream value is falsy (0, null, absent) |
| Normalize.IsOneOnlyForNumberOne | src/tools/courses.ts:21 | `x === 1` holds only for the number 1, not for `true` or `"1"` |
| Normalize.TrimStartKeepsSuffix | src/tools/courses.ts:22 | trimming the start removes exactly the leading whitespace and keeps the rest as a suffix |
| Normalize.TrimEndKeepsPrefix | src/tools/courses.ts:22 | trimming the end removes exactly the trailing whitespace and keeps the rest as a prefix |
| Normalize.TrimEndKeepsFirst | src/tools/courses.ts:22 | trimming the end of a string without leading whitespace leaves none |
| Normalize.TrimIsTrimmed | src/tools/courses.ts:22 | `trim()` yields a contiguous slice of the input with whitespace at neither end |
| Normalize.TrimStartOfTrimmed | src/tools/courses.ts:22 | trimming the start changes nothing when there is no leading whitespace |
| Normalize.TrimEndOfTrimmed | src/tools/courses.ts:22 | trimming the end changes nothing when there is no trailing whitespace |
| Normalize.TrimIdempotent | src/tools/courses.ts:22 | trimming twice is trimming once |
| Normalize.StripTagsKeepsOnlyInputChars | src/tools/courses.ts:22 | tag removal only deletes characters; it never introduces one |
| Normalize.StripTagsLeavesNoTag | src/tools/courses.ts:22 | after tag removal no `<` is followed anywhere later by `>` |
| Normalize.StripTagsOfNoTag | src/tools/courses.ts:22 | text without a tag is left unchanged by tag removal |
| Normalize.NoTagSlice | src/tools/courses.ts:22 | every slice of tag-free text is tag-free, so truncation keeps the property |
| Normalize.StripHtmlLeavesNoTag | src/tools/forums.ts:5-7 | `stripHtml` leaves no tag |
| Normalize.StripHtmlIdempotent | src/tools/forums.ts:5-7 | `stripHtml(stripHtml(h)) == stripHtml(h)` |
| Normalize.TruncateIsBoundedPrefix | src/tools/courses.ts:22 | `substring(0, n)` is a prefix of at most `n` characters: the whole text when it is short enough, exactly `n` otherwise |
| Normalize.StrippedAndTruncatedHasNoTag | src/tools/courses.ts:22 | a stripped, cut summary is tag-free and within the limit |
| Normalize.StrayBracketsRemain | src/tools/courses.ts:22 | an unmatched `<` or a lone `>` survives stripping |
| Normalize.IsJsWhitespace | src/tools/courses.ts:22 | the characters `trim()` removes: ECMAScript white space and line terminators |
| Normalize.TrimStart | src/tools/courses.ts:22 | the text after its leading whitespace; `TrimStartKeepsSuffix` states it |
| Normalize.TrimEnd | src/tools/courses.ts:22 | the text before its trailing whitespace; `TrimEndKeepsPrefix` states it |
| Normalize.Trim | src/tools/courses.ts:22 | `trim()`: both ends trimmed; `TrimIsTrimmed` and `TrimIdempotent` state it |
| Normalize.Trimmed | src/tools/courses.ts:22 | no whitespace at either end |
| Normalize.StripTags | src/tools/courses.ts:22 | `replace(/<[^>]*>/g, '')`: each `<` with a later `>` starts a match that ends at the first such `>`, is removed, and scanning resumes after it; the `StripTags*` lemmas state it |
| Normalize.StripHtml | src/tools/forums.ts:5-7 | `stripHtml`: tag removal, then `trim()`; `StripHtmlLeavesNoTag` and `StripHtmlIdempotent` state it |
| Normalize.Truncate | src/tools/courses.ts:22 | `substring(0, n)`; `TruncateIsBoundedPrefix` states it |
| Normalize.NoTag | src/tools/courses.ts:22 | no `<` is followed anywhere later by `>` |
| Normalize.DateOrNull | src/tools/students.ts:25 | `v ? new Date(v * 1000).toISOString() : null`; `DateOrNullZeroIsUnset` states it |
| Normalize.IsOne | src/tools/courses.ts:21 | `v === 1`; `IsOneOnlyForNumberOne` states it |
| Normalize.Spread | src/tools/assignments.ts:21 | the own fields `{...a}` copies from a record |
| MoodleClient.Fetch | src/tools/courses.ts:7-11 | `await client.get(...)` yields the reply body, or throws the axios error carrying the response body and message |
| MoodleClient.GetCourseId | src/moodle-client.ts:29-40 | a truthy `args.courseId` wins, as `String(courseId)`; else a non-empty default; else InvalidParams with the fixed message, and that happens exactly when neither is present (index.ts:139-150 follows the same rule) |
| MoodleClient.ExplicitCourseIdIgnoresDefault | src/moodle-client.ts:30-31 | with a truthy `courseId` the configured default does not matter |
| MoodleClient.ResolvedCourseIdNonEmpty | src/moodle-client.ts:29-35 | a resolved course id is non-empty unless `courseId` was an array |
| MoodleClient.EmptyArrayCourseIdResolvesToEmpty | src/moodle-client.ts:30-31 | `courseId: []` is truthy and resolves to the empty id |
| MoodleClient.CourseIdErrorMentionsRequirement | src/moodle-client.ts:36-39 | the resolution error is an McpError whose message starts with "courseId is required" |
| MoodleClient.ValidateArrayResponse | src/moodle-client.ts:42-55 | passes exactly on arrays; every failure is InternalError; an object with a truthy `exception`, `errorcode` or `message` reports "Moodle API error in <context>: " plus its embedded message; anything else reports "expected array, got <typeof>" |
| MoodleClient.EmbeddedErrorPrecedence | src/moodle-client.ts:47 | the embedded message is `message`, else `errorcode`, else "Unknown error" |
| MoodleClient.NullIsUnexpectedObject | src/moodle-client.ts:50-53 | null takes the "expected array, got object" branch, not the marker branch |
| MoodleClient.AxiosDetail | src/server.ts:100-102 | `error.response?.data?.message \|\| error.message`, as text |
| MoodleClient.HasErrorMarker | src/moodle-client.ts:44 | a truthy object with a truthy `exception`, `errorcode` or `message` |
| MoodleClient.EmbeddedError | src/moodle-client.ts:47 | `data.message \|\| data.errorcode \|\| 'Unknown error'`, as text; `EmbeddedErrorPrecedence` states it |
| Courses.IsNotSiteCourse | src/tools/courses.ts:16 | the filter keeps a course exactly when its id is not 1, and throws on a null entry |
| Courses.CourseSummary | src/tools/courses.ts:22 | a falsy summary gives ""; a string is stripped, trimmed and cut to at most 200 characters with no tag left; a truthy non-string throws |
| Courses.ShapeCourse | src/tools/courses.ts:17-24 | id, shortname, fullname and categoryid are copied; `visible` is true exactly when the upstream flag is 1; the summary is `CourseSummary` of the upstream summary, so it is bounded and tag-free; a null record or a truthy non-string summary throws |
| Courses.DefaultNote | src/tools/courses.ts:26-28 | the trailer names the configured default course id, or says that none is configured |
| Courses.ListCourses | src/tools/courses.ts:4-38 | one `core_course_get_courses` call; an HTTP failure is that axios error; on a reply the result is the course list computed from its body (`CourseListIsNonSiteCourses` says which courses) with the default-course trailer |
| Courses.ShapeCourseList | src/tools/courses.ts:13-24 | the shape check (modular copy only), then the courses other than id 1, each shaped; `CourseListIsNonSiteCourses` and `CourseListLayouts` state it |
| Courses.CourseListIsNonSiteCourses | src/tools/courses.ts:15-24 | the listed courses are exactly the input records whose id is not 1, in input order, each shaped by `ShapeCourse` |
| Courses.CourseListEntriesAreClean | src/tools/courses.ts:16-22 | no listed course has id 1 and every summary is at most 200 characters and tag-free |
| Courses.CourseListLayouts | src/index.ts:373-382 | both copies agree on array bodies; on any other body the modular copy fails its shape check and the monolithic copy throws a TypeError at `.filter` |
| Courses.ShapeModule | src/tools/courses.ts:58-64 | module id, name, modname and url copied, `visible` exactly when the flag is 1; only a null module throws |
| Courses.SectionModules | src/tools/courses.ts:58-64 | `section.modules?.map(...) \|\| []`: absent modules give `[]`, a non-array throws, an array maps pointwise |
| Courses.SectionSummary | src/tools/courses.ts:56 | the section summary is stripped and trimmed, so it has no tag and no surrounding whitespace |
| Courses.ShapeSection | src/tools/courses.ts:53-65 | the name is the upstream name when truthy, else "Section <section>"; `visible` exactly when the flag is 1; the summary is `SectionSummary` of the upstream one, so it is tag-free and trimmed; the modules are `SectionModules` of the upstream list, `[]` when absent |
| Courses.GetCourseContents | src/tools/courses.ts:40-75 | an unresolvable course id fails before any call; otherwise exactly one `core_course_get_contents` call for the resolved id; an HTTP failure is that axios error; a reply gives the sections computed from its body (`SectionsFollowInput` says what they are) |
| Courses.ShapeSections | src/tools/courses.ts:51-65 | the shape check (modular copy only), then one shaped section per upstream section; `SectionsFollowInput` and `SectionsRejectNonArray` state it |
| Courses.ContentsRequest | src/tools/courses.ts:44-49 | the `core_course_get_contents` call for one course id |
| Courses.SectionsFollowInput | src/tools/courses.ts:53-65 | one section per input section, in order, each with a non-empty name and a tag-free summary |
| Courses.SectionsRejectNonArray | src/tools/courses.ts:51 | a non-array body fails the shape check in the modular copy and throws a TypeError at `.map` in the monolithic copy |
| Students.IsStudentRole | src/tools/students.ts:18 | a role matches exactly when its shortname is the string "student" |
| Students.HasStudentRole | src/tools/students.ts:18 | a user without roles is dropped, not an error |
| Students.ShapeStudent | src/tools/students.ts:19-26 | each record has exactly id, username, firstname, lastname, email and lastaccess |
| Students.GetStudents | src/tools/students.ts:4-36 | fails before any call when no course id resolves; otherwise one enrolled-users call; an HTTP failure is that axios error; a reply gives the resolved id and the students computed from its body by `ShapeStudents` (`StudentsAreStudentUsers` says which) |
| Students.ShapeStudents | src/tools/students.ts:15-26 | the shape check (modular copy only), then the users with a student role, each shaped; `StudentsAreStudentUsers` states it |
| Students.StudentsRequest | src/tools/students.ts:8-13 | the `core_enrol_get_enrolled_users` call for one course id |
| Students.StudentRoleMeansSomeStudentRole | src/tools/students.ts:18 | a user is kept exactly when some role in `roles` has shortname "student" |
| Students.StudentsAreStudentUsers | src/tools/students.ts:17-26 | the students are an order-preserving subsequence of the users, exactly those holding the student role, each shaped into the six fields |
| Students.LastAccessUnsetIffFalsy | src/tools/students.ts:25 | `lastaccess` is null exactly when the upstream value is falsy |
| Students.StudentsRejectNonArray | src/tools/students.ts:15 | a non-array body fails before filtering: the shape-check error in the modular copy, a TypeError in the monolithic one |
| Students.StudentLayoutsAgreeOnArrays | src/index.ts:437-467 | both copies agree on every array body |
| Assignments.IsCourseWrapper | src/tools/assignments.ts:17 | a wrapper matches exactly when `String(c.id)` equals the course id |
| Assignments.AssignmentsRequest | src/tools/assignments.ts:10-15 | the `mod_assign_get_assignments` call for one course id |
| Assignments.CourseAssignments | src/tools/assignments.ts:17-18 | a missing `courses` gives an empty list; the result is always a truthy value |
| Assignments.CourseAssignmentsOfFirstWrapper | src/tools/assignments.ts:17-18 | the assignments are those of the first matching wrapper (or `[]` when it has none), and `[]` when no wrapper matches |
| Assignments.GetAssignments | src/tools/assignments.ts:6-35 | fails before any call when no course id resolves; otherwise one `mod_assign_get_assignments` call for that id; an HTTP failure is that axios error; a reply gives the listing of the matching wrapper's assignments, each mapped through the date conversion (`AssignmentsKeepFieldsAndConvertDates` says what each entry holds) |
| Assignments.AssignmentsKeepFieldsAndConvertDates | src/tools/assignments.ts:17-25 | one listed assignment per assignment of the matching course wrapper, in order; each is its upstream record with duedate, allowsubmissionsfromdate and cutoffdate converted (null when falsy) and every other field unchanged |
| Assignments.NarrowBy | src/tools/assignments.ts:54-56 | a falsy wanted value leaves the list as it is; otherwise the result is an array, and a non-array list throws |
| Assignments.HasFieldValue | src/tools/assignments.ts:55 | an entry matches exactly when its field is `===` the wanted value; only a null/undefined entry throws, with a TypeError (also the editor-field and file-area tests at lines 188 and 195) |
| Assignments.FindWithFieldIsFirst | src/tools/assignments.ts:188-195 | a completed `find(x => x.<field> === wanted)` yields the first element whose field is `wanted`, or undefined when none is |
| Assignments.IsFirstWith | src/tools/assignments.ts:188 | `v` is the first element whose field is `=== wanted`, or undefined when none is |
| Assignments.NarrowByKeepsMatches | src/tools/assignments.ts:88-90 | narrowing keeps exactly the entries whose field equals the wanted value, in order |
| Assignments.LengthIsZero | src/tools/assignments.ts:58 | `.length === 0` is the array-emptiness test on arrays and throws on null/undefined |
| Assignments.FirstAssignmentField | src/tools/assignments.ts:77 | `data.assignments[0]?.<field> \|\| []` throws on a null body and is always truthy |
| Assignments.SameUser | src/tools/assignments.ts:93 | a grade record matches exactly when its userid is `===` the submission's |
| Assignments.GradeSubmission | src/tools/assignments.ts:92-101 | userid and status copied; `timemodified` converted without a falsy check; a non-array grade list throws |
| Assignments.GradeIsFirstMatchOrNotGraded | src/tools/assignments.ts:93-99 | the grade is the first same-user grade record's grade, or "Not graded" when there is none |
| Assignments.JoinIsLeftJoin | src/tools/assignments.ts:88-106 | one graded entry per narrowed submission, in order, and "No submissions" exactly when there is none |
| Assignments.JoinKeepsOnlyTheStudent | src/tools/assignments.ts:88-90 | with a truthy student id every entry belongs to that student |
| Assignments.JoinAssignment | src/tools/assignments.ts:88-106 | the left join of one assignment: its submissions narrowed to the student when `studentId` is truthy, each graded against the grade list, "No submissions" when none remain; `JoinIsLeftJoin` states it |
| Assignments.SubmissionsRequest | src/tools/assignments.ts:70-75 | the `mod_assign_get_submissions` call for one assignment id |
| Assignments.GradesRequest | src/tools/assignments.ts:79-84 | the `mod_assign_get_grades` call for one assignment id |
| Assignments.AssignmentRun | src/tools/assignments.ts:69-108 | a null target throws a TypeError before any call; an HTTP failure of the submissions call is that axios error after that one call; an unreadable submissions body (`data.assignments[0]` on a null body) is that TypeError after that one call; once the submissions are read the grades call follows, its HTTP failure is that axios error, and otherwise the result is the grades field read from its body, then the join, then the record naming the assignment (so an unreadable grades body or a failing join is that TypeError); conversely an Ok result implies both calls answered and the join completed |
| Assignments.CollectAllPointwise | src/tools/assignments.ts:110 | a completed fan-out has one result per target, in target order |
| Assignments.CollectAllCalls | src/tools/assignments.ts:69-86 | a completed fan-out issued exactly two calls per target, in target order: the target's submissions call at `2i`, its grades call at `2i + 1` |
| Assignments.CollectAllFailsAtFirstFailure | src/tools/assignments.ts:110 | a failed fan-out fails with the error of its first failing target, every earlier target's run having completed |
| Assignments.CollectAll | src/tools/assignments.ts:69-110 | `Promise.all(targets.map(...))` taken in target order: the targets' runs one after another, stopping at the first failure; `CollectAllPointwise`, `CollectAllCalls` and `CollectAllFailsAtFirstFailure` state what it yields |
| Assignments.SubmissionTargets | src/tools/assignments.ts:51-56 | the first matching course wrapper's assignments, narrowed to `assignmentId` when that is truthy; a null body or a non-array to filter throws |
| Assignments.PairedCallsCons | src/tools/assignments.ts:69-86 | prepending one target's two calls keeps every target's pair of calls at positions `2i` and `2i + 1` |
| Assignments.GetSubmissions | src/tools/assignments.ts:37-120 | fails before any call when no course id resolves; otherwise the first call fetches the course's assignments and an HTTP failure of it is that axios error after that one call; a reply gives exactly: the targets' error, or `length`'s error, or "No assignments found" when `length === 0`, or `.map`'s error, or the fan-out's error, or the report of the fan-out's results under the resolved id |
| Assignments.ReportIsFanOut | src/tools/assignments.ts:58-110 | a report is the fan-out over the targets of the first reply: its results are the fan-out's results and its calls are the assignments call followed by the fan-out's calls |
| Assignments.NoTargetsShortCircuit | src/tools/assignments.ts:58-67 | when the targets have `length === 0` (an empty array, or an object whose `length` is 0) the reply is "No assignments found", after exactly one call |
| Assignments.FailedTargetFailsSubmissions | src/tools/assignments.ts:69-110 | when some target's work fails, the whole call fails with the error of the first failing target, and every earlier target's run completed |
| Assignments.NoAssignmentsFoundMeansNoTargets | src/tools/assignments.ts:58-67 | conversely, "No assignments found" comes only from a first reply whose targets have `length === 0` |
| Assignments.ReportFollowsTargets | src/tools/assignments.ts:69-119 | a report has one result per target, in order, and each result is that target's `AssignmentRun`: its name, its id and the join of its submissions with its grades; the calls are the assignments call, then for target `i` its submissions call at `1 + 2i` and its grades call at `2 + 2i` |
| Assignments.ProvideFeedback | src/tools/assignments.ts:122-159 | a falsy studentId, assignmentId or feedback is InvalidParams before any call; otherwise one save-grade call, success text exactly when the call succeeds |
| Assignments.FeedbackRequestValues | src/tools/assignments.ts:132-149 | the grade is the caller's when truthy, else 0; the attempt is -1; the workflow state is "released" |
| Assignments.FeedbackRequest | src/tools/assignments.ts:132-149 | the `mod_assign_save_grade` call with the caller's ids, grade and feedback and the fixed values; `FeedbackRequestValues` states them |
| Assignments.TextField | src/tools/assignments.ts:188 | absent editor fields give undefined; a non-array throws; otherwise the result is the first editor field named "onlinetext", or undefined when there is none; only TypeErrors escape |
| Assignments.FilesArea | src/tools/assignments.ts:195 | absent file areas give undefined; a non-array throws; otherwise the result is the first area whose `area` is "submission_files", or undefined when there is none; only TypeErrors escape |
| Assignments.ShapeFile | src/tools/assignments.ts:198-203 | a file entry copies filename, fileurl and filesize verbatim and reports `mimetype` as filetype; only a null file throws |
| Assignments.PluginContribution | src/tools/assignments.ts:186-206 | an onlinetext plugin contributes the text of its first "onlinetext" editor field (`''` when that text is falsy, nothing without such a field); a file plugin contributes one `ShapeFile` entry per file of its first "submission_files" area, in order, and nothing when that area or its files are falsy; other plugins contribute nothing; a null plugin throws a TypeError |
| Assignments.Scan | src/tools/assignments.ts:183-207 | the scan fails only with a TypeError |
| Assignments.ScanIsLastTextAndAllFiles | src/tools/assignments.ts:183-207 | the text is the last contributed text and the files are all contributed files in plugin order; the scan throws exactly when some plugin does |
| Assignments.Absorb | src/tools/assignments.ts:189-204 | one plugin's contribution applied to the scan's two variables: its text, if any, replaces `submissionText`; its files are appended to `files` |
| Assignments.LastText | src/tools/assignments.ts:183-192 | the text of the last contribution that has one, else "" |
| Assignments.AllFiles | src/tools/assignments.ts:184-205 | all contributed files, in plugin order |
| Assignments.LastTextIsTheLastOne | src/tools/assignments.ts:187-191 | the final text is the one the last contributing plugin gave, or "" when none did |
| Assignments.ScanStep | src/tools/assignments.ts:186 | one more plugin either extends the scanned prefix or ends the scan with its error |
| Assignments.ScanStopsAfter | src/tools/assignments.ts:186 | once a prefix throws, the whole scan throws that error |
| Assignments.ScanPlugins | src/tools/assignments.ts:183-207 | the outer loop over the plugins, which reassigns the text and pushes the files, computes exactly `Scan` |
| Assignments.ScanPlugin | src/tools/assignments.ts:186-206 | one pass of the outer loop body updates the text and the files by exactly that plugin's contribution, or throws its error |
| Assignments.PushFiles | src/tools/assignments.ts:197-204 | the inner loop appends one `ShapeFile` entry per file, in order, to the files already collected, or throws the first file's error |
| Assignments.BuildContent | src/tools/assignments.ts:180-225 | the output always has exactly the two blocks `[onlinetext, file]`, holding the scan's text and files; status defaults to "unknown", timemodified to 0 |
| Assignments.ContentRequest | src/tools/assignments.ts:172-178 | the `mod_assign_get_submission_status` call for the caller's assignment and student |
| Assignments.SubmittedPlugins | src/tools/assignments.ts:181 | `data.lastattempt?.submission?.plugins \|\| []`: the plugin list, or `[]` when it is absent or falsy |
| Assignments.GetSubmissionContent | src/tools/assignments.ts:161-252 | a falsy studentId or assignmentId is InvalidParams before any call; otherwise one submission-status call; an HTTP failure becomes the "Error getting submission content: " reply; a reply gives the content `BuildContent` computes from its body, so its plugins are exactly `[onlinetext, file]`; only TypeErrors and that InvalidParams escape |
| Quizzes.ShapeQuizzes | src/tools/quizzes.ts:17-23 | an absent or falsy `quizzes` field gives an empty list; a null body or a truthy non-array `quizzes` throws a TypeError |
| Quizzes.GetQuizzes | src/tools/quizzes.ts:6-33 | fails before any call when no course id resolves; otherwise one quizzes call; an HTTP failure is that axios error; a reply gives the resolved id and the quizzes `ShapeQuizzes` computes from its body |
| Quizzes.QuizzesRequest | src/tools/quizzes.ts:10-15 | the `mod_quiz_get_quizzes_by_courses` call for one course id |
| Quizzes.QuizzesKeepFieldsAndConvertDates | src/tools/quizzes.ts:19-23 | each quiz is its upstream record with timeopen and timeclose converted (null when falsy) and every other field unchanged |
| Quizzes.GradeOf | src/tools/quizzes.ts:54-59 | `hasGrade` mirrors the upstream flag; the grade is the upstream grade when the flag is truthy, else "Not graded" |
| Quizzes.GetQuizGrade | src/tools/quizzes.ts:35-86 | a falsy studentId or quizId is InvalidParams before any call; an HTTP failure becomes the "Error getting quiz grade: " reply |
| Quizzes.GradeRequest | src/tools/quizzes.ts:46-52 | the `mod_quiz_get_user_best_grade` call for the caller's quiz and student |
| Quizzes.QuizGradeErrorPrefersUpstreamMessage | src/tools/quizzes.ts:76-78 | the error reply quotes the upstream message when it is truthy |
| Forums.ForumIntro | src/tools/forums.ts:27 | a falsy intro gives ""; a string is stripped and cut to at most 200 characters, leaving no tag |
| Forums.ShapeForum | src/tools/forums.ts:22-31 | id, course, type and name copied; the intro is `ForumIntro` of the upstream intro, so it is bounded and tag-free; duedate, cutoffdate and timemodified are null when falsy |
| Forums.GetForums | src/tools/forums.ts:9-41 | fails before any call when no course id resolves; otherwise one forums call; an HTTP failure is that axios error; a reply gives the resolved id and the forums `ShapeForums` computes from its body |
| Forums.ShapeForums | src/tools/forums.ts:20-31 | the shape check, then one shaped forum per upstream forum; `ForumsFollowInput` states it |
| Forums.ForumsRequest | src/tools/forums.ts:13-18 | the `mod_forum_get_forums_by_courses` call for one course id |
| Forums.ForumsFollowInput | src/tools/forums.ts:20-31 | a non-array body fails the shape check; otherwise one forum per upstream forum, in order |
| Forums.DiscussionMessage | src/tools/forums.ts:67 | the message is a prefix of the upstream message of at most 500 characters, not stripped; a short message is kept whole |
| Forums.ShapeDiscussion | src/tools/forums.ts:62-76 | id, discussion, name, subject, userfullname, userid, numreplies, pinned, locked and canreply copied; the message is `DiscussionMessage` of the upstream one, so it is at most 500 characters; created and modified are null when falsy |
| Forums.ShapeDiscussions | src/tools/forums.ts:60 | an absent `discussions` field gives an empty list; a null body or a truthy non-array `discussions` throws a TypeError |
| Forums.GetForumDiscussions | src/tools/forums.ts:43-86 | a falsy forumId is InvalidParams "Forum ID is required" before any call; otherwise one discussions call; an HTTP failure is that axios error; a reply gives the forum id and the discussions `ShapeDiscussions` computes from its body |
| Forums.DiscussionsRequest | src/tools/forums.ts:53-58 | the `mod_forum_get_forum_discussions` call for the caller's forum |
| Forums.DiscussionsFollowInput | src/tools/forums.ts:60-76 | one discussion per upstream discussion, in order, each message a bounded prefix of the upstream one |
| Forums.CreateForumDiscussion | src/tools/forums.ts:88-115 | without a truthy forumId, subject and message the call is InvalidParams before any call; otherwise one add-discussion call: an HTTP failure is that axios error, a null body throws a TypeError, and any other body gives the success text naming the forum and the new discussion id |
| Forums.CreateRequest | src/tools/forums.ts:98-105 | the `mod_forum_add_discussion` call with the caller's forum, subject and message |
| Forums.ReplyToForumDiscussion | src/tools/forums.ts:117-144 | without a truthy postId and message the call is InvalidParams before any call; otherwise one add-post call: an HTTP failure is that axios error, a null body throws a TypeError, and any other body gives the success text naming the new post id |
| Forums.ReplyRequest | src/tools/forums.ts:127-134 | the `mod_forum_add_discussion_post` call with the caller's post and message, and the subject `ReplySubjectDefault` states |
| Forums.ReplySubjectDefault | src/tools/forums.ts:131 | the reply's subject is the caller's when truthy, else "Re: " |
| Server.ListTools | src/server.ts:52-54 | the catalog names in listing order, no name twice |
| Server.ToolName | src/tools/definitions.ts:3-202 | the name each tool is listed and called under |
| Server.IsForumTool | src/server.ts:79-86 | the four forum tools, which only the modular copy has |
| Server.Catalog | src/server.ts:52-54 | the tool definitions each copy lists, in order |
| Server.ListedTools | src/tools/definitions.ts:3-202 | the modular copy lists every tool; the monolithic copy lists exactly the nine non-forum tools |
| Server.ToolNamesDistinct | src/server.ts:60-86 | no two tools share a name |
| Server.Route | src/server.ts:60-91 | a routed name is the listed name of a catalog tool; an unrouted name matches no catalog tool |
| Server.RouteFindsListedTools | src/server.ts:60-86 | a tool is in the catalog exactly when its listed name routes to it |
| Server.Lift | src/server.ts:62-86 | a handler's reply is passed on unchanged and its exception is rethrown unchanged |
| Server.Invoke | src/server.ts:60-86 | the handler each tool name is bound to, before the catch, and how its reply is rendered |
| Server.Success | src/server.ts:62-86 | a handler's JSON text reply, not marked as an error |
| Server.ReportResult | src/tools/assignments.ts:58-67 | "No assignments found" as plain text, or the report as JSON; neither is an error reply |
| Server.ContentResult | src/tools/assignments.ts:227-248 | the content as JSON, or the handler's own error text marked `isError` |
| Server.GradeResult | src/tools/quizzes.ts:54-80 | the grade as JSON, or the handler's own error text marked `isError` |
| Server.Classify | src/server.ts:93-109 | an axios error becomes the `isError` reply "Moodle API error: " plus the upstream message or its own; every other exception is rethrown; replies pass through |
| Server.CallTool | src/server.ts:56-110 | an unknown name is MethodNotFound "Unknown tool: <name>" with no call; a known name runs its handler under the catch; an axios error never escapes |
| Server.UnlistedNameIsUnknown | src/server.ts:87-91 | a name outside the catalog is refused before any upstream call |
| Server.MonolithicRefusesForumTools | src/index.ts:313-336 | the monolithic copy answers every forum tool name with MethodNotFound |
| Server.ListCoursesHttpFailureIsErrorReply | src/server.ts:95-106 | an HTTP failure of `list_courses` reaches the client as the `isError` reply, in both copies |
| Server.CreateDiscussionHttpFailureIsErrorReply | src/server.ts:95-106 | with valid arguments, an HTTP failure of the add-discussion call reaches the client as the `isError` reply "Moodle API error: ..." after that one call |
| Server.ReplyHttpFailureIsErrorReply | src/server.ts:95-106 | with valid arguments, an HTTP failure of the add-post call reaches the client as the `isError` reply "Moodle API error: ..." after that one call |
| Server.SharedToolsAgree | src/index.ts:313-354 | both copies answer every shared tool alike whenever the bodies only the modular copy shape-checks are arrays |
| Server.ArrayBodies | src/moodle-client.ts:42-55 | the upstream answers every request the modular copy shape-checks with an array, or fails over HTTP |
| Server.InvokeAgrees | src/index.ts:313-336 | the handlers of the two copies agree on every non-forum tool under that condition |
| Server.ContentsAgree | src/index.ts:401-435 | `get_course_contents` agrees across the copies under that condition |
| Server.StudentsAgree | src/index.ts:437-467 | `get_students` agrees across the copies under that condition |

## Left out

- HTTP transport: the axios instance, its base URL, token and format parameters, and the environment checks in `src/moodle-client.ts`. Each `client.get` becomes a call of the oracle `Client`, and the reply is the input.
- The MCP SDK: server construction, stdio transport, request-handler registration, SIGINT handling and `run()`. The model starts where a `tools/call` request has been parsed into a name and an argument value.
- `console.error` logging, which has no effect on replies.
- `Date.prototype.toISOString`: the epoch-to-ISO conversion is left opaque (`Timestamp.IsoOf`), and so is the RangeError it throws for a non-finite or out-of-range instant. Only the "falsy means null" rule is modelled.
- `JSON.stringify` formatting: a serialized reply carries its structured payload (`Server.Serialized`), not its text.
- Numbers are integers. Fractions, NaN, `-0` and Infinity are not modelled, so "falsy" numbers are exactly 0.
- JavaScript numbers are doubles, the model's are exact integers that always print as plain decimal digits. Beyond 2^53 the source rounds, and from 1e21 on `String(n)` switches to exponent form, so `String(args.courseId)` (src/moodle-client.ts:31) and `String(c.id) === courseId` (src/tools/assignments.ts:17) can differ from the model on such ids.
- Object spread of an array or a string, and inherited or built-in properties such as `length` on strings: `Spread` copies only an object's own fields.
- The message texts of runtime TypeErrors: the model records only that a TypeError is thrown.
- `Promise.all` concurrency: the fan-out is sequential, so request interleaving and the timing of a rejection are not modelled. A rejection does not cancel the other targets' calls in the source; the model stops at the first failure. This can change which error surfaces. Say target 1's call fails over HTTP and target 2 is null. In the source, target 2's TypeError rejects at once and wins the race, and the server rethrows it as a protocol error. The model reports target 1's axios error, which `Server.Classify` turns into an `isError` reply (src/server.ts:95-106).
- JavaScript string lengths count UTF-16 code units. The model counts `char`s, which agree for text inside the Basic Multilingual Plane.
- The regex engine itself. Tag removal is an explicit function with the same leftmost, non-overlapping `<[^>]*>` semantics.
- The input schemas and descriptions of the tool catalog (`src/tools/definitions.ts` and the inline list in `src/index.ts`). Only the names and their order are modelled.
- Assignments.GradeSubmission: `new Date(undefined * 1000).toISOString()` throws a RangeError in the source. The model records the opaque `IsoOf(timemodified)` instead.
- Forums.ShapeDiscussions: the contract covers the missing-field default and the error cases. `Forums.DiscussionsFollowInput` states the discussions of an array.
- Server.ListTools: only the names are listed, not the full tool definitions.
