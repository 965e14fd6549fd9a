/** The MCP surface: the tool catalog (`tools/list`) and the `tools/call`
    dispatcher with its error classification, for both copies of the
    server (the modular `src/server.ts` and the monolithic `src/index.ts`). */
module Server {
  import opened Js
  import opened MoodleClient
  import Courses
  import Students
  import Assignments
  import Quizzes
  import Forums

  datatype Tool =
    | ListCoursesTool | GetCourseContentsTool | GetStudentsTool | GetAssignmentsTool | GetQuizzesTool
    | GetSubmissionsTool | ProvideFeedbackTool | GetSubmissionContentTool | GetQuizGradeTool
    | GetForumsTool | GetForumDiscussionsTool | CreateForumDiscussionTool | ReplyToForumDiscussionTool

  /** The name a tool is listed and called under. */
  function ToolName(t: Tool): string {
    match t
    case ListCoursesTool => "list_courses"
    case GetCourseContentsTool => "get_course_contents"
    case GetStudentsTool => "get_students"
    case GetAssignmentsTool => "get_assignments"
    case GetQuizzesTool => "get_quizzes"
    case GetSubmissionsTool => "get_submissions"
    case ProvideFeedbackTool => "provide_feedback"
    case GetSubmissionContentTool => "get_submission_content"
    case GetQuizGradeTool => "get_quiz_grade"
    case GetForumsTool => "get_forums"
    case GetForumDiscussionsTool => "get_forum_discussions"
    case CreateForumDiscussionTool => "create_forum_discussion"
    case ReplyToForumDiscussionTool => "reply_to_forum_discussion"
  }

  function IsForumTool(t: Tool): bool {
    t in {GetForumsTool, GetForumDiscussionsTool, CreateForumDiscussionTool, ReplyToForumDiscussionTool}
  }

  /** The thirteen tool definitions, in the order they are listed. */
  const MODULAR_CATALOG: seq<Tool> :=
    [ListCoursesTool, GetCourseContentsTool, GetStudentsTool, GetAssignmentsTool, GetQuizzesTool,
     GetSubmissionsTool, ProvideFeedbackTool, GetSubmissionContentTool, GetQuizGradeTool,
     GetForumsTool, GetForumDiscussionsTool, CreateForumDiscussionTool, ReplyToForumDiscussionTool]

  /** The monolithic copy lists the nine tools that predate the forum tools. */
  const MONOLITHIC_CATALOG: seq<Tool> :=
    [ListCoursesTool, GetCourseContentsTool, GetStudentsTool, GetAssignmentsTool, GetQuizzesTool,
     GetSubmissionsTool, ProvideFeedbackTool, GetSubmissionContentTool, GetQuizGradeTool]

  function Catalog(layout: Layout): seq<Tool> {
    if layout == Modular then MODULAR_CATALOG else MONOLITHIC_CATALOG
  }

  /** The `tools/list` reply: the names of the catalog, in order, with no
      name listed twice. */
  function ListTools(layout: Layout): (r: seq<string>)
    ensures |r| == |Catalog(layout)| && forall i :: 0 <= i < |r| ==> r[i] == ToolName(Catalog(layout)[i])
    ensures forall i, j :: 0 <= i < j < |r| ==> r[i] != r[j]
  {
    ToolNamesDistinct();
    seq(|Catalog(layout)|, i requires 0 <= i < |Catalog(layout)| => ToolName(Catalog(layout)[i]))
  }

  /** The modular copy lists every tool; the monolithic copy lists exactly
      the tools that are not forum tools. */
  lemma ListedTools(layout: Layout, t: Tool)
    ensures layout == Modular ==> ToolName(t) in ListTools(layout)
    ensures layout == Monolithic ==> (ToolName(t) in ListTools(layout) <==> !IsForumTool(t))
  {
    ToolNamesDistinct();
    var names := ListTools(layout);
    if t in Catalog(layout) {
      var i :| 0 <= i < |Catalog(layout)| && Catalog(layout)[i] == t;
      assert names[i] == ToolName(t);
    }
  }

  /** No two tools share a name, so a name selects at most one tool. */
  lemma ToolNamesDistinct()
    ensures forall s: Tool, t: Tool :: ToolName(s) == ToolName(t) ==> s == t
  {
    forall s: Tool, t: Tool | s != t ensures ToolName(s) != ToolName(t) {
      // Distinct literals differ at a position no later than their shorter length.
      var a, b := ToolName(s), ToolName(t);
      assert a[..4] != b[..4] || a[4..8] != b[4..8] || a[8..] != b[8..] || |a| != |b|;
    }
  }

  /** The `switch` on the tool name. */
  function Route(layout: Layout, name: string): (r: Option<Tool>)
    ensures r.Some? ==> ToolName(r.value) == name && r.value in Catalog(layout)
    ensures r.None? ==> forall t :: t in Catalog(layout) ==> ToolName(t) != name
  {
    if name == "list_courses" then Some(ListCoursesTool)
    else if name == "get_course_contents" then Some(GetCourseContentsTool)
    else if name == "get_students" then Some(GetStudentsTool)
    else if name == "get_assignments" then Some(GetAssignmentsTool)
    else if name == "get_quizzes" then Some(GetQuizzesTool)
    else if name == "get_submissions" then Some(GetSubmissionsTool)
    else if name == "provide_feedback" then Some(ProvideFeedbackTool)
    else if name == "get_submission_content" then Some(GetSubmissionContentTool)
    else if name == "get_quiz_grade" then Some(GetQuizGradeTool)
    else if layout == Monolithic then None
    else if name == "get_forums" then Some(GetForumsTool)
    else if name == "get_forum_discussions" then Some(GetForumDiscussionsTool)
    else if name == "create_forum_discussion" then Some(CreateForumDiscussionTool)
    else if name == "reply_to_forum_discussion" then Some(ReplyToForumDiscussionTool)
    else None
  }

  /** Every listed tool can be called by its listed name, and calls reach
      that tool. */
  lemma RouteFindsListedTools(layout: Layout, t: Tool)
    ensures t in Catalog(layout) <==> Route(layout, ToolName(t)) == Some(t)
  {
    ToolNamesDistinct();
  }

  // ---------------------------------------------------------------------
  // Tool results

  /** What a handler serializes as the text of its reply. */
  datatype Payload =
    | CoursesOut(courses: Courses.CourseListing)
    | SectionsOut(sections: seq<Courses.Section>)
    | StudentsOut(students: Students.StudentListing)
    | AssignmentsOut(assignments: Assignments.AssignmentListing)
    | QuizzesOut(quizzes: Quizzes.QuizListing)
    | SubmissionsOut(courseId: string, results: seq<Assignments.AssignmentResult>)
    | ContentOut(content: Assignments.SubmissionContent)
    | GradeOut(quizId: Value, studentId: Value, hasGrade: Value, grade: Value)
    | ForumsOut(forums: Forums.ForumListing)
    | DiscussionsOut(discussions: Forums.DiscussionListing)

  /** The text block of a reply: a fixed message, or a serialized payload. */
  datatype Body = Plain(text: string) | Serialized(payload: Payload)

  datatype ToolResult = ToolResult(body: Body, isError: bool)

  const NO_ASSIGNMENTS: string := "No assignments found for the specified criteria."

  function Success(p: Payload): ToolResult {
    ToolResult(Serialized(p), false)
  }

  function Lift<T>(run: Run<T>, wrap: T -> ToolResult): (r: Run<ToolResult>)
    ensures r.calls == run.calls
    ensures r.result.Ok? <==> run.result.Ok?
    ensures r.result.Ok? ==> r.result.value == wrap(run.result.value)
    ensures r.result.Err? ==> r.result.error == run.result.error
  {
    match run.result
    case Ok(v) => Run(Ok(wrap(v)), run.calls)
    case Err(e) => Run(Err(e), run.calls)
  }

  function ReportResult(report: Assignments.SubmissionReport): ToolResult {
    match report
    case NoAssignmentsFound => ToolResult(Plain(NO_ASSIGNMENTS), false)
    case Report(courseId, results) => Success(SubmissionsOut(courseId, results))
  }

  function ContentResult(reply: Assignments.ContentReply): ToolResult {
    match reply
    case Content(c) => Success(ContentOut(c))
    case ContentError(text) => ToolResult(Plain(text), true)
  }

  function GradeResult(reply: Quizzes.GradeReply): ToolResult {
    match reply
    case QuizGrade(quizId, studentId, hasGrade, grade) => Success(GradeOut(quizId, studentId, hasGrade, grade))
    case GradeError(text) => ToolResult(Plain(text), true)
  }

  /** The handler a tool name is bound to, before the dispatcher's catch. */
  function Invoke(layout: Layout, config: Config, client: Client, tool: Tool, args: Value): Run<ToolResult> {
    match tool
    case ListCoursesTool =>
      Lift(Courses.ListCourses(layout, config, client), l => Success(CoursesOut(l)))
    case GetCourseContentsTool =>
      Lift(Courses.GetCourseContents(layout, config, client, args), s => Success(SectionsOut(s)))
    case GetStudentsTool =>
      Lift(Students.GetStudents(layout, config, client, args), s => Success(StudentsOut(s)))
    case GetAssignmentsTool =>
      Lift(Assignments.GetAssignments(config, client, args), a => Success(AssignmentsOut(a)))
    case GetQuizzesTool =>
      Lift(Quizzes.GetQuizzes(config, client, args), q => Success(QuizzesOut(q)))
    case GetSubmissionsTool =>
      Lift(Assignments.GetSubmissions(config, client, args), ReportResult)
    case ProvideFeedbackTool =>
      Lift(Assignments.ProvideFeedback(client, args), text => ToolResult(Plain(text), false))
    case GetSubmissionContentTool =>
      Lift(Assignments.GetSubmissionContent(client, args), ContentResult)
    case GetQuizGradeTool =>
      Lift(Quizzes.GetQuizGrade(client, args), GradeResult)
    case GetForumsTool =>
      Lift(Forums.GetForums(config, client, args), f => Success(ForumsOut(f)))
    case GetForumDiscussionsTool =>
      Lift(Forums.GetForumDiscussions(client, args), d => Success(DiscussionsOut(d)))
    case CreateForumDiscussionTool =>
      Lift(Forums.CreateForumDiscussion(client, args), text => ToolResult(Plain(text), false))
    case ReplyToForumDiscussionTool =>
      Lift(Forums.ReplyToForumDiscussion(client, args), text => ToolResult(Plain(text), false))
  }

  const API_ERROR_PREFIX: string := "Moodle API error: "

  /** The dispatcher's catch: an HTTP failure becomes an error reply; every
      other failure (including the handlers' own `McpError`s) is rethrown,
      and a reply passes through. */
  function Classify(r: Result<ToolResult>): (c: Result<ToolResult>)
    ensures r.Ok? ==> c == r
    ensures r.Err? && r.error.AxiosError? ==>
              c == Ok(ToolResult(Plain(API_ERROR_PREFIX + AxiosDetail(r.error.responseData, r.error.message)), true))
    ensures r.Err? && !r.error.AxiosError? ==> c == r
    ensures c.Err? ==> !c.error.AxiosError?
  {
    match r
    case Err(AxiosError(responseData, message)) =>
      Ok(ToolResult(Plain(API_ERROR_PREFIX + AxiosDetail(responseData, message)), true))
    case _ => r
  }

  /** The `tools/call` handler. */
  function CallTool(layout: Layout, config: Config, client: Client, name: string, args: Value): (r: Run<ToolResult>)
    ensures Route(layout, name).None? ==> r == Run(Err(McpError(MethodNotFound, "Unknown tool: " + name)), [])
    ensures Route(layout, name).Some? ==>
              var run := Invoke(layout, config, client, Route(layout, name).value, args);
              r == Run(Classify(run.result), run.calls)
    ensures r.result.Err? ==> !r.result.error.AxiosError?
  {
    match Route(layout, name)
    case None => Run(Err(McpError(MethodNotFound, "Unknown tool: " + name)), [])
    case Some(tool) =>
      var run := Invoke(layout, config, client, tool, args);
      Run(Classify(run.result), run.calls)
  }

  /** A name the copy does not list is refused before any upstream call;
      in particular the monolithic copy refuses every forum tool. */
  lemma UnlistedNameIsUnknown(layout: Layout, config: Config, client: Client, name: string, args: Value)
    requires forall t :: t in Catalog(layout) ==> ToolName(t) != name
    ensures CallTool(layout, config, client, name, args)
            == Run(Err(McpError(MethodNotFound, "Unknown tool: " + name)), [])
  {
  }

  lemma MonolithicRefusesForumTools(config: Config, client: Client, t: Tool, args: Value)
    requires IsForumTool(t)
    ensures CallTool(Monolithic, config, client, ToolName(t), args)
            == Run(Err(McpError(MethodNotFound, "Unknown tool: " + ToolName(t))), [])
  {
    ToolNamesDistinct();
    assert t !in Catalog(Monolithic);
    UnlistedNameIsUnknown(Monolithic, config, client, ToolName(t), args);
  }

  /** An upstream HTTP failure on the one call of `list_courses` reaches the
      client as the `isError` reply, whatever the copy. */
  lemma ListCoursesHttpFailureIsErrorReply(layout: Layout, config: Config, client: Client, args: Value)
    requires client(Courses.LIST_COURSES_REQUEST).Failed?
    ensures var reply := client(Courses.LIST_COURSES_REQUEST);
            CallTool(layout, config, client, "list_courses", args)
            == Run(Ok(ToolResult(Plain(API_ERROR_PREFIX + AxiosDetail(reply.responseData, reply.message)), true)),
                   [Courses.LIST_COURSES_REQUEST])
  {
  }

  /** An upstream HTTP failure on the add-discussion call of
      `create_forum_discussion` reaches the client as the `isError` reply. */
  lemma CreateDiscussionHttpFailureIsErrorReply(config: Config, client: Client, args: Value)
    requires !Nullish(args) && Truthy(Prop(args, "forumId")) && Truthy(Prop(args, "subject"))
             && Truthy(Prop(args, "message"))
    requires client(Forums.CreateRequest(args)).Failed?
    ensures var reply := client(Forums.CreateRequest(args));
            CallTool(Modular, config, client, "create_forum_discussion", args)
            == Run(Ok(ToolResult(Plain(API_ERROR_PREFIX + AxiosDetail(reply.responseData, reply.message)), true)),
                   [Forums.CreateRequest(args)])
  {
  }

  /** The same for the add-post call of `reply_to_forum_discussion`. */
  lemma ReplyHttpFailureIsErrorReply(config: Config, client: Client, args: Value)
    requires !Nullish(args) && Truthy(Prop(args, "postId")) && Truthy(Prop(args, "message"))
    requires client(Forums.ReplyRequest(args)).Failed?
    ensures var reply := client(Forums.ReplyRequest(args));
            CallTool(Modular, config, client, "reply_to_forum_discussion", args)
            == Run(Ok(ToolResult(Plain(API_ERROR_PREFIX + AxiosDetail(reply.responseData, reply.message)), true)),
                   [Forums.ReplyRequest(args)])
  {
  }

  /** The upstream answers every request that the modular copy shape-checks
      with an array, or fails over HTTP. */
  ghost predicate ArrayBodies(client: Client) {
    (client(Courses.LIST_COURSES_REQUEST).Response? ==> client(Courses.LIST_COURSES_REQUEST).data.Arr?)
    && (forall c :: client(Courses.ContentsRequest(c)).Response? ==> client(Courses.ContentsRequest(c)).data.Arr?)
    && (forall c :: client(Students.StudentsRequest(c)).Response? ==> client(Students.StudentsRequest(c)).data.Arr?)
  }

  /** The two copies behave alike on every tool they share, whenever the
      bodies that only the modular copy shape-checks (those of
      `list_courses`, `get_course_contents` and `get_students`) are arrays.
      On other bodies they differ, as `Courses.CourseListLayouts`,
      `Courses.SectionsRejectNonArray` and `Students.StudentsRejectNonArray`
      state. */
  lemma SharedToolsAgree(config: Config, client: Client, name: string, args: Value)
    requires Route(Monolithic, name).Some?
    requires ArrayBodies(client)
    ensures CallTool(Modular, config, client, name, args) == CallTool(Monolithic, config, client, name, args)
  {
    assert Route(Modular, name) == Route(Monolithic, name);
    InvokeAgrees(config, client, Route(Monolithic, name).value, args);
  }

  lemma InvokeAgrees(config: Config, client: Client, tool: Tool, args: Value)
    requires !IsForumTool(tool)
    requires ArrayBodies(client)
    ensures Invoke(Modular, config, client, tool, args) == Invoke(Monolithic, config, client, tool, args)
  {
    match tool
    case ListCoursesTool =>
      var reply := client(Courses.LIST_COURSES_REQUEST);
      if reply.Response? {
        Courses.CourseListLayouts(reply.data);
      }
    case GetCourseContentsTool =>
      ContentsAgree(config, client, args);
    case GetStudentsTool =>
      StudentsAgree(config, client, args);
    case _ =>
  }

  lemma ContentsAgree(config: Config, client: Client, args: Value)
    requires ArrayBodies(client)
    ensures Courses.GetCourseContents(Modular, config, client, args)
            == Courses.GetCourseContents(Monolithic, config, client, args)
  {
    if GetCourseId(args, config.defaultCourseId).Ok? {
      var courseId := GetCourseId(args, config.defaultCourseId).value;
      assert client(Courses.ContentsRequest(courseId)).Response? ==> client(Courses.ContentsRequest(courseId)).data.Arr?;
    }
  }

  lemma StudentsAgree(config: Config, client: Client, args: Value)
    requires ArrayBodies(client)
    ensures Students.GetStudents(Modular, config, client, args) == Students.GetStudents(Monolithic, config, client, args)
  {
    if GetCourseId(args, config.defaultCourseId).Ok? {
      var courseId := GetCourseId(args, config.defaultCourseId).value;
      var reply := client(Students.StudentsRequest(courseId));
      assert reply.Response? ==> reply.data.Arr?;
      if reply.Response? {
        Students.StudentLayoutsAgreeOnArrays(courseId, reply.data);
      }
    }
  }
}
