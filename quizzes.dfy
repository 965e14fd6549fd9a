/** The quiz tools: `getQuizzes` and `getQuizGrade`. */
module Quizzes {
  import opened Js
  import opened Normalize
  import opened MoodleClient

  const QUIZ_DATES: seq<string> := ["timeopen", "timeclose"]

  datatype QuizListing = QuizListing(courseId: string, quizzes: seq<map<string, Field>>)

  function QuizzesRequest(courseId: string): Request {
    Request("mod_quiz_get_quizzes_by_courses", map["courseids" := Arr([Str(courseId)])])
  }

  /** The quizzes computed from the `mod_quiz_get_quizzes_by_courses` body:
      `(data.quizzes || []).map(q => ({...q, timeopen: ..., timeclose: ...}))`. */
  function ShapeQuizzes(data: Value): (r: Result<seq<map<string, Field>>>)
    ensures Nullish(data) ==> r.Err? && r.error.TypeError?
    ensures !Nullish(data) && !Truthy(Prop(data, "quizzes")) ==> r == Ok([])
    ensures !Nullish(data) && Truthy(Prop(data, "quizzes")) && !Prop(data, "quizzes").Arr? ==>
              r.Err? && r.error.TypeError?
  {
    var quizzes :- Get(data, "quizzes");
    var items :- ArrayMethod(Or(quizzes, Arr([])), "map");
    MapAll(items, q => WithDates(q, QUIZ_DATES))
  }

  /** The `get_quizzes` handler. */
  function GetQuizzes(config: Config, client: Client, args: Value): (r: Run<QuizListing>)
    ensures GetCourseId(args, config.defaultCourseId).Err? ==>
              r == Run(Err(GetCourseId(args, config.defaultCourseId).error), [])
    ensures GetCourseId(args, config.defaultCourseId).Ok? ==>
              var courseId := GetCourseId(args, config.defaultCourseId).value;
              var reply := client(QuizzesRequest(courseId));
              r.calls == [QuizzesRequest(courseId)]
              && (reply.Failed? ==> r.result == Err(AxiosError(reply.responseData, reply.message)))
              && (reply.Response? ==>
                    r.result == (var quizzes :- ShapeQuizzes(reply.data); Ok(QuizListing(courseId, quizzes))))
    ensures r.result.Ok? ==> r.result.value.courseId == GetCourseId(args, config.defaultCourseId).value
  {
    match GetCourseId(args, config.defaultCourseId)
    case Err(e) => Run(Err(e), [])
    case Ok(courseId) =>
      var req := QuizzesRequest(courseId);
      var result :=
        var data :- Fetch(client, req);
        var quizzes :- ShapeQuizzes(data);
        Ok(QuizListing(courseId, quizzes));
      Run(result, [req])
  }

  /** One quiz per upstream quiz, in order; `timeopen` and `timeclose` are
      converted (null when falsy) and every other field passes through. */
  lemma {:induction false} QuizzesKeepFieldsAndConvertDates(data: Value, k: nat)
    requires ShapeQuizzes(data).Ok?
    ensures Or(Prop(data, "quizzes"), Arr([])).Arr?
    ensures var items := Or(Prop(data, "quizzes"), Arr([])).items;
            |ShapeQuizzes(data).value| == |items|
            && (k < |items| ==>
                  var q := ShapeQuizzes(data).value[k];
                  (forall f :: f in QUIZ_DATES ==> f in q && q[f] == Date(DateOrNull(Prop(items[k], f))))
                  && (forall f :: f in Spread(items[k]) && f !in QUIZ_DATES ==>
                                    f in q && q[f] == Raw(Spread(items[k])[f]))
                  && (forall f :: f in q ==> f in Spread(items[k]) || f in QUIZ_DATES))
  {
    var items := Or(Prop(data, "quizzes"), Arr([])).items;
    MapAllPointwise(items, q => WithDates(q, QUIZ_DATES));
  }

  // ---------------------------------------------------------------------
  // getQuizGrade

  const GRADE_REQUIRED: string := "Student ID and Quiz ID are required"

  /** The grade record, or the `isError` text of the handler's own catch. */
  datatype GradeReply = QuizGrade(quizId: Value, studentId: Value, hasGrade: Value, grade: Value)
                      | GradeError(text: string)

  function GradeRequest(args: Value): Request {
    Request("mod_quiz_get_user_best_grade",
            map["quizid" := Prop(args, "quizId"), "userid" := Prop(args, "studentId")])
  }

  /** `hasgrade ? grade : 'Not graded'`, from the upstream body. */
  function GradeOf(args: Value, data: Value): (r: Result<GradeReply>)
    ensures r.Err? <==> Nullish(data)
    ensures r.Err? ==> r.error.TypeError?
    ensures r.Ok? ==> r.value.QuizGrade? && r.value.hasGrade == Prop(data, "hasgrade")
    ensures r.Ok? && Truthy(Prop(data, "hasgrade")) ==> r.value.grade == Prop(data, "grade")
    ensures r.Ok? && !Truthy(Prop(data, "hasgrade")) ==> r.value.grade == Str("Not graded")
  {
    var hasGrade :- Get(data, "hasgrade");
    Ok(QuizGrade(Prop(args, "quizId"), Prop(args, "studentId"), hasGrade,
                 if Truthy(hasGrade) then Prop(data, "grade") else Str("Not graded")))
  }

  /** The `get_quiz_grade` handler. */
  function GetQuizGrade(client: Client, args: Value): (r: Run<GradeReply>)
    ensures Nullish(args) ==> r.result.Err? && r.result.error.TypeError? && r.calls == []
    ensures !Nullish(args) && !(Truthy(Prop(args, "studentId")) && Truthy(Prop(args, "quizId"))) ==>
              r == Run(Err(McpError(InvalidParams, GRADE_REQUIRED)), [])
    ensures !Nullish(args) && Truthy(Prop(args, "studentId")) && Truthy(Prop(args, "quizId")) ==>
              r.calls == [GradeRequest(args)]
              && (client(GradeRequest(args)).Response? ==> r.result == GradeOf(args, client(GradeRequest(args)).data))
              && (client(GradeRequest(args)).Failed? ==>
                    r.result == Ok(GradeError("Error getting quiz grade: "
                                              + AxiosDetail(client(GradeRequest(args)).responseData,
                                                            client(GradeRequest(args)).message))))
    ensures r.result.Err? ==> r.result.error.TypeError? || r.result.error == McpError(InvalidParams, GRADE_REQUIRED)
  {
    match Get(args, "studentId")
    case Err(e) => Run(Err(e), [])
    case Ok(studentId) =>
      if !Truthy(studentId) || !Truthy(Prop(args, "quizId")) then
        Run(Err(McpError(InvalidParams, GRADE_REQUIRED)), [])
      else
        var req := GradeRequest(args);
        match client(req)
        case Failed(responseData, message) =>
          Run(Ok(GradeError("Error getting quiz grade: " + AxiosDetail(responseData, message))), [req])
        case Response(data) => Run(GradeOf(args, data), [req])
  }

  /** The upstream message wins over the error's own message, when it is
      truthy. */
  lemma QuizGradeErrorPrefersUpstreamMessage(client: Client, args: Value)
    requires !Nullish(args) && Truthy(Prop(args, "studentId")) && Truthy(Prop(args, "quizId"))
    requires client(GradeRequest(args)).Failed?
    requires Truthy(OptGet(client(GradeRequest(args)).responseData, "message"))
    ensures GetQuizGrade(client, args).result
            == Ok(GradeError("Error getting quiz grade: "
                             + JsString(OptGet(client(GradeRequest(args)).responseData, "message"))))
  {
  }
}
