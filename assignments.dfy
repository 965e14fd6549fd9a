/** The assignment tools: `getAssignments`, the `getSubmissions`
    aggregation (course-wrapper lookup, optional narrowing, short-circuit,
    left join of submissions with grades), `provideFeedback`, and
    `getSubmissionContent` with its plugin scan. */
module Assignments {
  import opened Js
  import opened Normalize
  import opened MoodleClient

  // ---------------------------------------------------------------------
  // The per-course assignment wrapper

  /** `String(c.id) === courseId` */
  function IsCourseWrapper(courseId: string, c: Value): (r: Result<bool>)
    ensures r.Err? <==> Nullish(c)
    ensures r.Ok? ==> (r.value <==> JsString(Prop(c, "id")) == courseId)
  {
    var id :- Get(c, "id");
    Ok(JsString(id) == courseId)
  }

  /** `data.courses?.find(c => String(c.id) === courseId)?.assignments || []` */
  function CourseAssignments(data: Value, courseId: string): (r: Result<Value>)
    ensures Nullish(data) ==> r.Err? && r.error.TypeError?
    ensures !Nullish(data) && Nullish(Prop(data, "courses")) ==> r == Ok(Arr([]))
    ensures r.Ok? ==> Truthy(r.value)
  {
    var courses :- Get(data, "courses");
    var wrapper :- if Nullish(courses) then Ok(Undefined)
                   else
                     var items :- ArrayMethod(courses, "find");
                     Find(items, c => IsCourseWrapper(courseId, c));
    Ok(Or(OptGet(wrapper, "assignments"), Arr([])))
  }

  /** The assignments are those of the first wrapper whose id prints as the
      course id; when no wrapper matches they are the empty list, not an
      error. */
  lemma CourseAssignmentsOfFirstWrapper(data: Value, courseId: string)
    requires CourseAssignments(data, courseId).Ok? && Prop(data, "courses").Arr?
    ensures var items := Prop(data, "courses").items;
            (CourseAssignments(data, courseId) == Ok(Arr([]))
             && forall j :: 0 <= j < |items| ==> JsString(Prop(items[j], "id")) != courseId)
            || (exists i :: 0 <= i < |items|
                  && JsString(Prop(items[i], "id")) == courseId
                  && (forall j :: 0 <= j < i ==> JsString(Prop(items[j], "id")) != courseId)
                  && CourseAssignments(data, courseId) == Ok(Or(Prop(items[i], "assignments"), Arr([]))))
  {
    var items := Prop(data, "courses").items;
    var p := c => IsCourseWrapper(courseId, c);
    FindFirstAccepted(items, p);
    if Find(items, p).value == Undefined && forall j :: 0 <= j < |items| ==> p(items[j]) == Ok(false) {
      forall j | 0 <= j < |items|
        ensures JsString(Prop(items[j], "id")) != courseId
      {
        assert p(items[j]) == Ok(false);
      }
    } else {
      var i :| 0 <= i < |items| && Find(items, p).value == items[i] && p(items[i]) == Ok(true)
               && forall j :: 0 <= j < i ==> p(items[j]) == Ok(false);
      forall j | 0 <= j < i
        ensures JsString(Prop(items[j], "id")) != courseId
      {
        assert p(items[j]) == Ok(false);
      }
    }
  }

  function AssignmentsRequest(courseId: string): Request {
    Request("mod_assign_get_assignments", map["courseids" := Arr([Str(courseId)])])
  }

  // ---------------------------------------------------------------------
  // getAssignments

  const ASSIGNMENT_DATES: seq<string> := ["duedate", "allowsubmissionsfromdate", "cutoffdate"]

  datatype AssignmentListing = AssignmentListing(courseId: string, assignments: seq<map<string, Field>>)

  /** The `get_assignments` handler. */
  function GetAssignments(config: Config, client: Client, args: Value): (r: Run<AssignmentListing>)
    ensures GetCourseId(args, config.defaultCourseId).Err? ==>
              r == Run(Err(GetCourseId(args, config.defaultCourseId).error), [])
    ensures GetCourseId(args, config.defaultCourseId).Ok? ==>
              var courseId := GetCourseId(args, config.defaultCourseId).value;
              var reply := client(AssignmentsRequest(courseId));
              r.calls == [AssignmentsRequest(courseId)]
              && (reply.Failed? ==> r.result == Err(AxiosError(reply.responseData, reply.message)))
              && (reply.Response? ==>
                    r.result == (var assignments :- CourseAssignments(reply.data, courseId);
                                 var items :- ArrayMethod(assignments, "map");
                                 var shaped :- MapAll(items, a => WithDates(a, ASSIGNMENT_DATES));
                                 Ok(AssignmentListing(courseId, shaped))))
    ensures r.result.Ok? ==> r.result.value.courseId == GetCourseId(args, config.defaultCourseId).value
  {
    match GetCourseId(args, config.defaultCourseId)
    case Err(e) => Run(Err(e), [])
    case Ok(courseId) =>
      var req := AssignmentsRequest(courseId);
      var result :=
        var data :- Fetch(client, req);
        var assignments :- CourseAssignments(data, courseId);
        var items :- ArrayMethod(assignments, "map");
        var shaped :- MapAll(items, a => WithDates(a, ASSIGNMENT_DATES));
        Ok(AssignmentListing(courseId, shaped));
      Run(result, [req])
  }

  /** One listed assignment per upstream assignment of the course, in
      order; each is its upstream record with the three dates converted
      (null when falsy) and every other field unchanged. */
  lemma {:induction false} AssignmentsKeepFieldsAndConvertDates(config: Config, client: Client, args: Value, k: nat)
    requires GetAssignments(config, client, args).result.Ok?
    ensures var courseId := GetCourseId(args, config.defaultCourseId).value;
            var data := client(AssignmentsRequest(courseId)).data;
            var list := CourseAssignments(data, courseId).value;
            var listed := GetAssignments(config, client, args).result.value.assignments;
            list.Arr? && |listed| == |list.items|
            && (k < |list.items| ==>
                  var a := listed[k];
                  (forall f :: f in ASSIGNMENT_DATES ==> f in a && a[f] == Date(DateOrNull(Prop(list.items[k], f))))
                  && (forall f :: f in Spread(list.items[k]) && f !in ASSIGNMENT_DATES ==>
                                    f in a && a[f] == Raw(Spread(list.items[k])[f]))
                  && (forall f :: f in a ==> f in Spread(list.items[k]) || f in ASSIGNMENT_DATES))
  {
    var courseId := GetCourseId(args, config.defaultCourseId).value;
    var data := client(AssignmentsRequest(courseId)).data;
    var list := CourseAssignments(data, courseId).value;
    MapAllPointwise(list.items, a => WithDates(a, ASSIGNMENT_DATES));
  }

  // ---------------------------------------------------------------------
  // getSubmissions

  /** `wanted ? xs.filter(x => x.<field> === wanted) : xs` -- the optional
      narrowing by assignment id or by student id. */
  function NarrowBy(xs: Value, field: string, wanted: Value): (r: Result<Value>)
    ensures !Truthy(wanted) ==> r == Ok(xs)
    ensures Truthy(wanted) && !xs.Arr? ==> r.Err? && r.error.TypeError?
    ensures Truthy(wanted) && r.Ok? ==> r.value.Arr?
  {
    if Truthy(wanted) then
      var items :- ArrayMethod(xs, "filter");
      var kept :- Filter(items, x => HasFieldValue(field, wanted, x));
      Ok(Arr(kept))
    else Ok(xs)
  }

  /** `x.<field> === wanted` */
  function HasFieldValue(field: string, wanted: Value, x: Value): (r: Result<bool>)
    ensures r.Err? <==> Nullish(x)
    ensures r.Ok? ==> (r.value <==> StrictEq(Prop(x, field), wanted))
    ensures r.Err? ==> r.error.TypeError?
  {
    var v :- Get(x, field);
    Ok(StrictEq(v, wanted))
  }

  /** With a truthy `wanted`, narrowing keeps exactly the elements whose
      field is `===` to it, in their order (`idx` gives their positions). */
  lemma {:induction false} NarrowByKeepsMatches(xs: Value, field: string, wanted: Value) returns (idx: seq<nat>)
    requires Truthy(wanted) && NarrowBy(xs, field, wanted).Ok?
    ensures xs.Arr? && NarrowBy(xs, field, wanted).value.Arr?
    ensures |idx| == |NarrowBy(xs, field, wanted).value.items|
    ensures forall k, l :: 0 <= k < l < |idx| ==> idx[k] < idx[l]
    ensures forall k :: 0 <= k < |idx| ==>
              (idx[k] < |xs.items| && NarrowBy(xs, field, wanted).value.items[k] == xs.items[idx[k]]
               && StrictEq(Prop(xs.items[idx[k]], field), wanted))
    ensures forall i :: 0 <= i < |xs.items| && StrictEq(Prop(xs.items[i], field), wanted) ==> i in idx
  {
    var keep := x => HasFieldValue(field, wanted, x);
    idx := FilterKeepsAcceptedInOrder(xs.items, keep);
    forall i | 0 <= i < |xs.items| && StrictEq(Prop(xs.items[i], field), wanted)
      ensures i in idx
    {
      assert keep(xs.items[i]) == Ok(true);
    }
  }

  /** `v.length === 0`; objects are asked for their own `length` field. */
  function LengthIsZero(v: Value): (r: Result<bool>)
    ensures r.Err? <==> Nullish(v)
    ensures v.Arr? ==> r == Ok(|v.items| == 0)
  {
    match v
    case Arr(items) => Ok(|items| == 0)
    case Str(s) => Ok(|s| == 0)
    case Obj(_) => Ok(StrictEq(Prop(v, "length"), Num(0)))
    case _ =>
      if Nullish(v) then Err(TypeError("Cannot read properties of " + JsString(v) + " (reading 'length')"))
      else Ok(false)
  }

  /** `data.assignments[0]?.<field> || []` */
  function FirstAssignmentField(data: Value, field: string): (r: Result<Value>)
    ensures Nullish(data) ==> r.Err? && r.error.TypeError?
    ensures r.Ok? ==> Truthy(r.value)
  {
    var list :- Get(data, "assignments");
    var first :- Index(list, 0);
    Ok(Or(OptGet(first, field), Arr([])))
  }

  function SubmissionsRequest(assignmentId: Value): Request {
    Request("mod_assign_get_submissions", map["assignmentids" := Arr([assignmentId])])
  }

  function GradesRequest(assignmentId: Value): Request {
    Request("mod_assign_get_grades", map["assignmentids" := Arr([assignmentId])])
  }

  /** One submission with its grade. */
  datatype GradedSubmission = GradedSubmission(userid: Value, status: Value, timemodified: Timestamp, grade: Value)

  /** `processedSubmissions.length > 0 ? processedSubmissions : 'No submissions'` */
  datatype Submissions = Graded(entries: seq<GradedSubmission>) | NoSubmissions

  datatype AssignmentResult = AssignmentResult(assignment: Value, assignmentId: Value, submissions: Submissions)

  /** What `get_submissions` returns: the plain "No assignments found" text,
      or the course id with one result per target assignment. */
  datatype SubmissionReport = NoAssignmentsFound | Report(courseId: string, results: seq<AssignmentResult>)

  /** `g.userid === submission.userid` */
  function SameUser(submission: Value, g: Value): (r: Result<bool>)
    ensures r.Ok? ==> (r.value <==> StrictEq(Prop(g, "userid"), Prop(submission, "userid")))
    ensures r.Ok? ==> !Nullish(g) && !Nullish(submission)
  {
    var gradeUser :- Get(g, "userid");
    var submissionUser :- Get(submission, "userid");
    Ok(StrictEq(gradeUser, submissionUser))
  }

  /** One submission of the join: its user, status and time, and the grade
      of the first grade record for the same user, else 'Not graded'. The
      time is converted without a falsy check. */
  function GradeSubmission(grades: Value, submission: Value): (r: Result<GradedSubmission>)
    ensures r.Ok? ==> r.value.userid == Prop(submission, "userid") && r.value.status == Prop(submission, "status")
    ensures r.Ok? ==> r.value.timemodified == IsoOf(Prop(submission, "timemodified"))
    ensures !grades.Arr? ==> r.Err? && r.error.TypeError?
  {
    var gradeItems :- ArrayMethod(grades, "find");
    var found :- Find(gradeItems, g => SameUser(submission, g));
    var userid :- Get(submission, "userid");
    Ok(GradedSubmission(userid, Prop(submission, "status"), IsoOf(Prop(submission, "timemodified")),
                        if Truthy(found) then Prop(found, "grade") else Str("Not graded")))
  }

  /** The grade is taken from the first grade record with the same user
      (or 'Not graded' when that record is itself falsy); with no such
      record it is 'Not graded'. */
  lemma GradeIsFirstMatchOrNotGraded(grades: Value, submission: Value)
    requires GradeSubmission(grades, submission).Ok?
    ensures var items := grades.items;
            var grade := GradeSubmission(grades, submission).value.grade;
            (grade == Str("Not graded")
             && forall j :: 0 <= j < |items| ==> !StrictEq(Prop(items[j], "userid"), Prop(submission, "userid")))
            || (exists i :: 0 <= i < |items|
                  && StrictEq(Prop(items[i], "userid"), Prop(submission, "userid"))
                  && (forall j :: 0 <= j < i ==> !StrictEq(Prop(items[j], "userid"), Prop(submission, "userid")))
                  && grade == (if Truthy(items[i]) then Prop(items[i], "grade") else Str("Not graded")))
  {
    var items := grades.items;
    var p := g => SameUser(submission, g);
    FindFirstAccepted(items, p);
    if Find(items, p).value == Undefined && forall j :: 0 <= j < |items| ==> p(items[j]) == Ok(false) {
      forall j | 0 <= j < |items|
        ensures !StrictEq(Prop(items[j], "userid"), Prop(submission, "userid"))
      {
        assert p(items[j]) == Ok(false);
      }
    } else {
      var i :| 0 <= i < |items| && Find(items, p).value == items[i] && p(items[i]) == Ok(true)
               && forall j :: 0 <= j < i ==> p(items[j]) == Ok(false);
      forall j | 0 <= j < i
        ensures !StrictEq(Prop(items[j], "userid"), Prop(submission, "userid"))
      {
        assert p(items[j]) == Ok(false);
      }
    }
  }

  /** The left join for one assignment: narrow the submissions to the
      student, then grade each one. */
  function JoinAssignment(submissions: Value, grades: Value, studentId: Value): (r: Result<Submissions>)
  {
    var targets :- NarrowBy(submissions, "userid", studentId);
    var items :- ArrayMethod(targets, "map");
    var processed :- MapAll(items, s => GradeSubmission(grades, s));
    Ok(if |processed| > 0 then Graded(processed) else NoSubmissions)
  }

  /** The join keeps one graded entry per narrowed submission, in order,
      and reports 'No submissions' exactly when there is none. */
  lemma {:induction false} JoinIsLeftJoin(submissions: Value, grades: Value, studentId: Value)
    requires JoinAssignment(submissions, grades, studentId).Ok?
    ensures var targets := NarrowBy(submissions, "userid", studentId).value;
            var joined := JoinAssignment(submissions, grades, studentId).value;
            targets.Arr?
            && (joined.NoSubmissions? <==> |targets.items| == 0)
            && (joined.Graded? ==>
                  |joined.entries| == |targets.items|
                  && forall i :: 0 <= i < |targets.items| ==>
                       GradeSubmission(grades, targets.items[i]) == Ok(joined.entries[i]))
  {
    var targets := NarrowBy(submissions, "userid", studentId).value;
    MapAllPointwise(targets.items, s => GradeSubmission(grades, s));
  }

  /** With a truthy student id, every graded entry belongs to that student. */
  lemma JoinKeepsOnlyTheStudent(submissions: Value, grades: Value, studentId: Value)
    requires Truthy(studentId) && JoinAssignment(submissions, grades, studentId).Ok?
    requires JoinAssignment(submissions, grades, studentId).value.Graded?
    ensures forall e :: e in JoinAssignment(submissions, grades, studentId).value.entries ==>
              StrictEq(e.userid, studentId)
  {
    JoinIsLeftJoin(submissions, grades, studentId);
    var targets := NarrowBy(submissions, "userid", studentId).value;
    var idx := NarrowByKeepsMatches(submissions, "userid", studentId);
    var entries := JoinAssignment(submissions, grades, studentId).value.entries;
    forall e | e in entries
      ensures StrictEq(e.userid, studentId)
    {
      var i :| 0 <= i < |entries| && entries[i] == e;
      assert GradeSubmission(grades, targets.items[i]) == Ok(e);
    }
  }

  /** The work for one target assignment: its submissions call, then its
      grades call, then the join. */
  function AssignmentRun(client: Client, studentId: Value, assignment: Value): (r: Run<AssignmentResult>)
    ensures Nullish(assignment) ==> r.result.Err? && r.result.error.TypeError? && r.calls == []
    ensures r.result.Ok? ==>
              r.calls == [SubmissionsRequest(Prop(assignment, "id")), GradesRequest(Prop(assignment, "id"))]
              && r.result.value.assignmentId == Prop(assignment, "id")
              && r.result.value.assignment == Prop(assignment, "name")
    ensures r.result.Ok? ==>
              var first := client(SubmissionsRequest(Prop(assignment, "id")));
              var second := client(GradesRequest(Prop(assignment, "id")));
              first.Response? && second.Response?
              && var subs := FirstAssignmentField(first.data, "submissions");
                 var grades := FirstAssignmentField(second.data, "grades");
                 subs.Ok? && grades.Ok? && JoinAssignment(subs.value, grades.value, studentId) == Ok(r.result.value.submissions)
    ensures !Nullish(assignment) ==>
              var id := Prop(assignment, "id");
              var first := client(SubmissionsRequest(id));
              var second := client(GradesRequest(id));
              (first.Failed? ==>
                 r == Run(Err(AxiosError(first.responseData, first.message)), [SubmissionsRequest(id)]))
              && (first.Response? && FirstAssignmentField(first.data, "submissions").Err? ==>
                    r == Run(Err(FirstAssignmentField(first.data, "submissions").error), [SubmissionsRequest(id)]))
              && (first.Response? && FirstAssignmentField(first.data, "submissions").Ok? ==>
                    r.calls == [SubmissionsRequest(id), GradesRequest(id)]
                    && (second.Failed? ==> r.result == Err(AxiosError(second.responseData, second.message)))
                    && (second.Response? ==>
                          r.result == (var grades :- FirstAssignmentField(second.data, "grades");
                                       var joined :- JoinAssignment(FirstAssignmentField(first.data, "submissions").value,
                                                                    grades, studentId);
                                       Ok(AssignmentResult(Prop(assignment, "name"), id, joined)))))
  {
    match Get(assignment, "id")
    case Err(e) => Run(Err(e), [])
    case Ok(id) =>
      var first := SubmissionsRequest(id);
      match Fetch(client, first)
      case Err(e) => Run(Err(e), [first])
      case Ok(submissionsData) =>
        match FirstAssignmentField(submissionsData, "submissions")
        case Err(e) => Run(Err(e), [first])
        case Ok(submissions) =>
          var second := GradesRequest(id);
          var result :=
            var gradesData :- Fetch(client, second);
            var grades :- FirstAssignmentField(gradesData, "grades");
            var joined :- JoinAssignment(submissions, grades, studentId);
            Ok(AssignmentResult(Prop(assignment, "name"), id, joined));
          Run(result, [first, second])
  }

  /** `Promise.all(targets.map(...))`, taken in target order. */
  function CollectAll(client: Client, studentId: Value, targets: seq<Value>): Run<seq<AssignmentResult>>
    decreases |targets|
  {
    if targets == [] then Run(Ok([]), [])
    else
      var head := AssignmentRun(client, studentId, targets[0]);
      match head.result
      case Err(e) => Run(Err(e), head.calls)
      case Ok(x) =>
        var rest := CollectAll(client, studentId, targets[1..]);
        Run(if rest.result.Ok? then Ok([x] + rest.result.value) else Err(rest.result.error), head.calls + rest.calls)
  }

  /** A completed fan-out has one result per target, in target order. */
  lemma {:induction false} CollectAllPointwise(client: Client, studentId: Value, targets: seq<Value>)
    requires CollectAll(client, studentId, targets).result.Ok?
    ensures |CollectAll(client, studentId, targets).result.value| == |targets|
    ensures forall i :: 0 <= i < |targets| ==>
              AssignmentRun(client, studentId, targets[i]).result == Ok(CollectAll(client, studentId, targets).result.value[i])
    decreases |targets|
  {
    if targets != [] {
      var rest := CollectAll(client, studentId, targets[1..]);
      CollectAllPointwise(client, studentId, targets[1..]);
      var results := CollectAll(client, studentId, targets).result.value;
      assert results == [AssignmentRun(client, studentId, targets[0]).result.value] + rest.result.value;
      forall i | 0 < i < |targets|
        ensures AssignmentRun(client, studentId, targets[i]).result == Ok(results[i])
      {
        assert targets[i] == targets[1..][i - 1];
      }
    }
  }

  /** A failed fan-out fails with the error of its first failing target:
      every earlier target's run completed. */
  lemma {:induction false} CollectAllFailsAtFirstFailure(client: Client, studentId: Value, targets: seq<Value>)
    requires CollectAll(client, studentId, targets).result.Err?
    ensures exists i :: 0 <= i < |targets|
              && (forall j :: 0 <= j < i ==> AssignmentRun(client, studentId, targets[j]).result.Ok?)
              && AssignmentRun(client, studentId, targets[i]).result == Err(CollectAll(client, studentId, targets).result.error)
    decreases |targets|
  {
    var head := AssignmentRun(client, studentId, targets[0]);
    if head.result.Ok? {
      var rest := CollectAll(client, studentId, targets[1..]);
      CollectAllFailsAtFirstFailure(client, studentId, targets[1..]);
      var k :| 0 <= k < |targets[1..]|
               && (forall j :: 0 <= j < k ==> AssignmentRun(client, studentId, targets[1..][j]).result.Ok?)
               && AssignmentRun(client, studentId, targets[1..][k]).result == Err(rest.result.error);
      forall j | 0 <= j < k + 1
        ensures AssignmentRun(client, studentId, targets[j]).result.Ok?
      {
        if j > 0 { assert targets[j] == targets[1..][j - 1]; }
      }
      assert targets[k + 1] == targets[1..][k];
    }
  }

  /** A completed fan-out issued exactly two calls per target, in target
      order: its submissions, then its grades. */
  lemma {:induction false} CollectAllCalls(client: Client, studentId: Value, targets: seq<Value>)
    requires CollectAll(client, studentId, targets).result.Ok?
    ensures |CollectAll(client, studentId, targets).calls| == 2 * |targets|
    ensures forall i :: 0 <= i < |targets| ==>
              CollectAll(client, studentId, targets).calls[2 * i] == SubmissionsRequest(Prop(targets[i], "id"))
              && CollectAll(client, studentId, targets).calls[2 * i + 1] == GradesRequest(Prop(targets[i], "id"))
    decreases |targets|
  {
    if targets != [] {
      var head := AssignmentRun(client, studentId, targets[0]);
      var rest := CollectAll(client, studentId, targets[1..]);
      assert head.result.Ok? && rest.result.Ok?;
      CollectAllCalls(client, studentId, targets[1..]);
      PairedCallsCons(targets, head.calls, rest.calls);
    }
  }

  /** Prepending one target's two calls to the calls of the other targets
      keeps every target's two calls at positions `2i` and `2i + 1`. */
  lemma PairedCallsCons(targets: seq<Value>, head: seq<Request>, rest: seq<Request>)
    requires targets != []
    requires head == [SubmissionsRequest(Prop(targets[0], "id")), GradesRequest(Prop(targets[0], "id"))]
    requires |rest| == 2 * (|targets| - 1)
    requires forall i :: 0 <= i < |targets| - 1 ==>
               rest[2 * i] == SubmissionsRequest(Prop(targets[1..][i], "id"))
               && rest[2 * i + 1] == GradesRequest(Prop(targets[1..][i], "id"))
    ensures |head + rest| == 2 * |targets|
    ensures forall i :: 0 <= i < |targets| ==>
              (head + rest)[2 * i] == SubmissionsRequest(Prop(targets[i], "id"))
              && (head + rest)[2 * i + 1] == GradesRequest(Prop(targets[i], "id"))
  {
    forall i | 0 < i < |targets|
      ensures (head + rest)[2 * i] == SubmissionsRequest(Prop(targets[i], "id"))
      ensures (head + rest)[2 * i + 1] == GradesRequest(Prop(targets[i], "id"))
    {
      var k := i - 1;
      assert targets[i] == targets[1..][k];
      assert (head + rest)[2 * i] == rest[2 * k];
      assert (head + rest)[2 * i + 1] == rest[2 * k + 1];
    }
  }

  /** The assignments `get_submissions` reports on, from the body of its
      first call. */
  function SubmissionTargets(data: Value, courseId: string, assignmentId: Value): Result<Value> {
    var assignments :- CourseAssignments(data, courseId);
    NarrowBy(assignments, "id", assignmentId)
  }

  /** The `get_submissions` handler. */
  function GetSubmissions(config: Config, client: Client, args: Value): (r: Run<SubmissionReport>)
    ensures GetCourseId(args, config.defaultCourseId).Err? ==>
              r == Run(Err(GetCourseId(args, config.defaultCourseId).error), [])
    ensures GetCourseId(args, config.defaultCourseId).Ok? ==>
              |r.calls| >= 1 && r.calls[0] == AssignmentsRequest(GetCourseId(args, config.defaultCourseId).value)
    ensures GetCourseId(args, config.defaultCourseId).Ok? ==>
              var courseId := GetCourseId(args, config.defaultCourseId).value;
              var reply := client(AssignmentsRequest(courseId));
              (reply.Failed? ==>
                 r == Run(Err(AxiosError(reply.responseData, reply.message)), [AssignmentsRequest(courseId)]))
              && (r.result.Ok? && r.result.value.Report? ==> r.result.value.courseId == courseId)
              && (reply.Response? ==>
                    r.result == (var targets :- SubmissionTargets(reply.data, courseId, OptGet(args, "assignmentId"));
                                 var empty :- LengthIsZero(targets);
                                 if empty then Ok(NoAssignmentsFound)
                                 else
                                   var items :- ArrayMethod(targets, "map");
                                   var results :- CollectAll(client, OptGet(args, "studentId"), items).result;
                                   Ok(Report(courseId, results))))
  {
    match GetCourseId(args, config.defaultCourseId)
    case Err(e) => Run(Err(e), [])
    case Ok(courseId) =>
      var req := AssignmentsRequest(courseId);
      var targets :=
        var data :- Fetch(client, req);
        SubmissionTargets(data, courseId, OptGet(args, "assignmentId"));
      match targets
      case Err(e) => Run(Err(e), [req])
      case Ok(targets) =>
        match LengthIsZero(targets)
        case Err(e) => Run(Err(e), [req])
        case Ok(empty) =>
          if empty then Run(Ok(NoAssignmentsFound), [req])
          else
            match ArrayMethod(targets, "map")
            case Err(e) => Run(Err(e), [req])
            case Ok(items) =>
              var all := CollectAll(client, OptGet(args, "studentId"), items);
              Run(if all.result.Ok? then Ok(Report(courseId, all.result.value)) else Err(all.result.error),
                  [req] + all.calls)
  }

  /** When the targets have `length === 0` the handler answers "No
      assignments found" after its first call, and makes no submission or
      grade call. */
  lemma NoTargetsShortCircuit(config: Config, client: Client, args: Value)
    requires GetCourseId(args, config.defaultCourseId).Ok?
    requires var courseId := GetCourseId(args, config.defaultCourseId).value;
             var reply := client(AssignmentsRequest(courseId));
             reply.Response?
             && var targets := SubmissionTargets(reply.data, courseId, OptGet(args, "assignmentId"));
                targets.Ok? && LengthIsZero(targets.value) == Ok(true)
    ensures GetSubmissions(config, client, args)
            == Run(Ok(NoAssignmentsFound), [AssignmentsRequest(GetCourseId(args, config.defaultCourseId).value)])
  {
  }

  /** Conversely, "No assignments found" is answered only on a reply whose
      targets have `length === 0`. */
  lemma NoAssignmentsFoundMeansNoTargets(config: Config, client: Client, args: Value)
    requires GetSubmissions(config, client, args).result == Ok(NoAssignmentsFound)
    ensures GetCourseId(args, config.defaultCourseId).Ok?
    ensures var courseId := GetCourseId(args, config.defaultCourseId).value;
            var reply := client(AssignmentsRequest(courseId));
            reply.Response?
            && var targets := SubmissionTargets(reply.data, courseId, OptGet(args, "assignmentId"));
               targets.Ok? && LengthIsZero(targets.value) == Ok(true)
  {
  }

  /** When one target's work fails, the whole call fails with the error of
      the first failing target, every earlier target's run having completed. */
  lemma FailedTargetFailsSubmissions(config: Config, client: Client, args: Value)
    requires GetCourseId(args, config.defaultCourseId).Ok?
    requires var courseId := GetCourseId(args, config.defaultCourseId).value;
             var reply := client(AssignmentsRequest(courseId));
             reply.Response?
             && var targets := SubmissionTargets(reply.data, courseId, OptGet(args, "assignmentId"));
                targets.Ok? && targets.value.Arr? && |targets.value.items| > 0
                && CollectAll(client, OptGet(args, "studentId"), targets.value.items).result.Err?
    ensures var courseId := GetCourseId(args, config.defaultCourseId).value;
            var targets := SubmissionTargets(client(AssignmentsRequest(courseId)).data, courseId,
                                             OptGet(args, "assignmentId")).value.items;
            var studentId := OptGet(args, "studentId");
            exists i :: 0 <= i < |targets|
              && (forall j :: 0 <= j < i ==> AssignmentRun(client, studentId, targets[j]).result.Ok?)
              && AssignmentRun(client, studentId, targets[i]).result.Err?
              && GetSubmissions(config, client, args).result == Err(AssignmentRun(client, studentId, targets[i]).result.error)
  {
    var courseId := GetCourseId(args, config.defaultCourseId).value;
    var targets := SubmissionTargets(client(AssignmentsRequest(courseId)).data, courseId,
                                     OptGet(args, "assignmentId")).value.items;
    CollectAllFailsAtFirstFailure(client, OptGet(args, "studentId"), targets);
  }

  /** A report is the fan-out over the targets of the first reply, after
      the assignments call. */
  lemma ReportIsFanOut(config: Config, client: Client, args: Value)
    requires GetSubmissions(config, client, args).result.Ok?
    requires GetSubmissions(config, client, args).result.value.Report?
    ensures GetCourseId(args, config.defaultCourseId).Ok?
    ensures var courseId := GetCourseId(args, config.defaultCourseId).value;
            var reply := client(AssignmentsRequest(courseId));
            reply.Response?
            && var targets := SubmissionTargets(reply.data, courseId, OptGet(args, "assignmentId"));
               targets.Ok? && targets.value.Arr? && |targets.value.items| > 0
               && var all := CollectAll(client, OptGet(args, "studentId"), targets.value.items);
                  all.result.Ok?
                  && GetSubmissions(config, client, args).result.value.results == all.result.value
                  && GetSubmissions(config, client, args).calls == [AssignmentsRequest(courseId)] + all.calls
  {
  }

  /** A report has exactly one result per target assignment, in target
      order: each is that target's run (its name, id and the join of its
      submissions with its grades). The calls are the assignments call, then
      per target its submissions call and its grades call. */
  lemma ReportFollowsTargets(config: Config, client: Client, args: Value)
    requires GetSubmissions(config, client, args).result.Ok?
    requires GetSubmissions(config, client, args).result.value.Report?
    ensures var courseId := GetCourseId(args, config.defaultCourseId).value;
            var reply := client(AssignmentsRequest(courseId));
            var targets := SubmissionTargets(reply.data, courseId, OptGet(args, "assignmentId"));
            var results := GetSubmissions(config, client, args).result.value.results;
            var calls := GetSubmissions(config, client, args).calls;
            reply.Response? && targets.Ok? && targets.value.Arr?
            && |targets.value.items| > 0
            && |results| == |targets.value.items|
            && |calls| == 1 + 2 * |targets.value.items|
            && calls[0] == AssignmentsRequest(courseId)
            && (forall i :: 0 <= i < |results| ==>
                  calls[1 + 2 * i] == SubmissionsRequest(Prop(targets.value.items[i], "id"))
                  && calls[2 + 2 * i] == GradesRequest(Prop(targets.value.items[i], "id")))
            && forall i :: 0 <= i < |results| ==>
                 AssignmentRun(client, OptGet(args, "studentId"), targets.value.items[i]).result == Ok(results[i])
                 && results[i].assignmentId == Prop(targets.value.items[i], "id")
                 && results[i].assignment == Prop(targets.value.items[i], "name")
  {
    ReportIsFanOut(config, client, args);
    var courseId := GetCourseId(args, config.defaultCourseId).value;
    var reply := client(AssignmentsRequest(courseId));
    var items := SubmissionTargets(reply.data, courseId, OptGet(args, "assignmentId")).value.items;
    var all := CollectAll(client, OptGet(args, "studentId"), items);
    CollectAllPointwise(client, OptGet(args, "studentId"), items);
    CollectAllCalls(client, OptGet(args, "studentId"), items);
    var calls := [AssignmentsRequest(courseId)] + all.calls;
    forall i | 0 <= i < |items|
      ensures calls[1 + 2 * i] == SubmissionsRequest(Prop(items[i], "id"))
      ensures calls[2 + 2 * i] == GradesRequest(Prop(items[i], "id"))
    {
      assert calls[1 + 2 * i] == all.calls[2 * i];
      assert calls[2 + 2 * i] == all.calls[2 * i + 1];
    }
  }

  // ---------------------------------------------------------------------
  // provideFeedback

  const FEEDBACK_REQUIRED: string := "Student ID, Assignment ID, and feedback are required"

  /** The `mod_assign_save_grade` call, with its fixed values. */
  function FeedbackRequest(args: Value): Request {
    Request("mod_assign_save_grade",
            map["assignmentid" := Prop(args, "assignmentId"),
                "userid" := Prop(args, "studentId"),
                "grade" := Or(Prop(args, "grade"), Num(0)),
                "attemptnumber" := Num(-1),
                "addattempt" := Num(0),
                "workflowstate" := Str("released"),
                "applytoall" := Num(0),
                "plugindata" := Obj(map["assignfeedbackcomments_editor" :=
                                          Obj(map["text" := Prop(args, "feedback"), "format" := Num(1)])])])
  }

  /** The `provide_feedback` handler. Its text reports success whatever the
      upstream answered, as long as the call itself did not fail. */
  function ProvideFeedback(client: Client, args: Value): (r: Run<string>)
    ensures Nullish(args) ==> r.result.Err? && r.result.error.TypeError? && r.calls == []
    ensures !Nullish(args) && !(Truthy(Prop(args, "studentId")) && Truthy(Prop(args, "assignmentId"))
                                && Truthy(Prop(args, "feedback"))) ==>
              r == Run(Err(McpError(InvalidParams, FEEDBACK_REQUIRED)), [])
    ensures !Nullish(args) && Truthy(Prop(args, "studentId")) && Truthy(Prop(args, "assignmentId"))
            && Truthy(Prop(args, "feedback")) ==>
              r.calls == [FeedbackRequest(args)]
              && (r.result.Ok? <==> client(FeedbackRequest(args)).Response?)
              && (r.result.Err? ==> r.result.error.AxiosError?)
    ensures r.result.Ok? ==>
              r.result.value == "Feedback successfully provided for student " + JsString(Prop(args, "studentId"))
                                + " on assignment " + JsString(Prop(args, "assignmentId")) + "."
  {
    match Get(args, "studentId")
    case Err(e) => Run(Err(e), [])
    case Ok(studentId) =>
      if !Truthy(studentId) || !Truthy(Prop(args, "assignmentId")) || !Truthy(Prop(args, "feedback")) then
        Run(Err(McpError(InvalidParams, FEEDBACK_REQUIRED)), [])
      else
        var req := FeedbackRequest(args);
        var result :=
          var ignored :- Fetch(client, req);
          Ok("Feedback successfully provided for student " + JsString(studentId)
             + " on assignment " + JsString(Prop(args, "assignmentId")) + ".");
        Run(result, [req])
  }

  /** The grade sent is the caller's when truthy, else 0; the attempt is
      -1 and the workflow state 'released'. */
  lemma FeedbackRequestValues(args: Value)
    ensures var p := FeedbackRequest(args).params;
            (Truthy(Prop(args, "grade")) ==> p["grade"] == Prop(args, "grade"))
            && (!Truthy(Prop(args, "grade")) ==> p["grade"] == Num(0))
            && p["attemptnumber"] == Num(-1) && p["workflowstate"] == Str("released")
            && p["userid"] == Prop(args, "studentId") && p["assignmentid"] == Prop(args, "assignmentId")
  {
  }

  // ---------------------------------------------------------------------
  // getSubmissionContent: the plugin scan

  datatype FileEntry = FileEntry(filename: Value, fileurl: Value, filesize: Value, filetype: Value)

  /** The scan's two variables: `submissionText` and `files`. */
  datatype ScanState = ScanState(text: Value, files: seq<FileEntry>)

  /** What one plugin contributes: a new text, if any, and files. */
  datatype Contribution = Contribution(text: Option<Value>, files: seq<FileEntry>)

  /** `v` is the first element of `xs` whose `field` is `=== wanted`, or
      undefined when there is none. */
  predicate IsFirstWith(xs: seq<Value>, field: string, wanted: Value, v: Value) {
    (v == Undefined && forall j :: 0 <= j < |xs| ==> !StrictEq(Prop(xs[j], field), wanted))
    || (exists i :: 0 <= i < |xs| && v == xs[i] && StrictEq(Prop(xs[i], field), wanted)
                    && forall j :: 0 <= j < i ==> !StrictEq(Prop(xs[j], field), wanted))
  }

  /** A completed `xs.find(x => x.<field> === wanted)` yields the first
      element whose field is `wanted`, or undefined when there is none. */
  lemma FindWithFieldIsFirst(xs: seq<Value>, field: string, wanted: Value, p: Value -> Result<bool>)
    requires forall x :: p(x) == HasFieldValue(field, wanted, x)
    requires Find(xs, p).Ok?
    ensures IsFirstWith(xs, field, wanted, Find(xs, p).value)
  {
    FindFirstAccepted(xs, p);
    if Find(xs, p).value == Undefined && forall j :: 0 <= j < |xs| ==> p(xs[j]) == Ok(false) {
      forall j | 0 <= j < |xs|
        ensures !StrictEq(Prop(xs[j], field), wanted)
      {
        assert p(xs[j]) == Ok(false);
      }
    } else {
      var i :| 0 <= i < |xs| && Find(xs, p).value == xs[i] && p(xs[i]) == Ok(true)
               && forall j :: 0 <= j < i ==> p(xs[j]) == Ok(false);
      assert p(xs[i]) == Ok(true);
      forall j | 0 <= j < i
        ensures !StrictEq(Prop(xs[j], field), wanted)
      {
        assert p(xs[j]) == Ok(false);
      }
    }
  }

  /** `plugin.editorfields?.find(field => field.name === 'onlinetext')`,
      given `plugin.editorfields`: the first editor field named
      "onlinetext". */
  function TextField(editorfields: Value): (r: Result<Value>)
    ensures Nullish(editorfields) ==> r == Ok(Undefined)
    ensures !Nullish(editorfields) && !editorfields.Arr? ==> r.Err?
    ensures r.Ok? && editorfields.Arr? ==> IsFirstWith(editorfields.items, "name", Str("onlinetext"), r.value)
    ensures r.Err? ==> r.error.TypeError?
  {
    if Nullish(editorfields) then Ok(Undefined)
    else
      var items :- ArrayMethod(editorfields, "find");
      var isText := field => HasFieldValue("name", Str("onlinetext"), field);
      FindErrorFromCallback(items, isText);
      var found :- Find(items, isText);
      FindWithFieldIsFirst(items, "name", Str("onlinetext"), isText);
      Ok(found)
  }

  /** `plugin.fileareas?.find(area => area.area === 'submission_files')`,
      given `plugin.fileareas`: the first file area of the submission's own
      files. */
  function FilesArea(fileareas: Value): (r: Result<Value>)
    ensures Nullish(fileareas) ==> r == Ok(Undefined)
    ensures !Nullish(fileareas) && !fileareas.Arr? ==> r.Err?
    ensures r.Ok? && fileareas.Arr? ==> IsFirstWith(fileareas.items, "area", Str("submission_files"), r.value)
    ensures r.Err? ==> r.error.TypeError?
  {
    if Nullish(fileareas) then Ok(Undefined)
    else
      var items :- ArrayMethod(fileareas, "find");
      var isSubmissionFiles := area => HasFieldValue("area", Str("submission_files"), area);
      FindErrorFromCallback(items, isSubmissionFiles);
      var found :- Find(items, isSubmissionFiles);
      FindWithFieldIsFirst(items, "area", Str("submission_files"), isSubmissionFiles);
      Ok(found)
  }

  /** The entry pushed for one file; `filetype` is the upstream `mimetype`. */
  function ShapeFile(file: Value): (r: Result<FileEntry>)
    ensures r.Err? <==> Nullish(file)
    ensures r.Ok? ==> r.value == FileEntry(Prop(file, "filename"), Prop(file, "fileurl"),
                                           Prop(file, "filesize"), Prop(file, "mimetype"))
  {
    var filename :- Get(file, "filename");
    Ok(FileEntry(filename, Prop(file, "fileurl"), Prop(file, "filesize"), Prop(file, "mimetype")))
  }

  /** What one pass of the loop body takes from a plugin: an onlinetext
      plugin gives the text of its first "onlinetext" editor field (`''`
      when that text is falsy, nothing when there is no such field); a file
      plugin gives one entry per file of its first "submission_files" area;
      any other plugin gives nothing. */
  function PluginContribution(plugin: Value): (r: Result<Contribution>)
    ensures Nullish(plugin) ==> r.Err? && r.error.TypeError?
    ensures r.Ok? && Prop(plugin, "type") != Str("onlinetext") ==> r.value.text == None
    ensures r.Ok? && Prop(plugin, "type") != Str("file") ==> r.value.files == []
    ensures r.Ok? && Prop(plugin, "type") == Str("onlinetext") ==>
              var field := TextField(Prop(plugin, "editorfields"));
              field.Ok?
              && r.value.text == (if Truthy(field.value) then Some(Or(Prop(field.value, "text"), Str(""))) else None)
    ensures r.Ok? && Prop(plugin, "type") == Str("file") ==>
              var area := FilesArea(Prop(plugin, "fileareas"));
              area.Ok?
              && (!(Truthy(area.value) && Truthy(Prop(area.value, "files"))) ==> r.value.files == [])
              && (Truthy(area.value) && Truthy(Prop(area.value, "files")) ==>
                    var list := Iterate(Prop(area.value, "files"));
                    list.Ok? && |r.value.files| == |list.value|
                    && forall i :: 0 <= i < |list.value| ==> ShapeFile(list.value[i]) == Ok(r.value.files[i]))
    ensures r.Err? ==> r.error.TypeError?
  {
    var kind :- Get(plugin, "type");
    if StrictEq(kind, Str("onlinetext")) then
      var field :- TextField(Prop(plugin, "editorfields"));
      Ok(Contribution(if Truthy(field) then Some(Or(Prop(field, "text"), Str(""))) else None, []))
    else if StrictEq(kind, Str("file")) then
      var area :- FilesArea(Prop(plugin, "fileareas"));
      if Truthy(area) && Truthy(Prop(area, "files")) then
        var files :- Iterate(Prop(area, "files"));
        MapAllErrorFromCallback(files, ShapeFile);
        var entries :- MapAll(files, ShapeFile);
        MapAllPointwise(files, ShapeFile);
        Ok(Contribution(None, entries))
      else Ok(Contribution(None, []))
    else Ok(Contribution(None, []))
  }

  function Absorb(st: ScanState, c: Contribution): ScanState {
    ScanState(if c.text.Some? then c.text.value else st.text, st.files + c.files)
  }

  /** The scan as a fold over the plugins, left to right. */
  function Scan(plugins: seq<Value>): (r: Result<ScanState>)
    ensures r.Err? ==> r.error.TypeError?
    decreases |plugins|
  {
    if plugins == [] then Ok(ScanState(Str(""), []))
    else
      var st :- Scan(plugins[..|plugins| - 1]);
      var c :- PluginContribution(plugins[|plugins| - 1]);
      Ok(Absorb(st, c))
  }

  /** The text of the last contribution that has one, else "". */
  function LastText(cs: seq<Contribution>): Value
    decreases |cs|
  {
    if cs == [] then Str("")
    else if cs[|cs| - 1].text.Some? then cs[|cs| - 1].text.value
    else LastText(cs[..|cs| - 1])
  }

  /** All contributed files, in plugin order. */
  function AllFiles(cs: seq<Contribution>): seq<FileEntry>
    decreases |cs|
  {
    if cs == [] then [] else AllFiles(cs[..|cs| - 1]) + cs[|cs| - 1].files
  }

  /** The fold is the same as taking each plugin's contribution separately:
      the text is the last contributed text, the files are all contributed
      files in plugin order, and the scan throws exactly when reading some
      plugin throws. */
  lemma {:induction false} ScanIsLastTextAndAllFiles(plugins: seq<Value>)
    ensures Scan(plugins).Ok? <==> MapAll(plugins, PluginContribution).Ok?
    ensures Scan(plugins).Ok? ==>
              Scan(plugins).value == ScanState(LastText(MapAll(plugins, PluginContribution).value),
                                               AllFiles(MapAll(plugins, PluginContribution).value))
    decreases |plugins|
  {
    if plugins != [] {
      ScanIsLastTextAndAllFiles(plugins[..|plugins| - 1]);
    }
  }

  /** The last contributed text is one some plugin contributed, after
      which no plugin contributed one; "" when none did. */
  lemma {:induction false} LastTextIsTheLastOne(cs: seq<Contribution>)
    ensures (LastText(cs) == Str("") && forall j :: 0 <= j < |cs| ==> cs[j].text.None?)
         || (exists i :: 0 <= i < |cs| && cs[i].text == Some(LastText(cs))
                         && forall j :: i < j < |cs| ==> cs[j].text.None?)
    decreases |cs|
  {
    if cs != [] && cs[|cs| - 1].text.None? {
      var init := cs[..|cs| - 1];
      LastTextIsTheLastOne(init);
      assert forall j :: 0 <= j < |init| ==> init[j] == cs[j];
    }
  }

  /** Once a prefix of the plugins has been scanned, the next plugin either
      extends it or ends the whole scan with its error. */
  lemma {:induction false} ScanStep(plugins: seq<Value>, i: nat)
    requires i < |plugins| && Scan(plugins[..i]).Ok?
    ensures PluginContribution(plugins[i]).Ok? ==>
              Scan(plugins[..i + 1]) == Ok(Absorb(Scan(plugins[..i]).value, PluginContribution(plugins[i]).value))
    ensures PluginContribution(plugins[i]).Err? ==> Scan(plugins) == Err(PluginContribution(plugins[i]).error)
  {
    assert plugins[..i + 1][..i] == plugins[..i];
    if PluginContribution(plugins[i]).Err? {
      ScanStopsAfter(plugins, i + 1);
    }
  }

  lemma {:induction false} ScanStopsAfter(plugins: seq<Value>, j: nat)
    requires j <= |plugins| && Scan(plugins[..j]).Err?
    ensures Scan(plugins) == Scan(plugins[..j])
    decreases |plugins| - j
  {
    if j < |plugins| {
      assert plugins[..j + 1][..j] == plugins[..j];
      ScanStopsAfter(plugins, j + 1);
    } else {
      assert plugins[..j] == plugins;
    }
  }

  /** The loops of `getSubmissionContent` over the plugins and over each
      file area's files, updating `submissionText` and pushing to `files`. */
  method ScanPlugins(plugins: seq<Value>) returns (r: Result<ScanState>)
    ensures r == Scan(plugins)
  {
    var submissionText := Str("");
    var files: seq<FileEntry> := [];
    for i := 0 to |plugins|
      invariant Scan(plugins[..i]) == Ok(ScanState(submissionText, files))
    {
      ScanStep(plugins, i);
      var next := ScanPlugin(plugins[i], submissionText, files);
      if next.Err? {
        return Err(next.error);
      }
      submissionText, files := next.value.text, next.value.files;
    }
    assert plugins[..|plugins|] == plugins;
    return Ok(ScanState(submissionText, files));
  }

  /** One pass of the outer loop's body: it may overwrite `submissionText`
      and push the files of one plugin. */
  method ScanPlugin(plugin: Value, submissionText: Value, files: seq<FileEntry>) returns (r: Result<ScanState>)
    ensures PluginContribution(plugin).Err? ==> r == Err(PluginContribution(plugin).error)
    ensures PluginContribution(plugin).Ok? ==>
              r == Ok(Absorb(ScanState(submissionText, files), PluginContribution(plugin).value))
  {
    var kind := Get(plugin, "type");
    if kind.Err? {
      return Err(kind.error);
    }
    var text := submissionText;
    if StrictEq(kind.value, Str("onlinetext")) {
      var field := TextField(Prop(plugin, "editorfields"));
      if field.Err? {
        return Err(field.error);
      }
      if Truthy(field.value) {
        text := Or(Prop(field.value, "text"), Str(""));
      }
      ghost var c := Contribution(if Truthy(field.value) then Some(text) else None, []);
      assert PluginContribution(plugin) == Ok(c);
      assert files + [] == files;
      assert Absorb(ScanState(submissionText, files), c) == ScanState(text, files);
      return Ok(ScanState(text, files));
    }
    if StrictEq(kind.value, Str("file")) {
      var area := FilesArea(Prop(plugin, "fileareas"));
      if area.Err? {
        return Err(area.error);
      }
      if Truthy(area.value) && Truthy(Prop(area.value, "files")) {
        var list := Iterate(Prop(area.value, "files"));
        if list.Err? {
          return Err(list.error);
        }
        var pushed := PushFiles(list.value, files);
        if pushed.Err? {
          return Err(pushed.error);
        }
        return Ok(ScanState(text, pushed.value));
      }
      assert files + [] == files;
      return Ok(ScanState(text, files));
    }
    assert files + [] == files;
    return Ok(ScanState(text, files));
  }

  /** The inner loop: push one entry per file onto `files`. */
  method PushFiles(list: seq<Value>, files: seq<FileEntry>) returns (r: Result<seq<FileEntry>>)
    ensures MapAll(list, ShapeFile).Err? ==> r == Err(MapAll(list, ShapeFile).error)
    ensures MapAll(list, ShapeFile).Ok? ==> r == Ok(files + MapAll(list, ShapeFile).value)
  {
    var out := files;
    assert list[..0] == [] && out[|files|..] == [];
    for j := 0 to |list|
      invariant |files| <= |out| && out[..|files|] == files
      invariant MapAll(list[..j], ShapeFile) == Ok(out[|files|..])
    {
      MapAllStep(list, ShapeFile, j);
      var entry := ShapeFile(list[j]);
      if entry.Err? {
        return Err(entry.error);
      }
      assert (out + [entry.value])[|files|..] == out[|files|..] + [entry.value];
      out := out + [entry.value];
    }
    assert list[..|list|] == list;
    assert out == files + out[|files|..];
    return Ok(out);
  }

  // ---------------------------------------------------------------------
  // getSubmissionContent

  const CONTENT_REQUIRED: string := "Student ID and Assignment ID are required"

  /** The two summary blocks of the output. */
  datatype PluginBlock = OnlineTextBlock(content: Value) | FileBlock(files: seq<FileEntry>)

  datatype SubmissionContent = SubmissionContent(assignment: Value, userid: Value, status: Value,
                                                 submissiontext: Value, plugins: seq<PluginBlock>,
                                                 timemodified: Value)

  /** The content, or the `isError` text the handler's own catch builds
      from a failed upstream call. */
  datatype ContentReply = Content(content: SubmissionContent) | ContentError(text: string)

  function ContentRequest(args: Value): Request {
    Request("mod_assign_get_submission_status",
            map["assignid" := Prop(args, "assignmentId"), "userid" := Prop(args, "studentId")])
  }

  /** `response.data.lastattempt?.submission?.plugins || []` */
  function SubmittedPlugins(data: Value): Value {
    Or(OptGet(OptGet(Prop(data, "lastattempt"), "submission"), "plugins"), Arr([]))
  }

  /** The content built from the `mod_assign_get_submission_status` body. */
  function BuildContent(args: Value, data: Value): (r: Result<SubmissionContent>)
    ensures r.Err? ==> r.error.TypeError?
    ensures Nullish(data) ==> r.Err?
    ensures r.Ok? ==> |r.value.plugins| == 2
                      && r.value.plugins[0] == OnlineTextBlock(r.value.submissiontext)
                      && r.value.plugins[1].FileBlock?
    ensures r.Ok? ==> Iterate(SubmittedPlugins(data)).Ok?
                      && Scan(Iterate(SubmittedPlugins(data)).value)
                         == Ok(ScanState(r.value.submissiontext, r.value.plugins[1].files))
    ensures r.Ok? ==> var submission := Or(Prop(data, "submission"), Obj(map[]));
                      r.value.status == Or(Prop(submission, "status"), Str("unknown"))
                      && r.value.timemodified == Or(Prop(submission, "timemodified"), Num(0))
    ensures r.Ok? ==> r.value.assignment == Prop(args, "assignmentId") && r.value.userid == Prop(args, "studentId")
  {
    var submissionField :- Get(data, "submission");
    var submission := Or(submissionField, Obj(map[]));
    var plugins :- Iterate(SubmittedPlugins(data));
    var scan :- Scan(plugins);
    Ok(SubmissionContent(Prop(args, "assignmentId"), Prop(args, "studentId"),
                         Or(Prop(submission, "status"), Str("unknown")), scan.text,
                         [OnlineTextBlock(scan.text), FileBlock(scan.files)],
                         Or(Prop(submission, "timemodified"), Num(0))))
  }

  /** The `get_submission_content` handler. */
  function GetSubmissionContent(client: Client, args: Value): (r: Run<ContentReply>)
    ensures Nullish(args) ==> r.result.Err? && r.result.error.TypeError? && r.calls == []
    ensures !Nullish(args) && !(Truthy(Prop(args, "studentId")) && Truthy(Prop(args, "assignmentId"))) ==>
              r == Run(Err(McpError(InvalidParams, CONTENT_REQUIRED)), [])
    ensures !Nullish(args) && Truthy(Prop(args, "studentId")) && Truthy(Prop(args, "assignmentId")) ==>
              r.calls == [ContentRequest(args)]
    ensures client(ContentRequest(args)).Failed? && !Nullish(args) && Truthy(Prop(args, "studentId"))
            && Truthy(Prop(args, "assignmentId")) ==>
              var reply := client(ContentRequest(args));
              r.result == Ok(ContentError("Error getting submission content: "
                                          + AxiosDetail(reply.responseData, reply.message)))
    ensures client(ContentRequest(args)).Response? && !Nullish(args) && Truthy(Prop(args, "studentId"))
            && Truthy(Prop(args, "assignmentId")) ==>
              r.result == (var content :- BuildContent(args, client(ContentRequest(args)).data);
                           Ok(Content(content)))
    ensures r.result.Err? ==> r.result.error.TypeError? || r.result.error == McpError(InvalidParams, CONTENT_REQUIRED)
  {
    match Get(args, "studentId")
    case Err(e) => Run(Err(e), [])
    case Ok(studentId) =>
      if !Truthy(studentId) || !Truthy(Prop(args, "assignmentId")) then
        Run(Err(McpError(InvalidParams, CONTENT_REQUIRED)), [])
      else
        var req := ContentRequest(args);
        match client(req)
        case Failed(responseData, message) =>
          Run(Ok(ContentError("Error getting submission content: " + AxiosDetail(responseData, message))), [req])
        case Response(data) =>
          match BuildContent(args, data)
          case Err(e) => Run(Err(e), [req])
          case Ok(content) => Run(Ok(Content(content)), [req])
  }
}
