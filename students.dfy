/** `getStudents`: the enrolled users of a course that hold the student
    role. */
module Students {
  import opened Js
  import opened Normalize
  import opened MoodleClient

  datatype Student = Student(id: Value, username: Value, firstname: Value, lastname: Value,
                             email: Value, lastaccess: Timestamp)

  /** What `get_students` returns: the resolved course id and the students. */
  datatype StudentListing = StudentListing(courseId: string, students: seq<Student>)

  /** `role.shortname === 'student'` */
  function IsStudentRole(role: Value): (r: Result<bool>)
    ensures r.Err? <==> Nullish(role)
    ensures r.Ok? ==> (r.value <==> Prop(role, "shortname") == Str("student"))
  {
    var shortname :- Get(role, "shortname");
    Ok(StrictEq(shortname, Str("student")))
  }

  /** `user.roles?.some(role => role.shortname === 'student')`, as the filter
      reads it: absent roles count as no. */
  function HasStudentRole(user: Value): (r: Result<bool>)
    ensures Nullish(user) ==> r.Err? && r.error.TypeError?
    ensures !Nullish(user) && Nullish(Prop(user, "roles")) ==> r == Ok(false)
  {
    var roles :- Get(user, "roles");
    if Nullish(roles) then Ok(false)
    else
      var items :- ArrayMethod(roles, "some");
      Any(items, IsStudentRole)
  }

  function ShapeStudent(user: Value): (r: Result<Student>)
    ensures r.Err? <==> Nullish(user)
    ensures r.Ok? ==> r.value == Student(Prop(user, "id"), Prop(user, "username"), Prop(user, "firstname"),
                                         Prop(user, "lastname"), Prop(user, "email"),
                                         DateOrNull(Prop(user, "lastaccess")))
  {
    var id :- Get(user, "id");
    Ok(Student(id, Prop(user, "username"), Prop(user, "firstname"), Prop(user, "lastname"),
               Prop(user, "email"), DateOrNull(Prop(user, "lastaccess"))))
  }

  /** The students computed from the `core_enrol_get_enrolled_users` body. */
  function ShapeStudents(layout: Layout, courseId: string, data: Value): Result<seq<Student>> {
    var valid :- if layout == Modular
                 then ValidateArrayResponse(data, "get_students (courseId: " + courseId + ")")
                 else Ok(());
    var items :- ArrayMethod(data, "filter");
    var kept :- Filter(items, HasStudentRole);
    MapAll(kept, ShapeStudent)
  }

  function StudentsRequest(courseId: string): Request {
    Request("core_enrol_get_enrolled_users", map["courseid" := Str(courseId)])
  }

  /** The `get_students` handler. */
  function GetStudents(layout: Layout, config: Config, client: Client, args: Value): (r: Run<StudentListing>)
    ensures GetCourseId(args, config.defaultCourseId).Err? ==>
              r == Run(Err(GetCourseId(args, config.defaultCourseId).error), [])
    ensures GetCourseId(args, config.defaultCourseId).Ok? ==>
              var courseId := GetCourseId(args, config.defaultCourseId).value;
              var reply := client(StudentsRequest(courseId));
              r.calls == [StudentsRequest(courseId)]
              && (reply.Failed? ==> r.result == Err(AxiosError(reply.responseData, reply.message)))
              && (reply.Response? ==>
                    r.result == (var students :- ShapeStudents(layout, courseId, reply.data);
                                 Ok(StudentListing(courseId, students))))
    ensures r.result.Ok? ==> r.result.value.courseId == GetCourseId(args, config.defaultCourseId).value
  {
    match GetCourseId(args, config.defaultCourseId)
    case Err(e) => Run(Err(e), [])
    case Ok(courseId) =>
      var req := StudentsRequest(courseId);
      var result :=
        var data :- Fetch(client, req);
        var students :- ShapeStudents(layout, courseId, data);
        Ok(StudentListing(courseId, students));
      Run(result, [req])
  }

  /** A user, with its roles read without error, holds the student role
      exactly when some role in `roles` has the short name "student". */
  lemma StudentRoleMeansSomeStudentRole(user: Value)
    requires HasStudentRole(user).Ok?
    ensures HasStudentRole(user).value <==>
              Prop(user, "roles").Arr?
              && exists i :: 0 <= i < |Prop(user, "roles").items|
                             && Prop(Prop(user, "roles").items[i], "shortname") == Str("student")
  {
    var roles := Prop(user, "roles");
    if roles.Arr? {
      AnyMeansSomeAccepted(roles.items, IsStudentRole);
      if !HasStudentRole(user).value {
        forall i | 0 <= i < |roles.items|
          ensures Prop(roles.items[i], "shortname") != Str("student")
        {
          assert IsStudentRole(roles.items[i]) == Ok(false);
        }
      }
    }
  }

  /** The students are an order-preserving subsequence of the users: the
      users at positions `idx`, which are exactly those holding the student
      role, each shaped into exactly the six output fields. */
  lemma {:induction false} StudentsAreStudentUsers(layout: Layout, courseId: string, data: Value)
    returns (idx: seq<nat>)
    requires ShapeStudents(layout, courseId, data).Ok?
    ensures data.Arr?
    ensures |idx| == |ShapeStudents(layout, courseId, data).value|
    ensures forall k, l :: 0 <= k < l < |idx| ==> idx[k] < idx[l]
    ensures forall k :: 0 <= k < |idx| ==>
              (idx[k] < |data.items|
               && HasStudentRole(data.items[idx[k]]) == Ok(true)
               && ShapeStudent(data.items[idx[k]]) == Ok(ShapeStudents(layout, courseId, data).value[k]))
    ensures forall i :: 0 <= i < |data.items| && HasStudentRole(data.items[i]) == Ok(true) ==> i in idx
    ensures forall i :: 0 <= i < |data.items| ==> HasStudentRole(data.items[i]).Ok?
  {
    idx := FilterKeepsAcceptedInOrder(data.items, HasStudentRole);
    MapAllPointwise(Filter(data.items, HasStudentRole).value, ShapeStudent);
  }

  /** `lastaccess` is null exactly when the upstream value is falsy. */
  lemma LastAccessUnsetIffFalsy(user: Value)
    requires ShapeStudent(user).Ok?
    ensures ShapeStudent(user).value.lastaccess == NoDate <==> !Truthy(Prop(user, "lastaccess"))
  {
    DateOrNullZeroIsUnset(Prop(user, "lastaccess"));
  }

  /** A body that is not an array fails before filtering in the modular
      copy; the monolithic copy throws a TypeError at `.filter`. */
  lemma StudentsRejectNonArray(courseId: string, data: Value)
    requires !data.Arr?
    ensures ShapeStudents(Modular, courseId, data)
            == Err(ValidateArrayResponse(data, "get_students (courseId: " + courseId + ")").error)
    ensures ShapeStudents(Monolithic, courseId, data).Err? && ShapeStudents(Monolithic, courseId, data).error.TypeError?
  {
  }

  lemma StudentLayoutsAgreeOnArrays(courseId: string, data: Value)
    requires data.Arr?
    ensures ShapeStudents(Modular, courseId, data) == ShapeStudents(Monolithic, courseId, data)
  {
  }
}
