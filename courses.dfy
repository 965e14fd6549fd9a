/** `listCourses` and `getCourseContents`: the course catalogue without the
    site course, and a course's sections with their modules. */
module Courses {
  import opened Js
  import opened Normalize
  import opened MoodleClient

  /** One entry of the course list. */
  datatype Course = Course(id: Value, shortname: Value, fullname: Value, visible: bool,
                           summary: string, categoryid: Value)

  /** What `list_courses` returns: the courses and the trailer appended to
      their serialisation. */
  datatype CourseListing = CourseListing(courses: seq<Course>, note: string)

  datatype CourseModule = CourseModule(id: Value, name: Value, modname: Value, visible: bool, url: Value)

  datatype Section = Section(id: Value, name: Value, summary: string, visible: bool,
                             modules: seq<CourseModule>)

  const SUMMARY_LIMIT: nat := 200

  // ---------------------------------------------------------------------
  // listCourses

  /** `course.id !== 1`: the site-level course is the one with id 1. */
  function IsNotSiteCourse(course: Value): (r: Result<bool>)
    ensures r.Err? <==> Nullish(course)
    ensures r.Ok? ==> (r.value <==> Prop(course, "id") != Num(1))
  {
    var id :- Get(course, "id");
    Ok(!StrictEq(id, Num(1)))
  }

  /** `summary ? summary.replace(/<[^>]*>/g, '').trim().substring(0, 200) : ''` */
  function CourseSummary(summary: Value): (r: Result<string>)
    ensures r.Err? <==> Truthy(summary) && !summary.Str?
    ensures !Truthy(summary) ==> r == Ok("")
    ensures summary.Str? ==> r == Ok(Truncate(StripHtml(summary.s), SUMMARY_LIMIT))
    ensures r.Ok? ==> |r.value| <= SUMMARY_LIMIT && NoTag(r.value)
  {
    if Truthy(summary) then
      var html :- StringMethod(summary, "replace");
      StrippedAndTruncatedHasNoTag(html, SUMMARY_LIMIT);
      Ok(Truncate(StripHtml(html), SUMMARY_LIMIT))
    else Ok("")
  }

  /** The record built for one course. */
  function ShapeCourse(course: Value): (r: Result<Course>)
    ensures r.Err? <==> Nullish(course) || (Truthy(Prop(course, "summary")) && !Prop(course, "summary").Str?)
    ensures r.Ok? ==> r.value.id == Prop(course, "id") && r.value.categoryid == Prop(course, "categoryid")
    ensures r.Ok? ==> r.value.shortname == Prop(course, "shortname") && r.value.fullname == Prop(course, "fullname")
    ensures r.Ok? ==> (r.value.visible <==> Prop(course, "visible") == Num(1))
    ensures r.Ok? ==> CourseSummary(Prop(course, "summary")) == Ok(r.value.summary)
    ensures r.Ok? ==> |r.value.summary| <= SUMMARY_LIMIT && NoTag(r.value.summary)
  {
    // The first read throws on null or undefined; once it has not, the
    // other reads of the same record cannot.
    var id :- Get(course, "id");
    var summary :- CourseSummary(Prop(course, "summary"));
    Ok(Course(id, Prop(course, "shortname"), Prop(course, "fullname"), IsOne(Prop(course, "visible")),
              summary, Prop(course, "categoryid")))
  }

  /** The course list computed from the `core_course_get_courses` body. The
      modular copy validates the shape first; the monolithic one goes
      straight to `.filter`. */
  function ShapeCourseList(layout: Layout, data: Value): Result<seq<Course>> {
    var valid :- if layout == Modular then ValidateArrayResponse(data, "list_courses") else Ok(());
    var items :- ArrayMethod(data, "filter");
    var kept :- Filter(items, IsNotSiteCourse);
    MapAll(kept, ShapeCourse)
  }

  /** The trailer after the course list. */
  function DefaultNote(defaultCourseId: Option<string>): (note: string)
    ensures defaultCourseId.Some? && defaultCourseId.value != "" ==>
              note == "\n\nDefault course ID: " + defaultCourseId.value
    ensures defaultCourseId.None? || defaultCourseId.value == "" ==>
              note == "\n\nNo default course ID configured. Pass courseId to other tools."
  {
    if defaultCourseId.Some? && defaultCourseId.value != "" then "\n\nDefault course ID: " + defaultCourseId.value
    else "\n\nNo default course ID configured. Pass courseId to other tools."
  }

  const LIST_COURSES_REQUEST: Request := Request("core_course_get_courses", map[])

  /** The `list_courses` handler: one upstream call, then the list. */
  function ListCourses(layout: Layout, config: Config, client: Client): (r: Run<CourseListing>)
    ensures r.calls == [LIST_COURSES_REQUEST]
    ensures client(LIST_COURSES_REQUEST).Failed? ==>
              r.result == Err(AxiosError(client(LIST_COURSES_REQUEST).responseData, client(LIST_COURSES_REQUEST).message))
    ensures client(LIST_COURSES_REQUEST).Response? ==>
              r.result == (var courses :- ShapeCourseList(layout, client(LIST_COURSES_REQUEST).data);
                           Ok(CourseListing(courses, DefaultNote(config.defaultCourseId))))
  {
    var result :=
      var data :- Fetch(client, LIST_COURSES_REQUEST);
      var courses :- ShapeCourseList(layout, data);
      Ok(CourseListing(courses, DefaultNote(config.defaultCourseId)));
    Run(result, [LIST_COURSES_REQUEST])
  }

  /** The listed courses are exactly the input records whose id is not 1,
      in input order (`idx` gives their positions), each shaped as above. */
  lemma {:induction false} CourseListIsNonSiteCourses(layout: Layout, data: Value) returns (idx: seq<nat>)
    requires ShapeCourseList(layout, data).Ok?
    ensures data.Arr?
    ensures |idx| == |ShapeCourseList(layout, data).value|
    ensures forall k, l :: 0 <= k < l < |idx| ==> idx[k] < idx[l]
    ensures forall k :: 0 <= k < |idx| ==>
              (idx[k] < |data.items|
               && Prop(data.items[idx[k]], "id") != Num(1)
               && ShapeCourse(data.items[idx[k]]) == Ok(ShapeCourseList(layout, data).value[k]))
    ensures forall i :: 0 <= i < |data.items| && Prop(data.items[i], "id") != Num(1) ==> i in idx
  {
    var kept := Filter(data.items, IsNotSiteCourse).value;
    idx := FilterKeepsAcceptedInOrder(data.items, IsNotSiteCourse);
    MapAllPointwise(kept, ShapeCourse);
  }

  /** No listed course is the site course, every summary is at most 200
      characters, and none holds a tag. */
  lemma CourseListEntriesAreClean(layout: Layout, data: Value, k: nat)
    requires ShapeCourseList(layout, data).Ok? && k < |ShapeCourseList(layout, data).value|
    ensures ShapeCourseList(layout, data).value[k].id != Num(1)
    ensures |ShapeCourseList(layout, data).value[k].summary| <= SUMMARY_LIMIT
    ensures NoTag(ShapeCourseList(layout, data).value[k].summary)
  {
    var idx := CourseListIsNonSiteCourses(layout, data);
  }

  /** The two copies agree on every array body. On any other body the
      modular copy reports a shape error, the monolithic one a TypeError:
      index.ts has no shape check. */
  lemma CourseListLayouts(data: Value)
    ensures data.Arr? ==> ShapeCourseList(Modular, data) == ShapeCourseList(Monolithic, data)
    ensures !data.Arr? ==> ShapeCourseList(Modular, data) == Err(ValidateArrayResponse(data, "list_courses").error)
    ensures !data.Arr? ==> ShapeCourseList(Monolithic, data).Err? && ShapeCourseList(Monolithic, data).error.TypeError?
  {
  }

  // ---------------------------------------------------------------------
  // getCourseContents

  function ShapeModule(mod: Value): (r: Result<CourseModule>)
    ensures r.Err? <==> Nullish(mod)
    ensures r.Ok? ==> r.value.id == Prop(mod, "id") && r.value.modname == Prop(mod, "modname")
    ensures r.Ok? ==> r.value.name == Prop(mod, "name") && r.value.url == Prop(mod, "url")
    ensures r.Ok? ==> (r.value.visible <==> Prop(mod, "visible") == Num(1))
  {
    var id :- Get(mod, "id");
    Ok(CourseModule(id, Prop(mod, "name"), Prop(mod, "modname"), IsOne(Prop(mod, "visible")), Prop(mod, "url")))
  }

  /** `section.modules?.map(...) || []` */
  function SectionModules(modules: Value): (r: Result<seq<CourseModule>>)
    ensures Nullish(modules) ==> r == Ok([])
    ensures !Nullish(modules) && !modules.Arr? ==> r.Err? && r.error.TypeError?
    ensures modules.Arr? ==> r == MapAll(modules.items, ShapeModule)
  {
    if Nullish(modules) then Ok([])
    else
      var items :- ArrayMethod(modules, "map");
      MapAll(items, ShapeModule)
  }

  /** `summary ? summary.replace(/<[^>]*>/g, '').trim() : ''` */
  function SectionSummary(summary: Value): (r: Result<string>)
    ensures r.Err? <==> Truthy(summary) && !summary.Str?
    ensures r.Ok? ==> NoTag(r.value) && Trimmed(r.value)
    ensures summary.Str? ==> r == Ok(StripHtml(summary.s))
  {
    if Truthy(summary) then
      var html :- StringMethod(summary, "replace");
      StripHtmlLeavesNoTag(html);
      TrimIsTrimmed(StripTags(html));
      Ok(StripHtml(html))
    else Ok("")
  }

  function ShapeSection(section: Value): (r: Result<Section>)
    ensures Nullish(section) ==> r.Err? && r.error.TypeError?
    ensures r.Ok? ==> r.value.id == Prop(section, "id")
    ensures r.Ok? && Truthy(Prop(section, "name")) ==> r.value.name == Prop(section, "name")
    ensures r.Ok? && !Truthy(Prop(section, "name")) ==>
              r.value.name == Str("Section " + JsString(Prop(section, "section")))
    ensures r.Ok? ==> (r.value.visible <==> Prop(section, "visible") == Num(1))
    ensures r.Ok? ==> SectionSummary(Prop(section, "summary")) == Ok(r.value.summary)
    ensures r.Ok? ==> NoTag(r.value.summary) && Trimmed(r.value.summary)
    ensures r.Ok? ==> SectionModules(Prop(section, "modules")) == Ok(r.value.modules)
    ensures r.Ok? && Nullish(Prop(section, "modules")) ==> r.value.modules == []
  {
    var id :- Get(section, "id");
    var name := Or(Prop(section, "name"), Str("Section " + JsString(Prop(section, "section"))));
    var summary :- SectionSummary(Prop(section, "summary"));
    var modules :- SectionModules(Prop(section, "modules"));
    Ok(Section(id, name, summary, IsOne(Prop(section, "visible")), modules))
  }

  /** The sections computed from the `core_course_get_contents` body. */
  function ShapeSections(layout: Layout, courseId: string, data: Value): Result<seq<Section>> {
    var valid :- if layout == Modular
                 then ValidateArrayResponse(data, "get_course_contents (courseId: " + courseId + ")")
                 else Ok(());
    var items :- ArrayMethod(data, "map");
    MapAll(items, ShapeSection)
  }

  function ContentsRequest(courseId: string): Request {
    Request("core_course_get_contents", map["courseid" := Str(courseId)])
  }

  /** The `get_course_contents` handler. */
  function GetCourseContents(layout: Layout, config: Config, client: Client, args: Value): (r: Run<seq<Section>>)
    ensures GetCourseId(args, config.defaultCourseId).Err? ==>
              r == Run(Err(GetCourseId(args, config.defaultCourseId).error), [])
    ensures GetCourseId(args, config.defaultCourseId).Ok? ==>
              var courseId := GetCourseId(args, config.defaultCourseId).value;
              var reply := client(ContentsRequest(courseId));
              r.calls == [ContentsRequest(courseId)]
              && (reply.Failed? ==> r.result == Err(AxiosError(reply.responseData, reply.message)))
              && (reply.Response? ==> r.result == ShapeSections(layout, courseId, reply.data))
  {
    match GetCourseId(args, config.defaultCourseId)
    case Err(e) => Run(Err(e), [])
    case Ok(courseId) =>
      var req := ContentsRequest(courseId);
      var result :=
        var data :- Fetch(client, req);
        ShapeSections(layout, courseId, data);
      Run(result, [req])
  }

  /** One section per input section, in order; every section has a
      non-empty name and a stripped summary. */
  lemma {:induction false} SectionsFollowInput(layout: Layout, courseId: string, data: Value)
    requires ShapeSections(layout, courseId, data).Ok?
    ensures data.Arr? && |ShapeSections(layout, courseId, data).value| == |data.items|
    ensures forall i :: 0 <= i < |data.items| ==>
              ShapeSection(data.items[i]) == Ok(ShapeSections(layout, courseId, data).value[i])
    ensures forall i :: 0 <= i < |data.items| ==>
              Truthy(ShapeSections(layout, courseId, data).value[i].name)
              && NoTag(ShapeSections(layout, courseId, data).value[i].summary)
  {
    MapAllPointwise(data.items, ShapeSection);
    forall i | 0 <= i < |data.items|
      ensures Truthy(ShapeSections(layout, courseId, data).value[i].name)
    {
      var s := data.items[i];
      if !Truthy(Prop(s, "name")) {
        assert ("Section " + JsString(Prop(s, "section")))[0] == 'S';
      }
    }
  }

  /** A body that is not an array is rejected before any section is shaped
      in the modular copy, with the course id in the context. */
  lemma SectionsRejectNonArray(courseId: string, data: Value)
    requires !data.Arr?
    ensures ShapeSections(Modular, courseId, data)
            == Err(ValidateArrayResponse(data, "get_course_contents (courseId: " + courseId + ")").error)
    ensures ShapeSections(Monolithic, courseId, data).Err? && ShapeSections(Monolithic, courseId, data).error.TypeError?
  {
  }
}
