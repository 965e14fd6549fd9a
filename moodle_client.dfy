/** The upstream Moodle web-service client as the handlers use it, course-id
    resolution (`getCourseId`) and response-shape validation
    (`validateArrayResponse`). */
module MoodleClient {
  import opened Js

  /** One GET to the web-service endpoint: the `wsfunction` selector and the
      function's own query parameters. The token and the response-format
      parameters that every request also carries are not modelled. */
  datatype Request = Request(wsfunction: string, params: map<string, Value>)

  /** What `client.get` does: resolve with the parsed body, or reject with
      an axios error (`responseData` is `error.response?.data`). */
  datatype Reply = Response(data: Value) | Failed(responseData: Value, message: string)

  /** The upstream Moodle site, as an oracle from requests to replies. */
  type Client = Request -> Reply

  /** A handler's outcome and the upstream requests it issued, in order. */
  datatype Run<+T> = Run(result: Result<T>, calls: seq<Request>)

  /** Read-only process configuration: `MOODLE_COURSE_ID`, when set. */
  datatype Config = Config(defaultCourseId: Option<string>)

  /** The two copies of the tool handlers: src/server.ts with the per-tool files under src/tools,
      and the single class of src/index.ts. */
  datatype Layout = Modular | Monolithic

  /** `(await client.get('', { params })).data` */
  function Fetch(client: Client, req: Request): (r: Result<Value>)
    ensures client(req).Response? ==> r == Ok(client(req).data)
    ensures client(req).Failed? ==> r == Err(AxiosError(client(req).responseData, client(req).message))
  {
    match client(req)
    case Response(data) => Ok(data)
    case Failed(data, message) => Err(AxiosError(data, message))
  }

  /** `error.response?.data?.message || error.message`, as text. */
  function AxiosDetail(responseData: Value, message: string): string {
    var upstream := OptGet(responseData, "message");
    if Truthy(upstream) then JsString(upstream) else message
  }

  // ---------------------------------------------------------------------
  // getCourseId

  /** The words the message opens with: the parameter that is missing. */
  const COURSE_ID_REQUIRED_PREFIX: string := "courseId is required"

  /** The InvalidParams message, "courseId is required. Either pass it..." */
  const COURSE_ID_REQUIRED: string :=
    COURSE_ID_REQUIRED_PREFIX + ". Either pass it as a parameter or set MOODLE_COURSE_ID environment variable."

  /** `getCourseId(args, defaultCourseId)`: an explicit argument, as a string,
      else the configured default, else InvalidParams. */
  function GetCourseId(args: Value, defaultCourseId: Option<string>): (r: Result<string>)
    ensures Truthy(OptGet(args, "courseId")) ==> r == Ok(JsString(OptGet(args, "courseId")))
    ensures !Truthy(OptGet(args, "courseId")) && defaultCourseId.Some? && defaultCourseId.value != "" ==>
              r == Ok(defaultCourseId.value)
    ensures r.Err? <==> !Truthy(OptGet(args, "courseId")) && (defaultCourseId.None? || defaultCourseId.value == "")
    ensures r.Err? ==> r.error == McpError(InvalidParams, COURSE_ID_REQUIRED)
  {
    var courseId := OptGet(args, "courseId");
    if Truthy(courseId) then Ok(JsString(courseId))
    else if defaultCourseId.Some? && defaultCourseId.value != "" then Ok(defaultCourseId.value)
    else Err(McpError(InvalidParams, COURSE_ID_REQUIRED))
  }

  /** The explicit argument beats the default: when it is truthy the default
      plays no part. */
  lemma ExplicitCourseIdIgnoresDefault(args: Value, d1: Option<string>, d2: Option<string>)
    requires Truthy(OptGet(args, "courseId"))
    ensures GetCourseId(args, d1) == GetCourseId(args, d2)
  {
  }

  /** A resolved course id is never empty -- unless the caller passed an
      array whose string form is empty, such as `[]`, which is truthy. */
  lemma ResolvedCourseIdNonEmpty(args: Value, defaultCourseId: Option<string>)
    requires GetCourseId(args, defaultCourseId).Ok?
    requires !OptGet(args, "courseId").Arr?
    ensures GetCourseId(args, defaultCourseId).value != ""
  {
    if Truthy(OptGet(args, "courseId")) {
      TruthyScalarHasNonEmptyString(OptGet(args, "courseId"));
    }
  }

  /** The caveat above is real: `courseId: []` resolves to "". */
  lemma EmptyArrayCourseIdResolvesToEmpty(defaultCourseId: Option<string>)
    ensures GetCourseId(Obj(map["courseId" := Arr([])]), defaultCourseId) == Ok("")
  {
    EmptyArrayPrintsEmpty();
  }

  /** The message names the missing parameter. */
  lemma CourseIdErrorMentionsRequirement(args: Value, defaultCourseId: Option<string>)
    requires GetCourseId(args, defaultCourseId).Err?
    ensures GetCourseId(args, defaultCourseId).error.McpError?
    ensures COURSE_ID_REQUIRED_PREFIX <= GetCourseId(args, defaultCourseId).error.message
  {
    assert COURSE_ID_REQUIRED[..|COURSE_ID_REQUIRED_PREFIX|] == COURSE_ID_REQUIRED_PREFIX;
  }

  // ---------------------------------------------------------------------
  // validateArrayResponse

  /** The object carries one of the three error-marker fields. */
  predicate HasErrorMarker(data: Value) {
    Truthy(Prop(data, "exception")) || Truthy(Prop(data, "errorcode")) || Truthy(Prop(data, "message"))
  }

  /** `data.message || data.errorcode || 'Unknown error'`, as text. */
  function EmbeddedError(data: Value): string {
    JsString(Or(Prop(data, "message"), Or(Prop(data, "errorcode"), Str("Unknown error"))))
  }

  /** `validateArrayResponse(data, context)`: an array passes; an object
      with an error marker fails with the upstream's own message; everything
      else -- null, numbers, strings, objects without a marker -- fails with
      the type found. */
  function ValidateArrayResponse(data: Value, context: string): (r: Result<()>)
    ensures r.Ok? <==> data.Arr?
    ensures r.Err? ==> r.error.McpError? && r.error.code == InternalError
    ensures data.Obj? && HasErrorMarker(data) ==>
              r == Err(McpError(InternalError, "Moodle API error in " + context + ": " + EmbeddedError(data)))
    ensures !data.Arr? && !(data.Obj? && HasErrorMarker(data)) ==>
              r == Err(McpError(InternalError, "Unexpected response from Moodle API in " + context
                                               + ": expected array, got " + TypeOf(data)))
  {
    if data.Arr? then Ok(())
    else if Truthy(data) && TypeOf(data) == "object"
            && (Truthy(Prop(data, "exception")) || Truthy(Prop(data, "errorcode")) || Truthy(Prop(data, "message"))) then
      Err(McpError(InternalError, "Moodle API error in " + context + ": "
                                  + JsString(Or(Prop(data, "message"), Or(Prop(data, "errorcode"), Str("Unknown error"))))))
    else
      Err(McpError(InternalError, "Unexpected response from Moodle API in " + context
                                  + ": expected array, got " + TypeOf(data)))
  }

  /** Which text the marker branch reports: `message` first, then
      `errorcode`, then 'Unknown error' (an `exception` alone names no text). */
  lemma EmbeddedErrorPrecedence(data: Value)
    ensures Truthy(Prop(data, "message")) ==> EmbeddedError(data) == JsString(Prop(data, "message"))
    ensures !Truthy(Prop(data, "message")) && Truthy(Prop(data, "errorcode")) ==>
              EmbeddedError(data) == JsString(Prop(data, "errorcode"))
    ensures !Truthy(Prop(data, "message")) && !Truthy(Prop(data, "errorcode")) ==>
              EmbeddedError(data) == "Unknown error"
  {
  }

  /** null is not an object with markers: it gets the "got object" message. */
  lemma NullIsUnexpectedObject(context: string)
    ensures ValidateArrayResponse(Null, context)
            == Err(McpError(InternalError, "Unexpected response from Moodle API in " + context
                                           + ": expected array, got object"))
  {
  }
}
