/** The forum tools: `getForums`, `getForumDiscussions`,
    `createForumDiscussion` and `replyToForumDiscussion`. They exist in the
    modular copy only. */
module Forums {
  import opened Js
  import opened Normalize
  import opened MoodleClient

  const INTRO_LIMIT: nat := 200
  const MESSAGE_LIMIT: nat := 500

  datatype Forum = Forum(id: Value, course: Value, kind: Value, name: Value, intro: string,
                         duedate: Timestamp, cutoffdate: Timestamp, timemodified: Timestamp)

  datatype ForumListing = ForumListing(courseId: string, forums: seq<Forum>)

  datatype Discussion = Discussion(id: Value, discussion: Value, name: Value, subject: Value, message: string,
                                   userfullname: Value, userid: Value, created: Timestamp, modified: Timestamp,
                                   numreplies: Value, pinned: Value, locked: Value, canreply: Value)

  datatype DiscussionListing = DiscussionListing(forumId: Value, discussions: seq<Discussion>)

  // ---------------------------------------------------------------------
  // getForums

  /** `stripHtml(f.intro || '').substring(0, 200)` */
  function ForumIntro(intro: Value): (r: Result<string>)
    ensures r.Err? <==> Truthy(intro) && !intro.Str?
    ensures !Truthy(intro) ==> r == Ok("")
    ensures intro.Str? ==> r == Ok(Truncate(StripHtml(intro.s), INTRO_LIMIT))
    ensures r.Ok? ==> |r.value| <= INTRO_LIMIT && NoTag(r.value)
  {
    var html :- StringMethod(Or(intro, Str("")), "replace");
    StrippedAndTruncatedHasNoTag(html, INTRO_LIMIT);
    Ok(Truncate(StripHtml(html), INTRO_LIMIT))
  }

  function ShapeForum(f: Value): (r: Result<Forum>)
    ensures r.Err? <==> Nullish(f) || (Truthy(Prop(f, "intro")) && !Prop(f, "intro").Str?)
    ensures r.Ok? ==> r.value.id == Prop(f, "id") && r.value.name == Prop(f, "name")
    ensures r.Ok? ==> r.value.course == Prop(f, "course") && r.value.kind == Prop(f, "type")
    ensures r.Ok? ==> ForumIntro(Prop(f, "intro")) == Ok(r.value.intro)
    ensures r.Ok? ==> |r.value.intro| <= INTRO_LIMIT && NoTag(r.value.intro)
    ensures r.Ok? ==> r.value.duedate == DateOrNull(Prop(f, "duedate"))
                      && r.value.cutoffdate == DateOrNull(Prop(f, "cutoffdate"))
                      && r.value.timemodified == DateOrNull(Prop(f, "timemodified"))
  {
    var id :- Get(f, "id");
    var intro :- ForumIntro(Prop(f, "intro"));
    Ok(Forum(id, Prop(f, "course"), Prop(f, "type"), Prop(f, "name"), intro,
             DateOrNull(Prop(f, "duedate")), DateOrNull(Prop(f, "cutoffdate")),
             DateOrNull(Prop(f, "timemodified"))))
  }

  /** The forums computed from the `mod_forum_get_forums_by_courses` body,
      after the shape check. */
  function ShapeForums(data: Value): Result<seq<Forum>> {
    var valid :- ValidateArrayResponse(data, "get_forums");
    MapAll(data.items, ShapeForum)
  }

  function ForumsRequest(courseId: string): Request {
    Request("mod_forum_get_forums_by_courses", map["courseids" := Arr([Str(courseId)])])
  }

  /** The `get_forums` handler. */
  function GetForums(config: Config, client: Client, args: Value): (r: Run<ForumListing>)
    ensures GetCourseId(args, config.defaultCourseId).Err? ==>
              r == Run(Err(GetCourseId(args, config.defaultCourseId).error), [])
    ensures GetCourseId(args, config.defaultCourseId).Ok? ==>
              var courseId := GetCourseId(args, config.defaultCourseId).value;
              var reply := client(ForumsRequest(courseId));
              r.calls == [ForumsRequest(courseId)]
              && (reply.Failed? ==> r.result == Err(AxiosError(reply.responseData, reply.message)))
              && (reply.Response? ==>
                    r.result == (var forums :- ShapeForums(reply.data); Ok(ForumListing(courseId, forums))))
    ensures r.result.Ok? ==> r.result.value.courseId == GetCourseId(args, config.defaultCourseId).value
  {
    match GetCourseId(args, config.defaultCourseId)
    case Err(e) => Run(Err(e), [])
    case Ok(courseId) =>
      var req := ForumsRequest(courseId);
      var result :=
        var data :- Fetch(client, req);
        var forums :- ShapeForums(data);
        Ok(ForumListing(courseId, forums));
      Run(result, [req])
  }

  /** One forum per upstream forum, in order, each with a short, tag-free
      intro; a body that is not an array is rejected by the shape check. */
  lemma {:induction false} ForumsFollowInput(data: Value)
    ensures !data.Arr? ==> ShapeForums(data) == Err(ValidateArrayResponse(data, "get_forums").error)
    ensures ShapeForums(data).Ok? ==>
              data.Arr? && |ShapeForums(data).value| == |data.items|
              && forall i :: 0 <= i < |data.items| ==>
                   ShapeForum(data.items[i]) == Ok(ShapeForums(data).value[i])
                   && |ShapeForums(data).value[i].intro| <= INTRO_LIMIT
  {
    if ShapeForums(data).Ok? {
      MapAllPointwise(data.items, ShapeForum);
    }
  }

  // ---------------------------------------------------------------------
  // getForumDiscussions

  const FORUM_REQUIRED: string := "Forum ID is required"

  /** `(d.message || '').substring(0, 500)`: cut, not stripped. */
  function DiscussionMessage(message: Value): (r: Result<string>)
    ensures r.Err? <==> Truthy(message) && !message.Str?
    ensures r.Ok? ==> |r.value| <= MESSAGE_LIMIT
    ensures message.Str? ==> r.Ok? && r.value <= message.s
    ensures message.Str? && |message.s| <= MESSAGE_LIMIT ==> r == Ok(message.s)
  {
    var text :- StringMethod(Or(message, Str("")), "substring");
    Ok(Truncate(text, MESSAGE_LIMIT))
  }

  function ShapeDiscussion(d: Value): (r: Result<Discussion>)
    ensures r.Err? <==> Nullish(d) || (Truthy(Prop(d, "message")) && !Prop(d, "message").Str?)
    ensures r.Ok? ==> r.value.id == Prop(d, "id") && |r.value.message| <= MESSAGE_LIMIT
    ensures r.Ok? ==> DiscussionMessage(Prop(d, "message")) == Ok(r.value.message)
    ensures r.Ok? ==> r.value.discussion == Prop(d, "discussion") && r.value.name == Prop(d, "name")
                      && r.value.subject == Prop(d, "subject") && r.value.userfullname == Prop(d, "userfullname")
                      && r.value.userid == Prop(d, "userid") && r.value.numreplies == Prop(d, "numreplies")
                      && r.value.pinned == Prop(d, "pinned") && r.value.locked == Prop(d, "locked")
                      && r.value.canreply == Prop(d, "canreply")
    ensures r.Ok? ==> r.value.created == DateOrNull(Prop(d, "created"))
                      && r.value.modified == DateOrNull(Prop(d, "modified"))
  {
    var id :- Get(d, "id");
    var message :- DiscussionMessage(Prop(d, "message"));
    Ok(Discussion(id, Prop(d, "discussion"), Prop(d, "name"), Prop(d, "subject"), message,
                  Prop(d, "userfullname"), Prop(d, "userid"),
                  DateOrNull(Prop(d, "created")), DateOrNull(Prop(d, "modified")),
                  Prop(d, "numreplies"), Prop(d, "pinned"), Prop(d, "locked"), Prop(d, "canreply")))
  }

  /** `(data.discussions || []).map(...)` */
  function ShapeDiscussions(data: Value): (r: Result<seq<Discussion>>)
    ensures Nullish(data) ==> r.Err? && r.error.TypeError?
    ensures !Nullish(data) && !Truthy(Prop(data, "discussions")) ==> r == Ok([])
    ensures !Nullish(data) && Truthy(Prop(data, "discussions")) && !Prop(data, "discussions").Arr? ==>
              r.Err? && r.error.TypeError?
  {
    var discussions :- Get(data, "discussions");
    var items :- ArrayMethod(Or(discussions, Arr([])), "map");
    MapAll(items, ShapeDiscussion)
  }

  function DiscussionsRequest(args: Value): Request {
    Request("mod_forum_get_forum_discussions", map["forumid" := Prop(args, "forumId")])
  }

  /** The `get_forum_discussions` handler. */
  function GetForumDiscussions(client: Client, args: Value): (r: Run<DiscussionListing>)
    ensures Nullish(args) ==> r.result.Err? && r.result.error.TypeError? && r.calls == []
    ensures !Nullish(args) && !Truthy(Prop(args, "forumId")) ==>
              r == Run(Err(McpError(InvalidParams, FORUM_REQUIRED)), [])
    ensures !Nullish(args) && Truthy(Prop(args, "forumId")) ==>
              var reply := client(DiscussionsRequest(args));
              r.calls == [DiscussionsRequest(args)]
              && (reply.Failed? ==> r.result == Err(AxiosError(reply.responseData, reply.message)))
              && (reply.Response? ==>
                    r.result == (var discussions :- ShapeDiscussions(reply.data);
                                 Ok(DiscussionListing(Prop(args, "forumId"), discussions))))
    ensures r.result.Ok? ==> r.result.value.forumId == Prop(args, "forumId")
  {
    match Get(args, "forumId")
    case Err(e) => Run(Err(e), [])
    case Ok(forumId) =>
      if !Truthy(forumId) then Run(Err(McpError(InvalidParams, FORUM_REQUIRED)), [])
      else
        var req := DiscussionsRequest(args);
        var result :=
          var data :- Fetch(client, req);
          var discussions :- ShapeDiscussions(data);
          Ok(DiscussionListing(forumId, discussions));
        Run(result, [req])
  }

  /** One discussion per upstream discussion, in order, each message a
      prefix of at most 500 characters of the upstream one. */
  lemma {:induction false} DiscussionsFollowInput(data: Value)
    requires ShapeDiscussions(data).Ok?
    ensures Or(Prop(data, "discussions"), Arr([])).Arr?
    ensures var items := Or(Prop(data, "discussions"), Arr([])).items;
            |ShapeDiscussions(data).value| == |items|
            && forall i :: 0 <= i < |items| ==>
                 ShapeDiscussion(items[i]) == Ok(ShapeDiscussions(data).value[i])
                 && |ShapeDiscussions(data).value[i].message| <= MESSAGE_LIMIT
                 && (Prop(items[i], "message").Str? ==>
                       ShapeDiscussions(data).value[i].message <= Prop(items[i], "message").s)
  {
    var items := Or(Prop(data, "discussions"), Arr([])).items;
    MapAllPointwise(items, ShapeDiscussion);
  }

  // ---------------------------------------------------------------------
  // createForumDiscussion and replyToForumDiscussion

  const DISCUSSION_REQUIRED: string := "Forum ID, subject, and message are required"
  const REPLY_REQUIRED: string := "Post ID and message are required"

  function CreateRequest(args: Value): Request {
    Request("mod_forum_add_discussion",
            map["forumid" := Prop(args, "forumId"), "subject" := Prop(args, "subject"),
                "message" := Prop(args, "message")])
  }

  /** The `create_forum_discussion` handler. */
  function CreateForumDiscussion(client: Client, args: Value): (r: Run<string>)
    ensures Nullish(args) ==> r.result.Err? && r.result.error.TypeError? && r.calls == []
    ensures !Nullish(args) && !(Truthy(Prop(args, "forumId")) && Truthy(Prop(args, "subject"))
                                && Truthy(Prop(args, "message"))) ==>
              r == Run(Err(McpError(InvalidParams, DISCUSSION_REQUIRED)), [])
    ensures !Nullish(args) && Truthy(Prop(args, "forumId")) && Truthy(Prop(args, "subject"))
            && Truthy(Prop(args, "message")) ==>
              r.calls == [CreateRequest(args)]
              && (client(CreateRequest(args)).Failed? ==>
                    r.result == Err(AxiosError(client(CreateRequest(args)).responseData,
                                               client(CreateRequest(args)).message)))
              && (client(CreateRequest(args)).Response? && Nullish(client(CreateRequest(args)).data) ==>
                    r.result.Err? && r.result.error.TypeError?)
              && (client(CreateRequest(args)).Response? && !Nullish(client(CreateRequest(args)).data) ==>
                    r.result == Ok("Discussion created successfully in forum " + JsString(Prop(args, "forumId"))
                                   + ". Discussion ID: "
                                   + JsString(Prop(client(CreateRequest(args)).data, "discussionid"))))
  {
    match Get(args, "forumId")
    case Err(e) => Run(Err(e), [])
    case Ok(forumId) =>
      if !Truthy(forumId) || !Truthy(Prop(args, "subject")) || !Truthy(Prop(args, "message")) then
        Run(Err(McpError(InvalidParams, DISCUSSION_REQUIRED)), [])
      else
        var req := CreateRequest(args);
        var result :=
          var data :- Fetch(client, req);
          var discussionId :- Get(data, "discussionid");
          Ok("Discussion created successfully in forum " + JsString(forumId) + ". Discussion ID: "
             + JsString(discussionId));
        Run(result, [req])
  }

  function ReplyRequest(args: Value): Request {
    Request("mod_forum_add_discussion_post",
            map["postid" := Prop(args, "postId"), "subject" := Or(Prop(args, "subject"), Str("Re: ")),
                "message" := Prop(args, "message")])
  }

  /** The `reply_to_forum_discussion` handler. */
  function ReplyToForumDiscussion(client: Client, args: Value): (r: Run<string>)
    ensures Nullish(args) ==> r.result.Err? && r.result.error.TypeError? && r.calls == []
    ensures !Nullish(args) && !(Truthy(Prop(args, "postId")) && Truthy(Prop(args, "message"))) ==>
              r == Run(Err(McpError(InvalidParams, REPLY_REQUIRED)), [])
    ensures !Nullish(args) && Truthy(Prop(args, "postId")) && Truthy(Prop(args, "message")) ==>
              r.calls == [ReplyRequest(args)]
              && (client(ReplyRequest(args)).Failed? ==>
                    r.result == Err(AxiosError(client(ReplyRequest(args)).responseData,
                                               client(ReplyRequest(args)).message)))
              && (client(ReplyRequest(args)).Response? && Nullish(client(ReplyRequest(args)).data) ==>
                    r.result.Err? && r.result.error.TypeError?)
              && (client(ReplyRequest(args)).Response? && !Nullish(client(ReplyRequest(args)).data) ==>
                    r.result == Ok("Reply posted successfully. Post ID: "
                                   + JsString(Prop(client(ReplyRequest(args)).data, "postid"))))
  {
    match Get(args, "postId")
    case Err(e) => Run(Err(e), [])
    case Ok(postId) =>
      if !Truthy(postId) || !Truthy(Prop(args, "message")) then
        Run(Err(McpError(InvalidParams, REPLY_REQUIRED)), [])
      else
        var req := ReplyRequest(args);
        var result :=
          var data :- Fetch(client, req);
          var newPostId :- Get(data, "postid");
          Ok("Reply posted successfully. Post ID: " + JsString(newPostId));
        Run(result, [req])
  }

  /** The reply's subject is the caller's when truthy, else 'Re: '. */
  lemma ReplySubjectDefault(args: Value)
    ensures !Truthy(Prop(args, "subject")) ==> ReplyRequest(args).params["subject"] == Str("Re: ")
    ensures Truthy(Prop(args, "subject")) ==> ReplyRequest(args).params["subject"] == Prop(args, "subject")
  {
  }
}
