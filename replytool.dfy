/**
 * The `slack_reply` tool (`SlackReplyTool`) an agent calls to post into the
 * thread its conversation came from. It is mounted as a placeholder without
 * a client, then replaced by a live instance bound to one channel and thread.
 */
module ReplyTool {
  import opened Wrappers
  import opened Text
  import opened Effects

  /** The tool's `name`, under which it is mounted. */
  const Name := "slack_reply"
  const NotInitialized := "No Slack client configured (tool not yet initialized)"
  const EmptyMessage := "message cannot be empty"
  const PostedPrefix := "Posted to Slack: "
  const Ellipsis := "..."
  /** How many characters of the message the success output quotes. */
  const PreviewLimit := 80

  /** A tool instance: whether it holds a client, and the channel and thread it posts to. */
  datatype Tool = Tool(hasClient: bool, channel: string, threadTs: Option<string>)

  /** The placeholder the module's `mount` registers: no client, no context. */
  const Placeholder := Tool(false, "", None)

  /** The result dict: `{"success": True, "output": ...}` or `{"success": False, "error": ...}`. */
  datatype ToolResult = Success(output: string) | Failure(error: string)

  /** What one `execute` returns, with the calls it issued. */
  datatype Outcome = Outcome(result: ToolResult, calls: seq<Effect>)

  function Min(a: int, b: int): int {
    if a <= b then a else b
  }

  /** The first 80 characters of the message, and an ellipsis when some were cut. */
  function Preview(message: string): (p: string)
    ensures |message| <= PreviewLimit ==> p == message
    ensures |message| > PreviewLimit ==>
      |p| == PreviewLimit + |Ellipsis| && p[..PreviewLimit] == message[..PreviewLimit] && p[PreviewLimit..] == Ellipsis
  {
    message[..Min(|message|, PreviewLimit)] + (if |message| > PreviewLimit then Ellipsis else "")
  }

  /**
   * `execute(message)`: without a client it fails whatever the message; with
   * a client, a blank message fails; otherwise the message is posted to the
   * tool's thread, and a failed post is reported as a failure carrying the
   * error's text instead of raising.
   */
  function Execute(tool: Tool, message: string, postError: Option<string>): (o: Outcome)
    ensures !tool.hasClient ==> o == Outcome(Failure(NotInitialized), [])
    ensures tool.hasClient && IsBlank(message) ==> o == Outcome(Failure(EmptyMessage), [])
    ensures tool.hasClient && !IsBlank(message) ==>
      && o.calls == [PostMessage(tool.channel, tool.threadTs, message)]
      && (postError.Some? ==> o.result == Failure(postError.value))
      && (postError.None? ==> o.result == Success(PostedPrefix + Preview(message)))
    ensures o.result.Success? <==> tool.hasClient && !IsBlank(message) && postError.None?
  {
    if !tool.hasClient then Outcome(Failure(NotInitialized), [])
    else if IsBlank(message) then Outcome(Failure(EmptyMessage), [])
    else
      var calls := [PostMessage(tool.channel, tool.threadTs, message)];
      match postError
      case Some(e) => Outcome(Failure(e), calls)
      case None => Outcome(Success(PostedPrefix + Preview(message)), calls)
  }

  /** The tool posts only non-blank messages, only into its own thread, and at most once per call. */
  lemma ExecutePostsOnlyItsMessage(tool: Tool, message: string, postError: Option<string>)
    ensures var o := Execute(tool, message, postError);
      && |o.calls| <= 1
      && (o.calls != [] <==> tool.hasClient && !IsBlank(message))
      && forall e :: e in o.calls ==> e == PostMessage(tool.channel, tool.threadTs, message)
  {
  }

  /** The placeholder never posts and always reports that it is not initialized. */
  lemma PlaceholderNeverPosts(message: string, postError: Option<string>)
    ensures Execute(Placeholder, message, postError) == Outcome(Failure(NotInitialized), [])
  {
  }

  /** A successful result quotes the start of the message it posted. */
  lemma SuccessQuotesMessage(tool: Tool, message: string, postError: Option<string>)
    requires Execute(tool, message, postError).result.Success?
    ensures var out := Execute(tool, message, postError).result.output;
      && |PostedPrefix| <= |out|
      && out[..|PostedPrefix|] == PostedPrefix
      && var p := out[|PostedPrefix|..];
         var n := Min(|message|, PreviewLimit);
         n <= |p| && p[..n] == message[..n]
  {
    var p := Preview(message);
    assert Execute(tool, message, postError).result.output == PostedPrefix + p;
    assert (PostedPrefix + p)[|PostedPrefix|..] == p;
  }

  /** A property of the input schema: its type and description text. */
  datatype Property = Property(typ: string, description: string)

  /** `input_schema`: an object whose properties and required keys are listed. */
  datatype Schema = Schema(typ: string, properties: map<string, Property>, required: seq<string>)

  /** `input_schema`: one string property, `message`, which is required. */
  function InputSchema(): (s: Schema)
    ensures s.typ == "object"
    ensures s.required == ["message"]
    ensures s.properties.Keys == {"message"} && s.properties["message"].typ == "string"
    ensures forall r :: r in s.required ==> r in s.properties
  {
    Schema("object",
           map["message" := Property("string", "The message text. Supports Slack mrkdwn formatting.")],
           ["message"])
  }
}
