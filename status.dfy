/**
 * The per-turn status indicator (`SlackStreamingHook`): one optional handle
 * to an ephemeral message, posted at start-up, edited on tool start and tool
 * end, deleted at clean-up. Every Slack failure is swallowed.
 */
module Status {
  import opened Wrappers
  import opened Effects

  const ThinkingText := ":thought_balloon: Thinking..."
  const ProcessingText := ":thought_balloon: Processing..."

  /** The tool name shown on tool start: `name`, else `tool_name`, else "tool". */
  function ToolName(data: map<string, string>): (r: string)
    ensures r in data.Values || r == "tool"
    ensures "name" in data ==> r == data["name"]
    ensures "name" !in data && "tool_name" in data ==> r == data["tool_name"]
    ensures "name" !in data && "tool_name" !in data ==> r == "tool"
  {
    if "name" in data then data["name"]
    else if "tool_name" in data then data["tool_name"]
    else "tool"
  }

  const GearHead := ":gear: Using `"
  const GearTail := "`..."

  function ToolStartText(toolName: string): string {
    GearHead + toolName + GearTail
  }

  /** The tool-start text quotes the tool's name between the gear heading and a trailing ellipsis. */
  lemma ToolStartTextQuotesName(toolName: string)
    ensures var r := ToolStartText(toolName);
      && |r| == |GearHead| + |toolName| + |GearTail|
      && r[..|GearHead|] == GearHead
      && r[|GearHead|..|GearHead| + |toolName|] == toolName
      && r[|GearHead| + |toolName|..] == GearTail
  {
  }

  /** The calls `_update(text)` issues: one edit of the indicator, or none without a handle. */
  function UpdateCalls(channel: string, statusTs: Option<string>, text: string): (calls: seq<Effect>)
    ensures |calls| <= 1
    ensures calls != [] <==> Truthy(statusTs)
    ensures forall e :: e in calls ==> e == UpdateMessage(channel, statusTs.value, text)
  {
    if Truthy(statusTs) then [UpdateMessage(channel, statusTs.value, text)] else []
  }

  /** The calls `cleanup()` issues: one deletion of the indicator, or none without a handle. */
  function DeleteCalls(channel: string, statusTs: Option<string>): (calls: seq<Effect>)
    ensures |calls| <= 1
    ensures calls != [] <==> Truthy(statusTs)
    ensures forall e :: e in calls ==> e == DeleteMessage(channel, statusTs.value)
  {
    if Truthy(statusTs) then [DeleteMessage(channel, statusTs.value)] else []
  }

  /** The handle after `cleanup()`: cleared only by a delete that succeeded. */
  function AfterCleanup(statusTs: Option<string>, deleteOk: bool): (r: Option<string>)
    ensures Truthy(statusTs) && deleteOk ==> r == None
    ensures !(Truthy(statusTs) && deleteOk) ==> r == statusTs
  {
    if Truthy(statusTs) && deleteOk then None else statusTs
  }

  /**
   * Clean-up is idempotent once it has succeeded: the second call issues no
   * call and leaves the handle as it is; likewise without a handle at all.
   */
  lemma CleanupIdempotent(channel: string, statusTs: Option<string>, deleteOk: bool, deleteOk': bool)
    requires !Truthy(statusTs) || deleteOk
    ensures DeleteCalls(channel, AfterCleanup(statusTs, deleteOk)) == []
    ensures AfterCleanup(AfterCleanup(statusTs, deleteOk), deleteOk') == AfterCleanup(statusTs, deleteOk)
  {
  }

  class StatusHook {
    const out: Outbound
    const channel: string
    const threadTs: string
    /** `_status_ts`: the ts of the indicator message, if one was posted and not yet deleted. */
    var statusTs: Option<string>

    constructor (out: Outbound, channel: string, threadTs: string)
      ensures this.out == out && this.channel == channel && this.threadTs == threadTs
      ensures statusTs == None
    {
      this.out := out;
      this.channel := channel;
      this.threadTs := threadTs;
      statusTs := None;
    }

    /**
     * `startup()`: post "Thinking..." in the thread; the handle becomes the
     * posted message's ts when the post succeeded, and is left alone when it
     * failed.
     */
    method Startup(postOk: bool, ts: string)
      modifies this, out
      ensures out.effects == old(out.effects) + [PostMessage(channel, Some(threadTs), ThinkingText)]
      ensures statusTs == if postOk then Some(ts) else old(statusTs)
    {
      out.Emit(PostMessage(channel, Some(threadTs), ThinkingText));
      if postOk {
        statusTs := Some(ts);
      }
    }

    /** `_update(text)`: edit the indicator if there is one; the handle never changes. */
    method Update(text: string)
      modifies out
      ensures out.effects == old(out.effects) + UpdateCalls(channel, statusTs, text)
    {
      if !Truthy(statusTs) {
        return;
      }
      out.Emit(UpdateMessage(channel, statusTs.value, text));
    }

    /** `on_tool_start(event, data)`: show the tool being used. */
    method OnToolStart(data: map<string, string>)
      modifies out
      ensures out.effects == old(out.effects) + UpdateCalls(channel, statusTs, ToolStartText(ToolName(data)))
    {
      Update(ToolStartText(ToolName(data)));
    }

    /** `on_tool_end(event, data)`: back to "Processing...". */
    method OnToolEnd()
      modifies out
      ensures out.effects == old(out.effects) + UpdateCalls(channel, statusTs, ProcessingText)
    {
      Update(ProcessingText);
    }

    /**
     * `cleanup()`: delete the indicator if there is one; the handle is cleared
     * only when the delete succeeded, so a failed delete leaves it in place.
     */
    method Cleanup(deleteOk: bool)
      modifies this, out
      ensures out.effects == old(out.effects) + DeleteCalls(channel, old(statusTs))
      ensures statusTs == AfterCleanup(old(statusTs), deleteOk)
    {
      if !Truthy(statusTs) {
        return;
      }
      out.Emit(DeleteMessage(channel, statusTs.value));
      if deleteOk {
        statusTs := None;
      }
    }
  }
}
