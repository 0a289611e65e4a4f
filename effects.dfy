/**
 * The outbound side of the connector. Every call the core makes into the
 * Slack Web API client or into the agent runtime is recorded, in order, as
 * one `Effect` on a shared `Outbound` log. Whether a call succeeded is not
 * decided here: the caller receives the outcome as an input and branches on
 * it exactly where the source catches the exception.
 */
module Effects {
  import opened Wrappers

  /** Opaque handle of an agent-runtime session (the object `create_session` returns). */
  type SessionHandle = nat

  datatype Effect =
      /** `chat_postMessage(channel, thread_ts, text)`. */
    | PostMessage(channel: string, threadTs: Option<string>, text: string)
      /** `chat_postMessage` with the approval blocks: the section text, the two button action ids and the fallback text. */
    | PostApprovalPrompt(channel: string, threadTs: Option<string>, section: string,
                         allowId: string, denyId: string, fallback: string)
      /** `chat_update(channel, ts, text)`. */
    | UpdateMessage(channel: string, ts: string, text: string)
      /** `chat_delete(channel, ts)`. */
    | DeleteMessage(channel: string, ts: string)
      /** `reactions_add(channel, timestamp, name)`. */
    | AddReaction(channel: string, ts: string, name: string)
      /** `reactions_remove(channel, timestamp, name)`. */
    | RemoveReaction(channel: string, ts: string, name: string)
      /** `prepared.create_session(session_id=...)`. */
    | CreateSession(sessionId: string)
      /** `session.coordinator.mount("tools", live_tool, name=...)` with the tool's channel and thread. */
    | MountTool(session: SessionHandle, name: string, channel: string, replyTs: string)
      /** `session.coordinator.hooks.register(event, ...)`. */
    | RegisterHook(session: SessionHandle, event: string)
      /** Calling the unregister function that `register(event, ...)` returned. */
    | UnregisterHook(event: string)
      /** `session.execute(prompt)`. */
    | Execute(session: SessionHandle, prompt: string)
      /** `session.close()`. */
    | CloseSession(session: SessionHandle)

  /** The shared client: the log of every call issued so far. */
  class Outbound {
    var effects: seq<Effect>

    constructor ()
      ensures effects == []
    {
      effects := [];
    }

    /** Issue one call. */
    method Emit(e: Effect)
      modifies this
      ensures effects == old(effects) + [e]
    {
      effects := effects + [e];
    }
  }
}
