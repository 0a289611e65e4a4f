/**
 * The pure decisions of the bot (`SlackAmplifierBot`): the conversation key,
 * the reply thread, which inbound events reach `handle_message`, and how an
 * approval button click is decoded.
 */
module Conversation {
  import opened Wrappers
  import opened Text
  import Approval

  /** The thread marker as `_conversation_id` sees it: a falsy marker is no marker. */
  function Marker(threadTs: Option<string>): string {
    if Truthy(threadTs) then threadTs.value else ""
  }

  /** `_conversation_id(channel, thread_ts)`. */
  function ConversationId(channel: string, threadTs: Option<string>): (id: string)
    ensures Marker(threadTs) != "" ==> id == "slack-" + channel + "-" + Marker(threadTs)
    ensures Marker(threadTs) == "" ==> id == "slack-" + channel
  {
    if Truthy(threadTs) then "slack-" + channel + "-" + threadTs.value
    else "slack-" + channel
  }

  /** Thread isolation: under one channel, different thread markers give different keys. */
  lemma ThreadIsolation(channel: string, t1: Option<string>, t2: Option<string>)
    requires Marker(t1) != Marker(t2)
    ensures ConversationId(channel, t1) != ConversationId(channel, t2)
  {
    var head := "slack-" + channel + "-";
    if Marker(t1) != "" && Marker(t2) != "" {
      assert (head + Marker(t1))[|head|..] == Marker(t1);
      assert (head + Marker(t2))[|head|..] == Marker(t2);
    }
  }

  /**
   * Channel isolation: Slack channel ids contain no '-', and for such ids two
   * different channels never share a key, whatever their thread markers.
   */
  lemma ChannelIsolation(c1: string, t1: Option<string>, c2: string, t2: Option<string>)
    requires '-' !in c1 && '-' !in c2
    requires c1 != c2
    ensures ConversationId(c1, t1) != ConversationId(c2, t2)
  {
    if |c1| <= |c2| {
      ChannelIsolationOrdered(c1, t1, c2, t2);
    } else {
      ChannelIsolationOrdered(c2, t2, c1, t1);
    }
  }

  lemma ChannelIsolationOrdered(c1: string, t1: Option<string>, c2: string, t2: Option<string>)
    requires '-' !in c1 && '-' !in c2
    requires c1 != c2 && |c1| <= |c2|
    ensures ConversationId(c1, t1) != ConversationId(c2, t2)
  {
    var id1, id2 := ConversationId(c1, t1), ConversationId(c2, t2);
    var n := |"slack-"|;
    assert id1[n..n + |c1|] == c1;
    assert id2[n..n + |c2|] == c2;
    if |c1| == |c2| {
      assert id1[n..n + |c1|] != id2[n..n + |c2|];
    } else {
      var p := n + |c1|;
      assert p < |id2| && id2[p] == c2[|c1|];
      assert c2[|c1|] in c2;
      if Marker(t1) == "" {
        assert |id1| == p;
      } else {
        assert id1[p] == '-';
      }
    }
  }

  /** `thread_ts or ts`: every reply goes to a thread, starting one on a top-level message. */
  function ReplyThread(threadTs: Option<string>, ts: string): (r: string)
    ensures Truthy(threadTs) ==> r == threadTs.value
    ensures !Truthy(threadTs) ==> r == ts
  {
    if Truthy(threadTs) then threadTs.value else ts
  }

  /**
   * The approval arbiter of a conversation posts into the reply thread of the
   * message that created it, and a click is routed by the clicked message's
   * thread. The click finds the arbiter again exactly when that message was
   * itself in a thread; for a top-level message the keys differ, so its
   * approvals can only time out.
   */
  lemma ApprovalRouting(channel: string, threadTs: Option<string>, ts: string)
    requires ts != ""
    ensures ConversationId(channel, Some(ReplyThread(threadTs, ts))) == ConversationId(channel, threadTs)
            <==> Truthy(threadTs)
  {
    if !Truthy(threadTs) {
      ThreadIsolation(channel, Some(ts), threadTs);
    }
  }

  /**
   * Every top-level message of a channel maps to the one channel-level
   * conversation, while each of their turns replies in a thread of its own.
   * The arbiter and the `slack_reply` tool of that conversation stay bound
   * to the thread of the message that created it.
   */
  lemma TopLevelMessagesShareConversation(channel: string, ts1: string, threadTs1: Option<string>,
                                          ts2: string, threadTs2: Option<string>)
    requires !Truthy(threadTs1) && !Truthy(threadTs2)
    ensures ConversationId(channel, threadTs1) == ConversationId(channel, threadTs2) == "slack-" + channel
    ensures ReplyThread(threadTs1, ts1) == ts1 && ReplyThread(threadTs2, ts2) == ts2
  {
  }

  /** A Slack event as the handlers read it: each key may be missing. */
  datatype Event = Event(
    botId: Option<string>,
    subtype: Option<string>,
    user: Option<string>,
    channel: Option<string>,
    text: Option<string>,
    ts: Option<string>,
    threadTs: Option<string>)

  /** The arguments `handle_message` is called with. */
  datatype Inbound = Inbound(channel: string, user: string, text: string, ts: string, threadTs: Option<string>)

  /**
   * The arguments read from an event, with the handlers' defaults: a missing
   * channel, text or ts is empty, a missing user is "unknown", and the thread
   * marker is passed on as it is.
   */
  function ToInbound(e: Event): (m: Inbound)
    ensures e.channel.Some? ==> m.channel == e.channel.value
    ensures e.channel.None? ==> m.channel == ""
    ensures e.user.Some? ==> m.user == e.user.value
    ensures e.user.None? ==> m.user == "unknown"
    ensures e.text.Some? ==> m.text == e.text.value
    ensures e.text.None? ==> m.text == ""
    ensures e.ts.Some? ==> m.ts == e.ts.value
    ensures e.ts.None? ==> m.ts == ""
    ensures m.threadTs == e.threadTs
  {
    Inbound(e.channel.GetOr(""), e.user.GetOr("unknown"), e.text.GetOr(""), e.ts.GetOr(""), e.threadTs)
  }

  /** `on_message`: which plain message events are handled, and with what arguments. */
  function MessageRoute(e: Event, allowedChannel: Option<string>, botUserId: Option<string>): (r: Option<Inbound>)
    ensures Truthy(e.botId) ==> r == None
    ensures e.subtype == Some("bot_message") ==> r == None
    ensures Truthy(botUserId) && e.user == botUserId ==> r == None
    ensures Truthy(e.subtype) ==> r == None
    ensures Truthy(allowedChannel) && e.channel.GetOr("") != allowedChannel.value ==> r == None
    ensures r == None ==>
      || Truthy(e.botId)
      || e.subtype == Some("bot_message")
      || (Truthy(botUserId) && e.user == botUserId)
      || Truthy(e.subtype)
      || (Truthy(allowedChannel) && e.channel.GetOr("") != allowedChannel.value)
    ensures r != None ==> r == Some(ToInbound(e))
  {
    if Truthy(e.botId) || e.subtype == Some("bot_message") then None
    else if Truthy(botUserId) && e.user == botUserId then None
    else if Truthy(e.subtype) then None
    else if Truthy(allowedChannel) && e.channel.GetOr("") != allowedChannel.value then None
    else Some(ToInbound(e))
  }

  /** `on_mention`: only bot-authored events are dropped; the channel restriction does not apply. */
  function MentionRoute(e: Event): (r: Option<Inbound>)
    ensures r == None <==> Truthy(e.botId)
    ensures r != None ==> r == Some(ToInbound(e))
  {
    if Truthy(e.botId) then None else Some(ToInbound(e))
  }

  /** A message the message handler takes is taken, identically, as a mention. */
  lemma MentionAcceptsWhatMessageAccepts(e: Event, allowedChannel: Option<string>, botUserId: Option<string>)
    requires MessageRoute(e, allowedChannel, botUserId) != None
    ensures MentionRoute(e) == MessageRoute(e, allowedChannel, botUserId)
  {
  }

  /**
   * The body of an approval click: the `actions` list (missing, or a list of
   * entries each with an optional `action_id`), `channel.id` and
   * `message.thread_ts`.
   */
  datatype ActionBody = ActionBody(
    actions: Option<seq<Option<string>>>,
    channelId: Option<string>,
    messageThreadTs: Option<string>)

  /** What `on_approval` resolves: in which conversation, which action id, and with what value. */
  datatype ApprovalAction = ApprovalAction(convId: string, actionId: string, approved: bool)

  /**
   * `on_approval`'s decoding of a click. An empty `actions` list makes the
   * handler raise (`IndexError`): no decoded action then.
   */
  function DecodeApprovalAction(body: ActionBody): (r: Option<ApprovalAction>)
    ensures r == None <==> body.actions == Some([])
    ensures r != None ==> (r.value.approved <==> EndsWith(r.value.actionId, Approval.AllowSuffix))
    ensures r != None ==> r.value.convId == ConversationId(body.channelId.GetOr(""), body.messageThreadTs)
    ensures r != None && body.actions.Some? ==> r.value.actionId == body.actions.value[0].GetOr("")
    ensures body.actions == None ==> r != None && r.value.actionId == ""
  {
    var entries := body.actions.GetOr([None]);
    if entries == [] then None
    else
      var actionId := entries[0].GetOr("");
      Some(ApprovalAction(ConversationId(body.channelId.GetOr(""), body.messageThreadTs),
                          actionId, EndsWith(actionId, Approval.AllowSuffix)))
  }

  /**
   * A click on either button of a prompt carries the prefix of its request,
   * and the value passed on is true for Allow and false for Deny.
   */
  lemma ClickDecodesToRequest(prefix: string, channel: string, thread: Option<string>, allow: bool)
    ensures var id := if allow then Approval.AllowId(prefix) else Approval.DenyId(prefix);
      var r := DecodeApprovalAction(ActionBody(Some([Some(id)]), Some(channel), thread));
      r == Some(ApprovalAction(ConversationId(channel, thread), id, allow))
      && Approval.ActionPrefix(r.value.actionId) == Some(prefix)
  {
    Approval.ActionIdRoundTrip(prefix);
    DropSuffixRoundTrip(prefix, Approval.AllowSuffix);
    if !allow {
      Approval.DenyIsNotAllow(Approval.DenyId(prefix));
    }
  }
}
