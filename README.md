# Slack connector core, modelled in Dafny

This project models the core of a Slack connector for an agent runtime. Each
Slack conversation (a channel, or one thread of a channel) gets its own agent
session, lock and approval arbiter. A user message runs one *turn*:

1. a "loading" reaction is added;
2. a "Thinking..." status indicator is posted;
3. the tool hooks are registered;
4. the agent runs;
5. its reply or an error notice is posted in the thread;
6. a finally block unregisters the hooks, deletes the indicator and removes the reaction.

Approval requests post Allow/Deny buttons and wait for the click, or deny on
timeout. A `slack_reply` tool lets the agent post into its own thread.

Every Slack or runtime call is an `Effect` appended to a shared log
(`Effects.Outbound`). What the outside world answers is an input: whether a
post succeeded, what `execute` returned, whether a hook registered, which tool
notifications fired. The methods therefore state their whole effect on the log
and on the registry. The modules are:

- `Text`: the few Python string operations the code uses.
- `Approval`: `SlackApprovalSystem`.
- `Status`: `SlackStreamingHook`.
- `Conversation`: the conversation key, event filters and click decoding.
- `Turn`: the exact call sequence of a turn, with lemmas about it.
- `Bot`: the `SlackAmplifierBot` class with its three maps.
- `ReplyTool`: `SlackReplyTool`.

Not every message that reaches `execute` gets exactly one reply or error notice:

- A blank response posts nothing (`ReplyCalls` is empty exactly when the response is blank).
- A reply post that raises produces the reply effect followed by an error notice.

The tool's `name` property is the constant `ReplyTool.Name`, which is the name the bot mounts the live tool under (see `Bot.CreateCalls`).

## Model

| member | source | states |
|---|---|---|
| Text.Leading | src/slack_connector/bot.py:199 | the number of leading whitespace characters: all of them are whitespace, and the next character, if any, is not |
| Text.Trailing | src/slack_connector/bot.py:199 | the number of trailing whitespace characters: all of them are whitespace, and the character before them, if any, is not |
| Text.Strip | src/slack_connector/bot.py:199 | `strip()`: the result is a contiguous piece of the input that neither starts nor ends with whitespace, everything cut off on either side is whitespace, and it is empty exactly when the input is all whitespace |
| Text.StripUnique | src/slack_connector/bot.py:199 | any piece of the input with those properties is `Strip` of it, so the contract determines the result |
| Text.DropSuffix | src/slack_connector/bridge.py:94 | the slice `action_id[:-len(suffix)]` gives back exactly what the suffix was appended to |
| Text.DropSuffixRoundTrip | src/slack_connector/bridge.py:92-94 | appending a suffix and then cutting it off is the identity |
| Approval.Decimal | src/slack_connector/bridge.py:45 | the rendering of the token is a non-empty string of decimal digits that denotes the token, with no leading zero |
| Approval.ApprovalPrefix | src/slack_connector/bridge.py:45 | the request prefix is `approval_` followed by one or more decimal digits |
| Approval.ActionPrefix | src/slack_connector/bridge.py:92-94 | a prefix is recovered exactly when the id ends in `_allow` or `_deny`, and putting that suffix back yields the id |
| Approval.ActionIdRoundTrip | src/slack_connector/bridge.py:66-72 | both button ids of a prompt decode back to the exact prefix of their request |
| Approval.DenyIsNotAllow | src/slack_connector/bridge.py:92-93 | no id ends in both suffixes, so the order `resolve` tries them in does not matter |
| Approval.PromptIdsAreRouted | src/slack_connector/bot.py:322 | the button ids of every prompt match the action pattern, so their clicks reach `on_approval` |
| Approval.Decision | src/slack_connector/bridge.py:80-83 | the wait's result is true exactly when the slot was filled by an Allow click; a slot still pending when the timer fires gives False |
| Approval.Prompt | src/slack_connector/bridge.py:49-79 | the prompt goes to the arbiter's channel and thread, both texts end with the description, both button ids decode back to the request's prefix, and only the Allow id ends in `_allow` |
| Approval.ForeignClickIgnored | src/slack_connector/bridge.py:92-98 | when every pending key is an approval prefix, a click whose id is not of the approval form changes nothing |
| Approval.ResolveAll | src/slack_connector/bridge.py:90-98 | clicks resolved one after the other never add or remove a key |
| Approval.FirstClickFor | src/slack_connector/bridge.py:96-97 | no value exactly when no click addresses the prefix; otherwise the value of the earliest click that addresses it |
| Approval.Resolved | src/slack_connector/bridge.py:90-98 | `resolve` never adds or removes a key. It never changes a slot that is already done, nor a slot other than the addressed one. It sets the addressed pending slot to the clicked value |
| Approval.DoneIsFinal | src/slack_connector/bridge.py:96 | once a slot is done, no later sequence of clicks changes it |
| Approval.FirstClickWins | src/slack_connector/bridge.py:96-97 | a pending slot ends up holding the value of the first click addressed to it; later and duplicate clicks are ignored; with no such click the slot stays pending |
| Approval.WaitOutcome | src/slack_connector/bridge.py:80-83 | a request returns true exactly when the first click for its prefix was Allow; with no click, the timeout denies |
| Approval.ApprovalSystem.constructor | src/slack_connector/bridge.py:31-35 | a new arbiter is bound to its channel and thread and has no pending request |
| Approval.ApprovalSystem.Register | src/slack_connector/bridge.py:43-46 | the request's slot is stored as pending under its fresh prefix before anything is posted; nothing else changes |
| Approval.ApprovalSystem.PostPrompt | src/slack_connector/bridge.py:48-79 | exactly one prompt is posted, carrying both button ids. On a post failure the request denies at once and its slot is removed (lines 84-88) |
| Approval.ApprovalSystem.AwaitDecision | src/slack_connector/bridge.py:80-88 | the result is the slot's value when it was filled and False when the timer won; the slot is removed either way |
| Approval.ApprovalSystem.RequestApproval | src/slack_connector/bridge.py:37-88 | one prompt is posted, and the request's slot is gone afterwards whatever the outcome. The result is true exactly when the post succeeded and the first click for the request was Allow. A failed post denies without waiting, and the pending map is then unchanged. Otherwise the pending map is the clicks' `ResolveAll` without the request's slot |
| Approval.ApprovalSystem.Resolve | src/slack_connector/bridge.py:90-98 | the loop over the two suffixes leaves the pending map equal to `Resolved` of the old map; an id not of the approval form changes nothing |
| Status.ToolName | src/slack_connector/bridge.py:168 | the shown name is `name`, else `tool_name`, else "tool" |
| Status.ToolStartTextQuotesName | src/slack_connector/bridge.py:169 | the tool's name, quoted between the gear heading and a trailing "`..." |
| Status.UpdateCalls | src/slack_connector/bridge.py:175-185 | one edit of the indicator when a non-empty handle exists, and none otherwise |
| Status.DeleteCalls | src/slack_connector/bridge.py:187-195 | one deletion of the indicator when a non-empty handle exists, and none otherwise |
| Status.AfterCleanup | src/slack_connector/bridge.py:189-198 | the handle is cleared only by a delete that succeeded; a failed delete leaves it in place |
| Status.CleanupIdempotent | src/slack_connector/bridge.py:187-196 | after a successful clean-up, a second clean-up issues no call and changes nothing |
| Status.StatusHook.constructor | src/slack_connector/bridge.py:148-152 | a new indicator has no handle |
| Status.StatusHook.Startup | src/slack_connector/bridge.py:154-164 | exactly one "Thinking..." post in the thread. The handle becomes the posted ts on success and is left alone on failure |
| Status.StatusHook.Update | src/slack_connector/bridge.py:175-185 | issues exactly `UpdateCalls`, and the handle never changes |
| Status.StatusHook.OnToolStart | src/slack_connector/bridge.py:166-169 | edits the indicator to name the tool in use |
| Status.StatusHook.OnToolEnd | src/slack_connector/bridge.py:171-173 | edits the indicator back to "Processing..." |
| Status.StatusHook.Cleanup | src/slack_connector/bridge.py:187-198 | issues exactly `DeleteCalls` of the old handle; the new handle is `AfterCleanup` |
| Conversation.ConversationId | src/slack_connector/bot.py:136-144 | the key is `slack-<channel>-<thread>` with a non-empty thread marker, and `slack-<channel>` otherwise |
| Conversation.ThreadIsolation | src/slack_connector/bot.py:142-144 | within one channel, different thread markers never share a key |
| Conversation.ChannelIsolation | src/slack_connector/bot.py:142-144 | two different channel ids without '-' never share a key, whatever their threads |
| Conversation.ReplyThread | src/slack_connector/bot.py:204 | replies go to the message's thread when it has one, and otherwise start a thread on the message |
| Conversation.ApprovalRouting | src/slack_connector/bot.py:331-335 | the clicked prompt's thread gives back the arbiter's conversation key exactly when the original message was in a thread. For a top-level message the keys differ, because the arbiter posts into the reply thread (line 161). Such clicks never reach the arbiter that posted the prompt, so its requests can only time out. They go to the thread's own conversation, if one exists. A later top-level message of the channel reuses that arbiter, so its prompts too appear in the first message's thread |
| Conversation.TopLevelMessagesShareConversation | src/slack_connector/bot.py:153-206 | every top-level message of a channel maps to the one key `slack-<channel>`, while each of their turns replies in the message's own ts; the arbiter and tool bound at creation keep the first message's thread |
| Conversation.ToInbound | src/slack_connector/bot.py:301-307 | a missing channel, text or ts becomes empty, a missing user becomes "unknown", and the thread marker is passed on unchanged |
| Conversation.MessageRoute | src/slack_connector/bot.py:284-307 | a message is handled exactly when none of these hold: bot-authored, sent by the bot's own user, any subtype, or outside the allowed channel. A handled message goes on with the event's fields and their defaults |
| Conversation.MentionRoute | src/slack_connector/bot.py:309-320 | a mention is dropped exactly when it is bot-authored, in any channel |
| Conversation.MentionAcceptsWhatMessageAccepts | src/slack_connector/bot.py:309-320 | every message the message handler takes is taken identically by the mention handler |
| Conversation.DecodeApprovalAction | src/slack_connector/bot.py:326-333 | an empty actions list raises. Otherwise the first action's id (default "") is taken, approval holds iff it ends in `_allow`, and the key comes from the clicked message's channel and thread |
| Conversation.ClickDecodesToRequest | src/slack_connector/bot.py:326-333 | a click on either button of a prompt decodes to that request's prefix, with true for Allow and false for Deny |
| Turn.Prompt | src/slack_connector/bot.py:236 | the prompt is the author tag `<@user>: ` followed by the stripped text, which neither starts nor ends with whitespace |
| Turn.ErrorNotice | src/slack_connector/bot.py:255 | the notice is the warning prefix followed by the exception's description |
| Turn.Registered | src/slack_connector/bot.py:225-231 | at most two hooks. "tool:pre" counts exactly when its registration returned, and "tool:post" exactly when both returned. "tool:pre" comes first |
| Turn.EventCalls | src/slack_connector/bot.py:226-231 | the notifications fired during `execute` only edit this turn's indicator, and none exist without a handle |
| Turn.ReplyCalls | src/slack_connector/bot.py:240-258 | a blank response posts nothing. Otherwise the response is posted in the thread, followed by an error notice exactly when that post raised |
| Turn.OutcomeCalls | src/slack_connector/bot.py:236-258 | when `execute` raises, exactly one error notice is posted in the thread and nothing else. When it returns, the posts are `ReplyCalls` |
| Turn.UnregisterCalls | src/slack_connector/bot.py:262-267 | the finally loop only issues unregister calls |
| Turn.TurnCalls | src/slack_connector/bot.py:208-274 | the calls of one turn, in order, as a function of what the environment answered. It has no contract of its own: `Bot.SlackBot.RunTurn` is proved to issue exactly these calls, and the `Turn` lemmas below state what the sequence guarantees |
| Turn.TurnEnds | src/slack_connector/bot.py:208-274 | the first call of a turn adds the reaction and the last call removes it |
| Turn.TurnBracketed | src/slack_connector/bot.py:208-274 | first call adds the reaction, last call removes it, and `execute` runs exactly once on `<@user>: ` plus the stripped text (line 236) |
| Turn.TurnPosts | src/slack_connector/bot.py:218-258 | of the calls `handle_message` issues itself, the posts are the "Thinking..." indicator and then exactly the outcome posts, all in the reply thread |
| Turn.SelectTurnPosts | src/slack_connector/bot.py:218-258 | the posts of a turn, in order, are the indicator post followed by `OutcomeCalls` |
| Turn.UnregisterCallsOfHandles | src/slack_connector/bot.py:262-267 | one unregister call per hook whose registration returned, in registration order |
| Turn.TurnUnregistersEveryHook | src/slack_connector/bot.py:225-267 | each hook whose registration returned is unregistered exactly once, in order, and no other hook is. The second registration is tried only after the first returned |
| Turn.TurnIndicatorLifecycle | src/slack_connector/bot.py:217-269 | every edit and deletion the turn's own hooks and finally block issue targets this turn's own indicator. The deletion happens exactly when the indicator post returned a handle, and only the reaction removal follows it |
| Turn.TurnTail | src/slack_connector/bot.py:260-274 | the last calls of a turn are the indicator deletion, if any, then the reaction removal |
| Bot.CreateCalls | src/slack_connector/bot.py:166-179 | `create_session` is called with the conversation key. On success the live reply tool is mounted under `slack_reply`, bound to the channel and reply thread |
| Bot.Closes | src/slack_connector/bot.py:97-102 | one close per listed conversation, in the order listed |
| Bot.SlackBot.constructor | src/slack_connector/bot.py:35-57 | a new bot starts with empty sessions, locks and arbiters (lines 50-52) and keeps its allowed channel and bot user id |
| Bot.SlackBot.GetOrCreateSession | src/slack_connector/bot.py:146-184 | a cached conversation returns its session and lock and changes nothing. Otherwise the creation is done as `CreatedAs` states |
| Bot.SlackBot.CreateConversation | src/slack_connector/bot.py:155-182 | the fresh arbiter is stored before the session is created. A failed creation stores nothing else. A successful one mounts the tool, then stores the session and one fresh lock |
| Bot.SlackBot.AddArbiter | src/slack_connector/bot.py:161-164 | one fresh arbiter is stored under the key, posting into the reply thread; sessions and locks are unchanged |
| Bot.SlackBot.StoreSession | src/slack_connector/bot.py:181-182 | the session and one fresh lock are stored together under the key |
| Bot.SlackBot.RunTurn | src/slack_connector/bot.py:208-274 | one turn issues exactly `TurnCalls`, so every `Turn` lemma applies to it |
| Bot.SlackBot.BeginTurn | src/slack_connector/bot.py:208-237 | the reaction, the indicator post, the registrations (the second only after the first returned) and one `execute`, in that order |
| Bot.SlackBot.DispatchEvents | src/slack_connector/bot.py:226-231 | the notifications' calls are exactly `EventCalls` |
| Bot.SlackBot.Dispatch | src/slack_connector/bridge.py:166-173 | a notification reaches the indicator only through a registered hook |
| Bot.SlackBot.PostOutcome | src/slack_connector/bot.py:239-258 | the posts after `execute` are exactly `OutcomeCalls` |
| Bot.SlackBot.Unregister | src/slack_connector/bot.py:262-267 | the unregister loop issues exactly `UnregisterCalls` |
| Bot.SlackBot.FinishTurn | src/slack_connector/bot.py:260-274 | the finally block unregisters, deletes the indicator and removes the reaction; no step stops the next |
| Bot.SlackBot.HandleMessage | src/slack_connector/bot.py:190-274 | blank text is ignored with no call. Otherwise the conversation is found or created with the reply thread `thread_ts or ts`, and a turn runs on its session. A failed creation ends the handler after the creation call (`HandledAs`). A cached conversation keeps its arbiter, bound to the thread of the message that created it |
| Bot.SlackBot.OnMessage | src/slack_connector/bot.py:284-307 | a filtered-out message changes nothing; any other is handled as `HandleMessage` states |
| Bot.SlackBot.OnMention | src/slack_connector/bot.py:309-320 | a bot-authored mention changes nothing; any other is handled in any channel |
| Bot.SlackBot.OnApproval | src/slack_connector/bot.py:322-337 | only the arbiter under the decoded key is resolved, as `Resolved` says, and every other arbiter is unchanged |
| Bot.SlackBot.CloseAll | src/slack_connector/bot.py:97-102 | close is attempted on every session exactly once, and a failure never stops the loop |
| Bot.SlackBot.Shutdown | src/slack_connector/bot.py:97-106 | every cached session is closed once, then all three maps are emptied |
| ReplyTool.Preview | modules/tool-slack-reply/tool_slack_reply/tool.py:86 | a message of up to 80 characters is quoted whole. A longer one is quoted as its first 80 characters followed by "..." |
| ReplyTool.Execute | modules/tool-slack-reply/tool_slack_reply/tool.py:70-90 | no client gives the not-initialized error. A blank message gives the empty-message error. Otherwise one post in the tool's thread, with a failed post reported as a failure carrying its text. Success holds iff there is a client, a non-blank message and a successful post |
| ReplyTool.ExecutePostsOnlyItsMessage | modules/tool-slack-reply/tool_slack_reply/tool.py:70-85 | at most one post, only of the given message into the tool's own thread, and only for a non-blank message with a client |
| ReplyTool.PlaceholderNeverPosts | modules/tool-slack-reply/tool_slack_reply/tool.py:93-104 | the placeholder registered at mount time never posts and always reports that it is not initialized |
| ReplyTool.SuccessQuotesMessage | modules/tool-slack-reply/tool_slack_reply/tool.py:86-87 | a success output is "Posted to Slack: " followed by the start of the message |
| ReplyTool.InputSchema | modules/tool-slack-reply/tool_slack_reply/tool.py:57-68 | an object schema with one string property, `message`, which is required |

## Left out

- `cli.py`, `startup` and `run`: configuration, bundle loading, authentication and the socket-mode loop are start-up I/O, not part of this model. `botUserId` and `allowedChannel` are constructor parameters.
- Bot.SlackBot.Shutdown: closing the socket-mode handler (`handler.close_async()`) is I/O and is not modelled. The visit order of the sessions is a ghost output, any order of the keys, because dict insertion order is not modelled.
- Concurrency: each conversation's `asyncio.Lock` is a `Lock` object, and the turn it guards is one sequential method. Mutual exclusion, FIFO queueing and interleaving across conversations are not modelled. Neither is the check-then-create race in `_get_or_create_session`: the cache check at bot.py:155 and the store at bot.py:181 are separated by `await create_session`, so two handlers for one new key can both create a conversation, the second arbiter, session and lock overwriting the first (whose session is then never closed). A mention in the allowed channel reaches `handle_message` through both `on_message` and `on_mention` (`Conversation.MentionAcceptsWhatMessageAccepts`), which gives it two turns and is the likely trigger of that race.
- Task cancellation is not modelled. A `CancelledError` raised during a turn skips the `except Exception` handler at bot.py:249, so no error notice is posted, while the finally block still runs.
- Approval.ApprovalSystem.RequestApproval: the clicks are those that arrive after the prompt is posted and before the wait ends. A click that arrives after the request finished finds no slot and changes nothing (`Resolved` leaves a missing key alone).
- Bot.SlackBot.HandleMessage: posts the agent makes while `execute` runs are not interleaved into `TurnCalls`. These are approval prompts, `slack_reply` posts (the tool is bound to the channel and to the reply thread of the message that created the conversation, which for a channel-level conversation is not the current turn's thread; see `Conversation.TopLevelMessagesShareConversation`) and display-system posts. Turn.TurnPosts and Turn.TurnIndicatorLifecycle therefore speak only of the calls `handle_message` issues itself. The arbiter phases (`Register`, `PostPrompt`, `AwaitDecision`, `RequestApproval`) and `ReplyTool.Execute` are modelled on their own.
- Turn.TurnIndicatorLifecycle: a hook whose `unreg()` raises is swallowed (bot.py:262-267) and stays registered with the runtime after the turn, so later turns' notifications can still reach it. The model does not track hooks across turns, so this is not modelled.
- Approval.ApprovalSystem.AwaitDecision: the 300-second `wait_for` timer is not modelled as a clock. The wait's end is an outcome: the slot was filled, or the timer won.
- Approval.ApprovalSystem.Register: `id(future)` is a `token: nat` parameter, and the precondition requires it to be unused in that arbiter only. In the program the identity is unique across all live futures of all arbiters. So in the model a misrouted click (see `Conversation.ApprovalRouting`) could fill a slot with an equal prefix in another arbiter, which the program rules out.
- The `ack()` of Bolt and all logging are not modelled.
- Bot.SlackBot.OnApproval: the action pattern is a routing filter applied by Bolt before the handler runs. `Approval.IsApprovalActionId` states the form of the ids the bridge generates, each of which contains a match of the pattern; it is proved about the prompt ids, and the handler does not check it. Python's `\d` also matches non-ASCII digits; only ASCII digits are modelled.
- `SlackDisplaySystem`, the tool's `description` text, and Block Kit layout beyond the texts and action ids are not modelled.
- Only `SlackApiError` failures at the points the code catches them are modelled. A failing error-notice post or a failing `reactions_remove` with another exception type is not modelled, and neither is a crash of the handler from such a call.
- Bot.CreateCalls: a raising `mount` is swallowed by the code, so the model always records the mount call after a successful `create_session` and does not model its failure.
- Turn.ReplyCalls: a `None` response from `execute` is modelled as the empty string; both post nothing.
- Bot.SlackBot.OnApproval: a missing `channel`, `message` or `action_id` key is modelled with the code's defaults. Non-dict values in the body are not modelled.
