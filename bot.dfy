/**
 * The bot (`SlackAmplifierBot`): a registry of per-conversation sessions,
 * their locks and their approval arbiters, the message turn that runs under
 * a conversation's lock, the shutdown that closes every session, and the
 * event and action handlers that feed them.
 */
module Bot {
  import opened Wrappers
  import opened Text
  import opened Effects
  import Approval
  import opened Status
  import opened Conversation
  import opened Turn
  import ReplyTool

  /** A conversation's lock; the turn it guards is modelled as a sequential section. */
  class Lock {
    constructor ()
    {
    }
  }

  /** What `create_session` did: returned a session, or raised. */
  datatype CreateOutcome = Created(session: SessionHandle) | CreateFailed

  /** How `handle_message` ended. */
  datatype TurnOutcome =
    | Skipped        // blank text: returned at once
    | SessionFailed  // `create_session` raised out of the handler
    | Completed      // the turn ran to the end of its finally block

  /** The calls a session creation issues: create it, then mount the live reply tool into it. */
  function CreateCalls(convId: string, channel: string, replyTs: string, create: CreateOutcome): (calls: seq<Effect>)
    ensures |calls| >= 1 && calls[0] == CreateSession(convId)
    ensures create.CreateFailed? ==> calls == [CreateSession(convId)]
    ensures create.Created? ==> calls == [CreateSession(convId), MountTool(create.session, ReplyTool.Name, channel, replyTs)]
  {
    [CreateSession(convId)]
    + match create
      case Created(h) => [MountTool(h, ReplyTool.Name, channel, replyTs)]
      case CreateFailed => []
  }

  /** `session.close()` on each listed conversation, in the order listed. */
  function Closes(sessions: map<string, SessionHandle>, order: seq<string>): (calls: seq<Effect>)
    requires forall k :: k in order ==> k in sessions
    ensures |calls| == |order|
    ensures forall i :: 0 <= i < |order| ==> calls[i] == CloseSession(sessions[order[i]])
    decreases |order|
  {
    if order == [] then []
    else Closes(sessions, order[..|order| - 1]) + [CloseSession(sessions[order[|order| - 1]])]
  }

  /** Appending eight segments one after the other appends their concatenation. */
  lemma AppendEight(s0: seq<Effect>, s1: seq<Effect>, s2: seq<Effect>, s3: seq<Effect>, s4: seq<Effect>,
                    s5: seq<Effect>, s6: seq<Effect>, s7: seq<Effect>, s8: seq<Effect>)
    ensures s0 + s1 + s2 + s3 + s4 + s5 + s6 + s7 + s8 == s0 + (s1 + s2 + s3 + s4 + s5 + s6 + s7 + s8)
  {
  }

  predicate NoDuplicates(s: seq<string>) {
    forall i, j :: 0 <= i < j < |s| ==> s[i] != s[j]
  }

  /** Part way through a visit of `keys`: `order` visited, each once, and `remaining` still to visit. */
  predicate Visiting(keys: set<string>, order: seq<string>, remaining: set<string>) {
    && remaining <= keys
    && (forall k :: k in order ==> k in keys)
    && (forall k :: k in keys ==> (k in order <==> k !in remaining))
    && NoDuplicates(order)
  }

  lemma VisitingStep(keys: set<string>, order: seq<string>, remaining: set<string>, k: string)
    requires Visiting(keys, order, remaining) && k in remaining
    ensures Visiting(keys, order + [k], remaining - {k})
  {
    assert k !in order;
  }

  lemma ClosesStep(sessions: map<string, SessionHandle>, order: seq<string>, k: string)
    requires forall j :: j in order ==> j in sessions
    requires k in sessions
    ensures forall j :: j in order + [k] ==> j in sessions
    ensures Closes(sessions, order + [k]) == Closes(sessions, order) + [CloseSession(sessions[k])]
  {
    assert (order + [k])[..|order|] == order;
  }

  class SlackBot {
    /** The Slack client and agent runtime, shared by every arbiter and turn. */
    const out: Outbound
    const allowedChannel: Option<string>
    const botUserId: Option<string>
    var sessions: map<string, SessionHandle>
    var locks: map<string, Lock>
    /** `_approval_systems`: conversation id -> its approval arbiter. */
    var approvalSystems: map<string, Approval.ApprovalSystem>

    /**
     * The registry invariant: sessions and locks have the same keys, each
     * conversation has its own lock, every conversation with a session has
     * an arbiter, and every arbiter is well formed and posts through the
     * bot's client.
     */
    ghost predicate Valid()
      reads this, approvalSystems.Values
    {
      && sessions.Keys == locks.Keys
      && sessions.Keys <= approvalSystems.Keys
      && (forall k1, k2 :: k1 in locks && k2 in locks && k1 != k2 ==> locks[k1] != locks[k2])
      && (forall k :: k in approvalSystems ==> approvalSystems[k].out == out && approvalSystems[k].Valid())
    }

    constructor (out: Outbound, allowedChannel: Option<string>, botUserId: Option<string>)
      ensures Valid()
      ensures this.out == out && this.allowedChannel == allowedChannel && this.botUserId == botUserId
      ensures sessions == map[] && locks == map[] && approvalSystems == map[]
    {
      this.out := out;
      this.allowedChannel := allowedChannel;
      this.botUserId := botUserId;
      sessions := map[];
      locks := map[];
      approvalSystems := map[];
    }

    /**
     * `_get_or_create_session`: a cached conversation is returned as it is,
     * with nothing touched. Otherwise a fresh arbiter for the reply thread is
     * stored first, then the session is created; when that raises, nothing
     * else is stored (`None` here), and otherwise the reply tool is mounted
     * (a failed mount is swallowed) and the session and a fresh lock are
     * stored together.
     */
    method GetOrCreateSession(channel: string, threadTs: Option<string>, replyTs: string, create: CreateOutcome)
      returns (found: Option<(SessionHandle, Lock)>)
      requires Valid()
      modifies this, out
      ensures Valid()
      ensures var id := ConversationId(channel, threadTs);
        if id in old(sessions) then
          && found == Some((old(sessions)[id], old(locks)[id]))
          && sessions == old(sessions) && locks == old(locks) && approvalSystems == old(approvalSystems)
          && out.effects == old(out.effects)
        else CreatedAs(id, channel, replyTs, create, found)
    {
      var id := ConversationId(channel, threadTs);
      if id in sessions {
        return Some((sessions[id], locks[id]));
      }
      found := CreateConversation(id, channel, replyTs, create);
    }

    /** What creating conversation `id` did to the registry and the log. */
    twostate predicate CreatedAs(id: string, channel: string, replyTs: string, create: CreateOutcome,
                                 new found: Option<(SessionHandle, Lock)>)
      reads this, out
    {
      && id in approvalSystems && fresh(approvalSystems[id])
      && approvalSystems == old(approvalSystems)[id := approvalSystems[id]]
      && approvalSystems[id].channel == channel && approvalSystems[id].threadTs == Some(replyTs)
      && out.effects == old(out.effects) + CreateCalls(id, channel, replyTs, create)
      && match create
         case CreateFailed => found == None && sessions == old(sessions) && locks == old(locks)
         case Created(h) =>
           && found.Some? && found.value.0 == h && fresh(found.value.1)
           && sessions == old(sessions)[id := h] && locks == old(locks)[id := found.value.1]
    }

    /** The creation branch of `_get_or_create_session`, for a conversation not cached yet. */
    method CreateConversation(id: string, channel: string, replyTs: string, create: CreateOutcome)
      returns (found: Option<(SessionHandle, Lock)>)
      requires Valid()
      requires id !in sessions
      modifies this, out
      ensures Valid()
      ensures CreatedAs(id, channel, replyTs, create, found)
      ensures approvalSystems[id].pending == map[]
    {
      AddArbiter(id, channel, replyTs);
      out.Emit(CreateSession(id));
      match create {
        case CreateFailed =>
          return None;
        case Created(h) =>
          out.Emit(MountTool(h, ReplyTool.Name, channel, replyTs));
          var lock := StoreSession(id, h);
          return Some((h, lock));
      }
    }

    /** Store a fresh arbiter for conversation `id`, posting into the reply thread. */
    method AddArbiter(id: string, channel: string, replyTs: string)
      requires Valid()
      requires id !in sessions
      modifies this
      ensures Valid()
      ensures id in approvalSystems && fresh(approvalSystems[id])
      ensures approvalSystems == old(approvalSystems)[id := approvalSystems[id]]
      ensures approvalSystems[id].channel == channel && approvalSystems[id].threadTs == Some(replyTs)
      ensures approvalSystems[id].pending == map[]
      ensures sessions == old(sessions) && locks == old(locks)
    {
      var approval := new Approval.ApprovalSystem(out, channel, Some(replyTs));
      approvalSystems := approvalSystems[id := approval];
    }

    /** Store the created session and a fresh lock under `id`, together. */
    method StoreSession(id: string, h: SessionHandle) returns (lock: Lock)
      requires Valid()
      requires id !in sessions && id in approvalSystems
      modifies this
      ensures Valid()
      ensures fresh(lock)
      ensures sessions == old(sessions)[id := h] && locks == old(locks)[id := lock]
      ensures approvalSystems == old(approvalSystems)
    {
      lock := new Lock();
      sessions := sessions[id := h];
      locks := locks[id := lock];
    }

    /**
     * One turn under the conversation's lock, once the session is known: it
     * issues exactly `TurnCalls`. The "loading" reaction is added first; the
     * status indicator is posted; the two hooks are registered, the second
     * only if the first returned; `execute` runs, and every tool notification
     * reaches the indicator through a registered hook; the outcome is posted;
     * and the finally block unregisters what was registered, cleans up the
     * indicator and removes the reaction, each step whatever the others did.
     */
    method RunTurn(channel: string, user: string, text: string, ts: string, reply: string,
                   session: SessionHandle, env: TurnEnv)
      modifies out
      ensures out.effects == old(out.effects) + TurnCalls(channel, user, text, ts, reply, session, env)
    {
      var hook, unregPre, unregPost := BeginTurn(channel, user, text, ts, reply, session, env);
      ghost var e1 := out.effects;
      DispatchEvents(hook, env, unregPre.Some?, unregPost.Some?);
      ghost var e2 := out.effects;
      PostOutcome(channel, reply, env.exec, env.replyError);
      ghost var e3 := out.effects;
      FinishTurn(hook, [unregPre, unregPost], ts, env);
      assert e1 == old(out.effects) + Opening(channel, ts, reply) + RegisterCalls(session, env)
                   + [Execute(session, Prompt(user, text))];
      assert e2 == e1 + EventCalls(channel, env, env.events);
      assert e3 == e2 + OutcomeCalls(channel, reply, env.exec, env.replyError);
      assert out.effects == e3 + UnregisterCalls(Handles(env)) + DeleteCalls(channel, env.statusPost)
                            + [RemoveReaction(channel, ts, Loading)];
      AppendEight(old(out.effects), Opening(channel, ts, reply), RegisterCalls(session, env),
                  [Execute(session, Prompt(user, text))], EventCalls(channel, env, env.events),
                  OutcomeCalls(channel, reply, env.exec, env.replyError), UnregisterCalls(Handles(env)),
                  DeleteCalls(channel, env.statusPost), [RemoveReaction(channel, ts, Loading)]);
    }

    /**
     * The turn up to `execute`: add the "loading" reaction, post the status
     * indicator, register the hooks (the second only if the first returned)
     * and call `execute` on the tagged, stripped prompt.
     */
    method BeginTurn(channel: string, user: string, text: string, ts: string, reply: string,
                     session: SessionHandle, env: TurnEnv)
      returns (hook: StatusHook, unregPre: Option<string>, unregPost: Option<string>)
      modifies out
      ensures fresh(hook) && hook.out == out && hook.channel == channel && hook.statusTs == env.statusPost
      ensures [unregPre, unregPost] == Handles(env)
      ensures out.effects == old(out.effects) + Opening(channel, ts, reply) + RegisterCalls(session, env)
                             + [Execute(session, Prompt(user, text))]
    {
      out.Emit(AddReaction(channel, ts, Loading));
      hook := new StatusHook(out, channel, reply);
      hook.Startup(env.statusPost.Some?, env.statusPost.GetOr(""));
      ghost var begun := out.effects;
      assert begun == old(out.effects) + Opening(channel, ts, reply);
      unregPre, unregPost := None, None;
      out.Emit(RegisterHook(session, PreEvent));
      if env.preHookOk {
        unregPre := Some(PreEvent);
        out.Emit(RegisterHook(session, PostEvent));
        if env.postHookOk {
          unregPost := Some(PostEvent);
        }
      }
      assert out.effects == begun + RegisterCalls(session, env);
      var prompt := Prompt(user, text);
      out.Emit(Execute(session, prompt));
    }

    /**
     * The finally block: unregister the registered hooks, clean up the
     * indicator and remove the reaction; none of these steps can stop the
     * next one.
     */
    method FinishTurn(hook: StatusHook, handles: seq<Option<string>>, ts: string, env: TurnEnv)
      requires hook.out == out && hook.statusTs == env.statusPost
      modifies out, hook
      ensures out.effects == old(out.effects) + UnregisterCalls(handles) + DeleteCalls(hook.channel, env.statusPost)
                             + [RemoveReaction(hook.channel, ts, Loading)]
    {
      Unregister(handles);
      hook.Cleanup(env.deleteOk);
      out.Emit(RemoveReaction(hook.channel, ts, Loading));
    }

    /**
     * The hook notifications fired while `execute` runs: a tool start reaches
     * the indicator only through a registered "tool:pre" hook, a tool end only
     * through a registered "tool:post" hook.
     */
    method DispatchEvents(hook: StatusHook, env: TurnEnv, preOn: bool, postOn: bool)
      requires hook.out == out && hook.statusTs == env.statusPost
      requires preOn == env.preHookOk && postOn == (env.preHookOk && env.postHookOk)
      modifies out
      ensures out.effects == old(out.effects) + EventCalls(hook.channel, env, env.events)
    {
      var i := 0;
      while i < |env.events|
        invariant 0 <= i <= |env.events|
        invariant out.effects == old(out.effects) + EventCalls(hook.channel, env, env.events[..i])
      {
        EventCallsStep(hook.channel, env, env.events, i);
        Dispatch(hook, env, env.events[i], preOn, postOn);
        i := i + 1;
      }
      assert env.events[..i] == env.events;
    }

    /** One hook notification, delivered only through a registered hook. */
    method Dispatch(hook: StatusHook, env: TurnEnv, ev: ToolEvent, preOn: bool, postOn: bool)
      requires hook.out == out && hook.statusTs == env.statusPost
      requires preOn == env.preHookOk && postOn == (env.preHookOk && env.postHookOk)
      modifies out
      ensures out.effects == old(out.effects) + EventCall(hook.channel, env, ev)
    {
      match ev {
        case ToolStart(data) =>
          if preOn {
            hook.OnToolStart(data);
          }
        case ToolEnd =>
          if postOn {
            hook.OnToolEnd();
          }
      }
    }

    /** The try block's posts after `execute`: the reply, or the error notice, or nothing. */
    method PostOutcome(channel: string, reply: string, exec: ExecResult, replyError: Option<string>)
      modifies out
      ensures out.effects == old(out.effects) + OutcomeCalls(channel, reply, exec, replyError)
    {
      match exec {
        case Raised(m) =>
          out.Emit(PostMessage(channel, Some(reply), ErrorNotice(m)));
        case Returned(response) =>
          if !IsBlank(response) {
            out.Emit(PostMessage(channel, Some(reply), response));
            if replyError.Some? {
              out.Emit(PostMessage(channel, Some(reply), ErrorNotice(replyError.value)));
            }
          }
      }
    }

    /** The finally block's loop: call each unregister function that was returned, ignoring failures. */
    method Unregister(handles: seq<Option<string>>)
      modifies out
      ensures out.effects == old(out.effects) + UnregisterCalls(handles)
    {
      for j := 0 to |handles|
        invariant out.effects == old(out.effects) + UnregisterCalls(handles[..j])
      {
        UnregisterCallsStep(handles, j);
        if handles[j].Some? {
          out.Emit(UnregisterHook(handles[j].value));
        }
      }
      assert handles[..|handles|] == handles;
    }

    /** What `handle_message` did to the registry and the log, as a relation between before and after. */
    twostate predicate HandledAs(channel: string, user: string, text: string, ts: string, threadTs: Option<string>,
                                 create: CreateOutcome, env: TurnEnv, outcome: TurnOutcome)
      reads this, out
    {
      var id := ConversationId(channel, threadTs);
      var reply := ReplyThread(threadTs, ts);
      if IsBlank(text) then
        && outcome == Skipped
        && sessions == old(sessions) && locks == old(locks) && approvalSystems == old(approvalSystems)
        && out.effects == old(out.effects)
      else if id in old(sessions) then
        && outcome == Completed
        && sessions == old(sessions) && locks == old(locks) && approvalSystems == old(approvalSystems)
        && out.effects == old(out.effects) + TurnCalls(channel, user, text, ts, reply, old(sessions)[id], env)
      else
        && id in approvalSystems && fresh(approvalSystems[id])
        && approvalSystems == old(approvalSystems)[id := approvalSystems[id]]
        && approvalSystems[id].channel == channel && approvalSystems[id].threadTs == Some(reply)
        && match create
           case CreateFailed =>
             && outcome == SessionFailed
             && sessions == old(sessions) && locks == old(locks)
             && out.effects == old(out.effects) + CreateCalls(id, channel, reply, create)
           case Created(h) =>
             && outcome == Completed
             && sessions == old(sessions)[id := h]
             && id in locks && fresh(locks[id]) && locks == old(locks)[id := locks[id]]
             && out.effects == old(out.effects) + CreateCalls(id, channel, reply, create)
                + TurnCalls(channel, user, text, ts, reply, h, env)
    }

    /**
     * `handle_message`: blank text is ignored with no call and no registry
     * change; otherwise the reply thread is `thread_ts or ts`, the session of
     * the conversation is found or created, and a turn runs on it.
     */
    method HandleMessage(channel: string, user: string, text: string, ts: string, threadTs: Option<string>,
                         create: CreateOutcome, env: TurnEnv) returns (outcome: TurnOutcome)
      requires Valid()
      modifies this, out
      ensures Valid()
      ensures HandledAs(channel, user, text, ts, threadTs, create, env, outcome)
      ensures var id := ConversationId(channel, threadTs);
        id in old(sessions) ==> id in approvalSystems && approvalSystems[id] == old(approvalSystems)[id]
    {
      if IsBlank(text) {
        return Skipped;
      }
      var reply := ReplyThread(threadTs, ts);
      var found := GetOrCreateSession(channel, threadTs, reply, create);
      if found.None? {
        return SessionFailed;
      }
      RunTurn(channel, user, text, ts, reply, found.value.0, env);
      return Completed;
    }

    /** `on_message`: a plain message that passes the filters is handled; any other changes nothing. */
    method OnMessage(e: Event, create: CreateOutcome, env: TurnEnv) returns (outcome: Option<TurnOutcome>)
      requires Valid()
      modifies this, out
      ensures Valid()
      ensures MessageRoute(e, allowedChannel, botUserId) == None ==>
        outcome == None && unchanged(this) && out.effects == old(out.effects)
      ensures MessageRoute(e, allowedChannel, botUserId) != None ==>
        var m := ToInbound(e);
        outcome.Some? && HandledAs(m.channel, m.user, m.text, m.ts, m.threadTs, create, env, outcome.value)
    {
      match MessageRoute(e, allowedChannel, botUserId) {
        case None =>
          return None;
        case Some(m) =>
          var r := HandleMessage(m.channel, m.user, m.text, m.ts, m.threadTs, create, env);
          return Some(r);
      }
    }

    /** `on_mention`: every event not sent by a bot is handled, in any channel. */
    method OnMention(e: Event, create: CreateOutcome, env: TurnEnv) returns (outcome: Option<TurnOutcome>)
      requires Valid()
      modifies this, out
      ensures Valid()
      ensures MentionRoute(e) == None ==> outcome == None && unchanged(this) && out.effects == old(out.effects)
      ensures MentionRoute(e) != None ==>
        var m := ToInbound(e);
        outcome.Some? && HandledAs(m.channel, m.user, m.text, m.ts, m.threadTs, create, env, outcome.value)
    {
      match MentionRoute(e) {
        case None =>
          return None;
        case Some(m) =>
          var r := HandleMessage(m.channel, m.user, m.text, m.ts, m.threadTs, create, env);
          return Some(r);
      }
    }

    /**
     * `on_approval`: decode the click and pass it to the arbiter registered
     * under the clicked message's conversation id, if there is one. Only that
     * arbiter's pending map can change, exactly as `Resolve` says.
     */
    method OnApproval(body: ActionBody)
      requires Valid()
      modifies approvalSystems.Values
      ensures Valid()
      ensures forall k :: k in approvalSystems ==>
        approvalSystems[k].pending ==
          match DecodeApprovalAction(body)
          case Some(a) =>
            if a.convId in approvalSystems && approvalSystems[a.convId] == approvalSystems[k]
            then Approval.Resolved(old(approvalSystems[k].pending), a.actionId, a.approved)
            else old(approvalSystems[k].pending)
          case None => old(approvalSystems[k].pending)
    {
      match DecodeApprovalAction(body) {
        case None =>
        case Some(a) =>
          if a.convId in approvalSystems {
            var arbiter := approvalSystems[a.convId];
            arbiter.Resolve(a.actionId, a.approved);
          }
      }
    }

    /**
     * The loop of `shutdown`: `close` is attempted on every session of `m`,
     * once each, whatever the earlier ones did (failures are swallowed).
     * `order` is the order the sessions were visited in.
     */
    method CloseAll(m: map<string, SessionHandle>) returns (ghost order: seq<string>)
      modifies out
      ensures forall k :: k in order <==> k in m
      ensures NoDuplicates(order)
      ensures out.effects == old(out.effects) + Closes(m, order)
    {
      var remaining := m.Keys;
      order := [];
      while remaining != {}
        invariant Visiting(m.Keys, order, remaining)
        invariant out.effects == old(out.effects) + Closes(m, order)
        decreases |remaining|
      {
        var k :| k in remaining;
        out.Emit(CloseSession(m[k]));
        ClosesStep(m, order, k);
        VisitingStep(m.Keys, order, remaining, k);
        order := order + [k];
        remaining := remaining - {k};
      }
    }

    /** `shutdown`: close every cached session, then clear all three maps. */
    method Shutdown() returns (ghost order: seq<string>)
      requires Valid()
      modifies this, out
      ensures Valid()
      ensures sessions == map[] && locks == map[] && approvalSystems == map[]
      ensures forall k :: k in order <==> k in old(sessions)
      ensures NoDuplicates(order)
      ensures out.effects == old(out.effects) + Closes(old(sessions), order)
    {
      order := CloseAll(sessions);
      sessions := map[];
      locks := map[];
      approvalSystems := map[];
    }
  }
}
