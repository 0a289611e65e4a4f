/**
 * One turn of `handle_message` once the session is known: the calls it
 * issues, in order, as a function of what the environment answered. The
 * method `Bot.SlackBot.RunTurn` is proved to issue exactly `TurnCalls`; the
 * lemmas below state what that sequence guarantees.
 */
module Turn {
  import opened Wrappers
  import opened Text
  import opened Effects
  import opened Status

  const Loading := "loading"
  const PreEvent := "tool:pre"
  const PostEvent := "tool:post"
  const ErrorPrefix := ":warning: An error occurred: "

  /** How `session.execute(prompt)` ended. */
  datatype ExecResult = Returned(response: string) | Raised(message: string)

  /** A hook notification the runtime fires while `execute` runs. */
  datatype ToolEvent = ToolStart(data: map<string, string>) | ToolEnd

  /** Everything the outside world decides during one turn. */
  datatype TurnEnv = TurnEnv(
    /** The ts of the posted "Thinking..." message; None when that post failed. */
    statusPost: Option<string>,
    /** `register("tool:pre", ...)` returned (false: it raised). */
    preHookOk: bool,
    /** `register("tool:post", ...)` returned; only tried after the first one returned. */
    postHookOk: bool,
    events: seq<ToolEvent>,
    exec: ExecResult,
    /** The reply post raised with this description. */
    replyError: Option<string>,
    deleteOk: bool)

  /** The author tag a prompt starts with: `<@user>: `. */
  function AuthorTag(user: string): string {
    "<@" + user + ">: "
  }

  /**
   * `f"<@{user}>: {text.strip()}"`: the author tag, then the stripped text,
   * which neither starts nor ends with whitespace.
   */
  function Prompt(user: string, text: string): (r: string)
    ensures |AuthorTag(user)| <= |r| && r[..|AuthorTag(user)|] == AuthorTag(user)
    ensures r[|AuthorTag(user)|..] == Strip(text)
    ensures var body := r[|AuthorTag(user)|..]; body == [] || (!IsSpace(body[0]) && !IsSpace(body[|body| - 1]))
  {
    var r := AuthorTag(user) + Strip(text);
    assert r[|AuthorTag(user)|..] == Strip(text);
    r
  }

  /** The error notice: the warning prefix, then the exception's description. */
  function ErrorNotice(description: string): (r: string)
    ensures |r| == |ErrorPrefix| + |description|
    ensures r[..|ErrorPrefix|] == ErrorPrefix
    ensures EndsWith(r, description)
  {
    var r := ErrorPrefix + description;
    assert r[|r| - |description|..] == description;
    r
  }

  /** The hooks whose registration returned, in registration order. */
  function Registered(env: TurnEnv): (r: seq<string>)
    ensures |r| <= 2
    ensures PreEvent in r <==> env.preHookOk
    ensures PostEvent in r <==> env.preHookOk && env.postHookOk
    ensures r != [] ==> r[0] == PreEvent
    ensures r == [] || r == [PreEvent] || r == [PreEvent, PostEvent]
  {
    (if env.preHookOk then [PreEvent] else []) + (if env.preHookOk && env.postHookOk then [PostEvent] else [])
  }

  /** `(unreg_pre, unreg_post)` after the registration block. */
  function Handles(env: TurnEnv): seq<Option<string>> {
    [if env.preHookOk then Some(PreEvent) else None,
     if env.preHookOk && env.postHookOk then Some(PostEvent) else None]
  }

  function RegisterCalls(session: SessionHandle, env: TurnEnv): seq<Effect> {
    [RegisterHook(session, PreEvent)] + (if env.preHookOk then [RegisterHook(session, PostEvent)] else [])
  }

  /** The calls one hook notification causes: only a registered hook reaches the status indicator. */
  function EventCall(channel: string, env: TurnEnv, ev: ToolEvent): seq<Effect> {
    match ev
    case ToolStart(data) =>
      if env.preHookOk then UpdateCalls(channel, env.statusPost, ToolStartText(ToolName(data))) else []
    case ToolEnd =>
      if env.preHookOk && env.postHookOk then UpdateCalls(channel, env.statusPost, ProcessingText) else []
  }

  /** The calls the notifications cause: edits of the indicator, and none at all without one. */
  function EventCalls(channel: string, env: TurnEnv, events: seq<ToolEvent>): (calls: seq<Effect>)
    ensures forall e :: e in calls ==>
      Truthy(env.statusPost) && e.UpdateMessage? && e.channel == channel && e.ts == env.statusPost.value
    ensures |calls| <= |events|
    decreases |events|
  {
    if events == [] then []
    else EventCalls(channel, env, events[..|events| - 1]) + EventCall(channel, env, events[|events| - 1])
  }

  /**
   * What the turn posts for a returned response: nothing when it is blank;
   * otherwise the response, followed by an error notice when posting it
   * raised.
   */
  function ReplyCalls(channel: string, reply: string, response: string, replyError: Option<string>): (calls: seq<Effect>)
    ensures forall e :: e in calls ==> e.PostMessage? && e.channel == channel && e.threadTs == Some(reply)
    ensures calls == [] <==> IsBlank(response)
    ensures calls != [] ==>
      && calls[0].text == response
      && |calls| == (if replyError.Some? then 2 else 1)
      && (replyError.Some? ==> calls[1].text == ErrorNotice(replyError.value))
  {
    if IsBlank(response) then []
    else
      var first := PostMessage(channel, Some(reply), response);
      match replyError
      case Some(e) => [first, PostMessage(channel, Some(reply), ErrorNotice(e))]
      case None => [first]
  }

  /**
   * What the turn posts after `execute`: an error notice when it raised,
   * and the reply calls when it returned.
   */
  function OutcomeCalls(channel: string, reply: string, exec: ExecResult, replyError: Option<string>): (calls: seq<Effect>)
    ensures forall e :: e in calls ==> e.PostMessage? && e.channel == channel && e.threadTs == Some(reply)
    ensures exec.Raised? ==> calls == [PostMessage(channel, Some(reply), ErrorNotice(exec.message))]
    ensures exec.Returned? ==> calls == ReplyCalls(channel, reply, exec.response, replyError)
  {
    match exec
    case Raised(m) => [PostMessage(channel, Some(reply), ErrorNotice(m))]
    case Returned(response) => ReplyCalls(channel, reply, response, replyError)
  }

  /** The finally block's `for unreg in (unreg_pre, unreg_post): if unreg is not None: unreg()`. */
  function UnregisterCalls(handles: seq<Option<string>>): (calls: seq<Effect>)
    ensures forall e :: e in calls ==> e.UnregisterHook?
    decreases |handles|
  {
    if handles == [] then []
    else UnregisterCalls(handles[..|handles| - 1])
         + (match handles[|handles| - 1] case Some(ev) => [UnregisterHook(ev)] case None => [])
  }

  lemma EventCallsStep(channel: string, env: TurnEnv, events: seq<ToolEvent>, i: nat)
    requires i < |events|
    ensures EventCalls(channel, env, events[..i + 1]) == EventCalls(channel, env, events[..i]) + EventCall(channel, env, events[i])
  {
    assert events[..i + 1][..i] == events[..i];
  }

  lemma UnregisterCallsStep(handles: seq<Option<string>>, j: nat)
    requires j < |handles|
    ensures UnregisterCalls(handles[..j + 1]) == UnregisterCalls(handles[..j])
      + match handles[j] case Some(ev) => [UnregisterHook(ev)] case None => []
  {
    assert handles[..j + 1][..j] == handles[..j];
  }

  /**
   * All calls of a turn, from adding the "loading" reaction to removing it:
   * the indicator post, the hook registrations, `execute`, the indicator
   * edits, the outcome posts, and the finally block (unregister, delete the
   * indicator, remove the reaction).
   */
  function TurnCalls(channel: string, user: string, text: string, ts: string, reply: string,
                     session: SessionHandle, env: TurnEnv): seq<Effect>
  {
    Opening(channel, ts, reply)
    + RegisterCalls(session, env)
    + [Execute(session, Prompt(user, text))]
    + EventCalls(channel, env, env.events)
    + OutcomeCalls(channel, reply, env.exec, env.replyError)
    + UnregisterCalls(Handles(env))
    + DeleteCalls(channel, env.statusPost)
    + [RemoveReaction(channel, ts, Loading)]
  }

  /** Kinds of calls, to pick them out of a log. */
  datatype Kind = Posts | Updates | Deletes | Registers | Unregisters | Executes

  /** The kind of a call, when it is one of those picked out. */
  function KindOf(e: Effect): Option<Kind> {
    match e
    case PostMessage(_, _, _) => Some(Posts)
    case UpdateMessage(_, _, _) => Some(Updates)
    case DeleteMessage(_, _) => Some(Deletes)
    case RegisterHook(_, _) => Some(Registers)
    case UnregisterHook(_) => Some(Unregisters)
    case Execute(_, _) => Some(Executes)
    case _ => None
  }

  predicate OfKind(e: Effect, k: Kind) {
    KindOf(e) == Some(k)
  }

  /** The calls of kind `k`, in their order. */
  function Select(calls: seq<Effect>, k: Kind): seq<Effect>
    decreases |calls|
  {
    if calls == [] then []
    else (if OfKind(calls[0], k) then [calls[0]] else []) + Select(calls[1..], k)
  }

  lemma {:induction false} SelectAppend(a: seq<Effect>, b: seq<Effect>, k: Kind)
    ensures Select(a + b, k) == Select(a, k) + Select(b, k)
    decreases |a|
  {
    if a == [] {
      assert a + b == b;
    } else {
      assert (a + b)[0] == a[0];
      assert (a + b)[1..] == a[1..] + b;
      SelectAppend(a[1..], b, k);
    }
  }

  lemma Select8(s1: seq<Effect>, s2: seq<Effect>, s3: seq<Effect>, s4: seq<Effect>,
                s5: seq<Effect>, s6: seq<Effect>, s7: seq<Effect>, s8: seq<Effect>, k: Kind)
    ensures Select(s1 + s2 + s3 + s4 + s5 + s6 + s7 + s8, k) ==
      Select(s1, k) + Select(s2, k) + Select(s3, k) + Select(s4, k)
      + Select(s5, k) + Select(s6, k) + Select(s7, k) + Select(s8, k)
  {
    SelectAppend(s1, s2, k);
    SelectAppend(s1 + s2, s3, k);
    SelectAppend(s1 + s2 + s3, s4, k);
    SelectAppend(s1 + s2 + s3 + s4, s5, k);
    SelectAppend(s1 + s2 + s3 + s4 + s5, s6, k);
    SelectAppend(s1 + s2 + s3 + s4 + s5 + s6, s7, k);
    SelectAppend(s1 + s2 + s3 + s4 + s5 + s6 + s7, s8, k);
  }

  /** The two-element prefix of a turn. */
  function Opening(channel: string, ts: string, reply: string): seq<Effect> {
    [AddReaction(channel, ts, Loading), PostMessage(channel, Some(reply), ThinkingText)]
  }

  /** A segment made of calls of one kind contributes all of itself to that kind and nothing to the others. */
  lemma {:induction false} SelectOneKind(a: seq<Effect>, k0: Kind, k: Kind)
    requires forall e :: e in a ==> OfKind(e, k0)
    ensures Select(a, k) == if k == k0 then a else []
    decreases |a|
  {
    if a != [] {
      assert a[0] in a && a == [a[0]] + a[1..];
      assert forall e :: e in a[1..] ==> e in a;
      SelectOneKind(a[1..], k0, k);
    }
  }

  /** Selecting from a whole turn is selecting from each of its eight segments. */
  lemma SelectTurn(channel: string, user: string, text: string, ts: string, reply: string,
                   session: SessionHandle, env: TurnEnv, k: Kind)
    ensures Select(TurnCalls(channel, user, text, ts, reply, session, env), k) ==
      Select(Opening(channel, ts, reply), k) + Select(RegisterCalls(session, env), k)
      + Select([Execute(session, Prompt(user, text))], k) + Select(EventCalls(channel, env, env.events), k)
      + Select(OutcomeCalls(channel, reply, env.exec, env.replyError), k) + Select(UnregisterCalls(Handles(env)), k)
      + Select(DeleteCalls(channel, env.statusPost), k) + Select([RemoveReaction(channel, ts, Loading)], k)
  {
    var s1, s2 := Opening(channel, ts, reply), RegisterCalls(session, env);
    var s3, s4 := [Execute(session, Prompt(user, text))], EventCalls(channel, env, env.events);
    var s5, s6 := OutcomeCalls(channel, reply, env.exec, env.replyError), UnregisterCalls(Handles(env));
    var s7, s8 := DeleteCalls(channel, env.statusPost), [RemoveReaction(channel, ts, Loading)];
    assert TurnCalls(channel, user, text, ts, reply, session, env) == s1 + s2 + s3 + s4 + s5 + s6 + s7 + s8;
    Select8(s1, s2, s3, s4, s5, s6, s7, s8, k);
  }

  /** Eight segments of which all but the `i`-th are empty add up to the `i`-th. */
  lemma KeepOne(t1: seq<Effect>, t2: seq<Effect>, t3: seq<Effect>, t4: seq<Effect>,
                t5: seq<Effect>, t6: seq<Effect>, t7: seq<Effect>, t8: seq<Effect>, i: nat)
    requires 1 <= i <= 8
    requires (i == 1 || t1 == []) && (i == 2 || t2 == []) && (i == 3 || t3 == []) && (i == 4 || t4 == [])
    requires (i == 5 || t5 == []) && (i == 6 || t6 == []) && (i == 7 || t7 == []) && (i == 8 || t8 == [])
    ensures i == 1 ==> t1 + t2 + t3 + t4 + t5 + t6 + t7 + t8 == t1
    ensures i == 2 ==> t1 + t2 + t3 + t4 + t5 + t6 + t7 + t8 == t2
    ensures i == 3 ==> t1 + t2 + t3 + t4 + t5 + t6 + t7 + t8 == t3
    ensures i == 4 ==> t1 + t2 + t3 + t4 + t5 + t6 + t7 + t8 == t4
    ensures i == 5 ==> t1 + t2 + t3 + t4 + t5 + t6 + t7 + t8 == t5
    ensures i == 6 ==> t1 + t2 + t3 + t4 + t5 + t6 + t7 + t8 == t6
    ensures i == 7 ==> t1 + t2 + t3 + t4 + t5 + t6 + t7 + t8 == t7
    ensures i == 8 ==> t1 + t2 + t3 + t4 + t5 + t6 + t7 + t8 == t8
  {
  }

  /** Eight segments of which only the first and the fifth may be non-empty add up to those two. */
  lemma KeepTwo(t1: seq<Effect>, t2: seq<Effect>, t3: seq<Effect>, t4: seq<Effect>,
                t5: seq<Effect>, t6: seq<Effect>, t7: seq<Effect>, t8: seq<Effect>)
    requires t2 == [] && t3 == [] && t4 == [] && t6 == [] && t7 == [] && t8 == []
    ensures t1 + t2 + t3 + t4 + t5 + t6 + t7 + t8 == t1 + t5
  {
  }

  /** Selecting kind `k` from a turn whose segments other than the `i`-th hold no call of that kind. */
  lemma SelectTurnOne(channel: string, user: string, text: string, ts: string, reply: string,
                      session: SessionHandle, env: TurnEnv, k: Kind, i: nat)
    requires (k == Registers && i == 2) || (k == Executes && i == 3) || (k == Updates && i == 4)
          || (k == Unregisters && i == 6) || (k == Deletes && i == 7)
    ensures i == 2 ==> Select(TurnCalls(channel, user, text, ts, reply, session, env), k) == RegisterCalls(session, env)
    ensures i == 3 ==> Select(TurnCalls(channel, user, text, ts, reply, session, env), k) == [Execute(session, Prompt(user, text))]
    ensures i == 4 ==> Select(TurnCalls(channel, user, text, ts, reply, session, env), k) == EventCalls(channel, env, env.events)
    ensures i == 6 ==> Select(TurnCalls(channel, user, text, ts, reply, session, env), k) == UnregisterCalls(Handles(env))
    ensures i == 7 ==> Select(TurnCalls(channel, user, text, ts, reply, session, env), k) == DeleteCalls(channel, env.statusPost)
  {
    SelectTurn(channel, user, text, ts, reply, session, env, k);
    SelectSegments(channel, user, text, ts, reply, session, env, k);
    KeepOne(Select(Opening(channel, ts, reply), k), Select(RegisterCalls(session, env), k),
            Select([Execute(session, Prompt(user, text))], k), Select(EventCalls(channel, env, env.events), k),
            Select(OutcomeCalls(channel, reply, env.exec, env.replyError), k), Select(UnregisterCalls(Handles(env)), k),
            Select(DeleteCalls(channel, env.statusPost), k), Select([RemoveReaction(channel, ts, Loading)], k), i);
  }

  /** The kinds that come from a single segment of a turn: exactly that segment. */
  lemma TurnSelectsOne(channel: string, user: string, text: string, ts: string, reply: string,
                       session: SessionHandle, env: TurnEnv, k: Kind)
    requires k != Posts
    ensures Select(TurnCalls(channel, user, text, ts, reply, session, env), k) ==
      match k
      case Executes => [Execute(session, Prompt(user, text))]
      case Registers => RegisterCalls(session, env)
      case Updates => EventCalls(channel, env, env.events)
      case Unregisters => UnregisterCalls(Handles(env))
      case _ => DeleteCalls(channel, env.statusPost)
  {
    if k == Executes {
      SelectTurnOne(channel, user, text, ts, reply, session, env, Executes, 3);
    } else if k == Registers {
      SelectTurnOne(channel, user, text, ts, reply, session, env, Registers, 2);
    } else if k == Updates {
      SelectTurnOne(channel, user, text, ts, reply, session, env, Updates, 4);
    } else if k == Unregisters {
      SelectTurnOne(channel, user, text, ts, reply, session, env, Unregisters, 6);
    } else {
      SelectTurnOne(channel, user, text, ts, reply, session, env, Deletes, 7);
    }
  }

  /** Each segment's share of kind `k`, as the segment lemmas give it. */
  lemma SelectSegments(channel: string, user: string, text: string, ts: string, reply: string,
                       session: SessionHandle, env: TurnEnv, k: Kind)
    ensures Select(Opening(channel, ts, reply), k) == if k == Posts then [PostMessage(channel, Some(reply), ThinkingText)] else []
    ensures Select(RegisterCalls(session, env), k) == if k == Registers then RegisterCalls(session, env) else []
    ensures Select([Execute(session, Prompt(user, text))], k) == if k == Executes then [Execute(session, Prompt(user, text))] else []
    ensures Select(EventCalls(channel, env, env.events), k) == if k == Updates then EventCalls(channel, env, env.events) else []
    ensures Select(OutcomeCalls(channel, reply, env.exec, env.replyError), k) ==
      if k == Posts then OutcomeCalls(channel, reply, env.exec, env.replyError) else []
    ensures Select(UnregisterCalls(Handles(env)), k) == if k == Unregisters then UnregisterCalls(Handles(env)) else []
    ensures Select(DeleteCalls(channel, env.statusPost), k) == if k == Deletes then DeleteCalls(channel, env.statusPost) else []
    ensures Select([RemoveReaction(channel, ts, Loading)], k) == []
  {
    OpeningSelect(channel, ts, reply, k);
    RegisterSelect(session, env, k);
    ExecuteSelect(session, Prompt(user, text), k);
    EventSelect(channel, env, k);
    OutcomeSelect(channel, reply, env, k);
    UnregisterSelect(env, k);
    DeleteSelect(channel, env, k);
    ClosingSelect(channel, ts, k);
  }

  lemma OpeningSelect(channel: string, ts: string, reply: string, k: Kind)
    ensures Select(Opening(channel, ts, reply), k) ==
      if k == Posts then [PostMessage(channel, Some(reply), ThinkingText)] else []
  {
    var o := Opening(channel, ts, reply);
    assert o[1..] == [o[1]];
    assert o[1..][1..] == [];
    assert Select(o[1..], k) == if k == Posts then [o[1]] else [];
  }

  lemma RegisterSelect(session: SessionHandle, env: TurnEnv, k: Kind)
    ensures Select(RegisterCalls(session, env), k) == if k == Registers then RegisterCalls(session, env) else []
  {
    SelectOneKind(RegisterCalls(session, env), Registers, k);
  }

  lemma ExecuteSelect(session: SessionHandle, prompt: string, k: Kind)
    ensures Select([Execute(session, prompt)], k) == if k == Executes then [Execute(session, prompt)] else []
  {
    SelectOneKind([Execute(session, prompt)], Executes, k);
  }

  lemma EventSelect(channel: string, env: TurnEnv, k: Kind)
    ensures Select(EventCalls(channel, env, env.events), k) == if k == Updates then EventCalls(channel, env, env.events) else []
  {
    SelectOneKind(EventCalls(channel, env, env.events), Updates, k);
  }

  lemma OutcomeSelect(channel: string, reply: string, env: TurnEnv, k: Kind)
    ensures Select(OutcomeCalls(channel, reply, env.exec, env.replyError), k) ==
      if k == Posts then OutcomeCalls(channel, reply, env.exec, env.replyError) else []
  {
    SelectOneKind(OutcomeCalls(channel, reply, env.exec, env.replyError), Posts, k);
  }

  lemma UnregisterSelect(env: TurnEnv, k: Kind)
    ensures Select(UnregisterCalls(Handles(env)), k) == if k == Unregisters then UnregisterCalls(Handles(env)) else []
  {
    SelectOneKind(UnregisterCalls(Handles(env)), Unregisters, k);
  }

  lemma DeleteSelect(channel: string, env: TurnEnv, k: Kind)
    ensures Select(DeleteCalls(channel, env.statusPost), k) == if k == Deletes then DeleteCalls(channel, env.statusPost) else []
  {
    SelectOneKind(DeleteCalls(channel, env.statusPost), Deletes, k);
  }

  lemma ClosingSelect(channel: string, ts: string, k: Kind)
    ensures Select([RemoveReaction(channel, ts, Loading)], k) == []
  {
    assert [RemoveReaction(channel, ts, Loading)][1..] == [];
  }

  lemma Ends8(s1: seq<Effect>, s2: seq<Effect>, s3: seq<Effect>, s4: seq<Effect>,
              s5: seq<Effect>, s6: seq<Effect>, s7: seq<Effect>, s8: seq<Effect>)
    requires |s1| > 0 && |s8| > 0
    ensures var all := s1 + s2 + s3 + s4 + s5 + s6 + s7 + s8;
      all[0] == s1[0] && all[|all| - 1] == s8[|s8| - 1]
  {
  }

  /** The first and the last call of a turn. */
  lemma TurnEnds(channel: string, user: string, text: string, ts: string, reply: string,
                 session: SessionHandle, env: TurnEnv)
    ensures var calls := TurnCalls(channel, user, text, ts, reply, session, env);
      calls[0] == AddReaction(channel, ts, Loading) && calls[|calls| - 1] == RemoveReaction(channel, ts, Loading)
  {
    var s1, s2 := Opening(channel, ts, reply), RegisterCalls(session, env);
    var s3, s4 := [Execute(session, Prompt(user, text))], EventCalls(channel, env, env.events);
    var s5, s6 := OutcomeCalls(channel, reply, env.exec, env.replyError), UnregisterCalls(Handles(env));
    var s7, s8 := DeleteCalls(channel, env.statusPost), [RemoveReaction(channel, ts, Loading)];
    assert TurnCalls(channel, user, text, ts, reply, session, env) == s1 + s2 + s3 + s4 + s5 + s6 + s7 + s8;
    Ends8(s1, s2, s3, s4, s5, s6, s7, s8);
  }

  /**
   * A turn is bracketed by the "loading" reaction, added first and removed
   * last whatever happened in between, and runs `execute` exactly once, on
   * the author-tagged, stripped text.
   */
  lemma TurnBracketed(channel: string, user: string, text: string, ts: string, reply: string,
                      session: SessionHandle, env: TurnEnv)
    ensures var calls := TurnCalls(channel, user, text, ts, reply, session, env);
      && calls[0] == AddReaction(channel, ts, Loading)
      && calls[|calls| - 1] == RemoveReaction(channel, ts, Loading)
      && Select(calls, Executes) == [Execute(session, Prompt(user, text))]
  {
    TurnSelectsOne(channel, user, text, ts, reply, session, env, Executes);
    TurnEnds(channel, user, text, ts, reply, session, env);
  }

  /**
   * The messages a turn posts: the "Thinking..." indicator, then exactly the
   * outcome posts, all in the reply thread. With `OutcomeCalls`' contract:
   * one error notice when `execute` raised, no reply for a blank response.
   */
  lemma TurnPosts(channel: string, user: string, text: string, ts: string, reply: string,
                  session: SessionHandle, env: TurnEnv)
    ensures var posts := Select(TurnCalls(channel, user, text, ts, reply, session, env), Posts);
      && posts == [PostMessage(channel, Some(reply), ThinkingText)] + OutcomeCalls(channel, reply, env.exec, env.replyError)
      && forall e :: e in posts ==> e.threadTs == Some(reply)
  {
    SelectTurnPosts(channel, user, text, ts, reply, session, env);
    var thinking, outcome := [PostMessage(channel, Some(reply), ThinkingText)], OutcomeCalls(channel, reply, env.exec, env.replyError);
    assert forall e :: e in thinking + outcome ==> e in thinking || e in outcome;
  }

  lemma SelectTurnPosts(channel: string, user: string, text: string, ts: string, reply: string,
                        session: SessionHandle, env: TurnEnv)
    ensures Select(TurnCalls(channel, user, text, ts, reply, session, env), Posts) ==
      [PostMessage(channel, Some(reply), ThinkingText)] + OutcomeCalls(channel, reply, env.exec, env.replyError)
  {
    var k := Posts;
    SelectTurn(channel, user, text, ts, reply, session, env, k);
    SelectSegments(channel, user, text, ts, reply, session, env, k);
    KeepTwo(Select(Opening(channel, ts, reply), k), Select(RegisterCalls(session, env), k),
            Select([Execute(session, Prompt(user, text))], k), Select(EventCalls(channel, env, env.events), k),
            Select(OutcomeCalls(channel, reply, env.exec, env.replyError), k), Select(UnregisterCalls(Handles(env)), k),
            Select(DeleteCalls(channel, env.statusPost), k), Select([RemoveReaction(channel, ts, Loading)], k));
  }

  /** The unregister calls of the finally block: one per hook whose registration returned. */
  lemma UnregisterCallsOfHandles(env: TurnEnv)
    ensures UnregisterCalls(Handles(env)) == seq(|Registered(env)|, i requires 0 <= i < |Registered(env)| => UnregisterHook(Registered(env)[i]))
  {
    var h := Handles(env);
    var u := (o: Option<string>) => match o case Some(ev) => [UnregisterHook(ev)] case None => [];
    assert h[..1] == [h[0]];
    assert [h[0]][..0] == [];
    assert UnregisterCalls([h[0]]) == u(h[0]);
    assert UnregisterCalls(h) == u(h[0]) + u(h[1]);
  }

  /**
   * Every hook whose registration returned is unregistered exactly once, in
   * registration order, and no other hook is; the second registration is
   * only tried after the first returned.
   */
  lemma TurnUnregistersEveryHook(channel: string, user: string, text: string, ts: string, reply: string,
                                 session: SessionHandle, env: TurnEnv)
    ensures var calls := TurnCalls(channel, user, text, ts, reply, session, env);
      && |Select(calls, Unregisters)| == |Registered(env)|
      && (forall i :: 0 <= i < |Registered(env)| ==> Select(calls, Unregisters)[i] == UnregisterHook(Registered(env)[i]))
      && Select(calls, Registers) == RegisterCalls(session, env)
  {
    TurnSelectsOne(channel, user, text, ts, reply, session, env, Unregisters);
    TurnSelectsOne(channel, user, text, ts, reply, session, env, Registers);
    UnregisterCallsOfHandles(env);
  }

  lemma FinallyTail(s1: seq<Effect>, s2: seq<Effect>, s3: seq<Effect>, s4: seq<Effect>,
                    s5: seq<Effect>, s6: seq<Effect>, s7: seq<Effect>, s8: seq<Effect>)
    ensures var all := s1 + s2 + s3 + s4 + s5 + s6 + s7 + s8;
      |s7| + |s8| <= |all| && all[|all| - |s7| - |s8|..] == s7 + s8
  {
    var all := s1 + s2 + s3 + s4 + s5 + s6 + s7 + s8;
    var head := s1 + s2 + s3 + s4 + s5 + s6;
    assert all == head + (s7 + s8);
  }

  /**
   * The indicator of a turn is its own: every edit and the deletion target
   * the message this turn posted, and the deletion happens exactly when that
   * post returned a handle, as the second-to-last call, so nothing but the
   * reaction removal comes after it.
   */
  lemma TurnIndicatorLifecycle(channel: string, user: string, text: string, ts: string, reply: string,
                               session: SessionHandle, env: TurnEnv)
    ensures var calls := TurnCalls(channel, user, text, ts, reply, session, env);
      && Select(calls, Deletes) == DeleteCalls(channel, env.statusPost)
      && (forall e :: e in Select(calls, Updates) ==> Truthy(env.statusPost) && e.UpdateMessage? && e.ts == env.statusPost.value)
      && var tail := DeleteCalls(channel, env.statusPost) + [RemoveReaction(channel, ts, Loading)];
         |tail| <= |calls| && calls[|calls| - |tail|..] == tail
  {
    TurnSelectsOne(channel, user, text, ts, reply, session, env, Deletes);
    TurnSelectsOne(channel, user, text, ts, reply, session, env, Updates);
    TurnTail(channel, user, text, ts, reply, session, env);
  }

  /** The last calls of a turn: the indicator deletion, if any, then the reaction removal. */
  lemma TurnTail(channel: string, user: string, text: string, ts: string, reply: string,
                 session: SessionHandle, env: TurnEnv)
    ensures var calls := TurnCalls(channel, user, text, ts, reply, session, env);
      var tail := DeleteCalls(channel, env.statusPost) + [RemoveReaction(channel, ts, Loading)];
      |tail| <= |calls| && calls[|calls| - |tail|..] == tail
  {
    var s1, s2 := Opening(channel, ts, reply), RegisterCalls(session, env);
    var s3, s4 := [Execute(session, Prompt(user, text))], EventCalls(channel, env, env.events);
    var s5, s6 := OutcomeCalls(channel, reply, env.exec, env.replyError), UnregisterCalls(Handles(env));
    var s7, s8 := DeleteCalls(channel, env.statusPost), [RemoveReaction(channel, ts, Loading)];
    assert TurnCalls(channel, user, text, ts, reply, session, env) == s1 + s2 + s3 + s4 + s5 + s6 + s7 + s8;
    FinallyTail(s1, s2, s3, s4, s5, s6, s7, s8);
  }
}
