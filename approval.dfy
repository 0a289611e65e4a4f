/**
 * The approval arbiter of one conversation (`SlackApprovalSystem`): a map
 * from action prefix to a one-shot result slot; a request registers a slot,
 * posts an Allow/Deny prompt whose buttons carry `prefix_allow` and
 * `prefix_deny`, waits, and always removes its slot; a button click calls
 * `Resolve`, which fills a pending slot at most once.
 */
module Approval {
  import opened Wrappers
  import opened Text
  import opened Effects

  const AllowSuffix := "_allow"
  const DenySuffix := "_deny"
  /** The suffixes `resolve` tries, in this order. */
  const Suffixes: seq<string> := [AllowSuffix, DenySuffix]
  const PrefixHead := "approval_"

  /** The state of the future stored for one request. */
  datatype Slot = Pending | Done(value: bool)

  /** What `request_approval` returns once its wait ends: the stored value, or False when the timer won. */
  function Decision(slot: Slot): (approved: bool)
    ensures approved <==> slot == Done(true)
  {
    match slot
    case Done(b) => b
    case Pending => false
  }

  predicate IsDigit(c: char) {
    '0' <= c <= '9'
  }

  predicate AllDigits(s: string) {
    forall i :: 0 <= i < |s| ==> IsDigit(s[i])
  }

  /** The number a string of decimal digits denotes, most significant digit first. */
  function DigitsValue(s: string): nat
    requires AllDigits(s)
    decreases |s|
  {
    if s == [] then 0 else DigitsValue(s[..|s| - 1]) * 10 + (s[|s| - 1] as int - '0' as int)
  }

  /**
   * The decimal rendering Python's f-string gives an `int`: digits that
   * denote `n`, with no leading zero.
   */
  function Decimal(n: nat): (r: string)
    ensures |r| > 0 && AllDigits(r)
    ensures DigitsValue(r) == n
    ensures r[0] == '0' ==> n == 0
    decreases n
  {
    if n < 10 then
      ["0123456789"[n]]
    else
      var h := Decimal(n / 10);
      var r := h + ["0123456789"[n % 10]];
      assert r[..|r| - 1] == h;
      r
  }

  /** `approval_` followed by one or more decimal digits. */
  predicate IsApprovalPrefix(p: string) {
    |p| > |PrefixHead| && p[..|PrefixHead|] == PrefixHead && AllDigits(p[|PrefixHead|..])
  }

  /** `f"approval_{id(future)}"`, the token being the future's identity. */
  function ApprovalPrefix(token: nat): (p: string)
    ensures IsApprovalPrefix(p)
  {
    var p := PrefixHead + Decimal(token);
    assert p[|PrefixHead|..] == Decimal(token);
    p
  }

  function AllowId(prefix: string): string {
    prefix + AllowSuffix
  }

  function DenyId(prefix: string): string {
    prefix + DenySuffix
  }

  /**
   * The prefix `resolve` recovers from an action id: what precedes `_allow`,
   * else what precedes `_deny`, else nothing.
   */
  function ActionPrefix(actionId: string): (r: Option<string>)
    ensures r.Some? <==> EndsWith(actionId, AllowSuffix) || EndsWith(actionId, DenySuffix)
    ensures r.Some? ==> r.value + AllowSuffix == actionId || r.value + DenySuffix == actionId
  {
    if EndsWith(actionId, AllowSuffix) then Some(DropSuffix(actionId, AllowSuffix))
    else if EndsWith(actionId, DenySuffix) then Some(DropSuffix(actionId, DenySuffix))
    else None
  }

  /**
   * Action ids of the form `approval_<digits>_allow` or `approval_<digits>_deny`.
   * Each contains a match of the pattern `approval_\d+_(allow|deny)` that
   * routes a click to the approval handler.
   */
  predicate IsApprovalActionId(actionId: string) {
    ActionPrefix(actionId).Some? && IsApprovalPrefix(ActionPrefix(actionId).value)
  }

  /** Both button ids of a prompt give back exactly the prefix they were built from. */
  lemma ActionIdRoundTrip(prefix: string)
    ensures ActionPrefix(AllowId(prefix)) == Some(prefix)
    ensures ActionPrefix(DenyId(prefix)) == Some(prefix)
  {
    DropSuffixRoundTrip(prefix, AllowSuffix);
    DropSuffixRoundTrip(prefix, DenySuffix);
    DenyIsNotAllow(DenyId(prefix));
  }

  /** No action id ends with both suffixes, so the order `resolve` tries them in cannot matter. */
  lemma DenyIsNotAllow(s: string)
    requires EndsWith(s, DenySuffix)
    ensures !EndsWith(s, AllowSuffix)
  {
    assert s[|s| - 1] == DenySuffix[4] == 'y';
  }

  /** The buttons of every prompt the arbiter posts are routed back to it by the action regex. */
  lemma PromptIdsAreRouted(token: nat)
    ensures IsApprovalActionId(AllowId(ApprovalPrefix(token)))
    ensures IsApprovalActionId(DenyId(ApprovalPrefix(token)))
  {
    ActionIdRoundTrip(ApprovalPrefix(token));
  }

  /**
   * The pending map after `resolve(actionId, approved)`: the slot of the
   * recovered prefix becomes `Done(approved)` if it exists and is still
   * pending; nothing else ever changes.
   */
  function Resolved(m: map<string, Slot>, actionId: string, approved: bool): (m': map<string, Slot>)
    ensures m'.Keys == m.Keys
    ensures forall p :: p in m && m[p].Done? ==> m'[p] == m[p]
    ensures forall p :: p in m && ActionPrefix(actionId) != Some(p) ==> m'[p] == m[p]
    ensures forall p :: p in m && ActionPrefix(actionId) == Some(p) && m[p].Pending? ==> m'[p] == Done(approved)
  {
    match ActionPrefix(actionId)
    case Some(p) => if p in m && m[p].Pending? then m[p := Done(approved)] else m
    case None => m
  }

  /** A click whose id is not of the approval form changes no map whose keys are all approval prefixes. */
  lemma ForeignClickIgnored(m: map<string, Slot>, actionId: string, approved: bool)
    requires forall p :: p in m ==> IsApprovalPrefix(p)
    requires !IsApprovalActionId(actionId)
    ensures Resolved(m, actionId, approved) == m
  {
    if ActionPrefix(actionId).Some? {
      assert ActionPrefix(actionId).value !in m;
    }
  }

  /** A button click as the handler passes it on. */
  datatype Click = Click(actionId: string, approved: bool)

  /** The pending map after the clicks arrive one after the other. */
  function ResolveAll(m: map<string, Slot>, clicks: seq<Click>): (m': map<string, Slot>)
    ensures m'.Keys == m.Keys
    decreases |clicks|
  {
    if clicks == [] then m
    else ResolveAll(Resolved(m, clicks[0].actionId, clicks[0].approved), clicks[1..])
  }

  /** The value carried by the first click addressed to `prefix`, if any. */
  function FirstClickFor(prefix: string, clicks: seq<Click>): (r: Option<bool>)
    ensures r.None? <==> forall i :: 0 <= i < |clicks| ==> ActionPrefix(clicks[i].actionId) != Some(prefix)
    ensures r.Some? ==>
      exists i :: 0 <= i < |clicks| && ActionPrefix(clicks[i].actionId) == Some(prefix)
                  && clicks[i].approved == r.value
                  && forall j :: 0 <= j < i ==> ActionPrefix(clicks[j].actionId) != Some(prefix)
    decreases |clicks|
  {
    if clicks == [] then None
    else if ActionPrefix(clicks[0].actionId) == Some(prefix) then Some(clicks[0].approved)
    else
      var r := FirstClickFor(prefix, clicks[1..]);
      assert forall i :: 0 <= i < |clicks| - 1 ==> clicks[1..][i] == clicks[i + 1];
      if r.Some? then
        var i :| 0 <= i < |clicks| - 1 && ActionPrefix(clicks[1..][i].actionId) == Some(prefix)
          && clicks[1..][i].approved == r.value
          && forall j :: 0 <= j < i ==> ActionPrefix(clicks[1..][j].actionId) != Some(prefix);
        assert forall j :: 0 <= j < i + 1 ==> ActionPrefix(clicks[j].actionId) != Some(prefix) by {
          forall j | 0 <= j < i + 1
            ensures ActionPrefix(clicks[j].actionId) != Some(prefix)
          {
            if j > 0 {
              assert clicks[j] == clicks[1..][j - 1];
            }
          }
        }
        r
      else
        r
  }

  /** A filled slot is final: no later click changes it. */
  lemma {:induction false} DoneIsFinal(m: map<string, Slot>, prefix: string, clicks: seq<Click>)
    requires prefix in m && m[prefix].Done?
    ensures ResolveAll(m, clicks)[prefix] == m[prefix]
    decreases |clicks|
  {
    if clicks != [] {
      DoneIsFinal(Resolved(m, clicks[0].actionId, clicks[0].approved), prefix, clicks[1..]);
    }
  }

  /**
   * At-most-once resolution: a pending slot ends up holding the value of the
   * first click addressed to it (later and duplicate clicks are ignored), and
   * stays pending if no click was addressed to it.
   */
  lemma {:induction false} FirstClickWins(m: map<string, Slot>, prefix: string, clicks: seq<Click>)
    requires prefix in m && m[prefix].Pending?
    ensures ResolveAll(m, clicks)[prefix] ==
      match FirstClickFor(prefix, clicks) case Some(b) => Done(b) case None => Pending
    decreases |clicks|
  {
    if clicks != [] {
      var m1 := Resolved(m, clicks[0].actionId, clicks[0].approved);
      if ActionPrefix(clicks[0].actionId) == Some(prefix) {
        DoneIsFinal(m1, prefix, clicks[1..]);
      } else {
        FirstClickWins(m1, prefix, clicks[1..]);
      }
    }
  }

  /**
   * What a request returns when the clicks arrive while it waits, and the
   * wait ends after them: true exactly when the first click for its prefix
   * carried `approved = true`; with no click for it, the timeout denies.
   */
  lemma WaitOutcome(m: map<string, Slot>, prefix: string, clicks: seq<Click>)
    requires prefix in m && m[prefix].Pending?
    ensures Decision(ResolveAll(m, clicks)[prefix]) <==> FirstClickFor(prefix, clicks) == Some(true)
  {
    FirstClickWins(m, prefix, clicks);
  }

  /**
   * The prompt `request_approval` posts for `description`: into the
   * arbiter's thread, both texts ending with the description, and the two
   * buttons carrying ids that decode back to the request's prefix, the Allow
   * button's ending in `_allow`.
   */
  function Prompt(channel: string, threadTs: Option<string>, description: string, prefix: string): (e: Effect)
    ensures e.PostApprovalPrompt? && e.channel == channel && e.threadTs == threadTs
    ensures EndsWith(e.section, description) && EndsWith(e.fallback, description)
    ensures ActionPrefix(e.allowId) == Some(prefix) && ActionPrefix(e.denyId) == Some(prefix)
    ensures EndsWith(e.allowId, AllowSuffix) && !EndsWith(e.denyId, AllowSuffix)
  {
    ActionIdRoundTrip(prefix);
    DropSuffixRoundTrip(":warning: *Approval needed*\n", description);
    DropSuffixRoundTrip("Approval needed: ", description);
    DropSuffixRoundTrip(prefix, AllowSuffix);
    DropSuffixRoundTrip(prefix, DenySuffix);
    DenyIsNotAllow(DenyId(prefix));
    PostApprovalPrompt(channel, threadTs, ":warning: *Approval needed*\n" + description,
                       AllowId(prefix), DenyId(prefix), "Approval needed: " + description)
  }

  class ApprovalSystem {
    const out: Outbound
    const channel: string
    const threadTs: Option<string>
    /** `_pending`: prefix -> the state of its future. */
    var pending: map<string, Slot>

    /** Every pending key is a prefix this arbiter can have generated. */
    ghost predicate Valid()
      reads this
    {
      forall p :: p in pending ==> IsApprovalPrefix(p)
    }

    constructor (out: Outbound, channel: string, threadTs: Option<string>)
      ensures Valid()
      ensures this.out == out && this.channel == channel && this.threadTs == threadTs
      ensures pending == map[]
    {
      this.out := out;
      this.channel := channel;
      this.threadTs := threadTs;
      pending := map[];
    }

    /**
     * First step of `request_approval`: register a fresh pending slot under
     * `approval_<token>` before anything is posted.
     */
    method Register(token: nat) returns (prefix: string)
      requires Valid()
      requires ApprovalPrefix(token) !in pending
      modifies this
      ensures Valid()
      ensures prefix == ApprovalPrefix(token)
      ensures pending == old(pending)[prefix := Pending]
    {
      prefix := ApprovalPrefix(token);
      pending := pending[prefix := Pending];
    }

    /**
     * Second step: post the prompt. A failed post (`SlackApiError`) makes the
     * request deny at once: its slot is removed and `failed` is true.
     */
    method PostPrompt(prefix: string, description: string, postOk: bool) returns (failed: bool)
      requires Valid()
      requires prefix in pending
      modifies this, out
      ensures Valid()
      ensures out.effects == old(out.effects) + [Prompt(channel, threadTs, description, prefix)]
      ensures failed == !postOk
      ensures pending == if postOk then old(pending) else old(pending) - {prefix}
    {
      out.Emit(Prompt(channel, threadTs, description, prefix));
      failed := !postOk;
      if failed {
        pending := pending - {prefix};
      }
    }

    /**
     * Last step: the wait ends, either because the slot was filled (its value
     * is returned) or because the timer fired first (False). The slot is
     * removed either way.
     */
    method AwaitDecision(prefix: string) returns (approved: bool)
      requires Valid()
      requires prefix in pending
      modifies this
      ensures Valid()
      ensures approved == Decision(old(pending)[prefix])
      ensures pending == old(pending) - {prefix}
    {
      match pending[prefix] {
        case Done(b) => approved := b;
        case Pending => approved := false;
      }
      pending := pending - {prefix};
    }

    /**
     * `request_approval(description)` as a whole, when the clicks `clicks`
     * arrive while it waits and the wait ends after them. The slot is
     * registered, the prompt is posted, and then either the post failed and
     * the request denies without waiting, or the clicks are resolved one after
     * the other and the wait returns the slot's value, False if the timer won.
     * The request's slot is gone afterwards, whatever the outcome.
     */
    method RequestApproval(token: nat, description: string, postOk: bool, clicks: seq<Click>)
      returns (approved: bool)
      requires Valid()
      requires ApprovalPrefix(token) !in pending
      modifies this, out
      ensures Valid()
      ensures out.effects == old(out.effects) + [Prompt(channel, threadTs, description, ApprovalPrefix(token))]
      ensures ApprovalPrefix(token) !in pending
      ensures approved <==> postOk && FirstClickFor(ApprovalPrefix(token), clicks) == Some(true)
      ensures pending == if postOk then ResolveAll(old(pending)[ApprovalPrefix(token) := Pending], clicks) - {ApprovalPrefix(token)}
                         else old(pending)
    {
      var prefix := Register(token);
      var failed := PostPrompt(prefix, description, postOk);
      if failed {
        return false;
      }
      ghost var posted := pending;
      ghost var log := out.effects;
      var i := 0;
      while i < |clicks|
        invariant 0 <= i <= |clicks|
        invariant Valid()
        invariant pending.Keys == posted.Keys
        invariant ResolveAll(pending, clicks[i..]) == ResolveAll(posted, clicks)
        invariant out.effects == log
      {
        Resolve(clicks[i].actionId, clicks[i].approved);
        assert clicks[i..][1..] == clicks[i + 1..];
        i := i + 1;
      }
      assert clicks[i..] == [];
      WaitOutcome(posted, prefix, clicks);
      approved := AwaitDecision(prefix);
    }

    /**
     * `resolve(action_id, approved)`: try `_allow`, then `_deny`; on the first
     * suffix that matches, fill the slot of the prefix before it if that slot
     * is still pending, and stop. Never fails.
     */
    method Resolve(actionId: string, approved: bool)
      requires Valid()
      modifies this
      ensures Valid()
      ensures pending == Resolved(old(pending), actionId, approved)
      ensures !IsApprovalActionId(actionId) ==> pending == old(pending)
    {
      if !IsApprovalActionId(actionId) {
        ForeignClickIgnored(pending, actionId, approved);
      }
      var i := 0;
      assert Suffixes[0] == AllowSuffix && Suffixes[1] == DenySuffix;
      while i < |Suffixes|
        invariant 0 <= i <= |Suffixes|
        invariant pending == old(pending)
        invariant forall j :: 0 <= j < i ==> !EndsWith(actionId, Suffixes[j])
      {
        var suffix := Suffixes[i];
        if EndsWith(actionId, suffix) {
          var prefix := actionId[..|actionId| - |suffix|];
          assert i == 1 ==> !EndsWith(actionId, Suffixes[0]);
          assert ActionPrefix(actionId) == Some(prefix);
          if prefix in pending && pending[prefix].Pending? {
            pending := pending[prefix := Done(approved)];
          }
          return;
        }
        i := i + 1;
      }
      assert !EndsWith(actionId, Suffixes[0]) && !EndsWith(actionId, Suffixes[1]);
    }
  }
}
