/** Remembering which upstream conversation continues a chat history, and which
    account owns it, by the fingerprints of the history's prefixes. */
module Conversation {
  import opened Base
  import opened ConversationStore

  /** What a fingerprint and the history test read of a message. */
  datatype Message = Message(role: string, content: string, toolCallId: string, toolCalls: seq<string>, hasToolResultPart: bool)

  datatype Reply = Reply(conversationId: string, content: string, toolCalls: seq<string>, sessionCorrupt: bool)

  type Fingerprint = seq<Message> -> string

  predicate Reusable(m: Message) {
    m.role == "assistant" || m.role == "tool" || (m.role == "user" && m.hasToolResultPart)
  }

  predicate HasReusableHistory(msgs: seq<Message>) {
    exists i :: 0 <= i < |msgs| && Reusable(msgs[i])
  }

  // ----- Lookup -----

  predicate HasConv(s: Store, fp: Fingerprint, account: int, msgs: seq<Message>, i: int) {
    0 <= i <= |msgs| && (account, fp(msgs[..i])) in s.conv
  }

  predicate HasOwner(s: Store, fp: Fingerprint, msgs: seq<Message>, i: int) {
    0 <= i <= |msgs| && fp(msgs[..i]) in s.own
  }

  /** The largest member of `marked` in 1..n, 0 when there is none. */
  function Deepest(marked: set<int>, n: nat): (d: nat)
    ensures d <= n && (d > 0 ==> d in marked)
    ensures forall j :: d < j <= n ==> j !in marked
  {
    if n == 0 || n in marked then n else Deepest(marked, n - 1)
  }

  /** Depth of the prefix that answers a lookup; 0 when none does. */
  function LookupDepth(s: Store, fp: Fingerprint, account: int, msgs: seq<Message>): (d: nat)
    ensures d > 0 ==> d < |msgs| && HasConv(s, fp, account, msgs, d)
    ensures HasReusableHistory(msgs) ==> forall j :: d < j < |msgs| ==> !HasConv(s, fp, account, msgs, j)
  {
    if HasReusableHistory(msgs) then
      var marked := set i | 0 < i < |msgs| && HasConv(s, fp, account, msgs, i);
      assert forall j :: 0 < j < |msgs| && HasConv(s, fp, account, msgs, j) ==> j in marked;
      Deepest(marked, |msgs| - 1)
    else 0
  }

  function StickyDepth(s: Store, fp: Fingerprint, msgs: seq<Message>): (d: nat)
    ensures d > 0 ==> d < |msgs| && HasOwner(s, fp, msgs, d)
    ensures HasReusableHistory(msgs) ==> forall j :: d < j < |msgs| ==> !HasOwner(s, fp, msgs, j)
  {
    if HasReusableHistory(msgs) then
      var marked := set i | 0 < i < |msgs| && HasOwner(s, fp, msgs, i);
      assert forall j :: 0 < j < |msgs| && HasOwner(s, fp, msgs, j) ==> j in marked;
      Deepest(marked, |msgs| - 1)
    else 0
  }

  lemma LookupDepthIs(s: Store, fp: Fingerprint, account: int, msgs: seq<Message>, d: nat)
    requires HasReusableHistory(msgs) && d < |msgs| && (d > 0 ==> HasConv(s, fp, account, msgs, d))
    requires forall j :: d < j < |msgs| ==> !HasConv(s, fp, account, msgs, j)
    ensures LookupDepth(s, fp, account, msgs) == d
  {
    hide HasConv, LookupDepth;
    var e := LookupDepth(s, fp, account, msgs);
    assert d < e < |msgs| ==> !HasConv(s, fp, account, msgs, e);
    assert e < d < |msgs| ==> !HasConv(s, fp, account, msgs, d);
  }

  lemma StickyDepthIs(s: Store, fp: Fingerprint, msgs: seq<Message>, d: nat)
    requires HasReusableHistory(msgs) && d < |msgs| && (d > 0 ==> HasOwner(s, fp, msgs, d))
    requires forall j :: d < j < |msgs| ==> !HasOwner(s, fp, msgs, j)
    ensures StickyDepth(s, fp, msgs) == d
  {
    hide HasOwner, StickyDepth;
    var e := StickyDepth(s, fp, msgs);
    assert d < e < |msgs| ==> !HasOwner(s, fp, msgs, e);
    assert e < d < |msgs| ==> !HasOwner(s, fp, msgs, d);
  }

  function Lookup(s: Store, fp: Fingerprint, account: int, msgs: seq<Message>): string {
    var d := LookupDepth(s, fp, account, msgs);
    if d == 0 then "" else s.conv[(account, fp(msgs[..d]))]
  }

  function Sticky(s: Store, fp: Fingerprint, msgs: seq<Message>): Option<int> {
    var d := StickyDepth(s, fp, msgs);
    if d == 0 then None else Some(s.own[fp(msgs[..d])])
  }

  // ----- Events -----

  datatype Event =
    | Remember(account: int, msgs: seq<Message>, reply: Reply)
    | Corrupt(account: int, msgs: seq<Message>)
    | Clear(account: int)

  /** The assistant turn the client is expected to send back. */
  function Followup(reply: Reply): seq<Message> {
    if reply.content == "" && reply.toolCalls == [] then []
    else [Message("assistant", reply.content, "", reply.toolCalls, false)]
  }

  function SetOps(fp: Fingerprint, account: int, msgs: seq<Message>, id: string): seq<Op> {
    if id == "" || msgs == [] then []
    else [PutConversation(account, fp(msgs), id), PutOwner(fp(msgs), account)]
  }

  function ToolCallIds(msgs: seq<Message>): seq<string> {
    if msgs == [] then []
    else ToolCallIds(msgs[..|msgs| - 1]) + (if msgs[|msgs| - 1].toolCallId != "" then [msgs[|msgs| - 1].toolCallId] else [])
  }

  /** The store operations an event causes. */
  function OpsOf(s: Store, fp: Fingerprint, e: Event): seq<Op> {
    match e
    case Remember(account, msgs, reply) =>
      if reply.conversationId == "" || msgs == [] then []
      else
        SetOps(fp, account, msgs, reply.conversationId)
        + (if Followup(reply) == [] then [] else SetOps(fp, account, msgs + Followup(reply), reply.conversationId))
    case Corrupt(account, msgs) =>
      var id := Lookup(s, fp, account, msgs);
      if id == "" then [] else [Invalidate(account, id, ToolCallIds(msgs))]
    case Clear(account) => [Reset(account)]
  }

  function React(s: Store, fp: Fingerprint, e: Event): Store {
    ApplyAll(s, OpsOf(s, fp, e))
  }

  function ReactAll(s: Store, fp: Fingerprint, events: seq<Event>): Store
    decreases |events|
  {
    if events == [] then s else ReactAll(React(s, fp, events[0]), fp, events[1..])
  }

  // ----- What each event does to the maps -----

  predicate Stores(fp: Fingerprint, e: Event, f: string) {
    && e.Remember? && e.reply.conversationId != "" && e.msgs != []
    && (|| f == fp(e.msgs)
        || ((e.reply.content != "" || e.reply.toolCalls != [])
            && f == fp(e.msgs + [Message("assistant", e.reply.content, "", e.reply.toolCalls, false)])))
  }

  predicate Drops(s: Store, fp: Fingerprint, e: Event, account: int, id: string) {
    || (e == Clear(account))
    || (e.Corrupt? && e.account == account && id != "" && id == Lookup(s, fp, account, e.msgs))
  }

  lemma Step1(s: Store, op: Op)
    ensures ApplyAll(s, [op]) == Apply(s, op)
  {
    assert ApplyAll(Apply(s, op), []) == Apply(s, op);
    assert [op][1..] == [];
  }

  lemma {:induction false} ApplyAppend(s: Store, a: seq<Op>, b: seq<Op>)
    ensures ApplyAll(s, a + b) == ApplyAll(ApplyAll(s, a), b)
    decreases |a|
  {
    hide Apply;
    if a == [] {
      assert a + b == b;
    } else {
      assert (a + b)[1..] == a[1..] + b;
      ApplyAppend(Apply(s, a[0]), a[1..], b);
    }
  }

  /** `setConversationID`: both maps, one key. */
  lemma SetBoth(s: Store, fp: Fingerprint, account: int, msgs: seq<Message>, id: string)
    requires id != "" && msgs != []
    ensures ApplyAll(s, SetOps(fp, account, msgs, id)) == s.(conv := s.conv[(account, fp(msgs)) := id], own := s.own[fp(msgs) := account])
  {
    var a, b := PutConversation(account, fp(msgs), id), PutOwner(fp(msgs), account);
    assert [a, b] == [a] + [b];
    ApplyAppend(s, [a], [b]);
    Step1(s, a);
    Step1(Apply(s, a), b);
  }

  /** The conversation map after an event, entry by entry. */
  lemma ConvAfter(s: Store, fp: Fingerprint, e: Event, account: int, f: string)
    ensures Find(React(s, fp, e).conv, (account, f))
         == if Stores(fp, e, f) && e.account == account then Some(e.reply.conversationId)
            else if (account, f) in s.conv && Drops(s, fp, e, account, s.conv[(account, f)]) then None
            else Find(s.conv, (account, f))
  {
    match e
    case Remember(a, msgs, reply) =>
      if reply.conversationId != "" && msgs != [] {
        RememberAfter(s, fp, e);
      }
    case Corrupt(a, msgs) =>
      var id := Lookup(s, fp, a, msgs);
      Step1(s, Invalidate(a, id, ToolCallIds(msgs)));
    case Clear(a) =>
      Step1(s, Reset(a));
  }

  lemma RememberAfter(s: Store, fp: Fingerprint, e: Event)
    requires e.Remember? && e.reply.conversationId != "" && e.msgs != []
    ensures var s1 := s.(conv := s.conv[(e.account, fp(e.msgs)) := e.reply.conversationId], own := s.own[fp(e.msgs) := e.account]);
            var g := fp(e.msgs + Followup(e.reply));
            && React(s, fp, e) == if Followup(e.reply) == [] then s1
                                  else s1.(conv := s1.conv[(e.account, g) := e.reply.conversationId], own := s1.own[g := e.account])
  {
    var id, next := e.reply.conversationId, e.msgs + Followup(e.reply);
    SetBoth(s, fp, e.account, e.msgs, id);
    var a := SetOps(fp, e.account, e.msgs, id);
    var b := if Followup(e.reply) == [] then [] else SetOps(fp, e.account, next, id);
    ApplyAppend(s, a, b);
    if Followup(e.reply) != [] {
      SetBoth(ApplyAll(s, a), fp, e.account, next, id);
    }
  }

  /** The owner map after an event, entry by entry: a corrupt conversation
      changes no owner. */
  lemma OwnAfter(s: Store, fp: Fingerprint, e: Event, f: string)
    ensures Find(React(s, fp, e).own, f)
         == if Stores(fp, e, f) then Some(e.account)
            else if e.Clear? && f in s.own && s.own[f] == e.account then None
            else Find(s.own, f)
  {
    match e
    case Remember(a, msgs, reply) =>
      if reply.conversationId != "" && msgs != [] {
        RememberAfter(s, fp, e);
      }
    case Corrupt(a, msgs) =>
      var id := Lookup(s, fp, a, msgs);
      Step1(s, Invalidate(a, id, ToolCallIds(msgs)));
    case Clear(a) =>
      Step1(s, Reset(a));
  }

  /** The tool groups after an event: only a corrupt report drops any, those of
      the calls whose results the request hands back, on that account. */
  lemma ToolsAfter(s: Store, fp: Fingerprint, e: Event, account: int, call: string)
    ensures Find(React(s, fp, e).tools, (account, call))
         == if e.Corrupt? && e.account == account && Lookup(s, fp, account, e.msgs) != "" && call != ""
               && exists i :: 0 <= i < |e.msgs| && e.msgs[i].toolCallId == call
            then None else Find(s.tools, (account, call))
  {
    match e
    case Remember(a, msgs, reply) =>
      if reply.conversationId != "" && msgs != [] {
        RememberAfter(s, fp, e);
      }
    case Corrupt(a, msgs) =>
      var id := Lookup(s, fp, a, msgs);
      Step1(s, Invalidate(a, id, ToolCallIds(msgs)));
      CallIdsAre(msgs, call);
      hide ToolCallIds, Lookup;
    case Clear(a) =>
      Step1(s, Reset(a));
  }

  lemma {:induction false} CallIdsAre(msgs: seq<Message>, call: string)
    ensures call in ToolCallIds(msgs) <==> call != "" && exists i :: 0 <= i < |msgs| && msgs[i].toolCallId == call
    decreases |msgs|
  {
    if msgs != [] {
      var n := |msgs| - 1;
      CallIdsAre(msgs[..n], call);
      if i :| 0 <= i < |msgs| && msgs[i].toolCallId == call {
        assert i < n ==> msgs[..n][i].toolCallId == call;
      }
      if i :| 0 <= i < n && msgs[..n][i].toolCallId == call {
        assert msgs[i].toolCallId == call;
      }
    }
  }

  // ----- Properties -----

  /** A lookup answers at least as deep as any stored proper prefix. */
  lemma FoundAtLeastAsDeep(s: Store, fp: Fingerprint, account: int, msgs: seq<Message>, i: nat)
    requires HasReusableHistory(msgs) && 0 < i < |msgs|
    ensures HasConv(s, fp, account, msgs, i) ==> LookupDepth(s, fp, account, msgs) >= i
    ensures HasOwner(s, fp, msgs, i) ==> StickyDepth(s, fp, msgs) >= i
  {
    hide HasConv, HasOwner, LookupDepth, StickyDepth;
    var c, o := LookupDepth(s, fp, account, msgs), StickyDepth(s, fp, msgs);
    assert c < i < |msgs| ==> !HasConv(s, fp, account, msgs, i);
    assert o < i < |msgs| ==> !HasOwner(s, fp, msgs, i);
  }

  /** Once remembered, every longer history with an assistant or tool turn finds
      an entry at least that deep: the remembered id and account, when nothing
      deeper is stored. */
  lemma RememberedIsFound(s: Store, fp: Fingerprint, e: Event, msgs: seq<Message>)
    requires e.Remember? && e.reply.conversationId != "" && e.msgs != []
    requires e.msgs <= msgs && |e.msgs| < |msgs| && HasReusableHistory(msgs)
    ensures var t := React(s, fp, e);
            && LookupDepth(t, fp, e.account, msgs) >= |e.msgs| && StickyDepth(t, fp, msgs) >= |e.msgs|
            && (LookupDepth(t, fp, e.account, msgs) == |e.msgs| ==> Lookup(t, fp, e.account, msgs) == e.reply.conversationId)
            && (StickyDepth(t, fp, msgs) == |e.msgs| ==> Sticky(t, fp, msgs) == Some(e.account))
  {
    var t := React(s, fp, e);
    ConvAfter(s, fp, e, e.account, fp(e.msgs));
    OwnAfter(s, fp, e, fp(e.msgs));
    assert msgs[..|e.msgs|] == e.msgs;
    FoundAtLeastAsDeep(t, fp, e.account, msgs, |e.msgs|);
    hide React, LookupDepth, StickyDepth;
  }

  /** The echoed assistant turn is found exactly there: one deeper. */
  lemma EchoIsFound(s: Store, fp: Fingerprint, e: Event, rest: seq<Message>)
    requires e.Remember? && e.reply.conversationId != "" && e.msgs != [] && rest != []
    requires e.reply.content != "" || e.reply.toolCalls != []
    ensures var echo := Message("assistant", e.reply.content, "", e.reply.toolCalls, false);
            LookupDepth(React(s, fp, e), fp, e.account, e.msgs + [echo] + rest) > |e.msgs|
  {
    var t, next := React(s, fp, e), e.msgs + [Message("assistant", e.reply.content, "", e.reply.toolCalls, false)];
    var msgs := next + rest;
    ConvAfter(s, fp, e, e.account, fp(next));
    assert msgs[..|next|] == next && Reusable(msgs[|e.msgs|]);
    FoundAtLeastAsDeep(t, fp, e.account, msgs, |next|);
  }

  /** A history goes on from an earlier turn. */
  predicate GoesOn(msgs: seq<Message>) {
    exists i :: 0 <= i < |msgs| &&
      (msgs[i].role == "assistant" || msgs[i].role == "tool" || (msgs[i].role == "user" && msgs[i].hasToolResultPart))
  }

  lemma GoesOnIff(msgs: seq<Message>)
    ensures HasReusableHistory(msgs) <==> GoesOn(msgs)
  {
    assert forall m: Message ::
        Reusable(m) <==> m.role == "assistant" || m.role == "tool" || (m.role == "user" && m.hasToolResultPart);
    hide Reusable;
    if i :| 0 <= i < |msgs| && Reusable(msgs[i]) {
      assert GoesOn(msgs);
    }
    if GoesOn(msgs) {
      var i :| 0 <= i < |msgs|
        && (msgs[i].role == "assistant" || msgs[i].role == "tool" || (msgs[i].role == "user" && msgs[i].hasToolResultPart));
      assert Reusable(msgs[i]);
    }
  }

  /** The answer is what is stored for the `i`-th prefix when that is the
      longest proper non-empty one stored, and only if the history goes on from an
      earlier turn; a fresh history, or one with nothing stored, gets none. */
  lemma AnswerIs(s: Store, fp: Fingerprint, account: int, msgs: seq<Message>, i: nat)
    requires 0 < i < |msgs| && (account, fp(msgs[..i])) in s.conv
    requires forall j :: i < j < |msgs| ==> (account, fp(msgs[..j])) !in s.conv
    ensures Lookup(s, fp, account, msgs) == if GoesOn(msgs) then s.conv[(account, fp(msgs[..i]))] else ""
  {
    GoesOnIff(msgs);
    hide GoesOn, HasReusableHistory;
    if HasReusableHistory(msgs) {
      LookupDepthIs(s, fp, account, msgs, i);
    }
  }

  lemma NoAnswer(s: Store, fp: Fingerprint, account: int, msgs: seq<Message>)
    requires forall j :: 0 < j < |msgs| ==> (account, fp(msgs[..j])) !in s.conv
    ensures Lookup(s, fp, account, msgs) == ""
  {
  }

  /** Likewise for the account the history goes back to. */
  lemma OwnerIs(s: Store, fp: Fingerprint, msgs: seq<Message>, i: nat)
    requires 0 < i < |msgs| && fp(msgs[..i]) in s.own
    requires forall j :: i < j < |msgs| ==> fp(msgs[..j]) !in s.own
    ensures Sticky(s, fp, msgs) == if GoesOn(msgs) then Some(s.own[fp(msgs[..i])]) else None
  {
    GoesOnIff(msgs);
    hide GoesOn, HasReusableHistory;
    if HasReusableHistory(msgs) {
      StickyDepthIs(s, fp, msgs, i);
    }
  }

  lemma NoOwner(s: Store, fp: Fingerprint, msgs: seq<Message>)
    requires forall j :: 0 < j < |msgs| ==> fp(msgs[..j]) !in s.own
    ensures Sticky(s, fp, msgs) == None
  {
  }

  lemma {:induction false} ReactSnoc(s: Store, fp: Fingerprint, events: seq<Event>, e: Event)
    ensures ReactAll(s, fp, events + [e]) == React(ReactAll(s, fp, events), fp, e)
    decreases |events|
  {
    hide React;
    if events == [] {
      assert [] + [e] == [e] && [e][1..] == [];
      assert ReactAll(React(s, fp, e), fp, []) == React(s, fp, e);
    } else {
      assert (events + [e])[1..] == events[1..] + [e];
      ReactSnoc(React(s, fp, events[0]), fp, events[1..], e);
    }
  }

  /** The store after the first `n` events. */
  function StateAt(s: Store, fp: Fingerprint, events: seq<Event>, n: nat): Store
    requires n <= |events|
  {
    ReactAll(s, fp, events[..n])
  }

  lemma StateNext(s: Store, fp: Fingerprint, events: seq<Event>, n: nat)
    requires n < |events|
    ensures StateAt(s, fp, events, n + 1) == React(StateAt(s, fp, events, n), fp, events[n])
    ensures StateAt(s, fp, events, 0) == s
  {
    hide React;
    assert events[..n + 1] == events[..n] + [events[n]];
    ReactSnoc(s, fp, events[..n], events[n]);
  }

  /** The event resets the account, or reports corrupt the very conversation
      that is stored for the history. */
  predicate DropsEntry(s: Store, fp: Fingerprint, e: Event, account: int, f: string) {
    (account, f) in s.conv && Drops(s, fp, e, account, s.conv[(account, f)])
  }

  /** A remembered history stays found for as long as its account is not reset
      and no corrupt report looks up its conversation, and no longer; other
      conversations of the account may break meanwhile. */
  lemma {:induction false} FoundUntilDroppedIff(s: Store, fp: Fingerprint, account: int, f: string, events: seq<Event>, n: nat)
    requires (account, f) in s.conv && n <= |events|
    ensures (forall m :: 0 <= m <= n ==> (account, f) in StateAt(s, fp, events, m).conv)
       <==> forall i :: 0 <= i < n ==> !DropsEntry(StateAt(s, fp, events, i), fp, events[i], account, f)
  {
    hide React, Drops, StateAt;
    if n == 0 {
      assert StateAt(s, fp, events, 0) == s by { StateZero(s, fp, events); }
    } else {
      FoundUntilDroppedIff(s, fp, account, f, events, n - 1);
      StateNext(s, fp, events, n - 1);
      if (account, f) in StateAt(s, fp, events, n - 1).conv {
        DropIsLoss(StateAt(s, fp, events, n - 1), fp, events[n - 1], account, f);
      }
    }
  }

  lemma StateZero(s: Store, fp: Fingerprint, events: seq<Event>)
    ensures StateAt(s, fp, events, 0) == s
  {
    assert events[..0] == [];
  }

  lemma DropIsLoss(s: Store, fp: Fingerprint, e: Event, account: int, f: string)
    requires (account, f) in s.conv
    ensures (account, f) in React(s, fp, e).conv <==> !DropsEntry(s, fp, e, account, f)
  {
    ConvAfter(s, fp, e, account, f);
    hide React;
  }

  ghost predicate Unknown(s: Store, account: int, id: string) {
    forall f :: (account, f) in s.conv ==> s.conv[(account, f)] != id
  }

  predicate Reintroduces(e: Event, account: int, id: string) {
    e.Remember? && e.account == account && e.reply.conversationId == id
  }

  lemma {:induction false} UnknownStays(s: Store, fp: Fingerprint, account: int, id: string, events: seq<Event>)
    requires Unknown(s, account, id) && forall i :: 0 <= i < |events| ==> !Reintroduces(events[i], account, id)
    ensures Unknown(ReactAll(s, fp, events), account, id)
    decreases |events|
  {
    hide React;
    if events != [] {
      var e, t := events[0], React(s, fp, events[0]);
      forall f | (account, f) in t.conv ensures t.conv[(account, f)] != id {
        ConvAfter(s, fp, e, account, f);
      }
      UnknownStays(t, fp, account, id, events[1..]);
    }
  }

  /** A conversation reported corrupt is never looked up again on its account,
      for any history and after any events, until it is remembered again. */
  lemma DroppedStaysGone(s: Store, fp: Fingerprint, e: Event, events: seq<Event>, msgs: seq<Message>)
    requires e.Corrupt?
    requires var id := Lookup(s, fp, e.account, e.msgs);
             id != "" && forall i :: 0 <= i < |events| ==> !Reintroduces(events[i], e.account, id)
    ensures Lookup(ReactAll(React(s, fp, e), fp, events), fp, e.account, msgs) != Lookup(s, fp, e.account, e.msgs)
  {
    hide React;
    var id, t := Lookup(s, fp, e.account, e.msgs), React(s, fp, e);
    forall f | (e.account, f) in t.conv ensures t.conv[(e.account, f)] != id {
      ConvAfter(s, fp, e, e.account, f);
    }
    UnknownStays(t, fp, e.account, id, events);
  }

  /** Nothing else changes: other accounts' lookups, this account's lookups of
      other ids, and every sticky account. */
  lemma DropTouchesNothingElse(s: Store, fp: Fingerprint, e: Event, account: int, msgs: seq<Message>)
    requires e.Corrupt?
    ensures var t := React(s, fp, e);
            && Sticky(t, fp, msgs) == Sticky(s, fp, msgs)
            && (account != e.account || Lookup(s, fp, account, msgs) != Lookup(s, fp, e.account, e.msgs) ==>
                 Lookup(t, fp, account, msgs) == Lookup(s, fp, account, msgs))
  {
    hide React, Lookup, Sticky;
    var t := React(s, fp, e);
    forall f ensures Find(t.own, f) == Find(s.own, f) {
      OwnAfter(s, fp, e, f);
    }
    SameOwnersSameSticky(s, t, fp, msgs);
    if account != e.account || Lookup(s, fp, account, msgs) != Lookup(s, fp, e.account, e.msgs) {
      var id := if account == e.account then Lookup(s, fp, e.account, e.msgs) else "";
      forall f
        ensures Find(t.conv, (account, f)) == if id != "" && Find(s.conv, (account, f)) == Some(id) then None else Find(s.conv, (account, f))
      {
        ConvAfter(s, fp, e, account, f);
      }
      OtherIdsSameLookup(s, t, fp, account, id, msgs);
    }
  }

  lemma SameOwnersSameSticky(s: Store, t: Store, fp: Fingerprint, msgs: seq<Message>)
    requires forall f :: Find(t.own, f) == Find(s.own, f)
    ensures Sticky(t, fp, msgs) == Sticky(s, fp, msgs)
  {
    if HasReusableHistory(msgs) {
      forall i ensures HasOwner(t, fp, msgs, i) == HasOwner(s, fp, msgs, i) {
        if 0 <= i <= |msgs| {
          assert Find(t.own, fp(msgs[..i])) == Find(s.own, fp(msgs[..i]));
        }
      }
      var d := StickyDepth(s, fp, msgs);
      StickyDepthIs(t, fp, msgs, d);
      if d > 0 {
        assert Find(t.own, fp(msgs[..d])) == Find(s.own, fp(msgs[..d]));
      }
    }
  }

  lemma OtherIdsSameLookup(s: Store, t: Store, fp: Fingerprint, account: int, id: string, msgs: seq<Message>)
    requires forall f :: (Find(t.conv, (account, f))
               == if id != "" && Find(s.conv, (account, f)) == Some(id) then None else Find(s.conv, (account, f)))
    requires id == "" || Lookup(s, fp, account, msgs) != id
    ensures Lookup(t, fp, account, msgs) == Lookup(s, fp, account, msgs)
  {
    if HasReusableHistory(msgs) {
      var d := LookupDepth(s, fp, account, msgs);
      forall i ensures HasConv(t, fp, account, msgs, i) ==> HasConv(s, fp, account, msgs, i) {
        if 0 <= i <= |msgs| {
          assert Find(t.conv, (account, fp(msgs[..i]))).Some? ==> Find(s.conv, (account, fp(msgs[..i]))).Some?;
        }
      }
      if d > 0 {
        assert Find(t.conv, (account, fp(msgs[..d]))) == Find(s.conv, (account, fp(msgs[..d])));
      }
      LookupDepthIs(t, fp, account, msgs, d);
    }
  }

  // ----- Owners and conversations together -----

  /** Stored ids are real; an account that owns a fingerprint can resume it. */
  ghost predicate OwnerCanResume(s: Store, account: int) {
    && (forall k :: k in s.conv ==> s.conv[k] != "")
    && (forall f :: f in s.own && s.own[f] == account ==> (account, f) in s.conv)
  }

  lemma {:induction false} OwnersCanResume(s: Store, fp: Fingerprint, account: int, events: seq<Event>)
    requires OwnerCanResume(s, account)
    requires forall i :: 0 <= i < |events| ==> !(events[i].Corrupt? && events[i].account == account)
    ensures OwnerCanResume(ReactAll(s, fp, events), account)
    decreases |events|
  {
    hide React;
    if events != [] {
      var e, t := events[0], React(s, fp, events[0]);
      forall k | k in t.conv ensures t.conv[k] != "" {
        ConvAfter(s, fp, e, k.0, k.1);
      }
      forall f | f in t.own && t.own[f] == account ensures (account, f) in t.conv {
        OwnAfter(s, fp, e, f);
        ConvAfter(s, fp, e, account, f);
      }
      OwnersCanResume(t, fp, account, events[1..]);
    }
  }

  lemma OwnerResumes(s: Store, fp: Fingerprint, msgs: seq<Message>)
    requires Sticky(s, fp, msgs).Some? && OwnerCanResume(s, Sticky(s, fp, msgs).value)
    ensures var account := Sticky(s, fp, msgs).value;
            LookupDepth(s, fp, account, msgs) >= StickyDepth(s, fp, msgs) && Lookup(s, fp, account, msgs) != ""
  {
    FoundAtLeastAsDeep(s, fp, Sticky(s, fp, msgs).value, msgs, StickyDepth(s, fp, msgs));
  }

  /** Sticky routing leads somewhere: from an empty store, after any events in
      which no conversation of the account broke, the account a history sticks
      to has a conversation for it, at least as deep. */
  lemma StickyAccountCanResume(fp: Fingerprint, events: seq<Event>, msgs: seq<Message>)
    requires var s := ReactAll(EMPTY, fp, events);
             && Sticky(s, fp, msgs).Some?
             && forall i :: 0 <= i < |events| ==> !(events[i].Corrupt? && events[i].account == Sticky(s, fp, msgs).value)
    ensures var s := ReactAll(EMPTY, fp, events);
            var account := Sticky(s, fp, msgs).value;
            LookupDepth(s, fp, account, msgs) >= StickyDepth(s, fp, msgs) && Lookup(s, fp, account, msgs) != ""
  {
    hide ReactAll, Sticky, StickyDepth, LookupDepth, Lookup;
    var s := ReactAll(EMPTY, fp, events);
    OwnersCanResume(EMPTY, fp, Sticky(s, fp, msgs).value, events);
    OwnerResumes(s, fp, msgs);
  }

  /** Every stored conversation is reachable through some owner. */
  ghost predicate AllOwned(s: Store) {
    forall k :: k in s.conv ==> k.1 in s.own
  }

  /** The event resets an account that owns a history another account also has
      a conversation for. */
  predicate Orphans(s: Store, e: Event) {
    e.Clear? && exists k :: k in s.conv && k.0 != e.account && k.1 in s.own && s.own[k.1] == e.account
  }

  lemma OwnedStepIff(s: Store, fp: Fingerprint, e: Event)
    requires AllOwned(s)
    ensures AllOwned(React(s, fp, e)) <==> !Orphans(s, e)
  {
    var t := React(s, fp, e);
    hide React;
    if Orphans(s, e) {
      var k :| k in s.conv && k.0 != e.account && k.1 in s.own && s.own[k.1] == e.account;
      ConvAfter(s, fp, e, k.0, k.1);
      OwnAfter(s, fp, e, k.1);
      assert k == (k.0, k.1) && k in t.conv && k.1 !in t.own;
    } else {
      forall k | k in t.conv ensures k.1 in t.own {
        ConvAfter(s, fp, e, k.0, k.1);
        OwnAfter(s, fp, e, k.1);
        assert k == (k.0, k.1);
      }
    }
  }

  /** Over any run every stored conversation keeps an owner, so that sticky
      routing can find its history, exactly as long as no reset hits an account
      that owns a history another account also has a conversation for. */
  lemma {:induction false} AlwaysOwnedIff(fp: Fingerprint, events: seq<Event>, n: nat)
    requires n <= |events|
    ensures (forall m :: 0 <= m <= n ==> AllOwned(StateAt(EMPTY, fp, events, m)))
       <==> forall i :: 0 <= i < n ==> !Orphans(StateAt(EMPTY, fp, events, i), events[i])
  {
    hide React, StateAt, AllOwned, Orphans;
    if n == 0 {
      StateZero(EMPTY, fp, events);
      assert AllOwned(EMPTY) by { NothingStored(); }
    } else {
      AlwaysOwnedIff(fp, events, n - 1);
      StateNext(EMPTY, fp, events, n - 1);
      if AllOwned(StateAt(EMPTY, fp, events, n - 1)) {
        OwnedStepIff(StateAt(EMPTY, fp, events, n - 1), fp, events[n - 1]);
      }
    }
  }

  lemma NothingStored()
    ensures AllOwned(EMPTY)
  {
  }

  /** An instance: two accounts remember one history; the later one is reset. */
  function OrphanRun(user: seq<Message>): seq<Event> {
    [Remember(1, user, Reply("c1", "", [], false)), Remember(2, user, Reply("c2", "", [], false)), Clear(2)]
  }

  lemma ResetCanOrphanAConversation(fp: Fingerprint, user: seq<Message>)
    requires user != []
    ensures var s := ReactAll(EMPTY, fp, OrphanRun(user));
            && Find(s.conv, (1, fp(user))) == Some("c1") && Find(s.own, fp(user)) == None
  {
    var run := OrphanRun(user);
    var a, b, c, f := run[0], run[1], run[2], fp(user);
    assert Stores(fp, a, f) && Stores(fp, b, f) && !Stores(fp, c, f);
    assert run == [a, b, c] && a.account == 1 && b.account == 2 && c == Clear(2);
    assert a.reply.conversationId == "c1";
    hide OrphanRun, React, Stores;
    ReactThree(EMPTY, fp, a, b, c);
    var s1 := React(EMPTY, fp, a);
    var s2 := React(s1, fp, b);
    ConvAfter(EMPTY, fp, a, 1, f);
    ConvAfter(s1, fp, b, 1, f);
    ConvAfter(s2, fp, c, 1, f);
    OwnAfter(s1, fp, b, f);
    OwnAfter(s2, fp, c, f);
  }

  lemma ReactThree(s: Store, fp: Fingerprint, a: Event, b: Event, c: Event)
    ensures ReactAll(s, fp, [a, b, c]) == React(React(React(s, fp, a), fp, b), fp, c)
  {
    hide React;
    var events := [a, b, c];
    assert events[1..] == [b, c] && [b, c][1..] == [c] && [c][1..] == [];
    var t := React(React(React(s, fp, a), fp, b), fp, c);
    assert ReactAll(t, fp, []) == t;
    assert ReactAll(React(React(s, fp, a), fp, b), fp, [c]) == t;
  }

  // ----- The provider's methods -----

  class Conversations {
    const fp: Fingerprint
    var store: Store

    constructor (fp: Fingerprint)
      ensures this.fp == fp && store == EMPTY
    {
      this.fp := fp;
      store := EMPTY;
    }

    method LookupConversation(account: int, msgs: seq<Message>) returns (id: string)
      ensures id == Lookup(store, fp, account, msgs)
    {
      if !HasReusableHistory(msgs) {
        return "";
      }
      var i := |msgs| - 1;
      while i >= 1
        invariant 0 <= i < |msgs|
        invariant forall j :: i < j < |msgs| ==> !HasConv(store, fp, account, msgs, j)
      {
        if (account, fp(msgs[..i])) in store.conv {
          LookupDepthIs(store, fp, account, msgs, i);
          return store.conv[(account, fp(msgs[..i]))];
        }
        i := i - 1;
      }
      LookupDepthIs(store, fp, account, msgs, 0);
      return "";
    }

    method StickyAccount(msgs: seq<Message>) returns (owner: Option<int>)
      ensures owner == Sticky(store, fp, msgs)
    {
      if !HasReusableHistory(msgs) {
        return None;
      }
      var i := |msgs| - 1;
      while i >= 1
        invariant 0 <= i < |msgs|
        invariant forall j :: i < j < |msgs| ==> !HasOwner(store, fp, msgs, j)
      {
        if fp(msgs[..i]) in store.own {
          StickyDepthIs(store, fp, msgs, i);
          return Some(store.own[fp(msgs[..i])]);
        }
        i := i - 1;
      }
      StickyDepthIs(store, fp, msgs, 0);
      return None;
    }

    method SetConversationId(account: int, msgs: seq<Message>, id: string)
      modifies this
      ensures store == ApplyAll(old(store), SetOps(fp, account, msgs, id))
    {
      if id == "" || msgs == [] {
        return;
      }
      SetBoth(store, fp, account, msgs, id);
      var f := fp(msgs);
      store := store.(conv := store.conv[(account, f) := id]);
      store := store.(own := store.own[f := account]);
    }

    method RememberConversation(account: int, msgs: seq<Message>, reply: Option<Reply>)
      modifies this
      ensures store == if reply.None? then old(store) else React(old(store), fp, Remember(account, msgs, reply.value))
    {
      if reply.None? || reply.value.conversationId == "" || msgs == [] {
        return;
      }
      var id, asst := reply.value.conversationId, Followup(reply.value);
      ApplyAppend(store, SetOps(fp, account, msgs, id), if asst == [] then [] else SetOps(fp, account, msgs + asst, id));
      hide SetOps;
      SetConversationId(account, msgs, id);
      if asst != [] {
        SetConversationId(account, msgs + asst, id);
      }
    }

    method ResetConversation(account: int)
      modifies this
      ensures store == React(old(store), fp, Clear(account))
    {
      Step1(store, Reset(account));
      store := Apply(store, Reset(account));
    }

    method InvalidateConversation(account: int, msgs: seq<Message>)
      modifies this
      ensures store == React(old(store), fp, Corrupt(account, msgs))
    {
      var id := LookupConversation(account, msgs);
      if id == "" {
        return;
      }
      var calls := TrailingToolCallIds(msgs);
      Step1(store, Invalidate(account, id, calls));
      store := Apply(store, Invalidate(account, id, calls));
    }

    method InvalidateIfCorrupt(account: int, msgs: seq<Message>, reply: Option<Reply>)
      modifies this
      ensures store == if reply.Some? && reply.value.sessionCorrupt then React(old(store), fp, Corrupt(account, msgs)) else old(store)
    {
      if reply.Some? && reply.value.sessionCorrupt {
        InvalidateConversation(account, msgs);
      }
    }
  }

  method TrailingToolCallIds(msgs: seq<Message>) returns (ids: seq<string>)
    ensures ids == ToolCallIds(msgs)
  {
    ids := [];
    for i := 0 to |msgs|
      invariant ids == ToolCallIds(msgs[..i])
    {
      assert msgs[..i + 1][..i] == msgs[..i];
      if msgs[i].toolCallId != "" {
        ids := ids + [msgs[i].toolCallId];
      }
    }
    assert msgs[..|msgs|] == msgs;
  }
}
