/** The in-process conversation store: three maps over string keys. */
module MemoryStore {
  import opened Base
  import opened Decimal
  import opened ConversationStore

  datatype Mem = Mem(conv: map<string, string>, own: map<string, int>, tools: map<string, string>)


  predicate OfAccount(account: int, k: string) {
    AccountKey(account, "") <= k
  }

  predicate ToolKeyOf(account: int, calls: seq<string>, k: string) {
    exists i :: 0 <= i < |calls| && calls[i] != "" && k == AccountKey(account, calls[i])
  }

  function ApplyMem(m: Mem, op: Op): Mem {
    match op
    case PutConversation(account, fp, id) => m.(conv := m.conv[AccountKey(account, fp) := id])
    case PutOwner(fp, account) => m.(own := m.own[fp := account])
    case PutToolGroup(account, call, group) => m.(tools := m.tools[AccountKey(account, call) := group])
    case Reset(account) =>
      m.(conv := map k | k in m.conv && !OfAccount(account, k) :: m.conv[k],
         own := map fp | fp in m.own && m.own[fp] != account :: m.own[fp])
    case Invalidate(account, id, calls) =>
      m.(conv := map k | k in m.conv && !(id != "" && OfAccount(account, k) && m.conv[k] == id) :: m.conv[k],
         tools := map k | k in m.tools && !ToolKeyOf(account, calls, k) :: m.tools[k])
  }

  function ApplyAllMem(m: Mem, ops: seq<Op>): Mem
    decreases |ops|
  {
    if ops == [] then m else ApplyAllMem(ApplyMem(m, ops[0]), ops[1..])
  }

  /** The maps hold exactly the store's entries, under their keys. */
  ghost predicate MemRep(m: Mem, s: Store) {
    && m.own == s.own
    && (forall a, u :: IsInt64(a) ==> Find(m.conv, AccountKey(a, u)) == Find(s.conv, (a, u)))
    && (forall a, u :: IsInt64(a) ==> Find(m.tools, AccountKey(a, u)) == Find(s.tools, (a, u)))
  }

  lemma MemKeys(account: int)
    requires IsInt64(account)
    ensures forall a, u :: IsInt64(a) ==> ReadAccountKey(AccountKey(a, u)) == (a, u)
    ensures forall a, u :: IsInt64(a) ==> (OfAccount(account, AccountKey(a, u)) <==> a == account)
  {
    hide AccountKey, ReadAccountKey;
    forall a, u | IsInt64(a)
      ensures ReadAccountKey(AccountKey(a, u)) == (a, u) && (OfAccount(account, AccountKey(a, u)) <==> a == account)
    {
      AccountKeyReadsBack(a, u);
      AccountPrefix(account, a, u);
    }
  }

  /** Each operation does to the maps what it means. */
  lemma MemStep(m: Mem, s: Store, op: Op)
    requires MemRep(m, s) && OpOk(op)
    ensures MemRep(ApplyMem(m, op), Apply(s, op))
  {
    match op
    case Reset(_) => MemReset(m, s, op);
    case Invalidate(_, _, _) => MemInvalidate(m, s, op);
    case _ => MemPut(m, s, op);
  }

  lemma MemPut(m: Mem, s: Store, op: Op)
    requires MemRep(m, s) && OpOk(op) && (op.PutConversation? || op.PutOwner? || op.PutToolGroup?)
    ensures MemRep(ApplyMem(m, op), Apply(s, op))
  {
    MemKeys(op.account);
    hide AccountKey, ReadAccountKey, OfAccount;
  }

  lemma MemReset(m: Mem, s: Store, op: Op)
    requires MemRep(m, s) && OpOk(op) && op.Reset?
    ensures MemRep(ApplyMem(m, op), Apply(s, op))
  {
    MemKeys(op.account);
    hide AccountKey, ReadAccountKey, OfAccount;
  }

  lemma MemInvalidate(m: Mem, s: Store, op: Op)
    requires MemRep(m, s) && OpOk(op) && op.Invalidate?
    ensures MemRep(ApplyMem(m, op), Apply(s, op))
  {
    MemKeys(op.account);
    hide AccountKey, ReadAccountKey, OfAccount, ToolKeyOf;
    forall a, u | IsInt64(a)
      ensures ToolKeyOf(op.account, op.calls, AccountKey(a, u)) <==> a == op.account && u in op.calls && u != ""
    {
      ToolKeyIff(op.account, op.calls, a, u);
    }
  }

  lemma ToolKeyIff(account: int, calls: seq<string>, a: int, u: string)
    requires IsInt64(account) && IsInt64(a)
    ensures ToolKeyOf(account, calls, AccountKey(a, u)) <==> a == account && u in calls && u != ""
  {
    AccountKeyReadsBack(a, u);
    hide AccountKey, ReadAccountKey;
    forall i | 0 <= i < |calls|
      ensures ReadAccountKey(AccountKey(account, calls[i])) == (account, calls[i])
    {
      AccountKeyReadsBack(account, calls[i]);
    }
  }

  lemma {:induction false} MemRun(m: Mem, s: Store, ops: seq<Op>)
    requires MemRep(m, s) && forall i :: 0 <= i < |ops| ==> OpOk(ops[i])
    ensures MemRep(ApplyAllMem(m, ops), ApplyAll(s, ops))
    decreases |ops|
  {
    hide MemRep, ApplyMem, Apply;
    if ops != [] {
      MemStep(m, s, ops[0]);
      MemRun(ApplyMem(m, ops[0]), Apply(s, ops[0]), ops[1..]);
    }
  }

  /** `memoryConversationStore`. Deleting while ranging visits the entries in
      any order. */
  class MemoryStore {
    var convMap: map<string, string>
    var convOwn: map<string, int>
    var toolGroups: map<string, string>

    constructor ()
      ensures State() == Mem(map[], map[], map[])
    {
      convMap, convOwn, toolGroups := map[], map[], map[];
    }

    function State(): Mem
      reads this
    {
      Mem(convMap, convOwn, toolGroups)
    }

    method GetConversation(account: int, fp: string) returns (id: Option<string>)
      ensures forall s :: MemRep(State(), s) && IsInt64(account) ==> id == Find(s.conv, (account, fp))
    {
      var k := AccountKey(account, fp);
      id := if k in convMap then Some(convMap[k]) else None;
    }

    method PutConversation(account: int, fp: string, id: string)
      modifies this
      ensures State() == ApplyMem(old(State()), Op.PutConversation(account, fp, id))
    {
      convMap := convMap[AccountKey(account, fp) := id];
    }

    method GetOwner(fp: string) returns (owner: Option<int>)
      ensures forall s :: MemRep(State(), s) ==> owner == Find(s.own, fp)
    {
      owner := if fp in convOwn then Some(convOwn[fp]) else None;
    }

    method PutOwner(fp: string, account: int)
      modifies this
      ensures State() == ApplyMem(old(State()), Op.PutOwner(fp, account))
    {
      convOwn := convOwn[fp := account];
    }

    method GetToolGroup(account: int, call: string) returns (group: Option<string>)
      ensures forall s :: MemRep(State(), s) && IsInt64(account) ==> group == Find(s.tools, (account, call))
    {
      var k := AccountKey(account, call);
      group := if k in toolGroups then Some(toolGroups[k]) else None;
    }

    method PutToolGroup(account: int, call: string, group: string)
      modifies this
      ensures State() == ApplyMem(old(State()), Op.PutToolGroup(account, call, group))
    {
      toolGroups := toolGroups[AccountKey(account, call) := group];
    }

    method Reset(account: int)
      modifies this
      ensures State() == ApplyMem(old(State()), Op.Reset(account))
    {
      DeleteConversations(account, None);
      var rest := convOwn.Keys;
      while rest != {}
        invariant rest <= convOwn.Keys
        invariant convOwn == map fp | fp in old(convOwn) && (fp in rest || old(convOwn)[fp] != account) :: old(convOwn)[fp]
        invariant State() == ApplyMem(old(State()), Op.Reset(account)).(own := convOwn)
        decreases |rest|
      {
        hide ApplyMem;
        var fp :| fp in rest;
        if convOwn[fp] == account {
          convOwn := convOwn - {fp};
        }
        rest := rest - {fp};
      }
    }

    /** The range over the conversations of `Reset` (any id) and of
        `InvalidateConversation` (one id). */
    method DeleteConversations(account: int, id: Option<string>)
      modifies this`convMap
      ensures convMap == map k | k in old(convMap) && !(OfAccount(account, k) && id in {None, Some(old(convMap)[k])}) :: old(convMap)[k]
    {
      hide AccountKey;
      var prefix := AccountKey(account, "");
      var todo := convMap.Keys;
      while todo != {}
        invariant todo <= convMap.Keys
        invariant convMap == map k | k in old(convMap) && (k in todo || !(OfAccount(account, k) && id in {None, Some(old(convMap)[k])})) :: old(convMap)[k]
        decreases |todo|
      {
        var k :| k in todo;
        if prefix <= k && id in {None, Some(convMap[k])} {
          convMap := convMap - {k};
        }
        todo := todo - {k};
      }
    }

    method InvalidateConversation(account: int, id: string, calls: seq<string>)
      modifies this
      ensures State() == ApplyMem(old(State()), Op.Invalidate(account, id, calls))
    {
      if id != "" {
        DeleteConversations(account, Some(id));
      }
      DeleteToolGroups(account, calls);
    }

    method DeleteToolGroups(account: int, calls: seq<string>)
      modifies this`toolGroups
      ensures toolGroups == map k | k in old(toolGroups) && !ToolKeyOf(account, calls, k) :: old(toolGroups)[k]
    {
      for n := 0 to |calls|
        invariant toolGroups == map k | k in old(toolGroups) && !ToolKeyOf(account, calls[..n], k) :: old(toolGroups)[k]
      {
        hide AccountKey, ToolKeyOf;
        if calls[n] != "" {
          toolGroups := toolGroups - {AccountKey(account, calls[n])};
        }
        OneMoreCall(account, calls, n);
      }
      assert calls[..|calls|] == calls;
    }
  }

  lemma OneMoreCall(account: int, calls: seq<string>, n: nat)
    requires n < |calls|
    ensures forall k :: (ToolKeyOf(account, calls[..n + 1], k)
              <==> ToolKeyOf(account, calls[..n], k) || (calls[n] != "" && k == AccountKey(account, calls[n])))
  {
    hide AccountKey;
    forall k
      ensures (ToolKeyOf(account, calls[..n + 1], k)
               <==> ToolKeyOf(account, calls[..n], k) || (calls[n] != "" && k == AccountKey(account, calls[n])))
    {
      assert calls[..n + 1][n] == calls[n];
      assert forall i :: 0 <= i < n ==> calls[..n][i] == calls[..n + 1][i];
    }
  }
}
