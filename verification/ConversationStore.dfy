/** The conversation store as its callers understand it, and the keys under
    which both of its forms keep their entries. */
module ConversationStore {
  import opened Base
  import opened Decimal

  // ----- Meaning -----

  /** Conversation ids by account and fingerprint, owning accounts by
      fingerprint, tool groups by account and call. */
  datatype Store = Store(conv: map<(int, string), string>, own: map<string, int>, tools: map<(int, string), string>)

  const EMPTY: Store := Store(map[], map[], map[])

  datatype Op =
    | PutConversation(account: int, fp: string, id: string)
    | PutOwner(fp: string, account: int)
    | PutToolGroup(account: int, call: string, group: string)
    | Reset(account: int)
    | Invalidate(account: int, id: string, calls: seq<string>)

  function Apply(s: Store, op: Op): Store {
    match op
    case PutConversation(account, fp, id) => s.(conv := s.conv[(account, fp) := id])
    case PutOwner(fp, account) => s.(own := s.own[fp := account])
    case PutToolGroup(account, call, group) => s.(tools := s.tools[(account, call) := group])
    case Reset(account) =>
      s.(conv := map k | k in s.conv && k.0 != account :: s.conv[k],
         own := map fp | fp in s.own && s.own[fp] != account :: s.own[fp])
    case Invalidate(account, id, calls) =>
      s.(conv := map k | k in s.conv && !(id != "" && k.0 == account && s.conv[k] == id) :: s.conv[k],
         tools := map k | k in s.tools && !(k.0 == account && k.1 in calls && k.1 != "") :: s.tools[k])
  }

  function ApplyAll(s: Store, ops: seq<Op>): Store
    decreases |ops|
  {
    if ops == [] then s else ApplyAll(Apply(s, ops[0]), ops[1..])
  }

  /** Account ids are 64-bit. */
  predicate OpOk(op: Op) {
    IsInt64(op.account)
  }

  // ----- Keys -----

  /** `accountID:suffix`. */
  function AccountKey(account: int, suffix: string): string {
    Itoa(account) + ":" + suffix
  }

  lemma ColonSplit(a: string, u: string, b: string, v: string)
    requires ':' !in a && ':' !in b && a + ":" + u == b + ":" + v
    ensures a == b && u == v
  {
    var x, y := a + ":" + u, b + ":" + v;
    assert x[|a|] == ':' && y[|b|] == ':';
    assert |a| == |b|;
    assert x[..|a|] == a && y[..|b|] == b && x[|a| + 1..] == u && y[|b| + 1..] == v;
  }

  lemma AccountKeyInjective(a: int, u: string, b: int, v: string)
    requires IsInt64(a) && IsInt64(b) && AccountKey(a, u) == AccountKey(b, v)
    ensures a == b && u == v
  {
    hide Itoa;
    ColonSplit(Itoa(a), u, Itoa(b), v);
    ItoaInjective(a, b);
  }

  /** A key starts with an account's prefix exactly when it is that account's. */
  lemma AccountPrefix(a: int, b: int, v: string)
    requires IsInt64(a) && IsInt64(b)
    ensures AccountKey(a, "") <= AccountKey(b, v) <==> a == b
  {
    hide Itoa;
    var p, k := AccountKey(a, ""), AccountKey(b, v);
    if a == b {
      assert k == p + v;
    }
    if p <= k {
      var u := k[|p|..];
      assert k == Itoa(a) + ":" + u;
      AccountKeyInjective(a, u, b, v);
    }
  }

  /** Which account and suffix a key spells. */
  ghost function ReadAccountKey(k: string): (int, string) {
    if exists a, u :: IsInt64(a) && k == AccountKey(a, u) then
      var a, u :| IsInt64(a) && k == AccountKey(a, u);
      (a, u)
    else
      (0, "")
  }

  lemma AccountKeyReadsBack(a: int, u: string)
    requires IsInt64(a)
    ensures ReadAccountKey(AccountKey(a, u)) == (a, u)
  {
    hide AccountKey;
    var k := AccountKey(a, u);
    var b, v :| IsInt64(b) && k == AccountKey(b, v) && ReadAccountKey(k) == (b, v);
    AccountKeyInjective(a, u, b, v);
  }
}
