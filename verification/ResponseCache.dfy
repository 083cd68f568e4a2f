/** The response cache: least recently used of 512 entries, 24 hours each. */
module ResponseCache {
  import opened Base

  const MAX_ENTRIES: nat := 512
  /** 24 hours in nanoseconds. */
  const TTL: int := 86_400_000_000_000

  datatype Result = Result(success: bool, toolCalls: seq<string>, content: string, cached: bool)

  datatype Entry = Entry(key: string, res: Result, exp: int)

  datatype Op =
    | Get(key: string, now: int)
    | Put(key: string, res: Result, now: int)

  // ----- The recency list: most recent first -----

  function Keys(l: seq<Entry>): (ks: seq<string>)
    ensures |ks| == |l| && forall i :: 0 <= i < |l| ==> ks[i] == l[i].key
  {
    seq(|l|, i requires 0 <= i < |l| => l[i].key)
  }

  predicate Distinct(l: seq<Entry>) {
    forall i, j :: 0 <= i < j < |l| ==> l[i].key != l[j].key
  }

  /** Where a key stands, if it is there. */
  function Position(l: seq<Entry>, key: string): (p: Option<nat>)
    ensures p.Some? ==> p.value < |l| && l[p.value].key == key
    ensures p.None? <==> key !in Keys(l)
  {
    if l == [] then None
    else if l[|l| - 1].key == key then Some(|l| - 1)
    else
      assert Keys(l) == Keys(l[..|l| - 1]) + [l[|l| - 1].key];
      Position(l[..|l| - 1], key)
  }

  function Without(l: seq<Entry>, p: nat): (r: seq<Entry>)
    requires p < |l|
    ensures |r| == |l| - 1
    ensures forall i :: 0 <= i < p ==> r[i] == l[i]
    ensures forall i :: p <= i < |r| ==> r[i] == l[i + 1]
  {
    l[..p] + l[p + 1..]
  }

  function Answer(l: seq<Entry>, key: string, now: int): Option<Result> {
    match Position(l, key)
    case None => None
    case Some(p) => if now > l[p].exp then None else Some(l[p].res)
  }

  function Step(l: seq<Entry>, op: Op): seq<Entry> {
    match op
    case Get(key, now) =>
      (match Position(l, key)
       case None => l
       case Some(p) => if now > l[p].exp then Without(l, p) else [l[p]] + Without(l, p))
    case Put(key, res, now) =>
      var e := Entry(key, res, now + TTL);
      match Position(l, key)
      case Some(p) => [e] + Without(l, p)
      case None => if |l| < MAX_ENTRIES then [e] + l else ([e] + l)[..MAX_ENTRIES]
  }

  function Run(ops: seq<Op>): seq<Entry> {
    if ops == [] then [] else Step(Run(ops[..|ops| - 1]), ops[|ops| - 1])
  }

  // ----- What the history says -----

  /** Whether an operation brings its key to the front: a put, or a get that hits. */
  predicate Uses(l: seq<Entry>, op: Op) {
    op.Put? || Answer(l, op.key, op.now).Some?
  }

  /** Index of the last operation that used a key; -1 for none. */
  function LastUse(ops: seq<Op>, key: string): (u: int)
    ensures -1 <= u < |ops|
  {
    if ops == [] then -1
    else
      var prev, op := ops[..|ops| - 1], ops[|ops| - 1];
      if op.key == key && Uses(Run(prev), op) then |ops| - 1 else LastUse(prev, key)
  }

  /** The last put of a key. */
  function LastPut(ops: seq<Op>, key: string): (op: Option<Op>)
    ensures op.Some? ==> op.value.Put? && op.value.key == key && op.value in ops
  {
    if ops == [] then None
    else
      var op := ops[|ops| - 1];
      if op.Put? && op.key == key then Some(op) else LastPut(ops[..|ops| - 1], key)
  }

  /** Other keys used since a key was last used. */
  function UsedSince(ops: seq<Op>, key: string): set<string> {
    if ops == [] then {}
    else
      var prev, op := ops[..|ops| - 1], ops[|ops| - 1];
      if !Uses(Run(prev), op) then UsedSince(prev, key)
      else if op.key == key then {}
      else UsedSince(prev, key) + {op.key}
  }

  /** The key was put, and no later get of it came after its expiry. */
  predicate Live(ops: seq<Op>, key: string) {
    if ops == [] then false
    else
      var prev, op := ops[..|ops| - 1], ops[|ops| - 1];
      if op.key != key then Live(prev, key)
      else if op.Put? then true
      else Live(prev, key) && LastPut(prev, key).Some? && op.now <= LastPut(prev, key).value.now + TTL
  }

  /** Nothing pushed the key out: at most 511 others were used between two uses
      of it, and since the last. */
  predicate Sheltered(ops: seq<Op>, key: string) {
    if ops == [] then true
    else
      var prev, op := ops[..|ops| - 1], ops[|ops| - 1];
      if op.Put? && op.key == key then true
      else Sheltered(prev, key) && |UsedSince(ops, key)| < MAX_ENTRIES
  }

  // ----- The invariant -----

  /** The list holds distinct keys in order of last use, each with its last put,
      and is never too long. */
  ghost predicate Faithful(ops: seq<Op>, l: seq<Entry>) {
    && |l| <= MAX_ENTRIES
    && (forall i, j :: 0 <= i < j < |l| ==> LastUse(ops, l[i].key) > LastUse(ops, l[j].key))
    && (forall i :: 0 <= i < |l| ==> IsLastPut(ops, l[i]))
  }

  predicate IsLastPut(ops: seq<Op>, e: Entry) {
    var op := LastPut(ops, e.key);
    op.Some? && op.value.res == e.res && op.value.now + TTL == e.exp
  }

  lemma Snoc(ops: seq<Op>, op: Op, key: string)
    ensures var now, l := ops + [op], Run(ops);
            && Run(now) == Step(l, op)
            && LastUse(now, key) == (if op.key == key && Uses(l, op) then |ops| else LastUse(ops, key))
            && LastPut(now, key) == (if op.Put? && op.key == key then Some(op) else LastPut(ops, key))
            && UsedSince(now, key) == (if !Uses(l, op) then UsedSince(ops, key)
                                       else if op.key == key then {} else UsedSince(ops, key) + {op.key})
  {
    var now := ops + [op];
    assert now[..|now| - 1] == ops && now[|now| - 1] == op;
    hide Step, Uses;
  }

  /** A list whose order strictly decreases by last use has no key twice. */
  lemma OrderedIsDistinct(ops: seq<Op>, l: seq<Entry>)
    requires Faithful(ops, l)
    ensures Distinct(l)
  {
    hide IsLastPut;
    forall i, j | 0 <= i < j < |l| ensures l[i].key != l[j].key {
      assert LastUse(ops, l[i].key) > LastUse(ops, l[j].key);
    }
  }

  lemma {:induction false} AlwaysFaithful(ops: seq<Op>)
    ensures Faithful(ops, Run(ops))
    decreases |ops|
  {
    if ops != [] {
      var prev, op := ops[..|ops| - 1], ops[|ops| - 1];
      assert prev + [op] == ops;
      hide *;
      AlwaysFaithful(prev);
      StepFaithful(prev, op);
    }
  }

  /** Dropping entries keeps the rest in order. */
  lemma DropKeeps(ops: seq<Op>, l: seq<Entry>, p: nat)
    requires Faithful(ops, l) && p < |l|
    ensures Faithful(ops, Without(l, p)) && Faithful(ops, l[..p])
    ensures forall i :: 0 <= i < |l| - 1 ==> Without(l, p)[i].key != l[p].key
  {
    OrderedIsDistinct(ops, l);
    hide LastUse, IsLastPut;
  }

  /** An operation that uses nothing changes no order. */
  lemma QuietKeeps(ops: seq<Op>, op: Op, l: seq<Entry>)
    requires Faithful(ops, l) && !Uses(Run(ops), op)
    ensures Faithful(ops + [op], l)
  {
    forall k ensures LastUse(ops + [op], k) == LastUse(ops, k) && LastPut(ops + [op], k) == LastPut(ops, k) {
      Snoc(ops, op, k);
    }
    hide LastUse, LastPut, Run;
  }

  /** The entry just used goes before all others. */
  lemma FrontKeeps(ops: seq<Op>, op: Op, e: Entry, rest: seq<Entry>)
    requires Faithful(ops, rest) && |rest| < MAX_ENTRIES && Uses(Run(ops), op)
    requires e.key == op.key && forall i :: 0 <= i < |rest| ==> rest[i].key != op.key
    requires if op.Put? then e == Entry(op.key, op.res, op.now + TTL) else IsLastPut(ops, e)
    ensures Faithful(ops + [op], [e] + rest)
  {
    var now := ops + [op];
    Snoc(ops, op, op.key);
    forall i | 0 <= i < |rest|
      ensures IsLastPut(now, rest[i]) && LastUse(now, rest[i].key) == LastUse(ops, rest[i].key)
    {
      Snoc(ops, op, rest[i].key);
      hide LastUse, LastPut, Run;
    }
    assert IsLastPut(now, e) by {
      hide LastUse, Run;
    }
    hide *;
    AssembleFaithful(ops, now, e, rest);
  }

  lemma AssembleFaithful(ops: seq<Op>, now: seq<Op>, e: Entry, rest: seq<Entry>)
    requires Faithful(ops, rest) && |rest| < MAX_ENTRIES && IsLastPut(now, e) && LastUse(now, e.key) >= |ops|
    requires forall i :: 0 <= i < |rest| ==> IsLastPut(now, rest[i]) && LastUse(now, rest[i].key) == LastUse(ops, rest[i].key)
    ensures Faithful(now, [e] + rest)
  {
    hide LastUse, IsLastPut;
    var l := [e] + rest;
    assert forall i :: 0 < i < |l| ==> l[i] == rest[i - 1] && LastUse(now, l[i].key) == LastUse(ops, rest[i - 1].key);
    forall i, j | 0 <= i < j < |l| ensures LastUse(now, l[i].key) > LastUse(now, l[j].key) {
      if i > 0 {
        assert LastUse(ops, rest[i - 1].key) > LastUse(ops, rest[j - 1].key);
      }
    }
  }

  lemma StepFaithful(ops: seq<Op>, op: Op)
    requires Faithful(ops, Run(ops))
    ensures Faithful(ops + [op], Run(ops + [op]))
  {
    Snoc(ops, op, op.key);
    var l := Run(ops);
    var p := Position(l, op.key);
    hide LastUse, LastPut, Run, Faithful, Position;
    if p.Some? {
      DropKeeps(ops, l, p.value);
      if Uses(l, op) {
        var e := if op.Put? then Entry(op.key, op.res, op.now + TTL) else l[p.value];
        assert op.Get? ==> IsLastPut(ops, e) by { FaithfulAt(ops, l, p.value); }
        FaithfulAt(ops, l, p.value);
        FrontKeeps(ops, op, e, Without(l, p.value));
      } else {
        QuietKeeps(ops, op, Without(l, p.value));
      }
    } else if op.Put? {
      assert forall i :: 0 <= i < |l| ==> Keys(l)[i] == l[i].key && Keys(l)[i] != op.key;
      var e := Entry(op.key, op.res, op.now + TTL);
      LengthBounded(ops, l);
      if |l| < MAX_ENTRIES {
        FrontKeeps(ops, op, e, l);
      } else {
        var q := MAX_ENTRIES - 1;
        DropKeeps(ops, l, q);
        FrontKeeps(ops, op, e, l[..q]);
        assert ([e] + l)[..MAX_ENTRIES] == [e] + l[..q];
      }
    } else {
      QuietKeeps(ops, op, l);
    }
  }

  lemma FaithfulAt(ops: seq<Op>, l: seq<Entry>, i: nat)
    requires Faithful(ops, l) && i < |l|
    ensures IsLastPut(ops, l[i]) && |l| <= MAX_ENTRIES
  {
  }

  lemma LengthBounded(ops: seq<Op>, l: seq<Entry>)
    requires Faithful(ops, l)
    ensures |l| <= MAX_ENTRIES
  {
  }

  // ----- What is kept and what goes -----

  predicate Holds(l: seq<Entry>, key: string) {
    exists i :: 0 <= i < |l| && l[i].key == key
  }

  lemma HoldsIsPosition(l: seq<Entry>, key: string)
    ensures Holds(l, key) <==> Position(l, key).Some?
  {
    var p := Position(l, key);
    if Holds(l, key) {
      var i :| 0 <= i < |l| && l[i].key == key;
      assert Keys(l)[i] == key;
    }
  }

  /** The one entry a step pushes out: the last of a full list, when a new key
      is put. */
  predicate PushedOut(l: seq<Entry>, op: Op, key: string) {
    op.Put? && !Holds(l, op.key) && |l| == MAX_ENTRIES && l[MAX_ENTRIES - 1].key == key
  }

  lemma OthersAfter(l: seq<Entry>, op: Op, key: string)
    requires Distinct(l) && |l| <= MAX_ENTRIES && key != op.key
    ensures Holds(Step(l, op), key) <==> Holds(l, key) && !PushedOut(l, op, key)
  {
    HoldsIsPosition(l, op.key);
    var p, r := Position(l, op.key), Step(l, op);
    hide Position;
    if p.Some? {
      var w := Without(l, p.value);
      assert Holds(w, key) <==> Holds(l, key) by {
        if Holds(l, key) {
          var i :| 0 <= i < |l| && l[i].key == key;
          assert w[if i < p.value then i else i - 1].key == key;
        }
      }
      FrontHolds(l[p.value], w, key);
      if op.Put? {
        FrontHolds(Entry(op.key, op.res, op.now + TTL), w, key);
      }
    } else if op.Put? {
      var e := Entry(op.key, op.res, op.now + TTL);
      FrontHolds(e, l, key);
      if |l| == MAX_ENTRIES {
        var q := MAX_ENTRIES - 1;
        assert r == [e] + l[..q];
        FrontHolds(e, l[..q], key);
        assert Holds(l[..q], key) <==> Holds(l, key) && l[q].key != key by {
          if Holds(l, key) {
            var i :| 0 <= i < |l| && l[i].key == key;
            assert i < q ==> l[..q][i].key == key;
          }
          if Holds(l[..q], key) {
            var i :| 0 <= i < q && l[..q][i].key == key;
            assert l[i].key == key;
          }
        }
      }
    }
  }

  lemma FrontHolds(e: Entry, l: seq<Entry>, key: string)
    ensures Holds([e] + l, key) <==> e.key == key || Holds(l, key)
  {
    var r := [e] + l;
    assert r[0] == e && forall i :: 0 <= i < |l| ==> r[i + 1] == l[i];
  }

  lemma SelfAfter(l: seq<Entry>, op: Op)
    requires Distinct(l)
    ensures Holds(Step(l, op), op.key) <==> Uses(l, op)
  {
    var p := Position(l, op.key);
    var r := Step(l, op);
    if Uses(l, op) {
      assert r[0].key == op.key;
    } else {
      HoldsIsPosition(l, op.key);
    }
    hide Position;
  }

  /** A hit is the key's last put, not yet expired; never more than 512 entries
      are held, no key twice. */
  lemma HitIsLastPut(ops: seq<Op>, key: string, now: int)
    ensures |Run(ops)| <= MAX_ENTRIES && Distinct(Run(ops))
    ensures var a := Answer(Run(ops), key, now);
            a.Some? ==> LastPut(ops, key).Some? && LastPut(ops, key).value.res == a.value && now <= LastPut(ops, key).value.now + TTL
  {
    AlwaysFaithful(ops);
    OrderedIsDistinct(ops, Run(ops));
    hide LastUse, LastPut, Run;
  }

  /** Eviction: an entry disappears through an operation on another key only
      when that puts a new key into a full list, and then it is the one whose
      last use is oldest. */
  lemma EvictsLeastRecent(ops: seq<Op>, op: Op, key: string, other: string)
    requires key != op.key && Holds(Run(ops), key) && !Holds(Run(ops + [op]), key)
    ensures op.Put? && !Holds(Run(ops), op.key) && |Run(ops)| == MAX_ENTRIES
    ensures Holds(Run(ops), other) && other != key ==> LastUse(ops, key) < LastUse(ops, other)
  {
    AlwaysFaithful(ops);
    OrderedIsDistinct(ops, Run(ops));
    Snoc(ops, op, key);
    OthersAfter(Run(ops), op, key);
    hide LastUse, LastPut, Run, Step, IsLastPut;
  }

  lemma {:induction false} UsedLater(ops: seq<Op>, key: string, other: string)
    requires LastUse(ops, other) > LastUse(ops, key)
    ensures other in UsedSince(ops, key)
    decreases |ops|
  {
    if ops != [] {
      var prev, op := ops[..|ops| - 1], ops[|ops| - 1];
      assert prev + [op] == ops;
      Snoc(prev, op, key);
      Snoc(prev, op, other);
      hide LastUse, UsedSince, Run, Uses;
      if LastUse(prev, other) > LastUse(prev, key) {
        UsedLater(prev, key, other);
      }
    }
  }

  /** The last entry of a full list has had 511 other keys used since. */
  lemma LastOfFullList(ops: seq<Op>, key: string)
    requires |Run(ops)| == MAX_ENTRIES && Run(ops)[MAX_ENTRIES - 1].key == key
    ensures forall i :: 0 <= i < MAX_ENTRIES - 1 ==> Run(ops)[i].key in UsedSince(ops, key)
  {
    AlwaysFaithful(ops);
    hide LastUse, UsedSince, Run, IsLastPut;
    forall i | 0 <= i < MAX_ENTRIES - 1 ensures Run(ops)[i].key in UsedSince(ops, key) {
      UsedLater(ops, key, Run(ops)[i].key);
    }
  }

  lemma {:induction false} DistinctCount(l: seq<Entry>, n: nat, s: set<string>)
    requires Distinct(l) && n <= |l| && forall i :: 0 <= i < n ==> l[i].key in s
    ensures |s| >= n
  {
    if n > 0 {
      DistinctCount(l, n - 1, s - {l[n - 1].key});
    }
  }

  /** Pushing a key out takes 512 other keys. */
  lemma PushingOutTakesMany(ops: seq<Op>, op: Op, key: string)
    requires PushedOut(Run(ops), op, key) && key != op.key
    ensures |UsedSince(ops + [op], key)| >= MAX_ENTRIES
  {
    var l, q := Run(ops), MAX_ENTRIES - 1;
    Snoc(ops, op, key);
    LastOfFullList(ops, key);
    HitIsLastPut(ops, key, 0);
    hide LastUse, LastPut, UsedSince, Run, Step;
    assert op.key !in (set i | 0 <= i < |l| :: l[i].key);
    DistinctCount(l, q, UsedSince(ops, key) - {op.key});
    assert UsedSince(ops + [op], key) == UsedSince(ops, key) - {op.key} + {op.key};
  }

  lemma SnocLive(ops: seq<Op>, op: Op, key: string)
    ensures var now := ops + [op];
            && Live(now, key) == (if op.key != key then Live(ops, key) else if op.Put? then true
                                  else Live(ops, key) && LastPut(ops, key).Some? && op.now <= LastPut(ops, key).value.now + TTL)
            && Sheltered(now, key) == ((op.Put? && op.key == key) || (Sheltered(ops, key) && |UsedSince(now, key)| < MAX_ENTRIES))
  {
    var now := ops + [op];
    assert now[..|now| - 1] == ops && now[|now| - 1] == op;
    hide LastPut, UsedSince, Run;
  }

  /** The working-set guarantee: while fewer than 512 other keys are used
      between its uses, a key is held exactly if it was put and never asked for
      after its expiry since. */
  lemma {:induction false} HeldIffLive(ops: seq<Op>, key: string)
    requires Sheltered(ops, key)
    ensures Holds(Run(ops), key) <==> Live(ops, key)
    decreases |ops|
  {
    if ops != [] {
      var prev, op := ops[..|ops| - 1], ops[|ops| - 1];
      assert prev + [op] == ops;
      hide *;
      Snoc(prev, op, key);
      SnocLive(prev, op, key);
      if op.Put? && op.key == key {
        HitIsLastPut(prev, key, 0);
        SelfAfter(Run(prev), op);
        UsesPut(Run(prev), op);
      } else {
        HeldIffLive(prev, key);
        HeldStep(prev, op, key);
      }
    }
  }

  lemma UsesPut(l: seq<Entry>, op: Op)
    requires op.Put?
    ensures Uses(l, op)
  {
  }

  lemma HeldStep(ops: seq<Op>, op: Op, key: string)
    requires !(op.Put? && op.key == key)
    requires |UsedSince(ops + [op], key)| < MAX_ENTRIES
    requires Holds(Run(ops), key) <==> Live(ops, key)
    ensures Holds(Run(ops + [op]), key) <==> Live(ops + [op], key)
  {
    Snoc(ops, op, key);
    SnocLive(ops, op, key);
    var l := Run(ops);
    HitIsLastPut(ops, key, 0);
    if op.key != key {
      OthersAfter(l, op, key);
      if PushedOut(l, op, key) {
        PushingOutTakesMany(ops, op, key);
      }
      hide *;
    } else {
      SelfAfter(l, op);
      AnswerIff(ops, key, op.now);
      hide *;
    }
  }

  /** An answer is given exactly for a held key that has not expired. */
  lemma AnswerIff(ops: seq<Op>, key: string, now: int)
    ensures Uses(Run(ops), Get(key, now)) <==> Holds(Run(ops), key) && LastPut(ops, key).Some? && now <= LastPut(ops, key).value.now + TTL
  {
    HoldsIsPosition(Run(ops), key);
    AlwaysFaithful(ops);
    hide LastUse, LastPut, Run, Position, Holds;
  }

  // ----- What the router lets in and out -----

  datatype Request = Request(key: string, cacheable: bool)

  datatype Event =
    | Asked(enabled: bool, req: Request, now: int)
    | Answered(req: Request, res: Option<Result>, now: int)

  predicate Keepable(req: Request, res: Option<Result>) {
    res.Some? && res.value.success && res.value.toolCalls == [] && req.cacheable
  }

  function OpsOf(e: Event): seq<Op> {
    match e
    case Asked(enabled, req, now) => if enabled && req.cacheable then [Get(req.key, now)] else []
    case Answered(req, res, now) => if Keepable(req, res) then [Put(req.key, res.value, now)] else []
  }

  function AllOps(events: seq<Event>): seq<Op> {
    if events == [] then [] else AllOps(events[..|events| - 1]) + OpsOf(events[|events| - 1])
  }

  /** What `cacheGet` returns after the given events. */
  function Replayed(events: seq<Event>, enabled: bool, req: Request, now: int): Option<Result> {
    if !enabled || !req.cacheable then None
    else
      match Answer(Run(AllOps(events)), req.key, now)
      case None => None
      case Some(res) => Some(res.(cached := true))
  }

  lemma {:induction false} PutsComeFromAnswers(events: seq<Event>, op: Op)
    requires op in AllOps(events) && op.Put?
    ensures exists i :: 0 <= i < |events| && events[i].Answered? && events[i].now == op.now && events[i].req == Request(op.key, true)
              && events[i].res == Some(op.res) && op.res.success && op.res.toolCalls == []
    decreases |events|
  {
    var n := |events| - 1;
    if op in OpsOf(events[n]) {
      assert events[n].req == Request(op.key, true);
    } else {
      PutsComeFromAnswers(events[..n], op);
      var i :| 0 <= i < n && events[..n][i].Answered? && events[..n][i].now == op.now && events[..n][i].req == Request(op.key, true)
        && events[..n][i].res == Some(op.res);
      assert events[i] == events[..n][i];
    }
  }

  /** A cacheable request while the cache is enabled asks for its key, and a good
      answer to a cacheable request fills it. */
  predicate Causes(e: Event, op: Op) {
    match op
    case Get(key, now) => e == Asked(true, Request(key, true), now)
    case Put(key, res, now) => e == Answered(Request(key, true), Some(res), now) && res.success && res.toolCalls == []
  }

  function Causing(events: seq<Event>, op: Op): set<int> {
    set i | 0 <= i < |events| && Causes(events[i], op)
  }

  /** The cache is used exactly so, and once each time. */
  lemma {:induction false} UsesAreThose(events: seq<Event>, op: Op)
    ensures multiset(AllOps(events))[op] == |Causing(events, op)|
    decreases |events|
  {
    hide Causes, OpsOf;
    if events != [] {
      var n := |events| - 1;
      UsesAreThose(events[..n], op);
      OneUse(events[n], op);
      CausingNext(events, op);
      assert AllOps(events) == AllOps(events[..n]) + OpsOf(events[n]);
      hide Causing, AllOps;
    }
  }

  lemma CausingNext(events: seq<Event>, op: Op)
    requires events != []
    ensures var n := |events| - 1;
            |Causing(events, op)| == |Causing(events[..n], op)| + if Causes(events[n], op) then 1 else 0
  {
    hide Causes;
    var n := |events| - 1;
    assert forall i :: 0 <= i < n ==> events[..n][i] == events[i];
    assert Causing(events, op) == Causing(events[..n], op) + if Causes(events[n], op) then {n} else {};
  }

  lemma OneUse(e: Event, op: Op)
    ensures multiset(OpsOf(e))[op] == if Causes(e, op) then 1 else 0
  {
  }

  /** Only good answers are replayed: a successful one without tool calls, given
      at most 24 hours ago to a request with the same key. */
  lemma ReplaysAGoodAnswer(events: seq<Event>, enabled: bool, req: Request, now: int)
    requires Replayed(events, enabled, req, now).Some?
    ensures exists i :: 0 <= i < |events| && events[i].Answered? && events[i].req == req && now <= events[i].now + TTL
              && events[i].res.Some? && events[i].res.value.success && events[i].res.value.toolCalls == []
              && Replayed(events, enabled, req, now) == Some(events[i].res.value.(cached := true))
  {
    HitIsLastPut(AllOps(events), req.key, now);
    PutsComeFromAnswers(events, LastPut(AllOps(events), req.key).value);
    hide LastPut, Run, AllOps;
  }

  // ----- The cache object -----

  /** List and map agree: distinct elements, and a key leads to an element
      exactly when that element is on the list and holds the key. */
  ghost predicate Agree(ll: seq<int>, element: map<int, Entry>, entries: map<string, int>, next: int) {
    NoTwice(ll) && Elements(ll, element) && ListOk(ll, element, entries, next) && MapOk(ll, element, entries)
  }

  ghost predicate NoTwice(ll: seq<int>) {
    forall i, j :: 0 <= i < j < |ll| ==> ll[i] != ll[j]
  }

  predicate Elements(ll: seq<int>, element: map<int, Entry>) {
    forall i :: 0 <= i < |ll| ==> ll[i] in element
  }

  ghost predicate ListOk(ll: seq<int>, element: map<int, Entry>, entries: map<string, int>, next: int)
    requires Elements(ll, element)
  {
    forall i :: 0 <= i < |ll| ==> ll[i] < next && Find(entries, element[ll[i]].key) == Some(ll[i])
  }

  ghost predicate MapOk(ll: seq<int>, element: map<int, Entry>, entries: map<string, int>) {
    forall k :: k in entries ==> entries[k] in ll && entries[k] in element && element[entries[k]].key == k
  }

  function Along(ll: seq<int>, element: map<int, Entry>): (r: seq<Entry>)
    requires Elements(ll, element)
    ensures |r| == |ll| && forall i :: 0 <= i < |ll| ==> r[i] == element[ll[i]]
  {
    seq(|ll|, i requires 0 <= i < |ll| => element[ll[i]])
  }

  function PlaceOf(ll: seq<int>, el: int): (p: nat)
    requires el in ll
    ensures p < |ll| && ll[p] == el
  {
    if ll[0] == el then 0 else 1 + PlaceOf(ll[1..], el)
  }

  function Removed(ll: seq<int>, el: int): seq<int>
    requires el in ll
  {
    ll[..PlaceOf(ll, el)] + ll[PlaceOf(ll, el) + 1..]
  }

  lemma {:induction false} PositionIs(l: seq<Entry>, p: nat)
    requires Distinct(l) && p < |l|
    ensures Position(l, l[p].key) == Some(p)
  {
    if p < |l| - 1 {
      PositionIs(l[..|l| - 1], p);
    }
  }

  lemma AlongDistinct(ll: seq<int>, element: map<int, Entry>, entries: map<string, int>, next: int)
    requires Agree(ll, element, entries, next)
    ensures Distinct(Along(ll, element))
  {
    hide MapOk;
    var l := Along(ll, element);
    forall i, j | 0 <= i < j < |l| ensures l[i].key != l[j].key {
      assert ll[i] != ll[j];
    }
  }

  lemma Located(ll: seq<int>, element: map<int, Entry>, entries: map<string, int>, next: int, key: string)
    requires Agree(ll, element, entries, next)
    ensures Distinct(Along(ll, element))
    ensures key in entries ==>
              && entries[key] in ll && entries[key] in element && element[entries[key]].key == key
              && Along(ll, element)[PlaceOf(ll, entries[key])] == element[entries[key]]
    ensures Position(Along(ll, element), key) == if key in entries then Some(PlaceOf(ll, entries[key])) else None
  {
    AlongDistinct(ll, element, entries, next);
    var l := Along(ll, element);
    hide PlaceOf, Position, Distinct, NoTwice;
    if key in entries {
      PositionIs(l, PlaceOf(ll, entries[key]));
    } else {
      forall i | 0 <= i < |l| ensures Keys(l)[i] != key {
        assert Find(entries, element[ll[i]].key) == Some(ll[i]);
      }
      assert key !in Keys(l);
    }
  }

  /** Where each element of the shortened list was. */
  function Before(p: nat, i: nat): nat {
    if i < p then i else i + 1
  }

  lemma RemovedIs(ll: seq<int>, el: int)
    requires el in ll && NoTwice(ll)
    ensures var p, r := PlaceOf(ll, el), Removed(ll, el);
            |r| == |ll| - 1 && forall i :: 0 <= i < |r| ==> r[i] == ll[Before(p, i)]
    ensures forall x :: x in ll && x != el ==> x in Removed(ll, el)
    ensures NoTwice(Removed(ll, el)) && el !in Removed(ll, el)
  {
    var p, r := PlaceOf(ll, el), Removed(ll, el);
    hide PlaceOf;
    forall x | x in ll && x != el ensures x in r {
      var i :| 0 <= i < |ll| && ll[i] == x;
      assert r[if i < p then i else i - 1] == x;
    }
  }

  lemma AlongWithout(ll: seq<int>, element: map<int, Entry>, el: int)
    requires el in ll && NoTwice(ll) && Elements(ll, element)
    ensures Elements(Removed(ll, el), element)
    ensures Along(Removed(ll, el), element) == Without(Along(ll, element), PlaceOf(ll, el))
  {
    RemovedIs(ll, el);
    hide PlaceOf, NoTwice, Removed;
  }

  lemma AgreeWithout(ll: seq<int>, element: map<int, Entry>, entries: map<string, int>, next: int, el: int)
    requires Agree(ll, element, entries, next) && el in ll
    ensures el in element && Agree(Removed(ll, el), element, entries - {element[el].key}, next)
    ensures Along(Removed(ll, el), element) == Without(Along(ll, element), PlaceOf(ll, el))
    ensures el !in Removed(ll, el)
  {
    RemovedIs(ll, el);
    AlongWithout(ll, element, el);
    var p, r := PlaceOf(ll, el), Removed(ll, el);
    hide PlaceOf, Removed, NoTwice, Along, Find;
    assert el in element && Find(entries, element[el].key) == Some(el);
    ListWithout(ll, element, entries, next, el, p, r);
    MapWithout(ll, element, entries, el, r);
    hide ListOk, MapOk;
  }

  lemma ListWithout(ll: seq<int>, element: map<int, Entry>, entries: map<string, int>, next: int, el: int, p: nat, r: seq<int>)
    requires Elements(ll, element) && Elements(r, element) && ListOk(ll, element, entries, next) && el in element
    requires |r| == |ll| - 1 && (forall i :: 0 <= i < |r| ==> r[i] == ll[Before(p, i)]) && el !in r
    requires Find(entries, element[el].key) == Some(el)
    ensures ListOk(r, element, entries - {element[el].key}, next)
  {
    hide Find;
    var left := entries - {element[el].key};
    forall i | 0 <= i < |r| ensures r[i] < next && Find(left, element[r[i]].key) == Some(r[i]) {
      var j := Before(p, i);
      assert Find(entries, element[ll[j]].key) == Some(ll[j]);
      FindIn(entries, element[el].key, element[r[i]].key);
      assert r[i] in r && r[i] != el;
    }
  }

  lemma MapWithout(ll: seq<int>, element: map<int, Entry>, entries: map<string, int>, el: int, r: seq<int>)
    requires MapOk(ll, element, entries) && el in element && (forall x :: x in ll && x != el ==> x in r)
    ensures MapOk(r, element, entries - {element[el].key})
  {
    var left := entries - {element[el].key};
    forall k | k in left ensures left[k] in r && left[k] in element && element[left[k]].key == k {
      assert k in entries && k != element[el].key;
      assert entries[k] in ll && entries[k] != el;
    }
  }

  lemma FindIn(m: map<string, int>, gone: string, k: string)
    ensures Find(m - {gone}, k) == if k == gone then None else Find(m, k)
  {
  }

  lemma AgreeFront(ll: seq<int>, element: map<int, Entry>, entries: map<string, int>, next: int, el: int, e: Entry)
    requires Agree(ll, element, entries, next) && el !in ll && el < next && e.key !in entries
    ensures Agree([el] + ll, element[el := e], entries[e.key := el], next)
    ensures Along([el] + ll, element[el := e]) == [e] + Along(ll, element)
  {
    var r, element' := [el] + ll, element[el := e];
    assert r[0] == el && forall i :: 0 < i < |r| ==> r[i] == ll[i - 1] && r[i] in ll;
    assert NoTwice(r) && Elements(r, element') by {
      hide ListOk, MapOk;
    }
    assert Along(r, element') == [e] + Along(ll, element) by {
      hide ListOk, MapOk, NoTwice;
    }
    ListFront(ll, element, entries, next, el, e);
    MapFront(ll, element, entries, el, e);
    hide ListOk, MapOk, NoTwice;
  }

  lemma ListFront(ll: seq<int>, element: map<int, Entry>, entries: map<string, int>, next: int, el: int, e: Entry)
    requires Elements(ll, element) && ListOk(ll, element, entries, next) && el !in ll && el < next && e.key !in entries
    ensures var r := [el] + ll;
            Elements(r, element[el := e]) && ListOk(r, element[el := e], entries[e.key := el], next)
  {
    var r := [el] + ll;
    assert r[0] == el && forall i :: 0 < i < |r| ==> r[i] == ll[i - 1] && r[i] in ll;
  }

  lemma MapFront(ll: seq<int>, element: map<int, Entry>, entries: map<string, int>, el: int, e: Entry)
    requires MapOk(ll, element, entries) && el !in ll
    ensures MapOk([el] + ll, element[el := e], entries[e.key := el])
  {
    var r := [el] + ll;
    assert r[0] == el && forall x :: x in ll ==> x in r;
  }

  /** Moving an element to the front, with a value for the same key. */
  lemma AgreeMove(ll: seq<int>, element: map<int, Entry>, entries: map<string, int>, next: int, e: Entry)
    requires Agree(ll, element, entries, next) && e.key in entries
    ensures var el := entries[e.key];
            && el in ll && Agree([el] + Removed(ll, el), element[el := e], entries, next)
            && Along([el] + Removed(ll, el), element[el := e]) == [e] + Without(Along(ll, element), PlaceOf(ll, el))
  {
    var el := entries[e.key];
    assert el in ll && el < next && el in element && element[el].key == e.key;
    AgreeWithout(ll, element, entries, next, el);
    hide PlaceOf, Removed, Along, ListOk, MapOk, NoTwice;
    AgreeFront(Removed(ll, el), element, entries - {e.key}, next, el, e);
    assert (entries - {e.key})[e.key := el] == entries;
  }

  /** Removing the last element. */
  lemma AgreeBack(ll: seq<int>, element: map<int, Entry>, entries: map<string, int>, next: int)
    requires Agree(ll, element, entries, next) && ll != []
    ensures var n := |ll| - 1;
            && ll[n] in element && Agree(ll[..n], element, entries - {element[ll[n]].key}, next)
            && Along(ll[..n], element) == Along(ll, element)[..n]
  {
    var n := |ll| - 1;
    AgreeWithout(ll, element, entries, next, ll[n]);
    assert PlaceOf(ll, ll[n]) == n && Removed(ll, ll[n]) == ll[..n] by {
      hide PlaceOf, Along, ListOk, MapOk;
      assert ll[PlaceOf(ll, ll[n])] == ll[n];
    }
    hide PlaceOf, Removed, ListOk, MapOk, NoTwice;
  }

  lemma GetIs(l: seq<Entry>, key: string, now: int)
    ensures var p := Position(l, key);
            if p.None? then Step(l, Get(key, now)) == l && Answer(l, key, now) == None
            else if now > l[p.value].exp then Step(l, Get(key, now)) == Without(l, p.value) && Answer(l, key, now) == None
            else Step(l, Get(key, now)) == [l[p.value]] + Without(l, p.value) && Answer(l, key, now) == Some(l[p.value].res)
  {
    hide Position;
  }

  /** A get, in terms of the list and the map. */
  lemma GetHere(ll: seq<int>, element: map<int, Entry>, entries: map<string, int>, next: int, key: string, now: int)
    requires Agree(ll, element, entries, next)
    ensures var l := Along(ll, element);
            if key !in entries then Step(l, Get(key, now)) == l && Answer(l, key, now) == None
            else
              var el := entries[key];
              && el in ll && el in element && element[el].key == key && PlaceOf(ll, el) < |l|
              && if now > element[el].exp then
                   Step(l, Get(key, now)) == Without(l, PlaceOf(ll, el)) && Answer(l, key, now) == None
                 else
                   Step(l, Get(key, now)) == [element[el]] + Without(l, PlaceOf(ll, el)) && Answer(l, key, now) == Some(element[el].res)
  {
    Located(ll, element, entries, next, key);
    GetIs(Along(ll, element), key, now);
    hide Agree, PlaceOf, Step, Answer, Position;
  }

  lemma PutIs(l: seq<Entry>, key: string, res: Result, now: int)
    requires |l| <= MAX_ENTRIES
    ensures var p, e, r := Position(l, key), Entry(key, res, now + TTL), Step(l, Put(key, res, now));
            && |r| <= MAX_ENTRIES
            && r == (if p.Some? then [e] + Without(l, p.value) else ([e] + l)[..if |l| < MAX_ENTRIES then |l| + 1 else MAX_ENTRIES])
  {
    hide Position;
    var e := Entry(key, res, now + TTL);
    assert ([e] + l)[..|l| + 1] == [e] + l;
  }

  /** `responseCache`: a list of element ids, the element under each id, and the
      id of each key. */
  class ResponseCache {
    var ll: seq<int>
    var element: map<int, Entry>
    var entries: map<string, int>
    var nextElement: int
    var hits: nat
    var misses: nat

    constructor ()
      ensures Valid() && Contents() == [] && hits == 0 && misses == 0
    {
      ll, element, entries, nextElement, hits, misses := [], map[], map[], 0, 0, 0;
    }

    ghost predicate Valid()
      reads this
    {
      Agree(ll, element, entries, nextElement)
    }

    ghost function Contents(): seq<Entry>
      reads this
      requires Valid()
    {
      Along(ll, element)
    }

    method Get(key: string, now: int) returns (res: Option<Result>)
      requires Valid()
      modifies this
      ensures Valid() && Contents() == Step(old(Contents()), Op.Get(key, now))
      ensures res == Answer(old(Contents()), key, now)
      ensures hits == old(hits) + (if res.Some? then 1 else 0) && misses == old(misses) + (if res.Some? then 0 else 1)
    {
      hide Agree, Along, Step, Answer;
      res := Take(key, now);
      if res.None? {
        misses := misses + 1;
      } else {
        hits := hits + 1;
      }
    }

    /** The lookup of `get`, without its counters. */
    method Take(key: string, now: int) returns (res: Option<Result>)
      requires Valid()
      modifies this`ll, this`element, this`entries
      ensures Valid() && Contents() == Step(old(Contents()), Op.Get(key, now))
      ensures res == Answer(old(Contents()), key, now)
    {
      GetHere(ll, element, entries, nextElement, key, now);
      hide *;
      if key !in entries {
        return None;
      }
      var entry := element[entries[key]];
      if now > entry.exp {
        Forget(key);
        return None;
      }
      MoveToFront(entry);
      res := Some(entry.res);
    }

    method Forget(key: string)
      requires Valid() && key in entries
      modifies this`ll, this`entries
      ensures Valid() && entries == old(entries) - {key}
      ensures old(entries[key]) in old(ll) && Contents() == Without(old(Contents()), PlaceOf(old(ll), old(entries[key])))
    {
      var el := entries[key];
      assert el in ll && element[el].key == key;
      AgreeWithout(ll, element, entries, nextElement, el);
      hide PlaceOf, Agree, Removed, Along;
      ll := Removed(ll, el);
      entries := entries - {key};
    }

    /** Puts a value into its key's element and moves the element to the front. */
    method MoveToFront(entry: Entry)
      requires Valid() && entry.key in entries
      modifies this`ll, this`element
      ensures Valid()
      ensures entries[entry.key] in old(ll) && Contents() == [entry] + Without(old(Contents()), PlaceOf(old(ll), entries[entry.key]))
    {
      var el := entries[entry.key];
      AgreeMove(ll, element, entries, nextElement, entry);
      hide PlaceOf, Agree, Removed, Along;
      element := element[el := entry];
      ll := [el] + Removed(ll, el);
    }

    method Put(key: string, res: Result, now: int)
      requires Valid() && |Contents()| <= MAX_ENTRIES
      modifies this
      ensures Valid() && Contents() == Step(old(Contents()), Op.Put(key, res, now)) && |Contents()| <= MAX_ENTRIES
      ensures hits == old(hits) && misses == old(misses)
    {
      var entry := Entry(key, res, now + TTL);
      Located(ll, element, entries, nextElement, key);
      PutIs(Contents(), key, res, now);
      if key in entries {
        hide PlaceOf, Agree, Position, Along, Step;
        MoveToFront(entry);
        return;
      }
      hide *;
      PushFront(entry);
      EvictExcess();
    }

    /** The eviction loop. */
    method EvictExcess()
      requires Valid()
      modifies this`ll, this`entries
      ensures Valid()
      ensures Contents() == old(Contents())[..if old(|Contents()|) < MAX_ENTRIES then old(|Contents()|) else MAX_ENTRIES]
    {
      hide Agree, Along;
      ghost var n := |Contents()|;
      assert Contents()[..n] == Contents() && n == |ll| by {
        SameLength();
      }
      while |ll| > MAX_ENTRIES
        invariant Valid() && |ll| <= n && Contents() == old(Contents())[..|ll|]
        invariant |ll| == n || |ll| >= MAX_ENTRIES
        decreases |ll|
      {
        EvictBack();
      }
    }

    lemma SameLength()
      requires Valid()
      ensures |Contents()| == |ll|
    {
    }

    method PushFront(entry: Entry)
      requires Valid() && entry.key !in entries
      modifies this`ll, this`element, this`entries, this`nextElement
      ensures Valid() && Contents() == [entry] + old(Contents()) && |ll| == old(|ll|) + 1 == |Contents()|
    {
      var el := nextElement;
      AgreeFront(ll, element, entries, nextElement + 1, el, entry);
      hide Along;
      nextElement := nextElement + 1;
      element := element[el := entry];
      ll := [el] + ll;
      entries := entries[entry.key := el];
    }

    method EvictBack()
      requires Valid() && ll != []
      modifies this`ll, this`entries
      ensures Valid() && |Contents()| == |ll| == old(|ll|) - 1 && old(|Contents()|) == old(|ll|) && Contents() == old(Contents())[..|ll|]
    {
      var old' := ll[|ll| - 1];
      AgreeBack(ll, element, entries, nextElement);
      entries := entries - {element[old'].key};
      ll := ll[..|ll| - 1];
    }

    /** Hits, misses and size. */
    method Stats() returns (h: nat, m: nat, size: nat)
      requires Valid()
      ensures h == hits && m == misses && size == |Contents()|
    {
      h, m, size := hits, misses, |ll|;
    }

    method CacheGet(enabled: bool, req: Request, now: int) returns (res: Option<Result>)
      requires Valid()
      modifies this
      ensures Valid()
      ensures OpsOf(Asked(enabled, req, now)) == [] ==> Contents() == old(Contents()) && res == None
      ensures OpsOf(Asked(enabled, req, now)) != [] ==>
                && Contents() == Step(old(Contents()), Op.Get(req.key, now))
                && var a := Answer(old(Contents()), req.key, now);
                   res == if a.None? then None else Some(a.value.(cached := true))
    {
      if !enabled || !req.cacheable {
        return None;
      }
      res := Get(req.key, now);
      if res.Some? {
        res := Some(res.value.(cached := true));
      }
    }

    method CachePut(req: Request, res: Option<Result>, now: int)
      requires Valid() && |Contents()| <= MAX_ENTRIES
      modifies this
      ensures Valid() && |Contents()| <= MAX_ENTRIES
      ensures Contents() == if OpsOf(Answered(req, res, now)) == [] then old(Contents())
                            else Step(old(Contents()), OpsOf(Answered(req, res, now))[0])
    {
      if res.None? || !res.value.success || |res.value.toolCalls| > 0 || !req.cacheable {
        return;
      }
      Put(req.key, res.value, now);
    }
  }
}