/** The retry and failover driver shared by the plain and the streaming call. */
module RouteLoop {
  import opened Base
  import opened Accounts
  import opened Pool

  // ----- Replies -----

  datatype Kind = NoKind | RateLimited | QuotaSpent | AuthFailed | RequestRejected
                | UpstreamFailure | GatewayBlocked

  datatype UsageState = UsageBlocked | UsageExceeded | UsageAvailable | UsageOther

  datatype Usage = Usage(state: UsageState, limit: real, used: real, overage: real)

  /** One provider call. `emitted` counts the increments it sent to the client,
      `signatureHits` the injection patterns in the body it sent upstream. */
  datatype Reply = Reply(success: bool, kind: Kind, error: string, usage: Option<Usage>,
                         signatureHits: nat, cancelled: bool, emitted: nat)

  const CLIENT_DISCONNECTED: string := "Client disconnected"
  const SAFETY_TEXT: string := "flagged by our safety checks"
  const TRANSIENT_TEXTS: seq<string> :=
    ["timeout", "econnreset", "connection reset", "fetch failed", "network", "rate limited", "429",
     "write tcp", "read tcp", "broken pipe", "eof", "connection refused", "no such host", "i/o timeout",
     "tls handshake"]

  predicate MatchesAt(s: string, sub: string, i: nat) {
    i + |sub| <= |s| && forall j :: 0 <= j < |sub| ==> Lower(s[i + j]) == sub[j]
  }

  /** `sub`, itself in lower case, occurs in `s` whatever the case there. */
  predicate ContainsFolded(s: string, sub: string) {
    exists i :: 0 <= i <= |s| && MatchesAt(s, sub, i)
  }

  predicate IsTransient(error: string) {
    exists k :: 0 <= k < |TRANSIENT_TEXTS| && ContainsFolded(error, TRANSIENT_TEXTS[k])
  }

  predicate IsSafetyFlagged(error: string) {
    ContainsFolded(error, SAFETY_TEXT)
  }

  function Folded(s: string): seq<char> {
    seq(|s|, i requires 0 <= i < |s| => Lower(s[i]))
  }

  /** The error text holds one of the passing causes, in any case. */
  lemma TransientIff(error: string)
    ensures IsTransient(error)
       <==> exists k, a, t, b :: 0 <= k < |TRANSIENT_TEXTS| && error == a + t + b && Folded(t) == TRANSIENT_TEXTS[k]
  {
    hide ContainsFolded;
    forall k | 0 <= k < |TRANSIENT_TEXTS|
      ensures ContainsFolded(error, TRANSIENT_TEXTS[k]) <==> exists a, t, b :: error == a + t + b && Folded(t) == TRANSIENT_TEXTS[k]
    {
      ContainsIff(error, TRANSIENT_TEXTS[k]);
    }
  }

  lemma ContainsIff(s: string, sub: string)
    ensures ContainsFolded(s, sub) <==> exists a, t, b :: s == a + t + b && Folded(t) == sub
  {
    if i :| 0 <= i <= |s| && MatchesAt(s, sub, i) {
      var a, t, b := s[..i], s[i..i + |sub|], s[i + |sub|..];
      assert s == a + t + b;
      assert Folded(t) == sub;
    }
    if a, t, b :| s == a + t + b && Folded(t) == sub {
      assert forall j :: 0 <= j < |t| ==> s[|a| + j] == t[j] && Lower(t[j]) == Folded(t)[j];
      assert MatchesAt(s, sub, |a|);
    }
  }

  predicate ClientGone(reply: Reply) {
    reply.cancelled || reply.error == CLIENT_DISCONNECTED
  }

  predicate ReportsBlocked(reply: Reply) {
    reply.usage.Some? && reply.usage.value.state == UsageBlocked
  }

  /** `resQuotaExhausted`. */
  predicate ReportsExhausted(reply: Reply) {
    reply.usage.Some? && reply.usage.value.limit > 0.0 &&
    (reply.usage.value.limit - reply.usage.value.used - reply.usage.value.overage <= 0.0 || reply.kind == QuotaSpent)
  }

  // ----- The account table -----

  function WithStatus(table: seq<Account>, id: int, status: Status): (r: seq<Account>)
    ensures |r| == |table|
    ensures forall i :: 0 <= i < |table| ==> r[i] == if table[i].id == id then table[i].(status := status) else table[i]
  {
    seq(|table|, i requires 0 <= i < |table| => if table[i].id == id then table[i].(status := status) else table[i])
  }

  function WithEnabled(table: seq<Account>, id: int, enabled: bool): (r: seq<Account>)
    ensures |r| == |table|
    ensures forall i :: 0 <= i < |table| ==> r[i] == if table[i].id == id then table[i].(enabled := enabled) else table[i]
  {
    seq(|table|, i requires 0 <= i < |table| => if table[i].id == id then table[i].(enabled := enabled) else table[i])
  }

  function WithLastUsed(table: seq<Account>, id: int, now: int): (r: seq<Account>)
    ensures |r| == |table|
    ensures forall i :: 0 <= i < |table| ==> r[i] == if table[i].id == id then table[i].(lastUsedAt := Some(now)) else table[i]
  {
    seq(|table|, i requires 0 <= i < |table| => if table[i].id == id then table[i].(lastUsedAt := Some(now)) else table[i])
  }

  function FindAccount(table: seq<Account>, id: int): (r: Option<Account>)
    ensures r.Some? ==> r.value in table && r.value.id == id
    ensures r.None? ==> forall a :: a in table ==> a.id != id
  {
    if table == [] then None
    else if table[0].id == id then Some(table[0])
    else FindAccount(table[1..], id)
  }

  /** An account a continued chat may come back to: enabled, quota not used up.
      A failed status does not matter. */
  predicate UsableForSticky(acc: Account) {
    acc.enabled && acc.status != Exhausted && !QuotaExhausted(acc)
  }

  predicate Usable(table: seq<Account>, id: int) {
    FindAccount(table, id).Some? && UsableForSticky(FindAccount(table, id).value)
  }

  // ----- Requests, surroundings and loop state -----

  datatype Request = Request(retryCount: nat, failover: bool, reusableHistory: bool,
                             gatewayCooldown: int, reservation: int)

  function Budget(req: Request): nat {
    if req.failover then req.retryCount else 1
  }

  datatype World = World(table: seq<Account>, pool: PoolState)

  /** Everything outside the driver: what other requests and background jobs do
      to the table and the scheduler before (2k) and during (2k+1) attempt k,
      the clock, the account the conversation belongs to, and the provider. */
  datatype Env = Env(table: (nat, seq<Account>) -> seq<Account>, pool: (nat, PoolState) -> PoolState,
                     clock: nat -> int, sticky: nat -> Option<int>, answer: (nat, Account) -> Reply)

  function Interfere(env: Env, j: nat, w: World): World {
    World(env.table(j, w.table), env.pool(j, w.pool))
  }

  datatype Loop = Loop(attempt: nat, maxAttempts: nat, excluded: set<int>, pinned: Option<int>,
                       gwRetried: bool, egressSeq: nat, prevAcc: int, emitted: bool, world: World)

  function Init(req: Request, w: World): Loop {
    Loop(0, Budget(req), {}, None, false, 0, 0, false, w)
  }

  /** `nextEgressSeq`. */
  function NextEgressSeq(prevSeq: nat, prevAcc: int, curAcc: int, first: bool): nat {
    if first || curAcc != prevAcc then 0 else prevSeq + 1
  }

  // ----- Choosing an account -----

  /** The account a request is held to: the pinned one if it can still be used,
      otherwise the owner of the conversation. */
  function HeldTo(table: seq<Account>, pinned: Option<int>, sticky: Option<int>, excluded: set<int>): Option<int> {
    if pinned.Some? && pinned.value !in excluded && Usable(table, pinned.value) then pinned
    else if sticky.Some? && sticky.value !in excluded && Usable(table, sticky.value) then sticky
    else None
  }

  /** `selectAccount` can yield `acc` and leave the world as `w'`. */
  ghost predicate Selects(w: World, pinned: Option<int>, sticky: Option<int>, excluded: set<int>, now: int,
                          acc: Account, fromPool: bool, w': World)
  {
    var held := HeldTo(w.table, pinned, sticky, excluded);
    if held.Some? then !fromPool && FindAccount(w.table, held.value) == Some(acc) && w' == w
    else
      fromPool && w'.table == w.table
      && NextTakes(w.pool, ActiveAccounts(w.table), excluded, now, RoundRobin, acc, w'.pool)
  }

  ghost predicate NothingToSelect(w: World, pinned: Option<int>, sticky: Option<int>, excluded: set<int>) {
    HeldTo(w.table, pinned, sticky, excluded).None?
    && forall a :: a in ActiveAccounts(w.table) ==> a.id in excluded
  }

  // ----- What a reply leads to -----

  datatype Outcome = Delivered(reply: Reply) | NoAccount | ClientLeft | GatewayStopped | Refused
                   | BrokenStream | AllFailed

  /** `applyUsageState`, judged by the account as it was when selected. */
  function ApplyUsage(table: seq<Account>, acc: Account, reply: Reply): seq<Account> {
    if reply.usage.None? then table
    else
      match reply.usage.value.state
      case UsageBlocked =>
        var t := if acc.status != Failed then WithStatus(table, acc.id, Failed) else table;
        if acc.enabled then WithEnabled(t, acc.id, false) else t
      case UsageExceeded =>
        if acc.status != Exhausted then WithStatus(table, acc.id, Exhausted) else table
      case UsageAvailable =>
        var t :=
          if ReportsExhausted(reply) then
            (if acc.status != Exhausted then WithStatus(table, acc.id, Exhausted) else table)
          else if acc.status != Active then WithStatus(table, acc.id, Active)
          else table;
        if !acc.enabled then WithEnabled(t, acc.id, true) else t
      case UsageOther => table
  }

  /** `markOffline`, judged likewise. */
  function MarkOffline(table: seq<Account>, acc: Account): seq<Account> {
    var t := if acc.status != Offline then WithStatus(table, acc.id, Offline) else table;
    if acc.enabled then WithEnabled(t, acc.id, false) else t
  }

  /** How the driver reads a reply. Each constructor is one branch. */
  datatype Verdict = Success | Gone | GatewayContent | GatewayChance | BadRequest | DropBlocked | DropSpent
                   | DropDead | Transient | Flagged | Upstream | Unclassified

  function Classify(reply: Reply): Verdict {
    if reply.success then Success
    else if ClientGone(reply) then Gone
    else if reply.kind == GatewayBlocked then
      if reply.signatureHits == 0 then GatewayChance else GatewayContent
    else if reply.kind == RequestRejected then BadRequest
    else if ReportsBlocked(reply) then DropBlocked
    else if reply.kind == QuotaSpent then DropSpent
    else if reply.kind == AuthFailed then DropDead
    else if reply.kind == RateLimited || IsTransient(reply.error) then Transient
    else if IsSafetyFlagged(reply.error) then Flagged
    else if reply.kind == UpstreamFailure then Upstream
    else Unclassified
  }

  function Outset(reply: Reply, emitted: bool, gwRetried: bool): Option<Outcome> {
    match Classify(reply)
    case Success => Some(Delivered(reply))
    case Gone => Some(ClientLeft)
    case BadRequest => Some(Refused)
    case GatewayContent => Some(if emitted then BrokenStream else GatewayStopped)
    case GatewayChance =>
      if emitted then Some(BrokenStream) else if gwRetried then Some(GatewayStopped) else None
    case _ => if emitted then Some(BrokenStream) else None
  }

  predicate Excludes(v: Verdict) {
    v == DropBlocked || v == DropSpent || v == DropDead || v == Flagged
  }

  /** Dropping a dead account does not use up the retry budget. */
  predicate RaisesBound(v: Verdict) {
    v == DropBlocked || v == DropDead || v == GatewayChance
  }

  predicate Pins(v: Verdict) {
    v == Flagged || v == Upstream || v == Unclassified
  }

  function TableAfter(table: seq<Account>, acc: Account, reply: Reply, emitted: bool, now: int): seq<Account> {
    TableByVerdict(ApplyUsage(table, acc, reply), acc, reply, emitted, now)
  }

  function TableByVerdict(t: seq<Account>, acc: Account, reply: Reply, emitted: bool, now: int): seq<Account> {
    match Classify(reply)
    case Success => WithLastUsed(t, acc.id, now)
    case DropSpent => WithStatus(t, acc.id, Exhausted)
    case DropDead => MarkOffline(t, acc)
    case Transient => WithStatus(t, acc.id, Active)
    case Flagged => if emitted then t else WithStatus(t, acc.id, Active)
    case Upstream => if emitted then t else WithStatus(t, acc.id, Active)
    case Unclassified => if emitted then t else WithStatus(t, acc.id, Failed)
    case _ => t
  }

  function PoolAfter(pool: PoolState, req: Request, acc: Account, fromPool: bool, reply: Reply, now: int): PoolState {
    PoolByVerdict(if fromPool then pool.(inFlight := Released(pool.inFlight, acc.id)) else pool, req, acc, reply, now)
  }

  function PoolByVerdict(p: PoolState, req: Request, acc: Account, reply: Reply, now: int): PoolState {
    match Classify(reply)
    case Success =>
      if req.reservation <= 0 then p else p.(reservedUntil := p.reservedUntil[acc.id := now + req.reservation])
    case GatewayChance =>
      if req.gatewayCooldown <= 0 then p
      else p.(gatewayCooldown := p.gatewayCooldown[acc.id := now + req.gatewayCooldown])
    case _ => p
  }

  /** The loop state after one attempt that used `acc` and ended in world `w`. */
  function AfterReply(req: Request, s: Loop, w: World, acc: Account, fromPool: bool, reply: Reply, now: int)
    : (Loop, Option<Outcome>)
  {
    var v := Classify(reply);
    var emitted := s.emitted || reply.emitted > 0;
    var out := Outset(reply, emitted, s.gwRetried);
    var goesOn := out.None?;
    (Loop(s.attempt + 1,
          s.maxAttempts + (if goesOn && RaisesBound(v) then 1 else 0),
          if goesOn && Excludes(v) then s.excluded + {acc.id} else s.excluded,
          if goesOn && Pins(v) && req.reusableHistory then Some(acc.id) else s.pinned,
          s.gwRetried || (goesOn && v == GatewayChance),
          NextEgressSeq(s.egressSeq, s.prevAcc, acc.id, s.attempt == 0),
          acc.id,
          emitted,
          World(TableAfter(w.table, acc, reply, emitted, now), PoolAfter(w.pool, req, acc, fromPool, reply, now))),
     out)
  }

  // ----- Runs -----

  /** One attempt: the loop state before it, the world it selected in, the world
      with the account taken, the account, the reply and the state after it. */
  datatype Turn = Turn(before: Loop, seen: World, taken: World, acc: Account, fromPool: bool, reply: Reply,
                       after: Loop, out: Option<Outcome>)

  ghost predicate TurnOk(env: Env, req: Request, t: Turn) {
    var k := t.before.attempt;
    && k < t.before.maxAttempts
    && t.seen == Interfere(env, 2 * k, t.before.world)
    && Selects(t.seen, t.before.pinned, env.sticky(k), t.before.excluded, env.clock(2 * k), t.acc, t.fromPool, t.taken)
    && t.reply == env.answer(k, t.acc)
    && (t.after, t.out) == AfterReply(req, t.before, Interfere(env, 2 * k + 1, t.taken), t.acc, t.fromPool,
                                      t.reply, env.clock(2 * k + 1))
  }

  /** A run of the loop from world `w`: attempts follow one another and only
      the last one may end the loop. */
  ghost predicate Run(env: Env, req: Request, w: World, run: seq<Turn>) {
    && (forall i :: 0 <= i < |run| ==> TurnOk(env, req, run[i]))
    && (|run| > 0 ==> run[0].before == Init(req, w))
    && (forall i :: 0 <= i < |run| - 1 ==> Linked(run, i))
  }

  /** Attempt `i` did not end the loop, and the next one went on from it. */
  ghost predicate Linked(run: seq<Turn>, i: nat)
    requires i + 1 < |run|
  {
    run[i].out.None? && run[i + 1].before == run[i].after
  }

  /** The loop state after a run that has not ended. */
  ghost function Head(req: Request, w: World, run: seq<Turn>): Loop {
    if run == [] then Init(req, w) else run[|run| - 1].after
  }

  /** A finished run and its result. */
  ghost predicate Ends(env: Env, req: Request, w: World, run: seq<Turn>, out: Outcome, w': World) {
    && Run(env, req, w, run)
    && if |run| > 0 && run[|run| - 1].out.Some? then
         out == run[|run| - 1].out.value && w' == run[|run| - 1].after.world
       else
         var h := Head(req, w, run);
         if h.attempt < h.maxAttempts then
           var seen := Interfere(env, 2 * h.attempt, h.world);
           out == NoAccount && w' == seen
           && NothingToSelect(seen, h.pinned, env.sticky(h.attempt), h.excluded)
         else out == AllFailed && w' == h.world
  }

  // ----- Theorems about runs -----

  lemma RunPrefix(env: Env, req: Request, w: World, run: seq<Turn>, n: nat)
    requires Run(env, req, w, run) && n <= |run|
    ensures Run(env, req, w, run[..n])
    ensures n < |run| ==> run[n].before == Head(req, w, run[..n]) && (n > 0 ==> run[n - 1].out.None?)
  {
    hide TurnOk;
    forall i | 0 <= i < n - 1
      ensures Linked(run[..n], i)
    {
      assert Linked(run, i);
    }
    if 0 < n < |run| {
      assert Linked(run, n - 1);
    }
  }

  lemma Follows(env: Env, req: Request, w: World, run: seq<Turn>, i: nat)
    requires Run(env, req, w, run) && i + 1 < |run|
    ensures run[i].out.None? && run[i + 1].before == run[i].after && TurnOk(env, req, run[i])
  {
    hide TurnOk;
    assert Linked(run, i);
  }

  lemma SelectedIsAllowed(w: World, pinned: Option<int>, sticky: Option<int>, excluded: set<int>, now: int,
                          acc: Account, fromPool: bool, w': World)
    requires Selects(w, pinned, sticky, excluded, now, acc, fromPool, w')
    ensures acc.id !in excluded && acc in w.table
  {
    hide Usable, NextTakes;
    if fromPool {
      NextYieldsActive(w.pool, w.table, excluded, now, RoundRobin, acc, w'.pool);
    }
  }

  /** No attempt uses an excluded account, and exclusions are never taken back. */
  lemma {:induction false} ExcludedNeverUsed(env: Env, req: Request, w: World, run: seq<Turn>, i: nat, j: nat)
    requires Run(env, req, w, run) && i <= j < |run|
    ensures run[j].acc.id !in run[j].before.excluded
    ensures run[i].before.excluded <= run[j].before.excluded
    ensures i < j && Excludes(Classify(run[i].reply)) ==> run[i].acc.id in run[j].before.excluded
    decreases j - i
  {
    hide Run, TurnOk, Classify;
    if i < j {
      Follows(env, req, w, run, i);
      TurnExcludes(env, req, run[i]);
      ExcludedNeverUsed(env, req, w, run, i + 1, j);
    } else {
      TurnIsOk(env, req, w, run, j);
      TurnExcludes(env, req, run[j]);
    }
  }

  lemma TurnIsOk(env: Env, req: Request, w: World, run: seq<Turn>, i: nat)
    requires Run(env, req, w, run) && i < |run|
    ensures TurnOk(env, req, run[i])
  {
    hide TurnOk;
  }

  lemma TurnExcludes(env: Env, req: Request, t: Turn)
    requires TurnOk(env, req, t)
    ensures t.acc.id !in t.before.excluded && t.acc in t.seen.table
    ensures t.before.excluded <= t.after.excluded
    ensures t.out.None? && Excludes(Classify(t.reply)) ==> t.acc.id in t.after.excluded
  {
    hide Classify, Selects, TableAfter, PoolAfter, Outset;
    SelectedIsAllowed(t.seen, t.before.pinned, env.sticky(t.before.attempt), t.before.excluded,
                      env.clock(2 * t.before.attempt), t.acc, t.fromPool, t.taken);
  }

  /** An account is dropped by the request at most once: after an exclusion it
      is not asked again. */
  lemma ExcludedNotAskedAgain(env: Env, req: Request, w: World, run: seq<Turn>, i: nat, j: nat)
    requires Run(env, req, w, run) && i < j < |run| && Excludes(Classify(run[i].reply))
    ensures run[j].acc.id != run[i].acc.id
  {
    hide *;
    ExcludedNeverUsed(env, req, w, run, i, j);
  }

  /** The accounts dropped as dead or blocked, each of which raised the bound. */
  ghost function Dropped(run: seq<Turn>): set<int> {
    set i | 0 <= i < |run| && Classify(run[i].reply) in {DropBlocked, DropDead} :: run[i].acc.id
  }

  ghost predicate GatewayRetried(run: seq<Turn>) {
    exists i :: 0 <= i < |run| && Classify(run[i].reply) == GatewayChance
  }

  ghost function Extra(run: seq<Turn>): nat {
    |Dropped(run)| + if GatewayRetried(run) then 1 else 0
  }

  /** How far the bound has been raised: once for each distinct dropped account
      and at most once for the gateway. */
  lemma {:induction false} BoundIsExact(env: Env, req: Request, w: World, run: seq<Turn>)
    requires Run(env, req, w, run)
    requires |run| > 0 ==> run[|run| - 1].out.None?
    ensures var h := Head(req, w, run);
            && h.attempt == |run|
            && h.maxAttempts == Budget(req) + Extra(run)
            && h.gwRetried == GatewayRetried(run)
            && Dropped(run) <= h.excluded
  {
    hide Run, TurnOk, Dropped, GatewayRetried;
    if run == [] {
      assert Dropped(run) == {} && !GatewayRetried(run) by {
        NothingDropped();
      }
    } else {
      var n := |run| - 1;
      RunPrefix(env, req, w, run, n);
      BoundIsExact(env, req, w, run[..n]);
      ExcludedNeverUsed(env, req, w, run, n, n);
      StepCounts(run);
      StepRaises(env, req, w, run);
    }
  }

  lemma NothingDropped()
    ensures Dropped([]) == {} && !GatewayRetried([])
  {
  }

  /** What the last attempt of a run that goes on does to the bound. */
  lemma StepRaises(env: Env, req: Request, w: World, run: seq<Turn>)
    requires Run(env, req, w, run) && run != [] && run[|run| - 1].out.None?
    ensures var t := run[|run| - 1];
            var v := Classify(t.reply);
            && t.after.attempt == t.before.attempt + 1
            && t.after.maxAttempts == t.before.maxAttempts + (if v in {DropBlocked, DropDead, GatewayChance} then 1 else 0)
            && t.after.gwRetried == (t.before.gwRetried || v == GatewayChance)
            && t.after.excluded == t.before.excluded + (if Excludes(v) then {t.acc.id} else {})
            && (v == GatewayChance ==> !t.before.gwRetried)
  {
    hide Classify, Selects, TableAfter, PoolAfter, Outset;
    var t := run[|run| - 1];
    assert TurnOk(env, req, t);
    GoingOn(t.reply, t.before.emitted || t.reply.emitted > 0, t.before.gwRetried);
  }

  lemma GoingOn(reply: Reply, emitted: bool, gwRetried: bool)
    requires Outset(reply, emitted, gwRetried).None?
    ensures !emitted && Classify(reply) !in {Success, Gone, BadRequest, GatewayContent}
    ensures Classify(reply) == GatewayChance ==> !gwRetried
  {
    hide Classify;
  }

  lemma StepCounts(run: seq<Turn>)
    requires run != []
    ensures var n := |run| - 1;
            var v := Classify(run[n].reply);
            && Dropped(run) == Dropped(run[..n]) + (if v in {DropBlocked, DropDead} then {run[n].acc.id} else {})
            && (GatewayRetried(run) <==> GatewayRetried(run[..n]) || v == GatewayChance)
  {
    hide Classify;
    var n := |run| - 1;
    if GatewayRetried(run[..n]) {
      var i :| 0 <= i < n && Classify(run[..n][i].reply) == GatewayChance;
      assert Classify(run[i].reply) == GatewayChance;
    }
    if GatewayRetried(run) && Classify(run[n].reply) != GatewayChance {
      var i :| 0 <= i < |run| && Classify(run[i].reply) == GatewayChance;
      assert Classify(run[..n][i].reply) == GatewayChance;
    }
  }

  /** Provider calls are at most the retry budget, one gateway retry, and one
      for each distinct account dropped as dead or blocked before the last call. */
  lemma CallsAreBounded(env: Env, req: Request, w: World, run: seq<Turn>)
    requires Run(env, req, w, run) && run != []
    ensures var earlier := run[..|run| - 1];
            |run| <= (if req.failover then req.retryCount else 1) + (if GatewayRetried(earlier) then 1 else 0) + |Dropped(earlier)|
  {
    hide Selects, Classify, Outset;
    var n := |run| - 1;
    RunPrefix(env, req, w, run, n);
    BoundIsExact(env, req, w, run[..n]);
    assert TurnOk(env, req, run[n]);
  }

  /** Once an attempt has sent anything to the client, it is the last: all the
      client sees comes from one provider call. */
  lemma NoRetryAfterOutput(env: Env, req: Request, w: World, run: seq<Turn>, i: nat)
    requires Run(env, req, w, run) && i + 1 < |run|
    ensures run[i].reply.emitted == 0
  {
    hide Selects, Classify, TableAfter, PoolAfter;
    Follows(env, req, w, run, i);
    var t := run[i];
    GoingOn(t.reply, t.before.emitted || t.reply.emitted > 0, t.before.gwRetried);
  }

  /** What the client receives, as the attempts that sent it. */
  ghost function Senders(run: seq<Turn>): set<nat> {
    set i | 0 <= i < |run| && run[i].reply.emitted > 0
  }

  lemma OutputHasOneSender(env: Env, req: Request, w: World, run: seq<Turn>)
    requires Run(env, req, w, run)
    ensures Senders(run) <= {|run| - 1}
  {
    hide Run;
    forall i | i in Senders(run)
      ensures i == |run| - 1
    {
      if i + 1 < |run| {
        NoRetryAfterOutput(env, req, w, run, i);
      }
    }
  }

  /** A gateway block is answered by a retry at most once in a request, and only
      when the body carried no injection pattern. */
  lemma OneGatewayRetry(env: Env, req: Request, w: World, run: seq<Turn>, i: nat, j: nat)
    requires Run(env, req, w, run) && i < |run| - 1 && j < |run| - 1
    requires run[i].reply.kind == run[j].reply.kind == GatewayBlocked
    ensures i == j && run[i].reply.signatureHits == 0
  {
    hide Run, Classify;
    GatewayTurn(env, req, w, run, i);
    GatewayTurn(env, req, w, run, j);
    if i < j {
      GatewayRetryIsLast(env, req, w, run, i, j);
    } else if j < i {
      GatewayRetryIsLast(env, req, w, run, j, i);
    }
  }

  lemma GatewayRetryIsLast(env: Env, req: Request, w: World, run: seq<Turn>, i: nat, j: nat)
    requires Run(env, req, w, run) && i < j < |run| && Classify(run[i].reply) == GatewayChance
    ensures run[j].before.gwRetried
  {
    hide Run, Classify, GatewayRetried, Dropped;
    RunPrefix(env, req, w, run, j);
    BoundIsExact(env, req, w, run[..j]);
    assert run[..j][i] == run[i];
    RetriedAt(run[..j], i);
  }

  lemma RetriedAt(run: seq<Turn>, i: nat)
    requires i < |run| && Classify(run[i].reply) == GatewayChance
    ensures GatewayRetried(run)
  {
    hide Classify;
  }

  lemma GatewayTurn(env: Env, req: Request, w: World, run: seq<Turn>, i: nat)
    requires Run(env, req, w, run) && i < |run| - 1 && run[i].reply.kind == GatewayBlocked
    ensures Classify(run[i].reply) == GatewayChance && run[i].reply.signatureHits == 0
    ensures !run[i].before.gwRetried
  {
    hide Selects, TableAfter, PoolAfter, IsTransient, IsSafetyFlagged;
    Follows(env, req, w, run, i);
    var t := run[i];
    GoingOn(t.reply, t.before.emitted || t.reply.emitted > 0, t.before.gwRetried);
  }

  /** An account-independent failure of a continued chat holds the request to
      its account: every later attempt uses it for as long as it is neither
      excluded nor, when the choice is made, disabled or used up. */
  lemma {:induction false} PinnedUntilUnusable(env: Env, req: Request, w: World, run: seq<Turn>, i: nat, j: nat)
    requires Run(env, req, w, run) && i < j < |run| && req.reusableHistory
    requires Classify(run[i].reply) in {Upstream, Unclassified}
    requires forall m :: i < m <= j ==>
               run[i].acc.id !in run[m].before.excluded && Usable(run[m].seen.table, run[i].acc.id)
    ensures run[j].before.pinned == Some(run[i].acc.id)
    ensures run[j].acc.id == run[i].acc.id && !run[j].fromPool
    decreases j
  {
    hide Run, TurnOk, Classify, Usable;
    var id := run[i].acc.id;
    Follows(env, req, w, run, j - 1);
    TurnPins(env, req, run[j - 1]);
    if j - 1 > i {
      PinnedUntilUnusable(env, req, w, run, i, j - 1);
    }
    TurnIsOk(env, req, w, run, j);
    HeldToPinned(env, req, run[j], id);
  }

  lemma TurnPins(env: Env, req: Request, t: Turn)
    requires TurnOk(env, req, t) && t.out.None?
    ensures t.after.pinned == if Pins(Classify(t.reply)) && req.reusableHistory then Some(t.acc.id) else t.before.pinned
  {
    hide Classify, Selects, TableAfter, PoolAfter, Outset;
  }

  lemma HeldToPinned(env: Env, req: Request, t: Turn, id: int)
    requires TurnOk(env, req, t) && t.before.pinned == Some(id)
    requires id !in t.before.excluded && Usable(t.seen.table, id)
    ensures t.acc.id == id && !t.fromPool
  {
    hide NextTakes, AfterReply;
  }

  /** The outlet number counts the attempts made in a row on one account. */
  ghost function Streak(run: seq<Turn>, i: nat): nat
    requires i < |run|
  {
    if i == 0 || run[i - 1].acc.id != run[i].acc.id then 0 else Streak(run, i - 1) + 1
  }

  lemma {:induction false} EgressCountsTheStreak(env: Env, req: Request, w: World, run: seq<Turn>, i: nat)
    requires Run(env, req, w, run) && i < |run|
    ensures run[i].before.attempt == i
    ensures run[i].after.egressSeq == Streak(run, i) && run[i].after.prevAcc == run[i].acc.id
  {
    hide TurnOk;
    if i > 0 {
      EgressCountsTheStreak(env, req, w, run, i - 1);
      Follows(env, req, w, run, i - 1);
      TurnSteps(env, req, run[i - 1]);
    }
    TurnSteps(env, req, run[i]);
  }

  lemma TurnSteps(env: Env, req: Request, t: Turn)
    requires TurnOk(env, req, t)
    ensures t.after.attempt == t.before.attempt + 1 && t.after.prevAcc == t.acc.id
    ensures t.after.egressSeq
            == NextEgressSeq(t.before.egressSeq, t.before.prevAcc, t.acc.id, t.before.attempt == 0)
  {
    hide Classify, Selects, TableAfter, PoolAfter, Outset;
  }

  /** A reply puts an account in failed status only when it reports the account
      blocked or fits no other branch; a failure of the upstream model does not. */
  lemma FailedStatusNeedsCause(table: seq<Account>, acc: Account, reply: Reply, emitted: bool, now: int, i: nat)
    requires i < |table| && table[i].status != Failed
    requires TableAfter(table, acc, reply, emitted, now)[i].status == Failed
    ensures table[i].id == acc.id
    ensures ReportsBlocked(reply) || (Classify(reply) == Unclassified && !emitted)
    ensures reply.kind == UpstreamFailure ==> ReportsBlocked(reply)
  {
    hide IsTransient, IsSafetyFlagged, ClientGone, ApplyUsage, ReportsBlocked;
    UsageFailsOnlyBlocked(table, acc, reply, i);
  }

  lemma UsageFailsOnlyBlocked(table: seq<Account>, acc: Account, reply: Reply, i: nat)
    requires i < |table|
    ensures |ApplyUsage(table, acc, reply)| == |table| && ApplyUsage(table, acc, reply)[i].id == table[i].id
    ensures table[i].status != Failed && ApplyUsage(table, acc, reply)[i].status == Failed ==>
              table[i].id == acc.id && ReportsBlocked(reply)
  {
    hide ReportsExhausted;
  }

  /** What leaves a reported exhaustion standing: success, a client that left,
      a gateway block, a refusal or spent quota; a dead session on an account
      already offline; and any failure past the account's own, once output has
      begun. */
  predicate LeavesExhausted(acc: Account, reply: Reply, emitted: bool) {
    || reply.success || ClientGone(reply)
    || reply.kind in {GatewayBlocked, RequestRejected, QuotaSpent}
    || (reply.kind == AuthFailed && acc.status == Offline)
    || (emitted && reply.kind !in {AuthFailed, RateLimited} && !IsTransient(reply.error))
  }

  /** Exactly when a quota reported as exceeded is still on record after the
      attempt; otherwise the branch taken has written another status over it. */
  lemma ExhaustionKeptIff(table: seq<Account>, acc: Account, reply: Reply, emitted: bool, now: int, i: nat)
    requires i < |table| && table[i].id == acc.id && acc.status != Exhausted
    requires reply.usage.Some? && reply.usage.value.state == UsageExceeded
    ensures TableAfter(table, acc, reply, emitted, now)[i].status == Exhausted <==> LeavesExhausted(acc, reply, emitted)
  {
    hide IsTransient, IsSafetyFlagged, ClientGone;
  }

  lemma SelectedIsNotExhausted(w: World, pinned: Option<int>, sticky: Option<int>, excluded: set<int>, now: int,
                               acc: Account, fromPool: bool, w': World)
    requires Selects(w, pinned, sticky, excluded, now, acc, fromPool, w')
    ensures acc.status != Exhausted
  {
    hide ValidState;
    var held := HeldTo(w.table, pinned, sticky, excluded);
    if held.None? {
      NextYieldsActive(w.pool, w.table, excluded, now, RoundRobin, acc, w'.pool);
    }
  }

  /** The provider reads an exceeded quota as spent. */
  predicate FollowsProvider(reply: Reply) {
    reply.usage.Some? && reply.usage.value.state == UsageExceeded ==> reply.kind == QuotaSpent && !reply.success
  }

  /** So in every run a quota reported as exceeded is on record when the attempt
      ends, whatever else was done to the table meanwhile. */
  lemma ReportedExhaustionIsKept(env: Env, req: Request, w: World, run: seq<Turn>, i: nat, row: Account)
    requires Run(env, req, w, run) && i < |run| && FollowsProvider(run[i].reply)
    requires run[i].reply.usage.Some? && run[i].reply.usage.value.state == UsageExceeded
    requires row in run[i].after.world.table && row.id == run[i].acc.id
    ensures row.status == Exhausted
  {
    TurnIsOk(env, req, w, run, i);
    var t := run[i];
    var k := t.before.attempt;
    SelectedIsNotExhausted(t.seen, t.before.pinned, env.sticky(k), t.before.excluded, env.clock(2 * k), t.acc, t.fromPool, t.taken);
    var table := Called(env, t).table;
    var emitted, now := t.before.emitted || t.reply.emitted > 0, env.clock(2 * k + 1);
    TableAfterIs(env, req, t);
    TableAfterKeepsIds(table, t.acc, t.reply, emitted, now);
    var j :| 0 <= j < |t.after.world.table| && t.after.world.table[j] == row;
    hide Run, Selects, TableAfter;
    ExhaustionKeptIff(table, t.acc, t.reply, emitted, now, j);
  }

  lemma TableAfterIs(env: Env, req: Request, t: Turn)
    requires TurnOk(env, req, t)
    ensures t.after.world.table == TableAfter(Called(env, t).table, t.acc, t.reply, t.before.emitted || t.reply.emitted > 0,
                                              env.clock(2 * t.before.attempt + 1))
  {
    hide Classify, Selects, TableAfter, PoolAfter, Outset;
  }

  /** A reply changes rows, never their number or ids. */
  lemma TableAfterKeepsIds(table: seq<Account>, acc: Account, reply: Reply, emitted: bool, now: int)
    ensures SameIds(table, TableAfter(table, acc, reply, emitted, now))
  {
    var t := ApplyUsage(table, acc, reply);
    StatusesKeepIds(table, acc, reply);
    hide Classify, ApplyUsage;
  }

  predicate SameIds(a: seq<Account>, b: seq<Account>) {
    |b| == |a| && forall i :: 0 <= i < |b| ==> b[i].id == a[i].id
  }

  lemma StatusesKeepIds(table: seq<Account>, acc: Account, reply: Reply)
    ensures SameIds(table, ApplyUsage(table, acc, reply))
  {
    hide ReportsExhausted;
  }

  // ----- What a reply leaves on record, by its own fields -----

  /** The reply neither succeeded nor found its client gone, and is no gateway
      block and no refusal: one of the account's or the model's failures. */
  predicate PlainFailure(reply: Reply) {
    !reply.success && !reply.cancelled && reply.error != CLIENT_DISCONNECTED
    && reply.kind != GatewayBlocked && reply.kind != RequestRejected
  }

  predicate SaysBlocked(reply: Reply) {
    reply.usage.Some? && reply.usage.value.state == UsageBlocked
  }

  /** Available, and by its own figures not used up. */
  predicate SaysAvailable(reply: Reply) {
    && reply.usage.Some? && reply.usage.value.state == UsageAvailable
    && (reply.usage.value.limit <= 0.0
        || (reply.usage.value.used + reply.usage.value.overage < reply.usage.value.limit && reply.kind != QuotaSpent))
  }

  /** The row at `j` in the table the reply met, and after it. */
  lemma TurnRow(env: Env, req: Request, w: World, run: seq<Turn>, i: nat, j: nat)
    requires Run(env, req, w, run) && i < |run| && j < |run[i].after.world.table|
    ensures var t := run[i];
            var k := t.before.attempt;
            && TurnOk(env, req, t) && j < |Called(env, t).table| && |Called(env, t).table| == |t.after.world.table|
            && t.after.world.table == TableAfter(Called(env, t).table, t.acc, t.reply, t.before.emitted || t.reply.emitted > 0,
                                                 env.clock(2 * k + 1))
            && t.after.world.table[j].id == Called(env, t).table[j].id
  {
    TurnIsOk(env, req, w, run, i);
    var t := run[i];
    hide Run, TurnOk, TableAfter;
    TableAfterIs(env, req, t);
    TableAfterKeepsIds(Called(env, t).table, t.acc, t.reply, t.before.emitted || t.reply.emitted > 0,
                       env.clock(2 * t.before.attempt + 1));
  }

  lemma SelectedIsEnabled(env: Env, req: Request, t: Turn)
    requires TurnOk(env, req, t)
    ensures t.acc.enabled
  {
    var k := t.before.attempt;
    var held := HeldTo(t.seen.table, t.before.pinned, env.sticky(k), t.before.excluded);
    hide AfterReply, ValidState;
    if held.None? {
      NextYieldsActive(t.seen.pool, t.seen.table, t.before.excluded, env.clock(2 * k), RoundRobin, t.acc, t.taken.pool);
    }
  }

  lemma BlockedRow(table: seq<Account>, acc: Account, reply: Reply, emitted: bool, now: int, j: nat)
    requires j < |table| && table[j].id == acc.id && acc.enabled && acc.status != Failed && SaysBlocked(reply)
    ensures var r := TableAfter(table, acc, reply, emitted, now);
            |r| == |table| && r[j].status == Failed && !r[j].enabled
  {
    hide IsTransient, IsSafetyFlagged, ClientGone;
  }

  /** A blocked report takes the account out: in every run each row of it is then
      failed and disabled, whatever else the reply says. */
  lemma BlockedAccountIsOut(env: Env, req: Request, w: World, run: seq<Turn>, i: nat, j: nat)
    requires Run(env, req, w, run) && i < |run| && SaysBlocked(run[i].reply) && run[i].acc.status != Failed
    requires j < |run[i].after.world.table| && run[i].after.world.table[j].id == run[i].acc.id
    ensures run[i].after.world.table[j].status == Failed && !run[i].after.world.table[j].enabled
  {
    TurnRow(env, req, w, run, i, j);
    var t := run[i];
    hide Run, TableAfter;
    SelectedIsEnabled(env, req, t);
    hide TurnOk;
    BlockedRow(Called(env, t).table, t.acc, t.reply, t.before.emitted || t.reply.emitted > 0, env.clock(2 * t.before.attempt + 1), j);
  }

  lemma DeadRow(table: seq<Account>, acc: Account, reply: Reply, emitted: bool, now: int, j: nat)
    requires j < |table| && table[j].id == acc.id && acc.enabled && acc.status != Offline
    requires PlainFailure(reply) && reply.kind == AuthFailed && !SaysBlocked(reply)
    ensures var r := TableAfter(table, acc, reply, emitted, now);
            |r| == |table| && r[j].status == Offline && !r[j].enabled
  {
    hide IsTransient, IsSafetyFlagged, ReportsExhausted;
  }

  /** A dead session takes the account offline and disables it. */
  lemma DeadSessionIsOut(env: Env, req: Request, w: World, run: seq<Turn>, i: nat, j: nat)
    requires Run(env, req, w, run) && i < |run| && run[i].acc.status != Offline
    requires PlainFailure(run[i].reply) && run[i].reply.kind == AuthFailed && !SaysBlocked(run[i].reply)
    requires j < |run[i].after.world.table| && run[i].after.world.table[j].id == run[i].acc.id
    ensures run[i].after.world.table[j].status == Offline && !run[i].after.world.table[j].enabled
  {
    TurnRow(env, req, w, run, i, j);
    var t := run[i];
    hide Run, TableAfter;
    SelectedIsEnabled(env, req, t);
    hide TurnOk;
    DeadRow(Called(env, t).table, t.acc, t.reply, t.before.emitted || t.reply.emitted > 0, env.clock(2 * t.before.attempt + 1), j);
  }

  lemma SuccessRow(table: seq<Account>, acc: Account, reply: Reply, emitted: bool, now: int, j: nat)
    requires j < |table| && table[j].id == acc.id && acc.enabled && reply.success
    ensures var r := TableAfter(table, acc, reply, emitted, now);
            && |r| == |table| && r[j].lastUsedAt == Some(now)
            && (SaysAvailable(reply) ==>
                  r[j].enabled == table[j].enabled && r[j].status == if acc.status == Active then table[j].status else Active)
            && (reply.usage.None? ==> r[j] == table[j].(lastUsedAt := Some(now)))
  {
    if SaysAvailable(reply) {
      assert !ReportsExhausted(reply);
    }
    hide ReportsExhausted;
  }

  /** A success is recorded: the last use on every row of the account, and the
      reservation deadline for a positive duration. With quota left it makes the
      account active again, if it was not when it was chosen. */
  lemma SuccessIsRecorded(env: Env, req: Request, w: World, run: seq<Turn>, i: nat, j: nat)
    requires Run(env, req, w, run) && i < |run| && run[i].reply.success
    requires j < |run[i].after.world.table| && run[i].after.world.table[j].id == run[i].acc.id
    ensures var t := run[i];
            var now, row := env.clock(2 * t.before.attempt + 1), t.after.world.table[j];
            && row.lastUsedAt == Some(now)
            && (SaysAvailable(t.reply) && t.acc.status != Active ==> row.status == Active)
            && (SaysAvailable(t.reply) && j < |Called(env, t).table| && Called(env, t).table[j] == t.acc ==>
                  row.status == Active && row.enabled)
            && (req.reservation > 0 ==>
                  t.acc.id in t.after.world.pool.reservedUntil
                  && t.after.world.pool.reservedUntil[t.acc.id] == now + req.reservation)
  {
    TurnRow(env, req, w, run, i, j);
    var t := run[i];
    hide Run, TableAfter;
    SelectedIsEnabled(env, req, t);
    PoolAfterIs(env, req, t);
    hide TurnOk;
    SuccessRow(Called(env, t).table, t.acc, t.reply, t.before.emitted || t.reply.emitted > 0, env.clock(2 * t.before.attempt + 1), j);
  }

  lemma PoolAfterIs(env: Env, req: Request, t: Turn)
    requires TurnOk(env, req, t)
    ensures t.after.world.pool == PoolAfter(Called(env, t).pool, req, t.acc, t.fromPool, t.reply, env.clock(2 * t.before.attempt + 1))
  {
    hide Classify, Selects, TableAfter, PoolAfter, Outset;
  }

  /** Available, but by its own figures used up. */
  predicate SaysUsedUp(reply: Reply) {
    && reply.usage.Some? && reply.usage.value.state == UsageAvailable && reply.usage.value.limit > 0.0
    && (reply.usage.value.used + reply.usage.value.overage >= reply.usage.value.limit || reply.kind == QuotaSpent)
  }

  lemma UsedUpRow(table: seq<Account>, acc: Account, reply: Reply, emitted: bool, now: int, j: nat)
    requires j < |table| && table[j].id == acc.id && acc.status != Exhausted && reply.success && SaysUsedUp(reply)
    ensures var r := TableAfter(table, acc, reply, emitted, now);
            |r| == |table| && r[j].status == Exhausted
  {
    assert ReportsExhausted(reply);
    hide ReportsExhausted;
  }

  /** A success that used the quota up puts that on record. */
  lemma UsedUpIsRecorded(env: Env, req: Request, w: World, run: seq<Turn>, i: nat, j: nat)
    requires Run(env, req, w, run) && i < |run| && run[i].reply.success && SaysUsedUp(run[i].reply)
    requires j < |run[i].after.world.table| && run[i].after.world.table[j].id == run[i].acc.id
    ensures run[i].after.world.table[j].status == Exhausted
  {
    hide Run, TableAfter, TurnOk, Selects;
    TurnRow(env, req, w, run, i, j);
    var t := run[i];
    TurnSelected(env, req, t);
    UsedUpRow(Called(env, t).table, t.acc, t.reply, t.before.emitted || t.reply.emitted > 0, env.clock(2 * t.before.attempt + 1), j);
  }

  lemma TurnSelected(env: Env, req: Request, t: Turn)
    requires TurnOk(env, req, t)
    ensures t.acc.status != Exhausted
  {
    hide Selects, AfterReply;
    SelectedIsNotExhausted(t.seen, t.before.pinned, env.sticky(t.before.attempt), t.before.excluded,
                           env.clock(2 * t.before.attempt), t.acc, t.fromPool, t.taken);
  }

  lemma FailureRow(table: seq<Account>, acc: Account, reply: Reply, emitted: bool, now: int, j: nat)
    requires j < |table| && table[j].id == acc.id && PlainFailure(reply) && !SaysBlocked(reply)
    ensures var r := TableAfter(table, acc, reply, emitted, now);
            && |r| == |table|
            && (reply.kind == QuotaSpent ==> r[j].status == Exhausted)
            && (reply.kind == RateLimited ==> r[j].status == Active)
            && (reply.kind in {UpstreamFailure, NoKind} && IsTransient(reply.error) ==> r[j].status == Active)
            && (reply.kind in {UpstreamFailure, NoKind} && !IsTransient(reply.error) && !emitted ==>
                  r[j].status == if reply.kind == UpstreamFailure || IsSafetyFlagged(reply.error) then Active else Failed)
  {
    hide IsTransient, IsSafetyFlagged, ApplyUsage;
    StatusesKeepIds(table, acc, reply);
  }

  /** What the other failures leave: spent quota on record; an account that may
      be tried again active; one with a failure nothing explains failed. */
  lemma FailureIsRecorded(env: Env, req: Request, w: World, run: seq<Turn>, i: nat, j: nat)
    requires Run(env, req, w, run) && i < |run| && PlainFailure(run[i].reply) && !SaysBlocked(run[i].reply)
    requires j < |run[i].after.world.table| && run[i].after.world.table[j].id == run[i].acc.id
    ensures var t := run[i];
            var reply, row := t.reply, t.after.world.table[j];
            && (reply.kind == QuotaSpent ==> row.status == Exhausted)
            && (reply.kind == RateLimited ==> row.status == Active)
            && (reply.kind in {UpstreamFailure, NoKind} && IsTransient(reply.error) ==> row.status == Active)
            && (reply.kind in {UpstreamFailure, NoKind} && !IsTransient(reply.error) && !t.before.emitted && reply.emitted == 0 ==>
                  row.status == if reply.kind == UpstreamFailure || IsSafetyFlagged(reply.error) then Active else Failed)
  {
    TurnRow(env, req, w, run, i, j);
    var t := run[i];
    hide Run, TableAfter, TurnOk, IsTransient, IsSafetyFlagged, PlainFailure, SaysBlocked;
    FailureRow(Called(env, t).table, t.acc, t.reply, t.before.emitted || t.reply.emitted > 0, env.clock(2 * t.before.attempt + 1), j);
  }

  /** No other account's row is touched. */
  lemma OtherRowsKept(env: Env, req: Request, w: World, run: seq<Turn>, i: nat, j: nat)
    requires Run(env, req, w, run) && i < |run|
    requires j < |run[i].after.world.table| && run[i].after.world.table[j].id != run[i].acc.id
    ensures j < |Called(env, run[i]).table| && run[i].after.world.table[j] == Called(env, run[i]).table[j]
  {
    hide Run, TableAfter, TurnOk;
    TurnRow(env, req, w, run, i, j);
    var t := run[i];
    OtherRow(Called(env, t).table, t.acc, t.reply, t.before.emitted || t.reply.emitted > 0, env.clock(2 * t.before.attempt + 1), j);
  }

  lemma OtherRow(table: seq<Account>, acc: Account, reply: Reply, emitted: bool, now: int, j: nat)
    requires j < |table| && table[j].id != acc.id
    ensures var r := TableAfter(table, acc, reply, emitted, now);
            |r| == |table| && r[j] == table[j]
  {
    hide Classify;
    OtherUsageRow(table, acc, reply, j);
    hide ApplyUsage;
  }

  lemma OtherUsageRow(table: seq<Account>, acc: Account, reply: Reply, j: nat)
    requires j < |table| && table[j].id != acc.id
    ensures |ApplyUsage(table, acc, reply)| == |table| && ApplyUsage(table, acc, reply)[j] == table[j]
  {
    hide ReportsExhausted;
  }

  /** How a reply ends the request, or lets it go on. */
  lemma OutcomeByFields(env: Env, req: Request, w: World, run: seq<Turn>, i: nat)
    requires Run(env, req, w, run) && i < |run|
    ensures var t := run[i];
            var reply, emitted := t.reply, t.before.emitted || t.reply.emitted > 0;
            t.out ==
              if reply.success then Some(Delivered(reply))
              else if reply.cancelled || reply.error == "Client disconnected" then Some(ClientLeft)
              else if reply.kind == RequestRejected then Some(Refused)
              else if emitted then Some(BrokenStream)
              else if reply.kind == GatewayBlocked && (reply.signatureHits > 0 || t.before.gwRetried) then Some(GatewayStopped)
              else None
  {
    TurnIsOk(env, req, w, run, i);
    hide Run, IsTransient, IsSafetyFlagged, Selects, TableAfter, PoolAfter;
  }

  /** What an attempt that goes on carries over: who is excluded, who is pinned,
      how far the bound was raised, and whether the gateway retry is spent. */
  lemma CarriedByFields(env: Env, req: Request, w: World, run: seq<Turn>, i: nat)
    requires Run(env, req, w, run) && i < |run| && run[i].out.None?
    ensures var t := run[i];
            var reply := t.reply;
            var gateway := reply.kind == GatewayBlocked;
            var dropped := !gateway && (SaysBlocked(reply) || reply.kind in {QuotaSpent, AuthFailed});
            var passing := gateway || dropped || reply.kind == RateLimited || IsTransient(reply.error);
            && t.after.excluded == (if dropped || (!passing && IsSafetyFlagged(reply.error))
                                    then t.before.excluded + {t.acc.id} else t.before.excluded)
            && t.after.pinned == (if !passing && req.reusableHistory then Some(t.acc.id) else t.before.pinned)
            && t.after.maxAttempts == t.before.maxAttempts
                 + (if gateway || (dropped && (SaysBlocked(reply) || reply.kind == AuthFailed)) then 1 else 0)
            && t.after.gwRetried == (t.before.gwRetried || gateway)
  {
    hide Run, TurnOk, IsTransient, IsSafetyFlagged;
    TurnIsOk(env, req, w, run, i);
    CarriedTurn(env, req, run[i]);
  }

  lemma CarriedTurn(env: Env, req: Request, t: Turn)
    requires TurnOk(env, req, t) && t.out.None?
    ensures var reply := t.reply;
            var gateway := reply.kind == GatewayBlocked;
            var dropped := !gateway && (SaysBlocked(reply) || reply.kind in {QuotaSpent, AuthFailed});
            var passing := gateway || dropped || reply.kind == RateLimited || IsTransient(reply.error);
            && t.after.excluded == (if dropped || (!passing && IsSafetyFlagged(reply.error))
                                    then t.before.excluded + {t.acc.id} else t.before.excluded)
            && t.after.pinned == (if !passing && req.reusableHistory then Some(t.acc.id) else t.before.pinned)
            && t.after.maxAttempts == t.before.maxAttempts
                 + (if gateway || (dropped && (SaysBlocked(reply) || reply.kind == AuthFailed)) then 1 else 0)
            && t.after.gwRetried == (t.before.gwRetried || gateway)
  {
    hide IsTransient, IsSafetyFlagged, ClientGone, Selects, TableAfter, PoolAfter;
  }

  /** A gateway block of a body without injection patterns. */
  predicate ChanceBlock(reply: Reply) {
    && !reply.success && !reply.cancelled && reply.error != "Client disconnected"
    && reply.kind == GatewayBlocked && reply.signatureHits == 0
  }

  lemma CooldownAfter(p: PoolState, req: Request, acc: Account, fromPool: bool, reply: Reply, now: int)
    ensures PoolAfter(p, req, acc, fromPool, reply, now).gatewayCooldown
         == if ChanceBlock(reply) && req.gatewayCooldown > 0
            then p.gatewayCooldown[acc.id := now + req.gatewayCooldown] else p.gatewayCooldown
  {
    hide IsTransient, IsSafetyFlagged, Released;
  }

  /** Exactly such a block puts the account on cooldown, if cooldowns are on. */
  lemma GatewayBlockCools(env: Env, req: Request, w: World, run: seq<Turn>, i: nat)
    requires Run(env, req, w, run) && i < |run|
    ensures var t := run[i];
            t.after.world.pool.gatewayCooldown
            == if ChanceBlock(t.reply) && req.gatewayCooldown > 0
               then Called(env, t).pool.gatewayCooldown[t.acc.id := env.clock(2 * t.before.attempt + 1) + req.gatewayCooldown]
               else Called(env, t).pool.gatewayCooldown
  {
    hide Run, TurnOk, ChanceBlock, PoolAfter;
    TurnIsOk(env, req, w, run, i);
    PoolAfterIs(env, req, run[i]);
    CooldownAfter(Called(env, run[i]).pool, req, run[i].acc, run[i].fromPool, run[i].reply, env.clock(2 * run[i].before.attempt + 1));
  }

  /** A continued chat goes to the account that owns it, while that can be used
      and no other is pinned: enabled, not exhausted, quota left or unknown; a
      failed status does not matter. Anything else comes from the scheduler. */
  lemma OwnerIsUsed(env: Env, req: Request, w: World, run: seq<Turn>, i: nat)
    requires Run(env, req, w, run) && i < |run|
    ensures var t := run[i];
            var sticky := env.sticky(t.before.attempt);
            && (sticky.Some? && sticky.value !in t.before.excluded && Returnable(t.seen.table, sticky.value)
                && (t.before.pinned.None? || t.before.pinned.value in t.before.excluded || !Returnable(t.seen.table, t.before.pinned.value)) ==>
                  t.acc.id == sticky.value && !t.fromPool)
            && (!t.fromPool ==> Returnable(t.seen.table, t.acc.id) && Some(t.acc.id) in {t.before.pinned, sticky})
  {
    TurnIsOk(env, req, w, run, i);
    var t := run[i];
    ReturnableIsUsable(t.seen.table);
    hide Run, AfterReply, NextTakes, Returnable, Usable, ValidState;
  }

  /** The account's row, the first if there are several, lets a chat come back. */
  predicate Returnable(table: seq<Account>, id: int) {
    exists j :: 0 <= j < |table| && table[j].id == id && (forall m :: 0 <= m < j ==> table[m].id != id)
      && table[j].enabled && table[j].status != Exhausted
      && !(table[j].quotaLimit > 0.0 && table[j].quotaRemaining <= 0.0)
  }

  lemma ReturnableIsUsable(table: seq<Account>)
    ensures forall id :: Returnable(table, id) <==> Usable(table, id)
  {
    forall id ensures Returnable(table, id) <==> Usable(table, id) {
      FoundFirst(table, id);
    }
  }

  lemma {:induction false} FoundFirst(table: seq<Account>, id: int)
    ensures var r := FindAccount(table, id);
            r.Some? ==> exists j :: 0 <= j < |table| && table[j] == r.value && forall m :: 0 <= m < j ==> table[m].id != id
  {
    if table != [] && table[0].id != id {
      FoundFirst(table[1..], id);
      var r := FindAccount(table[1..], id);
      if r.Some? {
        var j :| 0 <= j < |table| - 1 && table[1..][j] == r.value && forall m :: 0 <= m < j ==> table[1..][m].id != id;
        assert table[j + 1] == r.value && forall m :: 0 < m < j + 1 ==> table[m] == table[1..][m - 1];
      }
    }
  }

  // ----- In-flight counts -----

  ghost function Called(env: Env, t: Turn): World {
    Interfere(env, 2 * t.before.attempt + 1, t.taken)
  }

  /** During a call nobody else returns the account this request has taken. */
  ghost predicate KeepsHeld(env: Env, t: Turn) {
    ValidState(Called(env, t).pool) && (t.fromPool ==> Load(Called(env, t).pool, t.acc.id) >= 1)
  }

  /** What others did to the count of an account around one attempt. */
  ghost function TurnDrift(env: Env, t: Turn, id: int): int {
    Load(t.seen.pool, id) - Load(t.before.world.pool, id) + Load(Called(env, t).pool, id) - Load(t.taken.pool, id)
  }

  ghost function Drift(env: Env, run: seq<Turn>, id: int): int {
    if run == [] then 0 else Drift(env, run[..|run| - 1], id) + TurnDrift(env, run[|run| - 1], id)
  }

  lemma PoolAfterLoad(pool: PoolState, req: Request, acc: Account, fromPool: bool, reply: Reply, now: int, id: int)
    requires ValidState(pool)
    ensures Load(PoolAfter(pool, req, acc, fromPool, reply, now), id)
            == Load(pool, id) - (if fromPool && id == acc.id && Load(pool, id) >= 1 then 1 else 0)
  {
    hide Classify;
  }

  lemma TurnReturnsAccount(env: Env, req: Request, t: Turn, id: int)
    requires TurnOk(env, req, t) && KeepsHeld(env, t)
    ensures Load(t.after.world.pool, id) == Load(t.before.world.pool, id) + TurnDrift(env, t, id)
  {
    hide Classify, TableAfter, PoolAfter, Load, Outset, NextTakes, Usable, ValidState;
    PoolAfterLoad(Called(env, t).pool, req, t.acc, t.fromPool, t.reply, env.clock(2 * t.before.attempt + 1), id);
    if t.fromPool {
      NextYieldsActive(t.seen.pool, t.seen.table, t.before.excluded, env.clock(2 * t.before.attempt), RoundRobin,
                       t.acc, t.taken.pool);
    }
  }

  /** Across any run every account taken from the scheduler is returned exactly
      once: the counts move only by what others did. */
  lemma {:induction false} InFlightIsReturned(env: Env, req: Request, w: World, run: seq<Turn>, id: int)
    requires Run(env, req, w, run) && forall i :: 0 <= i < |run| ==> KeepsHeld(env, run[i])
    ensures Load(Head(req, w, run).world.pool, id) == Load(w.pool, id) + Drift(env, run, id)
    decreases |run|
  {
    hide Run, TurnOk, KeepsHeld, TurnDrift, Load;
    if run != [] {
      var n := |run| - 1;
      RunPrefix(env, req, w, run, n);
      InFlightIsReturned(env, req, w, run[..n], id);
      TurnIsOk(env, req, w, run, n);
      TurnReturnsAccount(env, req, run[n], id);
    }
  }

  // ----- The driver -----

  lemma EmptyRun(env: Env, req: Request, w: World)
    ensures Run(env, req, w, [])
  {
  }

  lemma SoundKeepsValid(env: Env, j: nat, p: PoolState)
    requires KeepsSound(env) && ValidState(p)
    ensures ValidState(env.pool(j, p))
  {
    hide ValidState;
  }

  lemma MadeTurn(env: Env, req: Request, t: Turn)
    requires t.before.attempt < t.before.maxAttempts
    requires t.seen == Interfere(env, 2 * t.before.attempt, t.before.world)
    requires Selects(t.seen, t.before.pinned, env.sticky(t.before.attempt), t.before.excluded,
                     env.clock(2 * t.before.attempt), t.acc, t.fromPool, t.taken)
    requires t.reply == env.answer(t.before.attempt, t.acc)
    requires t.out == Outset(t.reply, t.after.emitted, t.before.gwRetried)
    requires t.after.emitted == (t.before.emitted || t.reply.emitted > 0)
    requires var v, goesOn := Classify(t.reply), t.out.None?;
             && t.after.attempt == t.before.attempt + 1
             && t.after.maxAttempts == t.before.maxAttempts + (if goesOn && RaisesBound(v) then 1 else 0)
             && t.after.excluded == (if goesOn && Excludes(v) then t.before.excluded + {t.acc.id} else t.before.excluded)
             && t.after.pinned == (if goesOn && Pins(v) && req.reusableHistory then Some(t.acc.id) else t.before.pinned)
             && t.after.gwRetried == (t.before.gwRetried || (goesOn && v == GatewayChance))
    requires t.after.egressSeq
             == NextEgressSeq(t.before.egressSeq, t.before.prevAcc, t.acc.id, t.before.attempt == 0)
    requires t.after.prevAcc == t.acc.id
    requires var called, now := Called(env, t), env.clock(2 * t.before.attempt + 1);
             t.after.world == World(TableAfter(called.table, t.acc, t.reply, t.after.emitted, now),
                                    PoolAfter(called.pool, req, t.acc, t.fromPool, t.reply, now))
    ensures TurnOk(env, req, t)
  {
    hide Classify, Selects, TableAfter, PoolAfter, Outset, RaisesBound, Excludes, Pins;
  }

  /** What is left to try shrinks with every attempt that does not end the loop. */
  lemma Progresses(env: Env, req: Request, t: Turn, ids: set<int>)
    requires TurnOk(env, req, t) && t.out.None? && KeepsWithin(env, ids) && Within(t.before.world.table, ids)
    ensures |ids - t.after.excluded| + (if t.after.gwRetried then 0 else 1) + t.after.maxAttempts - t.after.attempt
            < |ids - t.before.excluded| + (if t.before.gwRetried then 0 else 1) + t.before.maxAttempts - t.before.attempt
  {
    hide Classify, Selects, TableAfter, PoolAfter, Outset, ValidState;
    StaysWithin(env, req, t, ids);
    TurnExcludes(env, req, t);
    GoingOn(t.reply, t.before.emitted || t.reply.emitted > 0, t.before.gwRetried);
    assert t.acc in t.seen.table;
    assert t.acc.id in ids && t.acc.id !in t.before.excluded;
    if Excludes(Classify(t.reply)) {
      assert ids - t.after.excluded == (ids - t.before.excluded) - {t.acc.id};
    } else {
      assert t.after.excluded == t.before.excluded;
    }
  }

  class Store {
    var table: seq<Account>

    method SetStatus(id: int, status: Status)
      modifies this
      ensures table == WithStatus(old(table), id, status)
    {
      table := WithStatus(table, id, status);
    }

    method SetEnabled(id: int, enabled: bool)
      modifies this
      ensures table == WithEnabled(old(table), id, enabled)
    {
      table := WithEnabled(table, id, enabled);
    }

    method MarkUsed(id: int, now: int)
      modifies this
      ensures table == WithLastUsed(old(table), id, now)
    {
      table := WithLastUsed(table, id, now);
    }

    /** `applyUsageState`. */
    method SyncUsage(acc: Account, reply: Reply)
      modifies this
      ensures table == ApplyUsage(old(table), acc, reply)
    {
      if reply.usage.None? {
        return;
      }
      match reply.usage.value.state
      case UsageBlocked =>
        if acc.status != Failed {
          SetStatus(acc.id, Failed);
        }
        if acc.enabled {
          SetEnabled(acc.id, false);
        }
      case UsageExceeded =>
        if acc.status != Exhausted {
          SetStatus(acc.id, Exhausted);
        }
      case UsageAvailable =>
        if ReportsExhausted(reply) {
          if acc.status != Exhausted {
            SetStatus(acc.id, Exhausted);
          }
        } else if acc.status != Active {
          SetStatus(acc.id, Active);
        }
        if !acc.enabled {
          SetEnabled(acc.id, true);
        }
      case UsageOther =>
    }

    /** `markOffline`. */
    method TakeOffline(acc: Account)
      modifies this
      ensures table == MarkOffline(old(table), acc)
    {
      if acc.status != Offline {
        SetStatus(acc.id, Offline);
      }
      if acc.enabled {
        SetEnabled(acc.id, false);
      }
    }
  }

  /** The last branches: failures that do not drop the account for good. */
  method HandlePassing(req: Request, store: Store, excluded: set<int>, pinned: Option<int>, emitted: bool,
                       acc: Account, reply: Reply)
    returns (pinned': Option<int>, excluded': set<int>, out: Option<Outcome>)
    requires Classify(reply) in {Transient, Flagged, Upstream, Unclassified}
    modifies store
    ensures out == if emitted then Some(BrokenStream) else None
    ensures excluded' == if !emitted && Classify(reply) == Flagged then excluded + {acc.id} else excluded
    ensures pinned' == if !emitted && Classify(reply) != Transient && req.reusableHistory then Some(acc.id) else pinned
    ensures store.table ==
              if Classify(reply) == Transient then WithStatus(old(store.table), acc.id, Active)
              else if emitted then old(store.table)
              else WithStatus(old(store.table), acc.id, if Classify(reply) == Unclassified then Failed else Active)
  {
    hide IsTransient, IsSafetyFlagged, WithStatus;
    pinned', excluded', out := pinned, excluded, None;
    if reply.kind == RateLimited || IsTransient(reply.error) {
      store.SetStatus(acc.id, Active);
      if emitted {
        out := Some(BrokenStream);
      }
      return;
    }
    if emitted {
      out := Some(BrokenStream);
      return;
    }
    if req.reusableHistory {
      pinned' := Some(acc.id);
    }
    if IsSafetyFlagged(reply.error) {
      excluded' := excluded + {acc.id};
      store.SetStatus(acc.id, Active);
      return;
    }
    if reply.kind == UpstreamFailure {
      store.SetStatus(acc.id, Active);
      return;
    }
    store.SetStatus(acc.id, Failed);
  }

  /** A block by the upstream gateway. */
  method HandleGateway(req: Request, pool: Scheduler, bound: nat, gwRetried: bool, emitted: bool,
                       acc: Account, reply: Reply, now: int)
    returns (bound': nat, gwRetried': bool, out: Option<Outcome>)
    requires pool.Valid()
    modifies pool`gatewayCooldown
    ensures pool.Valid()
    ensures out == if emitted then Some(BrokenStream)
                   else if reply.signatureHits == 0 && !gwRetried then None
                   else Some(GatewayStopped)
    ensures bound' == if out.None? then bound + 1 else bound
    ensures gwRetried' == (gwRetried || out.None?)
    ensures pool.gatewayCooldown ==
              if reply.signatureHits > 0 || req.gatewayCooldown <= 0 then old(pool.gatewayCooldown)
              else old(pool.gatewayCooldown)[acc.id := now + req.gatewayCooldown]
  {
    bound', gwRetried', out := bound, gwRetried, None;
    if reply.signatureHits == 0 {
      pool.MarkGatewayBlocked(acc.id, req.gatewayCooldown, now);
      if !gwRetried {
        if emitted {
          out := Some(BrokenStream);
          return;
        }
        gwRetried', bound' := true, bound + 1;
        return;
      }
    }
    out := Some(if emitted then BrokenStream else GatewayStopped);
  }

  /** The branches that drop the account: blocked, quota spent, session dead. */
  method HandleDrop(store: Store, bound: nat, excluded: set<int>, emitted: bool, acc: Account, reply: Reply)
    returns (bound': nat, excluded': set<int>, out: Option<Outcome>)
    requires Classify(reply) in {DropBlocked, DropSpent, DropDead}
    modifies store
    ensures out == if emitted then Some(BrokenStream) else None
    ensures excluded' == if emitted then excluded else excluded + {acc.id}
    ensures bound' == if emitted || Classify(reply) == DropSpent then bound else bound + 1
    ensures store.table ==
              match Classify(reply)
              case DropSpent => WithStatus(old(store.table), acc.id, Exhausted)
              case DropDead => MarkOffline(old(store.table), acc)
              case _ => old(store.table)
  {
    hide IsTransient, IsSafetyFlagged, WithStatus, MarkOffline;
    bound', excluded', out := bound, excluded, None;
    if ReportsBlocked(reply) {
      if emitted {
        out := Some(BrokenStream);
        return;
      }
      excluded', bound' := excluded + {acc.id}, bound + 1;
      return;
    }
    if reply.kind == QuotaSpent {
      store.SetStatus(acc.id, Exhausted);
      if emitted {
        out := Some(BrokenStream);
        return;
      }
      excluded' := excluded + {acc.id};
      return;
    }
    store.TakeOffline(acc);
    if emitted {
      out := Some(BrokenStream);
      return;
    }
    excluded', bound' := excluded + {acc.id}, bound + 1;
  }

  /** The part of the loop body after the provider call: the retry bound, the
      excluded accounts, the pinned account, the gateway flag, and the result
      when the loop ends here. */
  method HandleReply(req: Request, store: Store, pool: Scheduler, bound: nat, excluded: set<int>,
                     pinned: Option<int>, gwRetried: bool, emitted: bool,
                     acc: Account, fromPool: bool, reply: Reply, now: int)
    returns (bound': nat, excluded': set<int>, pinned': Option<int>, gwRetried': bool, out: Option<Outcome>)
    requires pool.Valid()
    modifies store, pool
    ensures pool.Valid()
    ensures out == Outset(reply, emitted, gwRetried)
    ensures bound' == bound + (if out.None? && RaisesBound(Classify(reply)) then 1 else 0)
    ensures excluded' == if out.None? && Excludes(Classify(reply)) then excluded + {acc.id} else excluded
    ensures pinned' == if out.None? && Pins(Classify(reply)) && req.reusableHistory then Some(acc.id) else pinned
    ensures gwRetried' == (gwRetried || (out.None? && Classify(reply) == GatewayChance))
    ensures store.table == TableAfter(old(store.table), acc, reply, emitted, now)
    ensures pool.State() == PoolAfter(old(pool.State()), req, acc, fromPool, reply, now)
  {
    hide IsTransient, IsSafetyFlagged, ClientGone, ReportsBlocked, ApplyUsage, MarkOffline, Released, ValidState;
    hide WithStatus, WithLastUsed;
    bound', excluded', pinned', gwRetried', out := bound, excluded, pinned, gwRetried, None;
    if fromPool {
      pool.Done(acc.id);
    }
    store.SyncUsage(acc, reply);
    if reply.success {
      store.MarkUsed(acc.id, now);
      pool.Reserve(acc.id, req.reservation, now);
      out := Some(Delivered(reply));
      return;
    }
    hide Classify, TableByVerdict, PoolByVerdict, Outset, Excludes, RaisesBound, Pins;
    bound', excluded', pinned', gwRetried', out :=
      HandleFailure(req, store, pool, bound, excluded, pinned, gwRetried, emitted, acc, reply, now);
  }

  /** A reply that is no success, branch by branch. */
  method HandleFailure(req: Request, store: Store, pool: Scheduler, bound: nat, excluded: set<int>,
                       pinned: Option<int>, gwRetried: bool, emitted: bool, acc: Account, reply: Reply, now: int)
    returns (bound': nat, excluded': set<int>, pinned': Option<int>, gwRetried': bool, out: Option<Outcome>)
    requires pool.Valid() && !reply.success
    modifies store, pool
    ensures pool.Valid()
    ensures out == Outset(reply, emitted, gwRetried)
    ensures bound' == bound + (if out.None? && RaisesBound(Classify(reply)) then 1 else 0)
    ensures excluded' == if out.None? && Excludes(Classify(reply)) then excluded + {acc.id} else excluded
    ensures pinned' == if out.None? && Pins(Classify(reply)) && req.reusableHistory then Some(acc.id) else pinned
    ensures gwRetried' == (gwRetried || (out.None? && Classify(reply) == GatewayChance))
    ensures store.table == TableByVerdict(old(store.table), acc, reply, emitted, now)
    ensures pool.State() == PoolByVerdict(old(pool.State()), req, acc, reply, now)
  {
    hide IsTransient, IsSafetyFlagged, ClientGone, ReportsBlocked, MarkOffline, ValidState;
    hide WithStatus, WithLastUsed;
    bound', excluded', pinned', gwRetried', out := bound, excluded, pinned, gwRetried, None;
    if ClientGone(reply) {
      out := Some(ClientLeft);
      return;
    }
    if reply.kind == GatewayBlocked {
      bound', gwRetried', out := HandleGateway(req, pool, bound, gwRetried, emitted, acc, reply, now);
      return;
    }
    if reply.kind == RequestRejected {
      out := Some(Refused);
      return;
    }
    if ReportsBlocked(reply) || reply.kind == QuotaSpent || reply.kind == AuthFailed {
      bound', excluded', out := HandleDrop(store, bound, excluded, emitted, acc, reply);
      return;
    }
    pinned', excluded', out := HandlePassing(req, store, excluded, pinned, emitted, acc, reply);
  }

  /** `selectAccount` over `pickAccount`: the pinned account, the owner of the
      conversation, or the scheduler's choice. */
  method SelectAccount(store: Store, pool: Scheduler, pinned: Option<int>, sticky: Option<int>,
                       excluded: set<int>, now: int)
    returns (acc: Option<Account>, fromPool: bool)
    requires pool.Valid()
    modifies pool
    ensures pool.Valid()
    ensures acc.None? ==> pool.State() == old(pool.State())
    ensures acc.None? ==> NothingToSelect(World(store.table, pool.State()), pinned, sticky, excluded)
    ensures acc.Some? ==> Selects(World(store.table, old(pool.State())), pinned, sticky, excluded, now,
                                  acc.value, fromPool, World(store.table, pool.State()))
  {
    hide NextTakes, UsableForSticky;
    if pinned.Some? && pinned.value !in excluded {
      var found := FindAccount(store.table, pinned.value);
      if found.Some? && UsableForSticky(found.value) {
        return found, false;
      }
    }
    if sticky.Some? && sticky.value !in excluded {
      var found := FindAccount(store.table, sticky.value);
      if found.Some? && UsableForSticky(found.value) {
        return found, false;
      }
    }
    acc := pool.Next(ActiveAccounts(store.table), excluded, now, RoundRobin);
    fromPool := true;
  }

  /** Others act on the table and the scheduler. */
  method LetOthersRun(env: Env, j: nat, store: Store, pool: Scheduler)
    requires pool.Valid() && ValidState(env.pool(j, pool.State()))
    modifies store, pool
    ensures pool.Valid()
    ensures World(store.table, pool.State()) == old(Interfere(env, j, World(store.table, pool.State())))
  {
    var p := env.pool(j, pool.State());
    store.table := env.table(j, store.table);
    pool.last, pool.inFlight := p.last, p.inFlight;
    pool.gatewayCooldown, pool.reservedUntil := p.gatewayCooldown, p.reservedUntil;
  }

  predicate Within(table: seq<Account>, ids: set<int>) {
    forall i :: 0 <= i < |table| ==> table[i].id in ids
  }

  /** Others keep the scheduler sound. */
  ghost predicate KeepsSound(env: Env) {
    forall j, p :: ValidState(p) ==> ValidState(env.pool(j, p))
  }

  /** Others bring in no account outside `ids`. */
  ghost predicate KeepsWithin(env: Env, ids: set<int>) {
    forall j, t :: Within(t, ids) ==> Within(env.table(j, t), ids)
  }

  lemma StaysWithin(env: Env, req: Request, t: Turn, ids: set<int>)
    requires TurnOk(env, req, t) && KeepsWithin(env, ids) && Within(t.before.world.table, ids)
    ensures Within(t.seen.table, ids) && Within(t.after.world.table, ids)
  {
    var k := t.before.attempt;
    hide Within;
    assert Within(t.seen.table, ids) && t.taken.table == t.seen.table by {
      hide AfterReply, ValidState, NextTakes;
    }
    var table := Called(env, t).table;
    assert Within(table, ids);
    TableAfterIs(env, req, t);
    TableAfterKeepsIds(table, t.acc, t.reply, t.before.emitted || t.reply.emitted > 0, env.clock(2 * k + 1));
    hide TurnOk, TableAfter;
    SameIdsWithin(table, t.after.world.table, ids);
  }

  lemma SameIdsWithin(a: seq<Account>, b: seq<Account>, ids: set<int>)
    requires Within(a, ids) && SameIds(a, b)
    ensures Within(b, ids)
  {
  }

  lemma Extend(env: Env, req: Request, w: World, run: seq<Turn>, t: Turn)
    requires Run(env, req, w, run) && (run != [] ==> run[|run| - 1].out.None?)
    requires TurnOk(env, req, t) && t.before == Head(req, w, run)
    ensures Run(env, req, w, run + [t]) && Head(req, w, run + [t]) == t.after
  {
    hide TurnOk;
    var longer := run + [t];
    forall i | 0 <= i < |longer| - 1
      ensures Linked(longer, i)
    {
      if i < |run| - 1 {
        assert Linked(run, i);
      }
    }
  }

  /** One turn of the loop: choose, call, react. The ghost result records it;
      it is missing when there was no account to choose. */
  method TryOnce(env: Env, req: Request, store: Store, pool: Scheduler, s: Loop)
    returns (s': Loop, out: Option<Outcome>, ghost t: Option<Turn>)
    requires pool.Valid() && KeepsSound(env)
    requires s.attempt < s.maxAttempts && s.world == World(store.table, pool.State())
    modifies store, pool
    ensures pool.Valid() && s'.world == World(store.table, pool.State())
    ensures t.Some? ==> TurnOk(env, req, t.value) && t.value.before == s && t.value.after == s' && t.value.out == out
    ensures t.None? ==> out == Some(NoAccount) && s'.world == Interfere(env, 2 * s.attempt, s.world)
                        && NothingToSelect(s'.world, s.pinned, env.sticky(s.attempt), s.excluded)
  {
    hide TurnOk, Selects, NothingToSelect, TableAfter, PoolAfter, ValidState;
    hide Outset, Excludes, RaisesBound, Pins, Classify, NextEgressSeq;
    var k := s.attempt;
    SoundKeepsValid(env, 2 * k, pool.State());
    LetOthersRun(env, 2 * k, store, pool);
    ghost var seen := World(store.table, pool.State());
    var acc, fromPool := SelectAccount(store, pool, s.pinned, env.sticky(k), s.excluded, env.clock(2 * k));
    if acc.None? {
      s' := s.(world := World(store.table, pool.State()));
      return s', Some(NoAccount), None;
    }
    ghost var taken := World(store.table, pool.State());
    var egressSeq := NextEgressSeq(s.egressSeq, s.prevAcc, acc.value.id, k == 0);
    SoundKeepsValid(env, 2 * k + 1, pool.State());
    LetOthersRun(env, 2 * k + 1, store, pool);
    var reply := env.answer(k, acc.value);
    var emitted := s.emitted || reply.emitted > 0;
    var bound, excluded, pinned, gwRetried;
    bound, excluded, pinned, gwRetried, out :=
      HandleReply(req, store, pool, s.maxAttempts, s.excluded, s.pinned, s.gwRetried, emitted,
                  acc.value, fromPool, reply, env.clock(2 * k + 1));
    s' := Loop(k + 1, bound, excluded, pinned, gwRetried, egressSeq, acc.value.id, emitted,
               World(store.table, pool.State()));
    t := Some(Turn(s, seen, taken, acc.value, fromPool, reply, s', out));
    MadeTurn(env, req, t.value);
  }

  /** `runAttempts`. The loop ends although three branches raise its bound:
      each raise drops an account for good or uses the one gateway retry. */
  method RunAttempts(env: Env, req: Request, store: Store, pool: Scheduler, ghost ids: set<int>)
    returns (out: Outcome, ghost run: seq<Turn>)
    requires pool.Valid() && KeepsSound(env) && KeepsWithin(env, ids) && Within(store.table, ids)
    modifies store, pool
    ensures pool.Valid()
    ensures Ends(env, req, World(old(store.table), old(pool.State())), run, out, World(store.table, pool.State()))
  {
    hide TurnOk, Run, NothingToSelect, ValidState, Within, KeepsWithin, KeepsSound;
    ghost var w := World(store.table, pool.State());
    run := [];
    EmptyRun(env, req, w);
    var s := Init(req, World(store.table, pool.State()));
    while s.attempt < s.maxAttempts
      invariant pool.Valid() && s.world == World(store.table, pool.State())
      invariant Run(env, req, w, run) && (run != [] ==> run[|run| - 1].out.None?)
      invariant Head(req, w, run) == s && Within(s.world.table, ids)
      decreases |ids - s.excluded| + (if s.gwRetried then 0 else 1) + s.maxAttempts - s.attempt
    {
      var ended;
      ghost var t;
      s, ended, t := TryOnce(env, req, store, pool, s);
      if t.Some? {
        Extend(env, req, w, run, t.value);
        run := run + [t.value];
      }
      if ended.Some? {
        return ended.value, run;
      }
      Progresses(env, req, t.value, ids);
      StaysWithin(env, req, t.value, ids);
    }
    out := AllFailed;
  }
}
