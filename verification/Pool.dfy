/** Accounts and the table they live in. */
module Accounts {
  import opened Base

  datatype Status = Active | Exhausted | Failed | Offline | Pending

  datatype Account = Account(
    id: int, status: Status, enabled: bool, plan: string,
    quotaLimit: real, quotaRemaining: real,
    rateLimit: int, rateRemaining: int,
    lastUsedAt: Option<int>)

  /** The quota is known and used up; an unknown limit does not count. */
  predicate QuotaExhausted(acc: Account) {
    acc.quotaLimit > 0.0 && acc.quotaRemaining <= 0.0
  }

  predicate IsActive(acc: Account) {
    acc.status == Active && acc.enabled
  }

  /** `Store.ActiveAccounts`: table order is kept. */
  function ActiveAccounts(all: seq<Account>): (out: seq<Account>)
    ensures forall a :: a in out <==> a in all && IsActive(a)
  {
    if all == [] then []
    else (if IsActive(all[0]) then [all[0]] else []) + ActiveAccounts(all[1..])
  }
}

/** The account scheduler. */
module Pool {
  import opened Base
  import opened Accounts

  datatype QuotaMode = RoundRobin | Ratio | Absolute

  const PREFERRED_PLAN: string := "sync-solo-trial"

  predicate PreferredPlan(acc: Account) {
    PREFERRED_PLAN <= acc.plan
  }

  /** The scheduler's memory. A missing `inFlight` entry means 0. */
  datatype PoolState = PoolState(last: int, inFlight: map<int, int>,
                                 gatewayCooldown: map<int, int>, reservedUntil: map<int, int>)

  ghost predicate ValidState(p: PoolState) {
    p.last >= -1 && forall id :: id in p.inFlight ==> p.inFlight[id] >= 1
  }

  function InFlight(m: map<int, int>, id: int): int {
    if id in m then m[id] else 0
  }

  function Load(p: PoolState, id: int): int {
    InFlight(p.inFlight, id)
  }

  predicate Cooling(p: PoolState, id: int, now: int) {
    id in p.gatewayCooldown && now < p.gatewayCooldown[id]
  }

  predicate Reserved(p: PoolState, id: int, now: int) {
    id in p.reservedUntil && now < p.reservedUntil[id]
  }

  // ----- Comparing quotas -----

  /** `ratioCmp`: 1 when a has the larger remaining share, -1 when b has. */
  function RatioCmp(ra: int, la: int, rb: int, lb: int): int {
    if la <= 0 && lb <= 0 then 0
    else if la <= 0 then (if rb > 0 then -1 else 0)
    else if lb <= 0 then (if ra > 0 then 1 else 0)
    else if ra * lb > rb * la then 1
    else if ra * lb < rb * la then -1
    else 0
  }

  function QuotaCmp(mode: QuotaMode, ra: int, la: int, rb: int, lb: int): int {
    if mode == Absolute then
      (if ra > rb then 1 else if ra < rb then -1 else 0)
    else RatioCmp(ra, la, rb, lb)
  }

  /** The share the comparison means: an unknown limit counts as nothing left. */
  function Share(r: int, l: int): real {
    if l <= 0 then 0.0 else r as real / l as real
  }

  lemma CrossMultiply(ra: int, la: int, rb: int, lb: int)
    requires la > 0 && lb > 0
    ensures ra * lb > rb * la <==> ra as real / la as real > rb as real / lb as real
    ensures ra * lb < rb * la <==> ra as real / la as real < rb as real / lb as real
  {
    var x, y := ra as real / la as real, rb as real / lb as real;
    var l := la as real * lb as real;
    assert l > 0.0;
    assert x * l == ra as real * lb as real == (ra * lb) as real by {
      assert x * la as real == ra as real;
    }
    assert y * l == rb as real * la as real == (rb * la) as real by {
      assert y * lb as real == rb as real;
    }
    ScaleOrder(x, y, l);
  }

  lemma ScaleOrder(x: real, y: real, l: real)
    requires l > 0.0
    ensures x * l > y * l <==> x > y
    ensures x * l < y * l <==> x < y
  {
  }

  /** A known limit with a negative count is what the comparison cannot order. */
  predicate Measurable(r: int, l: int) {
    l > 0 ==> r >= 0
  }

  /** Cross-multiplication orders by share unless one count is negative and the
      other account's limit unknown. */
  lemma RatioCmpIsShareOrder(ra: int, la: int, rb: int, lb: int)
    ensures -1 <= RatioCmp(ra, la, rb, lb) <= 1
    ensures (&& (RatioCmp(ra, la, rb, lb) == 1 <==> Share(ra, la) > Share(rb, lb))
             && (RatioCmp(ra, la, rb, lb) == -1 <==> Share(ra, la) < Share(rb, lb)))
            <==> (lb <= 0 && la > 0 ==> ra >= 0) && (la <= 0 && lb > 0 ==> rb >= 0)
  {
    if la > 0 && lb > 0 {
      CrossMultiply(ra, la, rb, lb);
    } else if la > 0 {
      CrossMultiply(ra, la, 0, 1);
    } else if lb > 0 {
      CrossMultiply(0, 1, rb, lb);
    }
  }

  /** "At least as good" is transitive over three counts unless the middle one
      has no limit and the outer two are known, at most zero and out of order:
      with counts that are not negative it is always transitive. */
  lemma RatioTransitiveIff(ra: int, la: int, rb: int, lb: int, rc: int, lc: int)
    requires RatioCmp(ra, la, rb, lb) >= 0 && RatioCmp(rb, lb, rc, lc) >= 0
    ensures RatioCmp(ra, la, rc, lc) >= 0
            <==> !(lb <= 0 && la > 0 && lc > 0 && rc <= 0 && ra * lc < rc * la)
  {
    if la > 0 && lc > 0 {
      CrossMultiply(ra, la, rc, lc);
      if lb > 0 {
        CrossMultiply(ra, la, rb, lb);
        CrossMultiply(rb, lb, rc, lc);
      } else if rc > 0 {
        assert false;
      }
    } else if la > 0 && lb > 0 {
      CrossMultiply(ra, la, rb, lb);
      if ra < 0 {
        assert RatioCmp(ra, la, rc, lc) == 0;
      }
    } else if lc > 0 && lb > 0 {
      CrossMultiply(rb, lb, rc, lc);
      CrossMultiply(rb, lb, 0, 1);
      CrossMultiply(rc, lc, 0, 1);
    }
  }

  // ----- Ranking -----

  predicate NeverUsed(acc: Account) {
    acc.lastUsedAt.None?
  }

  function Standing(reserved: bool): int {
    if reserved then 1 else 0
  }

  /** What a candidate is ranked by. */
  datatype Grade = Grade(remaining: int, limit: int, load: int, standing: int, neverUsed: bool, pref: bool)

  function GradeOf(p: PoolState, now: int, acc: Account): Grade {
    Grade(acc.rateRemaining, acc.rateLimit, Load(p, acc.id), Standing(Reserved(p, acc.id, now)),
          NeverUsed(acc), PreferredPlan(acc))
  }

  /** Between equal quotas: the preferred plan, then never used, then the lower
      load. */
  predicate TieAhead(a: Grade, b: Grade) {
    (a.pref && !b.pref) ||
    (a.pref == b.pref && ((a.neverUsed && !b.neverUsed) || (a.neverUsed == b.neverUsed && a.load < b.load)))
  }

  /** A candidate of grade `a` displaces the best so far, of grade `b`. */
  predicate Outranks(mode: QuotaMode, a: Grade, b: Grade) {
    if mode != RoundRobin then
      var c := QuotaCmp(mode, a.remaining, a.limit, b.remaining, b.limit);
      c == 1 || (c == 0 && TieAhead(a, b))
    else
      (a.pref && !b.pref) ||
      (a.pref == b.pref && ((a.neverUsed && !b.neverUsed) ||
        (a.neverUsed == b.neverUsed && (a.load < b.load || (a.load == b.load && a.standing < b.standing)))))
  }

  predicate Beats(mode: QuotaMode, p: PoolState, now: int, a: Account, b: Account) {
    Outranks(mode, GradeOf(p, now, a), GradeOf(p, now, b))
  }

  predicate Comparable(mode: QuotaMode, a: Account) {
    mode == Ratio ==> Measurable(a.rateRemaining, a.rateLimit)
  }

  /** Displacement is a strict weak order: it is asymmetric, and beating an
      account means beating everything that does not beat it. */
  lemma BeatsIsStrictWeakOrder(mode: QuotaMode, p: PoolState, now: int, a: Account, b: Account, c: Account)
    requires Comparable(mode, a) && Comparable(mode, b) && Comparable(mode, c)
    ensures !(Beats(mode, p, now, a, b) && Beats(mode, p, now, b, a))
    ensures Beats(mode, p, now, a, b) && !Beats(mode, p, now, c, b) ==> Beats(mode, p, now, a, c)
  {
    if mode == Ratio {
      hide PreferredPlan, Load, Share, RatioCmp;
      RatioCmpIsShareOrder(a.rateRemaining, a.rateLimit, b.rateRemaining, b.rateLimit);
      RatioCmpIsShareOrder(b.rateRemaining, b.rateLimit, a.rateRemaining, a.rateLimit);
      RatioCmpIsShareOrder(c.rateRemaining, c.rateLimit, b.rateRemaining, b.rateLimit);
      RatioCmpIsShareOrder(a.rateRemaining, a.rateLimit, c.rateRemaining, c.rateLimit);
    }
  }

  // ----- Circles -----

  predicate Known(g: Grade) {
    g.limit > 0
  }

  /** Of two known counts the first has the larger share. */
  predicate MoreLeft(a: Grade, b: Grade) {
    a.remaining * b.limit > b.remaining * a.limit
  }

  /** A circle: `z` with nothing left has more than the overdrawn `n`, `n` is
      ahead of `u` on the tie-break and `u`, of unknown limit, ahead of `z`. */
  predicate Circle(z: Grade, n: Grade, u: Grade) {
    && Known(z) && Known(n) && !Known(u)
    && z.remaining <= 0 && MoreLeft(z, n)
    && TieAhead(n, u) && TieAhead(u, z)
  }

  /** Displacement in ratio mode, with and without a known limit. */
  lemma RatioOutranks(a: Grade, b: Grade)
    ensures Outranks(Ratio, a, b)
       <==> if Known(a) && Known(b) then MoreLeft(a, b) || (!MoreLeft(b, a) && TieAhead(a, b))
            else if Known(a) then a.remaining > 0 || TieAhead(a, b)
            else if Known(b) then b.remaining <= 0 && TieAhead(a, b)
            else TieAhead(a, b)
  {
    hide TieAhead;
  }

  lemma TieIsStrictWeakOrder(a: Grade, b: Grade, c: Grade)
    ensures !TieAhead(a, a) && !(TieAhead(a, b) && TieAhead(b, a))
    ensures TieAhead(a, b) && !TieAhead(c, b) ==> TieAhead(a, c)
    ensures TieAhead(a, b) && TieAhead(b, c) ==> TieAhead(a, c)
  {
  }

  /** Shares order known counts, whatever their signs. */
  lemma MoreLeftIsStrictWeakOrder(a: Grade, b: Grade, c: Grade)
    requires Known(a) && Known(b) && Known(c)
    ensures !MoreLeft(a, a) && !(MoreLeft(a, b) && MoreLeft(b, a))
    ensures MoreLeft(a, b) && !MoreLeft(c, b) ==> MoreLeft(a, c)
    ensures MoreLeft(a, b) && MoreLeft(b, c) ==> MoreLeft(a, c)
  {
    CrossMultiply(a.remaining, a.limit, b.remaining, b.limit);
    CrossMultiply(b.remaining, b.limit, a.remaining, a.limit);
    CrossMultiply(c.remaining, c.limit, b.remaining, b.limit);
    CrossMultiply(b.remaining, b.limit, c.remaining, c.limit);
    CrossMultiply(a.remaining, a.limit, c.remaining, c.limit);
  }

  lemma MoreLeftSign(a: Grade, b: Grade)
    requires Known(a) && Known(b)
    ensures b.remaining > 0 && !MoreLeft(b, a) ==> a.remaining > 0
    ensures a.remaining > 0 && b.remaining <= 0 ==> MoreLeft(a, b)
  {
    CrossMultiply(a.remaining, a.limit, b.remaining, b.limit);
    CrossMultiply(b.remaining, b.limit, a.remaining, a.limit);
    CrossMultiply(a.remaining, a.limit, 0, 1);
    CrossMultiply(b.remaining, b.limit, 0, 1);
  }

  /** Exactly when three accounts displace one another in a circle. */
  lemma CircleIff(a: Grade, b: Grade, c: Grade)
    ensures Outranks(Ratio, a, b) && Outranks(Ratio, b, c) && Outranks(Ratio, c, a)
       <==> Circle(a, b, c) || Circle(b, c, a) || Circle(c, a, b)
  {
    RatioOutranks(a, b);
    RatioOutranks(b, c);
    RatioOutranks(c, a);
    TieIsStrictWeakOrder(a, b, c);
    TieIsStrictWeakOrder(b, c, a);
    TieIsStrictWeakOrder(c, a, b);
    if Known(a) && Known(b) && Known(c) {
      MoreLeftIsStrictWeakOrder(a, b, c);
      MoreLeftIsStrictWeakOrder(b, c, a);
      MoreLeftIsStrictWeakOrder(c, a, b);
      MoreLeftIsStrictWeakOrder(a, c, b);
    }
    if Known(a) && Known(b) { MoreLeftSign(a, b); }
    if Known(b) && Known(c) { MoreLeftSign(b, c); }
    if Known(c) && Known(a) { MoreLeftSign(c, a); }
    hide TieAhead, MoreLeft, Outranks;
  }

  // ----- No best candidate -----

  ghost predicate Unbeaten(gs: seq<Grade>, i: int) {
    0 <= i < |gs| && forall j :: 0 <= j < |gs| ==> !Outranks(Ratio, gs[j], gs[i])
  }

  /** Not displaced by any candidate whose limit is likewise known or unknown. */
  ghost predicate BestOfKind(gs: seq<Grade>, i: int) {
    0 <= i < |gs| && forall j :: 0 <= j < |gs| && Known(gs[j]) == Known(gs[i]) ==> !Outranks(Ratio, gs[j], gs[i])
  }

  /** Within one kind displacement is a strict weak order. */
  lemma KindIsOrdered(a: Grade, b: Grade, c: Grade)
    requires Known(a) == Known(b) == Known(c)
    ensures !Outranks(Ratio, a, a) && !(Outranks(Ratio, a, b) && Outranks(Ratio, b, a))
    ensures Outranks(Ratio, a, b) && !Outranks(Ratio, c, b) ==> Outranks(Ratio, a, c)
  {
    RatioOutranks(a, a);
    RatioOutranks(a, b);
    RatioOutranks(b, a);
    RatioOutranks(c, b);
    RatioOutranks(a, c);
    TieIsStrictWeakOrder(a, b, c);
    if Known(a) {
      MoreLeftIsStrictWeakOrder(a, b, c);
      MoreLeftIsStrictWeakOrder(b, a, c);
      MoreLeftIsStrictWeakOrder(c, b, a);
      MoreLeftIsStrictWeakOrder(b, c, a);
      MoreLeftIsStrictWeakOrder(a, c, b);
    }
    hide TieAhead, MoreLeft, Outranks;
  }

  lemma {:induction false} KindHasBest(gs: seq<Grade>, n: nat, known: bool) returns (b: int)
    requires n <= |gs|
    ensures -1 <= b < n
    ensures b == -1 ==> forall i :: 0 <= i < n ==> Known(gs[i]) != known
    ensures b >= 0 ==> Known(gs[b]) == known
    ensures b >= 0 ==> forall j :: 0 <= j < n && Known(gs[j]) == known ==> !Outranks(Ratio, gs[j], gs[b])
  {
    hide Outranks, Known;
    b := -1;
    if n > 0 {
      b := KindHasBest(gs, n - 1, known);
      var g := gs[n - 1];
      if Known(g) == known && (b < 0 || Outranks(Ratio, g, gs[b])) {
        KindIsOrdered(g, g, g);
        forall j | 0 <= j < n - 1 && Known(gs[j]) == known ensures !Outranks(Ratio, gs[j], g) {
          KindIsOrdered(g, gs[b], gs[j]);
          KindIsOrdered(g, gs[j], g);
        }
        b := n - 1;
      }
    }
  }

  /** Exactly when ratio mode has no best candidate, whichever is picked being
      displaced by another: a circle runs through a best of those with a known
      limit and a best of those without. */
  lemma NobodyUnbeatenIff(gs: seq<Grade>)
    requires gs != []
    ensures (forall i :: !Unbeaten(gs, i))
       <==> exists z, n, u :: BestOfKind(gs, z) && 0 <= n < |gs| && BestOfKind(gs, u) && Circle(gs[z], gs[n], gs[u])
  {
    var z := KindHasBest(gs, |gs|, true);
    var u := KindHasBest(gs, |gs|, false);
    hide Outranks, Circle, Known;
    if forall i :: !Unbeaten(gs, i) {
      var n := CircleAmongBeaten(gs, z, u);
    }
    if z', n', u' :| BestOfKind(gs, z') && 0 <= n' < |gs| && BestOfKind(gs, u') && Circle(gs[z'], gs[n'], gs[u']) {
      forall i ensures !Unbeaten(gs, i) {
        if 0 <= i < |gs| {
          CircleBeats(gs[z'], gs[n'], gs[u'], gs[i]);
        }
      }
    }
  }

  /** Whoever does not lose to the best of its own kind loses to the next in the
      circle. */
  lemma CircleBeats(z: Grade, n: Grade, u: Grade, g: Grade)
    requires Circle(z, n, u)
    requires Known(g) ==> !Outranks(Ratio, g, z)
    requires !Known(g) ==> !Outranks(Ratio, g, u)
    ensures Outranks(Ratio, z, g) || Outranks(Ratio, u, g) || Outranks(Ratio, n, g)
  {
    RatioOutranks(g, z);
    RatioOutranks(z, g);
    RatioOutranks(g, u);
    RatioOutranks(u, g);
    RatioOutranks(n, g);
    TieIsStrictWeakOrder(u, z, g);
    TieIsStrictWeakOrder(n, u, g);
    if Known(g) {
      MoreLeftSign(z, g);
    }
    hide TieAhead, MoreLeft, Outranks;
  }

  lemma CircleAmongBeaten(gs: seq<Grade>, z: int, u: int) returns (n: int)
    requires gs != [] && forall i :: !Unbeaten(gs, i)
    requires z < 0 ==> forall i :: 0 <= i < |gs| ==> !Known(gs[i])
    requires u < 0 ==> forall i :: 0 <= i < |gs| ==> Known(gs[i])
    requires z >= 0 ==> BestOfKind(gs, z) && Known(gs[z])
    requires u >= 0 ==> BestOfKind(gs, u) && !Known(gs[u])
    ensures z >= 0 && u >= 0 && 0 <= n < |gs| && Circle(gs[z], gs[n], gs[u])
  {
    hide Outranks, Known;
    var known := Known(gs[0]);
    if z < 0 && u >= 0 {
      OnlyKindIsUnbeaten(gs, u);
    }
    if u < 0 && z >= 0 {
      OnlyKindIsUnbeaten(gs, z);
    }
    assert !Unbeaten(gs, z) && !Unbeaten(gs, u);
    var k :| 0 <= k < |gs| && Outranks(Ratio, gs[k], gs[z]);
    n :| 0 <= n < |gs| && Outranks(Ratio, gs[n], gs[u]);
    BeatenBestsMakeACircle(gs[z], gs[u], gs[k], gs[n]);
  }

  lemma OnlyKindIsUnbeaten(gs: seq<Grade>, b: int)
    requires BestOfKind(gs, b) && forall i :: 0 <= i < |gs| ==> Known(gs[i]) == Known(gs[b])
    ensures Unbeaten(gs, b)
  {
    hide Outranks, Known;
  }

  lemma BeatenBestsMakeACircle(z: Grade, u: Grade, k: Grade, n: Grade)
    requires Known(z) && !Known(u) && !Known(k) && Known(n)
    requires !Outranks(Ratio, k, u) && Outranks(Ratio, k, z)
    requires !Outranks(Ratio, n, z) && Outranks(Ratio, n, u)
    ensures Circle(z, n, u)
  {
    RatioOutranks(k, u);
    RatioOutranks(k, z);
    RatioOutranks(n, z);
    RatioOutranks(n, u);
    TieIsStrictWeakOrder(k, z, u);
    TieIsStrictWeakOrder(n, u, z);
    MoreLeftSign(n, z);
    MoreLeftSign(z, n);
    hide TieAhead, MoreLeft, Outranks;
  }

  /** With a negative count on a known limit, displacement can run in a circle:
      whichever of these three accounts is picked, another one beats it. */
  lemma NegativeRemainingMakesACycle(p: PoolState, now: int)
    requires p.inFlight == map[]
    ensures var z := Account(1, Active, true, "", 0.0, 0.0, 10, 0, Some(0));
            var u := Account(2, Active, true, "", 0.0, 0.0, 0, 0, None);
            var n := Account(3, Active, true, PREFERRED_PLAN, 0.0, 0.0, 10, -1, None);
            Beats(Ratio, p, now, u, z) && Beats(Ratio, p, now, n, u) && Beats(Ratio, p, now, z, n)
  {
    assert !(PREFERRED_PLAN <= "");
  }

  // ----- One pass over the rotated list -----

  /** The accounts from the rotation start on, then those before it. */
  function Rotate(accounts: seq<Account>, start: nat): (r: seq<Account>)
    requires start <= |accounts|
    ensures |r| == |accounts|
  {
    accounts[start..] + accounts[..start]
  }

  datatype Scan = Scan(cands: seq<Account>, pool: PoolState, excluded: set<int>, now: int,
                       skipCooldown: bool, skipExhausted: bool, mode: QuotaMode)
  {
    predicate Skips(acc: Account) {
      acc.id in excluded
      || (skipCooldown && Cooling(pool, acc.id, now))
      || (skipExhausted && QuotaExhausted(acc))
    }

    predicate Eligible(k: int) {
      0 <= k < |cands| && !Skips(cands[k])
    }

    function GradeAt(k: int): Grade
      requires 0 <= k < |cands|
    {
      GradeOf(pool, now, cands[k])
    }

    /** The early-exit test, after a candidate of grade `g` was looked at. */
    predicate Stops(g: Grade, best: Grade, anyNeverUsed: bool) {
      mode == RoundRobin && g.pref == best.pref && g.neverUsed == best.neverUsed
      && (g.neverUsed || !anyNeverUsed) && g.load == 0 && best.standing == 0
    }

    predicate BeatsAt(j: int, k: int)
      requires 0 <= j < |cands| && 0 <= k < |cands|
    {
      Beats(mode, pool, now, cands[j], cands[k])
    }

    predicate AnyNeverUsed() {
      exists k :: 0 <= k < |cands| && NeverUsed(cands[k])
    }

    /** Nothing of its own plan class could be better. */
    predicate Ideal(k: int)
      requires 0 <= k < |cands|
    {
      Load(pool, cands[k].id) == 0 && !Reserved(pool, cands[k].id, now)
      && (NeverUsed(cands[k]) || !AnyNeverUsed())
    }

    predicate Preferred(k: int)
      requires 0 <= k < |cands|
    {
      PreferredPlan(cands[k])
    }

    /** `b` is the first of the best among the first `n` candidates. */
    ghost predicate FirstBestOf(n: int, b: int)
      requires n <= |cands|
    {
      0 <= b < n && Eligible(b)
      && forall k :: 0 <= k < n && Eligible(k) ==> !BeatsAt(k, b) && (k < b ==> BeatsAt(b, k))
    }

    ghost predicate FirstBest(b: int) {
      FirstBestOf(|cands|, b)
    }

    /** The first of the best in its own plan class. */
    ghost predicate FirstBestInClass(b: int) {
      Eligible(b)
      && forall k :: Eligible(k) && Preferred(k) == Preferred(b) ==> !BeatsAt(k, b) && (k < b ==> BeatsAt(b, k))
    }

    /** An ideal candidate of another plan stands before every preferred one. */
    ghost predicate Overtaken() {
      exists k, m :: 0 <= k < m && Eligible(k) && Ideal(k) && Eligible(m) && Preferred(m)
        && forall j :: 0 <= j <= k && Eligible(j) ==> !Preferred(j)
    }

    ghost predicate AllComparable() {
      forall k :: 0 <= k < |cands| ==> Comparable(mode, cands[k])
    }

    lemma ChallengerWins(n: int, b: int)
      requires 0 <= n < |cands| && FirstBestOf(n, b) && Eligible(n) && AllComparable()
      requires BeatsAt(n, b)
      ensures FirstBestOf(n + 1, n)
    {
      hide Beats;
      forall k | 0 <= k <= n && Eligible(k)
        ensures !BeatsAt(k, n) && (k < n ==> BeatsAt(n, k))
      {
        BeatsIsStrictWeakOrder(mode, pool, now, cands[n], cands[b], cands[k]);
        BeatsIsStrictWeakOrder(mode, pool, now, cands[n], cands[k], cands[k]);
      }
    }

    lemma ChampionStays(n: int, b: int)
      requires 0 <= n < |cands| && FirstBestOf(n, b) && (Eligible(n) ==> !BeatsAt(n, b))
      ensures FirstBestOf(n + 1, b)
    {
      hide Beats;
    }

    lemma FirstIsBest(n: int)
      requires Eligible(n) && AllComparable() && forall k :: 0 <= k < n ==> !Eligible(k)
      ensures FirstBestOf(n + 1, n)
    {
      hide Beats;
      BeatsIsStrictWeakOrder(mode, pool, now, cands[n], cands[n], cands[n]);
    }

    /** Whoever is ideal after its turn is the best so far, and so ends the scan,
        unless a preferred account was met before. */
    lemma IdealTurn(n: int, b: int)
      requires mode == RoundRobin && 0 <= n < |cands| && FirstBestOf(n + 1, b)
      requires Eligible(n) && Ideal(n) && b < n && !Ideal(b) && ValidState(pool)
      ensures Preferred(b) && !Preferred(n)
    {
      assert !BeatsAt(n, b);
      assert Load(pool, cands[b].id) >= 0;
      assert NeverUsed(cands[b]) ==> AnyNeverUsed();
    }

    /** Every ideal candidate passed so far came after a preferred one. */
    ghost predicate IdealsAreOvershadowed(n: int)
      requires n <= |cands|
    {
      forall k :: 0 <= k < n && Eligible(k) && Ideal(k) ==>
        !Preferred(k) && exists j :: 0 <= j < k && Eligible(j) && Preferred(j)
    }

    /** The early exit fires exactly when the candidate just looked at is the
        best so far and ideal; a scan that goes on has only overshadowed ones. */
    lemma TurnEnds(n: int, b: int, before: int, stop: bool)
      requires mode == RoundRobin && 0 <= n < |cands| && ValidState(pool) && Eligible(n)
      requires FirstBestOf(n + 1, b) && (b == n || b == before) && before < n
      requires before >= 0 ==> !Ideal(before)
      requires IdealsAreOvershadowed(n)
      requires stop == (Preferred(n) == Preferred(b) && NeverUsed(cands[n]) == NeverUsed(cands[b])
                        && (NeverUsed(cands[n]) || !AnyNeverUsed()) && Load(pool, cands[n].id) == 0
                        && Standing(Reserved(pool, cands[b].id, now)) == 0)
      ensures stop ==> b == n && Ideal(n)
      ensures !stop ==> !Ideal(b) && IdealsAreOvershadowed(n + 1)
    {
      if b < n {
        assert !BeatsAt(n, b) && Load(pool, cands[b].id) >= 0;
        if Ideal(n) {
          IdealTurn(n, b);
        }
      }
    }

    lemma StopIsRight(n: int)
      requires mode == RoundRobin && 0 <= n < |cands| && FirstBestOf(n + 1, n) && Ideal(n) && ValidState(pool)
      requires IdealsAreOvershadowed(n)
      ensures FirstBestInClass(n)
      ensures FirstBest(n) <==> !Overtaken()
    {
      forall k | n < k < |cands| && Eligible(k)
        ensures Preferred(n) || !Preferred(k) ==> !BeatsAt(k, n)
      {
      }
      if Preferred(n) {
        assert FirstBest(n);
      } else {
        forall k | 0 <= k <= n && Eligible(k)
          ensures !Preferred(k)
        {
          assert !BeatsAt(k, n);
        }
        if m :| n < m < |cands| && Eligible(m) && Preferred(m) {
          assert BeatsAt(m, n);
          assert Overtaken();
        }
      }
    }

    lemma FullScanIsRight(b: int)
      requires mode == RoundRobin && FirstBest(b) && IdealsAreOvershadowed(|cands|)
      ensures FirstBestInClass(b) && !Overtaken()
    {
      hide Beats, Ideal;
    }

    /** What the scan knows when it has looked at the first `n` candidates. */
    ghost predicate Progress(n: int, b: int) {
      && 0 <= n <= |cands| && -1 <= b < n
      && (b == -1 ==> forall k :: 0 <= k < n ==> !Eligible(k))
      && (b >= 0 ==> Eligible(b) && (AllComparable() ==> FirstBestOf(n, b)))
      && (mode == RoundRobin ==> IdealsAreOvershadowed(n) && (b >= 0 ==> !Ideal(b)))
    }

    /** What the scan promises about the position it returns. */
    ghost predicate Chosen(b: int) {
      && -1 <= b < |cands|
      && (b == -1 <==> forall k :: 0 <= k < |cands| ==> !Eligible(k))
      && (b >= 0 ==> Eligible(b))
      && (b >= 0 && mode != RoundRobin && AllComparable() ==> FirstBest(b))
      && (b >= 0 && mode == RoundRobin ==> FirstBestInClass(b) && (FirstBest(b) <==> !Overtaken()))
    }

    lemma NothingSeen()
      ensures Progress(0, -1)
    {
    }

    lemma PassedOver(n: int, b: int)
      requires n < |cands| && Progress(n, b) && !Eligible(n)
      ensures Progress(n + 1, b)
    {
      hide Beats, Ideal;
    }

    lemma LookedAt(n: int, before: int, wins: bool)
      requires n < |cands| && Progress(n, before) && Eligible(n) && ValidState(pool)
      requires wins == (before == -1 || Outranks(mode, GradeAt(n), GradeAt(before)))
      ensures var b := if wins then n else before;
              if Stops(GradeAt(n), GradeAt(b), AnyNeverUsed()) then b == n && Chosen(n) else Progress(n + 1, b)
    {
      hide Outranks, Ideal, IdealsAreOvershadowed, AnyNeverUsed, FirstBestOf, FirstBestInClass, Overtaken;
      var b := if wins then n else before;
      if AllComparable() {
        if before == -1 {
          FirstIsBest(n);
        } else if wins {
          ChallengerWins(n, before);
        } else {
          ChampionStays(n, before);
        }
      }
      if mode == RoundRobin {
        assert AllComparable();
        var stop := Stops(GradeAt(n), GradeAt(b), AnyNeverUsed());
        TurnEnds(n, b, before, stop);
        if stop {
          StopIsRight(n);
        }
      }
    }

    lemma Finished(b: int)
      requires Progress(|cands|, b)
      ensures Chosen(b)
    {
      hide Beats, Ideal, IdealsAreOvershadowed, FirstBestOf, FirstBestInClass, Overtaken;
      if b >= 0 && mode == RoundRobin {
        assert AllComparable();
        FullScanIsRight(b);
      }
    }
  }

  /** The table index after the one taken last; -1 before the first choice. */
  function RotationStart(last: int, n: nat): (start: nat)
    requires last >= -1 && n > 0
    ensures start < n
  {
    (last + 1) % n
  }

  /** Where a rotated position lies in the table. */
  function TableIndex(start: nat, i: nat, n: nat): (idx: nat)
    requires start < n && i < n
    ensures idx == if start + i < n then start + i else start + i - n
  {
    assert start + i >= n ==> start + i == n + (start + i - n);
    (start + i) % n
  }

  /** Every table index is met once per turn. */
  lemma RotationCovers(start: nat, idx: nat, n: nat) returns (i: nat)
    requires start < n && idx < n
    ensures i < n && TableIndex(start, i, n) == idx
    ensures forall j: nat :: j < n && TableIndex(start, j, n) == idx ==> j == i
  {
    i := if idx >= start then idx - start else idx + n - start;
  }

  lemma SameNeverUsed(accounts: seq<Account>, start: nat, s: Scan)
    requires start < |accounts| && s.cands == Rotate(accounts, start)
    ensures s.AnyNeverUsed() <==> exists k :: 0 <= k < |accounts| && NeverUsed(accounts[k])
  {
    var n := |accounts|;
    if k :| 0 <= k < n && NeverUsed(s.cands[k]) {
      assert s.cands[k] == accounts[TableIndex(start, k, n)];
    }
    if k :| 0 <= k < n && NeverUsed(accounts[k]) {
      var i := RotationCovers(start, k, n);
      assert s.cands[i] == accounts[k];
    }
  }

  /** The loop of `pickIndex`, from the table index `start` on: the rotated
      position chosen and its table index, or -1. In round-robin mode the scan
      stops at the first ideal account it meets. */
  method ScanAccounts(accounts: seq<Account>, start: nat, s: Scan) returns (position: int, best: int)
    requires start < |accounts| && s.cands == Rotate(accounts, start) && ValidState(s.pool)
    ensures s.Chosen(position)
    ensures best == if position < 0 then -1 else TableIndex(start, position, |accounts|)
  {
    var n := |accounts|;
    position, best := -1, -1;
    var bestGrade := Grade(-1, 0, 0, 2, false, false);
    var anyNeverUsed := exists k :: 0 <= k < n && NeverUsed(accounts[k]);
    SameNeverUsed(accounts, start, s);
    s.NothingSeen();
    hide TableIndex, Outranks, GradeOf, NeverUsed;
    hide Scan.AnyNeverUsed, Scan.Chosen, Scan.Progress, Scan.Skips, Scan.Stops;
    var i := 0;
    while i < n
      invariant 0 <= i <= n && -1 <= position < i
      invariant best == if position < 0 then -1 else TableIndex(start, position, n)
      invariant position >= 0 ==> bestGrade == s.GradeAt(position)
      invariant s.Progress(i, position)
    {
      var idx := TableIndex(start, i, n);
      var acc := accounts[idx];
      assert acc == s.cands[i];
      if s.Skips(acc) {
        s.PassedOver(i, position);
        i := i + 1;
        continue;
      }
      var grade := GradeOf(s.pool, s.now, acc);
      var wins := best == -1 || Outranks(s.mode, grade, bestGrade);
      s.LookedAt(i, position, wins);
      if wins {
        position, best, bestGrade := i, idx, grade;
      }
      if s.Stops(grade, bestGrade, anyNeverUsed) {
        return;
      }
      i := i + 1;
    }
    s.Finished(position);
  }

  function Increment(m: map<int, int>, id: int): map<int, int> {
    m[id := (if id in m then m[id] else 0) + 1]
  }

  function Released(m: map<int, int>, id: int): map<int, int> {
    if id in m && m[id] > 1 then m[id := m[id] - 1] else m - {id}
  }

  /** How far down the three passes an account is first admitted. */
  function Tier(p: PoolState, now: int, acc: Account): int {
    if QuotaExhausted(acc) then 2 else if Cooling(p, acc.id, now) then 1 else 0
  }

  /** The pass that reaches the accounts of a tier. */
  function TierScan(p: PoolState, accounts: seq<Account>, start: nat, excluded: set<int>, now: int,
                    mode: QuotaMode, tier: int): Scan
    requires start <= |accounts|
  {
    Scan(Rotate(accounts, start), p, excluded, now, tier < 1, tier < 2, mode)
  }

  /** The account at a rotated position comes from the healthiest tier that is
      not empty, by the scan of that tier; taking it adds one to its load. */
  ghost predicate TakesAt(p: PoolState, accounts: seq<Account>, excluded: set<int>, now: int,
                          mode: QuotaMode, position: int, acc: Account, p': PoolState)
  {
    accounts != [] && p.last >= -1 && 0 <= position < |accounts| &&
    var start := RotationStart(p.last, |accounts|);
    var tier := Tier(p, now, acc);
    var idx := TableIndex(start, position, |accounts|);
    && acc == accounts[idx] && acc.id !in excluded
    && (forall a :: a in accounts && a.id !in excluded ==> tier <= Tier(p, now, a))
    && TierScan(p, accounts, start, excluded, now, mode, tier).Chosen(position)
    && p' == p.(last := idx, inFlight := Increment(p.inFlight, acc.id))
  }

  /** What a successful `next` does. */
  ghost predicate NextTakes(p: PoolState, accounts: seq<Account>, excluded: set<int>, now: int,
                            mode: QuotaMode, acc: Account, p': PoolState)
  {
    exists position :: TakesAt(p, accounts, excluded, now, mode, position, acc, p')
  }

  lemma ChosenInTable(accounts: seq<Account>, start: nat, s: Scan, position: int)
    requires start < |accounts| && s.cands == Rotate(accounts, start) && s.Chosen(position)
    ensures position < 0 <==> forall a :: a in accounts ==> s.Skips(a)
    ensures position >= 0 ==> s.cands[position] == accounts[TableIndex(start, position, |accounts|)]
                              && !s.Skips(s.cands[position])
  {
    hide Scan.Skips;
    var n := |accounts|;
    if position < 0 {
      forall a | a in accounts
        ensures s.Skips(a)
      {
        var idx :| 0 <= idx < n && accounts[idx] == a;
        var i := RotationCovers(start, idx, n);
        assert s.cands[i] == a && !s.Eligible(i);
      }
    } else {
      assert s.Eligible(position);
    }
  }

  /** One of the three passes, given that the passes before it found nothing. */
  lemma TierScanned(p: PoolState, accounts: seq<Account>, start: nat, excluded: set<int>, now: int,
                    mode: QuotaMode, tier: int, position: int)
    requires start < |accounts| && 0 <= tier <= 2 && -1 <= position < |accounts|
    requires TierScan(p, accounts, start, excluded, now, mode, tier).Chosen(position)
    requires forall a :: a in accounts && a.id !in excluded ==> tier <= Tier(p, now, a)
    ensures position < 0 ==> forall a :: a in accounts && a.id !in excluded ==> tier + 1 <= Tier(p, now, a) <= 2
    ensures position >= 0 ==> var acc := accounts[TableIndex(start, position, |accounts|)];
              acc.id !in excluded && Tier(p, now, acc) == tier
  {
    hide TableIndex, Scan.Chosen, QuotaExhausted, Cooling;
    ChosenInTable(accounts, start, TierScan(p, accounts, start, excluded, now, mode, tier), position);
    if position >= 0 {
      var acc := accounts[TableIndex(start, position, |accounts|)];
      assert acc in accounts && acc.id !in excluded;
    }
  }

  /** `pickIndex`: the table index of the account chosen among those the pass
      does not skip; -1 exactly when it skips them all. */
  method PickIndex(p: PoolState, accounts: seq<Account>, start: nat, excluded: set<int>, now: int,
                   skipCooldown: bool, skipExhausted: bool, mode: QuotaMode)
    returns (ghost position: int, best: int)
    requires ValidState(p) && start < |accounts|
    ensures Scan(Rotate(accounts, start), p, excluded, now, skipCooldown, skipExhausted, mode).Chosen(position)
    ensures -1 <= position < |accounts|
    ensures best == if position < 0 then -1 else TableIndex(start, position, |accounts|)
    ensures best < 0 <==> forall a :: a in accounts ==> Scan([], p, excluded, now, skipCooldown, skipExhausted, mode).Skips(a)
    ensures best >= 0 ==>
              best < |accounts| && !Scan([], p, excluded, now, skipCooldown, skipExhausted, mode).Skips(accounts[best])
  {
    hide TableIndex;
    var s := Scan(Rotate(accounts, start), p, excluded, now, skipCooldown, skipExhausted, mode);
    position, best := ScanAccounts(accounts, start, s);
    ChosenInTable(accounts, start, s, position);
    SameSkips(s, s.(cands := []));
    hide Scan.Chosen, Scan.Skips;
  }

  lemma SameSkips(s: Scan, t: Scan)
    requires t == s.(cands := t.cands)
    ensures forall a :: t.Skips(a) == s.Skips(a)
  {
  }

  /** The three passes of `next`: the table index taken, or -1. */
  method ChooseIndex(p: PoolState, accounts: seq<Account>, excluded: set<int>, now: int, mode: QuotaMode)
    returns (ghost position: int, best: int)
    requires ValidState(p) && accounts != []
    ensures best < 0 <==> forall a :: a in accounts ==> a.id in excluded
    ensures best < |accounts|
    ensures best >= 0 ==>
              TakesAt(p, accounts, excluded, now, mode, position, accounts[best],
                      p.(last := best, inFlight := Increment(p.inFlight, accounts[best].id)))
  {
    var start := RotationStart(p.last, |accounts|);
    ghost var tier := 0;
    position, best := PickIndex(p, accounts, start, excluded, now, true, true, mode);
    hide TableIndex, Scan.Chosen, Tier;
    assert forall a :: 0 <= Tier(p, now, a) by {
      TierRange(p, now);
    }
    TierScanned(p, accounts, start, excluded, now, mode, 0, position);
    if best < 0 {
      tier := 1;
      position, best := PickIndex(p, accounts, start, excluded, now, false, true, mode);
      TierScanned(p, accounts, start, excluded, now, mode, 1, position);
    }
    if best < 0 {
      tier := 2;
      position, best := PickIndex(p, accounts, start, excluded, now, false, false, mode);
      TierScanned(p, accounts, start, excluded, now, mode, 2, position);
    }
  }

  lemma TierRange(p: PoolState, now: int)
    ensures forall a :: 0 <= Tier(p, now, a) <= 2
  {
  }

  // ----- What the scheduler promises -----

  /** Returning an account undoes taking it, for every account's load. */
  lemma TakeThenRelease(m: map<int, int>, id: int)
    requires forall k :: k in m ==> m[k] >= 1
    ensures Released(Increment(m, id), id) == m
  {
  }

  /** `next` succeeds exactly when an active account is not excluded, and then
      yields one of those. */
  lemma NextYieldsActive(p: PoolState, table: seq<Account>, excluded: set<int>, now: int,
                         mode: QuotaMode, acc: Account, p': PoolState)
    requires NextTakes(p, ActiveAccounts(table), excluded, now, mode, acc, p')
    ensures acc in table && acc.status == Active && acc.enabled && acc.id !in excluded
    ensures Load(p', acc.id) == Load(p, acc.id) + 1
    ensures forall id :: id != acc.id ==> Load(p', id) == Load(p, id)
  {
    hide ActiveAccounts, TakesAt, IsActive, Load;
    var accounts := ActiveAccounts(table);
    var position :| TakesAt(p, accounts, excluded, now, mode, position, acc, p');
    TakenIsListed(p, accounts, excluded, now, mode, position, acc, p');
    assert acc in accounts;
    ActiveOnly(acc);
    OnlyItsLoadMoves(p, p', acc.id);
  }

  /** How an account stands with the passes of `next`, by its own figures: its
      quota known and used up last, then on cooldown, then healthy. */
  function Rank(p: PoolState, now: int, acc: Account): int {
    if acc.quotaLimit > 0.0 && acc.quotaRemaining <= 0.0 then 2
    else if acc.id in p.gatewayCooldown && now < p.gatewayCooldown[acc.id] then 1
    else 0
  }

  /** Whatever the mode, no account left over stands better than the one taken. */
  lemma HealthiestTaken(p: PoolState, table: seq<Account>, excluded: set<int>, now: int,
                        mode: QuotaMode, acc: Account, p': PoolState, other: Account)
    requires NextTakes(p, ActiveAccounts(table), excluded, now, mode, acc, p')
    requires other in ActiveAccounts(table) && other.id !in excluded
    ensures Rank(p, now, acc) <= Rank(p, now, other)
  {
    hide *;
    RankIsTier(p, now, acc);
    RankIsTier(p, now, other);
    LowestTier(p, ActiveAccounts(table), excluded, now, mode, acc, p', other);
  }

  lemma RankIsTier(p: PoolState, now: int, acc: Account)
    ensures Rank(p, now, acc) == Tier(p, now, acc)
  {
  }

  lemma LowestTier(p: PoolState, accounts: seq<Account>, excluded: set<int>, now: int,
                   mode: QuotaMode, acc: Account, p': PoolState, other: Account)
    requires NextTakes(p, accounts, excluded, now, mode, acc, p') && other in accounts && other.id !in excluded
    ensures Tier(p, now, acc) <= Tier(p, now, other)
  {
    hide Scan.Chosen, TierScan, Increment, TableIndex, RotationStart, Tier;
  }

  /** What an account is chosen by, most important first, less being better. */
  datatype Key = Key(first: real, second: real, third: real, fourth: real)

  predicate Less(a: Key, b: Key) {
    || a.first < b.first
    || (a.first == b.first && a.second < b.second)
    || (a.first == b.first && a.second == b.second && a.third < b.third)
    || (a.first == b.first && a.second == b.second && a.third == b.third && a.fourth < b.fourth)
  }

  function KeyOf(mode: QuotaMode, p: PoolState, now: int, acc: Account): Key {
    var plan := if "sync-solo-trial" <= acc.plan then 0.0 else 1.0;
    var used := if acc.lastUsedAt == None then 0.0 else 1.0;
    var load := if acc.id in p.inFlight then p.inFlight[acc.id] as real else 0.0;
    var reserved := if acc.id in p.reservedUntil && now < p.reservedUntil[acc.id] then 1.0 else 0.0;
    match mode
    case RoundRobin => Key(plan, used, load, reserved)
    case Absolute => Key(-(acc.rateRemaining as real), plan, used, load)
    case Ratio =>
      Key(if acc.rateLimit <= 0 then 0.0 else -(acc.rateRemaining as real / acc.rateLimit as real), plan, used, load)
  }

  lemma KeysDecide(mode: QuotaMode, p: PoolState, now: int, a: Account, b: Account)
    requires mode == Ratio ==> (a.rateLimit > 0 ==> a.rateRemaining >= 0) && (b.rateLimit > 0 ==> b.rateRemaining >= 0)
    ensures Beats(mode, p, now, a, b) <==> Less(KeyOf(mode, p, now, a), KeyOf(mode, p, now, b))
  {
    if mode == Ratio {
      RatioCmpIsShareOrder(a.rateRemaining, a.rateLimit, b.rateRemaining, b.rateLimit);
      hide RatioCmp;
    }
  }

  /** How far a table index lies behind the one taken last, turning around. */
  function Distance(last: int, i: int, n: nat): int
    requires n > 0
  {
    (i - last - 1) % n
  }

  lemma RemainderIs(x: int, q: int, r: int, n: nat)
    requires 0 <= r < n && x == q * n + r
    ensures x % n == r
  {
    var d := x / n - q;
    assert d * n == r - x % n by {
      assert x == (x / n) * n + x % n;
    }
  }

  lemma DistanceIsPosition(last: int, position: nat, n: nat)
    requires last >= -1 && position < n
    ensures Distance(last, TableIndex(RotationStart(last, n), position, n), n) == position
  {
    var start := RotationStart(last, n);
    var q := (last + 1) / n;
    assert last + 1 == q * n + start;
    var i := TableIndex(start, position, n);
    if start + position < n {
      RemainderIs(i - last - 1, -q, position, n);
    } else {
      assert (-q - 1) * n == -(q * n) - n;
      RemainderIs(i - last - 1, -q - 1, position, n);
    }
  }

  lemma BestAtPosition(s: Scan, position: int, k: int)
    requires s.Chosen(position) && s.Eligible(k) && position >= 0
    requires forall a :: a in s.cands && s.mode == Ratio && a.rateLimit > 0 ==> a.rateRemaining >= 0
    requires s.mode == RoundRobin ==> s.Preferred(k) == s.Preferred(position)
    ensures !s.BeatsAt(k, position) && (k < position ==> s.BeatsAt(position, k))
  {
    hide Beats, Scan.Skips;
    assert s.AllComparable();
  }

  /** Of the accounts that stand equally well, with one plan class at a time
      when turns are taken, the one taken has the least key; of those with the
      same key, it is the first behind the one taken last. */
  lemma LeastKeyTaken(p: PoolState, accounts: seq<Account>, excluded: set<int>, now: int,
                      mode: QuotaMode, acc: Account, p': PoolState, i: int)
    requires NextTakes(p, accounts, excluded, now, mode, acc, p')
    requires forall a :: a in accounts && mode == Ratio && a.rateLimit > 0 ==> a.rateRemaining >= 0
    requires 0 <= i < |accounts| && accounts[i].id !in excluded && Rank(p, now, accounts[i]) == Rank(p, now, acc)
    requires mode == RoundRobin ==> ("sync-solo-trial" <= accounts[i].plan <==> "sync-solo-trial" <= acc.plan)
    ensures 0 <= p'.last < |accounts| && accounts[p'.last] == acc
    ensures var k, key := KeyOf(mode, p, now, accounts[i]), KeyOf(mode, p, now, acc);
            && !Less(k, key)
            && (k == key ==> Distance(p.last, p'.last, |accounts|) <= Distance(p.last, i, |accounts|))
  {
    hide Beats, Less, KeyOf, Tier, Rank, Distance, TableIndex, RotationStart, Scan.Chosen, Cooling, QuotaExhausted;
    var n := |accounts|;
    var position: nat :| TakesAt(p, accounts, excluded, now, mode, position, acc, p');
    var start := RotationStart(p.last, n);
    var s := TierScan(p, accounts, start, excluded, now, mode, Tier(p, now, acc));
    var k := RotationCovers(start, i, n);
    DistanceIsPosition(p.last, position, n);
    DistanceIsPosition(p.last, k, n);
    assert s.cands[k] == accounts[i] && s.cands[position] == acc by { RotatedAt(accounts, start, k); RotatedAt(accounts, start, position); }
    RankIsTier(p, now, acc);
    RankIsTier(p, now, accounts[i]);
    AdmittedByTier(s, p, now, accounts[i]);
    assert forall a :: a in s.cands ==> a in accounts;
    BestAtPosition(s, position, k);
    KeysDecide(mode, p, now, accounts[i], acc);
    KeysDecide(mode, p, now, acc, accounts[i]);
    LessIsStrict(KeyOf(mode, p, now, acc));
  }

  lemma LessIsStrict(k: Key)
    ensures !Less(k, k)
  {
  }

  lemma RotatedAt(accounts: seq<Account>, start: nat, k: nat)
    requires start < |accounts| && k < |accounts|
    ensures Rotate(accounts, start)[k] == accounts[TableIndex(start, k, |accounts|)]
  {
  }

  lemma AdmittedByTier(s: Scan, p: PoolState, now: int, a: Account)
    requires s.pool == p && s.now == now && a.id !in s.excluded
    requires s.skipCooldown == (Tier(p, now, a) < 1) && s.skipExhausted == (Tier(p, now, a) < 2)
    ensures !s.Skips(a)
  {
  }

  /** A plan name with a dated or other ending is still preferred. */
  lemma DatedPlansArePreferred(acc: Account, ending: string)
    ensures PreferredPlan(acc.(plan := "sync-solo-trial" + ending))
  {
  }

  lemma ActiveOnly(acc: Account)
    ensures IsActive(acc) <==> acc.status == Active && acc.enabled
  {
  }

  lemma TakenIsListed(p: PoolState, accounts: seq<Account>, excluded: set<int>, now: int, mode: QuotaMode,
                      position: int, acc: Account, p': PoolState)
    requires TakesAt(p, accounts, excluded, now, mode, position, acc, p')
    ensures acc in accounts && acc.id !in excluded && p'.inFlight == Increment(p.inFlight, acc.id)
  {
    hide Scan.Chosen, Tier;
  }

  lemma OnlyItsLoadMoves(p: PoolState, p': PoolState, id: int)
    requires p'.inFlight == Increment(p.inFlight, id)
    ensures Load(p', id) == Load(p, id) + 1
    ensures forall k :: k != id ==> Load(p', k) == Load(p, k)
  {
  }

  /** The early exit does not look ahead for a preferred plan: an idle account
      of another plan before an equally idle preferred one is taken, although
      the preferred one beats it. */
  lemma PlanPreferenceCanBeMissed(p: PoolState, now: int)
    requires p.inFlight == map[] && p.reservedUntil == map[]
    ensures var a := Account(1, Active, true, "", 0.0, 0.0, 0, 0, None);
            var b := Account(2, Active, true, PREFERRED_PLAN, 0.0, 0.0, 0, 0, None);
            var s := Scan([a, b], p, {}, now, false, false, RoundRobin);
            s.Overtaken() && s.BeatsAt(1, 0)
            && forall position :: s.Chosen(position) ==> !s.FirstBest(position)
  {
    var a := Account(1, Active, true, "", 0.0, 0.0, 0, 0, None);
    var b := Account(2, Active, true, PREFERRED_PLAN, 0.0, 0.0, 0, 0, None);
    var s := Scan([a, b], p, {}, now, false, false, RoundRobin);
    assert !(PREFERRED_PLAN <= "");
    assert s.Eligible(0) && s.Ideal(0) && s.Eligible(1) && s.Preferred(1) && !s.Preferred(0);
  }

  /** Among candidates of a single plan class the early exit costs nothing: the
      scan yields the first of the best. */
  lemma SingleClassIsOptimal(s: Scan, position: int)
    requires s.mode == RoundRobin && s.Chosen(position) && position >= 0
    requires forall j, k :: s.Eligible(j) && s.Eligible(k) ==> s.Preferred(j) == s.Preferred(k)
    ensures s.FirstBest(position)
  {
    hide Scan.Ideal, Scan.Skips, Scan.BeatsAt, Scan.Preferred;
    assert !s.Overtaken();
  }

  /** One round-robin choice among candidates that differ only in load and
      reservation, where nothing is returned in between. */
  datatype Choice = Choice(scan: Scan, position: int)

  ghost predicate EvenChoice(t: Choice, ids: set<int>, inFlight: map<int, int>) {
    && t.scan.mode == RoundRobin && t.scan.pool.inFlight == inFlight && t.scan.FirstBest(t.position)
    && (forall id :: id in ids <==> exists k :: t.scan.Eligible(k) && t.scan.cands[k].id == id)
    && (forall j, k :: t.scan.Eligible(j) && t.scan.Eligible(k) ==>
          t.scan.Preferred(j) == t.scan.Preferred(k)
          && NeverUsed(t.scan.cands[j]) == NeverUsed(t.scan.cands[k]))
  }

  ghost predicate EvenRun(choices: seq<Choice>, ids: set<int>, inFlight: map<int, int>)
    decreases |choices|
  {
    choices == [] ||
    (EvenChoice(choices[0], ids, inFlight)
     && EvenRun(choices[1..], ids, Increment(inFlight, choices[0].scan.cands[choices[0].position].id)))
  }

  function AfterChoices(choices: seq<Choice>, inFlight: map<int, int>): map<int, int>
    requires forall t :: t in choices ==> 0 <= t.position < |t.scan.cands|
    decreases |choices|
  {
    if choices == [] then inFlight
    else AfterChoices(choices[1..], Increment(inFlight, choices[0].scan.cands[choices[0].position].id))
  }

  ghost predicate Balanced(ids: set<int>, m: map<int, int>) {
    forall x, y :: x in ids && y in ids ==> InFlight(m, x) <= InFlight(m, y) + 1
  }

  lemma LeastLoadedKeepsBalance(t: Choice, ids: set<int>, m: map<int, int>)
    requires EvenChoice(t, ids, m) && Balanced(ids, m)
    ensures Balanced(ids, Increment(m, t.scan.cands[t.position].id))
  {
    hide Scan.Skips, Scan.Preferred, NeverUsed;
    var s, b := t.scan, t.position;
    forall y | y in ids
      ensures InFlight(m, s.cands[b].id) <= InFlight(m, y)
    {
      var k :| s.Eligible(k) && s.cands[k].id == y;
      assert !s.BeatsAt(k, b);
      GradesDiffer(s, k, b);
    }
  }

  lemma GradesDiffer(s: Scan, k: int, b: int)
    requires s.mode == RoundRobin && 0 <= k < |s.cands| && 0 <= b < |s.cands| && !s.BeatsAt(k, b)
    requires s.Preferred(k) == s.Preferred(b) && NeverUsed(s.cands[k]) == NeverUsed(s.cands[b])
    ensures InFlight(s.pool.inFlight, s.cands[b].id) <= InFlight(s.pool.inFlight, s.cands[k].id)
  {
  }

  /** However the rotation and the reservations move, the loads of equally
      ranked accounts never drift apart by more than one. */
  lemma {:induction false} LoadsStayBalanced(choices: seq<Choice>, ids: set<int>, m: map<int, int>)
    requires EvenRun(choices, ids, m) && Balanced(ids, m)
    requires forall t :: t in choices ==> 0 <= t.position < |t.scan.cands|
    ensures Balanced(ids, AfterChoices(choices, m))
    decreases |choices|
  {
    hide EvenChoice;
    if choices != [] {
      LeastLoadedKeepsBalance(choices[0], ids, m);
      LoadsStayBalanced(choices[1..], ids, Increment(m, choices[0].scan.cands[choices[0].position].id));
    }
  }

  class Scheduler {
    var last: int
    var inFlight: map<int, int>
    var gatewayCooldown: map<int, int>
    var reservedUntil: map<int, int>

    ghost predicate Valid()
      reads this
    {
      ValidState(State())
    }

    function State(): PoolState
      reads this
    {
      PoolState(last, inFlight, gatewayCooldown, reservedUntil)
    }

    constructor ()
      ensures Valid() && State() == PoolState(-1, map[], map[], map[])
    {
      last, inFlight, gatewayCooldown, reservedUntil := -1, map[], map[], map[];
    }

    /** `next`: three passes, from the healthy accounts to all that are not
        excluded. */
    method Next(accounts: seq<Account>, excluded: set<int>, now: int, mode: QuotaMode)
      returns (r: Option<Account>)
      requires Valid()
      modifies this
      ensures Valid()
      ensures r.None? <==> forall a :: a in accounts ==> a.id in excluded
      ensures r.None? ==> State() == old(State())
      ensures r.Some? ==> NextTakes(old(State()), accounts, excluded, now, mode, r.value, State())
    {
      if accounts == [] {
        return None;
      }
      hide TakesAt;
      ghost var position;
      var best;
      position, best := ChooseIndex(State(), accounts, excluded, now, mode);
      if best < 0 {
        return None;
      }
      last := best;
      inFlight := Increment(inFlight, accounts[best].id);
      r := Some(accounts[best]);
      assert TakesAt(old(State()), accounts, excluded, now, mode, position, accounts[best], State());
    }

    /** `Done`. */
    method Done(id: int)
      requires Valid()
      modifies this`inFlight
      ensures Valid()
      ensures inFlight == Released(old(inFlight), id)
    {
      if Load(State(), id) <= 1 {
        inFlight := inFlight - {id};
      } else {
        inFlight := inFlight[id := inFlight[id] - 1];
      }
    }

    /** `MarkGatewayBlocked` with the deadline `now + d`. */
    method MarkGatewayBlocked(id: int, d: int, now: int)
      requires Valid()
      modifies this`gatewayCooldown
      ensures Valid()
      ensures gatewayCooldown == if d <= 0 then old(gatewayCooldown) else old(gatewayCooldown)[id := now + d]
    {
      if d <= 0 {
        return;
      }
      gatewayCooldown := gatewayCooldown[id := now + d];
    }

    /** `Reserve` with the deadline `now + d`. */
    method Reserve(id: int, d: int, now: int)
      requires Valid()
      modifies this`reservedUntil
      ensures Valid()
      ensures reservedUntil == if d <= 0 then old(reservedUntil) else old(reservedUntil)[id := now + d]
    {
      if d <= 0 {
        return;
      }
      reservedUntil := reservedUntil[id := now + d];
    }
  }
}
