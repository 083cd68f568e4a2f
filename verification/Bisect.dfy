/** Narrowing a blocked text down to the line that triggers the block. */
module Bisect {

  /** What a probe of the lines lo..hi-1 reports. */
  type Oracle = (int, int) -> bool

  function Pow2(k: nat): (p: nat)
    ensures p > 0
  {
    if k == 0 then 1 else 2 * Pow2(k - 1)
  }

  /** Rounds enough for `n` lines: the base-2 logarithm, rounded up. */
  function CeilLog2(n: int): nat
    decreases n
  {
    if n <= 1 then 0 else 1 + CeilLog2((n + 1) / 2)
  }

  lemma {:induction false} CeilLog2Is(n: int)
    requires n >= 1
    ensures n <= Pow2(CeilLog2(n)) && (n > 1 ==> Pow2(CeilLog2(n)) < 2 * n)
    decreases n
  {
    if n > 1 {
      var h := (n + 1) / 2;
      CeilLog2Is(h);
      if h > 1 {
        PowersAreEven(CeilLog2(h));
      }
    }
  }

  lemma PowersAreEven(k: nat)
    requires k > 0
    ensures Pow2(k) % 2 == 0
  {
  }

  lemma {:induction false} CeilLog2Grows(m: int, n: int)
    requires m <= n
    ensures CeilLog2(m) <= CeilLog2(n)
    decreases n
  {
    if m > 1 {
      CeilLog2Grows((m + 1) / 2, (n + 1) / 2);
    }
  }

  /** Where the descent ends. */
  datatype End = End(lo: int, hi: int, ambiguous: bool, rounds: nat, calls: nat)

  function Descend(hit: Oracle, lo: int, hi: int): End
    decreases hi - lo
  {
    if hi - lo <= 1 then End(lo, hi, false, 0, 0)
    else
      var mid := (lo + hi) / 2;
      if hit(lo, mid) then Later(Descend(hit, lo, mid), 1)
      else if hit(mid, hi) then Later(Descend(hit, mid, hi), 2)
      else End(lo, hi, true, 1, 2)
  }

  function Later(e: End, calls: nat): End {
    e.(rounds := e.rounds + 1, calls := e.calls + calls)
  }

  method BisectDescend(n: int, hit: Oracle) returns (lo: int, hi: int, ambiguous: bool, rounds: nat, calls: nat)
    ensures End(lo, hi, ambiguous, rounds, calls) == Descend(hit, 0, n)
  {
    lo, hi, rounds, calls := 0, n, 0, 0;
    ghost var end := Descend(hit, 0, n);
    while hi - lo > 1
      invariant var rest := Descend(hit, lo, hi);
                end == rest.(rounds := rest.rounds + rounds, calls := rest.calls + calls)
      decreases hi - lo
    {
      var mid := (lo + hi) / 2;
      rounds := rounds + 1;
      calls := calls + 1;
      if hit(lo, mid) {
        hi := mid;
        continue;
      }
      calls := calls + 1;
      if hit(mid, hi) {
        lo := mid;
        continue;
      }
      return lo, hi, true, rounds, calls;
    }
    return lo, hi, false, rounds, calls;
  }

  // ----- Cost -----

  lemma Halves(lo: int, hi: int)
    requires hi - lo > 1
    ensures var mid := (lo + hi) / 2;
            lo < mid < hi && mid - lo == (hi - lo) / 2 && hi - mid == (hi - lo + 1) / 2
  {
  }

  /** For any oracle: at most the rounded-up logarithm of the line count in
      rounds, one or two probes a round. */
  lemma {:induction false} RoundsAreLogarithmic(hit: Oracle, lo: int, hi: int)
    ensures var e := Descend(hit, lo, hi);
            e.rounds <= CeilLog2(hi - lo) && e.rounds <= e.calls <= 2 * e.rounds
    decreases hi - lo
  {
    if hi - lo > 1 {
      var mid := (lo + hi) / 2;
      Halves(lo, hi);
      RoundsAreLogarithmic(hit, lo, mid);
      RoundsAreLogarithmic(hit, mid, hi);
      CeilLog2Grows(mid - lo, hi - mid);
      assert CeilLog2(hi - lo) == 1 + CeilLog2(hi - mid);
      hide CeilLog2;
    }
  }

  /** A single line is not reached in fewer rounds than halving allows. */
  lemma {:induction false} ALineTakesRounds(hit: Oracle, lo: int, hi: int)
    requires !Descend(hit, lo, hi).ambiguous
    ensures hi - lo < Pow2(Descend(hit, lo, hi).rounds + 1)
    decreases hi - lo
  {
    var e := Descend(hit, lo, hi);
    assert Pow2(e.rounds + 1) == 2 * Pow2(e.rounds);
    if hi - lo > 1 {
      var mid := (lo + hi) / 2;
      Halves(lo, hi);
      hide Pow2;
      if hit(lo, mid) {
        ALineTakesRounds(hit, lo, mid);
      } else {
        ALineTakesRounds(hit, mid, hi);
      }
    }
  }

  // ----- Result -----

  /** For any oracle: the result is a range within the given one; it still hits
      when the given range did; it is a single line unless ambiguous, and when
      ambiguous neither of its halves hits. */
  lemma {:induction false} EndsAtALocalAnswer(hit: Oracle, lo: int, hi: int)
    requires lo < hi
    ensures var e := Descend(hit, lo, hi);
            && lo <= e.lo < e.hi <= hi
            && (hit(lo, hi) ==> hit(e.lo, e.hi))
            && (e.ambiguous <==> e.hi - e.lo > 1)
            && (e.ambiguous ==> !hit(e.lo, (e.lo + e.hi) / 2) && !hit((e.lo + e.hi) / 2, e.hi))
    decreases hi - lo
  {
    if hi - lo > 1 {
      var mid := (lo + hi) / 2;
      if hit(lo, mid) {
        EndsAtALocalAnswer(hit, lo, mid);
      } else if hit(mid, hi) {
        EndsAtALocalAnswer(hit, mid, hi);
      }
    }
  }

  /** The block needs all the trigger lines together. */
  ghost predicate NeedsAll(hit: Oracle, s: set<int>) {
    forall lo, hi :: hit(lo, hi) <==> forall x :: x in s ==> lo <= x < hi
  }

  /** Any one trigger line blocks. */
  ghost predicate NeedsAny(hit: Oracle, s: set<int>) {
    forall lo, hi :: hit(lo, hi) <==> exists x :: x in s && lo <= x < hi
  }

  /** When all trigger lines are needed, the result always contains them, and is
      one unambiguous line exactly when there is one trigger line. */
  lemma AllTriggersKept(hit: Oracle, n: int, s: set<int>, some: int)
    requires NeedsAll(hit, s) && some in s && forall x :: x in s ==> 0 <= x < n
    ensures var e := Descend(hit, 0, n);
            && (forall x :: x in s ==> e.lo <= x < e.hi)
            && (!e.ambiguous <==> |s| == 1)
            && (!e.ambiguous ==> s == {e.lo} && e.hi == e.lo + 1)
  {
    var e := Descend(hit, 0, n);
    assert hit(0, n);
    EndsAtALocalAnswer(hit, 0, n);
    assert hit(e.lo, e.hi);
    hide Descend, NeedsAll;
    if e.ambiguous {
      var mid := (e.lo + e.hi) / 2;
      SomeOutside(hit, s, e.lo, mid);
      SomeOutside(hit, s, mid, e.hi);
      var a :| a in s && !(e.lo <= a < mid);
      var b :| b in s && !(mid <= b < e.hi);
      assert {a, b} <= s && a != b;
      Larger(s, a, b);
    } else {
      assert forall y :: y in s ==> y == e.lo;
      assert s == {e.lo};
    }
  }

  lemma SomeOutside(hit: Oracle, s: set<int>, lo: int, hi: int)
    requires NeedsAll(hit, s) && !hit(lo, hi)
    ensures exists x :: x in s && !(lo <= x < hi)
  {
    if forall x :: x in s ==> lo <= x < hi {
      assert hit(lo, hi) <==> forall x :: x in s ==> lo <= x < hi;
    }
  }

  lemma Larger(s: set<int>, a: int, b: int)
    requires a in s && b in s && a != b
    ensures |s| >= 2
  {
    assert a in s - {b} && |s - {b}| == |s| - 1;
  }

  /** When any trigger line is enough, the result is the first one. */
  lemma FirstTriggerFound(hit: Oracle, lo: int, hi: int, s: set<int>)
    requires NeedsAny(hit, s) && exists x :: x in s && lo <= x < hi
    ensures var e := Descend(hit, lo, hi);
            && !e.ambiguous && e.hi == e.lo + 1 && e.lo in s
            && forall x :: x in s && lo <= x < hi ==> e.lo <= x
    decreases hi - lo
  {
    if hi - lo > 1 {
      var mid := (lo + hi) / 2;
      if hit(lo, mid) {
        FirstTriggerFound(hit, lo, mid, s);
        assert Descend(hit, lo, mid).lo < mid by { EndsAtALocalAnswer(hit, lo, mid); }
      } else {
        var x :| x in s && lo <= x < hi;
        assert !(lo <= x < mid);
        assert hit(mid, hi);
        FirstTriggerFound(hit, mid, hi, s);
      }
    }
  }

  // ----- Equal lengths -----

  function Filler(): (r: string)
    ensures |r| == 95
  {
    " The quick brown fox jumps over the lazy dog while nearby a calm river flows past green fields."
  }

  /** `n` bytes of filler, block after block. */
  function Filling(filler: string, n: int): (r: string)
    requires |filler| == 95
    ensures |r| == if n > 0 then n else 0
  {
    if n <= 0 then "" else if n < 95 then filler[..n] else filler + Filling(filler, n - 95)
  }

  /** The text first, untouched, then filler up to exactly the target. */
  method ProbePad(s: string, target: int) returns (r: string)
    ensures r == s + Filling(Filler(), target - |s|)
    ensures |r| == if target > |s| then target else |s|
  {
    hide Filler;
    var filler := Filler();
    r := s;
    while |r| < target
      invariant |r| >= |s| && s + Filling(filler, target - |s|) == r + Filling(filler, target - |r|)
      decreases target - |r|
    {
      var need := target - |r|;
      if |filler| > need {
        r := r + filler[..need];
        break;
      }
      r := r + filler;
    }
  }

  /** The filler repeats without a break. */
  lemma {:induction false} FillingByte(filler: string, n: int, i: nat)
    requires |filler| == 95 && i < n
    ensures Filling(filler, n)[i] == filler[i % 95]
    decreases n
  {
    if i >= 95 {
      FillingByte(filler, n - 95, i - 95);
      assert (i - 95) % 95 == i % 95;
    }
  }
}