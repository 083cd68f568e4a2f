/** Folding a whole history into one query under the upstream's length limit.
    A `char` stands for one rune. */
module QueryFold {
  import opened Base
  import opened Decimal

  const MAX_QUERY: nat := 10000
  const LIMIT: nat := MAX_QUERY - 100
  const MARKER_RESERVE: nat := 80
  const SEPARATOR: string := "\n\n"
  const TRUNCATED: string := "…[truncated]…"

  function CutMarker(): (m: string)
    ensures |m| == 72
  {
    "\n\n...[middle context omitted: upstream limits query to 10000 chars]...\n\n"
  }

  /** A rendered part of the history. Weight 3 is never dropped, weight 2 late,
      weight 1 first. */
  datatype Section = Section(text: string, weight: int)

  // ----- Joining -----

  /** `strings.Join(parts, "\n\n")`. */
  function Join(parts: seq<string>): string {
    if parts == [] then ""
    else if |parts| == 1 then parts[0]
    else parts[0] + SEPARATOR + Join(parts[1..])
  }

  function TextLength(parts: seq<string>): nat {
    if parts == [] then 0 else |parts[0]| + TextLength(parts[1..])
  }

  lemma {:induction false} JoinLength(parts: seq<string>)
    requires parts != []
    ensures |Join(parts)| == TextLength(parts) + 2 * (|parts| - 1)
  {
    if |parts| > 1 {
      JoinLength(parts[1..]);
    }
  }

  lemma {:induction false} JoinAppend(a: seq<string>, b: seq<string>)
    requires a != [] && b != []
    ensures Join(a + b) == Join(a) + SEPARATOR + Join(b)
  {
    if |a| == 1 {
      assert (a + b)[1..] == b;
    } else {
      assert (a + b)[1..] == a[1..] + b;
      JoinAppend(a[1..], b);
    }
  }

  lemma {:induction false} TextLengthAppend(a: seq<string>, b: seq<string>)
    ensures TextLength(a + b) == TextLength(a) + TextLength(b)
  {
    if a == [] {
      assert a + b == b;
    } else {
      assert (a + b)[1..] == a[1..] + b;
      TextLengthAppend(a[1..], b);
    }
  }

  function Texts(sections: seq<Section>): (r: seq<string>)
    ensures |r| == |sections| && forall i :: 0 <= i < |r| ==> r[i] == sections[i].text
  {
    seq(|sections|, i requires 0 <= i < |sections| => sections[i].text)
  }

  function JoinSections(sections: seq<Section>): string {
    Join(Texts(sections))
  }

  // ----- The hard cut -----

  /** `capUpstreamQuery`: head and tail around a marker. */
  function CapQuery(q: string): (r: string)
    ensures |r| <= LIMIT && (|q| > LIMIT ==> |r| == LIMIT)
    ensures |q| <= LIMIT ==> r == q
  {
    if |q| <= LIMIT then q
    else
      var head := LIMIT * 3 / 10;
      var tail := LIMIT - head - |CutMarker()|;
      q[..head] + CutMarker() + q[|q| - tail..]
  }

  /** Runes the hard cut keeps at the front, and at the end. */
  const KEPT_HEAD: nat := 2970
  const KEPT_TAIL: nat := 6858

  lemma TailOfTail(p: string, q: string, k: nat, m: nat)
    requires m <= k <= |q|
    ensures var c := p + q[|q| - k..];
            m <= |c| && c[|c| - m..] == q[|q| - m..]
  {
  }

  lemma CapKeepsTail(q: string, suffix: string)
    requires |suffix| <= |q| && q[|q| - |suffix|..] == suffix && |suffix| <= KEPT_TAIL
    ensures |suffix| <= |CapQuery(q)| && CapQuery(q)[|CapQuery(q)| - |suffix|..] == suffix
  {
    hide CutMarker;
    if |q| > LIMIT {
      var p := q[..KEPT_HEAD] + CutMarker();
      assert CapQuery(q) == p + q[|q| - KEPT_TAIL..];
      hide CapQuery;
      TailOfTail(p, q, KEPT_TAIL, |suffix|);
    }
  }

  /** `truncateMiddleRunes`. */
  function TruncateMiddle(s: string, max: int): (r: string)
    ensures max > 0 ==> |r| == if |s| <= max then |s| else max
    ensures max <= 0 || |s| <= max ==> r == s
  {
    if max <= 0 || |s| <= max then s
    else
      var keep := max - |TRUNCATED|;
      if keep <= 0 then s[..max]
      else
        var head := keep / 2;
        s[..head] + TRUNCATED + s[|s| - (keep - head)..]
  }

  // ----- Dropping whole sections -----

  ghost function Droppable(sections: seq<Section>, minWeight: int): nat {
    if sections == [] then 0
    else (if sections[0].weight < minWeight then 1 else 0) + Droppable(sections[1..], minWeight)
  }

  /** What dropping the `k` oldest droppable sections saves, separators included. */
  ghost function Saved(sections: seq<Section>, minWeight: int, k: nat): nat {
    if sections == [] || k == 0 then 0
    else if sections[0].weight < minWeight then |sections[0].text| + 2 + Saved(sections[1..], minWeight, k - 1)
    else Saved(sections[1..], minWeight, k)
  }

  /** The flags left when the `k` oldest droppable sections are dropped. */
  ghost function DropOldest(sections: seq<Section>, minWeight: int, k: nat): (keep: seq<bool>)
    ensures |keep| == |sections|
  {
    if sections == [] then []
    else if sections[0].weight < minWeight && k > 0 then [false] + DropOldest(sections[1..], minWeight, k - 1)
    else [true] + DropOldest(sections[1..], minWeight, k)
  }

  /** The fewest sections, oldest first, whose removal fits the budget; all of
      them when that is not enough. */
  ghost function Fewest(sections: seq<Section>, minWeight: int, budget: nat, k: nat): (r: nat)
    requires k <= Droppable(sections, minWeight)
    ensures k <= r <= Droppable(sections, minWeight)
    ensures forall j :: k <= j < r ==> |JoinSections(sections)| - Saved(sections, minWeight, j) > budget
    ensures r == Droppable(sections, minWeight) || |JoinSections(sections)| - Saved(sections, minWeight, r) <= budget
    decreases Droppable(sections, minWeight) - k
  {
    if k == Droppable(sections, minWeight) || |JoinSections(sections)| - Saved(sections, minWeight, k) <= budget then k
    else Fewest(sections, minWeight, budget, k + 1)
  }

  function KeptTexts(sections: seq<Section>, keep: seq<bool>): seq<string>
    requires |keep| == |sections|
  {
    if sections == [] then []
    else (if keep[0] then [sections[0].text] else []) + KeptTexts(sections[1..], keep[1..])
  }

  /** The kept texts with the marker where the first dropped section stood. */
  function MarkedTexts(sections: seq<Section>, keep: seq<bool>, marker: string): seq<string>
    requires |keep| == |sections|
  {
    if sections == [] then []
    else if keep[0] then [sections[0].text] + MarkedTexts(sections[1..], keep[1..], marker)
    else [marker] + KeptTexts(sections[1..], keep[1..])
  }

  function OmissionMarker(dropped: nat): string {
    "...[omitted: " + Itoa(dropped) + " older history sections]..."
  }

  /** The weight below which sections are dropped: low ones if that can be
      enough, otherwise low and middle ones alike. */
  ghost function DropLevel(sections: seq<Section>): int {
    var k := Fewest(sections, 2, LIMIT - MARKER_RESERVE, 0);
    var kept := Join(KeptTexts(sections, DropOldest(sections, 2, k)));
    if kept != "" && |kept| > LIMIT - MARKER_RESERVE then 3 else 2
  }

  ghost function DropCount(sections: seq<Section>): nat {
    Fewest(sections, DropLevel(sections), LIMIT - MARKER_RESERVE, 0)
  }

  ghost function KeepFlags(sections: seq<Section>): (keep: seq<bool>)
    ensures |keep| == |sections|
  {
    DropOldest(sections, DropLevel(sections), DropCount(sections))
  }

  ghost function WithMarker(sections: seq<Section>): string {
    Join(MarkedTexts(sections, KeepFlags(sections), OmissionMarker(DropCount(sections))))
  }

  /** What the fold yields. */
  ghost function Folded(sections: seq<Section>): string {
    var joined := JoinSections(sections);
    if |joined| <= LIMIT then joined
    else if DropCount(sections) == 0 then CapQuery(joined)
    else CapQuery(WithMarker(sections))
  }

  // ----- The loops -----

  ghost function PrefixFlags(sections: seq<Section>, minWeight: int, i: nat): seq<bool> {
    seq(|sections|, j requires 0 <= j < |sections| => !(j < i && sections[j].weight < minWeight))
  }

  /** The definitions, one section at a time. */
  lemma FirstSection(x: Section, rest: seq<Section>, minWeight: int, k: nat)
    ensures var s := [x] + rest;
            var low := x.weight < minWeight;
            && Droppable(s, minWeight) == (if low then 1 else 0) + Droppable(rest, minWeight)
            && Saved(s, minWeight, 0) == 0 == Saved(rest, minWeight, 0)
            && Saved(s, minWeight, k + 1)
               == (if low then |x.text| + 2 + Saved(rest, minWeight, k) else Saved(rest, minWeight, k + 1))
            && DropOldest(s, minWeight, k + 1)
               == [!low] + DropOldest(rest, minWeight, if low then k else k + 1)
            && DropOldest(s, minWeight, 0) == [true] + DropOldest(rest, minWeight, 0)
            && Texts(s) == [x.text] + Texts(rest)
  {
    assert ([x] + rest)[1..] == rest;
    TextsFirst(x, rest);
    hide Texts;
  }

  lemma TextsFirst(x: Section, rest: seq<Section>)
    ensures Texts([x] + rest) == [x.text] + Texts(rest)
  {
  }

  lemma FirstFlag(x: Section, rest: seq<Section>, minWeight: int, i: nat)
    requires i > 0
    ensures PrefixFlags([x] + rest, minWeight, i) == [x.weight >= minWeight] + PrefixFlags(rest, minWeight, i - 1)
  {
  }

  /** Scanning the first `i` sections drops the droppable ones among them. */
  lemma {:induction false} ScanPrefix(sections: seq<Section>, minWeight: int, i: nat)
    requires i <= |sections|
    ensures var k := Droppable(sections[..i], minWeight);
            k <= Droppable(sections, minWeight)
            && DropOldest(sections, minWeight, k) == PrefixFlags(sections, minWeight, i)
  {
    if i == 0 {
      NothingDropped(sections, minWeight);
    } else {
      var x, rest := sections[0], sections[1..];
      assert sections == [x] + rest && sections[..i] == [x] + rest[..i - 1];
      var k := Droppable(rest[..i - 1], minWeight);
      ScanPrefix(rest, minWeight, i - 1);
      FirstSection(x, rest[..i - 1], minWeight, k);
      FirstFlag(x, rest, minWeight, i);
      FirstSection(x, rest, minWeight, k);
      if k > 0 {
        FirstSection(x, rest, minWeight, k - 1);
      }
      hide Droppable, Saved, DropOldest, PrefixFlags;
    }
  }

  /** What the next section adds to the count and to the saving. */
  lemma {:induction false} ScanNext(sections: seq<Section>, minWeight: int, i: nat)
    requires i < |sections|
    ensures var k := Droppable(sections[..i], minWeight);
            if sections[i].weight >= minWeight then Droppable(sections[..i + 1], minWeight) == k
            else
              Droppable(sections[..i + 1], minWeight) == k + 1
              && Saved(sections, minWeight, k + 1) == Saved(sections, minWeight, k) + |sections[i].text| + 2
  {
    var x, rest := sections[0], sections[1..];
    assert sections == [x] + rest;
    assert sections[..i + 1] == [x] + rest[..i];
    if i == 0 {
      FirstSection(x, [], minWeight, 0);
      FirstSection(x, rest, minWeight, 0);
    } else {
      assert sections[..i] == [x] + rest[..i - 1];
      var k := Droppable(rest[..i - 1], minWeight);
      ScanNext(rest, minWeight, i - 1);
      FirstSection(x, rest[..i - 1], minWeight, k);
      FirstSection(x, rest[..i], minWeight, k);
      FirstSection(x, rest, minWeight, k);
      FirstSection(x, rest, minWeight, k + 1);
      if k > 0 {
        FirstSection(x, rest, minWeight, k - 1);
      }
      hide Droppable, Saved, DropOldest;
    }
  }

  lemma {:induction false} NothingDropped(sections: seq<Section>, minWeight: int)
    ensures DropOldest(sections, minWeight, 0) == PrefixFlags(sections, minWeight, 0)
    ensures forall i :: 0 <= i < |sections| ==> DropOldest(sections, minWeight, 0)[i]
  {
    if sections != [] {
      NothingDropped(sections[1..], minWeight);
    }
  }

  lemma FewestIs(sections: seq<Section>, minWeight: int, budget: nat, r: nat)
    requires r <= Droppable(sections, minWeight)
    requires forall j :: 0 <= j < r ==> |JoinSections(sections)| - Saved(sections, minWeight, j) > budget
    requires r == Droppable(sections, minWeight) || |JoinSections(sections)| - Saved(sections, minWeight, r) <= budget
    ensures Fewest(sections, minWeight, budget, 0) == r
  {
    hide JoinSections, Saved, Droppable;
    var f := Fewest(sections, minWeight, budget, 0);
    if f < r {
      assert false;
    }
  }

  /** Where the scan of `drop` stands after `i` sections. */
  ghost predicate Scanned(sections: seq<Section>, minWeight: int, i: int, dropped: nat, total: int, flags: seq<bool>) {
    && 0 <= i <= |sections| && flags == PrefixFlags(sections, minWeight, i)
    && dropped == Droppable(sections[..i], minWeight)
    && total == |JoinSections(sections)| - Saved(sections, minWeight, dropped)
    && forall j :: 0 <= j < dropped ==>
         |JoinSections(sections)| - Saved(sections, minWeight, j) > LIMIT - MARKER_RESERVE
  }

  lemma ScanStarts(sections: seq<Section>, minWeight: int)
    ensures Scanned(sections, minWeight, 0, 0, |JoinSections(sections)|, seq(|sections|, _ => true))
  {
  }

  lemma ScanGoesOn(sections: seq<Section>, minWeight: int, i: nat, dropped: nat, total: int, flags: seq<bool>)
    requires Scanned(sections, minWeight, i, dropped, total, flags) && i < |sections|
    requires total > LIMIT - MARKER_RESERVE
    ensures |flags| == |sections|
    ensures if sections[i].weight >= minWeight then Scanned(sections, minWeight, i + 1, dropped, total, flags)
            else Scanned(sections, minWeight, i + 1, dropped + 1, total - (|sections[i].text| + 2), flags[i := false])
  {
    hide Droppable, Saved, JoinSections;
    ScanNext(sections, minWeight, i);
  }

  lemma ScanEnds(sections: seq<Section>, minWeight: int, i: int, dropped: nat, total: int, flags: seq<bool>)
    requires Scanned(sections, minWeight, i, dropped, total, flags)
    requires i == |sections| || total <= LIMIT - MARKER_RESERVE
    ensures dropped == Fewest(sections, minWeight, LIMIT - MARKER_RESERVE, 0)
    ensures flags == DropOldest(sections, minWeight, dropped)
  {
    hide Droppable, Saved, JoinSections, Fewest;
    ScanPrefix(sections, minWeight, i);
    assert i == |sections| ==> sections[..i] == sections;
    FewestIs(sections, minWeight, LIMIT - MARKER_RESERVE, dropped);
  }

  /** The inner `drop` of `capUpstreamQuerySections`. */
  method Drop(sections: seq<Section>, joinedLength: nat, minWeight: int) returns (keep: array<bool>, dropped: nat)
    requires joinedLength == |JoinSections(sections)| > LIMIT - MARKER_RESERVE
    ensures fresh(keep)
    ensures dropped == Fewest(sections, minWeight, LIMIT - MARKER_RESERVE, 0)
    ensures keep[..] == DropOldest(sections, minWeight, dropped)
  {
    hide Scanned, DropOldest, Fewest, JoinSections;
    var budget := LIMIT - MARKER_RESERVE;
    keep := new bool[|sections|](_ => true);
    var total: int := joinedLength;
    dropped := 0;
    ScanStarts(sections, minWeight);
    assert keep[..] == seq(|sections|, _ => true);
    var i := 0;
    while i < |sections|
      invariant 0 <= i <= |sections| && total > budget
      invariant Scanned(sections, minWeight, i, dropped, total, keep[..])
    {
      ScanGoesOn(sections, minWeight, i, dropped, total, keep[..]);
      i := i + 1;
      if sections[i - 1].weight >= minWeight {
        continue;
      }
      total := total - (|sections[i - 1].text| + 2);
      keep[i - 1] := false;
      dropped := dropped + 1;
      if total <= budget {
        break;
      }
    }
    ScanEnds(sections, minWeight, i, dropped, total, keep[..]);
  }

  lemma TextsFrom(sections: seq<Section>, keep: seq<bool>, marker: string, i: nat)
    requires |keep| == |sections| && i < |sections|
    ensures var kept := KeptTexts(sections[i + 1..], keep[i + 1..]);
            && KeptTexts(sections[i..], keep[i..]) == (if keep[i] then [sections[i].text] + kept else kept)
            && MarkedTexts(sections[i..], keep[i..], marker)
               == (if keep[i] then [sections[i].text] + MarkedTexts(sections[i + 1..], keep[i + 1..], marker)
                   else [marker] + kept)
  {
    assert sections[i..][1..] == sections[i + 1..] && keep[i..][1..] == keep[i + 1..];
    assert keep[i..][0] == keep[i] && sections[i..][0] == sections[i];
    var kept := KeptTexts(sections[i + 1..], keep[i + 1..]);
    assert [] + kept == kept;
  }

  lemma TextsDone(marker: string)
    ensures KeptTexts([], []) == [] == MarkedTexts([], [], marker)
  {
  }

  lemma AppendOne(parts: seq<string>, x: string, rest: seq<string>)
    ensures parts + ([x] + rest) == (parts + [x]) + rest
  {
  }

  /** `keptJoin`. */
  method KeptJoin(sections: seq<Section>, keep: array<bool>) returns (r: string)
    requires keep.Length == |sections|
    ensures r == Join(KeptTexts(sections, keep[..]))
  {
    hide Join, KeptTexts, MarkedTexts;
    var parts := [];
    ghost var flags := keep[..];
    for i := 0 to |sections|
      invariant parts + KeptTexts(sections[i..], flags[i..]) == KeptTexts(sections, flags)
    {
      TextsFrom(sections, flags, "", i);
      if keep[i] {
        AppendOne(parts, sections[i].text, KeptTexts(sections[i + 1..], flags[i + 1..]));
        parts := parts + [sections[i].text];
      }
    }
    TextsDone("");
    assert parts + [] == parts;
    return Join(parts);
  }

  /** `insertOmissionMarker`. */
  method InsertMarker(sections: seq<Section>, keep: array<bool>, marker: string) returns (r: string)
    requires keep.Length == |sections|
    ensures r == Join(MarkedTexts(sections, keep[..], marker))
  {
    hide Join, KeptTexts, MarkedTexts;
    var parts := [];
    var inserted := false;
    ghost var flags := keep[..];
    ghost var goal := MarkedTexts(sections, flags, marker);
    for i := 0 to |sections|
      invariant goal == parts + if inserted then KeptTexts(sections[i..], flags[i..])
                                else MarkedTexts(sections[i..], flags[i..], marker)
    {
      TextsFrom(sections, flags, marker, i);
      ghost var kept := KeptTexts(sections[i + 1..], flags[i + 1..]);
      if !keep[i] {
        if !inserted {
          AppendOne(parts, marker, kept);
          parts := parts + [marker];
          inserted := true;
        }
        continue;
      }
      AppendOne(parts, sections[i].text, kept);
      AppendOne(parts, sections[i].text, MarkedTexts(sections[i + 1..], flags[i + 1..], marker));
      parts := parts + [sections[i].text];
    }
    TextsDone(marker);
    assert parts + [] == parts;
    return Join(parts);
  }

  /** `capUpstreamQuerySections`. */
  method CapSections(sections: seq<Section>) returns (q: string)
    ensures q == Folded(sections)
  {
    hide Join, KeptTexts, MarkedTexts, DropOldest, Fewest, Itoa, CutMarker;
    var joined := JoinSections(sections);
    if |joined| <= LIMIT {
      return joined;
    }
    var keep, dropped := Drop(sections, |joined|, 2);
    var kept := KeptJoin(sections, keep);
    if kept != "" && |kept| > LIMIT - MARKER_RESERVE {
      keep, dropped := Drop(sections, |joined|, 3);
    }
    if dropped > 0 {
      var withMarker := InsertMarker(sections, keep, OmissionMarker(dropped));
      if |withMarker| > LIMIT {
        return CapQuery(withMarker);
      }
      return withMarker;
    }
    var result := KeptJoin(sections, keep);
    assert result == joined by {
      KeepingAll(sections, DropLevel(sections));
    }
    if |result| > LIMIT {
      return CapQuery(result);
    }
    return result;
  }

  lemma KeepingAll(sections: seq<Section>, minWeight: int)
    ensures KeptTexts(sections, DropOldest(sections, minWeight, 0)) == Texts(sections)
  {
    NothingDropped(sections, minWeight);
    AllKept(sections, DropOldest(sections, minWeight, 0));
  }

  lemma {:induction false} AllKept(sections: seq<Section>, keep: seq<bool>)
    requires |keep| == |sections| && forall i :: 0 <= i < |keep| ==> keep[i]
    ensures KeptTexts(sections, keep) == Texts(sections)
    ensures forall marker :: MarkedTexts(sections, keep, marker) == Texts(sections)
  {
    if sections != [] {
      AllKept(sections[1..], keep[1..]);
      assert Texts(sections) == [sections[0].text] + Texts(sections[1..]);
    }
  }

  // ----- What folding promises -----

  /** The result always fits, and is the plain join when that fits. */
  lemma FoldedFits(sections: seq<Section>)
    ensures |Folded(sections)| <= LIMIT
    ensures |JoinSections(sections)| <= LIMIT ==> Folded(sections) == JoinSections(sections)
  {
    hide JoinSections, DropCount, WithMarker, CutMarker;
  }

  ghost predicate EndsWith(s: string, suffix: string) {
    |suffix| <= |s| && s[|s| - |suffix|..] == suffix
  }

  ghost predicate StartsWith(s: string, prefix: string) {
    prefix <= s
  }

  ghost predicate AllHeavy(sections: seq<Section>) {
    forall i :: 0 <= i < |sections| ==> sections[i].weight >= 3
  }

  lemma {:induction false} HeavyIsKept(sections: seq<Section>, minWeight: int, k: nat)
    requires minWeight <= 3
    ensures var keep := DropOldest(sections, minWeight, k);
            forall i :: 0 <= i < |sections| && sections[i].weight >= 3 ==> keep[i]
  {
    if sections != [] {
      var dropsFirst := sections[0].weight < minWeight && k > 0;
      HeavyIsKept(sections[1..], minWeight, if dropsFirst then k - 1 else k);
    }
  }

  /** Kept sections at the end close the marked list. */
  lemma {:induction false} MarkedBefore(a: seq<Section>, ka: seq<bool>, b: seq<Section>, kb: seq<bool>, marker: string)
    requires |ka| == |a| && |kb| == |b| && forall i :: 0 <= i < |kb| ==> kb[i]
    ensures MarkedTexts(a + b, ka + kb, marker) == MarkedTexts(a, ka, marker) + Texts(b)
    ensures KeptTexts(a + b, ka + kb) == KeptTexts(a, ka) + Texts(b)
  {
    hide Texts;
    if a == [] {
      assert a + b == b && ka + kb == kb;
      AllKept(b, kb);
      assert [] + Texts(b) == Texts(b);
    } else {
      var (x, k, rest, flags) := (a[0], ka[0], a[1..], ka[1..]);
      assert a == [x] + rest && ka == [k] + flags;
      assert a + b == [x] + (rest + b) && ka + kb == [k] + (flags + kb);
      TextsCons(x, k, rest, flags, marker);
      TextsCons(x, k, rest + b, flags + kb, marker);
      hide KeptTexts, MarkedTexts;
      MarkedBefore(rest, flags, b, kb, marker);
      Assoc(if k then [x.text] else [], KeptTexts(rest, flags), Texts(b));
      Assoc([x.text], MarkedTexts(rest, flags, marker), Texts(b));
      Assoc([marker], KeptTexts(rest, flags), Texts(b));
    }
  }

  lemma Assoc(a: seq<string>, b: seq<string>, c: seq<string>)
    ensures a + (b + c) == (a + b) + c
  {
  }

  lemma TextsCons(x: Section, k: bool, rest: seq<Section>, flags: seq<bool>, marker: string)
    requires |rest| == |flags|
    ensures KeptTexts([x] + rest, [k] + flags) == (if k then [x.text] else []) + KeptTexts(rest, flags)
    ensures MarkedTexts([x] + rest, [k] + flags, marker)
            == if k then [x.text] + MarkedTexts(rest, flags, marker) else [marker] + KeptTexts(rest, flags)
  {
    assert ([x] + rest)[1..] == rest && ([k] + flags)[1..] == flags;
  }

  /** Kept sections at the front open it. */
  lemma {:induction false} MarkedAfter(a: seq<Section>, ka: seq<bool>, b: seq<Section>, kb: seq<bool>, marker: string)
    requires |ka| == |a| && |kb| == |b| && forall i :: 0 <= i < |ka| ==> ka[i]
    ensures MarkedTexts(a + b, ka + kb, marker) == Texts(a) + MarkedTexts(b, kb, marker)
  {
    if a == [] {
      assert a + b == b && ka + kb == kb;
      assert Texts(a) + MarkedTexts(b, kb, marker) == MarkedTexts(b, kb, marker);
    } else {
      assert (a + b)[1..] == a[1..] + b && (ka + kb)[1..] == ka[1..] + kb;
      MarkedAfter(a[1..], ka[1..], b, kb, marker);
      assert Texts(a) == [a[0].text] + Texts(a[1..]);
    }
  }

  lemma JoinEnds(a: seq<string>, b: seq<string>)
    requires b != []
    ensures EndsWith(Join(a + b), Join(b))
  {
    if a == [] {
      assert a + b == b;
    } else {
      hide Join;
      JoinAppend(a, b);
      var q := Join(a) + SEPARATOR;
      assert (q + Join(b))[|q|..] == Join(b);
    }
  }

  lemma JoinStarts(a: seq<string>, b: seq<string>)
    requires a != []
    ensures StartsWith(Join(a + b), Join(a))
  {
    if b == [] {
      assert a + b == a;
    } else {
      JoinAppend(a, b);
    }
  }

  lemma SplitFlags(a: seq<Section>, b: seq<Section>) returns (ka: seq<bool>, kb: seq<bool>)
    ensures KeepFlags(a + b) == ka + kb && |ka| == |a| && |kb| == |b|
    ensures AllHeavy(a) ==> forall i :: 0 <= i < |ka| ==> ka[i]
    ensures AllHeavy(b) ==> forall i :: 0 <= i < |kb| ==> kb[i]
  {
    hide DropLevel, DropCount, DropOldest;
    LevelRange(a + b);
    HeavyIsKept(a + b, DropLevel(a + b), DropCount(a + b));
    var keep := KeepFlags(a + b);
    ka, kb := keep[..|a|], keep[|a|..];
  }

  lemma LevelRange(sections: seq<Section>)
    ensures 2 <= DropLevel(sections) <= 3
  {
  }

  /** Weight-3 sections at the end survive, in order and complete, whatever
      stands before them, as long as they fit the tail the hard cut keeps. */
  lemma HeavyTailSurvives(a: seq<Section>, b: seq<Section>)
    requires b != [] && AllHeavy(b) && |JoinSections(b)| <= KEPT_TAIL
    ensures EndsWith(Folded(a + b), JoinSections(b))
  {
    hide DropLevel, DropCount, Join, KeptTexts, MarkedTexts, CapQuery, KeepFlags, Itoa;
    var all := a + b;
    assert Texts(all) == Texts(a) + Texts(b) && Texts(b) != [];
    JoinEnds(Texts(a), Texts(b));
    CapKeepsTail(JoinSections(all), JoinSections(b));
    var ka, kb := SplitFlags(a, b);
    var marker := OmissionMarker(DropCount(all));
    MarkedBefore(a, ka, b, kb, marker);
    JoinEnds(MarkedTexts(a, ka, marker), Texts(b));
    CapKeepsTail(WithMarker(all), JoinSections(b));
  }

  /** Weight-3 sections at the front survive as long as they fit the head the
      hard cut keeps. */
  lemma HeavyHeadSurvives(a: seq<Section>, b: seq<Section>)
    requires a != [] && AllHeavy(a) && |JoinSections(a)| <= KEPT_HEAD
    ensures StartsWith(Folded(a + b), JoinSections(a))
  {
    hide DropLevel, DropCount, Join, KeptTexts, MarkedTexts, KeepFlags, Itoa, CutMarker;
    var all := a + b;
    assert Texts(all) == Texts(a) + Texts(b) && Texts(a) != [];
    JoinStarts(Texts(a), Texts(b));
    var ka, kb := SplitFlags(a, b);
    var marker := OmissionMarker(DropCount(all));
    MarkedAfter(a, ka, b, kb, marker);
    JoinStarts(Texts(a), MarkedTexts(b, kb, marker));
  }

  // ----- When the hard cut is needed -----

  lemma {:induction false} KeptMeasure(sections: seq<Section>, minWeight: int, k: nat)
    requires k <= Droppable(sections, minWeight)
    ensures var kept := KeptTexts(sections, DropOldest(sections, minWeight, k));
            && |kept| + k == |sections|
            && TextLength(kept) + Saved(sections, minWeight, k) == TextLength(Texts(sections)) + 2 * k
  {
    if sections != [] {
      var rest := sections[1..];
      assert Texts(sections) == [sections[0].text] + Texts(rest);
      if sections[0].weight < minWeight && k > 0 {
        KeptMeasure(rest, minWeight, k - 1);
        var kept := KeptTexts(rest, DropOldest(rest, minWeight, k - 1));
        assert [] + kept == kept;
      } else {
        KeptMeasure(rest, minWeight, k);
      }
    }
  }

  lemma {:induction false} MarkedMeasure(sections: seq<Section>, minWeight: int, k: nat, marker: string)
    requires 1 <= k <= Droppable(sections, minWeight)
    ensures var keep := DropOldest(sections, minWeight, k);
            var marked := MarkedTexts(sections, keep, marker);
            && |marked| == |KeptTexts(sections, keep)| + 1
            && TextLength(marked) == TextLength(KeptTexts(sections, keep)) + |marker|
  {
    if sections != [] {
      var rest := sections[1..];
      if sections[0].weight < minWeight {
        var kept := KeptTexts(rest, DropOldest(rest, minWeight, k - 1));
        assert [] + kept == kept;
      } else {
        MarkedMeasure(rest, minWeight, k, marker);
      }
    }
  }

  ghost function KeptLength(sections: seq<Section>, minWeight: int, k: nat): nat {
    |Join(KeptTexts(sections, DropOldest(sections, minWeight, k)))|
  }

  /** Length of what is kept, and of the same with the marker. */
  lemma KeptAndMarkedLength(sections: seq<Section>, minWeight: int, k: nat, marker: string)
    requires 1 <= k <= Droppable(sections, minWeight)
    ensures var keep := DropOldest(sections, minWeight, k);
            var marked := |Join(MarkedTexts(sections, keep, marker))|;
            if k == |sections| then
              KeptLength(sections, minWeight, k) == 0 && marked == |marker|
              && |JoinSections(sections)| - Saved(sections, minWeight, k) == -2
            else
              KeptLength(sections, minWeight, k) == |JoinSections(sections)| - Saved(sections, minWeight, k)
              && marked == KeptLength(sections, minWeight, k) + 2 + |marker|
  {
    hide Join, Saved, Droppable, KeptTexts, MarkedTexts, DropOldest, TextLength;
    var keep := DropOldest(sections, minWeight, k);
    KeptMeasure(sections, minWeight, k);
    MarkedMeasure(sections, minWeight, k, marker);
    JoinLength(Texts(sections));
    JoinLength(MarkedTexts(sections, keep, marker));
    var kept := KeptTexts(sections, keep);
    if k < |sections| {
      JoinLength(kept);
    } else {
      assert kept == [];
      NothingKept();
    }
  }

  lemma NothingKept()
    ensures Join([]) == "" && TextLength([]) == 0
  {
  }

  lemma {:induction false} SavedGrows(sections: seq<Section>, j: nat, k: nat)
    requires k <= Droppable(sections, 3)
    ensures Droppable(sections, 2) <= Droppable(sections, 3)
    ensures j <= k ==> Saved(sections, 3, j) <= Saved(sections, 3, k)
    ensures j <= Droppable(sections, 2) && k == Droppable(sections, 3) ==>
              Saved(sections, 2, j) <= Saved(sections, 3, k)
  {
    if sections != [] {
      var w := sections[0].weight;
      var rest := sections[1..];
      var j' := if j > 0 then j - 1 else 0;
      if w < 3 && k > 0 {
        SavedGrows(rest, j, k - 1);
        SavedGrows(rest, j', k - 1);
      } else {
        SavedGrows(rest, j, k);
      }
    }
  }

  /** The weight-3 sections alone. */
  ghost function HighLength(sections: seq<Section>): nat {
    KeptLength(sections, 3, Droppable(sections, 3))
  }

  lemma MarkerLength(k: nat)
    requires IsInt64(k)
    ensures |OmissionMarker(k)| <= 59
  {
    CountTextLength(k);
  }

  /** Enough can be dropped: there is something to drop, and without all of it
      the query leaves room for the reserve or for the marker itself. */
  ghost predicate FitsByDropping(sections: seq<Section>) {
    var n := Droppable(sections, 3);
    n > 0 && (HighLength(sections) <= LIMIT - MARKER_RESERVE || HighLength(sections) + 2 + |OmissionMarker(n)| <= LIMIT)
  }

  /** Exactly when a query that does not fit is cut at section borders: when
      there is something to drop and the weight-3 sections leave room, either
      the reserve or the marker's own length. Otherwise it is cut through. The
      number of sections is that of a Go slice. */
  lemma CutAtBordersIff(sections: seq<Section>)
    requires |JoinSections(sections)| > LIMIT && IsInt64(|sections|)
    ensures DropCount(sections) > 0 && |WithMarker(sections)| <= LIMIT <==> FitsByDropping(sections)
    ensures DropCount(sections) > 0 && |WithMarker(sections)| <= LIMIT ==> Folded(sections) == WithMarker(sections)
    ensures HighLength(sections) <= LIMIT - MARKER_RESERVE ==> Droppable(sections, 3) > 0
  {
    hide Join, JoinSections, Saved, Droppable, KeptTexts, MarkedTexts, DropOldest, Fewest, OmissionMarker, KeptLength;
    hide CutMarker;
    var level, k, n := DropLevel(sections), DropCount(sections), Droppable(sections, 3);
    var budget := LIMIT - MARKER_RESERVE;
    SavedGrows(sections, k, n);
    DroppableRange(sections, level);
    DroppableRange(sections, 3);
    KeepingNothingBack(sections);
    MarkerLength(k);
    if n > 0 {
      KeptAndMarkedLength(sections, 3, n, OmissionMarker(n));
    }
    LevelIsForced(sections);
    if k > 0 {
      KeptAndMarkedLength(sections, level, k, OmissionMarker(k));
    }
  }

  lemma {:induction false} DroppableRange(sections: seq<Section>, minWeight: int)
    ensures Droppable(sections, minWeight) <= |sections|
  {
    if sections != [] {
      DroppableRange(sections[1..], minWeight);
    }
  }

  lemma KeepingNothingBack(sections: seq<Section>)
    ensures KeptLength(sections, 3, 0) == KeptLength(sections, 2, 0) == |JoinSections(sections)|
    ensures Saved(sections, 3, 0) == Saved(sections, 2, 0) == 0
  {
    KeepingAll(sections, 2);
    KeepingAll(sections, 3);
  }

  /** Low sections alone are dropped only if that is enough. */
  lemma LevelIsForced(sections: seq<Section>)
    requires |JoinSections(sections)| > LIMIT
    ensures DropLevel(sections) == 2 ==>
              DropCount(sections) > 0 && KeptLength(sections, 2, DropCount(sections)) <= LIMIT - MARKER_RESERVE
    ensures DropLevel(sections) == 2 || DropLevel(sections) == 3
  {
    hide JoinSections, Saved, Droppable, KeptTexts, DropOldest, Fewest;
    KeepingNothingBack(sections);
  }

  /** The dropped sections are the oldest run, over sections below the level,
      and no shorter run would have fitted. */
  lemma DroppedRunIsShortest(sections: seq<Section>)
    ensures var level, k := DropLevel(sections), DropCount(sections);
            && (forall i :: 0 <= i < |sections| ==>
                  (!KeepFlags(sections)[i] <==> sections[i].weight < level && Droppable(sections[..i], level) < k))
            && (forall j :: 0 <= j < k ==> |JoinSections(sections)| - Saved(sections, level, j) > LIMIT - MARKER_RESERVE)
  {
    hide JoinSections, Saved, Droppable, DropLevel;
    var level, k := DropLevel(sections), DropCount(sections);
    forall i | 0 <= i < |sections|
      ensures !KeepFlags(sections)[i] <==> sections[i].weight < level && Droppable(sections[..i], level) < k
    {
      DroppedAt(sections, level, k, i);
    }
  }

  lemma {:induction false} DroppedAt(sections: seq<Section>, minWeight: int, k: nat, i: nat)
    requires i < |sections|
    ensures !DropOldest(sections, minWeight, k)[i]
            <==> sections[i].weight < minWeight && Droppable(sections[..i], minWeight) < k
  {
    if i > 0 {
      assert sections[..i][1..] == sections[1..][..i - 1];
      var dropsFirst := sections[0].weight < minWeight && k > 0;
      DroppedAt(sections[1..], minWeight, if dropsFirst then k - 1 else k, i - 1);
    }
  }

  /** Exactly one marker is put in, where the first dropped section stood. */
  lemma MarkerAtFirstGap(sections: seq<Section>, keep: seq<bool>, marker: string, g: nat)
    requires |keep| == |sections| && g < |sections| && !keep[g] && forall i :: 0 <= i < g ==> keep[i]
    ensures MarkedTexts(sections, keep, marker)
            == Texts(sections[..g]) + [marker] + KeptTexts(sections[g + 1..], keep[g + 1..])
  {
    hide KeptTexts, MarkedTexts, Texts;
    MarkedAfter(sections[..g], keep[..g], sections[g..], keep[g..], marker);
    assert sections[..g] + sections[g..] == sections && keep[..g] + keep[g..] == keep;
    TextsFrom(sections, keep, marker, g);
    var kept := KeptTexts(sections[g + 1..], keep[g + 1..]);
    assert Texts(sections[..g]) + ([marker] + kept) == Texts(sections[..g]) + [marker] + kept;
  }

  ghost predicate FirstGap(keep: seq<bool>, g: int) {
    0 <= g < |keep| && !keep[g] && forall i :: 0 <= i < g ==> keep[i]
  }

  lemma {:induction false} GapExists(keep: seq<bool>, i: nat) returns (g: nat)
    requires i < |keep| && !keep[i]
    ensures FirstGap(keep, g)
    decreases i
  {
    g := i;
    if j :| 0 <= j < i && !keep[j] {
      g := GapExists(keep, j);
    }
  }

  /** Something counted as dropped is flagged as dropped. */
  lemma SomethingDropped(sections: seq<Section>) returns (i: nat)
    requires DropCount(sections) > 0
    ensures i < |sections| && !KeepFlags(sections)[i]
  {
    hide Join, JoinSections, Saved, Droppable, DropLevel, DropOldest, KeptTexts, Texts;
    var keep := KeepFlags(sections);
    KeptMeasure(sections, DropLevel(sections), DropCount(sections));
    if forall j :: 0 <= j < |keep| ==> keep[j] {
      AllKept(sections, keep);
      assert false;
    }
    i :| 0 <= i < |keep| && !keep[i];
  }

  /** The whole result when enough can be dropped: the sections before the
      first dropped one, the marker, then what is kept of the rest. All before
      that one are at or above the level, and it is below. */
  lemma FoldedAtBorders(sections: seq<Section>)
    requires |JoinSections(sections)| > LIMIT && IsInt64(|sections|) && FitsByDropping(sections)
    ensures exists g :: FirstGap(KeepFlags(sections), g)
              && sections[g].weight < DropLevel(sections)
              && (forall i :: 0 <= i < g ==> sections[i].weight >= DropLevel(sections))
              && Folded(sections) == Join(Texts(sections[..g]) + [OmissionMarker(DropCount(sections))]
                                          + KeptTexts(sections[g + 1..], KeepFlags(sections)[g + 1..]))
  {
    CutAtBordersIff(sections);
    var i := SomethingDropped(sections);
    var g := GapExists(KeepFlags(sections), i);
    DroppedRunIsShortest(sections);
    var level, k := DropLevel(sections), DropCount(sections);
    MarkerAtFirstGap(sections, KeepFlags(sections), OmissionMarker(k), g);
    hide KeepFlags, DropLevel, DropCount, Droppable, Saved, JoinSections, Join, MarkedTexts, KeptTexts, OmissionMarker, Folded;
    forall j | 0 <= j < g ensures sections[j].weight >= level {
      DroppableGrows(sections, level, j, g);
    }
  }

  lemma {:induction false} DroppableGrows(sections: seq<Section>, minWeight: int, i: nat, j: nat)
    requires i <= j <= |sections|
    ensures Droppable(sections[..i], minWeight) <= Droppable(sections[..j], minWeight)
  {
    if i > 0 {
      assert sections[..i][1..] == sections[1..][..i - 1] && sections[..j][1..] == sections[1..][..j - 1];
      DroppableGrows(sections[1..], minWeight, i - 1, j - 1);
    }
  }

  // ----- Middle sections against low ones -----

  /** Dropping every low section is enough. */
  ghost predicate LowSuffices(sections: seq<Section>) {
    |JoinSections(sections)| - Saved(sections, 2, Droppable(sections, 2)) <= LIMIT - MARKER_RESERVE
  }

  /** Dropping all low and middle sections before the one at `j` is enough. */
  ghost predicate FitsBefore(sections: seq<Section>, j: nat)
    requires j <= |sections|
  {
    |JoinSections(sections)| - Saved(sections, 3, Droppable(sections[..j], 3)) <= LIMIT - MARKER_RESERVE
  }

  lemma {:induction false} SavedMonotone(sections: seq<Section>, minWeight: int, j: nat, k: nat)
    requires j <= k
    ensures Saved(sections, minWeight, j) <= Saved(sections, minWeight, k)
  {
    if sections != [] && j > 0 {
      SavedMonotone(sections[1..], minWeight, j - 1, k - 1);
      SavedMonotone(sections[1..], minWeight, j, k);
    }
  }

  /** The level, in lengths. */
  lemma LevelIff(sections: seq<Section>)
    requires |JoinSections(sections)| > LIMIT
    ensures DropLevel(sections) == 2 <==> LowSuffices(sections)
  {
    hide JoinSections, Saved, Droppable, Join, KeptTexts, DropOldest, Fewest;
    var n := Droppable(sections, 2);
    var k := Fewest(sections, 2, LIMIT - MARKER_RESERVE, 0);
    KeepingNothingBack(sections);
    DroppableRange(sections, 2);
    SavedMonotone(sections, 2, k, n);
    if k > 0 {
      KeptAndMarkedLength(sections, 2, k, "");
    }
  }

  /** When only low sections are flagged, no more is saved than all low ones hold. */
  lemma {:induction false} OnlyLowSaves(sections: seq<Section>, k: nat)
    requires k <= Droppable(sections, 3)
    requires forall i :: 0 <= i < |sections| && !DropOldest(sections, 3, k)[i] ==> sections[i].weight < 2
    ensures Saved(sections, 3, k) <= Saved(sections, 2, Droppable(sections, 2))
  {
    if sections != [] && k > 0 {
      var rest, k' := sections[1..], if sections[0].weight < 3 then k - 1 else k;
      var keep := DropOldest(sections, 3, k);
      assert keep[1..] == DropOldest(rest, 3, k');
      forall i | 0 <= i < |rest| && !DropOldest(rest, 3, k')[i] ensures rest[i].weight < 2 {
        assert keep[i + 1] == keep[1..][i];
      }
      OnlyLowSaves(rest, k');
      if sections[0].weight < 3 {
        assert !keep[0];
      }
    }
  }

  ghost predicate MiddleBeforeLow(sections: seq<Section>) {
    exists i, j :: 0 <= i < |sections| && 0 <= j < |sections| && sections[i].weight == 2 && sections[j].weight < 2
                   && !KeepFlags(sections)[i] && KeepFlags(sections)[j]
  }

  /** Where the cut among low and middle sections falls. */
  lemma KeptFromIff(sections: seq<Section>, j: nat)
    requires |JoinSections(sections)| > LIMIT && DropLevel(sections) == 3
    requires j < |sections| && sections[j].weight < 3
    ensures KeepFlags(sections)[j] <==> FitsBefore(sections, j)
    ensures FitsBefore(sections, j) ==> DropCount(sections) < Droppable(sections, 3)
  {
    var k, m := DropCount(sections), Droppable(sections[..j], 3);
    hide JoinSections, Saved, Droppable, DropLevel, DropOldest, Fewest;
    DroppedAt(sections, 3, k, j);
    ScanNext(sections, 3, j);
    DroppableGrows(sections, 3, j + 1, |sections|);
    assert sections[..|sections|] == sections;
    if k <= m {
      SavedMonotone(sections, 3, k, m);
    }
  }

  /** Exactly when a middle section is dropped while a low one is kept: the low
      sections together are not enough, and yet enough stands before some low
      section, counting middle ones, to stop there. */
  lemma MiddleBeforeLowIff(sections: seq<Section>)
    requires |JoinSections(sections)| > LIMIT
    ensures MiddleBeforeLow(sections)
       <==> !LowSuffices(sections) && exists j :: 0 <= j < |sections| && sections[j].weight < 2 && FitsBefore(sections, j)
  {
    hide JoinSections, Saved, Droppable, DropLevel, DropCount, FitsBefore, LowSuffices;
    LevelIff(sections);
    LevelRange(sections);
    if DropLevel(sections) == 2 {
      forall i | 0 <= i < |sections| && sections[i].weight == 2 ensures KeepFlags(sections)[i] {
        DroppedAt(sections, 2, DropCount(sections), i);
      }
    } else {
      forall j | 0 <= j < |sections| && sections[j].weight < 2
        ensures KeepFlags(sections)[j] <==> FitsBefore(sections, j)
      {
        KeptFromIff(sections, j);
      }
      if j :| 0 <= j < |sections| && sections[j].weight < 2 && FitsBefore(sections, j) {
        KeptFromIff(sections, j);
        SomeMiddleGoes(sections);
      }
    }
  }

  lemma SomeMiddleGoes(sections: seq<Section>)
    requires |JoinSections(sections)| > LIMIT && DropLevel(sections) == 3 && DropCount(sections) < Droppable(sections, 3)
    ensures exists i :: 0 <= i < |sections| && sections[i].weight == 2 && !KeepFlags(sections)[i]
  {
    LevelIff(sections);
    var k := DropCount(sections);
    hide JoinSections, Saved, Droppable, DropLevel, Fewest;
    if forall i :: 0 <= i < |sections| && sections[i].weight == 2 ==> KeepFlags(sections)[i] {
      forall i | 0 <= i < |sections| && !DropOldest(sections, 3, k)[i] ensures sections[i].weight < 2 {
        DroppedAt(sections, 3, k, i);
      }
      OnlyLowSaves(sections, k);
      assert false;
    }
  }

  lemma FirstText(a: string, rest: seq<string>)
    requires rest != []
    ensures Join([a] + rest) == a + SEPARATOR + Join(rest)
  {
    assert ([a] + rest)[1..] == rest;
  }

  /** An instance with the largest middle section there is: a system text before
      one short low section and a long query. */
  lemma MiddleDroppedBeforeLow(a: string, b: string, c: string)
    requires |a| == 2009 && |b| == 50 && |c| == 7900
    ensures KeepFlags([Section(a, 2), Section(b, 1), Section(c, 3)]) == [false, true, true]
  {
    var x, y, z := Section(a, 2), Section(b, 1), Section(c, 3);
    var s := [x, y, z];
    assert s == [x] + [y, z] && [y, z] == [y] + [z] && [z] == [z] + [];
    ThreeTexts(s);
    FirstSection(z, [], 2, 0);
    FirstSection(y, [z], 2, 0);
    FirstSection(x, [y, z], 2, 0);
    hide Join, JoinSections, Droppable, Saved, DropOldest, KeptTexts;
    FewestIs(s, 2, LIMIT - MARKER_RESERVE, 1);
    KeptAndMarkedLength(s, 2, 1, "");
    assert DropLevel(s) == 3;
    FirstSection(z, [], 3, 0);
    FirstSection(y, [z], 3, 0);
    FirstSection(x, [y, z], 3, 0);
    FewestIs(s, 3, LIMIT - MARKER_RESERVE, 1);
    NothingDropped([], 3);
  }

  lemma {:induction false} HeavyNothingToDrop(sections: seq<Section>)
    requires AllHeavy(sections)
    ensures Droppable(sections, 3) == Droppable(sections, 2) == 0
  {
    if sections != [] {
      HeavyNothingToDrop(sections[1..]);
    }
  }

  lemma HeavyAloneIsCut(sections: seq<Section>)
    requires AllHeavy(sections) && |JoinSections(sections)| > LIMIT
    ensures Folded(sections) == CapQuery(JoinSections(sections))
  {
    HeavyNothingToDrop(sections);
    LevelRange(sections);
    hide JoinSections, DropLevel;
  }

  function SkillsTitle(): (h: string)
    ensures |h| == 66
  {
    "[System skills]\n(The list below is the available Skill directory. "
  }

  function SkillsRule(): (h: string)
    ensures |h| == 113
  {
    "When the user's task matches one of these skills, "
    + "call the Skill tool with `skill: <name>` as the first action.)\n"
  }

  function SkillsHeader(): (h: string)
    ensures |h| == 179
  {
    SkillsTitle() + SkillsRule()
  }

  const TASK_HEADER: string := "[User (task)]\n"
  const SKILLS_BUDGET: nat := 4000
  const TEXT_BUDGET: nat := 2000
  const TAIL_BUDGET: nat := 4000

  /** The fallback the source calls impossible is not: a full skill list, a full
      task and a full tool tail are too long together, and are cut through. */
  lemma HighSectionsCanOverflow(skills: string, task: string, tail: string)
    requires |skills| == |SkillsHeader()| + SKILLS_BUDGET - 1
    requires |task| == |TASK_HEADER| + TEXT_BUDGET && |tail| == TAIL_BUDGET
    ensures var s := [Section(skills, 3), Section(task, 3), Section(tail, 3)];
            |JoinSections(s)| > LIMIT && Folded(s) == CapQuery(JoinSections(s))
  {
    hide SkillsHeader, Folded, CapQuery, JoinSections;
    var s := [Section(skills, 3), Section(task, 3), Section(tail, 3)];
    assert |TASK_HEADER| == 14;
    ThreeTexts(s);
    HeavyAloneIsCut(s);
  }

  lemma ThreeTexts(s: seq<Section>)
    requires |s| == 3
    ensures JoinSections(s) == s[0].text + SEPARATOR + (s[1].text + SEPARATOR + s[2].text)
  {
    var a, b, c := s[0].text, s[1].text, s[2].text;
    assert Texts(s) == [a] + [b, c] && [b, c] == [b] + [c];
    FirstText(b, [c]);
    FirstText(a, [b, c]);
  }

  /** In an ordinary replay the task block stands near the front, which protects it
      only if what comes before it is short: behind a skill list longer than the
      head the hard cut keeps, a long latest message drives it out. */
  lemma TaskBehindSkillsCanBeLost(skills: string, task: string, query: string)
    requires |skills| >= KEPT_HEAD && |query| >= KEPT_TAIL && |skills| + |task| + |query| + 4 > LIMIT
    ensures Folded([Section(skills, 3), Section(task, 3), Section(query, 3)])
            == skills[..KEPT_HEAD] + CutMarker() + query[|query| - KEPT_TAIL..]
  {
    hide Folded, CapQuery, JoinSections;
    var s := [Section(skills, 3), Section(task, 3), Section(query, 3)];
    ThreeTexts(s);
    HeavyAloneIsCut(s);
    CutBetween(skills, SEPARATOR + (task + SEPARATOR), query);
    assert skills + SEPARATOR + (task + SEPARATOR + query) == skills + (SEPARATOR + (task + SEPARATOR)) + query;
  }

  lemma CutBetween(a: string, middle: string, b: string)
    requires |a| >= KEPT_HEAD && |b| >= KEPT_TAIL && |a + middle + b| > LIMIT
    ensures CapQuery(a + middle + b) == a[..KEPT_HEAD] + CutMarker() + b[|b| - KEPT_TAIL..]
  {
    var q := a + middle + b;
    hide CutMarker;
    assert q[..KEPT_HEAD] == a[..KEPT_HEAD];
    assert q[|q| - KEPT_TAIL..] == b[|b| - KEPT_TAIL..];
  }

  // ----- Which heavy sections survive the hard cut -----

  /** Same weights and lengths, other words. */
  ghost predicate SameShape(s: seq<Section>, t: seq<Section>) {
    |s| == |t| && forall i :: 0 <= i < |s| ==> s[i].weight == t[i].weight && |s[i].text| == |t[i].text|
  }

  lemma {:induction false} ShapeCounts(s: seq<Section>, t: seq<Section>, minWeight: int, k: nat)
    requires SameShape(s, t)
    ensures Droppable(s, minWeight) == Droppable(t, minWeight) && Saved(s, minWeight, k) == Saved(t, minWeight, k)
    ensures DropOldest(s, minWeight, k) == DropOldest(t, minWeight, k)
  {
    if s != [] {
      ShapeCounts(s[1..], t[1..], minWeight, k);
      if k > 0 {
        ShapeCounts(s[1..], t[1..], minWeight, k - 1);
      }
    }
  }

  lemma {:induction false} ShapeJoin(a: seq<string>, b: seq<string>)
    requires |a| == |b| && forall i :: 0 <= i < |a| ==> |a[i]| == |b[i]|
    ensures |Join(a)| == |Join(b)|
  {
    if |a| > 1 {
      ShapeJoin(a[1..], b[1..]);
    }
  }

  lemma {:induction false} ShapeKept(s: seq<Section>, t: seq<Section>, keep: seq<bool>)
    requires SameShape(s, t) && |keep| == |s|
    ensures var a, b := KeptTexts(s, keep), KeptTexts(t, keep);
            |a| == |b| && forall i :: 0 <= i < |a| ==> |a[i]| == |b[i]|
  {
    if s != [] {
      ShapeKept(s[1..], t[1..], keep[1..]);
    }
  }

  lemma ShapeFewest(s: seq<Section>, t: seq<Section>, minWeight: int, budget: nat)
    requires SameShape(s, t)
    ensures |JoinSections(s)| == |JoinSections(t)|
    ensures Fewest(s, minWeight, budget, 0) == Fewest(t, minWeight, budget, 0)
  {
    ShapeJoin(Texts(s), Texts(t));
    forall k: nat
      ensures Droppable(s, minWeight) == Droppable(t, minWeight) && Saved(s, minWeight, k) == Saved(t, minWeight, k)
    {
      ShapeCounts(s, t, minWeight, k);
    }
    hide Join, Texts, Droppable, Saved, Fewest;
    FewestIs(t, minWeight, budget, Fewest(s, minWeight, budget, 0));
  }

  /** What is dropped depends on weights and lengths only. */
  lemma ShapeDecides(s: seq<Section>, t: seq<Section>)
    requires SameShape(s, t)
    ensures |JoinSections(s)| == |JoinSections(t)| && DropLevel(s) == DropLevel(t) && DropCount(s) == DropCount(t)
    ensures KeepFlags(s) == KeepFlags(t)
  {
    var budget := LIMIT - MARKER_RESERVE;
    ShapeFewest(s, t, 2, budget);
    ShapeFewest(s, t, 3, budget);
    var k := Fewest(s, 2, budget, 0);
    ShapeCounts(s, t, 2, k);
    ShapeKept(s, t, DropOldest(s, 2, k));
    ShapeJoin(KeptTexts(s, DropOldest(s, 2, k)), KeptTexts(t, DropOldest(s, 2, k)));
    hide JoinSections, Join, KeptTexts, Fewest, DropOldest, SameShape;
    LevelRange(s);
    assert DropLevel(s) == DropLevel(t);
    ShapeCounts(s, t, DropLevel(s), DropCount(s));
  }

  /** The parts the result is joined from before any hard cut. */
  ghost function BodyParts(s: seq<Section>): seq<string> {
    if |JoinSections(s)| <= LIMIT || DropCount(s) == 0 then Texts(s)
    else MarkedTexts(s, KeepFlags(s), OmissionMarker(DropCount(s)))
  }

  ghost function Body(s: seq<Section>): string {
    Join(BodyParts(s))
  }

  lemma FoldedIsCutBody(s: seq<Section>)
    ensures Folded(s) == CapQuery(Body(s))
  {
    hide DropCount, KeepFlags, Join, MarkedTexts, OmissionMarker, Texts, CapQuery;
    if |JoinSections(s)| <= LIMIT {
      CapFits(JoinSections(s));
    }
  }

  lemma CapFits(q: string)
    requires |q| <= LIMIT
    ensures CapQuery(q) == q
  {
    hide CutMarker;
  }

  lemma {:induction false} KeptSplit(a: seq<Section>, ka: seq<bool>, b: seq<Section>, kb: seq<bool>)
    requires |ka| == |a| && |kb| == |b|
    ensures KeptTexts(a + b, ka + kb) == KeptTexts(a, ka) + KeptTexts(b, kb)
  {
    if a == [] {
      assert a + b == b && ka + kb == kb;
      assert [] + KeptTexts(b, kb) == KeptTexts(b, kb);
    } else {
      var (x, k, rest, flags) := (a[0], ka[0], a[1..], ka[1..]);
      assert a == [x] + rest && ka == [k] + flags;
      assert a + b == [x] + (rest + b) && ka + kb == [k] + (flags + kb);
      TextsCons(x, k, rest, flags, "");
      TextsCons(x, k, rest + b, flags + kb, "");
      hide KeptTexts, MarkedTexts;
      KeptSplit(rest, flags, b, kb);
      Assoc(if k then [x.text] else [], KeptTexts(rest, flags), KeptTexts(b, kb));
    }
  }

  predicate AllTrue(keep: seq<bool>) {
    forall i :: 0 <= i < |keep| ==> keep[i]
  }

  lemma AllTrueCons(k: bool, flags: seq<bool>)
    ensures AllTrue([k] + flags) <==> k && AllTrue(flags)
  {
    var keep := [k] + flags;
    assert keep[0] == k;
    if AllTrue(keep) {
      forall i | 0 <= i < |flags| ensures flags[i] {
        assert keep[i + 1] == flags[i];
      }
    }
  }

  lemma {:induction false} MarkedSplit(a: seq<Section>, ka: seq<bool>, b: seq<Section>, kb: seq<bool>, marker: string)
    requires |ka| == |a| && |kb| == |b|
    ensures MarkedTexts(a + b, ka + kb, marker)
            == MarkedTexts(a, ka, marker) + if AllTrue(ka) then MarkedTexts(b, kb, marker) else KeptTexts(b, kb)
  {
    if a == [] {
      assert a + b == b && ka + kb == kb;
      assert [] + MarkedTexts(b, kb, marker) == MarkedTexts(b, kb, marker);
    } else {
      var (x, k, rest, flags) := (a[0], ka[0], a[1..], ka[1..]);
      assert a == [x] + rest && ka == [k] + flags;
      assert a + b == [x] + (rest + b) && ka + kb == [k] + (flags + kb);
      TextsCons(x, k, rest, flags, marker);
      TextsCons(x, k, rest + b, flags + kb, marker);
      AllTrueCons(k, flags);
      KeptSplit(rest, flags, b, kb);
      hide KeptTexts, MarkedTexts, AllTrue;
      MarkedSplit(rest, flags, b, kb, marker);
      Assoc([x.text], MarkedTexts(rest, flags, marker), MarkedTexts(b, kb, marker));
      Assoc([x.text], MarkedTexts(rest, flags, marker), KeptTexts(b, kb));
      Assoc([marker], KeptTexts(rest, flags), KeptTexts(b, kb));
    }
  }

  /** `x` with other words of the same length. */
  function Reworded(a: seq<Section>, x: Section, b: seq<Section>, y: string): seq<Section> {
    a + [x.(text := y)] + b
  }

  lemma FlagsAround(a: seq<Section>, x: Section, b: seq<Section>) returns (ka: seq<bool>, kb: seq<bool>)
    requires x.weight >= 3
    ensures |ka| == |a| && |kb| == |b| && KeepFlags(a + [x] + b) == ka + ([true] + kb)
    ensures AllHeavy(a) ==> AllTrue(ka)
  {
    var all := a + [x] + b;
    hide DropLevel, DropCount, DropOldest;
    LevelRange(all);
    HeavyIsKept(all, DropLevel(all), DropCount(all));
    var keep := KeepFlags(all);
    ka, kb := keep[..|a|], keep[|a| + 1..];
    assert all[|a|] == x && keep[|a|];
    assert keep == ka + ([true] + kb);
    if AllHeavy(a) {
      forall i | 0 <= i < |ka| ensures ka[i] {
        assert all[i] == a[i] && ka[i] == keep[i];
      }
    }
  }

  lemma RewordedSame(a: seq<Section>, x: Section, b: seq<Section>, y: string)
    requires |y| == |x.text|
    ensures SameShape(a + [x] + b, Reworded(a, x, b, y)) && Reworded(a, x, b, y) == a + ([x.(text := y)] + b)
  {
  }

  /** Parts before and after a heavy section: they do not depend on its words. */
  lemma PartsAround(a: seq<Section>, x: Section, b: seq<Section>) returns (before: seq<string>, after: seq<string>)
    requires x.weight >= 3
    ensures forall y :: |y| == |x.text| ==> BodyParts(Reworded(a, x, b, y)) == before + [y] + after
    ensures AllHeavy(a) ==> before == Texts(a)
  {
    var all := a + [x] + b;
    var ka, kb := FlagsAround(a, x, b);
    var marker := OmissionMarker(DropCount(all));
    var plain := |JoinSections(all)| <= LIMIT || DropCount(all) == 0;
    var whole := AllTrue(ka);
    before := if plain then Texts(a) else MarkedTexts(a, ka, marker);
    after := if plain then Texts(b) else if whole then MarkedTexts(b, kb, marker) else KeptTexts(b, kb);
    if whole {
      AllKept(a, ka);
    }
    hide *;
    forall y | |y| == |x.text| ensures BodyParts(Reworded(a, x, b, y)) == before + [y] + after {
      RewordedSame(a, x, b, y);
      ShapeDecides(all, Reworded(a, x, b, y));
      OneReworded(a, x.(text := y), b, ka, kb, marker);
      PartsAre(Reworded(a, x, b, y));
    }
  }

  lemma PartsAre(s: seq<Section>)
    ensures BodyParts(s) == if |JoinSections(s)| <= LIMIT || DropCount(s) == 0 then Texts(s)
                            else MarkedTexts(s, KeepFlags(s), OmissionMarker(DropCount(s)))
  {
  }

  lemma OneReworded(a: seq<Section>, z: Section, b: seq<Section>, ka: seq<bool>, kb: seq<bool>, marker: string)
    requires |ka| == |a| && |kb| == |b|
    ensures Texts(a + ([z] + b)) == Texts(a) + [z.text] + Texts(b)
    ensures MarkedTexts(a + ([z] + b), ka + ([true] + kb), marker)
            == MarkedTexts(a, ka, marker) + [z.text] + (if AllTrue(ka) then MarkedTexts(b, kb, marker) else KeptTexts(b, kb))
  {
    MarkedSplit(a, ka, [z] + b, [true] + kb, marker);
    TextsCons(z, true, b, kb, marker);
    Assoc(MarkedTexts(a, ka, marker), [z.text], MarkedTexts(b, kb, marker));
    Assoc(MarkedTexts(a, ka, marker), [z.text], KeptTexts(b, kb));
    TextsAround(a, z, b);
    hide *;
  }

  lemma TextsAround(a: seq<Section>, z: Section, b: seq<Section>)
    ensures Texts(a + ([z] + b)) == Texts(a) + [z.text] + Texts(b)
  {
  }

  /** Text before and after a part. */
  function Lead(before: seq<string>): string {
    if before == [] then "" else Join(before) + SEPARATOR
  }

  function Trail(after: seq<string>): string {
    if after == [] then "" else SEPARATOR + Join(after)
  }

  lemma JoinAround(before: seq<string>, y: string, after: seq<string>)
    ensures Join(before + [y] + after) == Lead(before) + y + Trail(after)
  {
    assert Join([y]) == y;
    if after == [] {
      assert before + [y] + after == before + [y];
    } else {
      JoinAppend(before + [y], after);
    }
    if before == [] {
      assert before + [y] == [y];
    } else {
      JoinAppend(before, [y]);
    }
    hide Join;
  }

  /** The words of `t` can be read off the cut text. */
  ghost predicate ReadOff(u: string, t: string, v: string) {
    forall y: string :: |y| == |t| && CapQuery(u + y + v) == CapQuery(u + t + v) ==> y == t
  }

  /** Exactly when: nothing is cut, or `t` lies within the kept head, or within
      the kept tail. */
  lemma ReadOffIff(u: string, t: string, v: string)
    requires t != ""
    ensures ReadOff(u, t, v) <==> |u| + |t| + |v| <= LIMIT || |u| + |t| <= KEPT_HEAD || |t| + |v| <= KEPT_TAIL
  {
    hide CapQuery;
    if |u| + |t| + |v| <= LIMIT || |u| + |t| <= KEPT_HEAD || |t| + |v| <= KEPT_TAIL {
      forall y: string | |y| == |t| && CapQuery(u + y + v) == CapQuery(u + t + v) ensures y == t {
        SameCutSameWords(u, y, t, v);
      }
    } else {
      var p := if |u| >= KEPT_HEAD then 0 else KEPT_HEAD - |u|;
      var y := t[p := if t[p] == 'a' then 'b' else 'a'];
      LostWord(u, y, t, v, p);
      assert y[p] != t[p];
    }
  }

  lemma SameCutSameWords(u: string, y: string, t: string, v: string)
    requires |y| == |t| && CapQuery(u + y + v) == CapQuery(u + t + v)
    requires |u| + |t| + |v| <= LIMIT || |u| + |t| <= KEPT_HEAD || |t| + |v| <= KEPT_TAIL
    ensures y == t
  {
    var q, r := u + y + v, u + t + v;
    var n := |q|;
    CutParts(q);
    CutParts(r);
    hide CapQuery;
    assert y == q[|u|..|u| + |t|] && t == r[|u|..|u| + |t|];
    if n > LIMIT {
      if |u| + |t| <= KEPT_HEAD {
        assert q[..KEPT_HEAD][|u|..|u| + |t|] == q[|u|..|u| + |t|];
        assert r[..KEPT_HEAD][|u|..|u| + |t|] == r[|u|..|u| + |t|];
      } else {
        var at := |u| - (n - KEPT_TAIL);
        assert q[n - KEPT_TAIL..][at..at + |t|] == q[|u|..|u| + |t|];
        assert r[n - KEPT_TAIL..][at..at + |t|] == r[|u|..|u| + |t|];
      }
    }
  }

  lemma CutParts(q: string)
    ensures |q| <= LIMIT ==> CapQuery(q) == q
    ensures |q| > LIMIT ==>
              && |CapQuery(q)| == LIMIT
              && CapQuery(q)[..KEPT_HEAD] == q[..KEPT_HEAD] && CapQuery(q)[LIMIT - KEPT_TAIL..] == q[|q| - KEPT_TAIL..]
              && CapQuery(q) == q[..KEPT_HEAD] + CutMarker() + q[|q| - KEPT_TAIL..]
  {
    hide CutMarker;
  }

  lemma LostWord(u: string, y: string, t: string, v: string, p: nat)
    requires |y| == |t| && p < |t| && |u| + |t| + |v| > LIMIT
    requires KEPT_HEAD <= |u| + p < |u| + |t| + |v| - KEPT_TAIL
    requires forall i :: 0 <= i < |t| && i != p ==> y[i] == t[i]
    ensures CapQuery(u + y + v) == CapQuery(u + t + v)
  {
    var q, r := u + y + v, u + t + v;
    CutParts(q);
    CutParts(r);
    hide CapQuery, CutMarker;
    assert forall i :: 0 <= i < |q| && i != |u| + p ==> q[i] == r[i];
    assert q[..KEPT_HEAD] == r[..KEPT_HEAD];
    assert q[|q| - KEPT_TAIL..] == r[|r| - KEPT_TAIL..];
  }

  /** The folded query tells the words of a section apart from any others of
      the same length: none of its runes is lost. */
  ghost predicate KeptWhole(a: seq<Section>, x: Section, b: seq<Section>) {
    forall y: string :: |y| == |x.text| && Folded(Reworded(a, x, b, y)) == Folded(a + [x] + b) ==> y == x.text
  }

  /** Over all section lists: a heavy section is kept whole exactly when nothing
      is cut through, or it ends within the kept head, or starts within the
      kept tail of what is cut. */
  lemma KeptWholeIff(a: seq<Section>, x: Section, b: seq<Section>) returns (start: nat)
    requires x.weight >= 3 && x.text != ""
    ensures AllHeavy(a) ==> start == if a == [] then 0 else |JoinSections(a)| + 2
    ensures start + |x.text| <= |Body(a + [x] + b)|
    ensures KeptWhole(a, x, b)
       <==> || |Body(a + [x] + b)| <= LIMIT
            || start + |x.text| <= KEPT_HEAD
            || |Body(a + [x] + b)| - start <= KEPT_TAIL
  {
    var before, after := PartsAround(a, x, b);
    var u, v := Lead(before), Trail(after);
    start := |u|;
    assert AllHeavy(a) ==> start == if a == [] then 0 else |JoinSections(a)| + 2 by {
      hide Join;
    }
    forall y: string | |y| == |x.text|
      ensures Body(Reworded(a, x, b, y)) == u + y + v && Folded(Reworded(a, x, b, y)) == CapQuery(u + y + v)
    {
      FoldedIsCutBody(Reworded(a, x, b, y));
      JoinAround(before, y, after);
      hide Join, BodyParts, Folded, CapQuery;
    }
    assert Reworded(a, x, b, x.text) == a + [x] + b;
    ReadOffIff(u, x.text, v);
    hide Body, Folded, CapQuery, Reworded, Lead, Trail;
  }

  /** Length of what is cut when whole sections are not enough: everything is
      dropped that can be. */
  ghost function CutLength(sections: seq<Section>): nat {
    var n := Droppable(sections, 3);
    if n == 0 then |JoinSections(sections)| else HighLength(sections) + 2 + |OmissionMarker(n)|
  }

  lemma BodyLength(sections: seq<Section>)
    requires IsInt64(|sections|)
    ensures |Body(sections)| <= LIMIT <==> |JoinSections(sections)| <= LIMIT || FitsByDropping(sections)
    ensures |Body(sections)| > LIMIT ==> |Body(sections)| == CutLength(sections)
  {
    hide Join, JoinSections, Saved, Droppable, KeptTexts, MarkedTexts, DropOldest, Fewest, OmissionMarker, KeptLength, FitsByDropping;
    if |JoinSections(sections)| > LIMIT {
      CutAtBordersIff(sections);
      var level, k, n := DropLevel(sections), DropCount(sections), Droppable(sections, 3);
      KeepingNothingBack(sections);
      DroppableRange(sections, level);
      DroppableRange(sections, 3);
      MarkerLength(k);
      LevelIsForced(sections);
      if k > 0 {
        KeptAndMarkedLength(sections, level, k, OmissionMarker(k));
      }
    }
    assert Body(sections) == if |JoinSections(sections)| <= LIMIT || DropCount(sections) == 0 then JoinSections(sections) else WithMarker(sections) by {
      hide KeepFlags, DropCount;
      JoinsAre(sections);
    }
  }

  lemma JoinsAre(sections: seq<Section>)
    ensures JoinSections(sections) == Join(Texts(sections))
  {
  }

  // ----- Building the sections -----

  datatype Block = ToolResult(id: string, failed: bool, text: string) | TextBlock(text: string) | OtherBlock

  /** A chat message: its text, its content blocks when the content is a list,
      and the lines that name the tools an assistant called. */
  datatype Message = Message(role: string, text: string, blocks: Option<seq<Block>>, toolCallID: string,
                             callLines: string)

  /** The regular-expression steps: removing system reminders, and taking a
      skill list out of a system text. */
  datatype Parsers = Parsers(strip: string -> string, systemParts: string -> (seq<string>, string))

  const INSTRUCTION: string := "\n\nProcess these tool results and continue. If you need another tool, emit <tool_call> markup; otherwise answer the user."
  const SEED_TAIL: string := "[User]\n以上是此前对话的完整上下文。请用一段话总结当前任务状态与最近进展，不要执行任何操作、不要调用任何工具。"
  const RESULTS_BUDGET: nat := 6000
  const MIN_RESULT: nat := 500
  const SYSTEM_BUDGET: nat := 2000

  predicate Contains(s: string, sub: string) {
    exists i :: 0 <= i <= |s| && sub <= s[i..]
  }

  predicate IsAnthropicToolResult(m: Message) {
    m.role == "user" && m.blocks.Some? && exists i :: 0 <= i < |m.blocks.value| && m.blocks.value[i].ToolResult?
  }

  predicate IsTokenMetadata(m: Message) {
    m.role == "system" && Contains(m.text, "<total_tokens>")
  }

  predicate CarriesResult(m: Message) {
    m.role == "tool" || IsAnthropicToolResult(m)
  }

  predicate IsUserTurn(m: Message) {
    m.role == "user" && !IsAnthropicToolResult(m)
  }

  /** `toolTailIndex`. */
  function ToolTailIndex(messages: seq<Message>): (i: int)
    ensures -1 <= i < |messages|
    ensures i >= 0 ==> CarriesResult(messages[i])
  {
    if messages == [] then -1
    else
      var n := |messages| - 1;
      if IsTokenMetadata(messages[n]) then ToolTailIndex(messages[..n])
      else if CarriesResult(messages[n]) then n
      else -1
  }

  function ResultText(id: string, failed: bool, text: string): string {
    "[" + (if failed then "Tool Error" else "Tool Result") + " id=" + id + "]\n" + text
  }

  /** A user turn's results go in front one by one, its texts at the back. */
  function AddBlocks(blocks: seq<Block>, parts: seq<string>): seq<string>
    decreases |blocks|
  {
    if blocks == [] then parts
    else
      AddBlocks(blocks[1..],
        match blocks[0]
        case ToolResult(id, failed, text) => [ResultText(id, failed, text)] + parts
        case TextBlock(text) => if text != "" then parts + ["[User Message]\n" + text] else parts
        case OtherBlock => parts)
  }

  /** The pending results from message `i` backwards, and the first message
      they take up. */
  function PendingFrom(messages: seq<Message>, i: int, parts: seq<string>, skipFrom: nat): (seq<string>, nat)
    requires -1 <= i < |messages|
    decreases i + 1
  {
    if i < 0 then (parts, skipFrom)
    else
      var m := messages[i];
      if m.role == "tool" then
        PendingFrom(messages, i - 1, [ResultText(m.toolCallID, false, m.text)] + parts, i)
      else if IsAnthropicToolResult(m) then
        PendingFrom(messages, i - 1, AddBlocks(m.blocks.value, parts), i)
      else (parts, skipFrom)
  }

  /** The last of the first `n` messages that satisfies `p`, or -1. */
  function LastWhere(messages: seq<Message>, n: nat, p: Message -> bool): (i: int)
    requires n <= |messages|
    ensures -1 <= i < n
    ensures i >= 0 ==> p(messages[i])
    ensures forall j :: i < j < n ==> !p(messages[j])
  {
    if n == 0 then -1 else if p(messages[n - 1]) then n - 1 else LastWhere(messages, n - 1, p)
  }

  function FirstTask(messages: seq<Message>, i: nat, queryIdx: int, skipFrom: nat): (t: int)
    requires i <= |messages|
    ensures -1 <= t < |messages|
    decreases |messages| - i
  {
    if i == |messages| then -1
    else if i != queryIdx && i < skipFrom && IsUserTurn(messages[i]) then i
    else FirstTask(messages, i + 1, queryIdx, skipFrom)
  }

  /** What the replay is about: the query, the message it came from if it is a
      user's, the first message of the pending results and the task message. */
  datatype Plan = Plan(toolTail: bool, query: string, queryIdx: int, skipFrom: nat, taskIdx: int)

  function PlanOf(messages: seq<Message>): (p: Plan)
    ensures -1 <= p.taskIdx < |messages|
  {
    var toolIdx := ToolTailIndex(messages);
    if toolIdx >= 0 then
      var (parts, skipFrom) := PendingFrom(messages, toolIdx, [], |messages|);
      var current := LastWhere(messages, toolIdx + 1, (m: Message) => IsUserTurn(m));
      Plan(true, Join(parts) + INSTRUCTION, -1, skipFrom,
           if current >= 0 then current else FirstTask(messages, 0, -1, skipFrom))
    else
      var queryIdx := LastWhere(messages, |messages|, (m: Message) => m.role == "user");
      Plan(false, if queryIdx >= 0 then messages[queryIdx].text else "", queryIdx, |messages|,
           FirstTask(messages, 0, queryIdx, |messages|))
  }

  function CountResults(blocks: seq<Block>): nat {
    if blocks == [] then 0 else (if blocks[0].ToolResult? then 1 else 0) + CountResults(blocks[1..])
  }

  function FoldedResults(m: Message): nat {
    if m.role == "tool" then 1 else if IsAnthropicToolResult(m) then CountResults(m.blocks.value) else 0
  }

  function TotalResults(messages: seq<Message>, n: nat, plan: Plan): nat
    requires n <= |messages|
  {
    if n == 0 then 0
    else
      TotalResults(messages, n - 1, plan)
      + if n - 1 == plan.queryIdx || n - 1 >= plan.skipFrom then 0 else FoldedResults(messages[n - 1])
  }

  /** `foldedToolResultBudget`. */
  function ResultBudget(count: nat): (b: nat)
    ensures b >= MIN_RESULT
  {
    if count <= 1 then RESULTS_BUDGET
    else if RESULTS_BUDGET / count < MIN_RESULT then MIN_RESULT
    else RESULTS_BUDGET / count
  }

  function BlockParts(blocks: seq<Block>, budget: nat): seq<string> {
    if blocks == [] then []
    else
      (match blocks[0]
       case ToolResult(id, failed, text) => [ResultText(id, failed, TruncateMiddle(text, budget))]
       case TextBlock(text) => if text != "" then ["[User]\n" + text] else []
       case OtherBlock => []) + BlockParts(blocks[1..], budget)
  }

  function Low(parts: seq<string>): (s: seq<Section>)
    ensures |s| == |parts| && forall i :: 0 <= i < |s| ==> s[i] == Section(parts[i], 1)
  {
    seq(|parts|, i requires 0 <= i < |parts| => Section(parts[i], 1))
  }

  predicate IsUnicodeSpace(c: char) {
    c == ' ' || '\t' <= c <= '\r' || c == '\U{85}' || c == '\U{A0}' || c == '\U{1680}' || '\U{2000}' <= c <= '\U{200A}'
    || c == '\U{2028}' || c == '\U{2029}' || c == '\U{202F}' || c == '\U{205F}' || c == '\U{3000}'
  }

  predicate IsBlankText(s: string) {
    forall i :: 0 <= i < |s| ==> IsUnicodeSpace(s[i])
  }

  /** The context sections of one message. */
  function Context(p: Parsers, m: Message, budget: nat): seq<Section> {
    if CarriesResult(m) then
      var parts := if m.role == "tool" then [ResultText(m.toolCallID, false, TruncateMiddle(m.text, budget))]
                   else BlockParts(m.blocks.value, budget);
      if parts != [] then Low(parts) else [Section("[Previous tool result omitted]", 1)]
    else if m.role == "system" then
      if m.text == "" then []
      else
        var rest := p.systemParts(m.text).1;
        if IsBlankText(rest) then [] else [Section("[System]\n" + TruncateMiddle(rest, SYSTEM_BUDGET), 2)]
    else if m.role == "user" then
      if m.text == "" then [] else [Section("[User]\n" + TruncateMiddle(m.text, TEXT_BUDGET), 1)]
    else if m.role == "assistant" then
      var said := if m.text != "" then "[Assistant]\n" + TruncateMiddle(m.text, TEXT_BUDGET) else "[Assistant]";
      [Section(if m.callLines != "" then said + SEPARATOR + m.callLines else said, 1)]
    else []
  }

  /** The context of the first `n` messages. */
  function ContextUpTo(p: Parsers, messages: seq<Message>, n: nat, plan: Plan, budget: nat): seq<Section>
    requires n <= |messages|
  {
    if n == 0 then []
    else
      var i := n - 1;
      ContextUpTo(p, messages, i, plan, budget)
      + if i == plan.queryIdx || i == plan.taskIdx || i >= plan.skipFrom then [] else Context(p, messages[i], budget)
  }

  /** The skill lines of the last system message that has some. */
  function SkillsUpTo(p: Parsers, messages: seq<Message>, n: nat, plan: Plan): seq<string>
    requires n <= |messages|
  {
    if n == 0 then []
    else
      var i := n - 1;
      var m := messages[i];
      if i == plan.queryIdx || i == plan.taskIdx || i >= plan.skipFrom || CarriesResult(m)
         || m.role != "system" || m.text == "" || p.systemParts(m.text).0 == []
      then SkillsUpTo(p, messages, i, plan)
      else p.systemParts(m.text).0
  }

  function TaskBlock(p: Parsers, messages: seq<Message>, plan: Plan): string
    requires plan.taskIdx < |messages|
  {
    if plan.taskIdx < 0 then ""
    else
      var task := p.strip(messages[plan.taskIdx].text);
      if task == "" then "" else TASK_HEADER + TruncateMiddle(task, TEXT_BUDGET)
  }

  function TailText(plan: Plan, wafProbe: bool, contextSeed: bool): string {
    if contextSeed then SEED_TAIL
    else if plan.toolTail then TruncateMiddle(plan.query, TAIL_BUDGET)
    else if plan.queryIdx >= 0 && plan.query != "" then (if wafProbe then plan.query else "[User]\n" + plan.query)
    else plan.query
  }

  function Heavy(text: string): seq<Section> {
    if text == "" then [] else [Section(text, 3)]
  }

  /** The sections of a replay, in order. `skills` is the rendered skill block;
      a context-seeding round ends with the summary instruction instead. */
  function Sections(p: Parsers, messages: seq<Message>, wafProbe: bool, contextSeed: bool, skills: string)
    : seq<Section>
  {
    var plan := PlanOf(messages);
    var budget := ResultBudget(TotalResults(messages, |messages|, plan));
    var task := Heavy(TaskBlock(p, messages, plan));
    Heavy(skills)
    + (if plan.toolTail then [] else task)
    + ContextUpTo(p, messages, |messages|, plan, budget)
    + (if plan.toolTail then task else [])
    + Heavy(TailText(plan, wafProbe, contextSeed))
  }

  lemma TailIsShort(plan: Plan)
    requires plan.toolTail && plan.query != ""
    ensures 0 < |TailText(plan, false, false)| <= TAIL_BUDGET
  {
  }

  lemma PlanOfReplay(messages: seq<Message>)
    requires ToolTailIndex(messages) >= 0
    ensures PlanOf(messages).toolTail && PlanOf(messages).query != ""
  {
    hide Join, PendingFrom;
  }

  /** The task block and the pending results, as a replay renders them. */
  ghost function ReplayEnd(p: Parsers, messages: seq<Message>): string {
    var plan := PlanOf(messages);
    var task := TaskBlock(p, messages, plan);
    var tail := TailText(plan, false, false);
    if task == "" then tail else task + SEPARATOR + tail
  }

  /** A tool-result replay without a conversation ends with the current task and
      the pending results, whatever the history holds and even when the query is
      cut through: together they are at most 6016 runes of the 6858 kept. */
  lemma ReplayKeepsTask(p: Parsers, messages: seq<Message>, skills: string)
    requires ToolTailIndex(messages) >= 0
    ensures |ReplayEnd(p, messages)| <= 6016
    ensures EndsWith(Folded(Sections(p, messages, false, false, skills)), ReplayEnd(p, messages))
  {
    hide PlanOf, Folded, ContextUpTo, EndsWith, ResultBudget;
    PlanOfReplay(messages);
    var plan := PlanOf(messages);
    TailIsShort(plan);
    var task, tail := TaskBlock(p, messages, plan), TailText(plan, false, false);
    assert |TASK_HEADER| == 14;
    var all := Sections(p, messages, false, false, skills);
    var front := Heavy(skills) + [] + ContextUpTo(p, messages, |messages|, plan,
                   ResultBudget(TotalResults(messages, |messages|, plan)));
    if task == "" {
      assert all == front + [Section(tail, 3)];
      OneText(Section(tail, 3));
      HeavyTailSurvives(front, [Section(tail, 3)]);
    } else {
      var b := [Section(task, 3), Section(tail, 3)];
      assert all == front + b;
      TwoTexts(b);
      HeavyTailSurvives(front, b);
    }
  }

  /** What follows the task block of an ordinary replay. */
  function AfterTask(p: Parsers, messages: seq<Message>, contextSeed: bool): seq<Section> {
    ContextOf(p, messages) + Heavy(TailText(PlanOf(messages), false, contextSeed))
  }

  function ContextOf(p: Parsers, messages: seq<Message>): seq<Section> {
    var plan := PlanOf(messages);
    ContextUpTo(p, messages, |messages|, plan, ResultBudget(TotalResults(messages, |messages|, plan)))
  }

  function TaskOf(p: Parsers, messages: seq<Message>): string {
    TaskBlock(p, messages, PlanOf(messages))
  }

  /** An ordinary replay keeps the task block whole exactly when the query fits,
      or fits once whole sections are dropped, or the block ends within the
      first 2970 runes, or it starts within the last 6858 of what is cut: after
      every droppable section is gone, the skill list, the task, the marker and
      the latest message. */
  lemma OrdinaryTaskKeptIff(p: Parsers, messages: seq<Message>, contextSeed: bool, skills: string)
    requires ToolTailIndex(messages) < 0 && TaskOf(p, messages) != ""
    requires IsInt64(|Sections(p, messages, false, contextSeed, skills)|)
    ensures var task := TaskOf(p, messages);
            var all := Sections(p, messages, false, contextSeed, skills);
            var start := if skills == "" then 0 else |skills| + 2;
            && all == Heavy(skills) + [Section(task, 3)] + AfterTask(p, messages, contextSeed)
            && (KeptWhole(Heavy(skills), Section(task, 3), AfterTask(p, messages, contextSeed))
                <==> || |JoinSections(all)| <= LIMIT || FitsByDropping(all)
                     || start + |task| <= KEPT_HEAD || CutLength(all) - start <= KEPT_TAIL)
  {
    OrdinarySections(p, messages, contextSeed, skills);
    hide *;
    BehindSkillsIff(skills, Section(TaskOf(p, messages), 3), AfterTask(p, messages, contextSeed));
  }

  lemma BehindSkillsIff(skills: string, x: Section, b: seq<Section>)
    requires x.weight >= 3 && x.text != "" && IsInt64(|Heavy(skills) + [x] + b|)
    ensures var all := Heavy(skills) + [x] + b;
            var start := if skills == "" then 0 else |skills| + 2;
            KeptWhole(Heavy(skills), x, b)
            <==> || |JoinSections(all)| <= LIMIT || FitsByDropping(all)
                 || start + |x.text| <= KEPT_HEAD || CutLength(all) - start <= KEPT_TAIL
  {
    hide KeptWhole, Body, JoinSections, FitsByDropping, CutLength;
    BodyLength(Heavy(skills) + [x] + b);
    OneText(Section(skills, 3));
    var start := KeptWholeIff(Heavy(skills), x, b);
  }

  lemma OrdinarySections(p: Parsers, messages: seq<Message>, contextSeed: bool, skills: string)
    requires ToolTailIndex(messages) < 0 && TaskOf(p, messages) != ""
    ensures Sections(p, messages, false, contextSeed, skills)
         == Heavy(skills) + [Section(TaskOf(p, messages), 3)] + AfterTask(p, messages, contextSeed)
  {
    assert !PlanOf(messages).toolTail by {
      hide LastWhere, FirstTask;
    }
    hide PlanOf, ContextUpTo, TailText, ResultBudget, TaskBlock, ToolTailIndex;
  }

  /** A history of three messages from which the system text is dropped while
      the short reply after it stays. */
  lemma SystemDroppedBeforeReply(p: Parsers, system: Message, reply: Message, ask: Message, rest: string)
    requires system.role == "system" && system.text != "" && p.systemParts(system.text) == ([], rest)
    requires |rest| == SYSTEM_BUDGET && !IsBlankText(rest)
    requires reply.role == "assistant" && |reply.text| == 38 && reply.callLines == ""
    requires ask.role == "user" && ask.blocks == None && |ask.text| == 7893
    ensures var s := Sections(p, [system, reply, ask], false, false, "");
            && s == [Section("[System]\n" + rest, 2), Section("[Assistant]\n" + reply.text, 1), Section("[User]\n" + ask.text, 3)]
            && KeepFlags(s) == [false, true, true]
  {
    var messages := [system, reply, ask];
    PlanOfThree(messages);
    var plan := PlanOf(messages);
    ThreeMessages(p, messages, plan, ResultBudget(TotalResults(messages, 3, plan)));
    hide PlanOf, ContextUpTo, KeepFlags, ResultBudget, IsBlankText;
    MiddleDroppedBeforeLow("[System]\n" + rest, "[Assistant]\n" + reply.text, "[User]\n" + ask.text);
  }

  lemma PlanOfThree(messages: seq<Message>)
    requires |messages| == 3 && messages[0].role == "system" && messages[1].role == "assistant"
    requires messages[2].role == "user" && messages[2].blocks == None
    ensures PlanOf(messages) == Plan(false, messages[2].text, 2, 3, -1)
  {
    hide Contains;
    assert !CarriesResult(messages[2]) && !IsTokenMetadata(messages[2]);
    assert ToolTailIndex(messages) == -1;
    assert LastWhere(messages, 3, (m: Message) => m.role == "user") == 2;
    assert !IsUserTurn(messages[0]) && !IsUserTurn(messages[1]);
    assert FirstTask(messages, 3, 2, 3) == -1;
    assert FirstTask(messages, 1, 2, 3) == FirstTask(messages, 2, 2, 3) == -1;
  }

  lemma ThreeMessages(p: Parsers, messages: seq<Message>, plan: Plan, budget: nat)
    requires |messages| == 3 && plan.queryIdx == 2 && plan.taskIdx == -1 && plan.skipFrom == 3
    ensures ContextUpTo(p, messages, 3, plan, budget) == Context(p, messages[0], budget) + Context(p, messages[1], budget)
  {
    hide Context;
    assert ContextUpTo(p, messages, 0, plan, budget) == [];
    assert ContextUpTo(p, messages, 1, plan, budget) == Context(p, messages[0], budget);
    assert ContextUpTo(p, messages, 2, plan, budget) == Context(p, messages[0], budget) + Context(p, messages[1], budget);
  }

  lemma OneText(x: Section)
    ensures JoinSections([x]) == x.text
  {
  }

  lemma TwoTexts(s: seq<Section>)
    requires |s| == 2
    ensures JoinSections(s) == s[0].text + SEPARATOR + s[1].text
  {
    assert Texts(s) == [s[0].text] + [s[1].text];
    FirstText(s[0].text, [s[1].text]);
  }

  // ----- The skill list -----

  function FindText(s: string, sub: string, from: nat): (i: int)
    requires from <= |s|
    ensures -1 <= i <= |s| && (i >= 0 ==> i >= from && sub <= s[i..])
    decreases |s| - from
  {
    if sub <= s[from..] then from else if from == |s| then -1 else FindText(s, sub, from + 1)
  }

  /** An entry reduced to its name. */
  function Bare(e: string): string {
    var name := if "- " <= e then e[2..] else e;
    var j := FindText(name, ": ", 0);
    "- " + if j > 0 then name[..j] else name
  }

  function Lines(lines: seq<string>): string {
    if lines == [] then "" else lines[0] + "\n" + Lines(lines[1..])
  }

  function TrimNewlines(s: string): string {
    if s != "" && s[|s| - 1] == '\n' then TrimNewlines(s[..|s| - 1]) else s
  }

  function NamesLength(entries: seq<string>): nat {
    if entries == [] then 0 else |Bare(entries[0])| + 1 + NamesLength(entries[1..])
  }

  /** As many names as fit, in order. */
  function NameLines(entries: seq<string>, used: nat): seq<string> {
    if entries == [] || used + |Bare(entries[0])| + 1 > SKILLS_BUDGET then []
    else [Bare(entries[0])] + NameLines(entries[1..], used + |Bare(entries[0])| + 1)
  }

  /** All names; an entry keeps its description while the budget lasts. */
  function SkillLines(entries: seq<string>, left: int): seq<string> {
    if entries == [] then []
    else
      var (e, b) := (entries[0], Bare(entries[0]));
      if left >= |e| - |b| then [e] + SkillLines(entries[1..], left - (|e| - |b|))
      else [b] + SkillLines(entries[1..], left)
  }

  /** `foldSkillList`. */
  function FoldSkills(entries: seq<string>): string {
    TrimNewlines(Lines(if NamesLength(entries) > SKILLS_BUDGET then NameLines(entries, 0)
                       else SkillLines(entries, SKILLS_BUDGET - NamesLength(entries))))
  }

  lemma {:induction false} NameLinesFit(entries: seq<string>, used: nat)
    requires used <= SKILLS_BUDGET
    ensures var lines := NameLines(entries, used);
            && used + |Lines(lines)| <= SKILLS_BUDGET && |lines| <= |entries|
            && (forall i :: 0 <= i < |lines| ==> lines[i] == Bare(entries[i]))
            && (|lines| < |entries| ==> used + |Lines(lines)| + |Bare(entries[|lines|])| + 1 > SKILLS_BUDGET)
  {
    hide Bare;
    if entries != [] && used + |Bare(entries[0])| + 1 <= SKILLS_BUDGET {
      NameLinesFit(entries[1..], used + |Bare(entries[0])| + 1);
    }
  }

  lemma {:induction false} SkillLinesFit(entries: seq<string>, left: int)
    requires left >= 0
    ensures var lines := SkillLines(entries, left);
            && |lines| == |entries| && |Lines(lines)| <= NamesLength(entries) + left
            && (forall i :: 0 <= i < |lines| ==> lines[i] == entries[i] || lines[i] == Bare(entries[i]))
  {
    hide Bare;
    if entries != [] {
      var d := |entries[0]| - |Bare(entries[0])|;
      SkillLinesFit(entries[1..], if left >= d then left - d else left);
    }
  }

  lemma {:induction false} TrimShortens(s: string)
    ensures TrimNewlines(s) <= s
  {
    if s != "" && s[|s| - 1] == '\n' {
      TrimShortens(s[..|s| - 1]);
    }
  }

  /** From the front, an entry keeps its description exactly when that leaves
      room for the names that follow. */
  ghost predicate DescribedWhileItFits(entries: seq<string>, lines: seq<string>, budget: int) {
    && |lines| == |entries|
    && forall i :: 0 <= i < |lines| ==>
         lines[i] == if RoomFor(entries, lines, i, budget) then entries[i] else Bare(entries[i])
  }

  ghost predicate RoomFor(entries: seq<string>, lines: seq<string>, i: int, budget: int)
    requires 0 <= i < |lines| == |entries|
  {
    |Lines(lines[..i])| + |entries[i]| + 1 + NamesLength(entries[i + 1..]) <= budget
  }

  lemma {:induction false} DescribedInOrder(entries: seq<string>, left: int)
    ensures DescribedWhileItFits(entries, SkillLines(entries, left), NamesLength(entries) + left)
  {
    hide Bare;
    if entries != [] {
      var lines := SkillLines(entries, left);
      var d := |entries[0]| - |Bare(entries[0])|;
      var left' := if left >= d then left - d else left;
      DescribedInOrder(entries[1..], left');
      assert lines[1..] == SkillLines(entries[1..], left');
      forall i | 0 <= i < |lines|
        ensures lines[i] == if RoomFor(entries, lines, i, NamesLength(entries) + left) then entries[i] else Bare(entries[i])
      {
        if i > 0 {
          assert lines[..i][1..] == lines[1..][..i - 1];
          assert entries[1..][i..] == entries[i + 1..];
          assert lines[i] == lines[1..][i - 1] && entries[i] == entries[1..][i - 1];
        } else {
          assert lines[..0] == [];
        }
      }
    }
  }

  /** The name of an entry is what stands before the first ": ". */
  lemma BareIs(name: string, about: string)
    requires name != "" && forall i :: 0 <= i < |name| ==> !(": " <= (name + ": " + about)[i..])
    ensures Bare("- " + name + ": " + about) == "- " + name
  {
    var whole := name + ": " + about;
    assert ("- " + name + ": " + about)[2..] == whole;
    assert whole[|name|..] == ": " + about;
    FoundAtFirst(whole, ": ", 0, |name|);
  }

  /** An entry without a name stays as it is. */
  lemma NamelessStays(about: string)
    ensures Bare("- : " + about) == "- : " + about
  {
    assert ("- : " + about)[2..] == ": " + about;
    assert (": " + about)[0..] == ": " + about;
    hide FindText;
    FoundAtFirst(": " + about, ": ", 0, 0);
  }

  lemma {:induction false} FoundAtFirst(s: string, sub: string, from: nat, k: nat)
    requires from <= k <= |s| && sub <= s[k..] && forall i :: from <= i < k ==> !(sub <= s[i..])
    ensures FindText(s, sub, from) == k
    decreases k - from
  {
    if from < k {
      FoundAtFirst(s, sub, from + 1, k);
    }
  }

  /** The list fits its budget; either every name is on it, in order, with their
      descriptions as long as they fit, or it is the longest run of names that
      fits. */
  lemma SkillListFits(entries: seq<string>)
    ensures |FoldSkills(entries)| <= SKILLS_BUDGET
    ensures NamesLength(entries) <= SKILLS_BUDGET ==>
              exists lines: seq<string> :: FoldSkills(entries) == TrimNewlines(Lines(lines))
                && DescribedWhileItFits(entries, lines, SKILLS_BUDGET)
    ensures NamesLength(entries) > SKILLS_BUDGET ==>
              exists n :: 0 <= n < |entries| && FoldSkills(entries) == TrimNewlines(Lines(NamesOf(entries[..n])))
                && |Lines(NamesOf(entries[..n]))| <= SKILLS_BUDGET < |Lines(NamesOf(entries[..n]))| + |Bare(entries[n])| + 1
  {
    hide Bare, Lines, TrimNewlines, SkillLines, NameLines, NamesLength, DescribedWhileItFits;
    if NamesLength(entries) <= SKILLS_BUDGET {
      var left := SKILLS_BUDGET - NamesLength(entries);
      SkillLinesFit(entries, left);
      DescribedInOrder(entries, left);
      TrimShortens(Lines(SkillLines(entries, left)));
    } else {
      NameLinesFit(entries, 0);
      var lines := NameLines(entries, 0);
      TrimShortens(Lines(lines));
      var n := |lines|;
      assert NamesOf(entries[..n]) == lines;
      NamesMeasure(entries);
      assert entries[..|entries|] == entries;
      if n == |entries| {
        assert false;
      }
    }
  }

  function NamesOf(entries: seq<string>): (r: seq<string>)
    ensures |r| == |entries| && forall i :: 0 <= i < |r| ==> r[i] == Bare(entries[i])
  {
    seq(|entries|, i requires 0 <= i < |entries| => Bare(entries[i]))
  }

  lemma {:induction false} NamesMeasure(entries: seq<string>)
    ensures |Lines(NamesOf(entries))| == NamesLength(entries)
  {
    hide Bare;
    if entries != [] {
      NamesMeasure(entries[1..]);
      assert NamesOf(entries)[1..] == NamesOf(entries[1..]);
    }
  }

  method FoldSkillList(entries: seq<string>) returns (r: string)
    ensures r == FoldSkills(entries)
  {
    hide Bare, TrimNewlines;
    var bare := NamesOf(entries);
    var fixed := 0;
    for i := 0 to |bare|
      invariant fixed + NamesLength(entries[i..]) == NamesLength(entries)
    {
      assert entries[i..][1..] == entries[i + 1..];
      fixed := fixed + |bare[i]| + 1;
    }
    var b := "";
    if fixed > SKILLS_BUDGET {
      ghost var goal := Lines(NameLines(entries, 0));
      var i := 0;
      while i < |bare|
        invariant 0 <= i <= |bare|
        invariant goal == b + Lines(NameLines(entries[i..], |b|))
      {
        assert entries[i..][1..] == entries[i + 1..];
        if |b| + |bare[i]| + 1 > SKILLS_BUDGET {
          break;
        }
        LinesCons(b, bare[i], NameLines(entries[i + 1..], |b| + |bare[i]| + 1));
        b := b + bare[i] + "\n";
        i := i + 1;
      }
      assert b + "" == b;
      return TrimNewlines(b);
    }
    var left := SKILLS_BUDGET - fixed;
    ghost var goal := Lines(SkillLines(entries, left));
    for i := 0 to |entries|
      invariant goal == b + Lines(SkillLines(entries[i..], left))
    {
      assert entries[i..][1..] == entries[i + 1..];
      var extra := |entries[i]| - |bare[i]|;
      var line := bare[i];
      if left >= extra {
        line := entries[i];
        left := left - extra;
      }
      LinesCons(b, line, SkillLines(entries[i + 1..], left));
      b := b + line + "\n";
    }
    assert b + "" == b;
    return TrimNewlines(b);
  }

  lemma LinesCons(b: string, line: string, rest: seq<string>)
    ensures b + Lines([line] + rest) == (b + line + "\n") + Lines(rest)
  {
    assert ([line] + rest)[1..] == rest;
  }

  // ----- The whole split -----

  method FindToolTail(messages: seq<Message>) returns (r: int)
    ensures r == ToolTailIndex(messages)
  {
    hide IsTokenMetadata, CarriesResult;
    var i := |messages| - 1;
    assert messages[..i + 1] == messages;
    while i >= 0
      invariant -1 <= i < |messages|
      invariant ToolTailIndex(messages) == ToolTailIndex(messages[..i + 1])
    {
      assert messages[..i + 1][..i] == messages[..i];
      if IsTokenMetadata(messages[i]) {
        i := i - 1;
        continue;
      }
      return if CarriesResult(messages[i]) then i else -1;
    }
    return -1;
  }

  method CollectPending(messages: seq<Message>, toolIdx: int) returns (parts: seq<string>, skipFrom: nat)
    requires 0 <= toolIdx < |messages|
    ensures (parts, skipFrom) == PendingFrom(messages, toolIdx, [], |messages|)
  {
    hide IsAnthropicToolResult, ResultText;
    parts, skipFrom := [], |messages|;
    var i := toolIdx;
    while i >= 0
      invariant -1 <= i <= toolIdx
      invariant PendingFrom(messages, i, parts, skipFrom) == PendingFrom(messages, toolIdx, [], |messages|)
    {
      var m := messages[i];
      if m.role == "tool" {
        skipFrom := i;
        parts := [ResultText(m.toolCallID, false, m.text)] + parts;
      } else if IsAnthropicToolResult(m) {
        BlocksOf(m);
        skipFrom := i;
        parts := CollectBlocks(m.blocks.value, parts);
      } else {
        break;
      }
      i := i - 1;
    }
  }

  lemma BlocksOf(m: Message)
    requires IsAnthropicToolResult(m)
    ensures m.blocks.Some?
  {
  }

  method CollectBlocks(blocks: seq<Block>, before: seq<string>) returns (parts: seq<string>)
    ensures parts == AddBlocks(blocks, before)
  {
    hide ResultText;
    parts := before;
    for i := 0 to |blocks|
      invariant AddBlocks(blocks[i..], parts) == AddBlocks(blocks, before)
    {
      assert blocks[i..][1..] == blocks[i + 1..];
      match blocks[i]
      case ToolResult(id, failed, text) =>
        parts := [ResultText(id, failed, text)] + parts;
      case TextBlock(text) =>
        if text != "" {
          parts := parts + ["[User Message]\n" + text];
        }
      case OtherBlock =>
    }
  }

  method MakePlan(messages: seq<Message>) returns (plan: Plan)
    ensures plan == PlanOf(messages)
  {
    hide Join, PendingFrom, IsUserTurn;
    var toolIdx := FindToolTail(messages);
    if toolIdx >= 0 {
      var parts, skipFrom := CollectPending(messages, toolIdx);
      var taskIdx := LastWhere(messages, toolIdx + 1, (m: Message) => IsUserTurn(m));
      if taskIdx < 0 {
        taskIdx := FirstTask(messages, 0, -1, skipFrom);
      }
      plan := Plan(true, Join(parts) + INSTRUCTION, -1, skipFrom, taskIdx);
    } else {
      var queryIdx := LastWhere(messages, |messages|, (m: Message) => m.role == "user");
      var query := if queryIdx >= 0 then messages[queryIdx].text else "";
      plan := Plan(false, query, queryIdx, |messages|, FirstTask(messages, 0, queryIdx, |messages|));
    }
  }

  /** The loop over the history that fills the context sections. */
  method BuildContext(p: Parsers, messages: seq<Message>, plan: Plan, budget: nat)
    returns (context: seq<Section>, skills: seq<string>)
    ensures context == ContextUpTo(p, messages, |messages|, plan, budget)
    ensures skills == SkillsUpTo(p, messages, |messages|, plan)
  {
    hide Context, CarriesResult;
    context, skills := [], [];
    for i := 0 to |messages|
      invariant context == ContextUpTo(p, messages, i, plan, budget)
      invariant skills == SkillsUpTo(p, messages, i, plan)
    {
      var m := messages[i];
      if i == plan.queryIdx || i == plan.taskIdx || i >= plan.skipFrom {
        assert context + [] == context;
        continue;
      }
      if !CarriesResult(m) && m.role == "system" && m.text != "" {
        var lines := p.systemParts(m.text).0;
        if lines != [] {
          skills := lines;
        }
      }
      context := context + Context(p, m, budget);
    }
  }

  method CountFolded(messages: seq<Message>, plan: Plan) returns (n: nat)
    ensures n == TotalResults(messages, |messages|, plan)
  {
    hide FoldedResults;
    n := 0;
    for i := 0 to |messages|
      invariant n == TotalResults(messages, i, plan)
    {
      if i == plan.queryIdx || i >= plan.skipFrom {
        continue;
      }
      n := n + FoldedResults(messages[i]);
    }
  }

  function SkillsBlock(lines: seq<string>): string {
    if lines == [] then "" else SkillsHeader() + FoldSkills(lines)
  }

  // ----- What the query holds -----

  /** A result as the query shows it. */
  function Label(id: string, failed: bool, text: string): string {
    if failed then "[Tool Error id=" + id + "]\n" + text else "[Tool Result id=" + id + "]\n" + text
  }

  lemma LabelIs(id: string, failed: bool, text: string)
    ensures ResultText(id, failed, text) == Label(id, failed, text)
  {
  }

  /** The results of one message: its own, or those of its blocks, last first. */
  function BlockResults(blocks: seq<Block>): seq<string> {
    if blocks == [] then []
    else
      BlockResults(blocks[1..])
      + if blocks[0].ToolResult? then [Label(blocks[0].id, blocks[0].failed, blocks[0].text)] else []
  }

  function BlockTexts(blocks: seq<Block>): seq<string> {
    if blocks == [] then []
    else
      (if blocks[0].TextBlock? && blocks[0].text != "" then ["[User Message]\n" + blocks[0].text] else [])
      + BlockTexts(blocks[1..])
  }

  function MessageResults(m: Message): seq<string> {
    if m.role == "tool" then [Label(m.toolCallID, false, m.text)]
    else if m.blocks.Some? then BlockResults(m.blocks.value)
    else []
  }

  function MessageTexts(m: Message): seq<string> {
    if m.role == "tool" || m.blocks.None? then [] else BlockTexts(m.blocks.value)
  }

  /** The results of a run of messages, in message order. */
  function RunResults(run: seq<Message>): seq<string> {
    if run == [] then [] else RunResults(run[..|run| - 1]) + MessageResults(run[|run| - 1])
  }

  /** The texts that came with them, from the last message back. */
  function RunTexts(run: seq<Message>): seq<string> {
    if run == [] then [] else MessageTexts(run[|run| - 1]) + RunTexts(run[..|run| - 1])
  }

  function HeadResult(b: Block): seq<string> {
    if b.ToolResult? then [Label(b.id, b.failed, b.text)] else []
  }

  function HeadText(b: Block): seq<string> {
    if b.TextBlock? && b.text != "" then ["[User Message]\n" + b.text] else []
  }

  lemma AddHead(blocks: seq<Block>, parts: seq<string>)
    requires blocks != []
    ensures AddBlocks(blocks, parts) == AddBlocks(blocks[1..], HeadResult(blocks[0]) + parts + HeadText(blocks[0]))
  {
    var b := blocks[0];
    if b.ToolResult? {
      LabelIs(b.id, b.failed, b.text);
    }
    hide ResultText, Label;
    match b
    case ToolResult(_, _, _) => assert HeadResult(b) + parts + [] == HeadResult(b) + parts;
    case TextBlock(_) => assert [] + parts + HeadText(b) == parts + HeadText(b) && parts + [] == parts;
    case OtherBlock => assert [] + parts + [] == parts;
  }

  lemma {:induction false} AddBlocksIs(blocks: seq<Block>, parts: seq<string>)
    ensures AddBlocks(blocks, parts) == BlockResults(blocks) + parts + BlockTexts(blocks)
    decreases |blocks|
  {
    if blocks == [] {
      assert [] + parts + [] == parts;
    } else {
      AddHead(blocks, parts);
      var r, t := HeadResult(blocks[0]), HeadText(blocks[0]);
      var more, rest := BlockResults(blocks[1..]), BlockTexts(blocks[1..]);
      assert BlockResults(blocks) == more + r && BlockTexts(blocks) == t + rest;
      hide AddBlocks, BlockResults, BlockTexts, HeadResult, HeadText;
      AddBlocksIs(blocks[1..], r + parts + t);
      Regroup(more, r, parts, t, rest);
    }
  }

  lemma Regroup(a: seq<string>, b: seq<string>, c: seq<string>, d: seq<string>, e: seq<string>)
    ensures a + (b + c + d) + e == (a + b) + c + (d + e)
  {
  }

  /** The history before the run ends in no result. */
  predicate EndsPlainly(history: seq<Message>) {
    history == [] || !CarriesResult(history[|history| - 1])
  }

  predicate AllCarry(run: seq<Message>) {
    forall i :: 0 <= i < |run| ==> CarriesResult(run[i])
  }

  lemma CarrierParts(m: Message, parts: seq<string>)
    requires CarriesResult(m)
    ensures (if m.role == "tool" then [ResultText(m.toolCallID, false, m.text)] + parts else AddBlocks(m.blocks.value, parts))
         == MessageResults(m) + parts + MessageTexts(m)
  {
    if m.role == "tool" {
      LabelIs(m.toolCallID, false, m.text);
      hide ResultText, Label;
      assert [Label(m.toolCallID, false, m.text)] + parts + [] == [Label(m.toolCallID, false, m.text)] + parts;
    } else {
      AddBlocksIs(m.blocks.value, parts);
    }
  }

  lemma PendingStep(messages: seq<Message>, i: int, parts: seq<string>, skipFrom: nat)
    requires 0 <= i < |messages| && CarriesResult(messages[i])
    ensures PendingFrom(messages, i, parts, skipFrom)
         == PendingFrom(messages, i - 1, MessageResults(messages[i]) + parts + MessageTexts(messages[i]), i)
  {
    CarrierParts(messages[i], parts);
    hide AddBlocks, MessageResults, MessageTexts, ResultText;
  }

  lemma NothingPending(messages: seq<Message>, i: int, parts: seq<string>, skipFrom: nat)
    requires -1 <= i < |messages| && EndsPlainly(messages[..i + 1])
    ensures PendingFrom(messages, i, parts, skipFrom) == (parts, skipFrom)
  {
    hide AddBlocks, ResultText;
    assert i >= 0 ==> messages[i] == messages[..i + 1][i];
  }

  lemma RunEnds(run: seq<Message>)
    requires run != []
    ensures var n := |run| - 1;
            && RunResults(run) == RunResults(run[..n]) + MessageResults(run[n])
            && RunTexts(run) == MessageTexts(run[n]) + RunTexts(run[..n])
  {
    hide MessageResults, MessageTexts;
  }

  lemma LastOfRun(messages: seq<Message>, history: seq<Message>, run: seq<Message>, i: int)
    requires -1 <= i < |messages| && messages[..i + 1] == history + run && run != []
    ensures i >= 0 && messages[i] == run[|run| - 1]
    ensures messages[..i - 1 + 1] == messages[..i] == history + run[..|run| - 1]
  {
    var whole := history + run;
    assert messages[i] == messages[..i + 1][i] == whole[i];
    assert messages[..i] == messages[..i + 1][..i] == whole[..i];
  }

  lemma {:induction false} PendingIs(messages: seq<Message>, history: seq<Message>, run: seq<Message>, i: int, parts: seq<string>, skipFrom: nat)
    requires -1 <= i < |messages| && messages[..i + 1] == history + run && EndsPlainly(history) && AllCarry(run)
    ensures PendingFrom(messages, i, parts, skipFrom)
         == (RunResults(run) + parts + RunTexts(run), if run == [] then skipFrom else |history|)
    decreases |run|
  {
    if run == [] {
      assert history + run == history;
      NothingPending(messages, i, parts, skipFrom);
      hide PendingFrom, EndsPlainly;
      assert [] + parts + [] == parts;
    } else {
      hide PendingFrom, RunResults, RunTexts, MessageResults, MessageTexts, CarriesResult, EndsPlainly;
      var n := |run| - 1;
      var m := run[n];
      LastOfRun(messages, history, run, i);
      RunEnds(run);
      assert AllCarry(run[..n]) && CarriesResult(m);
      hide AllCarry;
      PendingStep(messages, i, parts, skipFrom);
      PendingIs(messages, history, run[..n], i - 1, MessageResults(m) + parts + MessageTexts(m), i);
      Regroup(RunResults(run[..n]), MessageResults(m), parts, MessageTexts(m), RunTexts(run[..n]));
    }
  }

  /** A request that hands back results: a run of messages that carry some, then
      at most token counts. */
  predicate HandsBack(messages: seq<Message>, history: seq<Message>, run: seq<Message>, counts: seq<Message>) {
    && messages == history + run + counts && run != []
    && EndsPlainly(history) && AllCarry(run)
    && (forall i :: 0 <= i < |counts| ==> IsTokenMetadata(counts[i]))
  }

  lemma {:induction false} TailOfRun(messages: seq<Message>, history: seq<Message>, run: seq<Message>, counts: seq<Message>)
    requires HandsBack(messages, history, run, counts)
    ensures ToolTailIndex(messages) == |history| + |run| - 1
    decreases |counts|
  {
    hide Contains;
    var n := |messages| - 1;
    if counts == [] {
      assert messages[n] == run[|run| - 1];
      CarriersAreNoCounts(messages[n]);
    } else {
      assert messages[n] == counts[|counts| - 1];
      assert messages[..n] == history + run + counts[..|counts| - 1];
      TailOfRun(messages[..n], history, run, counts[..|counts| - 1]);
    }
  }

  lemma CarriersAreNoCounts(m: Message)
    requires CarriesResult(m)
    ensures !IsTokenMetadata(m)
  {
    hide Contains;
  }

  /** The query then holds exactly the results, in message order, then the texts
      that came with them, then the instruction. */
  lemma QueryHoldsResults(messages: seq<Message>, history: seq<Message>, run: seq<Message>, counts: seq<Message>)
    requires HandsBack(messages, history, run, counts)
    ensures PlanOf(messages).toolTail && PlanOf(messages).skipFrom == |history|
    ensures PlanOf(messages).query == Join(RunResults(run) + RunTexts(run)) + INSTRUCTION
  {
    hide ToolTailIndex, PlanOf, PendingFrom, RunResults, RunTexts, Join, CarriesResult, IsTokenMetadata;
    TailOfRun(messages, history, run, counts);
    PlanOfTail(messages);
    var i := |history| + |run| - 1;
    assert messages[..i + 1] == history + run;
    PendingIs(messages, history, run, i, [], |messages|);
    assert RunResults(run) + [] + RunTexts(run) == RunResults(run) + RunTexts(run);
  }

  lemma PlanOfTail(messages: seq<Message>)
    requires ToolTailIndex(messages) >= 0
    ensures var plan, pending := PlanOf(messages), PendingFrom(messages, ToolTailIndex(messages), [], |messages|);
            plan.toolTail && plan.query == Join(pending.0) + INSTRUCTION && plan.skipFrom == pending.1
  {
    hide ToolTailIndex, PendingFrom, Join, LastWhere, FirstTask;
  }

  /** A run of tool messages: one label each, in order. */
  lemma {:induction false} ToolRunResults(run: seq<Message>)
    requires forall i :: 0 <= i < |run| ==> run[i].role == "tool"
    ensures RunTexts(run) == [] && |RunResults(run)| == |run|
    ensures forall i :: 0 <= i < |run| ==> RunResults(run)[i] == "[Tool Result id=" + run[i].toolCallID + "]\n" + run[i].text
    decreases |run|
  {
    if run != [] {
      ToolRunResults(run[..|run| - 1]);
    }
  }

  /** The last message but for token counts carries no result. */
  predicate NoTail(messages: seq<Message>, body: seq<Message>, counts: seq<Message>) {
    && messages == body + counts && (forall i :: 0 <= i < |counts| ==> IsTokenMetadata(counts[i]))
    && (body != [] ==> !IsTokenMetadata(body[|body| - 1]) && !CarriesResult(body[|body| - 1]))
  }

  lemma {:induction false} NoTailIndex(messages: seq<Message>, body: seq<Message>, counts: seq<Message>)
    requires NoTail(messages, body, counts)
    ensures ToolTailIndex(messages) == -1
    decreases |counts|
  {
    hide Contains;
    var n := |messages| - 1;
    if counts == [] {
      assert messages == body;
    } else {
      assert messages[n] == counts[|counts| - 1];
      assert messages[..n] == body + counts[..|counts| - 1];
      NoTailIndex(messages[..n], body, counts[..|counts| - 1]);
    }
  }

  /** The last message of the role of a user, if there is one. */
  predicate LastUser(messages: seq<Message>, k: int) {
    0 <= k < |messages| && messages[k].role == "user" && forall j :: k < j < |messages| ==> messages[j].role != "user"
  }

  /** Otherwise the query is the text of the last user message, and the task the
      first user turn but that one. */
  lemma QueryIsLastUser(messages: seq<Message>, body: seq<Message>, counts: seq<Message>)
    requires NoTail(messages, body, counts)
    ensures !PlanOf(messages).toolTail && PlanOf(messages).skipFrom == |messages|
    ensures forall k :: LastUser(messages, k) ==> PlanOf(messages).query == messages[k].text && PlanOf(messages).queryIdx == k
    ensures (forall k :: 0 <= k < |messages| ==> messages[k].role != "user") ==> PlanOf(messages).query == "" && PlanOf(messages).queryIdx == -1
    ensures var t := PlanOf(messages).taskIdx;
            && (t >= 0 ==> IsUserTurn(messages[t]) && !LastUser(messages, t))
            && forall j :: 0 <= j < |messages| && IsUserTurn(messages[j]) && !LastUser(messages, j) ==> 0 <= t <= j
  {
    NoTailIndex(messages, body, counts);
    var q := LastWhere(messages, |messages|, (m: Message) => m.role == "user");
    FirstTaskIs(messages, 0, q, |messages|);
    hide ToolTailIndex, PendingFrom, Contains, IsUserTurn, FirstTask, NoTail;
    assert forall k :: LastUser(messages, k) <==> q >= 0 && k == q;
  }

  lemma {:induction false} FirstTaskIs(messages: seq<Message>, i: nat, queryIdx: int, skipFrom: nat)
    requires i <= |messages|
    ensures var t := FirstTask(messages, i, queryIdx, skipFrom);
            && (t >= 0 ==> i <= t && t != queryIdx && t < skipFrom && IsUserTurn(messages[t]))
            && forall j :: i <= j < |messages| && j != queryIdx && j < skipFrom && IsUserTurn(messages[j]) ==> 0 <= t <= j
    decreases |messages| - i
  {
    hide IsUserTurn;
    if i < |messages| {
      FirstTaskIs(messages, i + 1, queryIdx, skipFrom);
    }
  }

  /** With results handed back the task is the last user turn before them. */
  lemma TaskIsLatestTurn(messages: seq<Message>, history: seq<Message>, run: seq<Message>, counts: seq<Message>, k: nat)
    requires HandsBack(messages, history, run, counts)
    requires k < |history| && IsUserTurn(history[k]) && forall j :: k < j < |history| ==> !IsUserTurn(history[j])
    ensures PlanOf(messages).taskIdx == k
  {
    TailOfRun(messages, history, run, counts);
    var i := |history| + |run| - 1;
    assert forall j :: 0 <= j < |history| ==> messages[j] == history[j];
    forall j | |history| <= j <= i ensures !IsUserTurn(messages[j]) {
      assert messages[j] == run[j - |history|];
    }
    hide ToolTailIndex, PendingFrom, IsUserTurn, Contains, FirstTask, HandsBack, Join;
    assert LastWhere(messages, i + 1, (m: Message) => IsUserTurn(m)) == k;
  }

  // ----- What the context holds -----

  /** What the `k`-th part of a message says in the context: results and texts of
      a message with result blocks block by block, any other message at once,
      each under its role. */
  function Says(p: Parsers, m: Message, k: nat, budget: nat): Option<Section> {
    if m.role == "tool" then
      (if k == 0 then Some(Section("[Tool Result id=" + m.toolCallID + "]\n" + TruncateMiddle(m.text, budget), 1)) else None)
    else if IsAnthropicToolResult(m) then
      (if k >= |m.blocks.value| then None
       else
         match m.blocks.value[k]
         case ToolResult(id, failed, text) => Some(Section(Label(id, failed, TruncateMiddle(text, budget)), 1))
         case TextBlock(text) => if text == "" then None else Some(Section("[User]\n" + text, 1))
         case OtherBlock => None)
    else if k > 0 then None
    else if m.role == "system" then
      (if m.text == "" || IsBlankText(p.systemParts(m.text).1) then None
       else Some(Section("[System]\n" + TruncateMiddle(p.systemParts(m.text).1, 2000), 2)))
    else if m.role == "user" then
      (if m.text == "" then None else Some(Section("[User]\n" + TruncateMiddle(m.text, 2000), 1)))
    else if m.role == "assistant" then
      var said := "[Assistant]" + if m.text == "" then "" else "\n" + TruncateMiddle(m.text, 2000);
      Some(Section(said + if m.callLines == "" then "" else "\n\n" + m.callLines, 1))
    else None
  }

  /** The parts from `k` on, in order. */
  function SaidFrom(p: Parsers, m: Message, k: nat, n: nat, budget: nat): seq<Section>
    decreases n - k
  {
    if k >= n then []
    else (match Says(p, m, k, budget) case None => [] case Some(x) => [x]) + SaidFrom(p, m, k + 1, n, budget)
  }

  function Parts(m: Message): nat {
    if m.role != "tool" && IsAnthropicToolResult(m) then |m.blocks.value| else 1
  }

  lemma {:induction false} BlocksSay(p: Parsers, m: Message, k: nat, budget: nat)
    requires m.role != "tool" && IsAnthropicToolResult(m) && k <= |m.blocks.value|
    ensures SaidFrom(p, m, k, |m.blocks.value|, budget) == Low(BlockParts(m.blocks.value[k..], budget))
    decreases |m.blocks.value| - k
  {
    var blocks := m.blocks.value;
    if k < |blocks| {
      assert blocks[k..] == [blocks[k]] + blocks[k + 1..];
      BlocksSay(p, m, k + 1, budget);
      BlockSays(p, m, k, budget);
      PartsCons(blocks[k], blocks[k + 1..], budget);
      hide IsAnthropicToolResult, BlockParts, Says, Low;
      LowAppend(BlockParts([blocks[k]], budget), BlockParts(blocks[k + 1..], budget));
    }
  }

  lemma BlockSays(p: Parsers, m: Message, k: nat, budget: nat)
    requires m.role != "tool" && IsAnthropicToolResult(m) && k < |m.blocks.value|
    ensures (match Says(p, m, k, budget) case None => [] case Some(x) => [x]) == Low(BlockParts([m.blocks.value[k]], budget))
  {
    var b := m.blocks.value[k];
    assert [b][1..] == [] && BlockParts([], budget) == [];
    if b.ToolResult? {
      LabelIs(b.id, b.failed, TruncateMiddle(b.text, budget));
    }
    hide IsAnthropicToolResult, TruncateMiddle, ResultText, Label;
  }

  lemma PartsCons(b: Block, rest: seq<Block>, budget: nat)
    ensures BlockParts([b] + rest, budget) == BlockParts([b], budget) + BlockParts(rest, budget)
  {
    hide TruncateMiddle, ResultText;
    assert ([b] + rest)[1..] == rest && [b][1..] == [] && BlockParts([], budget) == [];
  }

  lemma LowAppend(a: seq<string>, b: seq<string>)
    ensures Low(a + b) == Low(a) + Low(b)
  {
  }

  lemma {:induction false} SomePart(blocks: seq<Block>, budget: nat, i: nat)
    requires i < |blocks| && blocks[i].ToolResult?
    ensures BlockParts(blocks, budget) != []
  {
    if i > 0 {
      SomePart(blocks[1..], budget, i - 1);
    }
  }

  lemma AssistantSays(text: string, calls: string)
    ensures "[Assistant]\n" + text == "[Assistant]" + ("\n" + text) && "[Assistant]" + "" == "[Assistant]"
    ensures forall said: string :: said + SEPARATOR + calls == said + ("\n\n" + calls) && said + "" == said
  {
  }

  lemma OneSays(p: Parsers, m: Message, budget: nat)
    ensures SaidFrom(p, m, 0, 1, budget) == match Says(p, m, 0, budget) case None => [] case Some(x) => [x]
  {
    assert SaidFrom(p, m, 1, 1, budget) == [];
    hide Says;
  }

  /** One message's context is what its parts say, in order. */
  lemma ContextSays(p: Parsers, m: Message, budget: nat)
    ensures Context(p, m, budget) == SaidFrom(p, m, 0, Parts(m), budget)
  {
    hide TruncateMiddle, IsBlankText;
    if m.role == "tool" {
      OneSays(p, m, budget);
      LabelIs(m.toolCallID, false, TruncateMiddle(m.text, budget));
      hide SaidFrom;
    } else if IsAnthropicToolResult(m) {
      BlocksSay(p, m, 0, budget);
      assert m.blocks.value[0..] == m.blocks.value;
      var i :| 0 <= i < |m.blocks.value| && m.blocks.value[i].ToolResult?;
      SomePart(m.blocks.value, budget, i);
      hide BlockParts, SaidFrom;
    } else {
      OneSays(p, m, budget);
      AssistantSays(TruncateMiddle(m.text, 2000), m.callLines);
      hide IsAnthropicToolResult, SaidFrom;
    }
  }

  /** Message by message from the front, leaving out the latest user message,
      the task and the pending results. */
  function ContextFrom(p: Parsers, messages: seq<Message>, i: nat, plan: Plan, budget: nat): seq<Section>
    decreases |messages| - i
  {
    if i >= |messages| then []
    else
      (if i == plan.queryIdx || i == plan.taskIdx || i >= plan.skipFrom then []
       else SaidFrom(p, messages[i], 0, Parts(messages[i]), budget))
      + ContextFrom(p, messages, i + 1, plan, budget)
  }

  lemma {:induction false} ContextJoins(p: Parsers, messages: seq<Message>, i: nat, plan: Plan, budget: nat)
    requires i <= |messages|
    ensures ContextUpTo(p, messages, |messages|, plan, budget)
         == ContextUpTo(p, messages, i, plan, budget) + ContextFrom(p, messages, i, plan, budget)
    decreases |messages| - i
  {
    hide Context, SaidFrom, ContextUpTo;
    if i < |messages| {
      ContextJoins(p, messages, i + 1, plan, budget);
      ContextSays(p, messages[i], budget);
      ContextNext(p, messages, i, plan, budget);
      var part := if i == plan.queryIdx || i == plan.taskIdx || i >= plan.skipFrom then [] else Context(p, messages[i], budget);
      assert ContextFrom(p, messages, i, plan, budget) == part + ContextFrom(p, messages, i + 1, plan, budget);
      hide *;
      AssocSections(ContextUpTo(p, messages, i, plan, budget), part, ContextFrom(p, messages, i + 1, plan, budget));
    } else {
      assert ContextFrom(p, messages, i, plan, budget) == [];
    }
  }

  lemma ContextNext(p: Parsers, messages: seq<Message>, i: nat, plan: Plan, budget: nat)
    requires i < |messages|
    ensures ContextUpTo(p, messages, i + 1, plan, budget)
         == ContextUpTo(p, messages, i, plan, budget)
            + (if i == plan.queryIdx || i == plan.taskIdx || i >= plan.skipFrom then [] else Context(p, messages[i], budget))
  {
    hide Context;
  }

  lemma AssocSections(a: seq<Section>, b: seq<Section>, c: seq<Section>)
    ensures (a + b) + c == a + (b + c)
  {
  }

  /** The context is what the messages say, in order, each under its role. */
  lemma ContextIsWhatTheySay(p: Parsers, messages: seq<Message>, plan: Plan, budget: nat)
    ensures ContextUpTo(p, messages, |messages|, plan, budget) == ContextFrom(p, messages, 0, plan, budget)
  {
    ContextJoins(p, messages, 0, plan, budget);
    assert ContextUpTo(p, messages, 0, plan, budget) == [];
  }

  /** A shortened text keeps its front and its end around the mark, as evenly as
      the limit allows. */
  lemma TruncationKeepsEnds(s: string, max: int)
    requires |s| > max > 13
    ensures var head := (max - 13) / 2;
            var tail := max - 13 - head;
            && TruncateMiddle(s, max) == s[..head] + "…[truncated]…" + s[|s| - tail..]
            && 0 <= tail - head <= 1
  {
  }

  /** The task of a replay is shown whenever something is left of it without the
      system reminders, under its header and at the highest weight. */
  lemma TaskIsShown(p: Parsers, messages: seq<Message>, wafProbe: bool, contextSeed: bool, skills: string)
    requires PlanOf(messages).taskIdx >= 0 && p.strip(messages[PlanOf(messages).taskIdx].text) != ""
    ensures Section("[User (task)]\n" + TruncateMiddle(p.strip(messages[PlanOf(messages).taskIdx].text), 2000), 3)
            in Sections(p, messages, wafProbe, contextSeed, skills)
  {
    hide PlanOf, ContextUpTo, TailText, ResultBudget, TruncateMiddle;
    var task := TaskBlock(p, messages, PlanOf(messages));
    assert task != "" by { assert task[0] == '['; }
    assert Heavy(task)[0] == Section(task, 3);
  }

  const SPACES: set<char> := {'\t', '\n', '\U{B}', '\U{C}', '\r', ' ', '\U{85}', '\U{A0}', '\U{1680}', '\U{2000}', '\U{2001}',
    '\U{2002}', '\U{2003}', '\U{2004}', '\U{2005}', '\U{2006}', '\U{2007}', '\U{2008}', '\U{2009}', '\U{200A}',
    '\U{2028}', '\U{2029}', '\U{202F}', '\U{205F}', '\U{3000}'}

  /** A text counts as blank when only the 25 Unicode spaces occur in it. */
  lemma BlankIff(s: string)
    ensures IsBlankText(s) <==> forall c :: c in s ==> c in SPACES
  {
    forall c: char ensures IsUnicodeSpace(c) <==> c in SPACES {
      SpaceIff(c);
    }
    hide IsUnicodeSpace;
  }

  lemma SpaceIff(c: char)
    ensures IsUnicodeSpace(c) <==> c in SPACES
  {
    var n := c as int;
    assert c == n as char;
    assert '\U{2000}' <= c <= '\U{200A}' ==> n in {0x2000, 0x2001, 0x2002, 0x2003, 0x2004, 0x2005, 0x2006, 0x2007, 0x2008, 0x2009, 0x200A};
    assert '\t' <= c <= '\r' ==> n in {9, 10, 11, 12, 13};
  }

  ghost predicate NotesTokens(m: Message) {
    m.role == "system" && exists a, b :: m.text == a + "<total_tokens>" + b
  }

  ghost predicate HoldsResult(m: Message) {
    m.role == "tool" || (m.role == "user" && m.blocks.Some? && exists b :: b in m.blocks.value && b.ToolResult?)
  }

  /** A request ends with the tool results of message `i` exactly when that
      message holds one and only token accounts follow it. */
  lemma {:induction false} ToolTailIff(messages: seq<Message>, i: nat)
    requires i < |messages|
    ensures ToolTailIndex(messages) == i
       <==> HoldsResult(messages[i]) && forall j :: i < j < |messages| ==> NotesTokens(messages[j])
  {
    var n := |messages| - 1;
    NotesTokensIff(messages[n]);
    HoldsResultIff(messages[n]);
    if i < n {
      assert messages == messages[..n] + [messages[n]];
      ToolTailIff(messages[..n], i);
    }
  }

  lemma NotesTokensIff(m: Message)
    ensures IsTokenMetadata(m) <==> NotesTokens(m)
    ensures NotesTokens(m) ==> m.role != "tool" && m.role != "user"
  {
    assert m.role == "system" ==> m.role[0] == 's';
    if i :| 0 <= i <= |m.text| && "<total_tokens>" <= m.text[i..] {
      assert m.text == m.text[..i] + "<total_tokens>" + m.text[i + 14..];
    }
    if a, b :| m.text == a + "<total_tokens>" + b {
      assert m.text[|a|..] == "<total_tokens>" + b;
      assert "<total_tokens>" <= m.text[|a|..];
    }
  }

  lemma HoldsResultIff(m: Message)
    ensures CarriesResult(m) <==> HoldsResult(m)
  {
  }

  /** The parts of a message that are results. */
  ghost function ResultParts(m: Message): set<nat> {
    if m.role == "tool" then {0}
    else if m.role == "user" && m.blocks.Some? then set k: nat | k < |m.blocks.value| && m.blocks.value[k].ToolResult?
    else {}
  }

  /** Where the first `n` messages show a result in the context. */
  ghost function ResultPlaces(messages: seq<Message>, n: nat, plan: Plan): set<(nat, nat)>
    requires n <= |messages|
  {
    set i: nat, k: nat | i < n && i != plan.queryIdx && i < plan.skipFrom && k in ResultParts(messages[i]) :: (i, k)
  }

  /** The results that share the budget are those the context shows. */
  lemma {:induction false} ResultsAreCounted(messages: seq<Message>, n: nat, plan: Plan)
    requires n <= |messages|
    ensures TotalResults(messages, n, plan) == |ResultPlaces(messages, n, plan)|
  {
    if n > 0 {
      var i: nat := n - 1;
      ResultsAreCounted(messages, i, plan);
      if i == plan.queryIdx || i >= plan.skipFrom {
        assert ResultPlaces(messages, n, plan) == ResultPlaces(messages, i, plan);
      } else {
        PartsAreCounted(messages[i]);
        hide ResultParts, FoldedResults;
        var here := set k | k in ResultParts(messages[i]) :: (i, k);
        assert ResultPlaces(messages, n, plan) == ResultPlaces(messages, i, plan) + here;
        SameSize(ResultParts(messages[i]), i, here);
      }
    }
  }

  lemma {:induction false} SameSize(a: set<nat>, i: nat, b: set<(nat, nat)>)
    requires b == set k | k in a :: (i, k)
    ensures |b| == |a|
  {
    if a != {} {
      var x :| x in a;
      SameSize(a - {x}, i, b - {(i, x)});
    }
  }

  lemma PartsAreCounted(m: Message)
    ensures FoldedResults(m) == |ResultParts(m)|
  {
    if m.role != "tool" && m.role == "user" && m.blocks.Some? {
      BlocksAreCounted(m.blocks.value, 0);
      assert m.blocks.value[0..] == m.blocks.value;
      if !IsAnthropicToolResult(m) {
        assert ResultParts(m) == {};
      } else {
        assert ResultParts(m) == set j: nat | 0 <= j < |m.blocks.value| && m.blocks.value[j].ToolResult?;
      }
    }
  }

  lemma {:induction false} BlocksAreCounted(blocks: seq<Block>, k: nat)
    requires k <= |blocks|
    ensures CountResults(blocks[k..]) == |set j: nat | k <= j < |blocks| && blocks[j].ToolResult?|
    decreases |blocks| - k
  {
    var here := set j: nat | k <= j < |blocks| && blocks[j].ToolResult?;
    if k < |blocks| {
      BlocksAreCounted(blocks, k + 1);
      var rest := set j: nat | k + 1 <= j < |blocks| && blocks[j].ToolResult?;
      assert blocks[k..][1..] == blocks[k + 1..];
      assert here == (if blocks[k].ToolResult? then {k} else {}) + rest;
    } else {
      assert here == {};
    }
  }

  /** The results of a replay share 6000 runes evenly, but get 500 each at least. */
  lemma ResultsShareTheBudget(count: nat)
    ensures var b := ResultBudget(count);
            && (count * b <= 6000 || b == 500)
            && (count > 0 && b > 500 ==> 6000 - count < count * b)
            && (count > 0 && b == 500 ==> 6000 < 501 * count)
  {
    if count > 1 {
      var q := 6000 / count;
      assert q * count <= 6000 < (q + 1) * count;
      assert (q + 1) * count == q * count + count && q * count == count * q;
    }
  }

  // ----- Histories that overflow and that lose their task -----

  function SkillName(): (n: string)
    ensures |n| == 16 && ':' !in n
  {
    "review-a-request"
  }

  function SkillText(): (d: string)
    ensures |d| == 19 && d[18] != '\n'
  {
    "reads and checks it"
  }

  /** A line of a skill directory, as the lines of a system text match it. */
  function SkillLine(): (e: string)
    ensures |e| == 39 && e[38] != '\n'
  {
    "- " + (SkillName() + (": " + SkillText()))
  }

  function Directory(n: nat): (r: seq<string>)
    ensures |r| == n
  {
    if n == 0 then [] else [SkillLine()] + Directory(n - 1)
  }

  lemma {:induction false} ColonFound(name: string, desc: string, from: nat)
    requires from <= |name| && ':' !in name
    ensures FindText(name + (": " + desc), ": ", from) == |name|
    decreases |name| - from
  {
    var s := name + (": " + desc);
    if from < |name| {
      assert s[from..][0] == name[from] != ':';
      ColonFound(name, desc, from + 1);
    } else {
      assert s[from..] == ": " + desc;
    }
  }

  lemma BareLine()
    ensures Bare(SkillLine()) == "- " + SkillName()
  {
    hide SkillName, SkillText, FindText;
    var entry := SkillName() + (": " + SkillText());
    assert ("- " + entry)[2..] == entry;
    ColonFound(SkillName(), SkillText(), 0);
    assert entry[..16] == SkillName();
  }

  /** The lines take 40 runes each, 19 as bare names. */
  lemma {:induction false} DirectoryLengths(n: nat)
    ensures NamesLength(Directory(n)) == 19 * n && |Lines(Directory(n))| == 40 * n
    ensures n > 0 ==> var l := Lines(Directory(n)); l[40 * n - 1] == '\n' && l[40 * n - 2] != '\n'
  {
    hide SkillName, SkillText, SkillLine, Bare;
    if n > 0 {
      BareLine();
      DirectoryLengths(n - 1);
      assert Directory(n)[1..] == Directory(n - 1);
      assert Lines(Directory(n)) == SkillLine() + "\n" + Lines(Directory(n - 1));
    }
  }

  /** They keep their descriptions while the 21 runes of each fit. */
  lemma {:induction false} DirectoryLines(n: nat, left: int)
    requires left >= 21 * n
    ensures SkillLines(Directory(n), left) == Directory(n)
  {
    hide SkillName, SkillText, SkillLine, Bare;
    if n > 0 {
      BareLine();
      DirectoryLines(n - 1, left - 21);
      assert Directory(n)[1..] == Directory(n - 1);
    }
  }

  lemma DirectoryIsFull()
    ensures Directory(100) != [] && |SkillsBlock(Directory(100))| == |SkillsHeader()| + SKILLS_BUDGET - 1
  {
    DirectoryLines(100, 2100);
    DirectoryLengths(100);
    hide Directory, NamesLength, SkillLines, Lines, SkillsHeader;
    OneNewlineTrimmed(Lines(Directory(100)));
  }

  lemma OneNewlineTrimmed(s: string)
    requires |s| >= 2 && s[|s| - 1] == '\n' && s[|s| - 2] != '\n'
    ensures TrimNewlines(s) == s[..|s| - 1]
  {
    var t := s[..|s| - 1];
    assert TrimNewlines(t) == t;
  }

  /** The rendered skill block of a history, and the sections of its replay. */
  function SkillsOf(p: Parsers, messages: seq<Message>): string {
    SkillsBlock(SkillsUpTo(p, messages, |messages|, PlanOf(messages)))
  }

  function ReplaySections(p: Parsers, messages: seq<Message>): seq<Section> {
    Sections(p, messages, false, false, SkillsOf(p, messages))
  }

  ghost predicate FullDirectory(p: Parsers, system: Message) {
    system.role == "system" && system.text != "" && p.systemParts(system.text) == (Directory(100), "")
  }

  lemma DirectoryIsSystems(p: Parsers, m: Message)
    requires FullDirectory(p, m)
    ensures m.role == "system"
  {
    hide Directory;
  }

  /** Two plans of three messages with the task in the middle: the query after
      it is a user's, or the results after it are pending. */
  predicate TaskInMiddle(plan: Plan) {
    plan.taskIdx == 1 && plan.query != ""
    && ((plan.queryIdx == 2 && plan.skipFrom == 3) || (plan.queryIdx == -1 && plan.skipFrom == 2))
  }

  lemma DirectoryFirst(p: Parsers, messages: seq<Message>)
    requires |messages| == 3 && FullDirectory(p, messages[0]) && messages[1].role == "user" && messages[2].role in {"user", "tool"}
    requires TaskInMiddle(PlanOf(messages))
    ensures |SkillsOf(p, messages)| == |SkillsHeader()| + SKILLS_BUDGET - 1 && SkillsOf(p, messages) != ""
    ensures ContextOf(p, messages) == []
  {
    var plan := PlanOf(messages);
    DirectoryIsFull();
    hide PlanOf, Directory, SkillsHeader, ResultBudget, TotalResults;
    SkillsOfFirst(p, messages, plan);
    NoContext(p, messages, plan, ResultBudget(TotalResults(messages, 3, plan)));
    hide SkillsUpTo, SkillsBlock, ContextUpTo;
  }

  /** The sections of such a replay: skills, task and tail. */
  lemma ThreeHeavySections(p: Parsers, messages: seq<Message>, task: string)
    requires |messages| == 3 && TaskInMiddle(PlanOf(messages)) && task == p.strip(messages[1].text) && task != ""
    requires SkillsOf(p, messages) != "" && ContextOf(p, messages) == []
    ensures TaskOf(p, messages) == TASK_HEADER + TruncateMiddle(task, TEXT_BUDGET)
    ensures var tail := TailText(PlanOf(messages), false, false);
            && AfterTask(p, messages, false) == [Section(tail, 3)]
            && ReplaySections(p, messages) == [Section(SkillsOf(p, messages), 3), Section(TaskOf(p, messages), 3), Section(tail, 3)]
  {
    hide PlanOf, ContextUpTo, SkillsOf, TailText, ResultBudget, TotalResults, TruncateMiddle;
    TaskIs(p, messages, task);
    TailNotEmpty(PlanOf(messages));
    HeaderStarts(TruncateMiddle(task, TEXT_BUDGET));
    hide TaskOf, TaskBlock;
    assert [] + Heavy(TailText(PlanOf(messages), false, false)) == Heavy(TailText(PlanOf(messages), false, false));
  }

  lemma TaskIs(p: Parsers, messages: seq<Message>, task: string)
    requires |messages| == 3 && PlanOf(messages).taskIdx == 1 && task == p.strip(messages[1].text) && task != ""
    ensures TaskOf(p, messages) == TASK_HEADER + TruncateMiddle(task, TEXT_BUDGET)
    ensures TaskBlock(p, messages, PlanOf(messages)) == TaskOf(p, messages)
  {
    hide PlanOf, TruncateMiddle;
  }

  lemma TailNotEmpty(plan: Plan)
    requires plan.query != ""
    ensures TailText(plan, false, false) != ""
  {
    hide TruncateMiddle;
    if plan.toolTail {
      assert |TruncateMiddle(plan.query, TAIL_BUDGET)| > 0;
    }
  }

  /** A tool-result replay of three messages, a full skill directory, a task of
      2000 runes or more and a result of 4000 or more, has weight-3 sections
      alone beyond the limit and is cut through. */
  lemma HistoryOverflows(p: Parsers, system: Message, task: Message, result: Message)
    requires FullDirectory(p, system)
    requires task.role == "user" && task.blocks == None && |p.strip(task.text)| >= TEXT_BUDGET
    requires result.role == "tool" && |result.text| >= TAIL_BUDGET
    ensures var s := ReplaySections(p, [system, task, result]);
            AllHeavy(s) && |JoinSections(s)| > LIMIT && Folded(s) == CapQuery(JoinSections(s))
  {
    hide PlanOf, FullDirectory, Directory, SkillsOf, TaskOf, TailText, ReplaySections, JoinSections, Folded, CapQuery, SkillsHeader;
    var messages := [system, task, result];
    ResultSections(p, messages, p.strip(task.text));
    HighSectionsCanOverflow(SkillsOf(p, messages), TaskOf(p, messages), TailText(PlanOf(messages), false, false));
  }

  lemma ResultSections(p: Parsers, messages: seq<Message>, task: string)
    requires |messages| == 3 && FullDirectory(p, messages[0])
    requires messages[1].role == "user" && messages[1].blocks == None && task == p.strip(messages[1].text) && |task| >= TEXT_BUDGET
    requires messages[2].role == "tool" && |messages[2].text| >= TAIL_BUDGET
    ensures var tail := TailText(PlanOf(messages), false, false);
            && ReplaySections(p, messages) == [Section(SkillsOf(p, messages), 3), Section(TaskOf(p, messages), 3), Section(tail, 3)]
            && |SkillsOf(p, messages)| == |SkillsHeader()| + SKILLS_BUDGET - 1
            && |TaskOf(p, messages)| == |TASK_HEADER| + TEXT_BUDGET && |tail| == TAIL_BUDGET
  {
    hide PlanOf, FullDirectory, Directory, SkillsOf, TaskOf, TailText, ContextOf, ReplaySections, SkillsHeader, AfterTask, TruncateMiddle, TaskInMiddle;
    DirectoryIsSystems(p, messages[0]);
    PlanOfTaskAndResult(messages);
    DirectoryFirst(p, messages);
    ThreeHeavySections(p, messages, task);
    TailLength(PlanOf(messages));
    TaskLength(task);
  }

  lemma TailLength(plan: Plan)
    requires plan.toolTail && |plan.query| >= TAIL_BUDGET
    ensures |TailText(plan, false, false)| == TAIL_BUDGET
  {
  }

  lemma TaskLength(task: string)
    requires |task| >= TEXT_BUDGET
    ensures |TASK_HEADER + TruncateMiddle(task, TEXT_BUDGET)| == |TASK_HEADER| + TEXT_BUDGET
  {
  }

  lemma HeavyThree(a: string, b: string, c: string)
    ensures AllHeavy([Section(a, 3), Section(b, 3), Section(c, 3)])
  {
  }

  lemma PlanOfTaskAndResult(messages: seq<Message>)
    requires |messages| == 3 && messages[0].role == "system" && messages[1].role == "user" && messages[1].blocks == None
    requires messages[2].role == "tool"
    ensures var plan := PlanOf(messages);
            plan.toolTail && TaskInMiddle(plan) && |plan.query| >= |messages[2].text|
  {
    hide Contains;
    assert CarriesResult(messages[2]) && !IsTokenMetadata(messages[2]);
    assert ToolTailIndex(messages) == 2;
    var part := ResultText(messages[2].toolCallID, false, messages[2].text);
    assert PendingFrom(messages, 1, [part], 2) == ([part], 2);
    assert [part] + [] == [part];
    assert PendingFrom(messages, 2, [], 3) == ([part], 2);
    assert Join([part]) == part && |part| >= |messages[2].text|;
    assert LastWhere(messages, 3, (m: Message) => IsUserTurn(m)) == 1;
  }

  lemma SkillsOfFirst(p: Parsers, messages: seq<Message>, plan: Plan)
    requires |messages| == 3 && messages[0].role == "system" && messages[0].text != ""
    requires messages[1].role == "user" && messages[2].role in {"user", "tool"}
    requires plan.queryIdx != 0 && plan.taskIdx == 1 && plan.skipFrom >= 2
    requires p.systemParts(messages[0].text).0 != []
    ensures SkillsUpTo(p, messages, 3, plan) == p.systemParts(messages[0].text).0
  {
    assert !CarriesResult(messages[0]);
    assert SkillsUpTo(p, messages, 1, plan) == p.systemParts(messages[0].text).0;
    assert SkillsUpTo(p, messages, 2, plan) == SkillsUpTo(p, messages, 1, plan);
  }

  lemma NoContext(p: Parsers, messages: seq<Message>, plan: Plan, budget: nat)
    requires |messages| == 3 && messages[0].role == "system" && p.systemParts(messages[0].text).1 == ""
    requires plan.taskIdx == 1 && plan.queryIdx != 0 && (plan.queryIdx == 2 || plan.skipFrom == 2) && plan.skipFrom >= 2
    ensures ContextUpTo(p, messages, 3, plan, budget) == []
  {
    assert Context(p, messages[0], budget) == [];
    assert ContextUpTo(p, messages, 0, plan, budget) == [];
    assert ContextUpTo(p, messages, 1, plan, budget) == [];
    assert ContextUpTo(p, messages, 2, plan, budget) == [];
  }

  /** An ordinary replay of three messages, the same directory, any task and a
      latest message of more than 6858 runes, loses its task altogether: the
      query is the front of the skill list and the end of the latest message. */
  lemma HistoryLosesTask(p: Parsers, system: Message, task: Message, ask: Message)
    requires FullDirectory(p, system)
    requires task.role == "user" && task.blocks == None && p.strip(task.text) != ""
    requires ask.role == "user" && ask.blocks == None && |ask.text| > KEPT_TAIL
    ensures var messages := [system, task, ask];
            var skills, block, after := SkillsOf(p, messages), TaskOf(p, messages), AfterTask(p, messages, false);
            && |skills| > KEPT_HEAD && block != ""
            && ReplaySections(p, messages) == Heavy(skills) + [Section(block, 3)] + after
            && Folded(ReplaySections(p, messages)) == skills[..KEPT_HEAD] + CutMarker() + ask.text[|ask.text| - KEPT_TAIL..]
            && !KeptWhole(Heavy(skills), Section(block, 3), after)
  {
    hide PlanOf, FullDirectory, Directory, SkillsOf, TaskOf, ReplaySections, AfterTask, Folded, CutMarker, KeptWhole, SkillsHeader, Heavy;
    var messages := [system, task, ask];
    AskSections(p, messages, p.strip(task.text));
    LostBehindSkills(SkillsOf(p, messages), TaskOf(p, messages), ask.text);
  }

  lemma AskSections(p: Parsers, messages: seq<Message>, task: string)
    requires |messages| == 3 && FullDirectory(p, messages[0])
    requires messages[1].role == "user" && messages[1].blocks == None && task == p.strip(messages[1].text) && task != ""
    requires messages[2].role == "user" && messages[2].blocks == None && messages[2].text != ""
    ensures var tail := "[User]\n" + messages[2].text;
            && ReplaySections(p, messages) == [Section(SkillsOf(p, messages), 3), Section(TaskOf(p, messages), 3), Section(tail, 3)]
            && AfterTask(p, messages, false) == [Section(tail, 3)]
            && |SkillsOf(p, messages)| == |SkillsHeader()| + SKILLS_BUDGET - 1 && TaskOf(p, messages) != ""
  {
    hide PlanOf, FullDirectory, Directory, SkillsOf, TaskOf, TailText, ContextOf, ReplaySections, SkillsHeader, AfterTask, TruncateMiddle;
    DirectoryIsSystems(p, messages[0]);
    PlanOfTaskAndAsk(messages);
    AskTail(PlanOf(messages));
    DirectoryFirst(p, messages);
    ThreeHeavySections(p, messages, task);
    HeaderStarts(TruncateMiddle(task, TEXT_BUDGET));
  }

  lemma HeaderStarts(text: string)
    ensures TASK_HEADER + text != ""
  {
  }

  /** A full skill block before the task and a long message after it. */
  lemma LostBehindSkills(skills: string, block: string, text: string)
    requires |skills| == |SkillsHeader()| + SKILLS_BUDGET - 1 && block != "" && |text| > KEPT_TAIL
    ensures var tail := "[User]\n" + text;
            && Heavy(skills) + [Section(block, 3)] + [Section(tail, 3)] == [Section(skills, 3), Section(block, 3), Section(tail, 3)]
            && Folded([Section(skills, 3), Section(block, 3), Section(tail, 3)])
               == skills[..KEPT_HEAD] + CutMarker() + text[|text| - KEPT_TAIL..]
            && !KeptWhole(Heavy(skills), Section(block, 3), [Section(tail, 3)])
  {
    hide Folded, CutMarker, KeptWhole, SkillsHeader;
    var tail := "[User]\n" + text;
    assert tail[|tail| - KEPT_TAIL..] == text[|text| - KEPT_TAIL..];
    TaskBehindSkillsCanBeLost(skills, block, tail);
    BehindLongSkillsIsLost(skills, block, tail);
  }

  lemma AskTail(plan: Plan)
    requires !plan.toolTail && plan.queryIdx >= 0 && plan.query != ""
    ensures TailText(plan, false, false) == "[User]\n" + plan.query
  {
  }

  lemma BehindLongSkillsIsLost(skills: string, block: string, tail: string)
    requires |skills| > KEPT_HEAD && block != "" && |tail| > KEPT_TAIL && |skills| + |block| + |tail| + 4 > LIMIT
    ensures !KeptWhole(Heavy(skills), Section(block, 3), [Section(tail, 3)])
  {
    hide KeptWhole, JoinSections, FitsByDropping, CutLength;
    var s := [Section(skills, 3), Section(block, 3), Section(tail, 3)];
    assert Heavy(skills) + [Section(block, 3)] + [Section(tail, 3)] == s;
    assert skills != "";
    ThreeLengths(s);
    hide Heavy;
    BehindSkillsIff(skills, Section(block, 3), [Section(tail, 3)]);
  }

  lemma ThreeLengths(s: seq<Section>)
    requires |s| == 3 && AllHeavy(s)
    ensures |JoinSections(s)| == |s[0].text| + |s[1].text| + |s[2].text| + 4
    ensures !FitsByDropping(s) && CutLength(s) == |JoinSections(s)|
  {
    ThreeTexts(s);
    HeavyNothingToDrop(s);
    hide JoinSections, Droppable, HighLength, OmissionMarker;
  }

  lemma PlanOfTaskAndAsk(messages: seq<Message>)
    requires |messages| == 3 && messages[0].role == "system"
    requires messages[1].role == "user" && messages[1].blocks == None && messages[2].role == "user" && messages[2].blocks == None
    ensures PlanOf(messages) == Plan(false, messages[2].text, 2, 3, 1)
  {
    hide Contains;
    assert !CarriesResult(messages[2]) && !IsTokenMetadata(messages[2]);
    assert ToolTailIndex(messages) == -1;
    assert LastWhere(messages, 3, (m: Message) => m.role == "user") == 2;
    assert !IsUserTurn(messages[0]) && IsUserTurn(messages[1]);
    assert FirstTask(messages, 1, 2, 3) == 1;
  }

  /** The new turn: the results handed back, in order, with the texts that came
      with them, or else the last user message. */
  ghost predicate HoldsNewTurn(messages: seq<Message>, q: string) {
    && (forall history, run, counts :: HandsBack(messages, history, run, counts) ==>
          q == Join(RunResults(run) + RunTexts(run)) + INSTRUCTION)
    && (forall body, counts, k :: NoTail(messages, body, counts) && LastUser(messages, k) ==> q == messages[k].text)
  }

  lemma NewTurnHolds(messages: seq<Message>)
    ensures HoldsNewTurn(messages, PlanOf(messages).query)
  {
    hide PlanOf, HandsBack, NoTail, RunResults, RunTexts, Join;
    forall history, run, counts | HandsBack(messages, history, run, counts)
      ensures PlanOf(messages).query == Join(RunResults(run) + RunTexts(run)) + INSTRUCTION
    {
      QueryHoldsResults(messages, history, run, counts);
    }
    forall body, counts, k | NoTail(messages, body, counts) && LastUser(messages, k)
      ensures PlanOf(messages).query == messages[k].text
    {
      QueryIsLastUser(messages, body, counts);
    }
  }

  /** `splitMessagesSeed`: with a conversation only the new turn is sent; without
      one the history is folded in. */
  method SplitMessages(p: Parsers, messages: seq<Message>, hasConversation: bool, wafProbe: bool, contextSeed: bool)
    returns (q: string)
    ensures hasConversation ==> q == PlanOf(messages).query
    ensures hasConversation ==> HoldsNewTurn(messages, q)
    ensures var sections := Sections(p, messages, wafProbe, contextSeed, SkillsOf(p, messages));
            && (!hasConversation && wafProbe ==> q == JoinSections(sections))
            && (!hasConversation && !wafProbe ==> q == Folded(sections))
    ensures !hasConversation && !wafProbe ==> |q| <= LIMIT
    ensures !hasConversation && !wafProbe && !contextSeed && ToolTailIndex(messages) >= 0 ==>
              EndsWith(q, ReplayEnd(p, messages))
  {
    hide PlanOf, ContextUpTo, SkillsUpTo, TaskBlock, TailText, Folded, SkillsHeader, FoldSkills, TotalResults;
    hide ResultBudget, JoinSections, EndsWith, ReplayEnd, ToolTailIndex;
    hide HoldsNewTurn;
    var plan := MakePlan(messages);
    if hasConversation {
      NewTurnHolds(messages);
      return plan.query;
    }
    var count := CountFolded(messages, plan);
    var context, lines := BuildContext(p, messages, plan, ResultBudget(count));
    var skillsBlock := "";
    if lines != [] {
      var list := FoldSkillList(lines);
      skillsBlock := SkillsHeader() + list;
    }
    var taskBlock := TaskBlock(p, messages, plan);
    var sections := [];
    if skillsBlock != "" {
      sections := sections + [Section(skillsBlock, 3)];
    }
    if !plan.toolTail && taskBlock != "" {
      sections := sections + [Section(taskBlock, 3)];
    }
    sections := sections + context;
    if plan.toolTail && taskBlock != "" {
      sections := sections + [Section(taskBlock, 3)];
    }
    var tail := TailText(plan, wafProbe, contextSeed);
    if tail != "" {
      sections := sections + [Section(tail, 3)];
    }
    assert sections == Sections(p, messages, wafProbe, contextSeed, skillsBlock);
    if wafProbe {
      return JoinSections(sections);
    }
    FoldedFits(sections);
    if !contextSeed && ToolTailIndex(messages) >= 0 {
      ReplayKeepsTask(p, messages, skillsBlock);
    }
    q := CapSections(sections);
  }
}
