/** Comparing two JSON bodies leaf by leaf, and finding a leaf again by the
    path the comparison printed. */
module JsonDiff {
  import opened Base
  import opened Decimal

  datatype Json =
    | Null
    | Bool(b: bool)
    | Num(n: real)
    | Str(s: string)
    | Arr(items: seq<Json>)
    | Obj(fields: map<string, Json>)

  // ----- Keys in byte order -----

  predicate Less(a: string, b: string) {
    b != "" && (a == "" || a[0] < b[0] || (a[0] == b[0] && Less(a[1..], b[1..])))
  }

  lemma {:induction false} LessOrders(a: string, b: string)
    ensures !Less(a, a) && !(Less(a, b) && Less(b, a)) && (Less(a, b) || a == b || Less(b, a))
  {
    if a != "" && b != "" {
      LessOrders(a[1..], b[1..]);
      assert a == [a[0]] + a[1..] && b == [b[0]] + b[1..];
    }
    if a != "" {
      LessOrders(a[1..], a[1..]);
    }
  }

  lemma {:induction false} LessTrans(a: string, b: string, c: string)
    requires Less(a, b) && Less(b, c)
    ensures Less(a, c)
  {
    if a != "" && a[0] == b[0] && b[0] == c[0] {
      LessTrans(a[1..], b[1..], c[1..]);
    }
  }

  predicate IsLeast(s: set<string>, m: string) {
    m in s && forall k :: k in s ==> !Less(k, m)
  }

  lemma {:induction false} LeastExists(s: set<string>, x: string)
    requires x in s
    ensures exists m :: IsLeast(s, m)
    decreases |s|
  {
    hide Less;
    LessOrders(x, x);
    var rest := s - {x};
    if y :| y in rest {
      LeastExists(rest, y);
      var m :| IsLeast(rest, m);
      LessOrders(x, m);
      if Less(x, m) {
        forall k | k in s ensures !Less(k, x) {
          if Less(k, x) {
            LessTrans(k, x, m);
          }
        }
        assert IsLeast(s, x);
      } else {
        assert IsLeast(s, m);
      }
    } else {
      assert IsLeast(s, x);
    }
  }

  lemma LeastUnique(s: set<string>, m: string, n: string)
    requires IsLeast(s, m) && IsLeast(s, n)
    ensures m == n
  {
    hide Less;
    LessOrders(m, n);
  }

  lemma LeastBelow(s: set<string>, m: string)
    requires IsLeast(s, m)
    ensures forall k :: k in s && k != m ==> Less(m, k)
  {
    hide Less;
    forall k | k in s && k != m ensures Less(m, k) {
      LessOrders(m, k);
    }
  }

  /** `sort.Strings` on the keys of a set. */
  ghost function Sorted(s: set<string>): (r: seq<string>)
    ensures forall k :: k in r <==> k in s
    ensures forall i, j :: 0 <= i < j < |r| ==> r[i] != r[j]
    ensures forall i, j :: 0 <= i < j < |r| ==> Less(r[i], r[j])
    decreases |s|
  {
    if x :| x in s then
      LeastExists(s, x);
      var m :| IsLeast(s, m);
      LeastBelow(s, m);
      [m] + Sorted(s - {m})
    else []
  }

  // ----- Places in a tree -----

  datatype Seg = Key(key: string) | Index(index: int)

  /** The value one step down. */
  function Child(v: Json, seg: Seg): (r: Option<Json>)
    ensures r.Some? ==> (v.Obj? && seg.Key?) || (v.Arr? && seg.Index?)
  {
    match seg
    case Key(k) => if v.Obj? && k in v.fields then Some(v.fields[k]) else None
    case Index(i) => if v.Arr? && 0 <= i < |v.items| then Some(v.items[i]) else None
  }

  function Locate(v: Json, segs: seq<Seg>): Option<Json>
    decreases |segs|
  {
    if segs == [] then Some(v)
    else
      match Child(v, segs[0])
      case None => None
      case Some(w) => Locate(w, segs[1..])
  }

  // ----- Printed paths -----

  function Extend(path: string, seg: Seg): string {
    match seg
    case Key(k) => if path == "" then k else path + "." + k
    case Index(i) => path + "[" + Itoa(i) + "]"
  }

  function Print(segs: seq<Seg>): string {
    if segs == [] then "" else Extend(Print(segs[..|segs| - 1]), segs[|segs| - 1])
  }

  // ----- The comparison -----

  datatype Kind = Added | Removed | Changed

  datatype Leaf = Leaf(at: seq<Seg>, kind: Kind, was: Option<Json>, now: Option<Json>)

  /** What is reported of a leaf. */
  datatype Diff = Diff(path: string, kind: Kind, was: Option<Json>, now: Option<Json>)

  function Report(l: Leaf): Diff {
    Diff(Print(l.at), l.kind, l.was, l.now)
  }

  function Reports(ls: seq<Leaf>): (r: seq<Diff>)
    ensures |r| == |ls| && forall i :: 0 <= i < |ls| ==> r[i] == Report(ls[i])
  {
    seq(|ls|, i requires 0 <= i < |ls| => Report(ls[i]))
  }

  predicate Comparable(b: Json, t: Json) {
    (b.Obj? && t.Obj?) || (b.Arr? && t.Arr?)
  }

  /** The steps down that either tree has. */
  ghost function Slots(b: Json, t: Json): (r: seq<Seg>)
    requires Comparable(b, t)
    ensures forall seg :: seg in r <==> Child(b, seg).Some? || Child(t, seg).Some?
    ensures forall i, j :: 0 <= i < j < |r| ==> r[i] != r[j]
  {
    if b.Obj? then
      var keys := Sorted(b.fields.Keys + t.fields.Keys);
      KeySlots(keys)
    else
      IndexSlots(if |t.items| > |b.items| then |t.items| else |b.items|)
  }

  function KeySlots(keys: seq<string>): (r: seq<Seg>)
    ensures |r| == |keys| && forall i :: 0 <= i < |keys| ==> r[i] == Key(keys[i])
  {
    seq(|keys|, i requires 0 <= i < |keys| => Key(keys[i]))
  }

  function IndexSlots(n: nat): (r: seq<Seg>)
    ensures |r| == n && forall i :: 0 <= i < n ==> r[i] == Index(i)
  {
    seq(n, i requires 0 <= i < n => Index(i))
  }

  /** `walk`: the differing leaves, depth first. */
  ghost function Walk(b: Json, t: Json, at: seq<Seg>): seq<Leaf>
    decreases b, 2, 0
  {
    if Comparable(b, t) then WalkSlots(b, t, at, Slots(b, t))
    else if b == t then []
    else [Leaf(at, Changed, Some(b), Some(t))]
  }

  ghost function WalkSlots(b: Json, t: Json, at: seq<Seg>, slots: seq<Seg>): seq<Leaf>
    requires Comparable(b, t)
    decreases b, 1, |slots|
  {
    if slots == [] then []
    else WalkSlots(b, t, at, slots[..|slots| - 1]) + WalkSlot(b, t, at, slots[|slots| - 1])
  }

  ghost function WalkSlot(b: Json, t: Json, at: seq<Seg>, seg: Seg): seq<Leaf>
    requires Comparable(b, t)
    decreases b, 0, 0
  {
    match (Child(b, seg), Child(t, seg))
    case (None, None) => []
    case (Some(x), None) => [Leaf(at + [seg], Removed, Some(x), None)]
    case (None, Some(y)) => [Leaf(at + [seg], Added, None, Some(y))]
    case (Some(x), Some(y)) => Walk(x, y, at + [seg])
  }

  // ----- What the leaves say -----

  /** Trees that go down at all are equal when every step down is. */
  lemma ChildrenDecide(b: Json, t: Json)
    requires Comparable(b, t)
    ensures b == t <==> forall seg :: seg in Slots(b, t) ==> Child(b, seg) == Child(t, seg)
  {
    if forall seg :: seg in Slots(b, t) ==> Child(b, seg) == Child(t, seg) {
      forall seg ensures Child(b, seg) == Child(t, seg) {
        if seg !in Slots(b, t) {
          assert Child(b, seg).None? && Child(t, seg).None?;
        }
      }
      hide Slots;
      if b.Obj? {
        forall k ensures k in b.fields <==> k in t.fields
          ensures k in b.fields && k in t.fields ==> b.fields[k] == t.fields[k]
        {
          assert Child(b, Key(k)) == Child(t, Key(k));
        }
        assert b.fields == t.fields;
      } else {
        assert Child(b, Index(|b.items|)) == Child(t, Index(|b.items|));
        assert Child(b, Index(|t.items|)) == Child(t, Index(|t.items|));
        forall i | 0 <= i < |b.items| && i < |t.items| ensures b.items[i] == t.items[i] {
          assert Child(b, Index(i)) == Child(t, Index(i));
        }
        assert b.items == t.items;
      }
    }
  }

  lemma {:induction false} InSlots(b: Json, t: Json, at: seq<Seg>, slots: seq<Seg>, l: Leaf)
    requires Comparable(b, t)
    ensures l in WalkSlots(b, t, at, slots) <==> exists i :: 0 <= i < |slots| && l in WalkSlot(b, t, at, slots[i])
    decreases |slots|
  {
    hide WalkSlot;
    if slots != [] {
      var n := |slots| - 1;
      InSlots(b, t, at, slots[..n], l);
      if i :| 0 <= i < n && l in WalkSlot(b, t, at, slots[..n][i]) {
        assert l in WalkSlot(b, t, at, slots[i]);
      }
      if i :| 0 <= i < |slots| && l in WalkSlot(b, t, at, slots[i]) {
        assert i < n ==> l in WalkSlot(b, t, at, slots[..n][i]);
      }
    }
  }

  lemma {:induction false} SlotsEmptyIff(b: Json, t: Json, at: seq<Seg>, slots: seq<Seg>)
    requires Comparable(b, t)
    ensures WalkSlots(b, t, at, slots) == [] <==> forall i :: 0 <= i < |slots| ==> WalkSlot(b, t, at, slots[i]) == []
    decreases |slots|
  {
    hide WalkSlot;
    if slots != [] {
      var n := |slots| - 1;
      SlotsEmptyIff(b, t, at, slots[..n]);
      if forall i :: 0 <= i < |slots| ==> WalkSlot(b, t, at, slots[i]) == [] {
        assert forall i :: 0 <= i < n ==> WalkSlot(b, t, at, slots[..n][i]) == [];
      } else {
        var i :| 0 <= i < |slots| && WalkSlot(b, t, at, slots[i]) != [];
        assert i < n ==> WalkSlot(b, t, at, slots[..n][i]) != [];
      }
    }
  }

  /** Nothing is reported exactly when the trees are equal. */
  lemma {:induction false} NothingReportedIff(b: Json, t: Json, at: seq<Seg>)
    ensures Walk(b, t, at) == [] <==> b == t
    decreases b, 1
  {
    if Comparable(b, t) {
      var slots := Slots(b, t);
      SlotsEmptyIff(b, t, at, slots);
      ChildrenDecide(b, t);
      hide Slots, WalkSlots, WalkSlot, Child;
      forall i | 0 <= i < |slots|
        ensures WalkSlot(b, t, at, slots[i]) == [] <==> Child(b, slots[i]) == Child(t, slots[i])
      {
        SlotEmptyIff(b, t, at, slots[i]);
      }
      assert (forall seg :: seg in slots ==> Child(b, seg) == Child(t, seg))
        <==> forall i :: 0 <= i < |slots| ==> Child(b, slots[i]) == Child(t, slots[i]);
    }
  }

  lemma {:induction false} SlotEmptyIff(b: Json, t: Json, at: seq<Seg>, seg: Seg)
    requires Comparable(b, t)
    ensures (Child(b, seg).Some? || Child(t, seg).Some?) ==> (WalkSlot(b, t, at, seg) == [] <==> Child(b, seg) == Child(t, seg))
    ensures Child(b, seg).None? && Child(t, seg).None? ==> WalkSlot(b, t, at, seg) == []
    decreases b, 0
  {
    if Child(b, seg).Some? && Child(t, seg).Some? {
      NothingReportedIff(Child(b, seg).value, Child(t, seg).value, at + [seg]);
    }
  }

  ghost predicate Sound(b: Json, t: Json, at: seq<Seg>, l: Leaf) {
    && at <= l.at
    && Locate(b, l.at[|at|..]) == l.was && Locate(t, l.at[|at|..]) == l.now && l.was != l.now
    && (l.kind.Added? <==> l.was.None?) && (l.kind.Removed? <==> l.now.None?)
  }

  lemma SoundBelow(b: Json, t: Json, at: seq<Seg>, seg: Seg, l: Leaf)
    requires Child(b, seg).Some? && Child(t, seg).Some?
    requires Sound(Child(b, seg).value, Child(t, seg).value, at + [seg], l)
    ensures Sound(b, t, at, l)
  {
    var rel := l.at[|at|..];
    assert rel[0] == l.at[|at|] == (at + [seg])[|at|];
    assert rel[1..] == l.at[|at + [seg]|..];
    hide Child;
  }

  lemma SoundHere(b: Json, t: Json, at: seq<Seg>, seg: Seg, l: Leaf)
    requires Comparable(b, t) && l in WalkSlot(b, t, at, seg) && (Child(b, seg).None? || Child(t, seg).None?)
    ensures Sound(b, t, at, l)
  {
    assert l.at == at + [seg] && l.at[|at|..] == [seg] && [seg][1..] == [];
    assert forall v :: Locate(v, [seg]) == match Child(v, seg) case None => None case Some(w) => Locate(w, []);
    hide Child;
  }

  /** Every leaf names a place where the trees differ, with both values there. */
  lemma {:induction false} LeavesAreSound(b: Json, t: Json, at: seq<Seg>, l: Leaf)
    requires l in Walk(b, t, at)
    ensures Sound(b, t, at, l)
    decreases b
  {
    if Comparable(b, t) {
      var slots := Slots(b, t);
      InSlots(b, t, at, slots, l);
      var i :| 0 <= i < |slots| && l in WalkSlot(b, t, at, slots[i]);
      var seg := slots[i];
      if Child(b, seg).Some? && Child(t, seg).Some? {
        LeavesAreSound(Child(b, seg).value, Child(t, seg).value, at + [seg], l);
        SoundBelow(b, t, at, seg, l);
      } else {
        SoundHere(b, t, at, seg, l);
      }
    } else {
      assert l.at[|at|..] == [];
    }
  }

  /** Neither place lies on the way to the other. */
  predicate Apart(x: seq<Seg>, y: seq<Seg>) {
    !(x <= y) && !(y <= x)
  }

  predicate Earlier(x: Seg, y: Seg) {
    (x.Key? && y.Key? && Less(x.key, y.key)) || (x.Index? && y.Index? && x.index < y.index)
  }

  ghost predicate ForksAt(x: seq<Seg>, y: seq<Seg>, n: nat) {
    n < |x| && n < |y| && x[..n] == y[..n] && Earlier(x[n], y[n])
  }

  /** Where the ways to two places fork, `x` goes by the earlier key or index. */
  ghost predicate Precedes(x: seq<Seg>, y: seq<Seg>) {
    exists n: nat :: ForksAt(x, y, n)
  }

  lemma ForksThere(at: seq<Seg>, x: Seg, y: Seg, u: seq<Seg>, v: seq<Seg>)
    requires at + [x] <= u && at + [y] <= v && Earlier(x, y)
    ensures Precedes(u, v)
  {
    hide Earlier;
    assert u[|at|] == x && v[|at|] == y && u[..|at|] == at == v[..|at|];
    assert ForksAt(u, v, |at|);
  }

  lemma PrecedesIsApart(x: seq<Seg>, y: seq<Seg>)
    requires Precedes(x, y)
    ensures Apart(x, y)
  {
    var n: nat :| ForksAt(x, y, n);
    if x[n].Key? {
      LessOrders(x[n].key, y[n].key);
    }
    hide Less;
    assert x[n] != y[n];
  }

  lemma SlotBelow(b: Json, t: Json, at: seq<Seg>, seg: Seg, l: Leaf)
    requires Comparable(b, t) && l in WalkSlot(b, t, at, seg)
    ensures at + [seg] <= l.at
  {
    if Child(b, seg).Some? && Child(t, seg).Some? {
      LeavesAreSound(Child(b, seg).value, Child(t, seg).value, at + [seg], l);
    }
  }

  ghost predicate AllOrdered(ls: seq<Leaf>) {
    forall i, j :: 0 <= i < j < |ls| ==> Precedes(ls[i].at, ls[j].at)
  }

  lemma AppendOrdered(a: seq<Leaf>, b: seq<Leaf>)
    requires AllOrdered(a) && AllOrdered(b) && forall x, y :: x in a && y in b ==> Precedes(x.at, y.at)
    ensures AllOrdered(a + b)
  {
    var c := a + b;
    hide Precedes;
    forall i, j | 0 <= i < j < |c| ensures Precedes(c[i].at, c[j].at) {
      if i < |a| && j >= |a| {
        assert c[i] in a && c[j] in b;
      }
    }
  }

  lemma {:induction false} SlotsOrdered(b: Json, t: Json, at: seq<Seg>, slots: seq<Seg>)
    requires Comparable(b, t) && forall i, j :: 0 <= i < j < |slots| ==> Earlier(slots[i], slots[j])
    requires forall i :: 0 <= i < |slots| ==> AllOrdered(WalkSlot(b, t, at, slots[i]))
    ensures AllOrdered(WalkSlots(b, t, at, slots))
    decreases |slots|
  {
    if slots != [] {
      var n := |slots| - 1;
      hide WalkSlot, AllOrdered, Earlier, Precedes;
      assert forall i :: 0 <= i < n ==> slots[..n][i] == slots[i];
      SlotsOrdered(b, t, at, slots[..n]);
      var before, last := WalkSlots(b, t, at, slots[..n]), WalkSlot(b, t, at, slots[n]);
      forall x, y | x in before && y in last ensures Precedes(x.at, y.at) {
        InSlots(b, t, at, slots[..n], x);
        var i :| 0 <= i < n && x in WalkSlot(b, t, at, slots[..n][i]);
        SlotBelow(b, t, at, slots[i], x);
        SlotBelow(b, t, at, slots[n], y);
        ForksThere(at, slots[i], slots[n], x.at, y.at);
      }
      AppendOrdered(before, last);
    }
  }

  lemma SlotsAscend(b: Json, t: Json)
    requires Comparable(b, t)
    ensures var slots := Slots(b, t); forall i, j :: 0 <= i < j < |slots| ==> Earlier(slots[i], slots[j])
  {
    hide Less;
  }

  /** The leaves come in the order of keys and indexes, depth first. */
  lemma {:induction false} LeavesAreOrdered(b: Json, t: Json, at: seq<Seg>)
    ensures AllOrdered(Walk(b, t, at))
    decreases b
  {
    if Comparable(b, t) {
      var slots := Slots(b, t);
      forall i | 0 <= i < |slots| ensures AllOrdered(WalkSlot(b, t, at, slots[i])) {
        var seg := slots[i];
        if Child(b, seg).Some? && Child(t, seg).Some? {
          LeavesAreOrdered(Child(b, seg).value, Child(t, seg).value, at + [seg]);
        }
      }
      SlotsAscend(b, t);
      SlotsOrdered(b, t, at, slots);
    }
  }

  ghost predicate AllApart(ls: seq<Leaf>) {
    forall i, j :: 0 <= i < j < |ls| ==> Apart(ls[i].at, ls[j].at)
  }

  /** The places reported are different, and none lies below another. */
  lemma LeavesAreApart(b: Json, t: Json, at: seq<Seg>)
    ensures AllApart(Walk(b, t, at))
  {
    LeavesAreOrdered(b, t, at);
    var ls := Walk(b, t, at);
    forall i, j | 0 <= i < j < |ls| ensures Apart(ls[i].at, ls[j].at) {
      PrecedesIsApart(ls[i].at, ls[j].at);
    }
  }

  lemma SlotIsWalked(b: Json, t: Json, at: seq<Seg>, seg: Seg, l: Leaf)
    requires Comparable(b, t) && (Child(b, seg).Some? || Child(t, seg).Some?) && l in WalkSlot(b, t, at, seg)
    ensures l in Walk(b, t, at)
  {
    var slots := Slots(b, t);
    hide WalkSlot, Child;
    assert seg in slots;
    var i :| 0 <= i < |slots| && slots[i] == seg;
    InSlots(b, t, at, slots, l);
  }

  lemma MissedHere(b: Json, t: Json, at: seq<Seg>, rel: seq<Seg>)
    requires b != t && (rel == [] || !Comparable(b, t))
    ensures exists l :: l in Walk(b, t, at) && !Apart(l.at, at + rel)
  {
    if !Comparable(b, t) {
      assert Walk(b, t, at)[0].at <= at + rel;
    } else {
      NothingReportedIff(b, t, at);
      hide Walk;
      var l := Walk(b, t, at)[0];
      LeavesAreSound(b, t, at, l);
      assert at + rel <= l.at;
    }
  }

  /** Wherever the trees differ, a leaf is reported there, above or below. */
  lemma {:induction false} NothingMissed(b: Json, t: Json, at: seq<Seg>, rel: seq<Seg>)
    requires Locate(b, rel) != Locate(t, rel)
    ensures exists l :: l in Walk(b, t, at) && !Apart(l.at, at + rel)
    decreases b
  {
    if !Comparable(b, t) || rel == [] {
      MissedHere(b, t, at, rel);
    } else {
      var seg := rel[0];
      var l: Leaf;
      if Child(b, seg).Some? && Child(t, seg).Some? {
        NothingMissed(Child(b, seg).value, Child(t, seg).value, at + [seg], rel[1..]);
        assert at + rel == at + [seg] + rel[1..];
        l :| l in Walk(Child(b, seg).value, Child(t, seg).value, at + [seg]) && !Apart(l.at, at + rel);
      } else {
        l := WalkSlot(b, t, at, seg)[0];
        assert l.at <= at + rel;
      }
      SlotIsWalked(b, t, at, seg, l);
    }
  }

  // ----- Reading a path back -----

  /** `strings.TrimSpace` on single-byte text. */
  predicate IsByteSpace(c: char) {
    c == ' ' || '\t' <= c <= '\r'
  }

  /** The six ASCII spaces. */
  lemma ByteSpaceIff(c: char)
    ensures IsByteSpace(c) <==> c in {'\t', '\n', '\U{B}', '\U{C}', '\r', ' '}
  {
    assert c == c as int as char;
  }

  function TrimSpaceLeft(s: string): (r: string)
    ensures |r| <= |s|
  {
    if s != "" && IsByteSpace(s[0]) then TrimSpaceLeft(s[1..]) else s
  }

  function TrimSpaceRight(s: string): (r: string)
    ensures |r| <= |s|
  {
    if s != "" && IsByteSpace(s[|s| - 1]) then TrimSpaceRight(s[..|s| - 1]) else s
  }

  function FindByte(s: string, c: char): (r: Option<nat>)
    ensures r.Some? ==> r.value < |s| && s[r.value] == c && forall i :: 0 <= i < r.value ==> s[i] != c
    ensures r.None? ==> c !in s
  {
    if s == "" then None
    else if s[0] == c then Some(0)
    else
      match FindByte(s[1..], c)
      case None => None
      case Some(i) => Some(i + 1)
  }

  /** The pending key, if there is one. */
  function Flush(key: string): seq<Seg> {
    if key == "" then [] else [Key(key)]
  }

  function Prepend(a: seq<Seg>, r: Option<seq<Seg>>): Option<seq<Seg>> {
    if r.None? then None else Some(a + r.value)
  }

  lemma PrependTwice(a: seq<Seg>, b: seq<Seg>, r: Option<seq<Seg>>)
    ensures Prepend(a, Prepend(b, r)) == Prepend(a + b, r) && Prepend([], r) == r
  {
    if r.Some? {
      assert a + (b + r.value) == a + b + r.value && [] + r.value == r.value;
    }
  }

  /** The number between the brackets at the front of `p`, and what follows. */
  function Bracket(p: string): (r: Option<(int, string)>)
    requires p != ""
    ensures r.Some? ==> |r.value.1| < |p|
  {
    match FindByte(p, ']')
    case None => None
    case Some(j) =>
      if j == 0 then None
      else
        match Atoi(TrimSpaceRight(TrimSpaceLeft(p[1..j])))
        case None => None
        case Some(n) => Some((n, p[j + 1..]))
  }

  /** What the rest of a path reads as, given a key under construction; None
      when it is malformed. */
  function ReadFrom(p: string, key: string): Option<seq<Seg>>
    decreases |p|
  {
    if p == "" then Some(Flush(key))
    else if p[0] == '.' then Prepend(Flush(key), ReadFrom(p[1..], ""))
    else if p[0] == '[' then
      match Bracket(p)
      case None => None
      case Some((n, rest)) => Prepend(Flush(key) + [Index(n)], ReadFrom(rest, ""))
    else ReadFrom(p[1..], key + [p[0]])
  }

  /** A malformed path and an empty one read as no segments at all. */
  function Read(p: string): seq<Seg> {
    match ReadFrom(p, "")
    case None => []
    case Some(segs) => segs
  }

  method ParseLeafPath(p: string) returns (segs: seq<Seg>)
    ensures segs == Read(p)
  {
    hide TrimSpaceLeft, TrimSpaceRight, FindByte, Atoi;
    segs := [];
    var key := "";
    var i := 0;
    assert p[0..] == p;
    PrependTwice([], [], ReadFrom(p, ""));
    while i < |p|
      invariant 0 <= i <= |p|
      invariant ReadFrom(p, "") == Prepend(segs, ReadFrom(p[i..], key))
    {
      var c := p[i];
      ghost var rest := p[i..];
      if c == '.' {
        PrependTwice(segs, Flush(key), ReadFrom(p[i + 1..], ""));
        if key != "" {
          segs := segs + [Key(key)];
          key := "";
        }
        assert rest[1..] == p[i + 1..];
      } else if c == '[' {
        ghost var before, pending := segs, Flush(key);
        if key != "" {
          segs := segs + [Key(key)];
          key := "";
        }
        assert segs == before + pending;
        var j := FindByte(p[i..], ']');
        if j.None? {
          return [];
        }
        assert rest[1..j.value] == p[i + 1..i + j.value] && rest[j.value + 1..] == p[i + j.value + 1..];
        var n := Atoi(TrimSpaceRight(TrimSpaceLeft(p[i + 1..i + j.value])));
        if n.None? {
          return [];
        }
        assert Bracket(rest) == Some((n.value, p[i + j.value + 1..]));
        segs := segs + [Index(n.value)];
        assert segs == before + (pending + [Index(n.value)]);
        PrependTwice(before, pending + [Index(n.value)], ReadFrom(p[i + j.value + 1..], ""));
        i := i + j.value;
      } else {
        key := key + [c];
        assert rest[1..] == p[i + 1..];
      }
      i := i + 1;
    }
    assert p[i..] == "";
    if key != "" {
      segs := segs + [Key(key)];
    }
  }

  function LeafAt(v: Json, path: string): Option<Json> {
    var segs := Read(path);
    if segs == [] then None else Locate(v, segs)
  }

  /** `leafValue`, up to turning the leaf into text. */
  method LeafValue(v: Json, path: string) returns (r: Option<Json>)
    ensures r == LeafAt(v, path)
  {
    var segs := ParseLeafPath(path);
    if segs == [] {
      return None;
    }
    var w := v;
    for n := 0 to |segs|
      invariant Locate(v, segs) == Locate(w, segs[n..])
    {
      var next := Child(w, segs[n]);
      if next.None? {
        return None;
      }
      w := next.value;
      assert segs[n..][1..] == segs[n + 1..];
    }
    return Some(w);
  }

  // ----- Round trip -----

  predicate GoodKey(k: string) {
    k != "" && '.' !in k && '[' !in k
  }

  predicate GoodSeg(seg: Seg) {
    match seg
    case Key(k) => GoodKey(k)
    case Index(i) => 0 <= i <= MAX_INT64
  }

  predicate GoodSegs(segs: seq<Seg>) {
    forall i :: 0 <= i < |segs| ==> GoodSeg(segs[i])
  }

  /** Whatever is read, its keys are non-empty and free of '.' and '['. */
  lemma {:induction false} ReadKeysAreGood(p: string, key: string)
    requires '.' !in key && '[' !in key && ReadFrom(p, key).Some?
    ensures forall i :: 0 <= i < |ReadFrom(p, key).value| && ReadFrom(p, key).value[i].Key? ==> GoodKey(ReadFrom(p, key).value[i].key)
    decreases |p|
  {
    hide Bracket;
    if p != "" {
      if p[0] == '.' {
        ReadKeysAreGood(p[1..], "");
      } else if p[0] == '[' {
        ReadKeysAreGood(Bracket(p).value.1, "");
      } else {
        ReadKeysAreGood(p[1..], key + [p[0]]);
      }
    }
  }

  /** A good key is read whole. */
  lemma {:induction false} KeyReads(k: string, key: string, rest: string)
    requires '.' !in k && '[' !in k
    ensures ReadFrom(k + rest, key) == ReadFrom(rest, key + k)
    decreases |k|
  {
    hide Bracket;
    if k == "" {
      assert k + rest == rest && key + k == key;
    } else {
      assert (k + rest)[1..] == k[1..] + rest && key + k == key + [k[0]] + k[1..];
      KeyReads(k[1..], key + [k[0]], rest);
    }
  }

  predicate Boundary(rest: string) {
    rest == "" || rest[0] == '.' || rest[0] == '['
  }

  /** At a boundary the pending key is complete. */
  lemma BoundaryFlushes(rest: string, key: string)
    requires Boundary(rest)
    ensures ReadFrom(rest, key) == Prepend(Flush(key), ReadFrom(rest, ""))
  {
    hide Bracket;
    if rest == "" {
      PrependTwice(Flush(key), [], Some([]));
      assert Flush(key) + [] == Flush(key);
    } else if rest[0] == '.' {
      PrependTwice([], [], ReadFrom(rest[1..], ""));
    } else if Bracket(rest).Some? {
      var (n, after) := Bracket(rest).value;
      PrependTwice(Flush(key), [Index(n)], ReadFrom(after, ""));
      assert Flush("") + [Index(n)] == [Index(n)];
    }
  }

  lemma NoSpaces(s: string)
    requires forall i :: 0 <= i < |s| ==> !IsByteSpace(s[i])
    ensures TrimSpaceRight(TrimSpaceLeft(s)) == s
  {
  }

  lemma BracketEnds(d: string, rest: string)
    requires ']' !in d
    ensures var p := "[" + d + "]" + rest;
            FindByte(p, ']') == Some(|d| + 1) && p[1..|d| + 1] == d && p[|d| + 2..] == rest
  {
    hide FindByte;
    var p := "[" + d + "]" + rest;
    assert p[0] == '[' && p[|d| + 1] == ']' && forall i :: 0 < i <= |d| ==> p[i] == d[i - 1];
  }

  /** A printed index is read whole. */
  lemma BracketReads(n: int, rest: string)
    requires 0 <= n <= MAX_INT64
    ensures Bracket("[" + Itoa(n) + "]" + rest) == Some((n, rest))
  {
    AtoiItoa(n);
    NoSpaces(Itoa(n));
    BracketEnds(Itoa(n), rest);
    hide Itoa, Atoi, TrimSpaceLeft, TrimSpaceRight, FindByte;
  }

  /** Reading from the left what was printed from the right. */
  function Tail(segs: seq<Seg>): string {
    if segs == [] then ""
    else (match segs[0]
          case Key(k) => "." + k
          case Index(i) => "[" + Itoa(i) + "]") + Tail(segs[1..])
  }

  lemma {:induction false} TailReads(segs: seq<Seg>)
    requires GoodSegs(segs)
    ensures ReadFrom(Tail(segs), "") == Some(segs) && Boundary(Tail(segs))
    decreases |segs|
  {
    if segs != [] {
      TailReads(segs[1..]);
      assert GoodSeg(segs[0]) && segs == [segs[0]] + segs[1..];
      hide ReadFrom;
      match segs[0]
      case Key(k) => DotReads(k, Tail(segs[1..]));
      case Index(i) => IndexReads(i, Tail(segs[1..]));
    }
  }

  lemma DotReads(k: string, rest: string)
    requires GoodKey(k) && Boundary(rest)
    ensures ReadFrom("." + k + rest, "") == Prepend([Key(k)], ReadFrom(rest, ""))
  {
    hide Bracket;
    var p := "." + k + rest;
    assert p[0] == '.' && p[1..] == k + rest;
    KeyReads(k, "", rest);
    assert "" + k == k;
    BoundaryFlushes(rest, k);
    PrependTwice([], [], ReadFrom(p[1..], ""));
  }

  lemma IndexReads(n: int, rest: string)
    requires 0 <= n <= MAX_INT64
    ensures ReadFrom("[" + Itoa(n) + "]" + rest, "") == Prepend([Index(n)], ReadFrom(rest, ""))
  {
    BracketReads(n, rest);
    hide Bracket, Itoa;
    assert [] + [Index(n)] == [Index(n)];
  }

  function Piece(seg: Seg): string {
    match seg
    case Key(k) => "." + k
    case Index(i) => "[" + Itoa(i) + "]"
  }

  lemma {:induction false} TailSnoc(segs: seq<Seg>, seg: Seg)
    ensures Tail(segs + [seg]) == Tail(segs) + Piece(seg)
    decreases |segs|
  {
    hide Itoa;
    if segs == [] {
      assert [] + [seg] == [seg] && [seg][1..] == [];
      assert Tail([]) == "";
    } else {
      assert (segs + [seg])[1..] == segs[1..] + [seg];
      TailSnoc(segs[1..], seg);
    }
  }

  /** The first step, if it is a key, is not the empty one. */
  predicate RootSpelled(segs: seq<Seg>) {
    segs != [] ==> segs[0] != Key("")
  }

  /** A printed path is its tail form, without the dot of a leading key. */
  lemma {:induction false} PrintIsTail(segs: seq<Seg>)
    requires segs != [] && RootSpelled(segs)
    ensures Print(segs) != "" && Tail(segs) == (if segs[0].Key? then "." else "") + Print(segs)
    decreases |segs|
  {
    hide Tail, Print, Extend, Piece;
    var n := |segs| - 1;
    assert segs == segs[..n] + [segs[n]];
    TailSnoc(segs[..n], segs[n]);
    PrintSnoc(segs[..n], segs[n]);
    EmptyTail();
    ExtendIsPiece(Print(segs[..n]), segs[n]);
    if n > 0 {
      PrintIsTail(segs[..n]);
      assert segs[..n][0] == segs[0];
      var lead := if segs[0].Key? then "." else "";
      AssocText(lead, Print(segs[..n]), Piece(segs[n]));
    } else {
      assert segs[..n] == [];
      assert "" + Piece(segs[n]) == Piece(segs[n]);
    }
  }

  lemma AssocText(a: string, b: string, c: string)
    ensures (a + b) + c == a + (b + c)
  {
  }

  lemma ExtendIsPiece(path: string, seg: Seg)
    ensures path != "" ==> Extend(path, seg) == path + Piece(seg)
    ensures path == "" && seg != Key("") ==> Extend(path, seg) != "" && Piece(seg) == (if seg.Key? then "." else "") + Extend(path, seg)
  {
    hide Itoa;
  }

  lemma EmptyTail()
    ensures Tail([]) == "" && Print([]) == ""
  {
  }

  /** A path reads back as what was printed exactly when its keys are non-empty
      and free of '.' and '['. */
  lemma RoundTripIff(segs: seq<Seg>)
    requires segs != [] && forall i :: 0 <= i < |segs| && segs[i].Index? ==> 0 <= segs[i].index <= MAX_INT64
    ensures Read(Print(segs)) == segs <==> GoodSegs(segs)
  {
    hide Tail, Print, ReadFrom;
    if Read(Print(segs)) == segs {
      var r := ReadFrom(Print(segs), "");
      assert r == Some(segs);
      ReadKeysAreGood(Print(segs), "");
      forall i | 0 <= i < |segs| ensures GoodSeg(segs[i]) {
        assert r.value[i] == segs[i];
      }
    }
    if GoodSegs(segs) {
      TailReads(segs);
      assert GoodSeg(segs[0]);
      PrintIsTail(segs);
      if segs[0].Key? {
        LeadingDot(Print(segs));
        assert Tail(segs) == "." + Print(segs);
      } else {
        assert "" + Print(segs) == Print(segs);
      }
    }
  }

  lemma LeadingDot(p: string)
    ensures ReadFrom("." + p, "") == ReadFrom(p, "")
  {
    assert ("." + p)[1..] == p;
    PrependTwice([], [], ReadFrom(p, ""));
  }

  // ----- Main results -----

  /** Keys non-empty and free of '.' and '[', arrays of a length an int holds. */
  ghost predicate GoodTree(v: Json) {
    match v
    case Arr(items) => |items| <= MAX_INT64 && forall i :: 0 <= i < |items| ==> GoodTree(items[i])
    case Obj(fields) => forall k :: k in fields ==> GoodKey(k) && GoodTree(fields[k])
    case _ => true
  }

  lemma {:induction false} GoodPlaces(v: Json, segs: seq<Seg>)
    requires GoodTree(v) && Locate(v, segs).Some?
    ensures GoodSegs(segs)
    decreases |segs|
  {
    if segs != [] {
      GoodPlaces(Child(v, segs[0]).value, segs[1..]);
      assert segs == [segs[0]] + segs[1..];
    }
  }

  /** The comparison of two whole trees. */
  ghost function Diffs(b: Json, t: Json): seq<Diff> {
    Reports(Walk(b, t, []))
  }

  lemma DiffComesFromLeaf(b: Json, t: Json, d: Diff)
    requires d in Diffs(b, t)
    ensures exists l :: l in Walk(b, t, []) && d == Report(l) && Sound(b, t, [], l) && l.at[0..] == l.at
  {
    var i :| 0 <= i < |Diffs(b, t)| && Diffs(b, t)[i] == d;
    var l := Walk(b, t, [])[i];
    hide Walk;
    LeavesAreSound(b, t, [], l);
    assert l.at[0..] == l.at;
    assert d == Report(l);
  }

  /** Every reported path, read back, leads to the reported values: the target's
      in the target tree, the baseline's in the baseline; a removed path leads
      nowhere in the target. Only the root itself cannot be found again. */
  lemma PathsLeadBack(b: Json, t: Json, d: Diff)
    requires GoodTree(b) && GoodTree(t) && d in Diffs(b, t)
    ensures d.path != "" ==> LeafAt(t, d.path) == d.now && LeafAt(b, d.path) == d.was
    ensures d.path == "" <==> !Comparable(b, t)
    ensures d.was != d.now && (d.kind.Added? <==> d.was.None?) && (d.kind.Removed? <==> d.now.None?)
  {
    DiffComesFromLeaf(b, t, d);
    var l :| l in Walk(b, t, []) && d == Report(l) && Sound(b, t, [], l) && l.at[0..] == l.at;
    if l.was.Some? {
      GoodPlaces(b, l.at);
    } else {
      GoodPlaces(t, l.at);
    }
    RootIff(b, t, l);
    if l.at != [] {
      PrintIsTail(l.at);
      assert forall i :: 0 <= i < |l.at| ==> GoodSeg(l.at[i]);
      RoundTripIff(l.at);
    }
    hide Walk, Read, Locate, GoodTree;
  }

  lemma RootIff(b: Json, t: Json, l: Leaf)
    requires l in Walk(b, t, [])
    ensures l.at == [] <==> !Comparable(b, t)
  {
    if Comparable(b, t) {
      InSlots(b, t, [], Slots(b, t), l);
      var i :| 0 <= i < |Slots(b, t)| && l in WalkSlot(b, t, [], Slots(b, t)[i]);
      SlotBelow(b, t, [], Slots(b, t)[i], l);
    }
  }

  /** No two reports carry the same path. */
  lemma PathsDiffer(b: Json, t: Json, i: int, j: int)
    requires GoodTree(b) && GoodTree(t) && 0 <= i < j < |Diffs(b, t)|
    ensures Diffs(b, t)[i].path != Diffs(b, t)[j].path
  {
    var x, y := Walk(b, t, [])[i], Walk(b, t, [])[j];
    LeavesAreApart(b, t, []);
    assert Apart(x.at, y.at);
    LeafIsGood(b, t, x);
    LeafIsGood(b, t, y);
    RoundTripIff(x.at);
    RoundTripIff(y.at);
    hide Walk, Read, Print;
  }

  // ----- Exactly when two paths are spelled alike -----

  lemma {:induction false} TailAppend(a: seq<Seg>, b: seq<Seg>)
    ensures Tail(a + b) == Tail(a) + Tail(b)
    decreases |b|
  {
    if b == [] {
      assert a + b == a;
      EmptyTail();
    } else {
      var n := |b| - 1;
      assert a + b == (a + b[..n]) + [b[n]] && b == b[..n] + [b[n]];
      TailAppend(a, b[..n]);
      TailSnoc(a + b[..n], b[n]);
      TailSnoc(b[..n], b[n]);
      hide Tail, Piece;
    }
  }

  /** One key goes on to spell the other and what follows it. */
  predicate Continues(k: string, u: seq<Seg>, l: string, v: seq<Seg>) {
    |k| < |l| && k <= l && Tail(u) == l[|k|..] + Tail(v)
  }

  /** After a common way of `n` steps, `x` goes down by a key, and `y` by a longer
      key of the same object that spells out where `x` goes on. */
  predicate CollideAt(x: seq<Seg>, y: seq<Seg>, n: nat) {
    && n < |x| && n < |y| && x[..n] == y[..n] && x[n].Key? && y[n].Key?
    && Continues(x[n].key, x[n + 1..], y[n].key, y[n + 1..])
  }

  lemma SplitIff(k: string, s: string, l: string, t: string)
    requires k != l
    ensures k + s == l + t
       <==> (|k| < |l| && k <= l && s == l[|k|..] + t) || (|l| < |k| && l <= k && t == k[|l|..] + s)
  {
    var x, y := k + s, l + t;
    if x == y {
      if |k| <= |l| {
        assert x[..|k|] == k && y[..|k|] == l[..|k|];
        assert x[|k|..] == s && y[|k|..] == l[|k|..] + t;
      } else {
        assert y[..|l|] == l && x[..|l|] == k[..|l|];
        assert y[|l|..] == t && x[|l|..] == k[|l|..] + s;
      }
    }
    assert k <= l ==> l == k + l[|k|..];
    assert l <= k ==> k == l + k[|l|..];
  }

  predicate Fits(seg: Seg) {
    seg.Index? ==> 0 <= seg.index <= MAX_INT64
  }

  /** What two different steps and their ends spell. */
  lemma PieceIff(a: Seg, u: seq<Seg>, b: Seg, v: seq<Seg>)
    requires a != b && Fits(a) && Fits(b)
    ensures Piece(a) + Tail(u) == Piece(b) + Tail(v)
       <==> a.Key? && b.Key? && (Continues(a.key, u, b.key, v) || Continues(b.key, v, a.key, u))
  {
    hide Tail, Itoa, Bracket;
    var s, t := Tail(u), Tail(v);
    if a.Key? && b.Key? {
      SplitIff(a.key, s, b.key, t);
      KeyPieces(a.key, s, b.key, t);
      hide Piece;
    } else if a.Index? && b.Index? {
      BracketReads(a.index, s);
      BracketReads(b.index, t);
    } else {
      assert (Piece(a) + s)[0] != (Piece(b) + t)[0];
    }
  }

  lemma KeyPieces(k: string, s: string, l: string, t: string)
    ensures Piece(Key(k)) + s == Piece(Key(l)) + t <==> k + s == l + t
  {
    assert Piece(Key(k)) + s == "." + (k + s) && Piece(Key(l)) + t == "." + (l + t);
    assert ("." + (k + s))[1..] == k + s && ("." + (l + t))[1..] == l + t;
  }

  lemma ForkIff(x: seq<Seg>, y: seq<Seg>, n: nat)
    requires n < |x| && n < |y| && x[..n] == y[..n] && x[n] != y[n] && Fits(x[n]) && Fits(y[n])
    ensures Tail(x) == Tail(y) <==> CollideAt(x, y, n) || CollideAt(y, x, n)
  {
    TailAt(x, n);
    TailAt(y, n);
    PieceIff(x[n], x[n + 1..], y[n], y[n + 1..]);
    hide Tail, Piece, Continues;
    var p := Tail(x[..n]);
    var s, t := Piece(x[n]) + Tail(x[n + 1..]), Piece(y[n]) + Tail(y[n + 1..]);
    assert (p + s)[|p|..] == s && (p + t)[|p|..] == t;
  }

  lemma TailAt(x: seq<Seg>, n: nat)
    requires n < |x|
    ensures Tail(x) == Tail(x[..n]) + (Piece(x[n]) + Tail(x[n + 1..]))
  {
    assert x == x[..n] + x[n..];
    TailAppend(x[..n], x[n..]);
    assert x[n..][1..] == x[n + 1..];
    hide Itoa;
    assert Tail(x[n..]) == Piece(x[n]) + Tail(x[n + 1..]);
  }

  lemma {:induction false} FirstFork(x: seq<Seg>, y: seq<Seg>) returns (n: nat)
    requires Apart(x, y)
    ensures n < |x| && n < |y| && x[..n] == y[..n] && x[n] != y[n]
    decreases |x|
  {
    if x[0] != y[0] {
      n := 0;
    } else {
      assert x == [x[0]] + x[1..] && y == [y[0]] + y[1..];
      n := FirstFork(x[1..], y[1..]);
      n := n + 1;
      assert x[..n] == [x[0]] + x[1..][..n - 1] && y[..n] == [y[0]] + y[1..][..n - 1];
    }
  }

  lemma CollideIff(x: seq<Seg>, y: seq<Seg>)
    requires Apart(x, y) && RootSpelled(x) && RootSpelled(y)
    requires x != [] && y != [] && (x[0].Key? <==> y[0].Key?)
    requires (forall i :: 0 <= i < |x| ==> Fits(x[i])) && (forall i :: 0 <= i < |y| ==> Fits(y[i]))
    ensures Print(x) == Print(y) <==> exists n :: CollideAt(x, y, n) || CollideAt(y, x, n)
  {
    hide Tail, Print, Continues;
    PrintIffTail(x, y);
    var n := FirstFork(x, y);
    ForkIff(x, y, n);
    hide Apart, RootSpelled;
    if m :| CollideAt(x, y, m) || CollideAt(y, x, m) {
      DifferentKeys(x, y, m);
      ForkIff(x, y, m);
    }
  }

  lemma PrintIffTail(x: seq<Seg>, y: seq<Seg>)
    requires x != [] && y != [] && RootSpelled(x) && RootSpelled(y) && (x[0].Key? <==> y[0].Key?)
    ensures Print(x) == Print(y) <==> Tail(x) == Tail(y)
  {
    hide Tail, Print;
    PrintIsTail(x);
    PrintIsTail(y);
    var lead := if x[0].Key? then "." else "";
    assert (lead + Print(x))[|lead|..] == Print(x) && (lead + Print(y))[|lead|..] == Print(y);
  }

  lemma DifferentKeys(x: seq<Seg>, y: seq<Seg>, m: nat)
    requires CollideAt(x, y, m) || CollideAt(y, x, m)
    ensures m < |x| && m < |y| && x[..m] == y[..m] && x[m] != y[m]
  {
    hide Tail;
  }

  /** The longer key continues the shorter one with a dot or a bracket. */
  lemma ContinuesWithMark(k: string, u: seq<Seg>, l: string, v: seq<Seg>)
    requires Continues(k, u, l, v)
    ensures l[|k|] == '.' || l[|k|] == '['
  {
    hide Itoa;
    assert Tail(u)[0] == l[|k|];
  }

  /** Arrays of a length an int holds. */
  ghost predicate ArraysFit(v: Json) {
    match v
    case Arr(items) => |items| <= MAX_INT64 && forall i :: 0 <= i < |items| ==> ArraysFit(items[i])
    case Obj(fields) => forall k :: k in fields ==> ArraysFit(fields[k])
    case _ => true
  }

  lemma {:induction false} FitPlaces(v: Json, segs: seq<Seg>)
    requires ArraysFit(v) && Locate(v, segs).Some?
    ensures forall i :: 0 <= i < |segs| ==> Fits(segs[i])
    decreases |segs|
  {
    if segs != [] {
      FitPlaces(Child(v, segs[0]).value, segs[1..]);
      assert segs == [segs[0]] + segs[1..];
    }
  }

  lemma LeafFits(b: Json, t: Json, l: Leaf)
    requires ArraysFit(b) && ArraysFit(t) && l in Walk(b, t, [])
    ensures forall i :: 0 <= i < |l.at| ==> Fits(l.at[i])
  {
    LeavesAreSound(b, t, [], l);
    assert l.at[0..] == l.at;
    if l.was.Some? {
      FitPlaces(b, l.at);
    } else {
      FitPlaces(t, l.at);
    }
  }

  lemma LeafRoot(b: Json, t: Json, l: Leaf)
    requires Comparable(b, t) && l in Walk(b, t, [])
    requires b.Obj? ==> "" !in b.fields && "" !in t.fields
    ensures l.at != [] && RootSpelled(l.at) && (l.at[0].Key? <==> b.Obj?)
  {
    InSlots(b, t, [], Slots(b, t), l);
    var i :| 0 <= i < |Slots(b, t)| && l in WalkSlot(b, t, [], Slots(b, t)[i]);
    SlotBelow(b, t, [], Slots(b, t)[i], l);
    assert Slots(b, t)[i] in Slots(b, t);
    hide Walk, WalkSlot, Slots;
  }

  /** Over all trees without an empty key at the top, two reports carry the same
      path exactly when, in one object on their way, one goes down by a key that
      spells out the other's key and all that follows it. Such a key goes on
      after the other with a dot or a bracket. */
  lemma PathsCollideIff(b: Json, t: Json, i: int, j: int)
    requires Comparable(b, t) && ArraysFit(b) && ArraysFit(t) && 0 <= i < j < |Diffs(b, t)|
    requires b.Obj? ==> "" !in b.fields && "" !in t.fields
    ensures var x, y := Walk(b, t, [])[i].at, Walk(b, t, [])[j].at;
            Diffs(b, t)[i].path == Diffs(b, t)[j].path <==> exists n :: CollideAt(x, y, n) || CollideAt(y, x, n)
  {
    hide Print, RootSpelled, ArraysFit, Comparable;
    var k, l := Walk(b, t, [])[i], Walk(b, t, [])[j];
    LeavesAreApart(b, t, []);
    assert k in Walk(b, t, []) && l in Walk(b, t, []);
    LeafFits(b, t, k);
    LeafFits(b, t, l);
    LeafRoot(b, t, k);
    LeafRoot(b, t, l);
    hide Walk;
    CollideIff(k.at, l.at);
  }

  lemma LeafIsGood(b: Json, t: Json, l: Leaf)
    requires GoodTree(b) && GoodTree(t) && l in Walk(b, t, [])
    ensures GoodSegs(l.at) && forall i :: 0 <= i < |l.at| && l.at[i].Index? ==> 0 <= l.at[i].index <= MAX_INT64
  {
    LeavesAreSound(b, t, [], l);
    assert l.at[0..] == l.at;
    if l.was.Some? {
      GoodPlaces(b, l.at);
    } else {
      GoodPlaces(t, l.at);
    }
    hide Walk, GoodTree, Locate;
    assert forall i :: 0 <= i < |l.at| ==> GoodSeg(l.at[i]);
  }

  /** A place where both trees have values that cannot be compared further and
      differ is itself a leaf. */
  lemma {:induction false} DifferenceIsALeaf(b: Json, t: Json, at: seq<Seg>, rel: seq<Seg>)
    requires Locate(b, rel).Some? && Locate(t, rel).Some? && Locate(b, rel) != Locate(t, rel)
    requires !Comparable(Locate(b, rel).value, Locate(t, rel).value)
    ensures Leaf(at + rel, Changed, Locate(b, rel), Locate(t, rel)) in Walk(b, t, at)
    decreases |rel|
  {
    if rel == [] {
      assert at + rel == at;
    } else {
      var seg := rel[0];
      assert at + rel == at + [seg] + rel[1..];
      DifferenceIsALeaf(Child(b, seg).value, Child(t, seg).value, at + [seg], rel[1..]);
      SlotIsWalked(b, t, at, seg, Leaf(at + rel, Changed, Locate(b, rel), Locate(t, rel)));
    }
  }

  function Tricky(x: Json): Json {
    Obj(map["a" := Obj(map["b" := x]), "a.b" := x])
  }

  /** With a dot in a key the promise breaks: two leaves share the path `a.b`,
      and reading it back finds only the nested one. */
  lemma DottedKeysCollide(x: Json, y: Json)
    requires x != y && !Comparable(x, y)
    ensures exists i, j :: 0 <= i < |Diffs(Tricky(x), Tricky(y))| && 0 <= j < |Diffs(Tricky(x), Tricky(y))| && i != j
              && Diffs(Tricky(x), Tricky(y))[i].path == Diffs(Tricky(x), Tricky(y))[j].path
  {
    var b, t := Tricky(x), Tricky(y);
    var u, v: seq<Seg> := [Key("a"), Key("b")], [Key("a.b")];
    TrickyPlaces(x);
    TrickyPlaces(y);
    DifferenceIsALeaf(b, t, [], u);
    DifferenceIsALeaf(b, t, [], v);
    assert [] + u == u && [] + v == v && |u| == 2 && |v| == 1;
    CollidingPaths();
    hide Walk, Print, Tricky, Locate;
    SharedPath(b, t, Leaf(u, Changed, Some(x), Some(y)), Leaf(v, Changed, Some(x), Some(y)));
  }

  lemma SharedPath(b: Json, t: Json, k: Leaf, l: Leaf)
    requires k in Walk(b, t, []) && l in Walk(b, t, []) && k != l && Print(k.at) == Print(l.at)
    ensures exists i, j :: 0 <= i < |Diffs(b, t)| && 0 <= j < |Diffs(b, t)| && i != j && Diffs(b, t)[i].path == Diffs(b, t)[j].path
  {
    hide Walk, Print;
    var i :| 0 <= i < |Walk(b, t, [])| && Walk(b, t, [])[i] == k;
    var j :| 0 <= j < |Walk(b, t, [])| && Walk(b, t, [])[j] == l;
    assert Diffs(b, t)[i].path == Diffs(b, t)[j].path;
  }

  lemma TrickyPlaces(x: Json)
    ensures Locate(Tricky(x), [Key("a"), Key("b")]) == Some(x) && Locate(Tricky(x), [Key("a.b")]) == Some(x)
  {
    var u, v: seq<Seg> := [Key("a"), Key("b")], [Key("a.b")];
    assert u[1..] == [Key("b")] && u[1..][1..] == [] && v[1..] == [];
    var inner := Obj(map["b" := x]);
    assert Child(Tricky(x), Key("a")) == Some(inner) && Child(inner, Key("b")) == Some(x);
    assert Locate(inner, [Key("b")]) == Some(x) by { assert [Key("b")][1..] == []; }
  }

  lemma CollidingPaths()
    ensures Print([Key("a"), Key("b")]) == Print([Key("a.b")])
  {
    var u, v: seq<Seg> := [Key("a"), Key("b")], [Key("a.b")];
    assert u[..1] == [Key("a")] && u[..1][..0] == [] && v[..0] == [];
    assert Print([Key("a")]) == "a" by { assert [Key("a")][..0] == []; }
    assert Print(u) == Extend(Print(u[..1]), Key("b"));
    assert Print(v) == Extend(Print([]), Key("a.b"));
    assert "a" + "." + "b" == "a.b";
  }

  // ----- The walk as written -----

  lemma SortedSteps(s: set<string>, m: string)
    requires IsLeast(s, m)
    ensures Sorted(s) == [m] + Sorted(s - {m})
  {
    hide Less;
    var n :| IsLeast(s, n) && Sorted(s) == [n] + Sorted(s - {n});
    LeastUnique(s, m, n);
  }

  method PickLeast(s: set<string>) returns (m: string)
    requires s != {}
    ensures IsLeast(s, m)
  {
    hide Less;
    var x :| x in s;
    LeastExists(s, x);
    m :| m in s && IsLeast(s, m);
  }

  ghost predicate Sorting(r: seq<string>, rest: set<string>, s: set<string>) {
    r + Sorted(rest) == Sorted(s)
  }

  lemma SortingStarts(s: set<string>)
    ensures Sorting([], s, s)
  {
  }

  lemma SortingMoves(r: seq<string>, rest: set<string>, s: set<string>, m: string)
    requires Sorting(r, rest, s) && IsLeast(rest, m)
    ensures m in rest && Sorting(r + [m], rest - {m}, s)
  {
    SortedSteps(rest, m);
    hide Sorted;
    assert r + ([m] + Sorted(rest - {m})) == r + [m] + Sorted(rest - {m});
  }

  lemma SortingEnds(r: seq<string>, s: set<string>)
    requires Sorting(r, {}, s)
    ensures r == Sorted(s)
  {
    assert Sorted({}) == [];
  }

  /** `sort.Strings`: the least remaining key, again and again. */
  method SortKeys(s: set<string>) returns (r: seq<string>)
    ensures r == Sorted(s)
  {
    hide *;
    r := [];
    var rest := s;
    SortingStarts(s);
    while rest != {}
      invariant Sorting(r, rest, s)
      decreases |rest|
    {
      var m := PickLeast(rest);
      SortingMoves(r, rest, s, m);
      r := r + [m];
      rest := rest - {m};
    }
    SortingEnds(r, s);
  }

  lemma ReportsAppend(a: seq<Leaf>, b: seq<Leaf>)
    ensures Reports(a + b) == Reports(a) + Reports(b)
  {
  }

  lemma PrintSnoc(at: seq<Seg>, seg: Seg)
    ensures Print(at + [seg]) == Extend(Print(at), seg)
  {
    assert (at + [seg])[..|at|] == at;
    hide Extend;
  }

  /** One step of the loops below. */
  lemma WalkSlotsSnoc(b: Json, t: Json, at: seq<Seg>, slots: seq<Seg>, n: nat)
    requires Comparable(b, t) && n < |slots|
    ensures WalkSlots(b, t, at, slots[..n + 1]) == WalkSlots(b, t, at, slots[..n]) + WalkSlot(b, t, at, slots[n])
  {
    assert slots[..n + 1][..n] == slots[..n];
    hide WalkSlot;
  }

  /** The keys either object has, sorted, or the indexes of the longer array. */
  method SlotsInOrder(b: Json, t: Json) returns (slots: seq<Seg>)
    requires Comparable(b, t)
    ensures slots == Slots(b, t)
  {
    if b.Obj? {
      var keys := SortKeys(b.fields.Keys + t.fields.Keys);
      slots := KeySlots(keys);
    } else {
      slots := IndexSlots(if |t.items| > |b.items| then |t.items| else |b.items|);
    }
  }

  /** `walk`, appending to a shared list. */
  method WalkInto(b: Json, t: Json, path: string, diffs: seq<Diff>, ghost at: seq<Seg>) returns (r: seq<Diff>)
    requires path == Print(at)
    ensures r == diffs + Reports(Walk(b, t, at))
    decreases b, 1
  {
    hide Slots, WalkSlots, WalkSlot, Print, Extend;
    if Comparable(b, t) {
      var slots := SlotsInOrder(b, t);
      r := diffs;
      NoSlots(b, t, at);
      for n := 0 to |slots|
        invariant r == diffs + Reports(WalkSlots(b, t, at, slots[..n]))
      {
        hide Walk, Reports;
        r := WalkStep(b, t, path, r, at, slots[n]);
        WalkSlotsSnoc(b, t, at, slots, n);
        ReportsAppend(WalkSlots(b, t, at, slots[..n]), WalkSlot(b, t, at, slots[n]));
      }
      assert slots[..|slots|] == slots;
    } else if b == t {
      r := diffs;
    } else {
      r := diffs + [Diff(path, Changed, Some(b), Some(t))];
    }
  }

  lemma NoSlots(b: Json, t: Json, at: seq<Seg>)
    requires Comparable(b, t)
    ensures Reports(WalkSlots(b, t, at, [])) == []
  {
  }

  /** One key or index of the loops of `walk`. */
  method WalkStep(b: Json, t: Json, path: string, diffs: seq<Diff>, ghost at: seq<Seg>, seg: Seg) returns (r: seq<Diff>)
    requires path == Print(at) && Comparable(b, t)
    ensures r == diffs + Reports(WalkSlot(b, t, at, seg))
    decreases b, 0
  {
    PrintSnoc(at, seg);
    var child := Extend(path, seg);
    var x, y := Child(b, seg), Child(t, seg);
    hide Print, Extend;
    if x.Some? && y.None? {
      r := diffs + [Diff(child, Removed, x, None)];
    } else if x.None? && y.Some? {
      r := diffs + [Diff(child, Added, None, y)];
    } else if x.Some? && y.Some? {
      r := WalkInto(x.value, y.value, child, diffs, at + [seg]);
    } else {
      r := diffs;
    }
  }

  // ----- Whole bodies -----

  /** A body that does not parse, or is empty, is compared as one piece. */
  datatype BodyDiff = Whole(kind: Kind) | Leaves(diffs: seq<Diff>)

  /** `leafDiff`; `parse` is the JSON decoder. */
  method LeafDiff(baseline: string, target: string, parse: string -> Option<Json>) returns (r: BodyDiff)
    ensures baseline == "" ==> r == Whole(Added)
    ensures baseline != "" && target == "" ==> r == Whole(Removed)
    ensures baseline != "" && target != "" && parse(baseline).Some? && parse(target).Some? ==>
              r == Leaves(Diffs(parse(baseline).value, parse(target).value))
    ensures baseline != "" && target != "" && (parse(baseline).None? || parse(target).None?) ==>
              r == if baseline == target then Leaves([]) else Whole(Changed)
    ensures r == Leaves([]) <==>
              && baseline != "" && target != ""
              && (if parse(baseline).Some? && parse(target).Some? then parse(baseline) == parse(target) else baseline == target)
  {
    var bv, tv := parse(baseline), parse(target);
    if baseline == "" {
      return Whole(Added);
    }
    if target == "" {
      return Whole(Removed);
    }
    if bv.None? || tv.None? {
      if baseline == target {
        return Leaves([]);
      }
      return Whole(Changed);
    }
    var diffs := WalkInto(bv.value, tv.value, "", [], []);
    NothingReportedIff(bv.value, tv.value, []);
    hide Walk;
    assert diffs == Diffs(bv.value, tv.value);
    r := Leaves(diffs);
  }
}
