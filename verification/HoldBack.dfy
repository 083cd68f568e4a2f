/** Streaming hold-back: text that may be growing into a simulated tool call is
    kept in a buffer, everything before it is forwarded at once. Strings are
    byte strings, one `char` a byte. */
module HoldBack {
  import opened Base

  // ----- Markers -----

  const OPENER: string := "<tool_call>"
  const FENCE: string := "```"
  const FENCE_LANGS: seq<string> := ["", "xml", "tool_call", "json"]

  function ToLower(s: string): (r: string)
    ensures |r| == |s| && forall i :: 0 <= i < |s| ==> r[i] == Lower(s[i])
  {
    seq(|s|, i requires 0 <= i < |s| => Lower(s[i]))
  }

  predicate IsMarkerBlank(c: char) {
    c == ' ' || c == '\t' || c == '\r' || c == '\n'
  }

  function TrimBlanks(s: string): string {
    if s != [] && IsMarkerBlank(s[0]) then TrimBlanks(s[1..]) else s
  }

  /** `s` and the opener agree as far as both go. */
  predicate OpenerLike(s: string) {
    ToLower(s) <= OPENER || OPENER <= ToLower(s)
  }

  predicate FenceLike(rest: string, lang: string) {
    (lang != "" && ToLower(rest) <= lang) ||
    (lang <= ToLower(rest) &&
     var trimmed := TrimBlanks(rest[|lang|..]);
     trimmed == "" || OpenerLike(trimmed))
  }

  /** `isViablePrefix`. */
  predicate IsViablePrefix(s: string) {
    s != "" &&
    (OpenerLike(s) || s <= FENCE ||
     (FENCE <= s && exists k :: 0 <= k < |FENCE_LANGS| && FenceLike(s[3..], FENCE_LANGS[k])))
  }

  /** The text the hold-back is there to catch: it starts with an opener, or
      with a fence, an optional language, blanks and an opener. */
  ghost predicate IsMarked(s: string) {
    OPENER <= ToLower(s) ||
    (FENCE <= s && exists k :: 0 <= k < |FENCE_LANGS| && FencedOpener(s[3..], FENCE_LANGS[k]))
  }

  ghost predicate FencedOpener(rest: string, lang: string) {
    lang <= ToLower(rest) && OPENER <= ToLower(TrimBlanks(rest[|lang|..]))
  }

  // ----- What viability means -----

  lemma {:induction false} TrimBlanksTake(s: string, n: nat)
    requires n <= |s|
    ensures TrimBlanks(s[..n]) == "" || TrimBlanks(s[..n]) <= TrimBlanks(s)
  {
    if n > 0 && IsMarkerBlank(s[0]) {
      assert s[..n][1..] == s[1..][..n - 1];
      TrimBlanksTake(s[1..], n - 1);
    }
  }

  lemma {:induction false} TrimBlanksAppend(s: string, u: string)
    requires TrimBlanks(s) != ""
    ensures TrimBlanks(s + u) == TrimBlanks(s) + u
  {
    if IsMarkerBlank(s[0]) {
      assert (s + u)[1..] == s[1..] + u;
      TrimBlanksAppend(s[1..], u);
    }
  }

  lemma {:induction false} TrimBlanksBlank(s: string, u: string)
    requires TrimBlanks(s) == ""
    ensures TrimBlanks(s + u) == TrimBlanks(u)
  {
    if s != [] {
      assert (s + u)[1..] == s[1..] + u;
      TrimBlanksBlank(s[1..], u);
    } else {
      assert s + u == u;
    }
  }

  lemma OpenerLikeTake(s: string, n: nat)
    requires n <= |s| && OpenerLike(s)
    ensures OpenerLike(s[..n])
  {
    assert ToLower(s[..n]) == ToLower(s)[..n];
  }

  lemma FenceLikeTake(rest: string, lang: string, n: nat)
    requires n <= |rest| && FenceLike(rest, lang)
    ensures FenceLike(rest[..n], lang)
  {
    assert ToLower(rest[..n]) == ToLower(rest)[..n];
    if lang <= ToLower(rest) && |lang| <= n {
      var after := rest[|lang|..];
      assert rest[..n][|lang|..] == after[..n - |lang|];
      TrimBlanksTake(after, n - |lang|);
      var t, t' := TrimBlanks(after), TrimBlanks(after[..n - |lang|]);
      if t' != "" {
        assert t' == t[..|t'|];
        OpenerLikeTake(t, |t'|);
      }
    }
  }

  /** Every non-empty prefix of a viable string is viable. */
  lemma ViablePrefixClosed(s: string, n: nat)
    requires IsViablePrefix(s) && 0 < n <= |s|
    ensures IsViablePrefix(s[..n])
  {
    if OpenerLike(s) {
      OpenerLikeTake(s, n);
    } else if FENCE <= s && n > 3 {
      var k :| 0 <= k < |FENCE_LANGS| && FenceLike(s[3..], FENCE_LANGS[k]);
      FenceLikeTake(s[3..], FENCE_LANGS[k], n - 3);
      assert s[..n][3..] == s[3..][..n - 3];
    }
  }

  lemma OpenerLikeExtends(s: string) returns (u: string)
    requires OpenerLike(s)
    ensures OPENER <= ToLower(s + u)
  {
    u := if |s| < |OPENER| then OPENER[|s|..] else "";
    assert ToLower(OPENER) == OPENER;
    assert ToLower(s + u) == ToLower(s) + ToLower(u);
    if |s| < |OPENER| {
      assert ToLower(u) == OPENER[|s|..];
      assert ToLower(s) == OPENER[..|s|];
    }
  }

  lemma OpenerIsPlain()
    ensures ToLower(OPENER) == OPENER && TrimBlanks(OPENER) == OPENER
  {
    assert OPENER[0] == '<';
  }

  lemma BlankOrOpenerExtends(after: string) returns (u: string)
    requires TrimBlanks(after) == "" || OpenerLike(TrimBlanks(after))
    ensures OPENER <= ToLower(TrimBlanks(after + u))
  {
    hide OpenerLike, TrimBlanks, ToLower;
    if TrimBlanks(after) == "" {
      u := OPENER;
      TrimBlanksBlank(after, u);
      OpenerIsPlain();
    } else {
      u := OpenerLikeExtends(TrimBlanks(after));
      TrimBlanksAppend(after, u);
    }
  }

  lemma FenceLikeExtends(rest: string, lang: string) returns (u: string)
    requires FenceLike(rest, lang) && ToLower(lang) == lang
    ensures FencedOpener(rest + u, lang)
  {
    assert TrimBlanks("") == "";
    hide OpenerLike, TrimBlanks;
    if lang <= ToLower(rest) {
      var after := rest[|lang|..];
      if TrimBlanks(after) == "" || OpenerLike(TrimBlanks(after)) {
        u := BlankOrOpenerExtends(after);
        assert (rest + u)[|lang|..] == after + u;
        assert ToLower(rest + u)[..|rest|] == ToLower(rest);
        return;
      }
    }
    var more := lang[|rest|..];
    assert ToLower(rest + more) == lang by {
      assert lang == ToLower(rest) + more;
      assert ToLower(lang)[|rest|..] == more;
    }
    assert (rest + more)[|lang|..] == "";
    var v := BlankOrOpenerExtends("");
    u := more + v;
    assert (rest + u)[|lang|..] == "" + v;
    assert ToLower(rest + u)[..|lang|] == ToLower(rest + more);
  }

  lemma LangsAreLower(k: nat)
    requires k < |FENCE_LANGS|
    ensures ToLower(FENCE_LANGS[k]) == FENCE_LANGS[k]
  {
    if k == 0 {
    } else if k == 1 {
      assert ToLower("xml") == "xml";
    } else if k == 2 {
      assert ToLower("tool_call") == "tool_call";
    } else {
      assert ToLower("json") == "json";
    }
  }

  lemma MarkedIsViable(s: string)
    requires IsMarked(s)
    ensures IsViablePrefix(s)
  {
    if !(OPENER <= ToLower(s)) {
      var k :| 0 <= k < |FENCE_LANGS| && FencedOpener(s[3..], FENCE_LANGS[k]);
      assert FenceLike(s[3..], FENCE_LANGS[k]);
    }
  }

  lemma FencedExtends(s: string, k: nat) returns (u: string)
    requires FENCE <= s && k < |FENCE_LANGS| && FenceLike(s[3..], FENCE_LANGS[k])
    ensures IsMarked(s + u)
  {
    hide FenceLike, FencedOpener;
    LangsAreLower(k);
    u := FenceLikeExtends(s[3..], FENCE_LANGS[k]);
    assert (s + u)[3..] == s[3..] + u;
  }

  lemma ViableExtends(s: string) returns (u: string)
    requires IsViablePrefix(s)
    ensures IsMarked(s + u)
  {
    if OpenerLike(s) {
      u := OpenerLikeExtends(s);
    } else if FENCE <= s && s != FENCE {
      hide FenceLike, OpenerLike;
      var k :| 0 <= k < |FENCE_LANGS| && FenceLike(s[3..], FENCE_LANGS[k]);
      u := FencedExtends(s, k);
    } else {
      assert FenceLike(FENCE[3..], FENCE_LANGS[1]);
      u := FencedExtends(FENCE, 1);
      assert s + FENCE[|s|..] == FENCE;
      assert s + (FENCE[|s|..] + u) == FENCE + u;
      u := FENCE[|s|..] + u;
    }
  }

  /** Hold-back is neither too eager nor too shy: a non-empty text is viable
      exactly when some continuation turns it into a marker. */
  lemma ViableIffCanBecomeMarked(s: string)
    ensures IsViablePrefix(s) <==> s != "" && exists u: string :: IsMarked(s + u)
  {
    if IsViablePrefix(s) {
      var u := ViableExtends(s);
    } else if s != "" {
      hide *;
      forall u: string
        ensures !IsMarked(s + u)
      {
        assert (s + u)[..|s|] == s;
        if IsMarked(s + u) {
          MarkedIsViable(s + u);
          ViablePrefixClosed(s + u, |s|);
          assert false;
        }
      }
    }
  }

  // ----- Splitting -----

  /** The first position whose whole suffix is viable, or the length. */
  function FirstViable(buf: string): (k: nat)
    ensures k <= |buf|
    ensures k < |buf| ==> IsViablePrefix(buf[k..])
    ensures forall i :: 0 <= i < k ==> !IsViablePrefix(buf[i..])
  {
    if buf == [] || IsViablePrefix(buf) then 0
    else
      var k := 1 + FirstViable(buf[1..]);
      assert forall i :: 0 < i <= |buf| ==> buf[i..] == buf[1..][i - 1..];
      k
  }

  lemma FirstViableUnique(buf: string, k: nat)
    requires k <= |buf|
    requires k < |buf| ==> IsViablePrefix(buf[k..])
    requires forall i :: 0 <= i < k ==> !IsViablePrefix(buf[i..])
    ensures FirstViable(buf) == k
  {
    var j := FirstViable(buf);
    hide IsViablePrefix;
    if j < k {
      assert false;
    } else if k < j {
      assert false;
    }
  }

  /** A viable text begins with one of the two bytes the scan looks for. */
  lemma ViableFirstByte(s: string)
    requires IsViablePrefix(s)
    ensures s[0] == '<' || s[0] == '`'
  {
    assert ToLower(s)[0] == Lower(s[0]);
    if OpenerLike(s) {
      assert ToLower(s)[0] == OPENER[0];
    }
  }

  /** `holdBackLen`: the scan skips bytes that cannot start a marker. */
  method HoldBackLen(buf: string) returns (held: nat)
    ensures held == |buf| - FirstViable(buf)
  {
    for k := 0 to |buf|
      invariant forall i :: 0 <= i < k ==> !IsViablePrefix(buf[i..])
    {
      if buf[k] != '<' && buf[k] != '`' {
        if IsViablePrefix(buf[k..]) {
          ViableFirstByte(buf[k..]);
          assert false;
        }
        continue;
      }
      if IsViablePrefix(buf[k..]) {
        FirstViableUnique(buf, k);
        return |buf| - k;
      }
    }
    FirstViableUnique(buf, |buf|);
    return 0;
  }

  /** `splitStreamSafe`. */
  method SplitStreamSafe(buf: string) returns (safe: string, pending: string)
    ensures safe + pending == buf
    ensures safe == buf[..FirstViable(buf)]
  {
    var h := HoldBackLen(buf);
    safe, pending := buf[..|buf| - h], buf[|buf| - h..];
  }

  /** Scanning only what was held back gives the split of the whole text. */
  lemma FirstViableIncremental(t: string, d: string)
    ensures FirstViable(t + d) == FirstViable(t) + FirstViable(t[FirstViable(t)..] + d)
  {
    hide IsViablePrefix, IsMarked;
    var k := FirstViable(t);
    var rest := t[k..] + d;
    var j := FirstViable(rest);
    forall i | 0 <= i < k + j
      ensures !IsViablePrefix((t + d)[i..])
    {
      if i < k {
        var tail := (t + d)[i..];
        assert tail[..|t| - i] == t[i..];
        if IsViablePrefix(tail) {
          ViablePrefixClosed(tail, |t| - i);
          assert false;
        }
      } else {
        assert (t + d)[i..] == rest[i - k..];
      }
    }
    if k + j < |t + d| {
      assert (t + d)[k + j..] == rest[j..];
    }
    FirstViableUnique(t + d, k + j);
  }

  /** No marker starts inside what may be forwarded, whatever text follows. */
  lemma ForwardedTextMeetsNoMarker(t: string, u: string, i: nat)
    requires i < FirstViable(t)
    ensures !IsMarked((t + u)[i..])
  {
    hide IsViablePrefix, IsMarked;
    ViableIffCanBecomeMarked(t[i..]);
    assert (t + u)[i..] == t[i..] + u;
  }

  // ----- The stream relay: the closures of one streaming call -----

  /** One upstream increment. `tools` counts its native tool-call pieces. */
  datatype Delta = Delta(content: string, reasoning: string, tools: nat, finish: string, hasFinish: bool)

  function TextDelta(s: string): Delta { Delta(s, "", 0, "", false) }
  function ReasoningDelta(s: string): Delta { Delta("", s, 0, "", false) }
  function ToolDelta(n: nat): Delta { Delta("", "", n, "", false) }
  function FinishDelta(reason: string): Delta { Delta("", "", 0, reason, true) }

  /** The client takes the next `budget` increments and refuses every later
      one; `refused` records that it has. */
  datatype Relay = Relay(content: string, emittedText: string, sawNativeTools: bool,
                         out: seq<Delta>, budget: nat, refused: bool)

  function Start(budget: nat): Relay {
    Relay("", "", false, [], budget, false)
  }

  function Emit(r: Relay, d: Delta): (Relay, bool) {
    if r.budget > 0 then (r.(out := r.out + [d], budget := r.budget - 1), true)
    else (r.(refused := true), false)
  }

  function FlushText(r: Relay): (Relay, bool) {
    if r.content == "" then (r, true)
    else
      var (r', ok) := Emit(r, TextDelta(r.content));
      (r'.(content := ""), ok)
  }

  function FlushSafe(r: Relay): (Relay, bool) {
    var k := FirstViable(r.content);
    if k == 0 then (r, true)
    else
      Emit(r.(content := r.content[k..], emittedText := r.emittedText + r.content[..k]),
           TextDelta(r.content[..k]))
  }

  /** What the callback does with one increment; false stops the upstream. */
  function OnDelta(r: Relay, d: Delta): (Relay, bool) {
    if d.hasFinish then (r, true)
    else
      var (r1, ok1) := if d.reasoning != "" then Emit(r, ReasoningDelta(d.reasoning)) else (r, true);
      if !ok1 then (r1, false)
      else if d.tools > 0 then
        var (r2, ok2) := FlushText(r1);
        if ok2 then (r2.(sawNativeTools := true), true) else (r2, false)
      else if d.content == "" then (r1, true)
      else if r1.sawNativeTools then Emit(r1, d)
      else FlushSafe(r1.(content := r1.content + d.content))
  }

  /** All increments in order, stopping at the first refusal. */
  function Feed(r: Relay, ds: seq<Delta>): (Relay, bool)
    decreases |ds|
  {
    if ds == [] then (r, true)
    else
      var (r', ok) := OnDelta(r, ds[0]);
      if ok then Feed(r', ds[1..]) else (r', false)
  }

  /** `simulatedDeltas`: the parser's cleaned text counts only when it found
      a call. `parse` stands for the markup parser. */
  function SimulatedDeltas(content: string, parse: string -> (string, nat)): (string, nat) {
    var (cleaned, calls) := parse(content);
    if calls == 0 then (content, 0) else (cleaned, calls)
  }

  datatype Outcome = Outcome(relay: Relay, content: string)

  function EmitAll(r: Relay, ds: seq<Delta>): Relay
    decreases |ds|
  {
    if ds == [] then r else EmitAll(Emit(r, ds[0]).0, ds[1..])
  }

  /** The end of the call: text still held is released or parsed. `calls` is
      the number of native calls collected. */
  function OnEnd(r: Relay, success: bool, calls: nat, parse: string -> (string, nat)): Outcome {
    if !success then Outcome(FlushText(r).0, "")
    else if r.sawNativeTools then
      Outcome(EmitAll(FlushText(r).0, seq(calls, _ => ToolDelta(1)) + [FinishDelta("tool_calls")]), "")
    else
      var (cleaned, sim) := SimulatedDeltas(r.content, parse);
      var text := if cleaned != "" then [TextDelta(cleaned)] else [];
      var tail := seq(sim, _ => ToolDelta(1)) + [FinishDelta(if sim == 0 then "stop" else "tool_calls")];
      Outcome(EmitAll(r.(content := ""), text + tail), r.emittedText + cleaned)
  }

  /** The text the client has received. */
  function Delivered(out: seq<Delta>): string {
    if out == [] then "" else Delivered(out[..|out| - 1]) + out[|out| - 1].content
  }

  /** The text the callback takes in: an increment that carries tool pieces or
      a finish mark contributes none. */
  function Received(ds: seq<Delta>): string {
    if ds == [] then ""
    else
      var d := ds[0];
      (if d.hasFinish || d.tools > 0 then "" else d.content) + Received(ds[1..])
  }

  ghost predicate NoTools(ds: seq<Delta>) {
    forall i :: 0 <= i < |ds| && !ds[i].hasFinish ==> ds[i].tools == 0
  }

  /** What holds between increments, `t` being the text taken in so far. */
  ghost predicate Faithful(r: Relay, t: string) {
    var k := FirstViable(t);
    && Delivered(r.out) <= t
    && (r.refused ==> r.budget == 0)
    && (!r.refused && r.sawNativeTools ==> r.content == "" && Delivered(r.out) == t)
    && (!r.refused && !r.sawNativeTools ==>
          r.content == t[k..] && r.emittedText == Delivered(r.out) == t[..k])
  }

  lemma StartFaithful(budget: nat)
    ensures Faithful(Start(budget), "") && !Start(budget).refused
  {
    hide IsViablePrefix, FirstViable;
  }

  lemma DeliveredAppend(out: seq<Delta>, d: Delta)
    ensures Delivered(out + [d]) == Delivered(out) + d.content
  {
    assert (out + [d])[..|out|] == out;
  }

  lemma FlushSafeFaithful(r: Relay, t: string, c: string)
    requires Faithful(r, t) && !r.refused && !r.sawNativeTools
    ensures Faithful(FlushSafe(r.(content := r.content + c)).0, t + c)
    ensures FlushSafe(r.(content := r.content + c)).1 == !FlushSafe(r.(content := r.content + c)).0.refused
  {
    hide FirstViable, IsViablePrefix, Delivered;
    FirstViableIncremental(t, c);
    var k, buf := FirstViable(t), r.content + c;
    var j := FirstViable(buf);
    assert t + c == t[..k] + buf;
    assert (t + c)[..k + j] == t[..k] + buf[..j];
    assert (t + c)[k + j..] == buf[j..];
    DeliveredAppend(r.out, TextDelta(buf[..j]));
  }

  lemma FlushTextFaithful(r: Relay, t: string)
    requires Faithful(r, t) && !r.refused
    ensures var (r', ok) := FlushText(r);
            ok == !r'.refused && Delivered(r'.out) <= t && r'.content == "" && r'.budget <= r.budget
            && (!ok ==> r'.budget == 0) && (ok ==> Delivered(r'.out) == t)
  {
    hide FirstViable, IsViablePrefix, Delivered;
    var k := FirstViable(t);
    assert t[..k] + t[k..] == t;
    DeliveredAppend(r.out, TextDelta(r.content));
  }

  lemma OnDeltaFaithful(r: Relay, d: Delta, t: string)
    requires Faithful(r, t) && !r.refused
    ensures var (r', ok) := OnDelta(r, d);
            ok == !r'.refused && Faithful(r', t + Received([d]))
    ensures OnDelta(r, d).1 ==>
              OnDelta(r, d).0.sawNativeTools == (r.sawNativeTools || (!d.hasFinish && d.tools > 0))
  {
    hide FirstViable, IsViablePrefix, Delivered;
    assert [d][1..] == [];
    assert Received([d]) == if d.hasFinish || d.tools > 0 then "" else d.content;
    assert t + "" == t;
    if !d.hasFinish {
      var (r1, ok1) := if d.reasoning != "" then Emit(r, ReasoningDelta(d.reasoning)) else (r, true);
      DeliveredAppend(r.out, ReasoningDelta(d.reasoning));
      assert Delivered(r.out) + "" == Delivered(r.out);
      if ok1 {
        assert Faithful(r1, t);
        if d.tools > 0 {
          FlushTextFaithful(r1, t);
        } else if d.content != "" {
          if r1.sawNativeTools {
            DeliveredAppend(r1.out, d);
          } else {
            FlushSafeFaithful(r1, t, d.content);
          }
        }
      }
    }
  }

  lemma {:induction false} FeedFaithful(r: Relay, ds: seq<Delta>, t: string)
    requires Faithful(r, t) && !r.refused
    ensures var (r', ok) := Feed(r, ds);
            ok == !r'.refused && Delivered(r'.out) <= t + Received(ds)
            && (ok ==> Faithful(r', t + Received(ds)))
            && (ok ==> r'.sawNativeTools == (r.sawNativeTools || !NoTools(ds)))
    decreases |ds|
  {
    hide FirstViable, IsViablePrefix, OnDelta, NoTools, Delivered;
    if ds == [] {
      assert t + "" == t;
      NoToolsEmpty();
    } else {
      var d, rest := ds[0], ds[1..];
      OnDeltaFaithful(r, d, t);
      var (r', ok) := OnDelta(r, d);
      var t' := t + Received([d]);
      assert [d][1..] == [] && [d] + rest == ds;
      assert t' + Received(rest) == t + Received(ds);
      NoToolsCons(d, rest);
      if ok {
        FeedFaithful(r', rest, t');
      }
    }
  }

  lemma NoToolsEmpty()
    ensures NoTools([])
  {
  }

  /** Whatever the increments and however early the client leaves, it has a
      prefix of the received text. As long as nothing was refused and no native
      call has come, that prefix stops at the first viable position, the rest
      is held, and the record of sent text is exact; once a native call has
      come nothing is held at all. */
  lemma StreamedText(budget: nat, ds: seq<Delta>)
    ensures var (r, ok) := Feed(Start(budget), ds);
            var t := Received(ds);
            var k := FirstViable(t);
            && Delivered(r.out) <= t
            && (ok && NoTools(ds) ==>
                  Delivered(r.out) == r.emittedText == t[..k] && r.content == t[k..])
            && (ok && !NoTools(ds) ==> Delivered(r.out) == t && r.content == "")
  {
    hide FirstViable, IsViablePrefix, Feed, Delivered;
    StartFaithful(budget);
    FeedFaithful(Start(budget), ds, "");
    assert "" + Received(ds) == Received(ds);
  }

  /** Chunk independence: two deliveries of the same text leave the same text
      sent and the same text held. */
  lemma ChunkIndependence(b1: nat, ds1: seq<Delta>, b2: nat, ds2: seq<Delta>)
    requires NoTools(ds1) && NoTools(ds2) && Received(ds1) == Received(ds2)
    requires Feed(Start(b1), ds1).1 && Feed(Start(b2), ds2).1
    ensures var r1, r2 := Feed(Start(b1), ds1).0, Feed(Start(b2), ds2).0;
            r1.content == r2.content && r1.emittedText == r2.emittedText
            && Delivered(r1.out) == Delivered(r2.out)
  {
    StreamedText(b1, ds1);
    StreamedText(b2, ds2);
  }

  function DeliveredReasoning(out: seq<Delta>): string {
    if out == [] then "" else DeliveredReasoning(out[..|out| - 1]) + out[|out| - 1].reasoning
  }

  function ReceivedReasoning(ds: seq<Delta>): string {
    if ds == [] then ""
    else (if ds[0].hasFinish then "" else ds[0].reasoning) + ReceivedReasoning(ds[1..])
  }

  /** The increments whose reasoning goes out twice: they carry reasoning and
      text together and come after a native tool call. */
  ghost predicate Doubled(d: Delta, sawNativeTools: bool) {
    !d.hasFinish && d.reasoning != "" && sawNativeTools && d.tools == 0 && d.content != ""
  }

  ghost predicate SomeDoubled(ds: seq<Delta>, sawNativeTools: bool) {
    exists i :: 0 <= i < |ds| && Doubled(ds[i], sawNativeTools || !NoTools(ds[..i]))
  }

  lemma ReasoningAppend(out: seq<Delta>, d: Delta)
    ensures DeliveredReasoning(out + [d]) == DeliveredReasoning(out) + d.reasoning
  {
    assert (out + [d])[..|out|] == out;
  }

  lemma OnDeltaReasoning(r: Relay, d: Delta)
    requires OnDelta(r, d).1
    ensures var once := if d.hasFinish then "" else d.reasoning;
            DeliveredReasoning(OnDelta(r, d).0.out)
            == DeliveredReasoning(r.out) + once + (if Doubled(d, r.sawNativeTools) then d.reasoning else "")
    ensures OnDelta(r, d).0.sawNativeTools == (r.sawNativeTools || (!d.hasFinish && d.tools > 0))
  {
    hide FirstViable, DeliveredReasoning;
    if !d.hasFinish {
      var r1 := if d.reasoning != "" then Emit(r, ReasoningDelta(d.reasoning)).0 else r;
      ReasoningAppend(r.out, ReasoningDelta(d.reasoning));
      assert DeliveredReasoning(r1.out) == DeliveredReasoning(r.out) + d.reasoning;
      if d.tools > 0 {
        ReasoningAppend(r1.out, TextDelta(r1.content));
      } else if d.content != "" {
        if r1.sawNativeTools {
          ReasoningAppend(r1.out, d);
        } else {
          var r2 := r1.(content := r1.content + d.content);
          FlushSafeReasoning(r2);
          assert OnDelta(r, d).0 == FlushSafe(r2).0;
        }
      }
    }
  }

  lemma FlushSafeReasoning(r: Relay)
    ensures DeliveredReasoning(FlushSafe(r).0.out) == DeliveredReasoning(r.out)
    ensures FlushSafe(r).0.sawNativeTools == r.sawNativeTools
  {
    hide FirstViable, DeliveredReasoning;
    ReasoningAppend(r.out, TextDelta(r.content[..FirstViable(r.content)]));
  }

  lemma NoToolsCons(d: Delta, rest: seq<Delta>)
    ensures NoTools([d] + rest) <==> NoTools(rest) && (d.hasFinish || d.tools == 0)
  {
    var ds := [d] + rest;
    assert ds[0] == d && forall j :: 0 <= j < |rest| ==> ds[j + 1] == rest[j];
  }

  lemma DoubledHasReasoning(d: Delta, saw: bool)
    requires Doubled(d, saw)
    ensures d.reasoning != "" && !d.hasFinish
  {
  }

  lemma {:induction false} FeedReasoning(r: Relay, ds: seq<Delta>)
    requires Feed(r, ds).1
    ensures var got := DeliveredReasoning(Feed(r, ds).0.out);
            var sent := DeliveredReasoning(r.out) + ReceivedReasoning(ds);
            |got| >= |sent| && (SomeDoubled(ds, r.sawNativeTools) ==> |got| > |sent|)
            && (!SomeDoubled(ds, r.sawNativeTools) ==> got == sent)
    decreases |ds|
  {
    hide OnDelta, Doubled, SomeDoubled, DeliveredReasoning;
    if ds == [] {
      assert DeliveredReasoning(r.out) + "" == DeliveredReasoning(r.out);
      assert !SomeDoubled(ds, r.sawNativeTools) by {
        NoneDoubled(r.sawNativeTools);
      }
    } else {
      var d, saw := ds[0], r.sawNativeTools;
      OnDeltaReasoning(r, d);
      var r' := OnDelta(r, d).0;
      FeedReasoning(r', ds[1..]);
      DoubledCons(ds, saw);
      var before, once := DeliveredReasoning(r.out), if d.hasFinish then "" else d.reasoning;
      var after := ReceivedReasoning(ds[1..]);
      assert before + once + after == before + (once + after);
      if Doubled(d, saw) {
        DoubledHasReasoning(d, saw);
      } else {
        assert before + once + "" == before + once;
      }
    }
  }

  lemma NoneDoubled(saw: bool)
    ensures !SomeDoubled([], saw)
  {
  }

  lemma DoubledCons(ds: seq<Delta>, saw: bool)
    requires ds != []
    ensures var saw' := saw || (!ds[0].hasFinish && ds[0].tools > 0);
            SomeDoubled(ds, saw) <==> Doubled(ds[0], saw) || SomeDoubled(ds[1..], saw')
  {
    hide Doubled;
    var d, rest := ds[0], ds[1..];
    var saw' := saw || (!d.hasFinish && d.tools > 0);
    assert NoTools(ds[..0]);
    forall i | 0 < i < |ds|
      ensures ds[i] == rest[i - 1]
      ensures (saw || !NoTools(ds[..i])) == (saw' || !NoTools(rest[..i - 1]))
    {
      assert ds[..i] == [d] + rest[..i - 1];
      NoToolsCons(d, rest[..i - 1]);
    }
    if i :| 0 <= i < |ds| && Doubled(ds[i], saw || !NoTools(ds[..i])) {
      if i > 0 {
        assert Doubled(rest[i - 1], saw' || !NoTools(rest[..i - 1]));
      }
    }
    if i :| 0 <= i < |rest| && Doubled(rest[i], saw' || !NoTools(rest[..i])) {
      assert Doubled(ds[i + 1], saw || !NoTools(ds[..i + 1]));
    }
  }

  /** Reasoning reaches the client exactly once if and only if no increment
      joins reasoning and text after a native tool call. */
  lemma ReasoningForwardedOnceIff(budget: nat, ds: seq<Delta>)
    requires Feed(Start(budget), ds).1
    ensures DeliveredReasoning(Feed(Start(budget), ds).0.out) == ReceivedReasoning(ds)
            <==> !SomeDoubled(ds, false)
  {
    FeedReasoning(Start(budget), ds);
    assert "" + ReceivedReasoning(ds) == ReceivedReasoning(ds);
  }

  /** An increment as the stream reader makes it: text, reasoning, tool pieces or
      a finish mark. */
  predicate OneKind(d: Delta) {
    || d == TextDelta(d.content) || d == ReasoningDelta(d.reasoning)
    || d == ToolDelta(d.tools) || d == FinishDelta(d.finish)
  }

  /** Such increments never join the two, so the client gets every piece of
      reasoning exactly once, before and after native tool calls. */
  lemma ReaderReasoningForwardedOnce(budget: nat, ds: seq<Delta>)
    requires Feed(Start(budget), ds).1 && forall i :: 0 <= i < |ds| ==> OneKind(ds[i])
    ensures DeliveredReasoning(Feed(Start(budget), ds).0.out) == ReceivedReasoning(ds)
  {
    hide *;
    ReasoningForwardedOnceIff(budget, ds);
    NoneOfOneKindDoubled(ds);
  }

  lemma NoneOfOneKindDoubled(ds: seq<Delta>)
    requires forall i :: 0 <= i < |ds| ==> OneKind(ds[i])
    ensures !SomeDoubled(ds, false)
  {
    forall i, saw | 0 <= i < |ds| ensures !Doubled(ds[i], saw) {
      OneKindIsNotDoubled(ds[i], saw);
    }
    hide NoTools, Doubled;
  }

  lemma OneKindIsNotDoubled(d: Delta, saw: bool)
    requires OneKind(d)
    ensures !Doubled(d, saw)
  {
  }

  lemma {:induction false} EmitAllText(r: Relay, ds: seq<Delta>)
    requires r.budget >= |ds|
    ensures EmitAll(r, ds).out == r.out + ds
    decreases |ds|
  {
    if ds != [] {
      EmitAllText(Emit(r, ds[0]).0, ds[1..]);
      assert r.out + ds == (r.out + [ds[0]]) + ds[1..];
    }
  }

  lemma {:induction false} DeliveredSilent(out: seq<Delta>, tail: seq<Delta>)
    requires forall i :: 0 <= i < |tail| ==> tail[i].content == ""
    ensures Delivered(out + tail) == Delivered(out)
  {
    if tail == [] {
      assert out + tail == out;
    } else {
      var n := |tail| - 1;
      DeliveredSilent(out, tail[..n]);
      assert out + tail == (out + tail[..n]) + [tail[n]];
      DeliveredAppend(out + tail[..n], tail[n]);
    }
  }

  lemma ReleasedEnd(r: Relay, t: string, success: bool, calls: nat, parse: string -> (string, nat))
    requires Faithful(r, t) && !r.refused && r.budget > calls + 1
    requires !success || r.sawNativeTools
    ensures Delivered(OnEnd(r, success, calls, parse).relay.out) == t
  {
    hide FirstViable, Delivered;
    FlushTextFaithful(r, t);
    var r1 := FlushText(r).0;
    if success {
      var tail := seq(calls, _ => ToolDelta(1)) + [FinishDelta("tool_calls")];
      EmitAllText(r1, tail);
      DeliveredSilent(r1.out, tail);
    }
  }

  lemma ParsedEnd(r: Relay, t: string, calls: nat, parse: string -> (string, nat))
    requires Faithful(r, t) && !r.refused && !r.sawNativeTools
    requires r.budget > SimulatedDeltas(r.content, parse).1 + 1
    ensures var o := OnEnd(r, true, calls, parse);
            var (cleaned, sim) := SimulatedDeltas(t[FirstViable(t)..], parse);
            Delivered(o.relay.out) == o.content == t[..FirstViable(t)] + cleaned
            && (sim == 0 ==> o.content == t)
  {
    hide FirstViable, Delivered;
    var (cleaned, sim) := SimulatedDeltas(r.content, parse);
    var text := if cleaned != "" then [TextDelta(cleaned)] else [];
    var tail := seq(sim, _ => ToolDelta(1)) + [FinishDelta(if sim == 0 then "stop" else "tool_calls")];
    EmitAllText(r.(content := ""), text + tail);
    assert r.out + (text + tail) == (r.out + text) + tail;
    DeliveredSilent(r.out + text, tail);
    DeliveredAppend(r.out, TextDelta(cleaned));
    assert r.out + [] == r.out;
    assert t[..FirstViable(t)] + t[FirstViable(t)..] == t;
  }

  /** The whole call, for a client that takes everything: after a failure or a
      native tool call it has received the text unchanged; otherwise the text
      up to the first viable position, then what the parser leaves of the rest,
      which is also the recorded answer. If the parser finds no call, that is
      the whole text. */
  lemma CompleteStream(budget: nat, ds: seq<Delta>, success: bool, calls: nat,
                       parse: string -> (string, nat))
    requires Feed(Start(budget), ds).1
    requires var r := Feed(Start(budget), ds).0;
             r.budget > calls + 1 && r.budget > SimulatedDeltas(r.content, parse).1 + 1
    ensures var t := Received(ds);
            var k := FirstViable(t);
            var o := OnEnd(Feed(Start(budget), ds).0, success, calls, parse);
            && (!success || !NoTools(ds) ==> Delivered(o.relay.out) == t)
            && (success && NoTools(ds) ==>
                  var (cleaned, sim) := SimulatedDeltas(t[k..], parse);
                  Delivered(o.relay.out) == o.content == t[..k] + cleaned
                  && (sim == 0 ==> o.content == t))
  {
    hide FirstViable, OnEnd, Delivered;
    var (r, _) := Feed(Start(budget), ds);
    StartFaithful(budget);
    FeedFaithful(Start(budget), ds, "");
    var t := Received(ds);
    assert "" + t == t;
    if !success || r.sawNativeTools {
      ReleasedEnd(r, t, success, calls, parse);
    } else {
      ParsedEnd(r, t, calls, parse);
    }
  }

  // ----- Tool calls and the finish mark -----

  /** Tool-call pieces the client has received. */
  function ToolPieces(out: seq<Delta>): nat {
    if out == [] then 0 else ToolPieces(out[..|out| - 1]) + out[|out| - 1].tools
  }

  /** Neither tool pieces nor a finish mark. */
  ghost predicate Plain(out: seq<Delta>) {
    forall i :: 0 <= i < |out| ==> out[i].tools == 0 && !out[i].hasFinish
  }

  lemma OnDeltaPlain(r: Relay, d: Delta)
    requires Plain(r.out)
    ensures Plain(OnDelta(r, d).0.out)
    ensures OnDelta(r, d).1 ==> OnDelta(r, d).0.sawNativeTools == (r.sawNativeTools || (!d.hasFinish && d.tools > 0))
  {
    hide FirstViable;
  }

  /** While the upstream runs, no tool call and no finish mark goes out. */
  lemma {:induction false} FeedPlain(r: Relay, ds: seq<Delta>)
    requires Plain(r.out)
    ensures Plain(Feed(r, ds).0.out)
    ensures Feed(r, ds).1 ==> Feed(r, ds).0.sawNativeTools == (r.sawNativeTools || !NoTools(ds))
    decreases |ds|
  {
    hide OnDelta, Plain;
    if ds != [] {
      OnDeltaPlain(r, ds[0]);
      FeedPlain(OnDelta(r, ds[0]).0, ds[1..]);
      NoToolsCons(ds[0], ds[1..]);
      assert [ds[0]] + ds[1..] == ds;
    } else {
      NoToolsEmpty();
    }
  }

  /** A whole stream as the client gets it: `m` plain increments, then one tool
      piece for each call, then the finish mark. */
  ghost predicate EndsAt(out: seq<Delta>, m: int, calls: nat, reason: string) {
    && 0 <= m && |out| == m + calls + 1
    && (forall i :: 0 <= i < m ==> out[i].tools == 0 && !out[i].hasFinish)
    && (forall i :: m <= i < m + calls ==> out[i] == ToolDelta(1))
    && out[m + calls] == FinishDelta(reason)
  }

  ghost predicate EndsWith(out: seq<Delta>, calls: nat, reason: string) {
    exists m :: EndsAt(out, m, calls, reason)
  }

  lemma EndsAtIs(before: seq<Delta>, calls: nat, reason: string)
    requires Plain(before)
    ensures EndsWith(before + (seq(calls, _ => ToolDelta(1)) + [FinishDelta(reason)]), calls, reason)
  {
    assert EndsAt(before + (seq(calls, _ => ToolDelta(1)) + [FinishDelta(reason)]), |before|, calls, reason);
  }

  lemma NativeEnd(r: Relay, calls: nat, parse: string -> (string, nat))
    requires Plain(r.out) && r.sawNativeTools && r.budget > calls + 1
    ensures EndsWith(OnEnd(r, true, calls, parse).relay.out, calls, "tool_calls")
  {
    var r1 := FlushText(r).0;
    var tail := seq(calls, _ => ToolDelta(1)) + [FinishDelta("tool_calls")];
    assert Plain(r1.out) && r1.budget >= |tail|;
    EmitAllText(r1, tail);
    assert OnEnd(r, true, calls, parse).relay.out == r1.out + tail;
    EndsAtIs(r1.out, calls, "tool_calls");
  }

  lemma SimulatedEnd(r: Relay, calls: nat, parse: string -> (string, nat))
    requires Plain(r.out) && !r.sawNativeTools && r.budget > SimulatedDeltas(r.content, parse).1 + 1
    ensures var sim := parse(r.content).1;
            EndsWith(OnEnd(r, true, calls, parse).relay.out, sim, if sim == 0 then "stop" else "tool_calls")
  {
    var (cleaned, sim) := SimulatedDeltas(r.content, parse);
    assert sim == parse(r.content).1;
    var text := if cleaned != "" then [TextDelta(cleaned)] else [];
    var tail := seq(sim, _ => ToolDelta(1)) + [FinishDelta(if sim == 0 then "stop" else "tool_calls")];
    EmitAllText(r.(content := ""), text + tail);
    assert r.out + (text + tail) == (r.out + text) + tail;
    assert Plain(r.out + text);
    assert OnEnd(r, true, calls, parse).relay.out == (r.out + text) + tail;
    EndsAtIs(r.out + text, sim, if sim == 0 then "stop" else "tool_calls");
  }

  lemma {:induction false} PiecesUpTo(out: seq<Delta>, m: nat, calls: nat, reason: string, k: nat)
    requires EndsAt(out, m, calls, reason) && k <= m + calls + 1
    ensures ToolPieces(out[..k]) == if k <= m then 0 else if k <= m + calls then k - m else calls
  {
    if k > 0 {
      PiecesUpTo(out, m, calls, reason, k - 1);
      assert out[..k][..k - 1] == out[..k - 1];
    }
  }

  /** What such an end means: the finish mark is the last increment and the only
      one, and the calls are counted exactly. */
  lemma EndMeans(out: seq<Delta>, calls: nat, reason: string)
    requires EndsWith(out, calls, reason)
    ensures out != [] && out[|out| - 1] == Delta("", "", 0, reason, true) && ToolPieces(out) == calls
    ensures forall i :: 0 <= i < |out| - 1 ==> !out[i].hasFinish
    ensures forall i, j :: 0 <= i < j < |out| && out[i].tools > 0 ==> out[j].content == "" && out[j].reasoning == ""
  {
    var m :| EndsAt(out, m, calls, reason);
    PiecesUpTo(out, m, calls, reason, |out|);
    assert out[..|out|] == out;
    hide ToolPieces;
  }

  /** For a client that takes everything: after success it gets one tool piece
      for each native call if a native call came, otherwise for each call the
      parser found in the held text, then one finish mark, which says whether
      there was any call; after a failure it gets neither. */
  lemma CompleteCalls(budget: nat, ds: seq<Delta>, success: bool, calls: nat, parse: string -> (string, nat))
    requires Feed(Start(budget), ds).1
    requires var r := Feed(Start(budget), ds).0;
             r.budget > calls + 1 && r.budget > SimulatedDeltas(r.content, parse).1 + 1
    ensures var t := Received(ds);
            var sim := parse(t[FirstViable(t)..]).1;
            var o := OnEnd(Feed(Start(budget), ds).0, success, calls, parse);
            var out := o.relay.out;
            && (!success ==> Plain(out) && o.content == "")
            && (success ==>
                  && ToolPieces(out) == (if NoTools(ds) then sim else calls)
                  && out != []
                  && out[|out| - 1] == Delta("", "", 0, if NoTools(ds) && sim == 0 then "stop" else "tool_calls", true)
                  && (forall i :: 0 <= i < |out| - 1 ==> !out[i].hasFinish)
                  && (forall i, j :: 0 <= i < j < |out| && out[i].tools > 0 ==> out[j].content == "" && out[j].reasoning == ""))
  {
    hide FirstViable, OnEnd, ToolPieces, SimulatedDeltas, Feed, NoTools;
    FeedPlain(Start(budget), ds);
    StreamedText(budget, ds);
    hide Start;
    EndCalls(Feed(Start(budget), ds).0, success, calls, parse);
  }

  /** The same for the end step alone. */
  lemma EndCalls(r: Relay, success: bool, calls: nat, parse: string -> (string, nat))
    requires Plain(r.out) && r.budget > calls + 1 && r.budget > SimulatedDeltas(r.content, parse).1 + 1
    ensures var sim := parse(r.content).1;
            var o := OnEnd(r, success, calls, parse);
            var out := o.relay.out;
            && (!success ==> Plain(out) && o.content == "")
            && (success ==>
                  && ToolPieces(out) == (if r.sawNativeTools then calls else sim)
                  && out != []
                  && out[|out| - 1] == Delta("", "", 0, if !r.sawNativeTools && sim == 0 then "stop" else "tool_calls", true)
                  && (forall i :: 0 <= i < |out| - 1 ==> !out[i].hasFinish)
                  && (forall i, j :: 0 <= i < j < |out| && out[i].tools > 0 ==> out[j].content == "" && out[j].reasoning == ""))
  {
    hide ToolPieces, EndsWith;
    var out := OnEnd(r, success, calls, parse).relay.out;
    if success && r.sawNativeTools {
      NativeEnd(r, calls, parse);
      hide *;
      EndMeans(out, calls, "tool_calls");
    } else if success {
      SimulatedEnd(r, calls, parse);
      var sim := parse(r.content).1;
      hide *;
      EndMeans(out, sim, if sim == 0 then "stop" else "tool_calls");
    }
  }

  /** The closures as they are written: shared variables updated in place. */
  class StreamRelay {
    var content: string
    var emittedText: string
    var sawNativeTools: bool
    var out: seq<Delta>
    var budget: nat
    var refused: bool

    function State(): Relay
      reads this
    {
      Relay(content, emittedText, sawNativeTools, out, budget, refused)
    }

    constructor (budget: nat)
      ensures State() == Start(budget)
    {
      content, emittedText, sawNativeTools := "", "", false;
      out, refused := [], false;
      this.budget := budget;
    }

    method Send(d: Delta) returns (ok: bool)
      modifies this
      ensures (State(), ok) == Emit(old(State()), d)
    {
      if budget == 0 {
        refused := true;
        return false;
      }
      out, budget := out + [d], budget - 1;
      return true;
    }

    method ReleaseAll() returns (ok: bool)
      modifies this
      ensures (State(), ok) == FlushText(old(State()))
    {
      if content == "" {
        return true;
      }
      ok := Send(TextDelta(content));
      content := "";
    }

    method ReleaseSafe() returns (ok: bool)
      modifies this
      ensures (State(), ok) == FlushSafe(old(State()))
    {
      var safe, pending := SplitStreamSafe(content);
      if safe == "" {
        return true;
      }
      assert pending == content[FirstViable(content)..] by {
        assert content == safe + pending;
      }
      content := pending;
      emittedText := emittedText + safe;
      ok := Send(TextDelta(safe));
    }

    method Receive(d: Delta) returns (ok: bool)
      modifies this
      ensures (State(), ok) == OnDelta(old(State()), d)
    {
      if d.hasFinish {
        return true;
      }
      if d.reasoning != "" {
        ok := Send(ReasoningDelta(d.reasoning));
        if !ok {
          return;
        }
      }
      if d.tools > 0 {
        ok := ReleaseAll();
        if !ok {
          return;
        }
        sawNativeTools := true;
        return true;
      }
      if d.content != "" {
        if sawNativeTools {
          ok := Send(d);
          return;
        }
        content := content + d.content;
        ok := ReleaseSafe();
        return;
      }
      return true;
    }

    /** The upstream reader: one callback an increment until a refusal. */
    method ReceiveAll(ds: seq<Delta>) returns (ok: bool)
      modifies this
      ensures (State(), ok) == Feed(old(State()), ds)
    {
      ok := true;
      var i := 0;
      while i < |ds|
        invariant 0 <= i <= |ds|
        invariant ok && Feed(State(), ds[i..]) == Feed(old(State()), ds)
      {
        ok := Receive(ds[i]);
        assert ds[i..][1..] == ds[i + 1..];
        if !ok {
          return;
        }
        i := i + 1;
      }
    }

    method SendAll(ds: seq<Delta>)
      modifies this
      ensures State() == EmitAll(old(State()), ds)
    {
      for i := 0 to |ds|
        invariant EmitAll(State(), ds[i..]) == EmitAll(old(State()), ds)
      {
        var _ := Send(ds[i]);
        assert ds[i..][1..] == ds[i + 1..];
      }
    }

    method Close(success: bool, calls: nat, parse: string -> (string, nat)) returns (answer: string)
      modifies this
      ensures Outcome(State(), answer) == OnEnd(old(State()), success, calls, parse)
    {
      if !success {
        var _ := ReleaseAll();
        return "";
      }
      if sawNativeTools {
        var _ := ReleaseAll();
        SendAll(seq(calls, _ => ToolDelta(1)) + [FinishDelta("tool_calls")]);
        return "";
      }
      var (cleaned, sim) := SimulatedDeltas(content, parse);
      content := "";
      var text := [];
      if cleaned != "" {
        text := [TextDelta(cleaned)];
      }
      answer := emittedText + cleaned;
      SendAll(text + (seq(sim, _ => ToolDelta(1)) + [FinishDelta(if sim == 0 then "stop" else "tool_calls")]));
    }
  }
}
