/** The Anthropic event stream: deltas in, named events with numbered content
    blocks out. */
module AnthropicStream {
  import opened Base

  // ----- Deltas and events -----

  datatype Function = Function(name: string, args: string)

  datatype ToolDelta = ToolDelta(index: int, id: string, call: Option<Function>)

  datatype Delta = Delta(reasoning: string, content: string, toolCalls: seq<ToolDelta>)

  datatype Block = Thinking | Text | ToolUse(id: string, name: string)

  datatype Part = ThinkingPart(text: string) | SignaturePart | TextPart(text: string) | InputPart(json: string)

  datatype Event =
    | MessageStart
    | BlockStart(index: int, block: Block)
    | BlockDelta(index: int, part: Part)
    | BlockStop(index: int)
    | Error(kind: string)
    | MessageDelta(stopReason: string)
    | MessageStop

  // ----- What a client accepts -----

  /** A reader of the stream: how many blocks were opened, which are open, which
      of them are signed since their last thinking, and whether two were ever
      open at once. */
  datatype Client = Client(begun: bool, next: int, open: map<int, Block>, signed: set<int>, overlapped: bool,
                           closing: bool, ended: bool)

  predicate Fits(b: Block, p: Part) {
    match p
    case ThinkingPart(_) => b.Thinking?
    case SignaturePart => b.Thinking?
    case TextPart(_) => b.Text?
    case InputPart(_) => b.ToolUse?
  }

  /** The protocol: one start first; blocks open under 0, 1, 2, …, take only
      fitting deltas and only while open, and close once, a thinking block only
      when signed; when none is open one closing frame; then one stop, and
      nothing more. */
  function Read(c: Client, e: Event): Option<Client> {
    match e
    case MessageStart => if c.begun || c.closing then None else Some(c.(begun := true))
    case BlockStart(i, b) =>
      if c.begun && !c.closing && i == c.next
      then Some(c.(next := i + 1, open := c.open[i := b], overlapped := c.overlapped || c.open != map[]))
      else None
    case BlockDelta(i, p) =>
      if c.begun && !c.closing && i in c.open && Fits(c.open[i], p)
      then Some(c.(signed := if p.SignaturePart? then c.signed + {i} else c.signed - {i}))
      else None
    case BlockStop(i) =>
      if c.begun && !c.closing && i in c.open && (c.open[i].Thinking? ==> i in c.signed)
      then Some(c.(open := c.open - {i}))
      else None
    case Error(_) => if c.begun && !c.closing && c.open == map[] then Some(c.(closing := true)) else None
    case MessageDelta(_) => if c.begun && !c.closing && c.open == map[] then Some(c.(closing := true)) else None
    case MessageStop => if c.closing && !c.ended then Some(c.(ended := true)) else None
  }

  const FRESH: Client := Client(false, 0, map[], {}, false, false, false)

  function ReadAll(trace: seq<Event>): Option<Client> {
    if trace == [] then Some(FRESH)
    else
      match ReadAll(trace[..|trace| - 1])
      case None => None
      case Some(c) => Read(c, trace[|trace| - 1])
  }

  /** A complete, well-formed stream. */
  predicate Accepted(trace: seq<Event>) {
    ReadAll(trace).Some? && ReadAll(trace).value.ended
  }

  lemma ReadSnoc(trace: seq<Event>, e: Event)
    requires ReadAll(trace).Some?
    ensures ReadAll(trace + [e]) == Read(ReadAll(trace).value, e)
  {
    assert (trace + [e])[..|trace|] == trace;
    hide Read;
  }

  // ----- The emitter -----

  datatype Emitter = Emitter(
    thinkingOpen: bool, thinkingIndex: int, textOpen: bool, textIndex: int, nextIndex: int,
    sawTools: bool, toolIndexes: map<int, int>, toolOrder: seq<int>, out: seq<Event>)

  const INITIAL: Emitter := Emitter(false, -1, false, -1, 0, false, map[], [], [])

  function Write(s: Emitter, e: Event): Emitter {
    s.(out := s.out + [e])
  }

  /** `ensureStarted`: the stream has started once anything was written. */
  function Started(s: Emitter): Emitter {
    if s.out == [] then Write(s, MessageStart) else s
  }

  function CloseThinking(s: Emitter): Emitter {
    if !s.thinkingOpen then s
    else Write(Write(s, BlockDelta(s.thinkingIndex, SignaturePart)), BlockStop(s.thinkingIndex)).(thinkingOpen := false)
  }

  function CloseText(s: Emitter): Emitter {
    if !s.textOpen then s else Write(s, BlockStop(s.textIndex)).(textOpen := false)
  }

  function OpenThinking(s: Emitter): Emitter {
    if s.thinkingOpen then s
    else Write(s, BlockStart(s.nextIndex, Thinking)).(thinkingIndex := s.nextIndex, nextIndex := s.nextIndex + 1, thinkingOpen := true)
  }

  function OpenText(s: Emitter): Emitter {
    if s.textOpen then s
    else Write(s, BlockStart(s.nextIndex, Text)).(textIndex := s.nextIndex, nextIndex := s.nextIndex + 1, textOpen := true)
  }

  function NameOf(t: ToolDelta): string {
    if t.call.Some? then t.call.value.name else ""
  }

  function ArgsOf(t: ToolDelta): string {
    if t.call.Some? then t.call.value.args else ""
  }

  function OpenTool(s: Emitter, t: ToolDelta): Emitter {
    if t.index in s.toolIndexes then s
    else
      Write(s, BlockStart(s.nextIndex, ToolUse(t.id, NameOf(t))))
      .(toolIndexes := s.toolIndexes[t.index := s.nextIndex], toolOrder := s.toolOrder + [t.index], nextIndex := s.nextIndex + 1)
  }

  /** One delta is a run of pieces, handled in this order. */
  datatype Piece = Think(text: string) | Say(text: string) | Call(tool: ToolDelta)

  function Pieces(d: Delta): seq<Piece> {
    (if d.reasoning != "" then [Think(d.reasoning)] else [])
    + (if d.content != "" then [Say(d.content)] else [])
    + Calls(d.toolCalls)
  }

  function Calls(ts: seq<ToolDelta>): (r: seq<Piece>)
    ensures |r| == |ts| && forall i :: 0 <= i < |ts| ==> r[i] == Call(ts[i])
  {
    seq(|ts|, i requires 0 <= i < |ts| => Call(ts[i]))
  }

  function Step(s: Emitter, p: Piece): Emitter {
    match p
    case Think(text) =>
      var s1 := OpenThinking(CloseText(s));
      Write(s1, BlockDelta(s1.thinkingIndex, ThinkingPart(text)))
    case Say(text) =>
      var s1 := OpenText(CloseThinking(s));
      Write(s1, BlockDelta(s1.textIndex, TextPart(text)))
    case Call(t) =>
      var s1 := OpenTool(CloseText(CloseThinking(s)).(sawTools := true), t);
      if ArgsOf(t) == "" then s1 else Write(s1, BlockDelta(s1.toolIndexes[t.index], InputPart(ArgsOf(t))))
  }

  function Steps(s: Emitter, ps: seq<Piece>): Emitter {
    if ps == [] then s else Step(Steps(s, ps[..|ps| - 1]), ps[|ps| - 1])
  }

  function OnDelta(s: Emitter, d: Delta): Emitter {
    Steps(Started(s), Pieces(d))
  }

  function OnDeltas(ds: seq<Delta>): Emitter {
    if ds == [] then INITIAL else OnDelta(OnDeltas(ds[..|ds| - 1]), ds[|ds| - 1])
  }

  predicate Ordered(s: Emitter) {
    forall i :: 0 <= i < |s.toolOrder| ==> s.toolOrder[i] in s.toolIndexes
  }

  /** The stops of the tool blocks, in the order they were opened. */
  function CloseTools(s: Emitter, n: nat): Emitter
    requires n <= |s.toolOrder| && Ordered(s)
  {
    if n == 0 then s else Write(CloseTools(s, n - 1), BlockStop(s.toolIndexes[s.toolOrder[n - 1]]))
  }

  /** The end of the stream; `error` is the kind of the routing error, if any. */
  function Finish(s: Emitter, error: Option<string>): Emitter
    requires Ordered(s)
  {
    var s1 := if error.Some? then Started(s) else s;
    var s2 := CloseText(CloseThinking(s1));
    var s3 := CloseTools(s2, |s2.toolOrder|);
    match error
    case Some(kind) => Write(Write(s3, Error(kind)), MessageStop)
    case None => Write(Write(s3, MessageDelta(if s3.sawTools then "tool_use" else "end_turn")), MessageStop)
  }

  // ----- The invariant -----

  /** What the client has seen agrees with the emitter's flags, indexes and
      tool table. */
  ghost predicate Agrees(s: Emitter, c: Client) {
    && c.begun == (s.out != []) && c.next == s.nextIndex && !c.closing && !c.ended
    && (forall i :: i in c.open <==> Opened(s, i))
    && (s.thinkingOpen ==> s.thinkingIndex in c.open && c.open[s.thinkingIndex] == Thinking)
    && (s.textOpen ==> s.textIndex in c.open && c.open[s.textIndex] == Text)
    && (forall t :: t in s.toolIndexes ==> s.toolIndexes[t] in c.open && c.open[s.toolIndexes[t]].ToolUse?)
  }

  predicate IsTool(s: Emitter, i: int) {
    exists t :: t in s.toolIndexes && s.toolIndexes[t] == i
  }

  predicate Opened(s: Emitter, i: int) {
    (s.thinkingOpen && i == s.thinkingIndex) || (s.textOpen && i == s.textIndex) || IsTool(s, i)
  }

  /** The emitter's own bookkeeping. */
  ghost predicate Tidy(s: Emitter) {
    && s.nextIndex >= 0
    && !(s.thinkingOpen && s.textOpen)
    && (forall i :: Opened(s, i) ==> 0 <= i < s.nextIndex)
    && Ordered(s) && TableTidy(s.toolIndexes, s.toolOrder)
    && (s.sawTools <==> s.toolOrder != [])
    && (s.out == [] ==> s.toolOrder == [] && !s.thinkingOpen && !s.textOpen)
  }

  /** One block each, and the order lists every tool once. */
  ghost predicate TableTidy(indexes: map<int, int>, order: seq<int>) {
    && (forall t, u :: t in indexes && u in indexes && indexes[t] == indexes[u] ==> t == u)
    && (forall i, j :: 0 <= i < j < |order| ==> order[i] != order[j])
    && (forall t :: t in indexes ==> t in order)
  }

  ghost predicate Inv(s: Emitter) {
    Tidy(s) && ReadAll(s.out).Some? && Agrees(s, ReadAll(s.out).value)
  }

  /** Open blocks of different kinds have different indexes. */
  lemma KindsDiffer(s: Emitter, c: Client)
    requires Agrees(s, c)
    ensures s.thinkingOpen ==> !IsTool(s, s.thinkingIndex)
    ensures s.textOpen ==> !IsTool(s, s.textIndex)
  {
    hide Opened;
  }

  predicate Overlapped(s: Emitter) {
    ReadAll(s.out).Some? && ReadAll(s.out).value.overlapped
  }

  lemma CloseThinkingKeeps(s: Emitter)
    requires Inv(s)
    ensures Inv(CloseThinking(s))
    ensures Overlapped(CloseThinking(s)) == Overlapped(s)
  {
    if s.thinkingOpen {
      var c, i, r := ReadAll(s.out).value, s.thinkingIndex, CloseThinking(s);
      KindsDiffer(s, c);
      ReadSnoc(s.out, BlockDelta(i, SignaturePart));
      ReadSnoc(s.out + [BlockDelta(i, SignaturePart)], BlockStop(i));
      hide ReadAll;
      assert ReadAll(r.out) == Some(c.(open := c.open - {i}, signed := c.signed + {i}));
      SameTools(s, r);
      hide IsTool;
    }
  }

  lemma CloseTextKeeps(s: Emitter)
    requires Inv(s)
    ensures Inv(CloseText(s))
    ensures Overlapped(CloseText(s)) == Overlapped(s)
  {
    if s.textOpen {
      var c, i, r := ReadAll(s.out).value, s.textIndex, CloseText(s);
      KindsDiffer(s, c);
      ReadSnoc(s.out, BlockStop(i));
      hide ReadAll;
      assert ReadAll(r.out) == Some(c.(open := c.open - {i}));
      SameTools(s, r);
      hide IsTool;
    }
  }

  lemma SameTools(s: Emitter, r: Emitter)
    requires s.toolIndexes == r.toolIndexes
    ensures forall i :: IsTool(r, i) == IsTool(s, i)
  {
  }

  lemma SameOpened(s: Emitter, r: Emitter)
    requires r == s.(out := r.out, sawTools := r.sawTools)
    ensures forall i :: Opened(r, i) == Opened(s, i)
  {
    SameTools(s, r);
    hide IsTool;
  }

  /** A delta for an open block changes nothing the client or the emitter
      tracks. */
  lemma WritePartKeeps(s: Emitter, i: int, p: Part)
    requires Inv(s) && s.out != [] && ReadAll(s.out).Some? && i in ReadAll(s.out).value.open && Fits(ReadAll(s.out).value.open[i], p)
    ensures var r := Write(s, BlockDelta(i, p));
            Inv(r) && ReadAll(r.out).value == ReadAll(s.out).value.(signed := ReadAll(r.out).value.signed)
  {
    var r := Write(s, BlockDelta(i, p));
    ReadSnoc(s.out, BlockDelta(i, p));
    SameOpened(s, r);
    hide ReadAll, Opened;
  }

  /** What opening the next block does to the client. */
  lemma ReadOpen(s: Emitter, b: Block)
    requires Inv(s) && s.out != []
    ensures var c := ReadAll(s.out).value;
            ReadAll(s.out + [BlockStart(s.nextIndex, b)])
              == Some(c.(next := s.nextIndex + 1, open := c.open[s.nextIndex := b], overlapped := c.overlapped || c.open != map[]))
  {
    ReadSnoc(s.out, BlockStart(s.nextIndex, b));
    hide ReadAll;
  }

  lemma ToolOpen(s: Emitter, c: Client, t: int)
    requires Agrees(s, c) && t in s.toolIndexes
    ensures s.toolIndexes[t] in c.open && c.open[s.toolIndexes[t]].ToolUse?
  {
  }

  /** With no thinking and no text open, only tool blocks are. */
  lemma OnlyToolsOpen(s: Emitter)
    requires Inv(s) && !s.thinkingOpen && !s.textOpen
    ensures ReadAll(s.out).value.open == map[] <==> s.toolOrder == []
  {
    var c := ReadAll(s.out).value;
    hide ReadAll;
    if s.toolOrder != [] {
      ToolOpen(s, c, s.toolOrder[0]);
    } else {
      forall i ensures i !in c.open {
        assert !IsTool(s, i);
      }
    }
  }

  lemma OpenThinkingKeeps(s: Emitter)
    requires Inv(s) && s.out != [] && !s.textOpen
    ensures var r := OpenThinking(s);
            && Inv(r) && r.thinkingOpen && r.out != []
            && Overlapped(r) == (Overlapped(s) || (!s.thinkingOpen && s.toolOrder != []))
  {
    if !s.thinkingOpen {
      var r := OpenThinking(s);
      ReadOpen(s, Thinking);
      OnlyToolsOpen(s);
      hide ReadAll;
      SameTools(s, r);
      hide IsTool;
      assert forall i :: Opened(r, i) <==> Opened(s, i) || i == s.nextIndex;
    }
  }

  lemma OpenTextKeeps(s: Emitter)
    requires Inv(s) && s.out != [] && !s.thinkingOpen
    ensures var r := OpenText(s);
            && Inv(r) && r.textOpen && r.out != []
            && Overlapped(r) == (Overlapped(s) || (!s.textOpen && s.toolOrder != []))
  {
    if !s.textOpen {
      var r := OpenText(s);
      ReadOpen(s, Text);
      OnlyToolsOpen(s);
      hide ReadAll;
      SameTools(s, r);
      hide IsTool;
      assert forall i :: Opened(r, i) <==> Opened(s, i) || i == s.nextIndex;
    }
  }

  lemma NewToolOpens(s: Emitter, t: ToolDelta)
    requires Tidy(s) && t.index !in s.toolIndexes
    ensures forall i :: Opened(OpenTool(s, t), i) <==> Opened(s, i) || i == s.nextIndex
  {
    var r := OpenTool(s, t);
    forall i ensures IsTool(r, i) <==> IsTool(s, i) || i == s.nextIndex {
      if IsTool(s, i) {
        var u :| u in s.toolIndexes && s.toolIndexes[u] == i;
        assert r.toolIndexes[u] == i;
      }
      assert r.toolIndexes[t.index] == s.nextIndex;
    }
    hide IsTool;
  }

  lemma TableGrows(indexes: map<int, int>, order: seq<int>, t: int, next: int)
    requires TableTidy(indexes, order) && t !in indexes
    requires (forall i :: 0 <= i < |order| ==> order[i] in indexes) && forall u :: u in indexes ==> indexes[u] < next
    ensures TableTidy(indexes[t := next], order + [t])
  {
    assert forall i :: 0 <= i < |order| ==> order[i] != t;
  }

  lemma ToolsBelow(s: Emitter)
    requires Tidy(s)
    ensures forall u :: u in s.toolIndexes ==> s.toolIndexes[u] < s.nextIndex
  {
    hide TableTidy;
    forall u | u in s.toolIndexes ensures s.toolIndexes[u] < s.nextIndex {
      assert IsTool(s, s.toolIndexes[u]);
      assert Opened(s, s.toolIndexes[u]);
    }
  }

  lemma NewToolTidy(s: Emitter, t: ToolDelta)
    requires Tidy(s) && s.out != [] && t.index !in s.toolIndexes
    ensures Tidy(OpenTool(s, t).(sawTools := true))
  {
    var r := OpenTool(s, t);
    NewToolOpens(s, t);
    SameOpened(r, r.(sawTools := true));
    ToolsBelow(s);
    TableGrows(s.toolIndexes, s.toolOrder, t.index, s.nextIndex);
    hide Opened, IsTool, TableTidy;
  }

  lemma NewToolAgrees(s: Emitter, t: ToolDelta)
    requires Inv(s) && s.out != [] && t.index !in s.toolIndexes
    ensures var r := OpenTool(s, t).(sawTools := true);
            ReadAll(r.out).Some? && Agrees(r, ReadAll(r.out).value)
  {
    var r := OpenTool(s, t);
    ReadOpen(s, ToolUse(t.id, NameOf(t)));
    NewToolOpens(s, t);
    SameOpened(r, r.(sawTools := true));
    assert forall i :: Opened(s, i) ==> i < s.nextIndex;
    hide ReadAll, Opened, Tidy;
  }

  lemma OpenToolKeeps(s: Emitter, t: ToolDelta)
    requires Inv(s) && s.out != [] && !s.thinkingOpen && !s.textOpen
    ensures var r := OpenTool(s, t).(sawTools := true);
            && Inv(r) && r.out != [] && t.index in r.toolIndexes
            && Overlapped(r) == (Overlapped(s) || (t.index !in s.toolIndexes && s.toolOrder != []))
  {
    var r := OpenTool(s, t).(sawTools := true);
    if t.index in s.toolIndexes {
      assert s.toolOrder != [];
      SameOpened(s, r);
      hide ReadAll, Opened;
    } else {
      NewToolTidy(s, t);
      NewToolAgrees(s, t);
      ReadOpen(s, ToolUse(t.id, NameOf(t)));
      OnlyToolsOpen(s);
      hide ReadAll, Tidy, Agrees;
    }
  }

  /** Whether a piece opens a block. */
  predicate Opens(s: Emitter, p: Piece) {
    match p
    case Think(_) => !s.thinkingOpen
    case Say(_) => !s.textOpen
    case Call(t) => t.index !in s.toolIndexes
  }

  ghost predicate Kept(s: Emitter, p: Piece) {
    var r := Step(s, p);
    && Inv(r) && r.out != []
    && Overlapped(r) == (Overlapped(s) || (Opens(s, p) && s.toolOrder != []))
  }

  lemma ThinkKeeps(s: Emitter, text: string)
    requires Inv(s) && s.out != []
    ensures Kept(s, Think(text))
  {
    CloseTextKeeps(s);
    OpenThinkingKeeps(CloseText(s));
    var s1 := OpenThinking(CloseText(s));
    hide ReadAll, Opened, Tidy;
    WritePartKeeps(s1, s1.thinkingIndex, ThinkingPart(text));
  }

  lemma SayKeeps(s: Emitter, text: string)
    requires Inv(s) && s.out != []
    ensures Kept(s, Say(text))
  {
    CloseThinkingKeeps(s);
    OpenTextKeeps(CloseThinking(s));
    var s1 := OpenText(CloseThinking(s));
    hide ReadAll, Opened, Tidy;
    WritePartKeeps(s1, s1.textIndex, TextPart(text));
  }

  lemma CallKeeps(s: Emitter, t: ToolDelta)
    requires Inv(s) && s.out != []
    ensures Kept(s, Call(t))
  {
    CloseThinkingKeeps(s);
    CloseTextKeeps(CloseThinking(s));
    var s0 := CloseText(CloseThinking(s));
    OpenToolKeeps(s0, t);
    var s1 := OpenTool(s0, t).(sawTools := true);
    CallIs(s, t);
    hide OpenTool, CloseText, CloseThinking, Step, Inv, Overlapped;
    InputKeeps(s1, t);
  }

  lemma CallIs(s: Emitter, t: ToolDelta)
    ensures var s0 := CloseText(CloseThinking(s));
            var s1 := OpenTool(s0, t).(sawTools := true);
            && s0.toolIndexes == s.toolIndexes && s0.toolOrder == s.toolOrder && t.index in s1.toolIndexes
            && Step(s, Call(t)) == if ArgsOf(t) == "" then s1 else Write(s1, BlockDelta(s1.toolIndexes[t.index], InputPart(ArgsOf(t))))
  {
    var s0 := CloseText(CloseThinking(s));
    assert OpenTool(s0, t).(sawTools := true) == OpenTool(s0.(sawTools := true), t);
  }

  lemma InputKeeps(s: Emitter, t: ToolDelta)
    requires Inv(s) && s.out != [] && t.index in s.toolIndexes
    ensures var r := if ArgsOf(t) == "" then s else Write(s, BlockDelta(s.toolIndexes[t.index], InputPart(ArgsOf(t))));
            Inv(r) && r.out != [] && Overlapped(r) == Overlapped(s)
  {
    if ArgsOf(t) != "" {
      hide ReadAll, Opened, Tidy;
      WritePartKeeps(s, s.toolIndexes[t.index], InputPart(ArgsOf(t)));
    }
  }

  lemma StepKeeps(s: Emitter, p: Piece)
    requires Inv(s) && s.out != []
    ensures Kept(s, p)
  {
    hide *;
    match p
    case Think(text) => ThinkKeeps(s, text);
    case Say(text) => SayKeeps(s, text);
    case Call(t) => CallKeeps(s, t);
  }

  // ----- Runs -----

  lemma StepsSnoc(s: Emitter, ps: seq<Piece>, p: Piece)
    ensures Steps(s, ps + [p]) == Step(Steps(s, ps), p)
  {
    assert (ps + [p])[..|ps|] == ps;
    hide Step;
  }

  lemma {:induction false} StepsAppend(s: Emitter, a: seq<Piece>, b: seq<Piece>)
    ensures Steps(s, a + b) == Steps(Steps(s, a), b)
    decreases |b|
  {
    hide Step;
    if b == [] {
      assert a + b == a;
    } else {
      var n := |b| - 1;
      assert (a + b)[..|a + b| - 1] == a + b[..n];
      StepsAppend(s, a, b[..n]);
    }
  }

  lemma {:induction false} StepsKeep(s: Emitter, ps: seq<Piece>)
    requires Inv(s) && s.out != []
    ensures Inv(Steps(s, ps)) && Steps(s, ps).out != []
    decreases |ps|
  {
    hide Step, Inv;
    if ps != [] {
      var n := |ps| - 1;
      StepsKeep(s, ps[..n]);
      StepKeeps(Steps(s, ps[..n]), ps[n]);
    }
  }

  function PiecesOf(ds: seq<Delta>): seq<Piece> {
    if ds == [] then [] else PiecesOf(ds[..|ds| - 1]) + Pieces(ds[|ds| - 1])
  }

  lemma StartedIs()
    ensures Inv(INITIAL) && Inv(Started(INITIAL)) && Started(INITIAL).out == [MessageStart]
    ensures ReadAll([MessageStart]) == Some(FRESH.(begun := true))
  {
    assert ReadAll([]) == Some(FRESH);
    ReadSnoc([], MessageStart);
    assert [] + [MessageStart] == [MessageStart];
    hide ReadAll;
  }

  /** The first delta starts the stream; after that deltas are just their
      pieces. */
  lemma {:induction false} DeltasAreSteps(ds: seq<Delta>)
    requires ds != []
    ensures OnDeltas(ds) == Steps(Started(INITIAL), PiecesOf(ds))
    decreases |ds|
  {
    var n := |ds| - 1;
    var start := Started(INITIAL);
    StartedIs();
    if n == 0 {
      assert ds[..n] == [] && OnDeltas([]) == INITIAL && PiecesOf([]) == [];
      assert [] + Pieces(ds[0]) == Pieces(ds[0]);
      hide Steps, Pieces, Inv, ReadAll;
    } else {
      var before, more := PiecesOf(ds[..n]), Pieces(ds[n]);
      assert PiecesOf(ds) == before + more;
      assert OnDeltas(ds) == Steps(Started(OnDeltas(ds[..n])), more) by {
        hide Steps, Pieces;
      }
      hide Steps, Pieces, Inv, ReadAll, PiecesOf, OnDeltas;
      DeltasAreSteps(ds[..n]);
      StepsKeep(start, before);
      StepsAppend(start, before, more);
    }
  }

  lemma DeltasKeep(ds: seq<Delta>)
    ensures Inv(OnDeltas(ds)) && (OnDeltas(ds).out != [] <==> ds != [])
  {
    StartedIs();
    hide Inv, Steps, ReadAll;
    if ds != [] {
      DeltasAreSteps(ds);
      StepsKeep(Started(INITIAL), PiecesOf(ds));
    }
  }

  // ----- The end -----

  predicate LeftOpen(s: Emitter, n: nat, i: int)
    requires Ordered(s)
  {
    exists k :: n <= k < |s.toolOrder| && s.toolIndexes[s.toolOrder[k]] == i
  }

  lemma ToolsAreOrdered(s: Emitter, i: int)
    requires Tidy(s)
    ensures IsTool(s, i) <==> LeftOpen(s, 0, i)
  {
    if IsTool(s, i) {
      var t :| t in s.toolIndexes && s.toolIndexes[t] == i;
      var k :| 0 <= k < |s.toolOrder| && s.toolOrder[k] == t;
    }
    if LeftOpen(s, 0, i) {
      var k :| 0 <= k < |s.toolOrder| && s.toolIndexes[s.toolOrder[k]] == i;
      var t := s.toolOrder[k];
      assert t in s.toolIndexes && s.toolIndexes[t] == i;
    }
  }

  lemma SameIndexSameTool(s: Emitter, t: int, u: int)
    requires Tidy(s) && t in s.toolIndexes && u in s.toolIndexes
    ensures s.toolIndexes[t] == s.toolIndexes[u] ==> t == u
  {
  }

  lemma NextLeft(s: Emitter, n: nat, i: int)
    requires Tidy(s) && n < |s.toolOrder|
    ensures LeftOpen(s, n + 1, i) <==> LeftOpen(s, n, i) && i != s.toolIndexes[s.toolOrder[n]]
    ensures LeftOpen(s, n, s.toolIndexes[s.toolOrder[n]])
  {
    hide Opened;
    forall k | n < k < |s.toolOrder| ensures s.toolIndexes[s.toolOrder[k]] != s.toolIndexes[s.toolOrder[n]] {
      SameIndexSameTool(s, s.toolOrder[k], s.toolOrder[n]);
    }
  }

  lemma {:induction false} ToolsClose(s: Emitter, n: nat)
    requires Inv(s) && s.out != [] && !s.thinkingOpen && !s.textOpen && n <= |s.toolOrder|
    ensures var r, c := CloseTools(s, n), ReadAll(s.out).value;
            && r == s.(out := r.out) && ReadAll(r.out).Some?
            && var d := ReadAll(r.out).value;
               && d == c.(open := d.open) && (forall i :: i in d.open <==> LeftOpen(s, n, i))
               && (forall i :: i in d.open ==> d.open[i].ToolUse?)
  {
    hide ReadAll, Opened, IsTool, LeftOpen;
    if n == 0 {
      forall i ensures i in ReadAll(s.out).value.open <==> LeftOpen(s, 0, i) {
        ToolsAreOrdered(s, i);
        assert Opened(s, i) <==> IsTool(s, i) by { OpenedIsTool(s, i); }
      }
      forall i | i in ReadAll(s.out).value.open ensures ReadAll(s.out).value.open[i].ToolUse? {
        OpenedIsTool(s, i);
        ToolKind(s, ReadAll(s.out).value, i);
      }
    } else {
      ToolsClose(s, n - 1);
      var r := CloseTools(s, n - 1);
      forall i
        ensures LeftOpen(s, n, i) <==> LeftOpen(s, n - 1, i) && i != s.toolIndexes[s.toolOrder[n - 1]]
      {
        NextLeft(s, n - 1, i);
      }
      NextLeft(s, n - 1, 0);
      ReadSnoc(r.out, BlockStop(s.toolIndexes[s.toolOrder[n - 1]]));
    }
  }

  lemma ToolKind(s: Emitter, c: Client, i: int)
    requires Agrees(s, c) && IsTool(s, i)
    ensures i in c.open && c.open[i].ToolUse?
  {
    hide Opened;
  }

  lemma OpenedIsTool(s: Emitter, i: int)
    requires !s.thinkingOpen && !s.textOpen
    ensures Opened(s, i) <==> IsTool(s, i)
  {
  }

  /** Everything is closed and the last two frames end the stream. */
  lemma EndAccepted(s: Emitter, e: Event)
    requires Inv(s) && s.out != [] && !s.thinkingOpen && !s.textOpen && (e.Error? || e.MessageDelta?)
    ensures Accepted(CloseTools(s, |s.toolOrder|).out + [e] + [MessageStop])
    ensures var tr := CloseTools(s, |s.toolOrder|).out + [e] + [MessageStop];
            ReadAll(tr).value.overlapped == ReadAll(s.out).value.overlapped
  {
    var n := |s.toolOrder|;
    ToolsClose(s, n);
    var out := CloseTools(s, n).out;
    var d := ReadAll(out).value;
    assert d.open == map[] by {
      forall i ensures i !in d.open {
        assert !LeftOpen(s, n, i);
      }
    }
    hide LeftOpen, Opened;
    ReadSnoc(out, e);
    ReadSnoc(out + [e], MessageStop);
    hide ReadAll, CloseTools;
  }

  lemma NeverStarted(e: Event)
    requires e.MessageDelta?
    ensures ReadAll([] + [e] + [MessageStop]) == None
  {
    assert ReadAll([]) == Some(FRESH);
    ReadSnoc([], e);
    hide ReadAll;
    StuckStays([] + [e], MessageStop);
  }

  lemma StuckStays(trace: seq<Event>, e: Event)
    requires ReadAll(trace) == None
    ensures ReadAll(trace + [e]) == None
  {
    assert (trace + [e])[..|trace|] == trace;
    hide Read;
  }

  lemma FinishAccepted(s: Emitter, error: Option<string>)
    requires Inv(s)
    ensures Accepted(Finish(s, error).out) <==> error.Some? || s.out != []
    ensures s.out != [] ==> ReadAll(Finish(s, error).out).Some? && ReadAll(Finish(s, error).out).value.overlapped == Overlapped(s)
  {
    var s1 := if error.Some? then Started(s) else s;
    var s2 := CloseText(CloseThinking(s1));
    if s1.out != [] {
      assert Inv(s1) by { StartedKeeps(s); }
      CloseThinkingKeeps(s1);
      CloseTextKeeps(CloseThinking(s1));
      var e := if error.Some? then Error(error.value) else MessageDelta(if s2.sawTools then "tool_use" else "end_turn");
      EndAccepted(s2, e);
      FinishIs(s, error, e);
      hide ReadAll, CloseTools, CloseText, CloseThinking, Finish, Started;
    } else {
      NeverStarted(MessageDelta("end_turn"));
      hide ReadAll;
    }
  }

  lemma StartedKeeps(s: Emitter)
    requires Inv(s)
    ensures Inv(Started(s)) && (s.out != [] ==> Started(s) == s)
  {
    if s.out == [] {
      StartedIs();
      assert ReadAll([]) == Some(FRESH);
      SameOpened(s, Started(s));
      assert s.out + [MessageStart] == [MessageStart];
      hide ReadAll, Opened;
    }
  }

  lemma {:induction false} CloseToolsKeepsRest(s: Emitter, n: nat)
    requires n <= |s.toolOrder| && Ordered(s)
    ensures CloseTools(s, n) == s.(out := CloseTools(s, n).out)
  {
    if n > 0 {
      CloseToolsKeepsRest(s, n - 1);
    }
  }

  lemma FinishIs(s: Emitter, error: Option<string>, e: Event)
    requires Ordered(s)
    requires var s1 := if error.Some? then Started(s) else s;
             e == if error.Some? then Error(error.value) else MessageDelta(if s1.sawTools then "tool_use" else "end_turn")
    ensures var s2 := CloseText(CloseThinking(if error.Some? then Started(s) else s));
            Ordered(s2) && Finish(s, error).out == CloseTools(s2, |s2.toolOrder|).out + [e] + [MessageStop]
  {
    var s2 := CloseText(CloseThinking(if error.Some? then Started(s) else s));
    CloseToolsKeepsRest(s2, |s2.toolOrder|);
  }

  // ----- What the blocks say -----

  /** Text a client joins from the text deltas. */
  function TextOf(tr: seq<Event>): string {
    if tr == [] then "" else TextOf(tr[..|tr| - 1]) + TextIn(tr[|tr| - 1])
  }

  function TextIn(e: Event): string {
    if e.BlockDelta? && e.part.TextPart? then e.part.text else ""
  }

  function ThinkingOf(tr: seq<Event>): string {
    if tr == [] then "" else ThinkingOf(tr[..|tr| - 1]) + ThinkingIn(tr[|tr| - 1])
  }

  function ThinkingIn(e: Event): string {
    if e.BlockDelta? && e.part.ThinkingPart? then e.part.text else ""
  }

  /** Arguments a client joins for one block. */
  function InputOf(tr: seq<Event>, i: int): string {
    if tr == [] then "" else InputOf(tr[..|tr| - 1], i) + InputIn(tr[|tr| - 1], i)
  }

  function InputIn(e: Event, i: int): string {
    if e.BlockDelta? && e.part.InputPart? && e.index == i then e.part.json else ""
  }

  lemma Joined(tr: seq<Event>, e: Event)
    ensures TextOf(tr + [e]) == TextOf(tr) + TextIn(e) && ThinkingOf(tr + [e]) == ThinkingOf(tr) + ThinkingIn(e)
    ensures forall i :: InputOf(tr + [e], i) == InputOf(tr, i) + InputIn(e, i)
  {
    assert (tr + [e])[..|tr|] == tr;
    hide TextIn, ThinkingIn, InputIn;
  }

  /** What the upstream deltas say. */
  function ContentOf(ds: seq<Delta>): string {
    if ds == [] then "" else ContentOf(ds[..|ds| - 1]) + ds[|ds| - 1].content
  }

  function ReasoningOf(ds: seq<Delta>): string {
    if ds == [] then "" else ReasoningOf(ds[..|ds| - 1]) + ds[|ds| - 1].reasoning
  }

  /** Arguments sent for one tool call. */
  function ArgsFor(ds: seq<Delta>, t: int): string {
    if ds == [] then "" else ArgsFor(ds[..|ds| - 1], t) + CallArgs(ds[|ds| - 1].toolCalls, t)
  }

  function CallArgs(ts: seq<ToolDelta>, t: int): string {
    if ts == [] then ""
    else CallArgs(ts[..|ts| - 1], t) + (if ts[|ts| - 1].index == t then ArgsOf(ts[|ts| - 1]) else "")
  }

  function SaidIn(p: Piece): string {
    if p.Say? then p.text else ""
  }

  function ThoughtIn(p: Piece): string {
    if p.Think? then p.text else ""
  }

  function ArgsIn(p: Piece, t: int): string {
    if p.Call? && p.tool.index == t then ArgsOf(p.tool) else ""
  }

  ghost predicate SameWords(a: seq<Event>, b: seq<Event>) {
    TextOf(a) == TextOf(b) && ThinkingOf(a) == ThinkingOf(b) && forall i :: InputOf(a, i) == InputOf(b, i)
  }

  /** A frame that carries no text, thinking or arguments. */
  predicate Silent(e: Event) {
    !e.BlockDelta? || e.part.SignaturePart?
  }

  lemma SilentSame(tr: seq<Event>, e: Event)
    requires Silent(e)
    ensures SameWords(tr, tr + [e]) && SameWords(tr, tr)
  {
    Joined(tr, e);
    hide TextOf, ThinkingOf, InputOf;
  }

  lemma SameTrans(a: seq<Event>, b: seq<Event>, c: seq<Event>)
    requires SameWords(a, b) && SameWords(b, c)
    ensures SameWords(a, c)
  {
    hide TextOf, ThinkingOf, InputOf;
  }

  lemma ClosingIsSilent(s: Emitter)
    ensures SameWords(s.out, CloseThinking(s).out) && SameWords(s.out, CloseText(s).out)
  {
    var e, f := BlockDelta(s.thinkingIndex, SignaturePart), BlockStop(s.thinkingIndex);
    SilentSame(s.out, e);
    SilentSame(s.out + [e], f);
    SilentSame(s.out, BlockStop(s.textIndex));
    SameTrans(s.out, s.out + [e], s.out + [e] + [f]);
    hide SameWords;
  }

  lemma OpeningIsSilent(s: Emitter, t: ToolDelta)
    ensures SameWords(s.out, OpenThinking(s).out) && SameWords(s.out, OpenText(s).out) && SameWords(s.out, OpenTool(s, t).out)
  {
    SilentSame(s.out, BlockStart(s.nextIndex, Thinking));
    SilentSame(s.out, BlockStart(s.nextIndex, Text));
    SilentSame(s.out, BlockStart(s.nextIndex, ToolUse(t.id, NameOf(t))));
    hide SameWords;
  }

  /** The words after a piece. */
  lemma StepSays(s: Emitter, p: Piece)
    ensures var r := Step(s, p);
            && TextOf(r.out) == TextOf(s.out) + SaidIn(p) && ThinkingOf(r.out) == ThinkingOf(s.out) + ThoughtIn(p)
            && (p.Call? ==> p.tool.index in r.toolIndexes)
            && forall i :: InputOf(r.out, i) == InputOf(s.out, i) + (if p.Call? && r.toolIndexes[p.tool.index] == i then ArgsOf(p.tool) else "")
  {
    hide TextOf, ThinkingOf, InputOf;
    var nobody := ToolDelta(0, "", None);
    ClosingIsSilent(s);
    match p
    case Think(text) => {
      var s1 := CloseText(s);
      OpeningIsSilent(s1, nobody);
      var s2 := OpenThinking(s1);
      Joined(s2.out, BlockDelta(s2.thinkingIndex, ThinkingPart(text)));
      hide OpenThinking, CloseText;
    }
    case Say(text) => {
      var s1 := CloseThinking(s);
      OpeningIsSilent(s1, nobody);
      var s2 := OpenText(s1);
      Joined(s2.out, BlockDelta(s2.textIndex, TextPart(text)));
      hide OpenText, CloseThinking;
    }
    case Call(t) => {
      var s1 := CloseThinking(s);
      ClosingIsSilent(s1);
      var s2 := CloseText(s1).(sawTools := true);
      OpeningIsSilent(s2, t);
      var s3 := OpenTool(s2, t);
      assert t.index in s3.toolIndexes;
      if ArgsOf(t) != "" {
        Joined(s3.out, BlockDelta(s3.toolIndexes[t.index], InputPart(ArgsOf(t))));
      }
      hide OpenTool, CloseText, CloseThinking;
    }
  }

  /** What a piece does to the tool table and the next index. */
  lemma StepTools(s: Emitter, p: Piece)
    ensures var r := Step(s, p);
            && r.nextIndex >= s.nextIndex
            && (if p.Call? && p.tool.index !in s.toolIndexes
                then r.toolIndexes == s.toolIndexes[p.tool.index := s.nextIndex] && r.nextIndex > s.nextIndex
                     && r.toolOrder == s.toolOrder + [p.tool.index]
                else r.toolIndexes == s.toolIndexes && r.toolOrder == s.toolOrder)
            && (r.thinkingOpen || r.textOpen ==> !p.Call?)
  {
  }

  function Said(ps: seq<Piece>): string {
    if ps == [] then "" else Said(ps[..|ps| - 1]) + SaidIn(ps[|ps| - 1])
  }

  function Thought(ps: seq<Piece>): string {
    if ps == [] then "" else Thought(ps[..|ps| - 1]) + ThoughtIn(ps[|ps| - 1])
  }

  function Args(ps: seq<Piece>, t: int): string {
    if ps == [] then "" else Args(ps[..|ps| - 1], t) + ArgsIn(ps[|ps| - 1], t)
  }

  predicate CallsTool(ps: seq<Piece>, t: int) {
    exists i :: 0 <= i < |ps| && ps[i].Call? && ps[i].tool.index == t
  }

  /** A tool's arguments so far are what its block received, if it has one. */
  ghost predicate InputTold(s: Emitter, ps: seq<Piece>, t: int) {
    && (t in s.toolIndexes <==> CallsTool(ps, t))
    && (if t in s.toolIndexes then s.toolIndexes[t] < s.nextIndex && InputOf(s.out, s.toolIndexes[t]) == Args(ps, t)
        else Args(ps, t) == "")
  }

  /** Text and reasoning so far, and each tool's arguments under its own block. */
  ghost predicate Told(s: Emitter, ps: seq<Piece>) {
    && TextOf(s.out) == Said(ps) && ThinkingOf(s.out) == Thought(ps)
    && (forall t :: InputTold(s, ps, t))
    && (forall i :: i >= s.nextIndex ==> InputOf(s.out, i) == "")
  }

  lemma PiecesSnoc(ps: seq<Piece>, p: Piece)
    ensures Said(ps + [p]) == Said(ps) + SaidIn(p) && Thought(ps + [p]) == Thought(ps) + ThoughtIn(p)
    ensures forall t :: Args(ps + [p], t) == Args(ps, t) + ArgsIn(p, t)
    ensures forall t :: CallsTool(ps + [p], t) <==> CallsTool(ps, t) || (p.Call? && p.tool.index == t)
  {
    var now := ps + [p];
    assert now[..|ps|] == ps && now[|ps|] == p;
    forall t ensures CallsTool(now, t) <==> CallsTool(ps, t) || (p.Call? && p.tool.index == t) {
      if CallsTool(ps, t) {
        var i :| 0 <= i < |ps| && ps[i].Call? && ps[i].tool.index == t;
        assert now[i] == ps[i];
      }
    }
    hide SaidIn, ThoughtIn, ArgsIn;
  }

  lemma StepInput(s: Emitter, ps: seq<Piece>, p: Piece, t: int)
    requires InputTold(s, ps, t) && (forall i :: i >= s.nextIndex ==> InputOf(s.out, i) == "") && Tidy(s)
    ensures InputTold(Step(s, p), ps + [p], t)
  {
    StepSays(s, p);
    StepTools(s, p);
    PiecesSnoc(ps, p);
    if p.Call? && t in s.toolIndexes && p.tool.index in s.toolIndexes {
      SameIndexSameTool(s, t, p.tool.index);
    }
    hide TextOf, ThinkingOf, InputOf, Said, Thought, Args, CallsTool, Step, Tidy;
  }

  lemma StepFresh(s: Emitter, p: Piece, ps: seq<Piece>)
    requires (forall i :: i >= s.nextIndex ==> InputOf(s.out, i) == "") && (p.Call? ==> InputTold(s, ps, p.tool.index))
    ensures forall i :: i >= Step(s, p).nextIndex ==> InputOf(Step(s, p).out, i) == ""
  {
    StepSays(s, p);
    StepTools(s, p);
    hide TextOf, ThinkingOf, InputOf, Args, CallsTool, Step;
  }

  lemma StepTold(s: Emitter, ps: seq<Piece>, p: Piece)
    requires Told(s, ps) && Tidy(s)
    ensures Told(Step(s, p), ps + [p])
  {
    var r := Step(s, p);
    assert p.Call? ==> InputTold(s, ps, p.tool.index);
    StepFresh(s, p, ps);
    StepSays(s, p);
    PiecesSnoc(ps, p);
    hide TextOf, ThinkingOf, InputOf, Said, Thought, Args, CallsTool, Step, Tidy, InputTold;
    forall t ensures InputTold(r, ps + [p], t) {
      StepInput(s, ps, p, t);
    }
  }

  lemma {:induction false} StepsTell(ps: seq<Piece>)
    ensures Told(Steps(Started(INITIAL), ps), ps)
    decreases |ps|
  {
    StartedIs();
    if ps == [] {
      StartSaysNothing();
    } else {
      var n := |ps| - 1;
      assert ps[..n] + [ps[n]] == ps;
      StepsKeep(Started(INITIAL), ps[..n]);
      hide Step, Told, Agrees, ReadAll, Tidy, Started;
      StepsTell(ps[..n]);
      StepTold(Steps(Started(INITIAL), ps[..n]), ps[..n], ps[n]);
    }
  }

  lemma StartSaysNothing()
    ensures Told(Started(INITIAL), [])
  {
    Joined([], MessageStart);
    assert [] + [MessageStart] == [MessageStart] == Started(INITIAL).out;
  }

  lemma {:induction false} StopsAreSilent(s: Emitter, n: nat)
    requires n <= |s.toolOrder| && Ordered(s)
    ensures SameWords(s.out, CloseTools(s, n).out)
  {
    hide SameWords;
    if n == 0 {
      SilentSame(s.out, MessageStop);
    } else {
      StopsAreSilent(s, n - 1);
      var r := CloseTools(s, n - 1);
      var e := BlockStop(s.toolIndexes[s.toolOrder[n - 1]]);
      SilentSame(r.out, e);
      SameTrans(s.out, r.out, r.out + [e]);
    }
  }

  lemma ClosedSaysNothing(s: Emitter)
    ensures SameWords(s.out, CloseText(CloseThinking(s)).out)
  {
    ClosingIsSilent(s);
    ClosingIsSilent(CloseThinking(s));
    hide SameWords, CloseThinking, CloseText;
    SameTrans(s.out, CloseThinking(s).out, CloseText(CloseThinking(s)).out);
  }

  lemma TwoFramesSayNothing(tr: seq<Event>, e: Event, f: Event)
    requires Silent(e) && Silent(f)
    ensures SameWords(tr, tr + [e] + [f])
  {
    SilentSame(tr, e);
    SilentSame(tr + [e], f);
    SameTrans(tr, tr + [e], tr + [e] + [f]);
  }

  lemma FinishSaysNothing(s: Emitter, error: Option<string>)
    requires Ordered(s)
    ensures SameWords(s.out, Finish(s, error).out)
  {
    hide SameWords, CloseTools, Finish;
    var s1 := if error.Some? then Started(s) else s;
    var s2 := CloseText(CloseThinking(s1));
    var out := CloseTools(s2, |s2.toolOrder|).out;
    var e := if error.Some? then Error(error.value) else MessageDelta(if s1.sawTools then "tool_use" else "end_turn");
    FinishIs(s, error, e);
    SilentSame(s.out, MessageStart);
    ClosedSaysNothing(s1);
    StopsAreSilent(s2, |s2.toolOrder|);
    TwoFramesSayNothing(out, e, MessageStop);
    hide *;
    SameTrans(s.out, s1.out, s2.out);
    SameTrans(s.out, s2.out, out);
    SameTrans(s.out, out, out + [e] + [MessageStop]);
  }

  // ----- Pieces and deltas say the same -----

  lemma {:induction false} SaidAppend(a: seq<Piece>, b: seq<Piece>)
    ensures Said(a + b) == Said(a) + Said(b) && Thought(a + b) == Thought(a) + Thought(b)
    decreases |b|
  {
    if b == [] {
      assert a + b == a;
    } else {
      var n := |b| - 1;
      assert a + b == (a + b[..n]) + [b[n]] && b == b[..n] + [b[n]];
      SaidAppend(a, b[..n]);
      PiecesSnoc(a + b[..n], b[n]);
      PiecesSnoc(b[..n], b[n]);
      hide *;
    }
  }

  lemma {:induction false} ArgsAppend(a: seq<Piece>, b: seq<Piece>, t: int)
    ensures Args(a + b, t) == Args(a, t) + Args(b, t)
    decreases |b|
  {
    if b == [] {
      assert a + b == a;
    } else {
      var n := |b| - 1;
      assert a + b == (a + b[..n]) + [b[n]] && b == b[..n] + [b[n]];
      ArgsAppend(a, b[..n], t);
      PiecesSnoc(a + b[..n], b[n]);
      PiecesSnoc(b[..n], b[n]);
      hide *;
    }
  }

  lemma {:induction false} CallsSay(ts: seq<ToolDelta>, t: int)
    ensures Said(Calls(ts)) == "" && Thought(Calls(ts)) == "" && Args(Calls(ts), t) == CallArgs(ts, t)
    decreases |ts|
  {
    if ts == [] {
      assert Calls(ts) == [];
    } else {
      var n := |ts| - 1;
      CallsSay(ts[..n], t);
      assert Calls(ts) == Calls(ts[..n]) + [Call(ts[n])];
      PiecesSnoc(Calls(ts[..n]), Call(ts[n]));
      hide Said, Thought, Args, Calls, CallsTool;
    }
  }

  lemma OptionalPieceSays(p: Piece, present: bool, t: int)
    ensures var ps := if present then [p] else [];
            && Said(ps) == (if present then SaidIn(p) else "")
            && Thought(ps) == (if present then ThoughtIn(p) else "")
            && Args(ps, t) == (if present then ArgsIn(p, t) else "")
  {
    PiecesSnoc([], p);
    assert [] + [p] == [p];
    assert Said([]) == "" && Thought([]) == "" && Args([], t) == "";
    hide Said, Thought, Args, SaidIn, ThoughtIn, ArgsIn;
  }

  lemma PiecesSay(d: Delta, t: int)
    ensures Said(Pieces(d)) == d.content && Thought(Pieces(d)) == d.reasoning && Args(Pieces(d), t) == CallArgs(d.toolCalls, t)
  {
    var think, say := Think(d.reasoning), Say(d.content);
    var a, b, c := if d.reasoning != "" then [think] else [], if d.content != "" then [say] else [], Calls(d.toolCalls);
    OptionalPieceSays(think, d.reasoning != "", t);
    OptionalPieceSays(say, d.content != "", t);
    assert SaidIn(say) == d.content && ThoughtIn(think) == d.reasoning;
    assert SaidIn(think) == ThoughtIn(say) == ArgsIn(think, t) == ArgsIn(say, t) == "";
    CallsSay(d.toolCalls, t);
    SaidAppend(a + b, c);
    SaidAppend(a, b);
    ArgsAppend(a + b, c, t);
    ArgsAppend(a, b, t);
    assert Pieces(d) == a + b + c;
    hide *;
    assert Said(a) == "" && Said(c) == "" && Thought(b) == "" && Thought(c) == "";
  }

  lemma {:induction false} DeltasSay(ds: seq<Delta>, t: int)
    ensures var ps := PiecesOf(ds);
            Said(ps) == ContentOf(ds) && Thought(ps) == ReasoningOf(ds) && Args(ps, t) == ArgsFor(ds, t)
    decreases |ds|
  {
    if ds != [] {
      var n := |ds| - 1;
      hide Said, Thought, Args, Pieces, CallArgs;
      DeltasSay(ds[..n], t);
      PiecesSay(ds[n], t);
      SaidAppend(PiecesOf(ds[..n]), Pieces(ds[n]));
      ArgsAppend(PiecesOf(ds[..n]), Pieces(ds[n]), t);
    }
  }

  // ----- What the tool blocks are called -----

  /** The block started under an index. */
  function BlockOf(tr: seq<Event>, i: int): Option<Block> {
    if tr == [] then None
    else if tr[|tr| - 1].BlockStart? && tr[|tr| - 1].index == i then Some(tr[|tr| - 1].block)
    else BlockOf(tr[..|tr| - 1], i)
  }

  ghost predicate SameBlocks(a: seq<Event>, b: seq<Event>) {
    forall i :: BlockOf(a, i) == BlockOf(b, i)
  }

  lemma BlocksSnoc(tr: seq<Event>, e: Event)
    ensures forall i :: BlockOf(tr + [e], i) == if e.BlockStart? && e.index == i then Some(e.block) else BlockOf(tr, i)
    ensures !e.BlockStart? ==> SameBlocks(tr, tr + [e])
  {
    assert (tr + [e])[..|tr|] == tr;
  }

  lemma ClosingStartsNothing(s: Emitter)
    ensures SameBlocks(s.out, CloseThinking(s).out) && SameBlocks(s.out, CloseText(s).out)
  {
    var e, f := BlockDelta(s.thinkingIndex, SignaturePart), BlockStop(s.thinkingIndex);
    BlocksSnoc(s.out, e);
    BlocksSnoc(s.out + [e], f);
    BlocksSnoc(s.out, BlockStop(s.textIndex));
    hide BlockOf;
  }

  /** Only the next index gets a block; a new tool's carries its id and name. */
  lemma StepBlocks(s: Emitter, p: Piece)
    ensures var r := Step(s, p);
            && (forall i :: i != s.nextIndex ==> BlockOf(r.out, i) == BlockOf(s.out, i))
            && (p.Call? && p.tool.index !in s.toolIndexes ==> BlockOf(r.out, s.nextIndex) == Some(ToolUse(p.tool.id, NameOf(p.tool))))
  {
    ClosingStartsNothing(s);
    match p
    case Think(text) => {
      var s1 := CloseText(s);
      var s2 := OpenThinking(s1);
      BlocksSnoc(s1.out, BlockStart(s1.nextIndex, Thinking));
      BlocksSnoc(s2.out, BlockDelta(s2.thinkingIndex, ThinkingPart(text)));
      hide BlockOf;
    }
    case Say(text) => {
      var s1 := CloseThinking(s);
      var s2 := OpenText(s1);
      BlocksSnoc(s1.out, BlockStart(s1.nextIndex, Text));
      BlocksSnoc(s2.out, BlockDelta(s2.textIndex, TextPart(text)));
      hide BlockOf;
    }
    case Call(t) => {
      var s1 := CloseThinking(s);
      ClosingStartsNothing(s1);
      var s2 := CloseText(s1).(sawTools := true);
      var s3 := OpenTool(s2, t);
      BlocksSnoc(s2.out, BlockStart(s2.nextIndex, ToolUse(t.id, NameOf(t))));
      if ArgsOf(t) != "" {
        BlocksSnoc(s3.out, BlockDelta(s3.toolIndexes[t.index], InputPart(ArgsOf(t))));
      }
      hide BlockOf, CloseText, CloseThinking, NameOf, ArgsOf;
    }
  }

  /** The first call of a tool. */
  function FirstCall(ps: seq<Piece>, t: int): Option<ToolDelta> {
    if ps == [] then None
    else
      var before, p := FirstCall(ps[..|ps| - 1], t), ps[|ps| - 1];
      if before.None? && p.Call? && p.tool.index == t then Some(p.tool) else before
  }

  lemma FirstSnoc(ps: seq<Piece>, p: Piece)
    ensures forall t :: (FirstCall(ps + [p], t)
              == if FirstCall(ps, t).None? && p.Call? && p.tool.index == t then Some(p.tool) else FirstCall(ps, t))
  {
    assert (ps + [p])[..|ps|] == ps;
  }

  ghost predicate Named(s: Emitter, ps: seq<Piece>) {
    forall t :: (t in s.toolIndexes <==> FirstCall(ps, t).Some?)
             && (t in s.toolIndexes ==> BlockOf(s.out, s.toolIndexes[t]) == Some(ToolUse(FirstCall(ps, t).value.id, NameOf(FirstCall(ps, t).value))))
  }

  lemma StepNamed(s: Emitter, ps: seq<Piece>, p: Piece)
    requires Named(s, ps) && Tidy(s)
    ensures Named(Step(s, p), ps + [p])
  {
    StepBlocks(s, p);
    StepTools(s, p);
    FirstSnoc(ps, p);
    ToolsBelow(s);
    hide BlockOf, FirstCall, Step, Tidy, NameOf;
  }

  lemma {:induction false} StepsNamed(ps: seq<Piece>)
    ensures Named(Steps(Started(INITIAL), ps), ps)
    decreases |ps|
  {
    StartedIs();
    if ps != [] {
      var n := |ps| - 1;
      assert ps[..n] + [ps[n]] == ps;
      StepsKeep(Started(INITIAL), ps[..n]);
      hide Step, Named, Agrees, ReadAll, Tidy, Started;
      StepsNamed(ps[..n]);
      StepNamed(Steps(Started(INITIAL), ps[..n]), ps[..n], ps[n]);
    }
  }

  /** Each called tool's block was started with the id and name of its first
      call, whatever later deltas for it carry. */
  lemma ToolBlocksAreNamed(ds: seq<Delta>, t: int)
    requires t in OnDeltas(ds).toolIndexes
    ensures var s, first := OnDeltas(ds), FirstCall(PiecesOf(ds), t);
            first.Some? && BlockOf(s.out, s.toolIndexes[t]) == Some(ToolUse(first.value.id, NameOf(first.value)))
  {
    if ds != [] {
      DeltasAreSteps(ds);
      StepsNamed(PiecesOf(ds));
      hide OnDeltas, PiecesOf, Steps, BlockOf, FirstCall, NameOf;
    }
  }

  // ----- Blocks that overlap -----

  /** A tool call is followed by something that does not continue that call. */
  predicate Mixes(ps: seq<Piece>) {
    exists i, j :: 0 <= i < j < |ps| && ps[i].Call? && Leaves(ps[j], ps[i].tool.index)
  }

  predicate Leaves(p: Piece, t: int) {
    !(p.Call? && p.tool.index == t)
  }

  lemma MixesSnoc(ps: seq<Piece>, p: Piece)
    ensures Mixes(ps + [p]) <==> Mixes(ps) || exists t :: CallsTool(ps, t) && Leaves(p, t)
  {
    var now := ps + [p];
    assert forall i :: 0 <= i < |ps| ==> now[i] == ps[i];
    if Mixes(now) {
      var i, j :| 0 <= i < j < |now| && now[i].Call? && Leaves(now[j], now[i].tool.index);
      if j == |ps| {
        assert CallsTool(ps, ps[i].tool.index);
      } else {
        assert ps[i].Call? && Leaves(ps[j], ps[i].tool.index);
      }
    }
    if Mixes(ps) {
      var i, j :| 0 <= i < j < |ps| && ps[i].Call? && Leaves(ps[j], ps[i].tool.index);
      assert now[i].Call? && Leaves(now[j], now[i].tool.index);
    }
    forall t | CallsTool(ps, t) && Leaves(p, t) ensures Mixes(now) {
      var i :| 0 <= i < |ps| && ps[i].Call? && ps[i].tool.index == t;
      assert now[i].Call? && Leaves(now[|ps|], now[i].tool.index);
    }
  }

  ghost predicate LapInv(s: Emitter, ps: seq<Piece>) {
    && (Overlapped(s) <==> Mixes(ps))
    && (s.toolOrder != [] && (s.thinkingOpen || s.textOpen) ==> Mixes(ps))
    && (|s.toolOrder| >= 2 ==> Mixes(ps))
    && (forall t :: t in s.toolIndexes <==> CallsTool(ps, t))
  }

  lemma TwoTools(s: Emitter, t: int, u: int)
    requires Tidy(s) && t in s.toolIndexes && u in s.toolIndexes && t != u
    ensures |s.toolOrder| >= 2
  {
    hide Opened, Ordered;
    assert t in s.toolOrder && u in s.toolOrder;
  }

  /** A piece opens a block beside an open tool's, or such blocks were open
      before, exactly when it makes the pieces mix. */
  lemma LapIff(s: Emitter, ps: seq<Piece>, p: Piece)
    requires LapInv(s, ps) && Tidy(s)
    ensures Overlapped(s) || (Opens(s, p) && s.toolOrder != []) <==> Mixes(ps + [p])
  {
    MixesSnoc(ps, p);
    hide Mixes, CallsTool, Overlapped, Opened, Ordered;
    if s.toolOrder != [] && Opens(s, p) {
      FirstTool(s);
      assert CallsTool(ps, s.toolOrder[0]) && Leaves(p, s.toolOrder[0]);
    }
    forall t | CallsTool(ps, t) && Leaves(p, t) && !Opens(s, p) ensures Mixes(ps) {
      assert t in s.toolOrder;
      if p.Call? {
        TwoTools(s, t, p.tool.index);
      }
    }
  }

  lemma FirstTool(s: Emitter)
    requires Tidy(s) && s.toolOrder != []
    ensures s.toolOrder[0] in s.toolIndexes
  {
  }

  lemma StepOverlaps(s: Emitter, p: Piece)
    requires Inv(s) && s.out != []
    ensures Overlapped(Step(s, p)) == (Overlapped(s) || (Opens(s, p) && s.toolOrder != []))
  {
    StepKeeps(s, p);
    hide Step, Inv, Overlapped, Opens;
  }

  /** After a piece that is no call, an open tool means the pieces mix; so do
      two tools. */
  lemma StepOpenMixes(s: Emitter, ps: seq<Piece>, p: Piece)
    requires LapInv(s, ps) && Tidy(s)
    ensures var r := Step(s, p);
            (r.toolOrder != [] && (r.thinkingOpen || r.textOpen)) || |r.toolOrder| >= 2 ==> Mixes(ps + [p])
  {
    StepTools(s, p);
    MixesSnoc(ps, p);
    hide Step, Overlapped, Mixes, CallsTool, Opened, Ordered;
    if s.toolOrder != [] {
      FirstTool(s);
      assert CallsTool(ps, s.toolOrder[0]);
      assert p.Call? && p.tool.index !in s.toolIndexes ==> Leaves(p, s.toolOrder[0]);
      assert !p.Call? ==> Leaves(p, s.toolOrder[0]);
    }
  }

  lemma StepCalls(s: Emitter, ps: seq<Piece>, p: Piece)
    requires forall t :: t in s.toolIndexes <==> CallsTool(ps, t)
    ensures forall t :: t in Step(s, p).toolIndexes <==> CallsTool(ps + [p], t)
  {
    StepTools(s, p);
    PiecesSnoc(ps, p);
    hide Step, CallsTool, Said, Thought, Args;
  }

  lemma StepLap(s: Emitter, ps: seq<Piece>, p: Piece)
    requires LapInv(s, ps) && Inv(s) && s.out != []
    ensures LapInv(Step(s, p), ps + [p])
  {
    StepOverlaps(s, p);
    LapIff(s, ps, p);
    StepOpenMixes(s, ps, p);
    StepCalls(s, ps, p);
    hide Step, Overlapped, Mixes, CallsTool, Inv, Opens;
  }

  lemma {:induction false} StepsLap(ps: seq<Piece>)
    ensures LapInv(Steps(Started(INITIAL), ps), ps)
    decreases |ps|
  {
    StartedIs();
    if ps == [] {
      assert !Mixes([]) && forall t :: !CallsTool([], t);
      hide ReadAll;
    } else {
      var n := |ps| - 1;
      assert ps[..n] + [ps[n]] == ps;
      StepsKeep(Started(INITIAL), ps[..n]);
      hide Step, LapInv, Inv, Started;
      StepsLap(ps[..n]);
      StepLap(Steps(Started(INITIAL), ps[..n]), ps[..n], ps[n]);
    }
  }

  // ----- Main results -----

  /** The whole stream for a sequence of deltas and an outcome. */
  function Trace(ds: seq<Delta>, error: Option<string>): seq<Event>
    requires Ordered(OnDeltas(ds))
  {
    Finish(OnDeltas(ds), error).out
  }

  lemma DeltasOrdered(ds: seq<Delta>)
    ensures Ordered(OnDeltas(ds))
  {
    DeltasKeep(ds);
    hide OnDeltas;
  }

  /** The protocol is met exactly when the request failed or at least one delta
      arrived: a success that delivers nothing has no start frame. */
  lemma WellFormedIff(ds: seq<Delta>, error: Option<string>)
    ensures Ordered(OnDeltas(ds)) && (Accepted(Trace(ds, error)) <==> error.Some? || ds != [])
  {
    DeltasOrdered(ds);
    DeltasKeep(ds);
    FinishAccepted(OnDeltas(ds), error);
    hide OnDeltas, Accepted, Finish;
  }

  /** Nothing is lost or reordered: the text deltas join to the received
      content, the thinking deltas to the received reasoning, and each called
      tool's block to the arguments received for that tool. */
  lemma NothingLost(ds: seq<Delta>, error: Option<string>, t: int)
    ensures Ordered(OnDeltas(ds))
    ensures TextOf(Trace(ds, error)) == ContentOf(ds) && ThinkingOf(Trace(ds, error)) == ReasoningOf(ds)
    ensures var s := OnDeltas(ds);
            && (t in s.toolIndexes <==> CallsTool(PiecesOf(ds), t))
            && (t in s.toolIndexes ==> InputOf(Trace(ds, error), s.toolIndexes[t]) == ArgsFor(ds, t))
  {
    DeltasOrdered(ds);
    FinishSaysNothing(OnDeltas(ds), error);
    DeltasSay(ds, t);
    if ds == [] {
      NothingSaid(t);
    } else {
      DeltasAreSteps(ds);
      StepsTell(PiecesOf(ds));
      assert InputTold(OnDeltas(ds), PiecesOf(ds), t);
    }
    hide OnDeltas, Finish, TextOf, ThinkingOf, InputOf, Said, Thought, Args, ContentOf, ReasoningOf, ArgsFor, PiecesOf, CallsTool, Steps;
  }

  lemma NothingSaid(t: int)
    ensures OnDeltas([]) == INITIAL && PiecesOf([]) == [] && !CallsTool([], t)
    ensures TextOf([]) == "" && ThinkingOf([]) == "" && Said([]) == "" && Thought([]) == ""
  {
  }

  /** Two blocks are open at once exactly when a tool call was followed by
      anything but more of the same call: tool blocks close only at the end. */
  lemma BlocksOverlapIff(ds: seq<Delta>, error: Option<string>)
    requires ds != []
    ensures Ordered(OnDeltas(ds)) && ReadAll(Trace(ds, error)).Some?
    ensures ReadAll(Trace(ds, error)).value.overlapped <==> Mixes(PiecesOf(ds))
  {
    DeltasOrdered(ds);
    DeltasKeep(ds);
    FinishAccepted(OnDeltas(ds), error);
    DeltasAreSteps(ds);
    StepsLap(PiecesOf(ds));
    hide OnDeltas, Finish, ReadAll, Mixes, PiecesOf, Steps, Tidy;
  }

  /** The last two frames: an error, or a stop reason that says whether any tool
      was called; then the stop. */
  lemma LastFrames(ds: seq<Delta>, error: Option<string>)
    ensures Ordered(OnDeltas(ds)) && |Trace(ds, error)| >= 2
    ensures var tr := Trace(ds, error);
            && tr[|tr| - 1] == MessageStop
            && tr[|tr| - 2] == (if error.Some? then Error(error.value)
                                else MessageDelta(if exists t :: CallsTool(PiecesOf(ds), t) then "tool_use" else "end_turn"))
  {
    DeltasOrdered(ds);
    DeltasKeep(ds);
    var s := OnDeltas(ds);
    forall t ensures t in s.toolIndexes <==> CallsTool(PiecesOf(ds), t) {
      NothingLost(ds, error, t);
    }
    if s.toolOrder != [] {
      assert s.toolOrder[0] in s.toolIndexes;
      assert CallsTool(PiecesOf(ds), s.toolOrder[0]);
    }
    assert s.sawTools <==> exists t :: CallsTool(PiecesOf(ds), t) by {
      hide OnDeltas, Opened, ReadAll, Agrees;
    }
    FinishIs(s, error, if error.Some? then Error(error.value) else MessageDelta(if s.sawTools then "tool_use" else "end_turn"));
    hide OnDeltas, CallsTool, Finish, CloseTools, Inv;
  }

  lemma StepsOptional(s: Emitter, p: Piece, present: bool)
    ensures Steps(s, if present then [p] else []) == if present then Step(s, p) else s
  {
    assert [] + [p] == [p];
    StepsSnoc(s, [], p);
    hide Step;
  }

  // ----- The handler -----

  /** `streamAnthropic`: the variables its closures share. */
  class AnthropicWriter {
    var out: seq<Event>
    var thinkingOpen: bool
    var thinkingIndex: int
    var textOpen: bool
    var textIndex: int
    var nextIndex: int
    var sawTools: bool
    var toolIndexes: map<int, int>
    var toolOrder: seq<int>

    constructor ()
      ensures State() == INITIAL
    {
      out, thinkingOpen, thinkingIndex, textOpen, textIndex := [], false, -1, false, -1;
      nextIndex, sawTools, toolIndexes, toolOrder := 0, false, map[], [];
    }

    function State(): Emitter
      reads this
    {
      Emitter(thinkingOpen, thinkingIndex, textOpen, textIndex, nextIndex, sawTools, toolIndexes, toolOrder, out)
    }

    method EnsureStarted()
      modifies this`out
      ensures State() == Started(old(State()))
    {
      if out == [] {
        out := out + [MessageStart];
      }
    }

    method CloseThinkingBlock()
      modifies this`out, this`thinkingOpen
      ensures State() == CloseThinking(old(State()))
    {
      if thinkingOpen {
        out := out + [BlockDelta(thinkingIndex, SignaturePart)];
        out := out + [BlockStop(thinkingIndex)];
        thinkingOpen := false;
      }
    }

    method CloseTextBlock()
      modifies this`out, this`textOpen
      ensures State() == CloseText(old(State()))
    {
      if textOpen {
        out := out + [BlockStop(textIndex)];
        textOpen := false;
      }
    }

    method OnReasoning(text: string)
      modifies this
      ensures State() == Step(old(State()), Think(text))
    {
      CloseTextBlock();
      if !thinkingOpen {
        thinkingIndex := nextIndex;
        nextIndex := nextIndex + 1;
        out := out + [BlockStart(thinkingIndex, Thinking)];
        thinkingOpen := true;
      }
      out := out + [BlockDelta(thinkingIndex, ThinkingPart(text))];
    }

    method OnContent(text: string)
      modifies this
      ensures State() == Step(old(State()), Say(text))
    {
      CloseThinkingBlock();
      if !textOpen {
        textIndex := nextIndex;
        nextIndex := nextIndex + 1;
        out := out + [BlockStart(textIndex, Text)];
        textOpen := true;
      }
      out := out + [BlockDelta(textIndex, TextPart(text))];
    }

    method OnToolCall(tc: ToolDelta)
      modifies this
      ensures State() == Step(old(State()), Call(tc))
    {
      CloseThinkingBlock();
      CloseTextBlock();
      sawTools := true;
      var known := tc.index in toolIndexes;
      var idx := if known then toolIndexes[tc.index] else nextIndex;
      if !known {
        nextIndex := nextIndex + 1;
        toolIndexes := toolIndexes[tc.index := idx];
        toolOrder := toolOrder + [tc.index];
      }
      var name, args := "", "";
      if tc.call.Some? {
        name, args := tc.call.value.name, tc.call.value.args;
      }
      if !known {
        out := out + [BlockStart(idx, ToolUse(tc.id, name))];
      }
      if args != "" {
        out := out + [BlockDelta(idx, InputPart(args))];
      }
    }

    method Receive(d: Delta)
      modifies this
      ensures State() == OnDelta(old(State()), d)
    {
      hide Step, Steps;
      EnsureStarted();
      ghost var start := State();
      ghost var a := if d.reasoning != "" then [Think(d.reasoning)] else [];
      ghost var b := if d.content != "" then [Say(d.content)] else [];
      StepsOptional(start, Think(d.reasoning), d.reasoning != "");
      if d.reasoning != "" {
        OnReasoning(d.reasoning);
      }
      StepsOptional(State(), Say(d.content), d.content != "");
      if d.content != "" {
        OnContent(d.content);
      }
      StepsAppend(start, a, b);
      StepsAppend(start, a + b, Calls(d.toolCalls));
      assert Pieces(d) == a + b + Calls(d.toolCalls);
      ReceiveCalls(d.toolCalls);
    }

    method ReceiveCalls(ts: seq<ToolDelta>)
      modifies this
      ensures State() == Steps(old(State()), Calls(ts))
    {
      ghost var start := State();
      assert Calls([]) == [];
      for i := 0 to |ts|
        invariant State() == Steps(start, Calls(ts[..i]))
      {
        hide Steps, Step;
        OnToolCall(ts[i]);
        StepsSnoc(start, Calls(ts[..i]), Call(ts[i]));
        assert Calls(ts[..i + 1]) == Calls(ts[..i]) + [Call(ts[i])];
      }
      assert ts[..|ts|] == ts;
    }

    method End(error: Option<string>)
      requires Ordered(State())
      modifies this
      ensures State().out == Finish(old(State()), error).out
    {
      if error.Some? && out == [] {
        EnsureStarted();
      }
      CloseThinkingBlock();
      CloseTextBlock();
      ghost var s := State();
      for n := 0 to |toolOrder|
        invariant State() == CloseTools(s, n) && toolOrder == s.toolOrder && toolIndexes == s.toolIndexes
      {
        CloseToolsKeepsRest(s, n);
        out := out + [BlockStop(toolIndexes[toolOrder[n]])];
      }
      if error.Some? {
        out := out + [Error(error.value)];
        out := out + [MessageStop];
        return;
      }
      var stop := "end_turn";
      if sawTools {
        stop := "tool_use";
      }
      out := out + [MessageDelta(stop)];
      out := out + [MessageStop];
    }

    /** The handler's whole run: deltas until the upstream ends. */
    method Stream(ds: seq<Delta>, error: Option<string>)
      requires State() == INITIAL
      modifies this
      ensures Ordered(OnDeltas(ds)) && out == Trace(ds, error)
    {
      for i := 0 to |ds|
        invariant State() == OnDeltas(ds[..i])
      {
        assert ds[..i + 1][..i] == ds[..i];
        Receive(ds[i]);
      }
      assert ds[..|ds|] == ds;
      DeltasOrdered(ds);
      End(error);
    }
  }
}
