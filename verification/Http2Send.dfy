/** The send side of the HTTP/2 client: writers, the read loop and close share
    one connection. Every step below is one critical section or one frame
    write, and steps of different goroutines interleave freely. */
module Http2Send {
  import opened Base

  const MAX_FRAME: nat := 16384
  const INITIAL_WINDOW: nat := 65535
  const SETTING_INITIAL_WINDOW_SIZE: nat := 4

  type Byte = b: nat | b < 256

  // ----- State -----

  /** What a writer does once its buffer is written: read on, end the stream,
      or give up because reading the body failed. */
  datatype Next = More | Eof | Broken

  /** Where the goroutine that uploads a stream's body stands. */
  datatype Phase =
    | Opening(hasBody: bool)
    | Reading
    | Wanting(data: seq<Byte>, next: Next)
    | Parked(data: seq<Byte>, next: Next)
    | Sending(part: seq<Byte>, rest: seq<Byte>, next: Next)
    | Ending
    | Resetting
    | Gone

  /** `credit` and `reserved` add up the stream's WINDOW_UPDATE increments and
      its reservations; `read` counts the body bytes taken so far. */
  datatype Stream = Stream(sendWin: int, closed: bool, doneFired: nat,
                           body: seq<Byte>, read: nat, phase: Phase, credit: nat, reserved: nat)

  datatype Frame = Frame(id: nat, payload: seq<Byte>, endStream: bool)

  /** `streams` holds every stream ever opened, `registered` those in the
      connection's table. `finishing` counts goroutines that have fired a done
      signal and not yet taken the lock, `broadcasts` those that have released
      the lock and not yet broadcast. `snapshot` and `toFire` belong to close. */
  datatype Conn = Conn(connSendWin: int, initStreamWin: int, nextID: nat, goAway: bool, closed: bool,
                       streams: map<nat, Stream>, registered: set<nat>,
                       finishing: map<nat, nat>, broadcasts: nat, snapshot: set<nat>, toFire: set<nat>,
                       wire: seq<Frame>, connCredit: nat, connReserved: nat)

  function Fresh(): Conn {
    Conn(INITIAL_WINDOW, INITIAL_WINDOW, 1, false, false, map[], {}, map[], 0, {}, {}, [], 0, 0)
  }

  /** Steps that concern one stream and move no window. */
  datatype Local =
    | HeadersWritten
    | HeadersFailed
    | ReadBody(n: nat, next: Next)
    | WriteData(ok: bool)
    | WriteEnd(ok: bool)
    | ResetWriter
    | FireDone
    | FinishLocked
    | CloseFire

  datatype Event =
    | Register(body: seq<Byte>, hasBody: bool)
    | On(id: nat, e: Local)
    | Reserve(id: nat)
    | Settings(values: seq<(nat, nat)>)
    | WindowUpdate(id: nat, increment: nat)
    | GoAway
    | CloseLocked
    | Broadcast

  // ----- Steps -----

  function Min(a: int, b: int): int {
    if a <= b then a else b
  }

  /** `writeData`: no more than a frame, and no more than either window. */
  function Chunk(len: nat, connWin: int, streamWin: int): int {
    Min(Min(Min(len, MAX_FRAME), connWin), streamWin)
  }

  /** The value the SETTINGS frame leaves for the initial window, if any. */
  function NewInitialWindow(values: seq<(nat, nat)>): Option<nat> {
    if values == [] then None
    else
      var (id, v) := values[|values| - 1];
      if id == SETTING_INITIAL_WINDOW_SIZE then Some(v) else NewInitialWindow(values[..|values| - 1])
  }

  function Resume(next: Next): Phase {
    match next
    case More => Reading
    case Eof => Ending
    case Broken => Resetting
  }

  function AfterPart(rest: seq<Byte>, next: Next): Phase {
    if rest == [] then Resume(next) else Wanting(rest, next)
  }

  function Unpark(phase: Phase): Phase {
    if phase.Parked? then Wanting(phase.data, phase.next) else phase
  }

  function Fired(st: Stream): Stream {
    st.(doneFired := if st.doneFired == 0 then 1 else st.doneFired)
  }

  function Count(m: map<nat, nat>, id: nat): nat {
    if id in m then m[id] else 0
  }

  function OneMore(m: map<nat, nat>, id: nat): map<nat, nat> {
    m[id := Count(m, id) + 1]
  }

  function OneLess(m: map<nat, nat>, id: nat): map<nat, nat> {
    m[id := if Count(m, id) > 0 then Count(m, id) - 1 else 0]
  }

  predicate StreamEnabled(st: Stream, e: Local) {
    match e
    case HeadersWritten => st.phase.Opening?
    case HeadersFailed => st.phase.Opening?
    case ReadBody(n, next) =>
      st.phase.Reading? && n <= MAX_FRAME && st.read + n <= |st.body| && (next == Eof ==> st.read + n == |st.body|)
    case WriteData(_) => st.phase.Sending?
    case WriteEnd(_) => st.phase.Ending?
    case ResetWriter => st.phase.Resetting?
    case _ => true
  }

  predicate Enabled(s: Conn, e: Event) {
    match e
    case Register(_, _) => !s.closed && !s.goAway
    case On(id, l) =>
      id in s.streams && StreamEnabled(s.streams[id], l)
      && (l == FinishLocked ==> Count(s.finishing, id) > 0) && (l == CloseFire ==> id in s.toFire)
    case Reserve(id) => id in s.streams && s.streams[id].phase.Wanting?
    case Broadcast => s.broadcasts > 0
    case _ => true
  }

  /** The stream after a local step. */
  function StreamAfter(st: Stream, e: Local): Stream
    requires StreamEnabled(st, e)
  {
    match e
    case HeadersWritten => st.(phase := if st.phase.hasBody then Reading else Gone)
    case HeadersFailed => st.(phase := Gone)
    case ReadBody(n, next) =>
      st.(read := st.read + n, phase := AfterPart(st.body[st.read..st.read + n], next))
    case WriteData(ok) => st.(phase := if ok then AfterPart(st.phase.rest, st.phase.next) else Resetting)
    case WriteEnd(ok) => st.(phase := if ok then Gone else Resetting)
    case ResetWriter => Fired(st).(phase := Gone)
    case FireDone => Fired(st)
    case FinishLocked => st.(closed := true)
    case CloseFire => Fired(st)
  }

  /** The DATA frame a local step writes. */
  function Frames(id: nat, st: Stream, e: Local): seq<Frame>
    requires StreamEnabled(st, e)
  {
    match e
    case WriteData(ok) => if ok then [Frame(id, st.phase.part, false)] else []
    case WriteEnd(ok) => if ok then [Frame(id, [], true)] else []
    case _ => []
  }

  predicate Unregisters(e: Local) {
    e == HeadersFailed || e == FinishLocked
  }

  function LocalStep(s: Conn, id: nat, e: Local): Conn
    requires id in s.streams && StreamEnabled(s.streams[id], e)
  {
    var st := s.streams[id];
    s.(streams := s.streams[id := StreamAfter(st, e)],
       registered := if Unregisters(e) then s.registered - {id} else s.registered,
       finishing := if e == ResetWriter || e == FireDone then OneMore(s.finishing, id)
                    else if e == FinishLocked then OneLess(s.finishing, id) else s.finishing,
       broadcasts := if e == FinishLocked then s.broadcasts + 1 else s.broadcasts,
       toFire := if e == CloseFire then s.toFire - {id} else s.toFire,
       wire := s.wire + Frames(id, st, e))
  }

  function Put(s: Conn, id: nat, st: Stream): Conn {
    s.(streams := s.streams[id := st])
  }

  /** One turn of the loop in `writeData`, between lock and unlock or wait. */
  function ReserveStep(s: Conn, id: nat): Conn
    requires id in s.streams && s.streams[id].phase.Wanting?
  {
    var st := s.streams[id];
    var data := st.phase.data;
    if s.closed || st.closed then Put(s, id, st.(phase := Resetting))
    else if s.connSendWin <= 0 || st.sendWin <= 0 then Put(s, id, st.(phase := Parked(data, st.phase.next)))
    else
      var chunk := Chunk(|data|, s.connSendWin, st.sendWin);
      Put(s, id, st.(sendWin := st.sendWin - chunk, reserved := st.reserved + chunk,
                     phase := Sending(data[..chunk], data[chunk..], st.phase.next)))
      .(connSendWin := s.connSendWin - chunk, connReserved := s.connReserved + chunk)
  }

  /** The windows of the streams in `ids` move by `delta`. */
  function Shifted(streams: map<nat, Stream>, ids: set<nat>, delta: int): map<nat, Stream> {
    map id | id in streams ::
      if id in ids then streams[id].(sendWin := streams[id].sendWin + delta) else streams[id]
  }

  function SettingsStep(s: Conn, values: seq<(nat, nat)>): Conn {
    var s' := s.(broadcasts := s.broadcasts + 1);
    match NewInitialWindow(values)
    case None => s'
    case Some(v) =>
      var delta := v - s.initStreamWin;
      s'.(initStreamWin := v, streams := Shifted(s.streams, s.registered, delta))
  }

  function WindowStep(s: Conn, id: nat, increment: nat): Conn {
    var s' := s.(broadcasts := s.broadcasts + 1);
    if id == 0 then s'.(connSendWin := s.connSendWin + increment, connCredit := s.connCredit + increment)
    else if id in s.registered && id in s.streams then
      var st := s.streams[id];
      Put(s', id, st.(sendWin := st.sendWin + increment, credit := st.credit + increment))
    else s'
  }

  function Apply(s: Conn, e: Event): Conn
    requires Enabled(s, e)
  {
    match e
    case Register(body, hasBody) =>
      var st := Stream(s.initStreamWin, false, 0, body, 0, Opening(hasBody), 0, 0);
      Put(s, s.nextID, st).(registered := s.registered + {s.nextID}, nextID := s.nextID + 2)
    case On(id, l) => LocalStep(s, id, l)
    case Reserve(id) => ReserveStep(s, id)
    case Settings(values) => SettingsStep(s, values)
    case WindowUpdate(id, increment) => WindowStep(s, id, increment)
    case GoAway => s.(goAway := true)
    case CloseLocked =>
      if s.closed then s
      else s.(closed := true, snapshot := s.registered, toFire := s.registered, broadcasts := s.broadcasts + 1)
    case Broadcast =>
      s.(broadcasts := s.broadcasts - 1,
         streams := map id | id in s.streams :: s.streams[id].(phase := Unpark(s.streams[id].phase)))
  }

  ghost predicate Run(s: Conn, events: seq<Event>)
    decreases |events|
  {
    events == [] || (Enabled(s, events[0]) && Run(Apply(s, events[0]), events[1..]))
  }

  ghost function After(s: Conn, events: seq<Event>): Conn
    requires Run(s, events)
    decreases |events|
  {
    if events == [] then s else After(Apply(s, events[0]), events[1..])
  }

  /** A local step moves neither window nor the body, and parks nobody. */
  lemma LocalKeepsWindows(st: Stream, e: Local)
    requires StreamEnabled(st, e)
    ensures var st' := StreamAfter(st, e);
            && st'.sendWin == st.sendWin && st'.credit == st.credit && st'.reserved == st.reserved
            && st'.body == st.body && (st'.phase.Parked? ==> st'.phase == st.phase)
            && st'.closed == (st.closed || e == FinishLocked)
  {
  }

  // ----- Bookkeeping -----

  ghost predicate Shape(s: Conn) {
    && s.nextID % 2 == 1
    && (forall id :: id in s.streams ==> id < s.nextID && id % 2 == 1)
    && s.registered <= s.streams.Keys
    && s.toFire <= s.snapshot <= s.streams.Keys
    && (!s.closed ==> s.snapshot == {})
    && (forall id :: id in s.finishing ==> id in s.streams)
  }

  lemma ShapeLocal(s: Conn, id: nat, l: Local)
    requires Shape(s) && Enabled(s, On(id, l))
    ensures Shape(Apply(s, On(id, l)))
    ensures s.streams.Keys <= Apply(s, On(id, l)).streams.Keys
  {
    hide StreamAfter, StreamEnabled, Frames, Unregisters;
  }

  lemma ShapeGlobal(s: Conn, e: Event)
    requires Shape(s) && Enabled(s, e) && !e.On? && !e.Reserve?
    ensures Shape(Apply(s, e))
    ensures s.streams.Keys <= Apply(s, e).streams.Keys
  {
    hide NewInitialWindow;
  }

  lemma ShapeReserve(s: Conn, id: nat)
    requires Shape(s) && Enabled(s, Reserve(id))
    ensures Shape(Apply(s, Reserve(id)))
    ensures s.streams.Keys <= Apply(s, Reserve(id)).streams.Keys
  {
    hide Chunk;
  }

  lemma ShapeStep(s: Conn, e: Event)
    requires Shape(s) && Enabled(s, e)
    ensures Shape(Apply(s, e))
    ensures s.streams.Keys <= Apply(s, e).streams.Keys
  {
    hide *;
    match e
    case On(id, l) => ShapeLocal(s, id, l);
    case Reserve(id) => ShapeReserve(s, id);
    case _ => ShapeGlobal(s, e);
  }

  // ----- Windows -----

  /** Bytes reserved by the streams numbered below `n`. */
  ghost function TotalReserved(streams: map<nat, Stream>, n: nat): nat {
    if n == 0 then 0
    else TotalReserved(streams, n - 1) + if n - 1 in streams then streams[n - 1].reserved else 0
  }

  ghost predicate Windows(s: Conn) {
    && s.connSendWin == INITIAL_WINDOW + s.connCredit - s.connReserved
    && s.connSendWin >= 0
    && s.connReserved == TotalReserved(s.streams, s.nextID)
    && (forall id :: id in s.registered && id in s.streams ==>
          s.streams[id].sendWin == s.initStreamWin + s.streams[id].credit - s.streams[id].reserved)
  }

  lemma {:induction false} TotalSame(a: map<nat, Stream>, b: map<nat, Stream>, n: nat)
    requires forall id :: id < n ==> (id in a <==> id in b) && (id in a ==> a[id].reserved == b[id].reserved)
    ensures TotalReserved(a, n) == TotalReserved(b, n)
  {
    if n > 0 {
      TotalSame(a, b, n - 1);
    }
  }

  lemma {:induction false} TotalPut(a: map<nat, Stream>, id: nat, st: Stream, n: nat)
    requires id in a && id < n
    ensures TotalReserved(a[id := st], n) == TotalReserved(a, n) + st.reserved - a[id].reserved
  {
    if id == n - 1 {
      TotalSame(a[id := st], a, n - 1);
    } else {
      TotalPut(a, id, st, n - 1);
    }
  }

  lemma {:induction false} TotalNew(a: map<nat, Stream>, id: nat, st: Stream, n: nat)
    requires id !in a && st.reserved == 0
    ensures TotalReserved(a[id := st], n) == TotalReserved(a, n)
  {
    if n > 0 {
      TotalNew(a, id, st, n - 1);
    }
  }

  lemma {:induction false} TotalBeyond(a: map<nat, Stream>, m: nat, n: nat)
    requires m <= n && forall id :: id in a ==> id < m
    ensures TotalReserved(a, n) == TotalReserved(a, m)
  {
    if m < n {
      TotalBeyond(a, m, n - 1);
    }
  }

  lemma WindowsReserve(s: Conn, id: nat)
    requires Shape(s) && Windows(s) && Enabled(s, Reserve(id))
    ensures Windows(Apply(s, Reserve(id)))
  {
    hide TotalReserved;
    var s' := Apply(s, Reserve(id));
    TotalPut(s.streams, id, s'.streams[id], s.nextID);
  }

  lemma WindowsRegister(s: Conn, e: Event)
    requires Shape(s) && Windows(s) && Enabled(s, e) && e.Register?
    ensures Windows(Apply(s, e))
  {
    hide TotalReserved;
    var s' := Apply(s, e);
    TotalNew(s.streams, s.nextID, s'.streams[s.nextID], s.nextID);
    TotalBeyond(s'.streams, s.nextID + 1, s'.nextID);
    TotalTop(s'.streams, s.nextID);
  }

  lemma TotalTop(a: map<nat, Stream>, n: nat)
    requires n in a && a[n].reserved == 0
    ensures TotalReserved(a, n + 1) == TotalReserved(a, n)
  {
  }

  lemma WindowsLocal(s: Conn, id: nat, l: Local)
    requires Shape(s) && Windows(s) && Enabled(s, On(id, l))
    ensures Windows(Apply(s, On(id, l)))
  {
    hide TotalReserved, StreamAfter, StreamEnabled, Frames, Unregisters;
    LocalKeepsWindows(s.streams[id], l);
    TotalSame(s.streams, Apply(s, On(id, l)).streams, s.nextID);
  }

  lemma WindowsSettings(s: Conn, values: seq<(nat, nat)>)
    requires Shape(s) && Windows(s)
    ensures Windows(SettingsStep(s, values))
  {
    hide TotalReserved, NewInitialWindow, Shape;
    TotalSame(s.streams, SettingsStep(s, values).streams, s.nextID);
  }

  lemma WindowsCredit(s: Conn, id: nat, increment: nat)
    requires Shape(s) && Windows(s)
    ensures Windows(WindowStep(s, id, increment))
  {
    hide TotalReserved;
    TotalSame(s.streams, WindowStep(s, id, increment).streams, s.nextID);
  }

  lemma WindowsOther(s: Conn, e: Event)
    requires Shape(s) && Windows(s) && Enabled(s, e) && (e.GoAway? || e.CloseLocked? || e.Broadcast?)
    ensures Windows(Apply(s, e))
  {
    hide TotalReserved, Shape;
    TotalSame(s.streams, Apply(s, e).streams, s.nextID);
  }

  /** Flow control, sections 6.9.1 and 6.9.2 of RFC 7540, is kept by every step. */
  lemma WindowsStep(s: Conn, e: Event)
    requires Shape(s) && Windows(s) && Enabled(s, e)
    ensures Windows(Apply(s, e))
  {
    hide Windows, Shape, SettingsStep, WindowStep, LocalStep, ReserveStep, Enabled;
    match e
    case Register(_, _) => WindowsRegister(s, e);
    case Reserve(id) => WindowsReserve(s, id);
    case On(id, l) => WindowsLocal(s, id, l);
    case Settings(values) => WindowsSettings(s, values);
    case WindowUpdate(id, increment) => WindowsCredit(s, id, increment);
    case GoAway => WindowsOther(s, e);
    case CloseLocked => WindowsOther(s, e);
    case Broadcast => WindowsOther(s, e);
  }

  /** A reservation takes between one byte and a frame, and both windows had
      room for it. */
  lemma EveryChunkFits(s: Conn, id: nat)
    requires Enabled(s, Reserve(id)) && s.streams[id].phase.data != []
    ensures var st, s' := s.streams[id], Apply(s, Reserve(id));
            s'.streams[id].phase.Sending? ==>
              var n := |s'.streams[id].phase.part|;
              && 1 <= n <= MAX_FRAME && n <= s.connSendWin && n <= st.sendWin
              && s'.connSendWin == s.connSendWin - n && s'.streams[id].sendWin == st.sendWin - n
              && (n == |st.phase.data| || n == MAX_FRAME || s'.connSendWin == 0 || s'.streams[id].sendWin == 0)
  {
  }

  // ----- Body order -----

  /** The body bytes of a stream that are on the wire, in order. */
  ghost function Written(wire: seq<Frame>, id: nat): seq<Byte> {
    if wire == [] then []
    else
      var f := wire[|wire| - 1];
      Written(wire[..|wire| - 1], id) + if f.id == id then f.payload else []
  }

  ghost predicate Ended(wire: seq<Frame>, id: nat) {
    exists i :: 0 <= i < |wire| && wire[i].id == id && wire[i].endStream
  }

  /** The bytes a writer has read and not yet put on the wire. */
  ghost function Pending(phase: Phase): seq<Byte> {
    match phase
    case Wanting(data, _) => data
    case Parked(data, _) => data
    case Sending(part, rest, _) => part + rest
    case _ => []
  }

  ghost function Claimed(phase: Phase): nat {
    if phase.Sending? then |phase.part| else 0
  }

  ghost function NextOf(phase: Phase): Next {
    match phase
    case Wanting(_, next) => next
    case Parked(_, next) => next
    case Sending(_, _, next) => next
    case Ending => Eof
    case _ => More
  }

  /** A stream's writer, its body, and what of it is on the wire. */
  ghost predicate Orderly(st: Stream, written: seq<Byte>, ended: bool) {
    && st.read <= |st.body|
    && (st.phase.Opening? ==> st.read == 0)
    && (if st.phase.Resetting? || st.phase.Gone? then written <= st.body[..st.read] && |written| <= st.reserved
        else written + Pending(st.phase) == st.body[..st.read] && st.reserved == |written| + Claimed(st.phase))
    && (st.phase.Wanting? || st.phase.Parked? ==> st.phase.data != [])
    && (st.phase.Sending? ==> 1 <= |st.phase.part| <= MAX_FRAME)
    && (NextOf(st.phase) == Eof ==> st.read == |st.body|)
    && (ended ==> st.phase.Gone? && written == st.body)
  }

  /** A DATA frame carries 1 to 16384 bytes, or none and the end mark. */
  ghost predicate ProperFrame(f: Frame) {
    if f.endStream then f.payload == [] else 1 <= |f.payload| <= MAX_FRAME
  }

  ghost function Payloads(frames: seq<Frame>): seq<Byte> {
    if frames == [] then [] else frames[0].payload
  }

  lemma OrderlyLocal(id: nat, st: Stream, e: Local, written: seq<Byte>, ended: bool)
    requires Orderly(st, written, ended) && StreamEnabled(st, e)
    ensures var fs := Frames(id, st, e);
            && |fs| <= 1
            && (fs != [] ==> fs[0].id == id && !ended && ProperFrame(fs[0]))
            && Orderly(StreamAfter(st, e), written + Payloads(fs), ended || (fs != [] && fs[0].endStream))
  {
    var fs := Frames(id, st, e);
    assert written + [] == written;
    match e
    case ReadBody(n, next) =>
      assert st.body[..st.read] + st.body[st.read..st.read + n] == st.body[..st.read + n];
    case WriteData(ok) =>
      if ok {
        assert written + st.phase.part + st.phase.rest == written + (st.phase.part + st.phase.rest);
      }
    case WriteEnd(_) =>
      assert st.body[..st.read] == st.body;
    case _ =>
  }

  lemma OrderlyReserve(s: Conn, id: nat, written: seq<Byte>, ended: bool)
    requires Enabled(s, Reserve(id)) && Orderly(s.streams[id], written, ended)
    ensures Orderly(Apply(s, Reserve(id)).streams[id], written, ended)
  {
    var st := s.streams[id];
    EveryChunkFits(s, id);
    var st' := Apply(s, Reserve(id)).streams[id];
    if st'.phase.Sending? {
      assert st'.phase.part + st'.phase.rest == st.phase.data;
    }
  }

  ghost predicate InOrder(s: Conn) {
    && (forall id :: id in s.streams ==> Orderly(s.streams[id], Written(s.wire, id), Ended(s.wire, id)))
    && (forall i :: 0 <= i < |s.wire| ==> s.wire[i].id in s.streams && ProperFrame(s.wire[i]))
    && (forall i, j :: 0 <= i < j < |s.wire| && s.wire[i].id == s.wire[j].id ==> !s.wire[i].endStream)
  }

  lemma WrittenAppend(wire: seq<Frame>, f: Frame, id: nat)
    ensures Written(wire + [f], id) == Written(wire, id) + (if f.id == id then f.payload else [])
    ensures Ended(wire + [f], id) <==> Ended(wire, id) || (f.id == id && f.endStream)
  {
    assert (wire + [f])[..|wire|] == wire;
    if Ended(wire, id) {
      var i :| 0 <= i < |wire| && wire[i].id == id && wire[i].endStream;
      assert (wire + [f])[i] == wire[i];
    }
    if f.id == id && f.endStream {
      assert (wire + [f])[|wire|] == f;
    }
  }

  lemma {:induction false} NothingWritten(wire: seq<Frame>, id: nat)
    requires forall i :: 0 <= i < |wire| ==> wire[i].id != id
    ensures Written(wire, id) == [] && !Ended(wire, id)
  {
    if wire != [] {
      NothingWritten(wire[..|wire| - 1], id);
    }
  }

  lemma InOrderLocal(s: Conn, id: nat, l: Local)
    requires InOrder(s) && Enabled(s, On(id, l))
    ensures InOrder(LocalStep(s, id, l))
  {
    hide StreamAfter, StreamEnabled, Frames, Unregisters, Orderly, Ended, Written;
    var s' := LocalStep(s, id, l);
    var st := s.streams[id];
    OrderlyLocal(id, st, l, Written(s.wire, id), Ended(s.wire, id));
    var fs := Frames(id, st, l);
    if fs == [] {
      assert s'.wire == s.wire && Written(s.wire, id) + [] == Written(s.wire, id);
    } else {
      assert fs == [fs[0]];
      forall k | k in s'.streams
        ensures Orderly(s'.streams[k], Written(s'.wire, k), Ended(s'.wire, k))
      {
        WrittenAppend(s.wire, fs[0], k);
        assert Written(s.wire, k) + [] == Written(s.wire, k);
      }
      forall i | 0 <= i < |s.wire| && s.wire[i].id == id
        ensures !s.wire[i].endStream
      {
        if s.wire[i].endStream {
          EndedAt(s.wire, i);
          assert false;
        }
      }
    }
  }

  lemma EndedAt(wire: seq<Frame>, i: nat)
    requires i < |wire| && wire[i].endStream
    ensures Ended(wire, wire[i].id)
  {
  }

  lemma InOrderRegister(s: Conn, e: Event)
    requires Shape(s) && InOrder(s) && Enabled(s, e) && e.Register?
    ensures InOrder(Apply(s, e))
  {
    hide Written, Ended;
    assert forall i :: 0 <= i < |s.wire| ==> s.wire[i].id != s.nextID;
    NothingWritten(s.wire, s.nextID);
  }

  lemma InOrderReserve(s: Conn, id: nat)
    requires InOrder(s) && Enabled(s, Reserve(id))
    ensures InOrder(ReserveStep(s, id))
  {
    hide Written, Ended, Orderly;
    OrderlyReserve(s, id, Written(s.wire, id), Ended(s.wire, id));
  }

  /** The upload side of a stream is as it was, but for waking up. */
  ghost predicate SameUpload(a: Stream, b: Stream) {
    b.read == a.read && b.body == a.body && b.reserved == a.reserved
    && (b.phase == a.phase || b.phase == Unpark(a.phase))
  }

  lemma OrderlySame(a: Stream, b: Stream, written: seq<Byte>, ended: bool)
    requires SameUpload(a, b) && Orderly(a, written, ended)
    ensures Orderly(b, written, ended)
  {
  }

  lemma InOrderSame(s: Conn, s': Conn)
    requires InOrder(s) && s'.wire == s.wire && s'.streams.Keys == s.streams.Keys
    requires forall id :: id in s.streams ==> SameUpload(s.streams[id], s'.streams[id])
    ensures InOrder(s')
  {
    hide Written, Ended, Orderly, SameUpload, ProperFrame;
    forall id | id in s'.streams
      ensures Orderly(s'.streams[id], Written(s'.wire, id), Ended(s'.wire, id))
    {
      OrderlySame(s.streams[id], s'.streams[id], Written(s.wire, id), Ended(s.wire, id));
    }
  }

  /** Nothing about uploads, registration and signals has changed. */
  ghost predicate Keeps(s: Conn, s': Conn) {
    && s'.wire == s.wire && s'.registered == s.registered && s'.streams.Keys == s.streams.Keys
    && s'.finishing == s.finishing
    && (forall id :: id in s.streams ==>
          SameUpload(s.streams[id], s'.streams[id]) && s'.streams[id].closed == s.streams[id].closed
          && s'.streams[id].doneFired == s.streams[id].doneFired)
  }

  ghost predicate SamePhases(s: Conn, s': Conn) {
    forall id :: id in s.streams && id in s'.streams ==> s'.streams[id].phase == s.streams[id].phase
  }

  lemma SettingsKeeps(s: Conn, values: seq<(nat, nat)>)
    ensures Keeps(s, SettingsStep(s, values)) && SamePhases(s, SettingsStep(s, values))
  {
    hide NewInitialWindow;
  }

  lemma CreditKeeps(s: Conn, id: nat, increment: nat)
    ensures Keeps(s, WindowStep(s, id, increment)) && SamePhases(s, WindowStep(s, id, increment))
  {
  }

  lemma BroadcastKeeps(s: Conn)
    requires Enabled(s, Broadcast)
    ensures Keeps(s, Apply(s, Broadcast))
    ensures forall id :: id in s.streams ==> !Apply(s, Broadcast).streams[id].phase.Parked?
  {
  }

  /** What the steps of the read loop, of close and of a broadcast leave alone. */
  lemma GlobalKeeps(s: Conn, e: Event)
    requires Enabled(s, e) && !e.On? && !e.Reserve? && !e.Register?
    ensures Keeps(s, Apply(s, e))
    ensures (Apply(s, e).snapshot, Apply(s, e).toFire, Apply(s, e).closed)
            == (if e.CloseLocked? && !s.closed then (s.registered, s.registered, true)
                else (s.snapshot, s.toFire, s.closed))
    ensures !e.GoAway? && !e.Broadcast? && !(e.CloseLocked? && s.closed) ==> Apply(s, e).broadcasts > 0
    ensures e.Broadcast? ==> forall id :: id in s.streams ==> !Apply(s, e).streams[id].phase.Parked?
    ensures !e.Broadcast? ==> SamePhases(s, Apply(s, e))
  {
    hide NewInitialWindow, Unpark;
    match e
    case Settings(values) =>
      SettingsKeeps(s, values);
      hide Keeps, SamePhases;
    case WindowUpdate(id, increment) =>
      CreditKeeps(s, id, increment);
      hide Keeps, SamePhases;
    case Broadcast =>
      BroadcastKeeps(s);
      hide Keeps, SamePhases, Apply;
    case GoAway =>
    case CloseLocked =>
  }

  /** A reservation touches one stream, and neither its signal nor its end. */
  lemma ReserveKeeps(s: Conn, id: nat)
    requires Enabled(s, Reserve(id))
    ensures var s' := ReserveStep(s, id);
            && s'.streams == s.streams[id := s'.streams[id]]
            && s'.streams[id].closed == s.streams[id].closed && s'.streams[id].doneFired == s.streams[id].doneFired
            && s'.registered == s.registered && s'.finishing == s.finishing && s'.closed == s.closed
            && s'.snapshot == s.snapshot && s'.toFire == s.toFire
  {
    hide Chunk;
  }

  lemma InOrderStep(s: Conn, e: Event)
    requires Shape(s) && InOrder(s) && Enabled(s, e)
    ensures InOrder(Apply(s, e))
  {
    hide InOrder, Shape, LocalStep, ReserveStep, Enabled, SameUpload, SettingsStep, WindowStep;
    match e
    case Register(_, _) => InOrderRegister(s, e);
    case Reserve(id) => InOrderReserve(s, id);
    case On(id, l) => InOrderLocal(s, id, l);
    case _ =>
      GlobalKeeps(s, e);
      InOrderSame(s, Apply(s, e));
  }

  // ----- Waking writers -----

  /** The wait condition of `writeData` no longer holds. */
  ghost predicate Runnable(s: Conn, id: nat)
    requires id in s.streams
  {
    s.closed || s.streams[id].closed || (s.connSendWin > 0 && s.streams[id].sendWin > 0)
  }

  ghost predicate NoLostWakeup(s: Conn) {
    forall id :: id in s.streams && s.streams[id].phase.Parked? && Runnable(s, id) ==> s.broadcasts > 0
  }

  /** Updates reach every writer that may still need them: a stream outside the
      table is closed, or its writer has stopped. */
  ghost predicate NoneForgotten(s: Conn) {
    forall id :: id in s.streams && id !in s.registered ==> s.streams[id].closed || s.streams[id].phase.Gone?
  }

  lemma WakeLocal(s: Conn, id: nat, l: Local)
    requires NoLostWakeup(s) && NoneForgotten(s) && Enabled(s, On(id, l))
    ensures NoLostWakeup(LocalStep(s, id, l)) && NoneForgotten(LocalStep(s, id, l))
  {
    hide Frames, StreamAfter;
    LocalKeepsWindows(s.streams[id], l);
    GoneStaysGone(s.streams[id], l);
  }

  lemma GoneStaysGone(st: Stream, l: Local)
    requires StreamEnabled(st, l)
    ensures st.phase.Gone? || l == HeadersFailed ==> StreamAfter(st, l).phase.Gone?
  {
  }

  lemma WakeWriter(s: Conn, e: Event)
    requires Shape(s) && NoLostWakeup(s) && NoneForgotten(s) && Enabled(s, e) && (e.Register? || e.Reserve?)
    ensures NoLostWakeup(Apply(s, e)) && NoneForgotten(Apply(s, e))
  {
  }

  lemma WakeGlobal(s: Conn, e: Event)
    requires NoLostWakeup(s) && NoneForgotten(s) && Enabled(s, e) && !e.On? && !e.Register? && !e.Reserve?
    ensures NoLostWakeup(Apply(s, e)) && NoneForgotten(Apply(s, e))
  {
    GlobalKeeps(s, e);
    hide Enabled, NewInitialWindow;
    if e.GoAway? || (e.CloseLocked? && s.closed) {
    } else {
      hide Apply;
    }
  }

  lemma WakeStep(s: Conn, e: Event)
    requires Shape(s) && NoLostWakeup(s) && NoneForgotten(s) && Enabled(s, e)
    ensures NoLostWakeup(Apply(s, e)) && NoneForgotten(Apply(s, e))
  {
    hide NoLostWakeup, NoneForgotten, Shape, LocalStep;
    match e
    case On(id, l) => WakeLocal(s, id, l);
    case Register(_, _) => WakeWriter(s, e);
    case Reserve(_) => WakeWriter(s, e);
    case _ => WakeGlobal(s, e);
  }

  // ----- Done signals -----

  ghost predicate SignalsOnce(s: Conn) {
    && (forall id :: id in s.streams ==> s.streams[id].doneFired <= 1)
    && (forall id :: id in s.streams && (s.streams[id].closed || Count(s.finishing, id) > 0 || id in s.snapshot - s.toFire) ==>
          s.streams[id].doneFired == 1)
  }

  lemma SignalsLocal(s: Conn, id: nat, l: Local)
    requires SignalsOnce(s) && Enabled(s, On(id, l))
    ensures SignalsOnce(LocalStep(s, id, l))
  {
    hide Frames, Unregisters;
  }

  lemma SignalsWriter(s: Conn, e: Event)
    requires Shape(s) && SignalsOnce(s) && Enabled(s, e) && (e.Register? || e.Reserve?)
    ensures SignalsOnce(Apply(s, e))
  {
    if e.Reserve? {
      ReserveKeeps(s, e.id);
      hide ReserveStep, Shape;
    }
  }

  lemma SignalsGlobal(s: Conn, e: Event)
    requires Shape(s) && SignalsOnce(s) && Enabled(s, e) && !e.On? && !e.Register? && !e.Reserve?
    ensures SignalsOnce(Apply(s, e))
  {
    GlobalKeeps(s, e);
    hide Enabled, Apply;
  }

  lemma SignalsStep(s: Conn, e: Event)
    requires Shape(s) && SignalsOnce(s) && Enabled(s, e)
    ensures SignalsOnce(Apply(s, e))
  {
    hide SignalsOnce, Shape, LocalStep;
    match e
    case On(id, l) => SignalsLocal(s, id, l);
    case Register(_, _) => SignalsWriter(s, e);
    case Reserve(_) => SignalsWriter(s, e);
    case _ => SignalsGlobal(s, e);
  }

  // ----- Theorems about runs -----

  ghost predicate Invariant(s: Conn) {
    Shape(s) && Windows(s) && InOrder(s) && NoLostWakeup(s) && NoneForgotten(s) && SignalsOnce(s)
  }

  lemma InvariantStep(s: Conn, e: Event)
    requires Invariant(s) && Enabled(s, e)
    ensures Invariant(Apply(s, e))
  {
    hide Shape, Windows, InOrder, NoLostWakeup, NoneForgotten, SignalsOnce, Apply, Enabled;
    ShapeStep(s, e);
    WindowsStep(s, e);
    InOrderStep(s, e);
    WakeStep(s, e);
    SignalsStep(s, e);
  }

  lemma {:induction false} InvariantRun(s: Conn, events: seq<Event>)
    requires Invariant(s) && Run(s, events)
    ensures Invariant(After(s, events))
    decreases |events|
  {
    hide Invariant, Apply, Enabled;
    if events != [] {
      InvariantStep(s, events[0]);
      InvariantRun(Apply(s, events[0]), events[1..]);
    }
  }

  lemma Reached(events: seq<Event>)
    requires Run(Fresh(), events)
    ensures Invariant(After(Fresh(), events))
  {
    assert Invariant(Fresh());
    InvariantRun(Fresh(), events);
  }

  ghost function WireBytes(wire: seq<Frame>): nat {
    if wire == [] then 0 else WireBytes(wire[..|wire| - 1]) + |wire[|wire| - 1].payload|
  }

  ghost function TotalWritten(wire: seq<Frame>, n: nat): nat {
    if n == 0 then 0 else TotalWritten(wire, n - 1) + |Written(wire, n - 1)|
  }

  lemma {:induction false} TotalWrittenAppend(wire: seq<Frame>, f: Frame, n: nat)
    ensures TotalWritten(wire + [f], n) == TotalWritten(wire, n) + (if f.id < n then |f.payload| else 0)
  {
    hide Written;
    if n > 0 {
      TotalWrittenAppend(wire, f, n - 1);
      WrittenAppend(wire, f, n - 1);
    }
  }

  lemma {:induction false} NothingTotal(n: nat)
    ensures TotalWritten([], n) == 0
  {
    if n > 0 {
      NothingTotal(n - 1);
    }
  }

  lemma {:induction false} WireBytesByStream(wire: seq<Frame>, n: nat)
    requires forall i :: 0 <= i < |wire| ==> wire[i].id < n
    ensures WireBytes(wire) == TotalWritten(wire, n)
  {
    hide Written;
    if wire == [] {
      NothingTotal(n);
    } else {
      var m := |wire| - 1;
      WireBytesByStream(wire[..m], n);
      assert wire == wire[..m] + [wire[m]];
      TotalWrittenAppend(wire[..m], wire[m], n);
    }
  }

  lemma {:induction false} WrittenWithinReserved(s: Conn, n: nat)
    requires InOrder(s)
    ensures TotalWritten(s.wire, n) <= TotalReserved(s.streams, n)
  {
    hide Written, Ended, InOrder;
    if n > 0 {
      WrittenWithinReserved(s, n - 1);
      OneStreamWithinReserved(s, n - 1);
    }
  }

  lemma OneStreamWithinReserved(s: Conn, id: nat)
    requires InOrder(s)
    ensures |Written(s.wire, id)| <= if id in s.streams then s.streams[id].reserved else 0
  {
    hide Written, Ended;
    if id in s.streams {
      assert Orderly(s.streams[id], Written(s.wire, id), Ended(s.wire, id));
    } else {
      NothingWritten(s.wire, id);
    }
  }

  // ----- What the frames received say -----

  /** Credit for the connection in a run: the increments for stream 0. */
  function ConnIncrements(events: seq<Event>): nat {
    if events == [] then 0
    else (if events[0].WindowUpdate? && events[0].id == 0 then events[0].increment else 0) + ConnIncrements(events[1..])
  }

  /** Credit for a stream: the increments for it once it is open. Streams open
      under the odd numbers in turn, `next` first. */
  function StreamIncrements(events: seq<Event>, next: nat, id: nat): nat {
    if events == [] then 0
    else if events[0].Register? then StreamIncrements(events[1..], next + 2, id)
    else
      (if events[0].WindowUpdate? && events[0].id == id && id < next then events[0].increment else 0)
      + StreamIncrements(events[1..], next, id)
  }

  /** All the settings received, frame after frame. */
  function AllSettings(events: seq<Event>): seq<(nat, nat)> {
    if events == [] then []
    else (if events[0].Settings? then events[0].values else []) + AllSettings(events[1..])
  }

  /** `w` is the last initial window in the list, `start` if there is none. */
  ghost predicate LastWindow(values: seq<(nat, nat)>, start: int, w: int) {
    || (w == start && forall k :: 0 <= k < |values| ==> values[k].0 != SETTING_INITIAL_WINDOW_SIZE)
    || exists k :: LastAt(values, k, w)
  }

  ghost predicate LastAt(values: seq<(nat, nat)>, k: int, w: int) {
    && 0 <= k < |values| && values[k] == (SETTING_INITIAL_WINDOW_SIZE, w)
    && forall j :: k < j < |values| ==> values[j].0 != SETTING_INITIAL_WINDOW_SIZE
  }

  lemma {:induction false} LastWindowOfFrame(values: seq<(nat, nat)>, start: int)
    ensures LastWindow(values, start, if NewInitialWindow(values).Some? then NewInitialWindow(values).value else start)
  {
    if values != [] {
      var n := |values| - 1;
      LastWindowOfFrame(values[..n], start);
      if values[n].0 != SETTING_INITIAL_WINDOW_SIZE {
        var r := NewInitialWindow(values[..n]);
        var w := if r.Some? then r.value else start;
        if k :| LastAt(values[..n], k, w) {
          assert forall j :: k < j < n ==> values[j] == values[..n][j];
          assert LastAt(values, k, w);
        } else {
          assert forall j :: 0 <= j < n ==> values[j] == values[..n][j];
        }
      } else {
        assert LastAt(values, n, values[n].1);
      }
    }
  }

  lemma LastWindowThen(a: seq<(nat, nat)>, b: seq<(nat, nat)>, start: int, v: int, w: int)
    requires LastWindow(a, start, v) && LastWindow(b, v, w)
    ensures LastWindow(a + b, start, w)
  {
    var all := a + b;
    if k :| LastAt(b, k, w) {
      assert all[|a| + k] == b[k] && forall j :: |a| + k < j < |all| ==> all[j] == b[j - |a|];
      assert LastAt(all, |a| + k, w);
    } else {
      assert forall j :: |a| <= j < |all| ==> all[j] == b[j - |a|];
      if k :| LastAt(a, k, v) {
        assert forall j :: 0 <= j < |a| ==> all[j] == a[j];
        assert LastAt(all, k, w);
      }
    }
  }

  lemma OtherStepsLeaveWindows(s: Conn, e: Event)
    requires Enabled(s, e)
    ensures Apply(s, e).connCredit == s.connCredit + (if e.WindowUpdate? && e.id == 0 then e.increment else 0)
    ensures !e.Settings? ==> Apply(s, e).initStreamWin == s.initStreamWin
    ensures e.Settings? ==> LastWindow(e.values, s.initStreamWin, Apply(s, e).initStreamWin)
  {
    hide Frames, StreamAfter, StreamEnabled, Chunk;
    if e.Settings? {
      LastWindowOfFrame(e.values, s.initStreamWin);
    }
    hide LastWindow, NewInitialWindow;
  }

  /** The credit on record and the initial window are what the frames said. */
  lemma {:induction false} FramesDecide(s: Conn, events: seq<Event>)
    requires Run(s, events)
    ensures After(s, events).connCredit == s.connCredit + ConnIncrements(events)
    ensures LastWindow(AllSettings(events), s.initStreamWin, After(s, events).initStreamWin)
    decreases |events|
  {
    hide Enabled, Apply;
    if events != [] {
      var e := events[0];
      OtherStepsLeaveWindows(s, e);
      FramesDecide(Apply(s, e), events[1..]);
      var w := After(s, events).initStreamWin;
      if e.Settings? {
        LastWindowThen(e.values, AllSettings(events[1..]), s.initStreamWin, Apply(s, e).initStreamWin, w);
      } else {
        assert [] + AllSettings(events[1..]) == AllSettings(events[1..]);
      }
    }
  }

  function CreditOf(s: Conn, id: nat): nat {
    if id in s.streams then s.streams[id].credit else 0
  }

  lemma LocalCredit(s: Conn, other: nat, l: Local, id: nat)
    requires Enabled(s, On(other, l))
    ensures var t := Apply(s, On(other, l));
            CreditOf(t, id) == CreditOf(s, id) && t.nextID == s.nextID && (id in t.registered ==> id in s.registered)
  {
    LocalKeepsWindows(s.streams[other], l);
    hide StreamAfter, Frames, StreamEnabled;
  }

  lemma CreditStep(s: Conn, e: Event, id: nat)
    requires Shape(s) && Enabled(s, e)
    ensures var t := Apply(s, e);
            && t.nextID == s.nextID + (if e.Register? then 2 else 0)
            && (id in t.registered ==> id in s.registered || (e.Register? && id == s.nextID))
            && (id in t.registered && !e.Register? ==>
                  CreditOf(t, id) == CreditOf(s, id) + (if e.WindowUpdate? && e.id == id then e.increment else 0))
            && (id in t.registered && e.Register? ==> CreditOf(t, id) == CreditOf(s, id))
  {
    if e.On? {
      LocalCredit(s, e.id, e.e, id);
      hide Apply, Shape;
    } else {
      hide NewInitialWindow, Chunk, LocalStep;
    }
  }

  lemma {:induction false} RegisteredBefore(s: Conn, events: seq<Event>, id: nat)
    requires Shape(s) && Run(s, events) && id in After(s, events).registered
    ensures id in s.registered || id >= s.nextID
    decreases |events|
  {
    hide Enabled, Apply, Shape;
    if events != [] {
      ShapeStep(s, events[0]);
      RegisteredBefore(Apply(s, events[0]), events[1..], id);
      CreditStep(s, events[0], id);
    }
  }

  /** A stream's credit is what the frames gave it. */
  lemma {:induction false} StreamCreditIs(s: Conn, events: seq<Event>, id: nat)
    requires Shape(s) && Run(s, events) && id in After(s, events).registered
    ensures CreditOf(After(s, events), id) == CreditOf(s, id) + StreamIncrements(events, s.nextID, id)
    decreases |events|
  {
    if events != [] {
      var e, t := events[0], Apply(s, events[0]);
      assert id in s.streams ==> id < s.nextID;
      assert id in s.registered ==> id in s.streams;
      hide Enabled, Apply, Shape;
      ShapeStep(s, e);
      RegisteredBefore(s, events, id);
      RegisteredBefore(t, events[1..], id);
      CreditStep(s, e, id);
      StreamCreditIs(t, events[1..], id);
      if id !in t.registered {
        NotYet(s, e, id);
      }
    }
  }

  lemma NotYet(s: Conn, e: Event, id: nat)
    requires Shape(s) && Enabled(s, e) && id >= s.nextID
    ensures CreditOf(s, id) == 0
    ensures id >= Apply(s, e).nextID ==> CreditOf(Apply(s, e), id) == 0
  {
    ShapeStep(s, e);
    hide Apply, Enabled;
  }

  /** No stream opens after a GOAWAY or a close, anywhere in a run. */
  lemma {:induction false} NoneOpensLater(s: Conn, events: seq<Event>, i: nat, j: nat)
    requires Run(s, events) && i < j < |events| && (events[i].GoAway? || events[i].CloseLocked?)
    ensures !events[j].Register?
    decreases |events|
  {
    hide Apply;
    var t := Apply(s, events[0]);
    if i == 0 {
      assert t.goAway || t.closed by { ShutStep(s, events[0]); }
      NoneOpensWhenShut(t, events[1..], j - 1);
    } else {
      NoneOpensLater(t, events[1..], i - 1, j - 1);
    }
  }

  lemma ShutStep(s: Conn, e: Event)
    requires Enabled(s, e)
    ensures s.goAway || s.closed || e.GoAway? || e.CloseLocked? ==> Apply(s, e).goAway || Apply(s, e).closed
  {
    hide StreamAfter, Frames, Chunk, NewInitialWindow;
  }

  lemma {:induction false} NoneOpensWhenShut(s: Conn, events: seq<Event>, j: nat)
    requires Run(s, events) && j < |events| && (s.goAway || s.closed)
    ensures !events[j].Register?
    decreases |events|
  {
    hide Apply;
    if j > 0 {
      ShutStep(s, events[0]);
      NoneOpensWhenShut(Apply(s, events[0]), events[1..], j - 1);
    }
  }

  /** The connection window: in every run the body bytes written, and those
      reserved, never exceed 65535 plus the increments received for stream 0,
      and the window is what that leaves. */
  lemma ConnectionWindowRespected(events: seq<Event>)
    requires Run(Fresh(), events)
    ensures var s := After(Fresh(), events);
            && WireBytes(s.wire) <= s.connReserved <= 65535 + ConnIncrements(events)
            && s.connSendWin == 65535 + ConnIncrements(events) - s.connReserved
  {
    hide Run, After, TotalReserved, TotalWritten, WireBytes, NoLostWakeup, NoneForgotten, SignalsOnce;
    Reached(events);
    var s := After(Fresh(), events);
    FramesDecide(Fresh(), events);
    assert forall i :: 0 <= i < |s.wire| ==> s.wire[i].id < s.nextID;
    WireBytesByStream(s.wire, s.nextID);
    WrittenWithinReserved(s, s.nextID);
  }

  /** The stream window: every open stream's window is the initial window of the
      last SETTINGS received, 65535 before any, plus the increments received for
      the stream, less its reservations, below zero if SETTINGS put it there;
      what the stream has written is within its reservations. */
  lemma StreamWindowExact(events: seq<Event>, id: nat)
    requires Run(Fresh(), events) && id in After(Fresh(), events).registered
    ensures var s := After(Fresh(), events);
            && id in s.streams
            && LastWindow(AllSettings(events), 65535, s.initStreamWin)
            && s.streams[id].sendWin == s.initStreamWin + StreamIncrements(events, 1, id) - s.streams[id].reserved
            && |Written(s.wire, id)| <= s.streams[id].reserved
  {
    hide Run, After, TotalReserved, Written, InOrder, NoLostWakeup, NoneForgotten, SignalsOnce, LastWindow;
    Reached(events);
    FramesDecide(Fresh(), events);
    FreshShape();
    StreamCreditIs(Fresh(), events, id);
    OneStreamWithinReserved(After(Fresh(), events), id);
  }

  lemma FreshShape()
    ensures Shape(Fresh())
  {
  }

  /** The body: what is on the wire of a stream is always a prefix of its body;
      after an END_STREAM frame it is the whole body and nothing follows. */
  lemma BodyArrivesInOrder(events: seq<Event>, id: nat)
    requires Run(Fresh(), events) && id in After(Fresh(), events).streams
    ensures var s := After(Fresh(), events);
            && Written(s.wire, id) <= s.streams[id].body
            && (Ended(s.wire, id) ==> Written(s.wire, id) == s.streams[id].body)
            && (forall i, j :: 0 <= i < j < |s.wire| && s.wire[i].id == s.wire[j].id ==> !s.wire[i].endStream)
            && (forall i :: 0 <= i < |s.wire| ==> ProperFrame(s.wire[i]))
  {
    hide Run, After, TotalReserved, Written, Ended, Shape, Windows, NoLostWakeup, NoneForgotten, SignalsOnce;
    Reached(events);
    var s := After(Fresh(), events);
    assert Orderly(s.streams[id], Written(s.wire, id), Ended(s.wire, id));
    WholeOrPart(s.streams[id], Written(s.wire, id), Ended(s.wire, id));
  }

  lemma WholeOrPart(st: Stream, written: seq<Byte>, ended: bool)
    requires Orderly(st, written, ended)
    ensures written <= st.body && (ended ==> written == st.body)
  {
    if !st.phase.Resetting? && !st.phase.Gone? {
      assert written + Pending(st.phase) == st.body[..st.read];
      assert written == st.body[..|written|];
    }
  }

  // ----- What becomes of a stream -----

  function Opens(events: seq<Event>): nat {
    if events == [] then 0
    else Opens(events[..|events| - 1]) + if events[|events| - 1].Register? then 1 else 0
  }

  /** The body a stream was opened with and whether it is to be sent, streams
      being numbered 1, 3, 5 and so on. */
  function OpenedWith(events: seq<Event>, id: nat): Option<(seq<Byte>, bool)> {
    if events == [] then None
    else
      var before, e := events[..|events| - 1], events[|events| - 1];
      if e.Register? && id == 2 * Opens(before) + 1 then Some((e.body, e.hasBody)) else OpenedWith(before, id)
  }

  ghost predicate Signalled(events: seq<Event>, id: nat) {
    On(id, ResetWriter) in events || On(id, FireDone) in events || On(id, CloseFire) in events
  }

  /** The writer of a stream has nothing more to do. */
  ghost predicate WriterStopped(events: seq<Event>, id: nat, hasBody: bool) {
    || On(id, HeadersFailed) in events || On(id, ResetWriter) in events || On(id, WriteEnd(true)) in events
    || (!hasBody && On(id, HeadersWritten) in events)
  }

  ghost predicate Fate(st: Stream, body: seq<Byte>, hasBody: bool, events: seq<Event>, id: nat) {
    && st.body == body
    && (st.phase.Opening? <==> On(id, HeadersWritten) !in events && On(id, HeadersFailed) !in events)
    && (st.phase.Opening? ==> st.phase.hasBody == hasBody)
    && (st.phase.Gone? <==> WriterStopped(events, id, hasBody))
    && (!hasBody ==> st.phase.Opening? || st.phase.Gone?)
    && (st.closed <==> On(id, FinishLocked) in events)
    && (st.doneFired > 0 <==> Signalled(events, id))
  }

  ghost predicate Registration(s: Conn, events: seq<Event>, id: nat) {
    && s.nextID == 2 * Opens(events) + 1
    && (id in s.streams <==> OpenedWith(events, id).Some?)
    && (id in s.registered <==>
          id in s.streams && On(id, FinishLocked) !in events && On(id, HeadersFailed) !in events)
    && (id !in s.streams ==> forall l: Local :: On(id, l) !in events)
    && Count(s.finishing, id) + multiset(events)[On(id, FinishLocked)]
       == multiset(events)[On(id, ResetWriter)] + multiset(events)[On(id, FireDone)]
  }

  ghost predicate StreamLife(s: Conn, o: Option<(seq<Byte>, bool)>, events: seq<Event>, id: nat) {
    id in s.streams && o.Some? ==>
      && Fate(s.streams[id], o.value.0, o.value.1, events, id)
      && (Ended(s.wire, id) <==> On(id, WriteEnd(true)) in events)
      && (!o.value.1 ==> forall i :: 0 <= i < |s.wire| ==> s.wire[i].id != id)
  }

  ghost predicate Life(s: Conn, events: seq<Event>, id: nat) {
    Registration(s, events, id) && StreamLife(s, OpenedWith(events, id), events, id)
  }

  lemma OpensAppend(events: seq<Event>, e: Event, id: nat)
    ensures Opens(events + [e]) == Opens(events) + (if e.Register? then 1 else 0)
    ensures OpenedWith(events + [e], id)
         == if e.Register? && id == 2 * Opens(events) + 1 then Some((e.body, e.hasBody)) else OpenedWith(events, id)
  {
    assert (events + [e])[..|events|] == events;
  }

  lemma FateLocal(st: Stream, body: seq<Byte>, hasBody: bool, events: seq<Event>, id: nat, l: Local)
    requires Fate(st, body, hasBody, events, id) && StreamEnabled(st, l)
    ensures Fate(StreamAfter(st, l), body, hasBody, events + [On(id, l)], id)
    ensures !hasBody ==> Frames(id, st, l) == []
  {
  }

  lemma FateReserve(s: Conn, body: seq<Byte>, hasBody: bool, events: seq<Event>, id: nat)
    requires Enabled(s, Reserve(id)) && Fate(s.streams[id], body, hasBody, events, id)
    ensures Fate(ReserveStep(s, id).streams[id], body, hasBody, events + [Reserve(id)], id)
  {
    hide Chunk;
  }

  lemma FateSame(a: Stream, b: Stream, body: seq<Byte>, hasBody: bool, events: seq<Event>, e: Event, id: nat)
    requires Fate(a, body, hasBody, events, id) && SameUpload(a, b) && b.closed == a.closed && b.doneFired == a.doneFired
    requires !e.On? || e.id != id
    ensures Fate(b, body, hasBody, events + [e], id)
  {
  }

  lemma RegistrationLocal(s: Conn, events: seq<Event>, other: nat, l: Local, id: nat)
    requires Registration(s, events, id) && Enabled(s, On(other, l))
    ensures Registration(LocalStep(s, other, l), events + [On(other, l)], id)
  {
    hide Frames, StreamAfter, StreamEnabled, Opens, OpenedWith;
    OpensAppend(events, On(other, l), id);
  }

  lemma WireLocal(s: Conn, other: nat, l: Local, id: nat)
    requires Enabled(s, On(other, l))
    ensures var s' := LocalStep(s, other, l);
            && (Ended(s'.wire, id) <==> Ended(s.wire, id) || (other == id && l == WriteEnd(true)))
            && (Frames(other, s.streams[other], l) == [] ==> s'.wire == s.wire)
            && (other != id && (forall i :: 0 <= i < |s.wire| ==> s.wire[i].id != id)
                ==> forall i :: 0 <= i < |s'.wire| ==> s'.wire[i].id != id)
  {
    var fs := Frames(other, s.streams[other], l);
    assert fs != [] ==> fs == [fs[0]] && fs[0].id == other && (fs[0].endStream <==> l == WriteEnd(true));
    assert l == WriteEnd(true) ==> fs != [];
    hide Ended, Written, Frames, StreamAfter, StreamEnabled, Unregisters;
    if fs == [] {
      assert s.wire + [] == s.wire;
    } else {
      WrittenAppend(s.wire, fs[0], id);
    }
  }

  lemma LifeLocal(s: Conn, events: seq<Event>, other: nat, l: Local, id: nat, o: Option<(seq<Byte>, bool)>)
    requires StreamLife(s, o, events, id) && Enabled(s, On(other, l))
    ensures StreamLife(LocalStep(s, other, l), o, events + [On(other, l)], id)
  {
    hide Fate, StreamAfter, Ended, StreamEnabled, Frames, Unregisters, SameUpload;
    if id in s.streams && o.Some? {
      WireLocal(s, other, l, id);
      if other == id {
        FateLocal(s.streams[id], o.value.0, o.value.1, events, id, l);
      } else {
        SameItself(s.streams[id]);
        FateSame(s.streams[id], s.streams[id], o.value.0, o.value.1, events, On(other, l), id);
      }
    }
  }

  lemma SameItself(st: Stream)
    ensures SameUpload(st, st)
  {
  }

  lemma RegistrationGlobal(s: Conn, events: seq<Event>, e: Event, id: nat)
    requires Shape(s) && Registration(s, events, id) && Enabled(s, e) && !e.On?
    ensures Registration(Apply(s, e), events + [e], id)
  {
    hide Opens, OpenedWith, Chunk, NewInitialWindow;
    OpensAppend(events, e, id);
  }

  lemma FateNew(st: Stream, events: seq<Event>, e: Event, id: nat)
    requires e.Register? && st.body == e.body && st.phase == Opening(e.hasBody) && !st.closed && st.doneFired == 0
    requires forall l: Local :: On(id, l) !in events
    ensures Fate(st, e.body, e.hasBody, events + [e], id)
  {
  }

  lemma LifeNew(s: Conn, events: seq<Event>, e: Event)
    requires Shape(s) && InOrder(s) && Enabled(s, e) && e.Register?
    requires forall l: Local :: On(s.nextID, l) !in events
    ensures StreamLife(Apply(s, e), Some((e.body, e.hasBody)), events + [e], s.nextID)
  {
    FateNew(Apply(s, e).streams[s.nextID], events, e, s.nextID);
    hide Fate, Orderly, ProperFrame, Written;
    assert On(s.nextID, WriteEnd(true)) !in events + [e];
  }

  lemma LifeRegister(s: Conn, events: seq<Event>, e: Event, id: nat, o: Option<(seq<Byte>, bool)>)
    requires StreamLife(s, o, events, id) && Enabled(s, e) && e.Register? && id != s.nextID
    ensures StreamLife(Apply(s, e), o, events + [e], id)
  {
    hide Fate, Ended, SameUpload;
    if id in s.streams && o.Some? {
      SameItself(s.streams[id]);
      FateSame(s.streams[id], s.streams[id], o.value.0, o.value.1, events, e, id);
    }
  }

  lemma LifeReserve(s: Conn, events: seq<Event>, other: nat, id: nat, o: Option<(seq<Byte>, bool)>)
    requires StreamLife(s, o, events, id) && Enabled(s, Reserve(other))
    ensures StreamLife(ReserveStep(s, other), o, events + [Reserve(other)], id)
  {
    hide Fate, Ended, SameUpload, Chunk;
    if id in s.streams && o.Some? {
      if other == id {
        FateReserve(s, o.value.0, o.value.1, events, id);
      } else {
        SameItself(s.streams[id]);
        FateSame(s.streams[id], s.streams[id], o.value.0, o.value.1, events, Reserve(other), id);
      }
    }
  }

  lemma LifeGlobal(s: Conn, s': Conn, events: seq<Event>, e: Event, id: nat, o: Option<(seq<Byte>, bool)>)
    requires StreamLife(s, o, events, id) && Keeps(s, s') && !e.On?
    ensures StreamLife(s', o, events + [e], id)
  {
    hide Fate, Ended, SameUpload;
    if id in s.streams && o.Some? {
      FateSame(s.streams[id], s'.streams[id], o.value.0, o.value.1, events, e, id);
    }
  }

  lemma LifeStep(s: Conn, events: seq<Event>, e: Event, id: nat)
    requires Shape(s) && InOrder(s) && Life(s, events, id) && Enabled(s, e)
    ensures Life(Apply(s, e), events + [e], id)
  {
    hide Shape, InOrder, StreamLife, LocalStep, ReserveStep, Opens, OpenedWith, Keeps, Enabled, WindowStep, SettingsStep;
    OpensAppend(events, e, id);
    var o := OpenedWith(events, id);
    if e.On? {
      RegistrationLocal(s, events, e.id, e.e, id);
      LifeLocal(s, events, e.id, e.e, id, o);
    } else {
      RegistrationGlobal(s, events, e, id);
      if e.Register? && id == s.nextID {
        NextIsNew(s);
        LifeNew(s, events, e);
      } else if e.Register? {
        LifeRegister(s, events, e, id, o);
      } else if e.Reserve? {
        LifeReserve(s, events, e.id, id, o);
      } else {
        GlobalKeeps(s, e);
        LifeGlobal(s, Apply(s, e), events, e, id, o);
      }
    }
  }

  lemma NextIsNew(s: Conn)
    requires Shape(s)
    ensures s.nextID !in s.streams
  {
  }

  lemma {:induction false} LifeRun(s: Conn, done: seq<Event>, events: seq<Event>, id: nat)
    requires Invariant(s) && Life(s, done, id) && Run(s, events)
    ensures Life(After(s, events), done + events, id)
    decreases |events|
  {
    hide Shape, Windows, NoLostWakeup, NoneForgotten, SignalsOnce, InOrder, Life, Apply, Enabled;
    if events == [] {
      assert done + events == done;
    } else {
      LifeStep(s, done, events[0], id);
      InvariantStep(s, events[0]);
      LifeRun(Apply(s, events[0]), done + [events[0]], events[1..], id);
      assert done + [events[0]] + events[1..] == done + events;
    }
  }

  lemma FreshLife(id: nat)
    ensures Life(Fresh(), [], id)
  {
  }

  lemma FreshIsSound()
    ensures Invariant(Fresh())
  {
  }

  /** What has become of a stream is decided by what was done to it: whether it
      is registered, closed and signalled, and whether its writer has stopped.
      When nothing failed and the writer has stopped, its whole body has been
      sent, and a stream opened without one sends no DATA at all. */
  lemma StreamFate(events: seq<Event>, id: nat)
    requires Run(Fresh(), events)
    ensures var s := After(Fresh(), events);
            && (id in s.streams <==> OpenedWith(events, id).Some?)
            && (id in s.registered <==>
                  id in s.streams && On(id, FinishLocked) !in events && On(id, HeadersFailed) !in events)
            && multiset(events)[On(id, FinishLocked)]
               <= multiset(events)[On(id, ResetWriter)] + multiset(events)[On(id, FireDone)]
            && (id in s.streams && multiset(events)[On(id, FinishLocked)]
                   < multiset(events)[On(id, ResetWriter)] + multiset(events)[On(id, FireDone)]
                ==> Enabled(s, On(id, FinishLocked)))
            && (id in s.streams ==>
                  var (body, hasBody) := OpenedWith(events, id).value;
                  var st := s.streams[id];
                  && st.body == body
                  && (st.closed <==> On(id, FinishLocked) in events)
                  && (st.doneFired > 0 <==> Signalled(events, id))
                  && (st.phase.Gone? <==> WriterStopped(events, id, hasBody))
                  && (st.phase.Gone? && hasBody && On(id, HeadersFailed) !in events && On(id, ResetWriter) !in events
                      ==> Written(s.wire, id) == body && Ended(s.wire, id))
                  && (!hasBody ==> forall i :: 0 <= i < |s.wire| ==> s.wire[i].id != id))
  {
    hide Run, After, Shape, Windows, NoLostWakeup, NoneForgotten, SignalsOnce, InOrder, Written, Ended, OpenedWith, Opens;
    FreshLife(id);
    FreshIsSound();
    LifeRun(Fresh(), [], events, id);
    assert [] + events == events;
    if id in After(Fresh(), events).streams {
      BodyArrivesInOrder(events, id);
    }
  }

  /** The broadcasts a step leaves owed: SETTINGS and WINDOW_UPDATE frames, a
      finished stream and the first close leave one each. */
  function Owes(before: seq<Event>, e: Event): nat {
    match e
    case Settings(_) => 1
    case WindowUpdate(_, _) => 1
    case On(_, l) => if l == FinishLocked then 1 else 0
    case CloseLocked => if CloseLocked in before then 0 else 1
    case _ => 0
  }

  function Owed(events: seq<Event>): nat {
    if events == [] then 0
    else
      var n := |events| - 1;
      Owed(events[..n]) + Owes(events[..n], events[n])
  }

  ghost predicate Ledger(s: Conn, events: seq<Event>) {
    && s.broadcasts + multiset(events)[Broadcast] == Owed(events)
    && (s.closed <==> CloseLocked in events)
    && (s.goAway <==> GoAway in events)
  }

  lemma StepOwes(s: Conn, before: seq<Event>, e: Event)
    requires Enabled(s, e) && (s.closed <==> CloseLocked in before)
    ensures var s' := Apply(s, e);
            && s'.broadcasts + (if e.Broadcast? then 1 else 0) == s.broadcasts + Owes(before, e)
            && s'.closed == (s.closed || e.CloseLocked?) && s'.goAway == (s.goAway || e.GoAway?)
  {
    hide Frames, StreamAfter, StreamEnabled, NewInitialWindow, ReserveStep, Unregisters, Unpark;
    if e.Reserve? {
      ReserveOwesNothing(s, e.id);
    }
  }

  lemma ReserveOwesNothing(s: Conn, id: nat)
    requires Enabled(s, Reserve(id))
    ensures var s' := ReserveStep(s, id);
            s'.broadcasts == s.broadcasts && s'.closed == s.closed && s'.goAway == s.goAway
  {
    hide Chunk;
  }

  lemma LedgerStep(s: Conn, events: seq<Event>, e: Event)
    requires Ledger(s, events) && Enabled(s, e)
    ensures Ledger(Apply(s, e), events + [e])
  {
    hide Apply, Enabled;
    StepOwes(s, events, e);
    assert (events + [e])[..|events|] == events;
    hide Owes;
  }

  lemma {:induction false} LedgerRun(s: Conn, done: seq<Event>, events: seq<Event>)
    requires Ledger(s, done) && Run(s, events)
    ensures Ledger(After(s, events), done + events)
    decreases |events|
  {
    hide Apply, Enabled, Ledger;
    if events == [] {
      assert done + events == done;
    } else {
      LedgerStep(s, done, events[0]);
      LedgerRun(Apply(s, events[0]), done + [events[0]], events[1..]);
      assert done + [events[0]] + events[1..] == done + events;
    }
  }

  /** Every frame that moves a window, every finished stream and the close owes
      one broadcast, and each is paid once. */
  lemma BroadcastsAreOwed(events: seq<Event>)
    requires Run(Fresh(), events)
    ensures var s := After(Fresh(), events);
            && s.broadcasts + multiset(events)[Broadcast] == Owed(events)
            && (s.closed <==> CloseLocked in events)
            && (s.goAway <==> GoAway in events)
  {
    hide Run, After;
    LedgerRun(Fresh(), [], events);
    assert [] + events == events;
  }

  /** No writer sleeps for good: whenever a sleeping writer could go on, a
      broadcast is owed, and the next one wakes it with its data intact; and
      whatever can still make it runnable reaches it, because its stream is
      registered or closed. */
  lemma NoWriterSleepsForever(events: seq<Event>, id: nat)
    requires Run(Fresh(), events)
    requires id in After(Fresh(), events).streams && After(Fresh(), events).streams[id].phase.Parked?
    ensures var s := After(Fresh(), events);
            && (id in s.registered || s.streams[id].closed)
            && (Runnable(s, id) ==> Enabled(s, Broadcast))
            && (Enabled(s, Broadcast) ==>
                  var st := s.streams[id];
                  Apply(s, Broadcast).streams[id] == st.(phase := Wanting(st.phase.data, st.phase.next)))
  {
    hide Run, After, Shape, Windows, InOrder, SignalsOnce;
    Reached(events);
  }

  /** A writer with data left goes to sleep exactly when neither it nor the
      connection is closed and one of the windows is used up. */
  lemma SleepsIff(s: Conn, id: nat)
    requires Enabled(s, Reserve(id))
    ensures Apply(s, Reserve(id)).streams[id].phase.Parked?
       <==> !s.closed && !s.streams[id].closed && (s.connSendWin <= 0 || s.streams[id].sendWin <= 0)
    ensures Apply(s, Reserve(id)).streams[id].phase.Parked? <==> !Runnable(s, id)
    ensures Apply(s, Reserve(id)).streams[id].phase.Resetting? <==> s.closed || s.streams[id].closed
  {
    hide Chunk;
  }

  /** After close nothing registers: the set of streams is final, and close is
      never undone. */
  lemma {:induction false} ClosedStaysClosed(s: Conn, events: seq<Event>)
    requires s.closed && Run(s, events) && Shape(s)
    ensures After(s, events).closed && After(s, events).streams.Keys == s.streams.Keys
    ensures After(s, events).snapshot == s.snapshot
    decreases |events|
  {
    hide Apply, Enabled, Shape;
    if events != [] {
      ClosedStep(s, events[0]);
      ShapeStep(s, events[0]);
      ClosedStaysClosed(Apply(s, events[0]), events[1..]);
    }
  }

  lemma ClosedStep(s: Conn, e: Event)
    requires s.closed && Enabled(s, e) && Shape(s)
    ensures Apply(s, e).closed && Apply(s, e).streams.Keys == s.streams.Keys && Apply(s, e).snapshot == s.snapshot
  {
    hide Shape;
    if e.Reserve? {
      ReserveKeeps(s, e.id);
      hide ReserveStep;
    } else if !e.On? && !e.Register? {
      GlobalKeeps(s, e);
      hide Apply, SameUpload;
    }
  }

  /** Closing takes down exactly the registered streams, and when it has run its
      course every one of them has been signalled exactly once. */
  lemma CloseSignalsEveryStream(events: seq<Event>, more: seq<Event>)
    requires Run(Fresh(), events) && !After(Fresh(), events).closed
    requires Run(Apply(After(Fresh(), events), CloseLocked), more)
    ensures var s := After(Fresh(), events);
            var s' := After(Apply(s, CloseLocked), more);
            && s'.snapshot == s.registered <= s'.streams.Keys
            && (s'.toFire == {} ==> forall id :: id in s.registered ==> s'.streams[id].doneFired == 1)
            && (forall id :: id in s'.streams ==> s'.streams[id].doneFired <= 1)
  {
    hide Run, After, Windows, InOrder, NoLostWakeup, NoneForgotten;
    var s := After(Fresh(), events);
    Reached(events);
    var c := Apply(s, CloseLocked);
    InvariantStep(s, CloseLocked);
    InvariantRun(c, more);
    ClosedStaysClosed(c, more);
  }

  // ----- SETTINGS -----

  /** Only the last INITIAL_WINDOW_SIZE of a frame is used, which comes to the
      same as processing the values one after another (section 6.5.3 of RFC 7540). */
  lemma SettingsInOrder(s: Conn, values: seq<(nat, nat)>, more: seq<(nat, nat)>)
    requires Shape(s)
    ensures var one := SettingsStep(s, values + more);
            var two := SettingsStep(SettingsStep(s, values), more);
            one.initStreamWin == two.initStreamWin && one.streams == two.streams && one.connSendWin == two.connSendWin
  {
    LastOf(values, more);
    hide NewInitialWindow;
  }

  lemma {:induction false} LastOf(values: seq<(nat, nat)>, more: seq<(nat, nat)>)
    ensures NewInitialWindow(values + more)
            == if NewInitialWindow(more).Some? then NewInitialWindow(more) else NewInitialWindow(values)
  {
    if more == [] {
      assert values + more == values;
    } else {
      var n := |more| - 1;
      LastOf(values, more[..n]);
      assert (values + more)[..|values| + n] == values + more[..n];
      assert (values + more)[|values| + n] == more[n];
    }
  }

  /** The stream's part is being written: `e` does not finish that. */
  predicate LeavesPart(e: Event, id: nat) {
    !(e.On? && e.id == id && e.e.WriteData?)
  }

  ghost predicate PartWaits(s: Conn, s': Conn, id: nat) {
    && id in s.streams && id in s'.streams
    && s'.streams[id].phase == s.streams[id].phase && s'.streams[id].reserved == s.streams[id].reserved
    && s'.streams[id].credit >= s.streams[id].credit
    && (id in s'.registered ==> id in s.registered)
  }

  lemma PartWaitsLocal(s: Conn, id: nat, other: nat, l: Local)
    requires Enabled(s, On(other, l)) && id in s.streams && s.streams[id].phase.Sending? && LeavesPart(On(other, l), id)
    ensures PartWaits(s, Apply(s, On(other, l)), id) && Apply(s, On(other, l)).initStreamWin == s.initStreamWin
  {
    hide Frames;
  }

  lemma PartWaitsStep(s: Conn, e: Event, id: nat)
    requires Shape(s) && Enabled(s, e) && id in s.streams && s.streams[id].phase.Sending? && LeavesPart(e, id)
    ensures PartWaits(s, Apply(s, e), id)
    ensures !e.Settings? ==> Apply(s, e).initStreamWin == s.initStreamWin
  {
    if e.On? {
      PartWaitsLocal(s, id, e.id, e.e);
      hide *;
    } else {
      hide NewInitialWindow, Chunk, LocalStep;
    }
  }

  lemma {:induction false} PartWaitsRun(s: Conn, more: seq<Event>, id: nat)
    requires Invariant(s) && Run(s, more) && id in s.streams && s.streams[id].phase.Sending?
    requires forall i :: 0 <= i < |more| ==> LeavesPart(more[i], id)
    ensures PartWaits(s, After(s, more), id) && Invariant(After(s, more))
    ensures (forall i :: 0 <= i < |more| ==> !more[i].Settings?) ==> After(s, more).initStreamWin == s.initStreamWin
    decreases |more|
  {
    if more != [] {
      assert Shape(s);
      hide Invariant, Apply, Enabled, Shape, LeavesPart;
      InvariantStep(s, more[0]);
      PartWaitsStep(s, more[0], id);
      PartWaitsRun(Apply(s, more[0]), more[1..], id);
    }
  }

  /** A waiting part keeps its reservation: the window has moved by what credit
      came in and by what SETTINGS did to the initial window. */
  lemma WindowWhileWaiting(s: Conn, more: seq<Event>, id: nat)
    requires Invariant(s) && Run(s, more) && id in s.streams && s.streams[id].phase.Sending?
    requires id in After(s, more).registered && forall i :: 0 <= i < |more| ==> LeavesPart(more[i], id)
    ensures var s2 := After(s, more);
            && PartWaits(s, s2, id)
            && s2.streams[id].sendWin
               == s.streams[id].sendWin + (s2.streams[id].credit - s.streams[id].credit) + (s2.initStreamWin - s.initStreamWin)
            && ((forall i :: 0 <= i < |more| ==> !more[i].Settings?) ==> s2.initStreamWin == s.initStreamWin)
  {
    hide Run, After, LeavesPart, Invariant;
    PartWaitsRun(s, more, id);
    WindowIs(s, id);
    WindowIs(After(s, more), id);
  }

  /** Section 6.9.2 of RFC 7540 bars new DATA while a window is negative, and no
      reservation is made unless both windows are positive. A part reserved
      before is still written later: it meets a negative window exactly when,
      while it waited, SETTINGS lowered the initial window by more than the
      window had left after the reservation plus the credit that came in. */
  lemma WrittenBelowZeroIff(s: Conn, id: nat, s1: Conn, more: seq<Event>)
    requires Invariant(s) && Enabled(s, Reserve(id)) && s1 == Apply(s, Reserve(id))
    requires id in s1.streams && s1.streams[id].phase.Sending? && Run(s1, more)
    requires id in After(s1, more).registered && forall i :: 0 <= i < |more| ==> LeavesPart(more[i], id)
    ensures var s2 := After(s1, more);
            && id in s2.streams && Enabled(s2, On(id, WriteData(true)))
            && Apply(s2, On(id, WriteData(true))).wire == s2.wire + [Frame(id, s1.streams[id].phase.part, false)]
            && s1.streams[id].sendWin >= 0
            && (s2.streams[id].sendWin < 0
                <==> s1.initStreamWin - s2.initStreamWin
                     > s1.streams[id].sendWin + s2.streams[id].credit - s1.streams[id].credit)
            && (s2.streams[id].sendWin < 0 ==> exists i :: 0 <= i < |more| && more[i].Settings?)
  {
    hide Run, After, LeavesPart, Apply, Enabled, Invariant;
    InvariantStep(s, Reserve(id));
    ReservedInWindow(s, id);
    WindowWhileWaiting(s1, more, id);
    PartCanBeWritten(After(s1, more), id);
  }

  lemma ReservedInWindow(s: Conn, id: nat)
    requires Enabled(s, Reserve(id)) && Apply(s, Reserve(id)).streams[id].phase.Sending?
    ensures Apply(s, Reserve(id)).streams[id].sendWin >= 0
  {
  }

  lemma WindowIs(s: Conn, id: nat)
    requires Invariant(s) && id in s.registered && id in s.streams
    ensures s.streams[id].sendWin == s.initStreamWin + s.streams[id].credit - s.streams[id].reserved
  {
    hide Shape, InOrder, NoLostWakeup, NoneForgotten, SignalsOnce, TotalReserved;
  }

  lemma PartCanBeWritten(s: Conn, id: nat)
    requires id in s.streams && s.streams[id].phase.Sending?
    ensures Enabled(s, On(id, WriteData(true)))
    ensures Apply(s, On(id, WriteData(true))).wire == s.wire + [Frame(id, s.streams[id].phase.part, false)]
  {
  }

  // ----- The connection object -----

  datatype Grant = Wait | Stop | Take(n: nat)

  /** What the locked section tells the writer that got into `phase`. */
  function GrantOf(phase: Phase): Grant {
    if phase.Parked? then Wait else if phase.Sending? then Take(|phase.part|) else Stop
  }

  lemma ChunkInRange(len: nat, connWin: int, streamWin: int)
    requires connWin > 0 && streamWin > 0
    ensures 0 <= Chunk(len, connWin, streamWin) <= len
  {
  }

  /** The scan over a SETTINGS frame. */
  method LastInitialWindow(values: seq<(nat, nat)>) returns (r: Option<nat>)
    ensures r == NewInitialWindow(values)
  {
    r := None;
    for i := 0 to |values|
      invariant r == NewInitialWindow(values[..i])
    {
      var (id, v) := values[i];
      assert values[..i + 1][..i] == values[..i];
      if id == SETTING_INITIAL_WINDOW_SIZE {
        r := Some(v);
      }
    }
    assert values[..|values|] == values;
  }

  lemma FinishEffect(s: Conn, id: nat)
    requires Enabled(s, On(id, FinishLocked))
    ensures id in s.streams
    ensures Apply(s, On(id, FinishLocked))
            == s.(streams := s.streams[id := s.streams[id].(closed := true)], registered := s.registered - {id},
                  finishing := OneLess(s.finishing, id), broadcasts := s.broadcasts + 1)
  {
    assert s.wire + [] == s.wire;
  }

  /** The loop over the table when the initial window has changed. */
  method ShiftWindows(streams: map<nat, Stream>, ids: set<nat>, delta: int) returns (r: map<nat, Stream>)
    requires ids <= streams.Keys
    ensures r == Shifted(streams, ids, delta)
  {
    r := streams;
    var todo := ids;
    while todo != {}
      invariant todo <= ids && r == Shifted(streams, ids - todo, delta)
      decreases todo
    {
      var id :| id in todo;
      r := r[id := r[id].(sendWin := r[id].sendWin + delta)];
      todo := todo - {id};
    }
    assert ids - todo == ids;
  }

  /** The fields the mutex guards, each method one critical section of the
      source. The ghost fields complete the state of the transition system. */
  class Connection {
    var connSendWin: int
    var initStreamWin: int
    var nextID: nat
    var goAway: bool
    var closed: bool
    var streams: map<nat, Stream>
    var registered: set<nat>
    ghost var finishing: map<nat, nat>
    ghost var broadcasts: nat
    ghost var snapshot: set<nat>
    ghost var toFire: set<nat>
    ghost var wire: seq<Frame>
    ghost var connCredit: nat
    ghost var connReserved: nat

    ghost function State(): Conn
      reads this
    {
      Conn(connSendWin, initStreamWin, nextID, goAway, closed, streams, registered,
           finishing, broadcasts, snapshot, toFire, wire, connCredit, connReserved)
    }

    constructor ()
      ensures State() == Fresh()
    {
      connSendWin, initStreamWin, nextID := INITIAL_WINDOW, INITIAL_WINDOW, 1;
      goAway, closed, streams, registered := false, false, map[], {};
      finishing, broadcasts, snapshot, toFire := map[], 0, {}, {};
      wire, connCredit, connReserved := [], 0, 0;
    }

    /** The locked section of `roundTrip`. */
    method Open(body: seq<Byte>, hasBody: bool) returns (id: Option<nat>)
      modifies this
      ensures id.None? <==> old(closed || goAway)
      ensures id.None? ==> State() == old(State())
      ensures id.Some? ==> id.value == old(nextID) && State() == Apply(old(State()), Register(body, hasBody))
    {
      if closed || goAway {
        return None;
      }
      id := Some(nextID);
      nextID := nextID + 2;
      streams := streams[id.value := Stream(initStreamWin, false, 0, body, 0, Opening(hasBody), 0, 0)];
      registered := registered + {id.value};
    }

    /** The locked section of `writeData`. */
    method TryReserve(id: nat) returns (g: Grant)
      requires Enabled(State(), Reserve(id))
      modifies this
      ensures State() == Apply(old(State()), Reserve(id)) && g == GrantOf(streams[id].phase)
    {
      hide Chunk;
      var st := streams[id];
      var data, next := st.phase.data, st.phase.next;
      if closed || st.closed {
        streams := streams[id := st.(phase := Resetting)];
        return Stop;
      }
      if connSendWin <= 0 || st.sendWin <= 0 {
        streams := streams[id := st.(phase := Parked(data, next))];
        return Wait;
      }
      var chunk := Chunk(|data|, connSendWin, st.sendWin);
      ChunkInRange(|data|, connSendWin, st.sendWin);
      connSendWin := connSendWin - chunk;
      connReserved := connReserved + chunk;
      streams := streams[id := st.(sendWin := st.sendWin - chunk, reserved := st.reserved + chunk,
                                   phase := Sending(data[..chunk], data[chunk..], next))];
      return Take(chunk);
    }

    /** `handleSettings`. */
    method HandleSettings(values: seq<(nat, nat)>)
      requires registered <= streams.Keys
      modifies this
      ensures State() == Apply(old(State()), Settings(values))
    {
      hide NewInitialWindow, Shifted;
      var newInitWin := LastInitialWindow(values);
      broadcasts := broadcasts + 1;
      if newInitWin.None? {
        return;
      }
      streams := ShiftWindows(streams, registered, newInitWin.value - initStreamWin);
      initStreamWin := newInitWin.value;
    }

    /** `handleWindowUpdate`. */
    method HandleWindowUpdate(id: nat, increment: nat)
      requires registered <= streams.Keys
      modifies this
      ensures State() == Apply(old(State()), WindowUpdate(id, increment))
      ensures connSendWin == old(connSendWin) + (if id == 0 then increment else 0)
      ensures streams.Keys == old(streams).Keys && forall k :: k in streams ==>
                streams[k].sendWin == old(streams)[k].sendWin + (if k == id && id != 0 && id in registered then increment else 0)
    {
      if id == 0 {
        connSendWin, connCredit := connSendWin + increment, connCredit + increment;
      } else if id in registered {
        var st := streams[id];
        streams := streams[id := st.(sendWin := st.sendWin + increment, credit := st.credit + increment)];
      }
      broadcasts := broadcasts + 1;
    }

    /** The locked section of `finishStream`. */
    method Finish(id: nat)
      requires Enabled(State(), On(id, FinishLocked))
      modifies this
      ensures State() == Apply(old(State()), On(id, FinishLocked))
    {
      FinishEffect(State(), id);
      hide Apply, Enabled;
      streams := streams[id := streams[id].(closed := true)];
      registered := registered - {id};
      finishing, broadcasts := OneLess(finishing, id), broadcasts + 1;
    }

    /** `removeStream`, for a stream whose headers could not be written. */
    method Remove(id: nat)
      requires Enabled(State(), On(id, HeadersFailed))
      modifies this
      ensures State() == Apply(old(State()), On(id, HeadersFailed))
    {
      registered := registered - {id};
      streams := streams[id := streams[id].(phase := Gone)];
    }

    /** The locked section of `closeWithErr`: the streams to take down, or none
        when the connection was closed before. */
    method BeginClose() returns (doomed: set<nat>)
      modifies this
      ensures State() == Apply(old(State()), CloseLocked)
      ensures doomed == if old(closed) then {} else old(registered)
    {
      if closed {
        return {};
      }
      closed := true;
      doomed := registered;
      snapshot, toFire, broadcasts := registered, registered, broadcasts + 1;
    }

    /** The loop of `closeWithErr` that ends the streams. */
    method SignalDoomed(doomed: set<nat>)
      requires doomed == toFire && toFire <= streams.Keys
      modifies this
      ensures toFire == {} && streams.Keys == old(streams).Keys
      ensures State() == old(State()).(streams := streams, toFire := {})
      ensures forall id :: id in streams ==>
                streams[id] == if id in doomed then Fired(old(streams)[id]) else old(streams)[id]
    {
      var todo := doomed;
      while todo != {}
        invariant todo <= doomed && todo == toFire && streams.Keys == old(streams).Keys
        invariant State() == old(State()).(streams := streams, toFire := toFire)
        invariant forall id :: id in streams ==>
                    streams[id] == if id in doomed - todo then Fired(old(streams)[id]) else old(streams)[id]
        decreases todo
      {
        var id :| id in todo;
        streams := streams[id := Fired(streams[id])];
        todo, toFire := todo - {id}, toFire - {id};
      }
    }
  }
}
