/** How a connection ends: the codes of section 7.4.1 of RFC 6455, and what the peer is told (ws/conn.go). */
module Closing {
  import opened Utf8
  import opened Frames
  import opened ClosePayload
  import opened Options
  import opened Conn
  import opened WireFormat

  // ----- Close payloads in plain numbers -----

  predicate MayBeSent(code: int) {
    code in {1000, 1001, 1002, 1003, 1007, 1008, 1009, 1010, 1011} || 3000 <= code <= 4999
  }

  function CodeAt(payload: bytes): nat
    requires |payload| >= 2
  {
    0x100 * payload[0] as int + payload[1]
  }

  /** Every payload is accepted, with the two bytes as a code and the rest as the reason, or refused, exactly so. */
  lemma CloseRead(payload: bytes)
    ensures payload == [] ==> ParseClose(payload) == Ok((1005, []))
    ensures |payload| == 1 ==> ParseClose(payload) == Err(BadCloseCode)
    ensures |payload| >= 2 && !MayBeSent(CodeAt(payload)) ==> ParseClose(payload) == Err(BadCloseCode)
    ensures |payload| >= 2 && MayBeSent(CodeAt(payload)) && !WellFormed(payload[2..]) ==>
              ParseClose(payload) == Err(BadUtf8)
    ensures |payload| >= 2 && MayBeSent(CodeAt(payload)) && WellFormed(payload[2..]) ==>
              ParseClose(payload) == Ok((CodeAt(payload), payload[2..]))
  {
    hide WellFormed;
    if |payload| >= 2 {
      NetworkOrder(payload[..2]);
    }
  }

  /** A final close frame of two bytes, which are this code. */
  predicate Tells(f: Frame, code: nat) {
    f.final && f.opcode == 8 && |f.payload| == 2 && CodeAt(f.payload) == code
  }

  lemma CodeBytes(code: nat)
    requires code < 0x1_0000
    ensures |BigEndian(code, 2)| == 2 && CodeAt(BigEndian(code, 2)) == code
  {
    Pow8();
    NumberOfBigEndian(code, 2);
    NetworkOrder(BigEndian(code, 2));
    hide BigEndian, Number, Power256, Word;
  }

  lemma ToldCode(code: nat)
    requires code != 1005 && code < 0x1_0000
    ensures Tells(Frame(true, 8, Formatted(code, [])), code)
  {
    CodeBytes(code);
    hide BigEndian, CodeAt, Trimmed;
    assert BigEndian(code, 2) + [] == BigEndian(code, 2);
  }

  /** What goes out for any code and reason: nothing for 1005, otherwise the code and the part of the reason kept. */
  lemma CloseWritten(code: int, reason: bytes)
    ensures var p := Formatted(code, reason);
            if code == 1005 then p == []
            else |p| >= 2 && CodeAt(p) == code % 0x1_0000 && p[2..] == Kept(reason)
  {
    CodeBytes(code % 0x1_0000);
    hide BigEndian, Trimmed, Kept;
    assert code != 1005 ==> Formatted(code, reason)[2..] == Kept(reason);
  }

  // ----- What a call writes -----

  /** What has been written since. */
  function News(st: State, st': State): seq<Frame>
    requires st.written <= st'.written
  {
    st'.written[|st.written|..]
  }

  ghost predicate OnlyPongs(fs: seq<Frame>) {
    forall f | f in fs :: f.final && f.opcode == 10
  }

  /** Pongs and then, at the very end, a close with this code. */
  ghost predicate EndsTelling(fs: seq<Frame>, code: nat) {
    fs != [] && OnlyPongs(fs[..|fs| - 1]) && Tells(fs[|fs| - 1], code)
  }

  /** What an error says to a peer that has not been told yet: nothing once the connection itself has failed. */
  ghost predicate Says(e: Error, fs: seq<Frame>) {
    match e
    case Eof | UnexpectedEof | PongRefused => OnlyPongs(fs)
    case BadUtf8 => EndsTelling(fs, 1007)
    case TooLarge => EndsTelling(fs, 1009)
    case PeerClosed(code, _) => EndsTelling(fs, if code == 1005 then 1000 else code)
    case _ => EndsTelling(fs, 1002)
  }

  ghost predicate Reported(st: State, st': State, e: Option<Error>) {
    && st.written <= st'.written
    && if st.closeSent then st'.closeSent && st'.written == st.written
       else match e
         case None => !st'.closeSent && OnlyPongs(News(st, st'))
         case Some(e) => Says(e, News(st, st'))
  }

  /** The errors the reader of frames has. */
  predicate FromFrames(e: Error) {
    e in {Eof, UnexpectedEof, ReservedBits, UnmaskedClient, MaskedServer, BadOpcode, NonMinimalLength, TooLarge,
          ControlTooLong}
  }

  lemma FrameErrors(s: bytes, fromClient: bool, limit: int)
    ensures var r := ParseFrame(s, fromClient, limit); r.Failed? ==> FromFrames(r.error)
  {
  }

  lemma OneTold(st: State, st': State, f: Frame, code: nat)
    requires st'.written == st.written + [f] && Tells(f, code)
    ensures st.written <= st'.written && EndsTelling(News(st, st'), code)
  {
    assert News(st, st') == [f];
  }

  lemma FailReports(st: State, e: Error)
    requires !e.PeerClosed? && e != CloseSent
    ensures Reported(st, Fail(st, e), Some(e))
  {
    if !Transport(e) && !st.closeSent {
      var code := if e == BadUtf8 then 1007 else if e == TooLarge then 1009 else 1002;
      ToldCode(code);
      hide Formatted, Tells, EndsTelling;
      OneTold(st, Fail(st, e), Frame(true, 8, Formatted(code, [])), code);
    }
  }

  lemma ControlReports(cfg: Settings, st: State, f: Frame)
    requires st.err.None? && f.opcode in {8, 9, 10}
    ensures var st' := Control(cfg, st, f); Reported(st, st', st'.err)
  {
    var st' := Control(cfg, st, f);
    if f.opcode == 8 {
      CloseRead(f.payload);
      match ParseClose(f.payload)
      case Err(e) => FailReports(st, e);
      case Ok((code, reason)) => EchoReports(st, st', code, reason);
    }
  }

  lemma EchoReports(st: State, st': State, code: nat, reason: bytes)
    requires code == 1005 || MayBeSent(code)
    requires st' == Write(st, Frame(true, CLOSE, Formatted(if code == NO_STATUS then NORMAL else code, []))).(
                      err := Some(PeerClosed(code, reason)), input := [])
    ensures Reported(st, st', st'.err)
  {
    var echo := if code == 1005 then 1000 else code;
    ToldCode(echo);
    hide Formatted, Tells, EndsTelling, MayBeSent;
    if !st.closeSent {
      OneTold(st, st', Frame(true, 8, Formatted(echo, [])), echo);
    }
  }

  function ErrorOf(done: Option<Outcome>): Option<Error> {
    if done.Some? && done.value.Err? then Some(done.value.error) else None
  }

  predicate SameOut(st: State, st': State) {
    st'.written == st.written && st'.closeSent == st.closeSent
  }

  lemma DataFails(cfg: Settings, st: State, have: bytes, f: Frame) returns (at: State)
    ensures var (st', done) := Data(cfg, st, have, f);
            && SameOut(st, at)
            && match ErrorOf(done) {
                 case None => st' == at
                 case Some(e) => e in {TooLarge, BadFragment, BadUtf8} && st' == Fail(at, e)
               }
  {
    hide Feed, Complete, Fail;
    var utf := if f.opcode == CONTINUATION then Feed(st.utf, f.payload) else Feed(START, f.payload);
    var (st', done) := Data(cfg, st, have, f);
    match ErrorOf(done)
    case None => at := st';
    case Some(e) =>
      at := if e == BadUtf8 then st.(utf := utf) else st;
      if e == BadUtf8 && st' != Fail(at, e) {
        at := at.(frag := 0);
      }
  }

  lemma DataReports(cfg: Settings, st: State, have: bytes, f: Frame)
    ensures var (st', done) := Data(cfg, st, have, f); Reported(st, st', ErrorOf(done))
  {
    var at := DataFails(cfg, st, have, f);
    hide Data, Fail;
    var done := Data(cfg, st, have, f).1;
    if ErrorOf(done).Some? {
      FailReports(at, ErrorOf(done).value);
    }
  }

  lemma RoundReports(cfg: Settings, st: State, have: bytes)
    requires st.err.None?
    ensures var (st', _, done) := Round(cfg, st, have); Reported(st, st', ErrorOf(done))
  {
    var limit := FrameLimit(cfg.readLimit, |have|);
    FrameErrors(st.input, !cfg.isClient, limit);
    hide ParseFrame, Data, Control, Fail, Reported;
    if cfg.readLimit > 0 && cfg.readLimit < |have| {
      FailReports(st, TooLarge);
    } else {
      match ParseFrame(st.input, !cfg.isClient, limit)
      case Failed(e) => FailReports(st, e);
      case Read(f, rest) =>
        var next := st.(input := rest);
        SameStart(st, next, Control(cfg, next, f), Control(cfg, next, f).err);
        SameStart(st, next, Data(cfg, next, have, f).0, ErrorOf(Data(cfg, next, have, f).1));
        if f.Control() {
          ControlReports(cfg, next, f);
        } else {
          DataReports(cfg, next, have, f);
        }
    }
  }

  lemma SameStart(st: State, next: State, st': State, e: Option<Error>)
    requires SameOut(st, next)
    ensures Reported(next, st', e) <==> Reported(st, st', e)
  {
  }

  /** Pongs first, and then whatever else. */
  lemma OneAfterAnother(st: State, mid: State, st': State, e: Option<Error>)
    requires Reported(st, mid, None) && Reported(mid, st', e)
    ensures Reported(st, st', e)
  {
    if !st.closeSent {
      var a, b := News(st, mid), News(mid, st');
      assert News(st, st') == a + b;
      PongsThenMore(a, b);
    }
  }

  lemma PongsThenMore(a: seq<Frame>, b: seq<Frame>)
    requires OnlyPongs(a)
    ensures OnlyPongs(b) ==> OnlyPongs(a + b)
    ensures forall code | EndsTelling(b, code) :: EndsTelling(a + b, code)
  {
    forall code | EndsTelling(b, code) ensures EndsTelling(a + b, code) {
      assert (a + b)[..|a + b| - 1] == a + b[..|b| - 1];
    }
  }

  lemma {:induction false} ReadOnReports(cfg: Settings, st: State, have: bytes)
    requires st.err.None?
    ensures var (st', r) := ReadOn(cfg, st, have); Reported(st, st', ErrorOf(Some(r)))
    decreases |st.input|
  {
    hide Round, Reported;
    var (st', have', done) := Round(cfg, st, have);
    RoundReports(cfg, st, have);
    if done.None? {
      ReadOnReports(cfg, st', have');
      var (end, r) := ReadOn(cfg, st', have');
      OneAfterAnother(st, st', end, ErrorOf(Some(r)));
    }
  }

  /**
   * Whatever the bytes were, a call of ReadMessage on a connection without an error writes pongs, and if it fails ends
   * with the one close frame that says why: 1007 for text that is not UTF-8, 1009 for a message over the limit, the
   * peer's own code back or 1000 for none, 1002 for any other breach, and nothing once the connection itself failed.
   */
  lemma FailureTold(cfg: Settings, st: State)
    requires st.err.None? && !st.closeSent
    ensures var (st', r) := ReadMessage(cfg, st);
            && st.written <= st'.written
            && (r.Ok? ==> OnlyPongs(News(st, st')))
            && (r.Err? ==> Says(r.error, News(st, st')))
  {
    hide ReadOn;
    ReadOnReports(cfg, st, []);
  }

  /** A message that would pass the limit is refused on the length the frame declares, none of it read. */
  lemma TooLargeUnread(cfg: Settings, st: State, have: bytes)
    requires st.err.None? && 0 < cfg.readLimit && |have| <= cfg.readLimit && |st.input| >= 2
    requires HeadFault(st.input[0], st.input[1], !cfg.isClient) == None && |st.input| >= HeaderEnd(st.input[1])
    requires st.input[0] % 16 < 8 && Declared(st.input) > 125 && Declared(st.input) > cfg.readLimit - |have|
    requires LengthFault(st.input[0], st.input[1], Declared(st.input), 0) == None
    ensures Round(cfg, st, have).2 == Some(Err(TooLarge))
  {
    LengthRefused(st.input, !cfg.isClient, FrameLimit(cfg.readLimit, |have|));
    hide ParseFrame, HeadFault, Declared;
  }

  // ----- A close frame from the peer -----

  /** What the call that reads a close frame with this payload answers. */
  function ClosedBy(p: bytes): Error {
    if p == [] then PeerClosed(1005, [])
    else if |p| == 1 || !MayBeSent(CodeAt(p)) then BadCloseCode
    else if !WellFormed(p[2..]) then BadUtf8
    else PeerClosed(CodeAt(p), p[2..])
  }

  /** The code it is answered with. */
  function Answered(p: bytes): nat {
    if p == [] then 1000
    else if |p| == 1 || !MayBeSent(CodeAt(p)) then 1002
    else if !WellFormed(p[2..]) then 1007
    else CodeAt(p)
  }

  ghost predicate ClosedWith(st: State, st': State, code: nat) {
    if st.closeSent then st'.written == st.written
    else exists f :: Tells(f, code) && st'.written == st.written + [f]
  }

  lemma ControlCloses(cfg: Settings, st: State, p: bytes)
    requires st.err.None?
    ensures var st' := Control(cfg, st, Frame(true, 8, p));
            st'.err == Some(ClosedBy(p)) && ClosedWith(st, st', Answered(p))
  {
    CloseRead(p);
    ToldCode(Answered(p));
    hide WellFormed, Formatted, ParseClose, Tells;
    if !st.closeSent {
      var told := Frame(true, 8, Formatted(Answered(p), []));
      assert Control(cfg, st, Frame(true, 8, p)).written == st.written + [told];
    }
  }

  /** What a close frame from the peer comes back as, and the one frame that answers it. */
  lemma PeerCloses(cfg: Settings, st: State, p: bytes, key: Key, rest: bytes)
    requires st.err.None? && |p| <= 125 && st.input == Encode(Frame(true, 8, p), !cfg.isClient, key) + rest
    ensures var (st', r) := ReadMessage(cfg, st);
            r == Err(ClosedBy(p)) && ClosedWith(st, st', Answered(p))
  {
    var f := Frame(true, 8, p);
    ReadsBack(f, !cfg.isClient, key, rest, FrameLimit(cfg.readLimit, 0));
    ControlCloses(cfg, st.(input := rest), p);
    hide ParseFrame, Encode, Control, ClosedBy, Answered, Tells;
    assert Round(cfg, st, []).0 == Control(cfg, st.(input := rest), f);
  }

  /** A pong the handler refuses ends the connection with nothing written; the peer is not at fault. */
  lemma PongEnds(cfg: Settings, st: State, p: bytes, key: Key, rest: bytes)
    requires st.err.None? && |p| <= 125 && st.input == Encode(Frame(true, 10, p), !cfg.isClient, key) + rest
    requires cfg.pongRefuses(p)
    ensures var (st', r) := ReadMessage(cfg, st);
            r == Err(PongRefused) && st'.written == st.written && st'.closeSent == st.closeSent
  {
    var f := Frame(true, 10, p);
    ReadsBack(f, !cfg.isClient, key, rest, FrameLimit(cfg.readLimit, 0));
    hide ParseFrame, Encode;
    assert Round(cfg, st, []).0 == Control(cfg, st.(input := rest), f);
  }

  // ----- A run of a connection -----

  /** The program reads a message or writes a frame. */
  datatype Act = Reads | Writes(frame: Frame)

  function Acted(cfg: Settings, st: State, a: Act): State {
    match a
    case Reads => ReadMessage(cfg, st).0
    case Writes(f) => Write(st, f)
  }

  function Run(cfg: Settings, st: State, acts: seq<Act>): State
    decreases |acts|
  {
    if acts == [] then st else Run(cfg, Acted(cfg, st, acts[0]), acts[1..])
  }

  /** A close frame is the last frame, and the connection knows it has been sent. */
  ghost predicate ClosesLast(st: State) {
    var w := st.written;
    && (forall i | 0 <= i < |w| - 1 :: w[i].opcode != 8)
    && (st.closeSent <==> w != [] && w[|w| - 1].opcode == 8)
  }

  ghost predicate Keeps(st: State, st': State) {
    ClosesLast(st) ==> ClosesLast(st') && (st.closeSent ==> st'.written == st.written)
  }

  lemma WriteKeeps(st: State, f: Frame)
    ensures Keeps(st, Write(st, f))
  {
  }

  lemma FailKeeps(st: State, e: Error)
    ensures Keeps(st, Fail(st, e))
  {
    WriteKeeps(st, Frame(true, CLOSE, Formatted(CloseCodeFor(e), [])));
  }

  lemma RoundKeepsLast(cfg: Settings, st: State, have: bytes)
    requires st.err.None?
    ensures Keeps(st, Round(cfg, st, have).0)
  {
    hide ParseFrame, ParseClose, Formatted, CloseCodeFor, Write, Data, Fail, Keeps;
    forall e ensures Keeps(st, Fail(st, e)) { FailKeeps(st, e); }
    match ParseFrame(st.input, !cfg.isClient, FrameLimit(cfg.readLimit, |have|))
    case Failed(e) =>
    case Read(f, rest) =>
      var next := st.(input := rest);
      SameKeeps(st, next);
      if f.Control() {
        ControlKeeps(cfg, next, f);
      } else {
        DataKeepsLast(cfg, next, have, f);
      }
  }

  lemma SameKeeps(st: State, next: State)
    requires SameOut(st, next)
    ensures forall st' :: Keeps(next, st') <==> Keeps(st, st')
    ensures forall st' :: Keeps(st', next) <==> Keeps(st', st)
    ensures Keeps(st, next)
  {
  }

  lemma ControlKeeps(cfg: Settings, st: State, f: Frame)
    ensures Keeps(st, Control(cfg, st, f))
  {
    hide ParseClose, Formatted, CloseCodeFor;
  }

  lemma DataKeepsLast(cfg: Settings, st: State, have: bytes, f: Frame)
    ensures Keeps(st, Data(cfg, st, have, f).0)
  {
    var at := DataFails(cfg, st, have, f);
    hide Data, Fail;
    SameKeeps(st, at);
    var done := Data(cfg, st, have, f).1;
    if ErrorOf(done).Some? {
      FailKeeps(at, ErrorOf(done).value);
    }
  }

  lemma {:induction false} ReadKeeps(cfg: Settings, st: State, have: bytes)
    requires st.err.None?
    ensures Keeps(st, ReadOn(cfg, st, have).0)
    decreases |st.input|
  {
    hide Round;
    RoundKeepsLast(cfg, st, have);
    var (st', have', done) := Round(cfg, st, have);
    if done.None? {
      ReadKeeps(cfg, st', have');
    }
  }

  /**
   * Over any run of calls and writes a close frame is the last frame written, whoever asked for it, and nothing at all
   * is written after it.
   */
  lemma {:induction false} CloseIsLast(cfg: Settings, st: State, acts: seq<Act>)
    requires ClosesLast(st)
    ensures ClosesLast(Run(cfg, st, acts))
    ensures st.closeSent ==> Run(cfg, st, acts).written == st.written
    decreases |acts|
  {
    if acts != [] {
      if acts[0].Reads? && st.err.None? {
        ReadKeeps(cfg, st, []);
      }
      hide ReadOn;
      CloseIsLast(cfg, Acted(cfg, st, acts[0]), acts[1..]);
    }
  }
}
