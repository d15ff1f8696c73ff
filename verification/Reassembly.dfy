/**
 * What a reader of messages may rely on, and section 5.4 of RFC 6455: fragments come back as the messages they were.
 */
module Reassembly {
  import opened Utf8
  import opened Frames
  import opened Options
  import opened Conn

  // ----- Any input -----

  /** What the loop keeps while a message is half read. */
  ghost predicate HalfRead(cfg: Settings, st: State, have: bytes) {
    && st.err.None?
    && (st.frag == 0 || st.frag == TEXT || st.frag == BINARY)
    && (st.frag == 0 ==> have == [])
    && (st.frag == TEXT ==> st.utf == Feed(START, have) && !st.utf.bad)
    && (cfg.readLimit > 0 ==> |have| <= cfg.readLimit)
  }

  ghost predicate Deliverable(cfg: Settings, r: Outcome) {
    r.Ok? ==>
      var (opcode, m) := r.value;
      && (opcode == 1 || opcode == 2)
      && (opcode == 1 ==> WellFormed(m))
      && (cfg.readLimit > 0 ==> |m| <= cfg.readLimit)
  }

  /** The validator has seen exactly the message so far. */
  lemma TextSoFar(have: bytes, more: bytes)
    ensures Feed(Feed(START, have), more) == Feed(START, have + more)
    ensures have == [] ==> Feed(START, more) == Feed(START, have + more)
    ensures Complete(Feed(START, have + more)) <==> WellFormed(have + more)
  {
    FeedConcat(START, have, more);
    assert [] + more == more;
    DecidesFrom(START, have + more);
  }

  lemma DataKeeps(cfg: Settings, st: State, have: bytes, f: Frame)
    requires HalfRead(cfg, st, have) && KnownOpcode(f.opcode) && !f.Control()
    ensures var (st', done) := Data(cfg, st, have, f);
            if done.None? then HalfRead(cfg, st', have + f.payload) else Deliverable(cfg, done.value)
  {
    hide WellFormed;
    hide Feed;
    TextSoFar(have, f.payload);
  }

  lemma RoundKeeps(cfg: Settings, st: State, have: bytes)
    requires HalfRead(cfg, st, have)
    ensures var (st', have', done) := Round(cfg, st, have);
            if done.None? then HalfRead(cfg, st', have') else Deliverable(cfg, done.value)
  {
    hide ParseFrame;
    hide WellFormed;
    hide Feed;
    hide Data;
    var parsed := ParseFrame(st.input, !cfg.isClient, FrameLimit(cfg.readLimit, |have|));
    if parsed.Read? && !parsed.frame.Control() {
      DataKeeps(cfg, st.(input := parsed.rest), have, parsed.frame);
    }
  }

  /** On any bytes: a message is text or binary, text is UTF-8, and no message is over a set limit. */
  lemma {:induction false} Sound(cfg: Settings, st: State, have: bytes)
    requires HalfRead(cfg, st, have)
    ensures Deliverable(cfg, ReadOn(cfg, st, have).1)
    decreases |st.input|
  {
    var (st', have', done) := Round(cfg, st, have);
    RoundKeeps(cfg, st, have);
    if done.None? {
      Sound(cfg, st', have');
    }
  }

  /** After an error every later call answers that error and changes nothing, whatever the settings become. */
  lemma Latches(cfg: Settings, cfg': Settings, st: State)
    ensures var (st', r) := ReadMessage(cfg, st);
            r.Err? ==> ReadMessage(cfg', st') == (st', r)
  {
    if st.err.None? {
      OutcomeOf(cfg, st, []);
    }
  }

  // ----- Messages in fragments -----

  /** A frame on the wire, with the masking key a client drew for it. */
  datatype Packet = Packet(frame: Frame, key: Key)

  function Wire(ps: seq<Packet>, fromClient: bool): bytes {
    if ps == [] then [] else Encode(ps[0].frame, fromClient, ps[0].key) + Wire(ps[1..], fromClient)
  }

  predicate KeepAlive(f: Frame) {
    (f.opcode == 9 || f.opcode == 10) && f.final && |f.payload| <= 125
  }

  /**
   * Section 5.4: the packets are the rest of a message of this opcode carrying this payload, with pings and
   * pongs anywhere in between. The first data frame carries the opcode, the others continue it, the last is final.
   */
  ghost predicate Fragments(ps: seq<Packet>, first: bool, opcode: nat, payload: bytes) {
    && ps != []
    && var f := ps[0].frame;
       if f.Control() then KeepAlive(f) && Fragments(ps[1..], first, opcode, payload)
       else
         && f.opcode == (if first then opcode else 0)
         && |f.payload| <= MAX_LENGTH
         && if f.final then |ps| == 1 && payload == f.payload
            else f.payload <= payload && Fragments(ps[1..], false, opcode, payload[|f.payload|..])
  }

  /** The pongs that answer the pings among the packets, in order, unless a close has gone out. */
  function Pongs(ps: seq<Packet>, closeSent: bool): seq<Frame> {
    if ps == [] then [] else Answer(ps[0].frame, closeSent) + Pongs(ps[1..], closeSent)
  }

  function Answer(f: Frame, closeSent: bool): seq<Frame> {
    if f.opcode == 9 && !closeSent then [Frame(true, 10, f.payload)] else []
  }

  predicate WithinLimit(cfg: Settings, n: nat) {
    cfg.readLimit > 0 ==> n <= cfg.readLimit
  }

  /** The pong handler, if there is one, refuses nothing. */
  ghost predicate Quiet(cfg: Settings) {
    forall b :: !cfg.pongRefuses(b)
  }

  lemma ControlRound(cfg: Settings, st: State, have: bytes, p: Packet, rest: bytes)
    requires HalfRead(cfg, st, have) && KeepAlive(p.frame) && !cfg.pongRefuses(p.frame.payload)
    requires st.input == Encode(p.frame, !cfg.isClient, p.key) + rest
    ensures Round(cfg, st, have)
         == (st.(input := rest, written := st.written + Answer(p.frame, st.closeSent)), have, None)
  {
    hide Encode;
    hide ParseFrame;
    ReadsBack(p.frame, !cfg.isClient, p.key, rest, FrameLimit(cfg.readLimit, |have|));
    assert st.written + [] == st.written;
  }

  ghost predicate After(cfg: Settings, st: State, have: bytes, f: Frame, opcode: nat, st': State,
    done: Option<Outcome>) {
    if !WithinLimit(cfg, |have| + |f.payload|) then done == Some(Err(TooLarge))
    else
      && done == (if f.final then Some(Ok((opcode, have + f.payload))) else None)
      && st' == st.(frag := if f.final then 0 else opcode, utf := st'.utf)
  }

  lemma DataStep(cfg: Settings, st: State, have: bytes, f: Frame, opcode: nat)
    requires HalfRead(cfg, st, have) && (opcode == TEXT || opcode == BINARY)
    requires f.opcode == (if st.frag == 0 then opcode else CONTINUATION) && (st.frag == 0 || st.frag == opcode)
    requires opcode == TEXT ==> !Feed(START, have + f.payload).bad
    requires opcode == TEXT && f.final ==> WellFormed(have + f.payload)
    ensures var (st', done) := Data(cfg, st, have, f);
            After(cfg, st, have, f, opcode, st', done)
  {
    hide WellFormed;
    hide Feed;
    TextSoFar(have, f.payload);
  }

  lemma DataRound(cfg: Settings, st: State, have: bytes, p: Packet, rest: bytes, opcode: nat)
    requires HalfRead(cfg, st, have) && (opcode == TEXT || opcode == BINARY)
    requires p.frame.opcode == (if st.frag == 0 then opcode else CONTINUATION) && (st.frag == 0 || st.frag == opcode)
    requires |p.frame.payload| <= MAX_LENGTH
    requires st.input == Encode(p.frame, !cfg.isClient, p.key) + rest
    requires opcode == TEXT ==> !Feed(START, have + p.frame.payload).bad
    requires opcode == TEXT && p.frame.final ==> WellFormed(have + p.frame.payload)
    ensures var (st', have', done) := Round(cfg, st, have);
            && (done.None? ==> have' == have + p.frame.payload)
            && After(cfg, st.(input := rest), have, p.frame, opcode, st', done)
  {
    hide Encode;
    hide ParseFrame;
    hide Data;
    hide WellFormed;
    hide Feed;
    var limit := FrameLimit(cfg.readLimit, |have|);
    if limit > 0 && |p.frame.payload| > limit {
      TooLongRefused(p.frame, !cfg.isClient, p.key, rest, limit);
    } else {
      ReadsBack(p.frame, !cfg.isClient, p.key, rest, limit);
      DataStep(cfg, st.(input := rest), have, p.frame, opcode);
    }
  }

  ghost predicate Delivers(cfg: Settings, st: State, have: bytes, ps: seq<Packet>, opcode: nat, payload: bytes,
    rest: bytes)
    requires st.err.None?
  {
    var (st', r) := ReadOn(cfg, st, have);
    if WithinLimit(cfg, |have| + |payload|) then
      && r == Ok((opcode, have + payload))
      && st' == st.(input := rest, frag := 0, utf := st'.utf, written := st.written + Pongs(ps, st.closeSent))
    else r == Err(TooLarge)
  }

  /** Part of a message read, its other packets next on the wire. */
  ghost predicate Awaits(cfg: Settings, st: State, have: bytes, ps: seq<Packet>, opcode: nat, payload: bytes,
    rest: bytes) {
    && HalfRead(cfg, st, have) && (opcode == TEXT || opcode == BINARY) && (st.frag == 0 || st.frag == opcode)
    && Fragments(ps, st.frag == 0, opcode, payload)
    && (opcode == TEXT ==> WellFormed(have + payload))
    && Quiet(cfg)
    && st.input == Wire(ps, !cfg.isClient) + rest
  }

  /** The fragments still to come are read into exactly the rest of the message, or the limit refuses them. */
  lemma {:induction false} ReadsRest(
    cfg: Settings, st: State, have: bytes, ps: seq<Packet>, opcode: nat, payload: bytes, rest: bytes)
    requires Awaits(cfg, st, have, ps, opcode, payload, rest)
    ensures Delivers(cfg, st, have, ps, opcode, payload, rest)
    decreases |ps|, 1
  {
    hide Awaits, Delivers;
    assert ps != [] by { AwaitsSome(cfg, st, have, ps, opcode, payload, rest); }
    if ps[0].frame.Control() {
      ControlRest(cfg, st, have, ps, opcode, payload, rest);
    } else {
      DataRest(cfg, st, have, ps, opcode, payload, rest);
    }
  }

  lemma AwaitsSome(cfg: Settings, st: State, have: bytes, ps: seq<Packet>, opcode: nat, payload: bytes, rest: bytes)
    requires Awaits(cfg, st, have, ps, opcode, payload, rest)
    ensures ps != [] && st.err.None?
  {
  }

  /** A keep-alive is answered, and what was awaited still is. */
  lemma ControlRest(
    cfg: Settings, st: State, have: bytes, ps: seq<Packet>, opcode: nat, payload: bytes, rest: bytes)
    requires Awaits(cfg, st, have, ps, opcode, payload, rest) && ps != [] && ps[0].frame.Control()
    ensures Delivers(cfg, st, have, ps, opcode, payload, rest)
    decreases |ps|, 0
  {
    hide Encode, Round, WellFormed, Feed;
    var f := ps[0].frame;
    var after := Wire(ps[1..], !cfg.isClient) + rest;
    assert st.input == Encode(f, !cfg.isClient, ps[0].key) + after;
    ControlRound(cfg, st, have, ps[0], after);
    assert st.written + Pongs(ps, st.closeSent)
        == (st.written + Answer(f, st.closeSent)) + Pongs(ps[1..], st.closeSent);
    ReadsRest(cfg, Round(cfg, st, have).0, have, ps[1..], opcode, payload, rest);
  }

  /** A fragment is taken up whole, and then what follows it is awaited. */
  lemma DataTurn(
    cfg: Settings, st: State, have: bytes, ps: seq<Packet>, opcode: nat, payload: bytes, rest: bytes)
    requires Awaits(cfg, st, have, ps, opcode, payload, rest) && ps != [] && !ps[0].frame.Control()
    ensures st.err.None?
    ensures var (st', have', done) := Round(cfg, st, have);
            var f := ps[0].frame;
            && After(cfg, st.(input := Wire(ps[1..], !cfg.isClient) + rest), have, f, opcode, st', done)
            && f.payload <= payload && (f.final ==> |ps| == 1 && payload == f.payload)
            && (done.None? ==>
                  && have' == have + f.payload
                  && Awaits(cfg, st', have', ps[1..], opcode, payload[|f.payload|..], rest))
  {
    hide Encode, Round, WellFormed, Feed;
    var f := ps[0].frame;
    var after := Wire(ps[1..], !cfg.isClient) + rest;
    assert st.input == Encode(f, !cfg.isClient, ps[0].key) + after;
    var more := payload[|f.payload|..];
    assert have + payload == (have + f.payload) + more;
    if opcode == TEXT {
      NoPrefixRefused(have + f.payload, more);
      assert f.final ==> have + f.payload == have + payload;
    }
    DataRound(cfg, st, have, ps[0], after, opcode);
    if Round(cfg, st, have).2.None? {
      RoundKeeps(cfg, st, have);
    }
  }

  lemma NoAnswer(ps: seq<Packet>, closeSent: bool)
    requires ps != [] && !ps[0].frame.Control()
    ensures Pongs(ps, closeSent) == Pongs(ps[1..], closeSent)
  {
    assert [] + Pongs(ps[1..], closeSent) == Pongs(ps[1..], closeSent);
  }

  /** A fragment leads on to the rest, completes the message, or is refused by the limit. */
  lemma DataRest(
    cfg: Settings, st: State, have: bytes, ps: seq<Packet>, opcode: nat, payload: bytes, rest: bytes)
    requires Awaits(cfg, st, have, ps, opcode, payload, rest) && ps != [] && !ps[0].frame.Control()
    ensures Delivers(cfg, st, have, ps, opcode, payload, rest)
    decreases |ps|, 0
  {
    hide Round, Awaits;
    DataTurn(cfg, st, have, ps, opcode, payload, rest);
    NoAnswer(ps, st.closeSent);
    var f := ps[0].frame;
    var (st', have', done) := Round(cfg, st, have);
    if done.None? {
      var more := payload[|f.payload|..];
      assert have + payload == (have + f.payload) + more;
      ReadsRest(cfg, st', have', ps[1..], opcode, more, rest);
    } else if f.final {
      NothingMore(ps[1..], !cfg.isClient, rest);
      assert st.written + [] == st.written && Pongs(ps[1..], st.closeSent) == [];
    }
  }

  lemma NothingMore(ps: seq<Packet>, fromClient: bool, rest: bytes)
    requires ps == []
    ensures Wire(ps, fromClient) + rest == rest
  {
    assert Wire(ps, fromClient) == [];
  }

  // ----- A whole conversation -----

  datatype Sent = Sent(packets: seq<Packet>, opcode: nat, payload: bytes) {
    /** A message the protocol allows, in any fragmentation, with any keep-alives among the fragments. */
    ghost predicate Legal() {
      && (opcode == 1 || opcode == 2)
      && (opcode == 1 ==> WellFormed(payload))
      && Fragments(packets, true, opcode, payload)
    }
  }

  function WireAll(ms: seq<Sent>, fromClient: bool): bytes {
    if ms == [] then [] else Wire(ms[0].packets, fromClient) + WireAll(ms[1..], fromClient)
  }

  /** What n successive calls of ReadMessage answer. */
  function Calls(cfg: Settings, st: State, n: nat): seq<Outcome>
    decreases n
  {
    if n == 0 then [] else
      var (st', r) := ReadMessage(cfg, st);
      [r] + Calls(cfg, st', n - 1)
  }

  lemma Begins(cfg: Settings, st: State, m: Sent, rest: bytes)
    requires st.err.None? && st.frag == 0 && st.input == Wire(m.packets, !cfg.isClient) + rest && m.Legal()
    requires Quiet(cfg)
    ensures Awaits(cfg, st, [], m.packets, m.opcode, m.payload, rest)
  {
    assert [] + m.payload == m.payload;
    hide WellFormed, Fragments, Wire;
  }

  /** One message, and the connection as it was but for what was read and answered. */
  lemma FirstMessage(cfg: Settings, st: State, m: Sent, rest: bytes)
    requires st.err.None? && st.frag == 0 && st.input == Wire(m.packets, !cfg.isClient) + rest && m.Legal()
    requires Quiet(cfg)
    ensures var (st', r) := ReadMessage(cfg, st);
            if WithinLimit(cfg, |m.payload|) then
              && r == Ok((m.opcode, m.payload))
              && st'.err.None? && st'.frag == 0 && st'.input == rest
              && st'.written == st.written + Pongs(m.packets, st.closeSent)
            else r == Err(TooLarge)
  {
    Begins(cfg, st, m, rest);
    ReadsRest(cfg, st, [], m.packets, m.opcode, m.payload, rest);
    assert [] + m.payload == m.payload;
    hide Awaits, Wire, ReadOn, Pongs;
  }

  /** Successive calls return exactly the messages sent, in order, each with the opcode of its first fragment. */
  lemma {:induction false} Reassembles(cfg: Settings, st: State, ms: seq<Sent>, rest: bytes)
    requires st.err.None? && st.frag == 0 && st.input == WireAll(ms, !cfg.isClient) + rest
    requires forall i | 0 <= i < |ms| :: ms[i].Legal() && WithinLimit(cfg, |ms[i].payload|)
    requires Quiet(cfg)
    ensures |Calls(cfg, st, |ms|)| == |ms|
    ensures forall i | 0 <= i < |ms| :: Calls(cfg, st, |ms|)[i] == Ok((ms[i].opcode, ms[i].payload))
    decreases |ms|
  {
    if ms != [] {
      var m := ms[0];
      var after := WireAll(ms[1..], !cfg.isClient) + rest;
      assert st.input == Wire(m.packets, !cfg.isClient) + after;
      hide Wire, ReadMessage, Sent.Legal, Pongs, Quiet;
      FirstMessage(cfg, st, m, after);
      Reassembles(cfg, ReadMessage(cfg, st).0, ms[1..], rest);
    }
  }

  /** One legal message is delivered if and only if it fits the limit; otherwise the answer is that it is too large. */
  lemma DeliveredIffWithinLimit(cfg: Settings, st: State, m: Sent, rest: bytes)
    requires st.err.None? && st.frag == 0 && st.input == Wire(m.packets, !cfg.isClient) + rest
    requires m.Legal()
    requires Quiet(cfg)
    ensures var r := ReadMessage(cfg, st).1;
            if WithinLimit(cfg, |m.payload|) then r == Ok((m.opcode, m.payload)) else r == Err(TooLarge)
  {
    FirstMessage(cfg, st, m, rest);
  }

  // ----- Text that is not UTF-8, and fragments out of place -----

  /** The frame that makes the text so far impossible, or ends it too early. */
  lemma BadDataStep(cfg: Settings, st: State, have: bytes, f: Frame)
    requires HalfRead(cfg, st, have) && (st.frag == 0 || st.frag == TEXT)
    requires f.opcode == (if st.frag == 0 then TEXT else CONTINUATION)
    requires WithinLimit(cfg, |have| + |f.payload|)
    requires Feed(START, have + f.payload).bad || (f.final && !WellFormed(have + f.payload))
    ensures Data(cfg, st, have, f).1 == Some(Err(BadUtf8))
  {
    hide WellFormed, Feed;
    TextSoFar(have, f.payload);
  }

  lemma BadDataRound(cfg: Settings, st: State, have: bytes, p: Packet, rest: bytes)
    requires HalfRead(cfg, st, have) && (st.frag == 0 || st.frag == TEXT)
    requires p.frame.opcode == (if st.frag == 0 then TEXT else CONTINUATION) && |p.frame.payload| <= MAX_LENGTH
    requires WithinLimit(cfg, |have| + |p.frame.payload|)
    requires p.frame.final ==> !WellFormed(have + p.frame.payload)
    requires st.input == Encode(p.frame, !cfg.isClient, p.key) + rest
    ensures var (st', have', done) := Round(cfg, st, have);
            || done == Some(Err(BadUtf8))
            || (!p.frame.final && done == None && have' == have + p.frame.payload
                && st'.frag == TEXT && st'.input == rest)
  {
    hide Encode, ParseFrame, Data, WellFormed, Feed;
    var f := p.frame;
    ReadsBack(f, !cfg.isClient, p.key, rest, FrameLimit(cfg.readLimit, |have|));
    if f.final || Feed(START, have + f.payload).bad {
      BadDataStep(cfg, st.(input := rest), have, f);
    } else {
      DataStep(cfg, st.(input := rest), have, f, TEXT);
    }
  }

  ghost predicate AwaitsText(cfg: Settings, st: State, have: bytes, ps: seq<Packet>, payload: bytes, rest: bytes) {
    && HalfRead(cfg, st, have) && (st.frag == 0 || st.frag == TEXT)
    && Fragments(ps, st.frag == 0, TEXT, payload)
    && WithinLimit(cfg, |have| + |payload|)
    && !WellFormed(have + payload)
    && Quiet(cfg)
    && st.input == Wire(ps, !cfg.isClient) + rest
  }

  /** Text that cannot be UTF-8 is refused at some frame, and one that only stops too early at its last. */
  lemma {:induction false} BadTextRest(
    cfg: Settings, st: State, have: bytes, ps: seq<Packet>, payload: bytes, rest: bytes)
    requires AwaitsText(cfg, st, have, ps, payload, rest)
    ensures st.err.None? && ReadOn(cfg, st, have).1 == Err(BadUtf8)
    decreases |ps|
  {
    hide Encode, Round, WellFormed, Feed;
    var f := ps[0].frame;
    var after := Wire(ps[1..], !cfg.isClient) + rest;
    assert st.input == Encode(f, !cfg.isClient, ps[0].key) + after;
    var (st', have', done) := Round(cfg, st, have);
    if f.Control() {
      ControlRound(cfg, st, have, ps[0], after);
      BadTextRest(cfg, st', have, ps[1..], payload, rest);
    } else {
      BadDataRound(cfg, st, have, ps[0], after);
      if done.None? {
        RoundKeeps(cfg, st, have);
        assert have + payload == (have + f.payload) + payload[|f.payload|..];
        BadTextRest(cfg, st', have', ps[1..], payload[|f.payload|..], rest);
      }
    }
  }

  /** A text message within the limit, in any fragments, is delivered if and only if it is UTF-8. */
  lemma TextIffUtf8(cfg: Settings, st: State, ps: seq<Packet>, payload: bytes, rest: bytes)
    requires st.err.None? && st.frag == 0 && st.input == Wire(ps, !cfg.isClient) + rest
    requires Fragments(ps, true, 1, payload) && WithinLimit(cfg, |payload|)
    requires Quiet(cfg)
    ensures ReadMessage(cfg, st).1 == if WellFormed(payload) then Ok((1, payload)) else Err(BadUtf8)
  {
    assert [] + payload == payload;
    if WellFormed(payload) {
      FirstMessage(cfg, st, Sent(ps, 1, payload), rest);
    } else {
      BadTextRest(cfg, st, [], ps, payload, rest);
    }
  }

  /** A continuation with no message open, or a new message inside another, ends the call, and nothing else does so. */
  lemma OutOfPlace(cfg: Settings, st: State, have: bytes, f: Frame, key: Key, rest: bytes)
    requires HalfRead(cfg, st, have) && f.opcode in {0, 1, 2} && |f.payload| <= MAX_LENGTH
    requires WithinLimit(cfg, |have| + |f.payload|) && st.input == Encode(f, !cfg.isClient, key) + rest
    ensures Round(cfg, st, have).2 == Some(Err(BadFragment)) <==> (f.opcode == 0 <==> st.frag == 0)
  {
    hide Encode, ParseFrame, Feed, WellFormed;
    ReadsBack(f, !cfg.isClient, key, rest, FrameLimit(cfg.readLimit, |have|));
  }
}
