/** Reading messages off a connection: reassembly, control frames, the limit and the error latch (ws/conn.go). */
module Conn {
  import opened Utf8
  import opened Frames
  import opened ClosePayload
  import opened Options

  /** pongRefuses says when the pong handler answers an error; a nil handler never does. */
  datatype Settings = Settings(isClient: bool, readLimit: int, pongRefuses: bytes -> bool)

  /** input is what the peer sent and nobody has read; written, the frames handed to WriteFrame. */
  datatype State = State(input: bytes, frag: nat, utf: Decoder, err: Option<Error>, closeSent: bool,
    written: seq<Frame>)

  type Outcome = Result<(nat, bytes)>

  // ----- Writing and failing -----

  function Write(st: State, f: Frame): State {
    if st.closeSent then st else st.(closeSent := f.opcode == CLOSE, written := st.written + [f])
  }

  predicate Transport(e: Error) {
    e == Eof || e == UnexpectedEof || e == PongRefused
  }

  function CloseCodeFor(e: Error): nat {
    if e == BadUtf8 then INVALID_PAYLOAD else if e == TooLarge then TOO_BIG else PROTOCOL_ERROR
  }

  /** The socket is shut, so nothing is read after this; the peer is told why unless the transport is what failed. */
  function Fail(st: State, e: Error): State {
    var told := if Transport(e) then st else Write(st, Frame(true, CLOSE, Formatted(CloseCodeFor(e), [])));
    told.(err := Some(e), input := [])
  }

  /** One control frame: what is written back, and the error it leaves if it ends the connection. */
  function Control(cfg: Settings, st: State, f: Frame): (r: State)
    ensures |r.input| <= |st.input|
  {
    if f.opcode == PING then Write(st, Frame(true, PONG, f.payload))
    else if f.opcode == PONG then
      if cfg.pongRefuses(f.payload) then st.(err := Some(PongRefused), input := []) else st
    else match ParseClose(f.payload)
      case Err(e) => Fail(st, e)
      case Ok((code, reason)) =>
        var echo := if code == NO_STATUS then NORMAL else code;
        Write(st, Frame(true, CLOSE, Formatted(echo, []))).(err := Some(PeerClosed(code, reason)), input := [])
  }

  // ----- Reading one message -----

  function FrameLimit(limit: int, have: nat): int {
    if limit > 0 && limit - have < MAX_CONTROL_PAYLOAD then MAX_CONTROL_PAYLOAD
    else if limit > 0 then limit - have else limit
  }

  /** One data frame: the new state, and whether the message goes on, is complete, or fails. */
  function Data(cfg: Settings, st: State, have: bytes, f: Frame): (r: (State, Option<Outcome>))
    ensures |r.0.input| <= |st.input|
    ensures r.1.None? ==> r.0.err == st.err
    ensures r.1.Some? && r.1.value.Ok? ==> r.0.err == st.err && r.0.frag == 0
  {
    if cfg.readLimit > 0 && |have| + |f.payload| > cfg.readLimit then (Fail(st, TooLarge), Some(Err(TooLarge)))
    else if f.opcode == CONTINUATION && st.frag == 0 then (Fail(st, BadFragment), Some(Err(BadFragment)))
    else if f.opcode != CONTINUATION && st.frag != 0 then (Fail(st, BadFragment), Some(Err(BadFragment)))
    else
      var opcode := if f.opcode == CONTINUATION then st.frag else f.opcode;
      var before := if f.opcode == CONTINUATION then st.utf else START;
      var utf := if opcode == TEXT then Feed(before, f.payload) else before;
      var st' := st.(utf := utf);
      if opcode == TEXT && utf.bad then (Fail(st', BadUtf8), Some(Err(BadUtf8)))
      else if !f.final then (st'.(frag := opcode), None)
      else if opcode == TEXT && !Complete(utf) then (Fail(st'.(frag := 0), BadUtf8), Some(Err(BadUtf8)))
      else (st'.(frag := 0), Some(Ok((opcode, have + f.payload))))
  }

  /** One round of the loop of ReadMessage, with what has been gathered so far: it ends the call or takes a frame. */
  function Round(cfg: Settings, st: State, have: bytes): (r: (State, bytes, Option<Outcome>))
    requires st.err.None?
    ensures r.2.None? ==> r.0.err.None? && |r.0.input| + 2 <= |st.input|
  {
    if cfg.readLimit > 0 && cfg.readLimit < |have| then (Fail(st, TooLarge), have, Some(Err(TooLarge)))
    else match ParseFrame(st.input, !cfg.isClient, FrameLimit(cfg.readLimit, |have|))
      case Failed(e) => (Fail(st, e), have, Some(Err(e)))
      case Read(f, rest) =>
        if f.Control() then
          var st' := Control(cfg, st.(input := rest), f);
          (st', have, if st'.err.Some? then Some(Err(st'.err.value)) else None)
        else
          var (st', done) := Data(cfg, st.(input := rest), have, f);
          (st', have + f.payload, done)
  }

  function ReadOn(cfg: Settings, st: State, have: bytes): (State, Outcome)
    requires st.err.None?
    decreases |st.input|
  {
    var (st', have', done) := Round(cfg, st, have);
    if done.Some? then (st', done.value) else ReadOn(cfg, st', have')
  }

  function ReadMessage(cfg: Settings, st: State): (State, Outcome) {
    if st.err.Some? then (st, Err(st.err.value)) else ReadOn(cfg, st, [])
  }

  // ----- The connection -----

  class Connection {
    const isClient: bool
    const br: Reader
    const validator: Utf8Validator
    var readLimit: int
    var fragOpcode: nat
    var readErr: Option<Error>
    var pongRefuses: bytes -> bool
    var closeSent: bool
    var written: seq<Frame>

    ghost predicate Valid()
      reads this, validator
    {
      validator.Valid() && (readErr.None? ==> fragOpcode == 0)
    }

    ghost function Config(): Settings
      reads this
    {
      Settings(isClient, readLimit, pongRefuses)
    }

    ghost function View(): State
      reads this, br, validator
      requires validator.Valid()
    {
      State(if readErr.Some? then [] else br.rest, fragOpcode, validator.View(), readErr, closeSent, written)
    }

    constructor (input: bytes, isClient: bool)
      ensures Valid() && fresh(br) && fresh(validator)
      ensures View() == State(input, 0, START, None, false, [])
      ensures Config().isClient == isClient && readLimit == 0 && forall b :: !pongRefuses(b)
    {
      br := new Reader(input);
      validator := new Utf8Validator();
      this.isClient := isClient;
      readLimit, fragOpcode, readErr, closeSent, written := 0, 0, None, false, [];
      pongRefuses := (b: bytes) => false;
    }

    method SetReadLimit(n: int)
      modifies this`readLimit
      ensures readLimit == n
    {
      readLimit := n;
    }

    method WriteFrame(f: Frame)
      requires validator.Valid()
      modifies this`closeSent, this`written
      ensures View() == Write(old(View()), f)
    {
      if closeSent {
        return;
      }
      if f.opcode == CLOSE {
        closeSent := true;
      }
      written := written + [f];
    }

    method FailRead(e: Error)
      requires validator.Valid()
      modifies this`closeSent, this`written, this`readErr
      ensures View() == Fail(old(View()), e)
    {
      if !Transport(e) {
        var code := PROTOCOL_ERROR;
        if e == BadUtf8 {
          code := INVALID_PAYLOAD;
        } else if e == TooLarge {
          code := TOO_BIG;
        }
        var payload := FormatClose(code, []);
        WriteFrame(Frame(true, CLOSE, payload));
      }
      readErr := Some(e);
    }

    method Handle(f: Frame)
      requires validator.Valid() && readErr.None?
      modifies this`closeSent, this`written, this`readErr
      ensures View() == Control(Config(), old(View()), f)
    {
      if f.opcode == PING {
        WriteFrame(Frame(true, PONG, f.payload));
        return;
      }
      if f.opcode == PONG {
        if pongRefuses(f.payload) {
          readErr := Some(PongRefused);
        }
        return;
      }
      match ParseClose(f.payload)
      case Err(e) =>
        FailRead(e);
      case Ok((code, reason)) =>
        var echo := code;
        if echo == NO_STATUS {
          echo := NORMAL;
        }
        var payload := FormatClose(echo, []);
        WriteFrame(Frame(true, CLOSE, payload));
        readErr := Some(PeerClosed(code, reason));
    }

    method Refuse(e: Error) returns (r: Outcome)
      requires validator.Valid()
      modifies this`closeSent, this`written, this`readErr
      ensures View() == Fail(old(View()), e) && r == Err(e)
    {
      FailRead(e);
      return Err(e);
    }

    /** The switch over one data frame in the loop of ReadMessage. */
    method Gather(have: bytes, f: Frame) returns (done: Option<Outcome>)
      requires validator.Valid() && readErr.None?
      modifies this, validator
      ensures validator.Valid() && Config() == old(Config())
      ensures (View(), done) == Data(Config(), old(View()), have, f)
      ensures readErr.None? ==> br.rest == old(br.rest)
    {
      hide Feed, Complete, Formatted, Write;
      if readLimit > 0 && |have| + |f.payload| > readLimit {
        var r := Refuse(TooLarge);
        return Some(r);
      }
      var opcode := f.opcode;
      if f.opcode == CONTINUATION {
        if fragOpcode == 0 {
          var r := Refuse(BadFragment);
          return Some(r);
        }
        opcode := fragOpcode;
      } else if fragOpcode != 0 {
        var r := Refuse(BadFragment);
        return Some(r);
      } else {
        validator.Reset();
      }
      if opcode == TEXT {
        var ok := validator.Write(f.payload);
        if !ok {
          var r := Refuse(BadUtf8);
          return Some(r);
        }
      }
      if !f.final {
        fragOpcode := opcode;
        return None;
      }
      fragOpcode := 0;
      if opcode == TEXT {
        var complete := validator.IsComplete();
        if !complete {
          var r := Refuse(BadUtf8);
          return Some(r);
        }
      }
      return Some(Ok((opcode, have + f.payload)));
    }

    /** The body of the loop of ReadMessage. */
    method Turn(have: bytes) returns (have': bytes, done: Option<Outcome>)
      requires validator.Valid() && readErr.None?
      modifies this, br, validator
      ensures validator.Valid() && Config() == old(Config())
      ensures done.Some? ==>
          View() == Round(Config(), old(View()), have).0 && done == Round(Config(), old(View()), have).2
      ensures done.None? ==> (View(), have', done) == Round(Config(), old(View()), have)
    {
      hide ParseFrame, Feed, Formatted, ParseClose, Data, Control;
      have' := have;
      var limit := readLimit;
      if limit > 0 {
        limit := limit - |have|;
        if limit < 0 {
          var r := Refuse(TooLarge);
          return have, Some(r);
        }
      }
      var frameLimit := limit;
      if readLimit > 0 && frameLimit < MAX_CONTROL_PAYLOAD {
        frameLimit := MAX_CONTROL_PAYLOAD;
      }
      var frame := br.ReadFrame(!isClient, frameLimit);
      if frame.Err? {
        var r := Refuse(frame.error);
        return have, Some(r);
      }
      var f := frame.value;
      if f.Control() {
        Handle(f);
        if readErr.Some? {
          return have, Some(Err(readErr.value));
        }
        return have, None;
      }
      done := Gather(have, f);
      have' := have + f.payload;
    }

    /** Joins the fragments of the next data message; after an error, answers that same error. */
    method Next() returns (r: Outcome)
      requires Valid()
      modifies this, br, validator
      ensures Valid() && Config() == old(Config())
      ensures (View(), r) == ReadMessage(Config(), old(View()))
    {
      if readErr.Some? {
        return Err(readErr.value);
      }
      var have: bytes := [];
      OutcomeOf(Config(), View(), have);
      while true
        invariant validator.Valid() && readErr.None? && Config() == old(Config())
        invariant ReadOn(Config(), View(), have) == ReadMessage(Config(), old(View()))
        decreases |View().input|
      {
        var have', done := Turn(have);
        if done.Some? {
          return done.value;
        }
        have := have';
      }
    }
  }

  /** A message leaves the connection open with nothing half read; anything else is latched. */
  lemma {:induction false} OutcomeOf(cfg: Settings, st: State, have: bytes)
    requires st.err.None?
    ensures var (st', r) := ReadOn(cfg, st, have);
            if r.Ok? then st'.err.None? && st'.frag == 0 else st'.err == Some(r.error)
    decreases |st.input|
  {
    var (st', have', done) := Round(cfg, st, have);
    if done.None? {
      OutcomeOf(cfg, st', have');
    }
  }
}
