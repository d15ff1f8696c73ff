/** The frame codec of sections 5.2 and 5.3 of RFC 6455 (ws/frame.go). */
module Frames {
  import opened Utf8

  const CONTINUATION := 0
  const TEXT := 1
  const BINARY := 2
  const CLOSE := 8
  const PING := 9
  const PONG := 10

  const MAX_CONTROL_PAYLOAD := 125
  const PAYLOAD_CHUNK := 32768
  const MAX_LENGTH := 0x4000_0000_0000_0000  // 1 << 62

  datatype Error =
    | Eof
    | UnexpectedEof
    | ReservedBits
    | UnmaskedClient
    | MaskedServer
    | BadOpcode
    | NonMinimalLength
    | TooLarge
    | ControlTooLong
    | BadCloseCode
    | BadUtf8
    | BadFragment
    | CloseSent
    | PongRefused
    | PeerClosed(code: nat, reason: bytes)

  datatype Result<+T> = Ok(value: T) | Err(error: Error)

  datatype Frame = Frame(final: bool, opcode: nat, payload: bytes) {
    predicate Control() { opcode >= CLOSE }
  }

  type Key = k: bytes | |k| == 4 witness [0, 0, 0, 0]

  // ----- Big-endian numbers -----

  function BigEndian(n: nat, width: nat): (s: bytes)
    ensures |s| == width
  {
    if width == 0 then [] else BigEndian(n / 256, width - 1) + [n % 256]
  }

  function Number(s: bytes): nat
    decreases |s|
  {
    if s == [] then 0 else Number(s[..|s| - 1]) * 256 + s[|s| - 1]
  }

  function Power256(width: nat): nat {
    if width == 0 then 1 else 256 * Power256(width - 1)
  }

  lemma {:induction false} NumberOfBigEndian(n: nat, width: nat)
    requires n < Power256(width)
    ensures Number(BigEndian(n, width)) == n
  {
    if width > 0 {
      var s := BigEndian(n, width);
      assert s[..|s| - 1] == BigEndian(n / 256, width - 1) && s[|s| - 1] == n % 256;

      NumberOfBigEndian(n / 256, width - 1);
    }
  }

  lemma {:induction false} BigEndianOfNumber(s: bytes)
    ensures Number(s) < Power256(|s|)
    ensures BigEndian(Number(s), |s|) == s
    decreases |s|
  {
    if s != [] {
      BigEndianOfNumber(s[..|s| - 1]);
      assert s == s[..|s| - 1] + [s[|s| - 1]];
      var d := s[|s| - 1];
      assert (Number(s[..|s| - 1]) * 256 + d) / 256 == Number(s[..|s| - 1]);
    }
  }

  // ----- Masking -----

  /** Exclusive or of the low bits of two numbers. */
  function Xor(a: nat, b: nat, bits: nat): (x: nat)
    ensures x < Power2(bits)
  {
    if bits == 0 then 0 else (if a % 2 == b % 2 then 0 else 1) + 2 * Xor(a / 2, b / 2, bits - 1)
  }

  function Power2(bits: nat): nat {
    if bits == 0 then 1 else 2 * Power2(bits - 1)
  }

  lemma {:induction false} XorTwice(a: nat, b: nat, bits: nat)
    requires a < Power2(bits)
    ensures Xor(Xor(a, b, bits), b, bits) == a
  {
    if bits > 0 {
      var x := Xor(a, b, bits);
      Halves(x, if a % 2 == b % 2 then 0 else 1, Xor(a / 2, b / 2, bits - 1));
      XorTwice(a / 2, b / 2, bits - 1);
      Halves(a, a % 2, a / 2);
    }
  }

  lemma Halves(x: nat, bit: nat, rest: nat)
    requires x == bit + 2 * rest && bit < 2
    ensures x / 2 == rest && x % 2 == bit
  {
  }

  function XorByte(a: byte, b: byte): byte {
    assert Power2(4) == 16;
    Xor(a, b, 8)
  }

  function Masked(b: bytes, key: Key): (m: bytes)
    ensures |m| == |b|
  {
    seq(|b|, i requires 0 <= i < |b| => XorByte(b[i], key[i % 4]))
  }

  lemma MaskTwice(b: bytes, key: Key)
    ensures Masked(Masked(b, key), key) == b
  {
    forall i | 0 <= i < |b|
      ensures XorByte(XorByte(b[i], key[i % 4]), key[i % 4]) == b[i]
    {
      assert Power2(4) == 16;
      XorTwice(b[i], key[i % 4], 8);
    }
  }

  method Mask(b: array<byte>, key: Key)
    modifies b
    ensures b[..] == Masked(old(b[..]), key)
  {
    for i := 0 to b.Length
      invariant forall j :: 0 <= j < i ==> b[j] == XorByte(old(b[j]), key[j % 4])
      invariant forall j :: i <= j < b.Length ==> b[j] == old(b[j])
    {
      b[i] := XorByte(b[i], key[i % 4]);
    }
  }

  // ----- Writing -----

  /** The frames WriteFrame accepts. */
  predicate Writable(f: Frame) {
    f.Control() ==> |f.payload| <= MAX_CONTROL_PAYLOAD && f.final
  }

  /** b | 0x80 */
  function WithTopBit(b: byte): byte {
    if b < 0x80 then b + 0x80 else b
  }

  function FirstByte(final: bool, opcode: nat): byte {
    if final then WithTopBit(opcode % 256) else opcode % 256
  }

  /** The seven-bit length field: the length itself, or which extended form follows. */
  function ShortLength(n: nat): (short: nat)
    ensures short <= 127
  {
    if n <= 125 then n else if n <= 0xffff then 126 else 127
  }

  function SecondByte(masked: bool, short: nat): byte
    requires short <= 127
  {
    if masked then WithTopBit(short) else short
  }

  function Extension(n: nat): bytes {
    if n > 0xffff then BigEndian(n, 8) else if n > 125 then BigEndian(n, 2) else []
  }

  function Header(f: Frame, fromClient: bool): bytes {
    [FirstByte(f.final, f.opcode), SecondByte(fromClient, ShortLength(|f.payload|))] + Extension(|f.payload|)
  }

  function Body(f: Frame, fromClient: bool, key: Key): bytes {
    if fromClient then key + Masked(f.payload, key) else f.payload
  }

  /** The bytes of a frame; a client masks them with the key, a server sends them bare. */
  function Encode(f: Frame, fromClient: bool, key: Key): bytes {
    Header(f, fromClient) + Body(f, fromClient, key)
  }

  class Writer {
    var sent: bytes

    constructor ()
      ensures sent == []
    {
      sent := [];
    }

    /** key is the fresh random key of section 5.3. */
    method WriteFrame(f: Frame, fromClient: bool, key: Key) returns (r: Result<()>)
      modifies this
      ensures r == (if Writable(f) then Ok(()) else Err(ControlTooLong))
      ensures sent == if Writable(f) then old(sent) + Encode(f, fromClient, key) else old(sent)
    {
      if f.Control() && (|f.payload| > MAX_CONTROL_PAYLOAD || !f.final) {
        return Err(ControlTooLong);
      }
      var header := Header(f, fromClient);
      if !fromClient {
        sent := sent + (header + f.payload);
        return Ok(());
      }
      header := header + key;
      var masked := new byte[|f.payload|](i requires 0 <= i < |f.payload| => f.payload[i]);
      assert masked[..] == f.payload;
      Mask(masked, key);
      sent := sent + (header + masked[..]);
      return Ok(());
    }
  }

  // ----- Reading -----

  datatype Split = Got(taken: bytes, rest: bytes) | Short(error: Error)

  /** io.ReadFull of n bytes. */
  function Take(s: bytes, n: nat): Split {
    if n <= |s| then Got(s[..n], s[n..]) else if s == [] then Short(Eof) else Short(UnexpectedEof)
  }

  datatype Parsed = Read(frame: Frame, rest: bytes) | Failed(error: Error)

  predicate KnownOpcode(opcode: nat) {
    opcode == CONTINUATION || opcode == TEXT || opcode == BINARY || opcode == CLOSE || opcode == PING || opcode == PONG
  }

  /** The length field: the 7-bit form, or one of the two extended forms in its shortest encoding. */
  function ParseLength(short: nat, s: bytes): (r: Result<(nat, bytes)>)
    ensures r.Ok? ==> |r.value.1| <= |s|
  {
    if short == 126 then
      match Take(s, 2)
      case Short(e) => Err(e)
      case Got(ext, rest) => if Number(ext) < 126 then Err(NonMinimalLength) else Ok((Number(ext), rest))
    else if short == 127 then
      match Take(s, 8)
      case Short(e) => Err(e)
      case Got(ext, rest) =>
        if Number(ext) <= 0xffff then Err(NonMinimalLength)
        else if Number(ext) > MAX_LENGTH then Err(TooLarge)
        else Ok((Number(ext), rest))
    else Ok((short, s))
  }

  function ParseBody(final: bool, opcode: nat, masked: bool, length: nat, s: bytes): (r: Parsed)
    ensures r.Read? ==> |r.rest| <= |s| && r.frame.opcode == opcode
  {
    match Take(s, if masked then 4 else 0)
    case Short(e) => Failed(e)
    case Got(key, s') =>
      match Take(s', length)
      case Short(e) => Failed(e)
      case Got(p, rest) => Read(Frame(final, opcode, if masked then Masked(p, key) else p), rest)
  }

  datatype Head = Head(final: bool, reserved: bool, opcode: nat, masked: bool, short: nat)

  function HeadOf(first: byte, second: byte): Head {
    Head(first / 0x80 != 0, first / 0x10 % 8 != 0, first % 0x10, second / 0x80 != 0, second % 0x80)
  }

  function ParseAfter(h: Head, s: bytes, fromClient: bool, limit: int): (r: Parsed)
    ensures r.Read? ==> |r.rest| <= |s| && KnownOpcode(r.frame.opcode)
  {
    if h.reserved then Failed(ReservedBits)
    else if !KnownOpcode(h.opcode) then Failed(BadOpcode)
    else if fromClient && !h.masked then Failed(UnmaskedClient)
    else if !fromClient && h.masked then Failed(MaskedServer)
    else match ParseLength(h.short, s)
      case Err(e) => Failed(e)
      case Ok((length, s')) =>
        if h.opcode >= CLOSE && (length > MAX_CONTROL_PAYLOAD || !h.final) then Failed(ControlTooLong)
        else if h.opcode < CLOSE && limit > 0 && length > limit then Failed(TooLarge)
        else ParseBody(h.final, h.opcode, h.masked, length, s')
  }

  /** Every frame costs at least the two bytes of its head. */
  function ParseFrame(s: bytes, fromClient: bool, limit: int): (r: Parsed)
    ensures r.Read? ==> |r.rest| + 2 <= |s| && KnownOpcode(r.frame.opcode)
  {
    match Take(s, 2)
    case Short(e) => Failed(e)
    case Got(head, rest) => ParseAfter(HeadOf(head[0], head[1]), rest, fromClient, limit)
  }

  class Reader {
    var rest: bytes

    constructor (input: bytes)
      ensures rest == input
    {
      rest := input;
    }

    method ReadFull(n: nat) returns (r: Result<bytes>)
      modifies this
      ensures match Take(old(rest), n)
              case Got(taken, after) => r == Ok(taken) && rest == after
              case Short(e) => r == Err(e) && rest == []
    {
      match Take(rest, n)
      case Got(taken, after) =>
        rest := after;
        return Ok(taken);
      case Short(e) =>
        rest := [];
        return Err(e);
    }

    /** Reads n bytes; unless a limit vouched for n, in chunks, so that memory follows what arrives. */
    method ReadPayload(n: nat, vouched: bool) returns (r: Result<bytes>)
      modifies this
      ensures match Take(old(rest), n)
              case Got(taken, after) => r == Ok(taken) && rest == after
              case Short(e) => r == Err(e)
    {
      if vouched || n <= PAYLOAD_CHUNK {
        r := ReadFull(n);
        return;
      }
      var payload: bytes := [];
      while |payload| < n
        invariant |payload| <= n && |payload| <= |old(rest)|
        invariant payload == old(rest)[..|payload|] && rest == old(rest)[|payload|..]
      {
        var want := n - |payload|;
        if want > PAYLOAD_CHUNK {
          want := PAYLOAD_CHUNK;
        }
        var chunk := ReadFull(want);
        if chunk.Err? {
          if |payload| > 0 && chunk.error == Eof {
            return Err(UnexpectedEof);
          }
          return Err(chunk.error);
        }
        payload := payload + chunk.value;
      }
      return Ok(payload);
    }

    method ReadLength(short: nat) returns (r: Result<nat>)
      modifies this
      ensures match ParseLength(short, old(rest))
              case Ok((length, after)) => r == Ok(length) && rest == after
              case Err(e) => r == Err(e)
    {
      var length := short;
      if short == 126 {
        var ext := ReadFull(2);
        if ext.Err? {
          return Err(ext.error);
        }
        length := Number(ext.value);
        if length < 126 {
          return Err(NonMinimalLength);
        }
      } else if short == 127 {
        var ext := ReadFull(8);
        if ext.Err? {
          return Err(ext.error);
        }
        length := Number(ext.value);
        if length <= 0xffff {
          return Err(NonMinimalLength);
        }
        if length > MAX_LENGTH {
          return Err(TooLarge);
        }
      }
      return Ok(length);
    }

    method ReadBody(final: bool, opcode: nat, masked: bool, length: nat, vouched: bool) returns (r: Result<Frame>)
      modifies this
      ensures match ParseBody(final, opcode, masked, length, old(rest))
              case Read(frame, after) => r == Ok(frame) && rest == after
              case Failed(e) => r == Err(e)
    {
      var key := ReadFull(if masked then 4 else 0);
      if key.Err? {
        return Err(key.error);
      }
      var payload := ReadPayload(length, vouched);
      if payload.Err? {
        return Err(payload.error);
      }
      var p := payload.value;
      if masked {
        var buffer := new byte[|p|](i requires 0 <= i < |p| => p[i]);
        assert buffer[..] == p;
        Mask(buffer, key.value);
        p := buffer[..];
      }
      return Ok(Frame(final, opcode, p));
    }

    method ReadAfter(h: Head, fromClient: bool, limit: int) returns (r: Result<Frame>)
      modifies this
      ensures match ParseAfter(h, old(rest), fromClient, limit)
              case Read(frame, after) => r == Ok(frame) && rest == after
              case Failed(e) => r == Err(e)
    {
      if h.reserved {
        return Err(ReservedBits);
      }
      if !KnownOpcode(h.opcode) {
        return Err(BadOpcode);
      }
      if fromClient && !h.masked {
        return Err(UnmaskedClient);
      }
      if !fromClient && h.masked {
        return Err(MaskedServer);
      }
      var length := ReadLength(h.short);
      if length.Err? {
        return Err(length.error);
      }
      if h.opcode >= CLOSE {
        if length.value > MAX_CONTROL_PAYLOAD || !h.final {
          return Err(ControlTooLong);
        }
      } else if limit > 0 && length.value > limit {
        return Err(TooLarge);
      }
      r := ReadBody(h.final, h.opcode, h.masked, length.value, limit > 0);
    }

    method ReadFrame(fromClient: bool, limit: int) returns (r: Result<Frame>)
      modifies this
      ensures match ParseFrame(old(rest), fromClient, limit)
              case Read(frame, after) => r == Ok(frame) && rest == after
              case Failed(e) => r == Err(e)
    {
      var head := ReadFull(2);
      if head.Err? {
        return Err(head.error);
      }
      r := ReadAfter(HeadOf(head.value[0], head.value[1]), fromClient, limit);
    }
  }

  // ----- The two directions -----

  /** The frames a reader with this limit takes. */
  predicate Readable(f: Frame, limit: int) {
    && KnownOpcode(f.opcode)
    && Writable(f)
    && |f.payload| <= MAX_LENGTH
    && (!f.Control() && limit > 0 ==> |f.payload| <= limit)
  }

  lemma TakeFront(a: bytes, b: bytes)
    ensures Take(a + b, |a|) == Got(a, b)
  {
    assert (a + b)[..|a|] == a && (a + b)[|a|..] == b;
  }

  lemma Pow8()
    ensures Power256(2) == 0x1_0000 && Power256(8) == 0x1_0000_0000_0000_0000
  {
    assert Power256(4) == 0x1_0000_0000;
  }

  lemma HeadBack(final: bool, opcode: nat, masked: bool, short: nat)
    requires KnownOpcode(opcode) && short <= 127
    ensures HeadOf(FirstByte(final, opcode), SecondByte(masked, short)) == Head(final, false, opcode, masked, short)
  {
  }

  lemma LengthBack(n: nat, rest: bytes)
    requires n <= MAX_LENGTH
    ensures ParseLength(ShortLength(n), Extension(n) + rest) == Ok((n, rest))
  {
    if n > 125 {
      TakeFront(Extension(n), rest);
      Pow8();
      NumberOfBigEndian(n, |Extension(n)|);
    } else {
      assert Extension(n) + rest == rest;
    }
  }

  lemma AfterBack(f: Frame, fromClient: bool, key: Key, rest: bytes, limit: int)
    requires Readable(f, limit)
    ensures var n := |f.payload|;
            ParseAfter(Head(f.final, false, f.opcode, fromClient, ShortLength(n)),
                       Extension(n) + (Body(f, fromClient, key) + rest), fromClient, limit) == Read(f, rest)
  {
    LengthBack(|f.payload|, Body(f, fromClient, key) + rest);
    BodyBack(f, fromClient, key, rest);
  }

  /** Reading back any readable frame, followed by any bytes, gives that frame and leaves those bytes. */
  lemma ReadsBack(f: Frame, fromClient: bool, key: Key, rest: bytes, limit: int)
    requires Readable(f, limit)
    ensures ParseFrame(Encode(f, fromClient, key) + rest, fromClient, limit) == Read(f, rest)
  {
    var n := |f.payload|;
    var after := Extension(n) + (Body(f, fromClient, key) + rest);
    var head := [FirstByte(f.final, f.opcode), SecondByte(fromClient, ShortLength(n))];
    Assembled(f, fromClient, key, rest, head[0], head[1]);
    TakeFront(head, after);
    HeadBack(f.final, f.opcode, fromClient, ShortLength(n));
    AfterBack(f, fromClient, key, rest, limit);
  }

  lemma BodyBack(f: Frame, masked: bool, key: Key, rest: bytes)
    ensures ParseBody(f.final, f.opcode, masked, |f.payload|, Body(f, masked, key) + rest) == Read(f, rest)
  {
    if masked {
      var m := Masked(f.payload, key);
      assert (key + m) + rest == key + (m + rest);
      TakeFront(key, m + rest);
      TakeFront(m, rest);
      MaskTwice(f.payload, key);
    } else {
      assert f.payload + rest == [] + (f.payload + rest);
      TakeFront([], f.payload + rest);
      TakeFront(f.payload, rest);
    }
  }

  /** A data frame over the limit is refused on its declared length alone. */
  lemma TooLongRefused(f: Frame, fromClient: bool, key: Key, rest: bytes, limit: int)
    requires KnownOpcode(f.opcode) && !f.Control() && 0 < limit < |f.payload| <= MAX_LENGTH
    ensures ParseFrame(Encode(f, fromClient, key) + rest, fromClient, limit) == Failed(TooLarge)
  {
    var n := |f.payload|;
    var after := Extension(n) + (Body(f, fromClient, key) + rest);
    var head := [FirstByte(f.final, f.opcode), SecondByte(fromClient, ShortLength(n))];
    Assembled(f, fromClient, key, rest, head[0], head[1]);
    TakeFront(head, after);
    HeadBack(f.final, f.opcode, fromClient, ShortLength(n));
    LengthBack(n, Body(f, fromClient, key) + rest);
  }

  // ----- and the other way round -----

  lemma LengthOnlyWay(short: nat, s: bytes, n: nat, rest: bytes)
    requires short <= 127 && ParseLength(short, s) == Ok((n, rest))
    ensures n <= MAX_LENGTH && short == ShortLength(n) && s == Extension(n) + rest
  {
    if short == 126 {
      assert s == s[..2] + s[2..];
      BigEndianOfNumber(s[..2]);
      Pow8();
    } else if short == 127 {
      assert s == s[..8] + s[8..];
      BigEndianOfNumber(s[..8]);
    } else {
      assert Extension(n) + rest == rest;
    }
  }

  lemma BodyOnlyWay(final: bool, opcode: nat, masked: bool, n: nat, s: bytes, f: Frame, rest: bytes)
    requires ParseBody(final, opcode, masked, n, s) == Read(f, rest)
    ensures f.final == final && f.opcode == opcode && |f.payload| == n
    ensures |s| >= 4 || !masked
    ensures s == Body(f, masked, if masked then s[..4] else [0, 0, 0, 0]) + rest
  {
    if masked {
      var p := s[4..][..n];
      assert s == s[..4] + (p + s[4..][n..]);
      MaskTwice(p, s[..4]);
    } else {
      assert s[0..] == s && s == s[..n] + s[n..];
    }
  }

  lemma HeadOnlyWay(first: byte, second: byte)
    ensures var h := HeadOf(first, second);
            h.short <= 127 && (!h.reserved ==> first == FirstByte(h.final, h.opcode))
              && second == SecondByte(h.masked, h.short)
  {
  }

  lemma AfterOnlyWay(h: Head, s: bytes, fromClient: bool, limit: int, f: Frame, rest: bytes) returns (key: Key)
    requires h.short <= 127 && ParseAfter(h, s, fromClient, limit) == Read(f, rest)
    ensures Readable(f, limit) && h == Head(f.final, false, f.opcode, fromClient, ShortLength(|f.payload|))
    ensures s == Extension(|f.payload|) + (Body(f, fromClient, key) + rest)
  {
    var (n, s') := ParseLength(h.short, s).value;
    LengthOnlyWay(h.short, s, n, s');
    BodyOnlyWay(h.final, h.opcode, h.masked, n, s', f, rest);
    key := if h.masked then s'[..4] else [0, 0, 0, 0];
  }

  lemma Assembled(f: Frame, fromClient: bool, key: Key, rest: bytes, first: byte, second: byte)
    requires first == FirstByte(f.final, f.opcode) && second == SecondByte(fromClient, ShortLength(|f.payload|))
    ensures Encode(f, fromClient, key) + rest
         == [first, second] + (Extension(|f.payload|) + (Body(f, fromClient, key) + rest))
  {
  }

  /** Accepted bytes are the one encoding of the frame they gave, for the key they carry. */
  lemma AcceptsOnlyEncodings(s: bytes, fromClient: bool, limit: int, f: Frame, rest: bytes) returns (key: Key)
    requires ParseFrame(s, fromClient, limit) == Read(f, rest)
    ensures Readable(f, limit)
    ensures s == Encode(f, fromClient, key) + rest
  {
    HeadOnlyWay(s[0], s[1]);
    assert s == [s[0], s[1]] + s[2..] && s[..2] == [s[0], s[1]];
    key := AfterOnlyWay(HeadOf(s[0], s[1]), s[2..], fromClient, limit, f, rest);
    Assembled(f, fromClient, key, rest, s[0], s[1]);
  }
}
