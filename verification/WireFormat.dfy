/** The wire, bit by bit: the figure of section 5.2 and the masking of section 5.3 of RFC 6455, in plain numbers. */
module WireFormat {
  import opened Utf8
  import opened Frames
  import opened Options

  /** Bit i of a number, the lowest first. */
  function Bit(n: nat, i: nat): nat {
    if i == 0 then n % 2 else Bit(n / 2, i - 1)
  }

  lemma {:induction false} XorBits(a: nat, b: nat, bits: nat, i: nat)
    requires i < bits
    ensures Bit(Xor(a, b, bits), i) == 1 <==> Bit(a, i) != Bit(b, i)
  {
    var x := Xor(a, b, bits);
    Halves(x, if a % 2 == b % 2 then 0 else 1, Xor(a / 2, b / 2, bits - 1));
    if i > 0 {
      XorBits(a / 2, b / 2, bits - 1, i - 1);
    }
  }

  /** One byte on the wire differs from the byte of the payload exactly where the key's byte has a one. */
  predicate Differs(wire: byte, plain: byte, key: byte) {
    forall i | 0 <= i < 8 :: Bit(wire, i) != Bit(plain, i) <==> Bit(key, i) == 1
  }

  lemma BitIsBit(n: nat, i: nat)
    ensures Bit(n, i) == 0 || Bit(n, i) == 1
  {
  }

  lemma XorByteDiffers(a: byte, b: byte)
    ensures Differs(XorByte(a, b), a, b)
  {
    forall i | 0 <= i < 8 ensures Bit(XorByte(a, b), i) != Bit(a, i) <==> Bit(b, i) == 1 {
      XorBits(a, b, 8, i);
      BitIsBit(a, i);
      BitIsBit(b, i);
      BitIsBit(XorByte(a, b), i);
    }
  }

  /** Byte i of the payload meets byte i mod 4 of the key. */
  lemma MaskedBits(b: bytes, key: Key)
    ensures |Masked(b, key)| == |b| && forall i | 0 <= i < |b| :: Differs(Masked(b, key)[i], b[i], key[i % 4])
  {
    forall i | 0 <= i < |b| ensures Differs(Masked(b, key)[i], b[i], key[i % 4]) {
      XorByteDiffers(b[i], key[i % 4]);
    }
  }

  /** Numbers go most significant byte first. */
  lemma NetworkOrder(s: bytes)
    ensures |s| == 2 ==> Number(s) == 0x100 * s[0] as int + s[1]
    ensures |s| == 8 ==> Number(s) == Word(s[..4]) * 0x1_0000_0000 + Word(s[4..])
  {
    if |s| == 2 {
      NumberGrows(s[..1], s[1], s);
      NumberGrows([], s[0], s[..1]);
    }
    if |s| == 8 {
      WordIsNumber(s[..4]);
      NumberGrows(s[..7], s[7], s);
      NumberGrows(s[..6], s[6], s[..7]);
      NumberGrows(s[..5], s[5], s[..6]);
      NumberGrows(s[..4], s[4], s[..5]);
    }
  }

  function Word(s: bytes): nat
    requires |s| == 4
  {
    0x100_0000 * s[0] as int + 0x1_0000 * s[1] as int + 0x100 * s[2] as int + s[3]
  }

  lemma NumberGrows(s: bytes, b: byte, t: bytes)
    requires t == s + [b]
    ensures Number(t) == Number(s) * 256 + b
  {
    assert t[..|t| - 1] == s;
  }

  lemma WordIsNumber(s: bytes)
    requires |s| == 4
    ensures Number(s) == Word(s)
  {
    NumberGrows(s[..3], s[3], s);
    NumberGrows(s[..2], s[2], s[..3]);
    NumberGrows(s[..1], s[1], s[..2]);
    NumberGrows([], s[0], s[..1]);
  }

  /** The header of every frame: the first byte, the mask bit with the short length, and the extended length. */
  lemma HeaderLayout(f: Frame, fromClient: bool)
    requires f.opcode < 128 && |f.payload| < 0x1_0000_0000_0000_0000
    ensures var h, n := Header(f, fromClient), |f.payload|;
            && |h| == (if n <= 125 then 2 else if n <= 65535 then 4 else 10)
            && h[0] == (if f.final then 128 else 0) + f.opcode
            && h[1] == (if fromClient then 128 else 0) + (if n <= 125 then n else if n <= 65535 then 126 else 127)
            && (125 < n <= 65535 ==> n == 0x100 * h[2] as int + h[3])
            && (65535 < n ==> n == Word(h[2..6]) * 0x1_0000_0000 + Word(h[6..10]))
  {
    var h, n := Header(f, fromClient), |f.payload|;
    if n > 125 {
      Pow8();
      NumberOfBigEndian(n, |Extension(n)|);
      NetworkOrder(Extension(n));
      assert h[2..] == Extension(n);
      if n > 65535 {
        assert h[2..6] == Extension(n)[..4] && h[6..10] == Extension(n)[4..];
      }
    }
  }

  /** After the header a client puts its key and the masked payload, a server the payload as it is. */
  lemma BodyLayout(f: Frame, fromClient: bool, key: Key)
    ensures var w, n, h := Encode(f, fromClient, key), |f.payload|, |Header(f, fromClient)|;
            && |w| == h + (if fromClient then 4 else 0) + n
            && w[..h] == Header(f, fromClient)
            && (!fromClient ==> w[h..] == f.payload)
            && (fromClient ==> w[h..h + 4] == key)
            && (fromClient ==> forall i | 0 <= i < n :: Differs(w[h + 4 + i], f.payload[i], key[i % 4]))
  {
    MaskedBits(f.payload, key);
  }

  /** What the reader makes of the bytes of a frame: itself exactly when section 5 allows it and it fits the limit. */
  lemma TakenIff(f: Frame, fromClient: bool, key: Key, rest: bytes, limit: int)
    requires f.opcode < 16
    ensures ParseFrame(Encode(f, fromClient, key) + rest, fromClient, limit) == Read(f, rest) <==>
              && f.opcode in {0, 1, 2, 8, 9, 10}
              && (f.opcode >= 8 ==> f.final && |f.payload| <= 125)
              && |f.payload| <= 0x4000_0000_0000_0000
              && (f.opcode < 8 && 0 < limit ==> |f.payload| <= limit)
  {
    var s := Encode(f, fromClient, key) + rest;
    if Readable(f, limit) {
      ReadsBack(f, fromClient, key, rest, limit);
    } else if ParseFrame(s, fromClient, limit) == Read(f, rest) {
      var _ := AcceptsOnlyEncodings(s, fromClient, limit, f, rest);
      assert false;
    }
  }

  // ----- What is refused, read off the bytes -----

  function HeadFault(first: byte, second: byte, fromClient: bool): Option<Error> {
    if first / 16 % 8 != 0 then Some(ReservedBits)
    else if first % 16 !in {0, 1, 2, 8, 9, 10} then Some(BadOpcode)
    else if fromClient && second < 128 then Some(UnmaskedClient)
    else if !fromClient && second >= 128 then Some(MaskedServer)
    else None
  }

  /** Where the length field ends. */
  function HeaderEnd(second: byte): nat {
    if second % 128 == 126 then 4 else if second % 128 == 127 then 10 else 2
  }

  function Declared(s: bytes): nat
    requires |s| >= 2 && |s| >= HeaderEnd(s[1])
  {
    if s[1] % 128 == 126 then 0x100 * s[2] as int + s[3]
    else if s[1] % 128 == 127 then Word(s[2..6]) * 0x1_0000_0000 + Word(s[6..10])
    else s[1] % 128
  }

  /** The length, known before anything of the payload is read, can be refused on its own. */
  function LengthFault(first: byte, second: byte, n: nat, limit: int): Option<Error> {
    if (second % 128 == 126 && n <= 125) || (second % 128 == 127 && n <= 65535) then Some(NonMinimalLength)
    else if second % 128 == 127 && n > 0x4000_0000_0000_0000 then Some(TooLarge)
    else if first % 16 >= 8 then if n > 125 || first < 128 then Some(ControlTooLong) else None
    else if 0 < limit < n then Some(TooLarge)
    else None
  }

  function CutOff(arrived: nat): Error {
    if arrived == 0 then Eof else UnexpectedEof
  }

  /** The first two bytes are judged before the third is looked at. */
  lemma HeadRefused(s: bytes, fromClient: bool, limit: int)
    ensures |s| < 2 ==> ParseFrame(s, fromClient, limit) == Failed(CutOff(|s|))
    ensures |s| >= 2 && HeadFault(s[0], s[1], fromClient).Some? ==>
              ParseFrame(s, fromClient, limit) == Failed(HeadFault(s[0], s[1], fromClient).value)
  {
  }

  lemma DeclaredIs(s: bytes)
    requires |s| >= 2 && |s| >= HeaderEnd(s[1])
    ensures s[1] % 128 == 126 ==> Number(s[2..][..2]) == Declared(s)
    ensures s[1] % 128 == 127 ==> Number(s[2..][..8]) == Declared(s)
  {
    var e := s[2..];
    if s[1] % 128 == 126 {
      NetworkOrder(e[..2]);
    } else if s[1] % 128 == 127 {
      NetworkOrder(e[..8]);
      assert e[..8][..4] == s[2..6] && e[..8][4..] == s[6..10];
    }
  }

  lemma LengthParsed(s: bytes)
    requires |s| >= 2
    ensures var r := ParseLength(s[1] % 128, s[2..]);
            if |s| < HeaderEnd(s[1]) then r == Err(CutOff(|s| - 2))
            else var n, m := Declared(s), s[1] % 128;
              if (m == 126 && n <= 125) || (m == 127 && n <= 65535) then r == Err(NonMinimalLength)
              else if m == 127 && n > 0x4000_0000_0000_0000 then r == Err(TooLarge)
              else r == Ok((n, s[HeaderEnd(s[1])..]))
  {
    if |s| >= HeaderEnd(s[1]) {
      DeclaredIs(s);
    }
  }

  /** Then the length, before the key and the payload. */
  lemma LengthRefused(s: bytes, fromClient: bool, limit: int)
    requires |s| >= 2 && HeadFault(s[0], s[1], fromClient) == None
    ensures |s| < HeaderEnd(s[1]) ==> ParseFrame(s, fromClient, limit) == Failed(CutOff(|s| - 2))
    ensures |s| >= HeaderEnd(s[1]) && LengthFault(s[0], s[1], Declared(s), limit).Some? ==>
              ParseFrame(s, fromClient, limit) == Failed(LengthFault(s[0], s[1], Declared(s), limit).value)
  {
    LengthParsed(s);
    ParsedAfterHead(s, fromClient, limit);
  }

  lemma ParsedAfterHead(s: bytes, fromClient: bool, limit: int)
    requires |s| >= 2 && HeadFault(s[0], s[1], fromClient) == None
    ensures ParseFrame(s, fromClient, limit) == match ParseLength(s[1] % 128, s[2..]) {
              case Err(e) => Failed(e)
              case Ok((n, s')) =>
                if s[0] % 16 >= 8 && (n > 125 || s[0] < 128) then Failed(ControlTooLong)
                else if s[0] % 16 < 8 && limit > 0 && n > limit then Failed(TooLarge)
                else ParseBody(s[0] >= 128, s[0] % 16, fromClient, n, s')
            }
  {
    hide ParseLength, ParseBody;
  }

  lemma PassedOn(s: bytes, fromClient: bool, limit: int)
    requires |s| >= 2 && HeadFault(s[0], s[1], fromClient) == None && |s| >= HeaderEnd(s[1])
    requires LengthFault(s[0], s[1], Declared(s), limit) == None
    ensures ParseFrame(s, fromClient, limit)
         == ParseBody(s[0] >= 128, s[0] % 16, fromClient, Declared(s), s[HeaderEnd(s[1])..])
  {
    hide ParseFrame, ParseBody, ParseLength, HeadFault, Word, Declared;
    LengthParsed(s);
    ParsedAfterHead(s, fromClient, limit);
  }

  lemma BodyParsed(final: bool, opcode: nat, fromClient: bool, n: nat, s: bytes)
    ensures var k := if fromClient then 4 else 0;
            match ParseBody(final, opcode, fromClient, n, s) {
              case Failed(e) => |s| < k + n && e == (if |s| < k then CutOff(|s|) else CutOff(|s| - k))
              case Read(f, rest) =>
                && |s| >= k + n && rest == s[k + n..]
                && f.final == final && f.opcode == opcode && |f.payload| == n
                && (!fromClient ==> f.payload == s[..n])
                && (fromClient ==> forall i | 0 <= i < n :: Differs(f.payload[i], s[4 + i], s[i % 4]))
            }
  {
    hide Masked, Differs;
    if fromClient && |s| >= 4 + n {
      MaskedBits(s[4..][..n], s[..4]);
    }
  }

  /** A frame with nothing wrong in its header is read as soon as all of it is there, and not before. */
  lemma BodyTaken(s: bytes, fromClient: bool, limit: int)
    requires |s| >= 2 && HeadFault(s[0], s[1], fromClient) == None && |s| >= HeaderEnd(s[1])
    requires LengthFault(s[0], s[1], Declared(s), limit) == None
    ensures var h, k, n := HeaderEnd(s[1]), if fromClient then 4 else 0, Declared(s);
            match ParseFrame(s, fromClient, limit) {
              case Failed(e) =>
                && |s| < h + k + n
                && e == (if |s| < h + k then CutOff(|s| - h) else CutOff(|s| - h - k))
              case Read(f, rest) =>
                && |s| >= h + k + n && rest == s[h + k + n..]
                && f.final == (s[0] >= 128) && f.opcode == s[0] % 16 && |f.payload| == n
                && (!fromClient ==> f.payload == s[h..h + n])
                && (fromClient ==> forall i | 0 <= i < n :: Differs(f.payload[i], s[h + 4 + i], s[h + i % 4]))
            }
  {
    hide *;
    PassedOn(s, fromClient, limit);
    BodyParsed(s[0] >= 128, s[0] % 16, fromClient, Declared(s), s[HeaderEnd(s[1])..]);
  }
}
