/** Incremental UTF-8 checking (ws/utf8.go) against the grammar of section 4 of RFC 3629. */
module Utf8 {

  /** A byte as its number: a mask keeps a remainder, a shift divides. */
  type byte = b: int | 0 <= b < 0x100
  type bytes = seq<byte>

  // ----- The grammar: section 4 of RFC 3629, production by production -----

  predicate Tail(b: byte) {
    0x80 <= b <= 0xbf
  }

  /** UTF8-char: exactly one character. */
  predicate IsRune(r: bytes) {
    || (|r| == 1 && r[0] <= 0x7f)
    || (|r| == 2 && 0xc2 <= r[0] <= 0xdf && Tail(r[1]))
    || (|r| == 3 && Tail(r[2]) && (
           || (r[0] == 0xe0 && 0xa0 <= r[1] <= 0xbf)
           || (0xe1 <= r[0] <= 0xec && Tail(r[1]))
           || (r[0] == 0xed && 0x80 <= r[1] <= 0x9f)
           || (0xee <= r[0] <= 0xef && Tail(r[1]))))
    || (|r| == 4 && Tail(r[2]) && Tail(r[3]) && (
           || (r[0] == 0xf0 && 0x90 <= r[1] <= 0xbf)
           || (0xf1 <= r[0] <= 0xf3 && Tail(r[1]))
           || (r[0] == 0xf4 && 0x80 <= r[1] <= 0x8f)))
  }

  /** UTF8-octets: any number of characters. */
  predicate WellFormed(s: bytes)
    decreases |s|
  {
    s == [] || exists k | 1 <= k <= |s| :: IsRune(s[..k]) && WellFormed(s[k..])
  }

  // ----- The decoder -----

  /** The fields of the validator: bytes owed, value so far, length of the rune in progress, latch. */
  datatype Fields = Fields(pending: nat, value: nat, need: nat, bad: bool)

  type Decoder = d: Fields | d.need <= 4 witness Fields(0, 0, 0, false)

  const START: Decoder := Fields(0, 0, 0, false)
  const MIN_FOR_LENGTH: seq<nat> := [0, 0, 0x80, 0x800, 0x10000]
  const MAX_RUNE := 0x10ffff

  /** One byte through the decoder; a refusal latches. */
  function Step(v: Decoder, c: byte): Decoder {
    if v.bad then v
    else if v.pending == 0 then
      if c < 0x80 then v
      else if c / 0x20 == 6 then Fields(1, c % 0x20, 2, false)
      else if c / 0x10 == 14 then Fields(2, c % 0x10, 3, false)
      else if c / 8 == 30 then Fields(3, c % 8, 4, false)
      else v.(bad := true)
    else if !IsContinuation(c) then v.(bad := true)
    else
      var value := v.value * 64 + LowBits(c);
      Fields(v.pending - 1, value, v.need, v.pending == 1 && !Legal(value, v.need))
  }

  predicate IsContinuation(c: byte) {
    c / 0x40 == 2
  }

  function LowBits(c: byte): nat {
    c % 0x40
  }

  /** The three checks a finished rune of this length still has to pass. */
  predicate Legal(value: nat, need: nat)
    requires need <= 4
  {
    MIN_FOR_LENGTH[need] <= value && !(0xd800 <= value <= 0xdfff) && value <= MAX_RUNE
  }

  function Feed(v: Decoder, b: bytes): Decoder
    decreases |b|
  {
    if b == [] then v else Feed(Step(v, b[0]), b[1..])
  }

  predicate Complete(v: Decoder) {
    !v.bad && v.pending == 0
  }

  class Utf8Validator {
    var pending: nat
    var value: nat
    var need: nat
    var bad: bool

    ghost predicate Valid() reads this { need <= 4 }

    ghost function View(): Decoder
      reads this
      requires Valid()
    {
      Fields(pending, value, need, bad)
    }

    constructor ()
      ensures Valid() && View() == START
    {
      pending, value, need, bad := 0, 0, 0, false;
    }

    method Reset()
      modifies this
      ensures Valid() && View() == START
    {
      pending, value, need, bad := 0, 0, 0, false;
    }

    /** Feeds the next bytes of the message; false from the first refused byte on. */
    method Write(b: bytes) returns (ok: bool)
      requires Valid()
      modifies this
      ensures Valid() && View() == Feed(old(View()), b)
      ensures ok == !bad
    {
      if bad {
        FeedBad(View(), b);
        return false;
      }
      var i := 0;
      while i < |b|
        invariant 0 <= i <= |b| && Valid() && !bad
        invariant Feed(View(), b[i..]) == Feed(old(View()), b)
      {
        assert b[i..][0] == b[i] && b[i..][1..] == b[i + 1..];
        Take(b[i]);
        i := i + 1;
        if bad {
          FeedBad(View(), b[i..]);
          return false;
        }
      }
      return true;
    }

    /** The body of the loop in Write. */
    method Take(c: byte)
      requires Valid() && !bad
      modifies this
      ensures Valid() && View() == Step(old(View()), c)
    {
      if pending == 0 {
        if c < 0x80 {
        } else if c / 0x20 == 6 {
          pending, need, value := 1, 2, c % 0x20;
        } else if c / 0x10 == 14 {
          pending, need, value := 2, 3, c % 0x10;
        } else if c / 8 == 30 {
          pending, need, value := 3, 4, c % 8;
        } else {
          bad := true;
        }
      } else if !IsContinuation(c) {
        bad := true;
      } else {
        value := value * 64 + LowBits(c);
        pending := pending - 1;
        if pending == 0 {
          if value < MIN_FOR_LENGTH[need] {
            bad := true;
          } else if value >= 0xd800 && value <= 0xdfff {
            bad := true;
          } else if value > MAX_RUNE {
            bad := true;
          }
        }
      }
    }

    method IsComplete() returns (yes: bool)
      requires Valid()
      ensures yes == Complete(View())
    {
      return !bad && pending == 0;
    }
  }

  // ----- Cuts -----

  lemma {:induction false} FeedBad(v: Decoder, b: bytes)
    requires v.bad
    ensures Feed(v, b) == v
  {
    if b != [] {
      FeedBad(v, b[1..]);
    }
  }

  lemma {:induction false} FeedConcat(v: Decoder, a: bytes, b: bytes)
    ensures Feed(v, a + b) == Feed(Feed(v, a), b)
    decreases |a|
  {
    if a == [] {
      assert a + b == b;
    } else {
      assert (a + b)[0] == a[0] && (a + b)[1..] == a[1..] + b;
      FeedConcat(Step(v, a[0]), a[1..], b);
    }
  }

  function Joined(cuts: seq<bytes>): bytes {
    if cuts == [] then [] else cuts[0] + Joined(cuts[1..])
  }

  /** Whether successive writes of the pieces are all accepted, starting from v. */
  predicate AcceptsAll(v: Decoder, cuts: seq<bytes>)
    decreases |cuts|
  {
    cuts == [] || (!Feed(v, cuts[0]).bad && AcceptsAll(Feed(v, cuts[0]), cuts[1..]))
  }

  lemma {:induction false} CutsDoNotMatter(v: Decoder, cuts: seq<bytes>)
    requires !v.bad
    ensures AcceptsAll(v, cuts) <==> !Feed(v, Joined(cuts)).bad
    decreases |cuts|
  {
    if cuts != [] {
      var next := Feed(v, cuts[0]);
      FeedConcat(v, cuts[0], Joined(cuts[1..]));
      if next.bad {
        FeedBad(next, Joined(cuts[1..]));
      } else {
        CutsDoNotMatter(next, cuts[1..]);
      }
    }
  }

  // ----- The refinement -----

  /** The rune length the first byte announces, 0 when it can begin none. */
  function Announced(c: byte): nat {
    if c < 0x80 then 1
    else if c / 0x20 == 6 then 2
    else if c / 0x10 == 14 then 3
    else if c / 8 == 30 then 4
    else 0
  }

  lemma RuneLength(r: bytes)
    requires IsRune(r)
    ensures |r| == Announced(r[0])
  {
  }

  lemma TwoBytes(a: byte, b: byte)
    requires Announced(a) == 2
    ensures (IsContinuation(b) && Legal(a % 0x20 * 64 + LowBits(b), 2)) <==> IsRune([a, b])
  {
  }

  lemma ThreeBytes(a: byte, b: byte, c: byte)
    requires Announced(a) == 3
    ensures (IsContinuation(b) && IsContinuation(c) && Legal((a % 0x10 * 64 + LowBits(b)) * 64 + LowBits(c), 3))
            <==> IsRune([a, b, c])
  {
  }

  lemma FourBytes(a: byte, b: byte, c: byte, d: byte)
    requires Announced(a) == 4
    ensures (IsContinuation(b) && IsContinuation(c) && IsContinuation(d)
             && Legal(((a % 8 * 64 + LowBits(b)) * 64 + LowBits(c)) * 64 + LowBits(d), 4))
            <==> IsRune([a, b, c, d])
  {
  }

  lemma FeedOne(v: Decoder, a: byte, rest: bytes)
    ensures Feed(v, [a] + rest) == Feed(Step(v, a), rest)
  {
    assert ([a] + rest)[1..] == rest;
  }

  /** The last owed byte settles the rune. */
  lemma OweOne(v: Decoder, d: byte)
    requires !v.bad && v.pending == 1
    ensures var w := Feed(v, [d]);
            if IsContinuation(d) && Legal(v.value * 64 + LowBits(d), v.need) then Complete(w) else w.bad
  {
    FeedOne(v, d, []);
    assert [d] == [d] + [];
  }

  lemma OweTwo(v: Decoder, c: byte, d: byte)
    requires !v.bad && v.pending == 2
    ensures var w := Feed(v, [c, d]);
            if IsContinuation(c) && IsContinuation(d) && Legal((v.value * 64 + LowBits(c)) * 64 + LowBits(d), v.need)
            then Complete(w) else w.bad
  {
    FeedOne(v, c, [d]);
    assert [c, d] == [c] + [d];
    if IsContinuation(c) { OweOne(Step(v, c), d); } else { FeedBad(Step(v, c), [d]); }
  }

  lemma OweThree(v: Decoder, b: byte, c: byte, d: byte)
    requires !v.bad && v.pending == 3
    ensures var w := Feed(v, [b, c, d]);
            if IsContinuation(b) && IsContinuation(c) && IsContinuation(d)
               && Legal(((v.value * 64 + LowBits(b)) * 64 + LowBits(c)) * 64 + LowBits(d), v.need)
            then Complete(w) else w.bad
  {
    FeedOne(v, b, [c, d]);
    assert [b, c, d] == [b] + [c, d];
    if IsContinuation(b) { OweTwo(Step(v, b), c, d); } else { FeedBad(Step(v, b), [c, d]); }
  }

  lemma Leads(v: Decoder, a: byte)
    requires Complete(v)
    ensures Announced(a) == 2 ==> Step(v, a) == Fields(1, a % 0x20, 2, false)
    ensures Announced(a) == 3 ==> Step(v, a) == Fields(2, a % 0x10, 3, false)
    ensures Announced(a) == 4 ==> Step(v, a) == Fields(3, a % 8, 4, false)
  {
  }

  ghost predicate Settles(v: Decoder, r: bytes) {
    if IsRune(r) then Complete(Feed(v, r)) else Feed(v, r).bad
  }

  lemma FeedTwo(v: Decoder, a: byte, b: byte)
    requires Complete(v) && Announced(a) == 2
    ensures Settles(v, [a, b])
  {
    assert [a, b] == [a] + [b];
    FeedOne(v, a, [b]);
    Leads(v, a);
    OweOne(Step(v, a), b);
    TwoBytes(a, b);
  }

  lemma FeedThree(v: Decoder, a: byte, b: byte, c: byte)
    requires Complete(v) && Announced(a) == 3
    ensures Settles(v, [a, b, c])
  {
    assert [a, b, c] == [a] + [b, c];
    FeedOne(v, a, [b, c]);
    Leads(v, a);
    OweTwo(Step(v, a), b, c);
    ThreeBytes(a, b, c);
  }

  lemma FeedFour(v: Decoder, a: byte, b: byte, c: byte, d: byte)
    requires Complete(v) && Announced(a) == 4
    ensures Settles(v, [a, b, c, d])
  {
    assert [a, b, c, d] == [a] + [b, c, d];
    FeedOne(v, a, [b, c, d]);
    Leads(v, a);
    OweThree(Step(v, a), b, c, d);
    FourBytes(a, b, c, d);
  }

  /** As many bytes as the first one announces: the decoder is back on a boundary or has refused. */
  lemma FeedRune(v: Decoder, r: bytes)
    requires Complete(v) && r != [] && |r| == Announced(r[0])
    ensures Settles(v, r)
  {
    if |r| == 1 {
      assert r == [r[0]] + [];
      FeedOne(v, r[0], []);
    } else if |r| == 2 {
      FeedTwo(v, r[0], r[1]);
      assert r == [r[0], r[1]];
    } else if |r| == 3 {
      FeedThree(v, r[0], r[1], r[2]);
      assert r == [r[0], r[1], r[2]];
    } else {
      FeedFour(v, r[0], r[1], r[2], r[3]);
      assert r == [r[0], r[1], r[2], r[3]];
    }
  }

  /** Inside a rune each byte takes one off what is owed, or is refused. */
  lemma {:induction false} FeedOwed(v: Decoder, s: bytes)
    requires v.bad || |s| < v.pending
    ensures Feed(v, s).bad || Feed(v, s).pending > 0
    decreases |s|
  {
    if v.bad {
      FeedBad(v, s);
    } else if s != [] {
      FeedOwed(Step(v, s[0]), s[1..]);
    }
  }

  lemma {:induction false} DecidesFrom(v: Decoder, s: bytes)
    requires Complete(v)
    ensures Complete(Feed(v, s)) <==> WellFormed(s)
    decreases |s|
  {
    if s != [] {
      var n := Announced(s[0]);
      forall k | 1 <= k <= |s| && IsRune(s[..k])
        ensures k == n
      {
        RuneLength(s[..k]);
      }
      if n == 0 {
        FeedBad(Step(v, s[0]), s[1..]);
      } else if |s| < n {
        FeedOwed(Step(v, s[0]), s[1..]);
      } else {
        var next := Feed(v, s[..n]);
        assert s == s[..n] + s[n..];
        FeedConcat(v, s[..n], s[n..]);
        FeedRune(v, s[..n]);
        if IsRune(s[..n]) {
          DecidesFrom(next, s[n..]);
        } else {
          FeedBad(next, s[n..]);
        }
      }
    }
  }

  /** For every text and every way of cutting it: all writes accepted and complete, iff well formed. */
  lemma Decides(cuts: seq<bytes>)
    ensures AcceptsAll(START, cuts) && Complete(Feed(START, Joined(cuts))) <==> WellFormed(Joined(cuts))
  {
    CutsDoNotMatter(START, cuts);
    DecidesFrom(START, Joined(cuts));
  }

  /** No beginning of well-formed text is refused, so a refusal at any byte means no continuation could help. */
  lemma NoPrefixRefused(a: bytes, b: bytes)
    requires WellFormed(a + b)
    ensures !Feed(START, a).bad
  {
    DecidesFrom(START, a + b);
    FeedConcat(START, a, b);
    if Feed(START, a).bad {
      FeedBad(Feed(START, a), b);
    }
  }
}
