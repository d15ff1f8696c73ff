/** The payload of a close frame, sections 5.5.1 and 7.4.1 of RFC 6455 (ws/frame.go). */
module ClosePayload {
  import opened Utf8
  import opened Frames

  const NORMAL := 1000
  const PROTOCOL_ERROR := 1002
  const NO_STATUS := 1005
  const ABNORMAL := 1006
  const INVALID_PAYLOAD := 1007
  const TOO_BIG := 1009
  const TLS_HANDSHAKE := 1015
  const ROOM := MAX_CONTROL_PAYLOAD - 2

  predicate CloseCodeValid(code: int) {
    if code == NO_STATUS || code == ABNORMAL || code == TLS_HANDSHAKE || code == 1004 then false
    else 1000 <= code <= 1011 || 3000 <= code <= 4999
  }

  function ParseClose(payload: bytes): Result<(nat, bytes)> {
    if payload == [] then Ok((NO_STATUS, []))
    else if |payload| == 1 then Err(BadCloseCode)
    else if !CloseCodeValid(Number(payload[..2])) then Err(BadCloseCode)
    else if !WellFormed(payload[2..]) then Err(BadUtf8)
    else Ok((Number(payload[..2]), payload[2..]))
  }

  /** What utf8.DecodeLastRuneInString finds: a whole rune at the end, rather than a RuneError of one byte. */
  predicate EndsInRune(s: bytes) {
    exists j | 0 <= j < |s| :: IsRune(s[j..])
  }

  /** The longest prefix that is empty or ends in a rune. */
  function Trimmed(s: bytes): (t: bytes)
    ensures t <= s
    decreases |s|
  {
    if s == [] || EndsInRune(s) then s else Trimmed(s[..|s| - 1])
  }

  /** The part of the reason that is sent. */
  function Kept(reason: bytes): bytes {
    if |reason| > ROOM then Trimmed(reason[..ROOM]) else reason
  }

  function Formatted(code: int, reason: bytes): bytes {
    if code == NO_STATUS then [] else BigEndian(code % 0x1_0000, 2) + Kept(reason)
  }

  method FormatClose(code: int, reason: bytes) returns (payload: bytes)
    ensures payload == Formatted(code, reason)
  {
    if code == NO_STATUS {
      return [];
    }
    payload := BigEndian(code % 0x1_0000, 2);
    var kept := reason;
    if |kept| > ROOM {
      kept := kept[..ROOM];
      while |kept| > 0
        invariant Trimmed(kept) == Trimmed(reason[..ROOM])
      {
        if EndsInRune(kept) {
          break;
        }
        kept := kept[..|kept| - 1];
      }
    }
    payload := payload + kept;
  }

  // ----- Rune boundaries of well-formed text -----

  lemma RuneShape(r: bytes)
    requires IsRune(r)
    ensures 1 <= |r| <= 4 && !Tail(r[0]) && forall i | 1 <= i < |r| :: Tail(r[i])
  {
  }

  lemma RuneThenText(r: bytes, s: bytes)
    requires IsRune(r) && WellFormed(s)
    ensures WellFormed(r + s)
  {
    assert (r + s)[..|r|] == r && (r + s)[|r|..] == s;
    RuneShape(r);
  }

  lemma OneRune(r: bytes)
    requires IsRune(r)
    ensures WellFormed(r)
  {
    RuneThenText(r, []);
    assert r + [] == r;
  }

  lemma EmptyText(s: bytes)
    ensures WellFormed(s[..0])
  {
  }

  lemma FirstRune(s: bytes) returns (k: nat)
    requires WellFormed(s) && s != []
    ensures 1 <= k <= |s| && k <= 4 && IsRune(s[..k]) && WellFormed(s[k..]) && k == Announced(s[0])
  {
    k :| 1 <= k <= |s| && IsRune(s[..k]) && WellFormed(s[k..]);
    RuneShape(s[..k]);
    RuneLength(s[..k]);
  }

  lemma {:induction false} TextEndsInRune(s: bytes) returns (j: nat)
    requires WellFormed(s) && s != []
    ensures j < |s| && IsRune(s[j..])
    decreases |s|
  {
    hide IsRune;
    hide WellFormed;
    var k := FirstRune(s);
    j := 0;
    if k < |s| {
      j := TextEndsInRune(s[k..]);
      assert s[k..][j..] == s[k + j..];
      j := k + j;
    } else {
      assert s[..k] == s[0..];
    }
  }

  /** A rune cannot begin inside another one. */
  lemma Aligned(s: bytes, k: nat, j: nat, n: nat)
    requires k <= |s| && j < n <= |s| && IsRune(s[..k]) && IsRune(s[j..n])
    ensures (j == 0 && n == k) || j >= k
  {
    var r := s[j..n];
    RuneShape(s[..k]);
    RuneShape(r);
    RuneLength(s[..k]);
    RuneLength(r);
    assert r[0] == s[j] && s[..k][0] == s[0];
    assert j < k ==> s[..k][j] == s[j];
  }

  lemma Spliced(s: bytes, k: nat, n: nat)
    requires k + n <= |s|
    ensures s[..k] + s[k..][..n] == s[..k + n]
  {
  }

  lemma Shifted(s: bytes, k: nat, j: nat, n: nat)
    requires k <= j <= n <= |s|
    ensures s[k..][j - k..n - k] == s[j..n]
  {
    var a := s[k..][j - k..n - k];
    assert |a| == n - j;
    forall i | 0 <= i < |a| ensures a[i] == s[j..n][i] { }
  }

  /** A rune at the end of a prefix of text is one of the text's own runes, so the prefix is text. */
  lemma {:induction false} RuneEndIsBoundary(s: bytes, j: nat, n: nat)
    requires WellFormed(s) && j < n <= |s| && IsRune(s[j..n])
    ensures WellFormed(s[..n])
    decreases |s|
  {
    hide IsRune;
    hide WellFormed;
    var k := FirstRune(s);
    Aligned(s, k, j, n);
    if j == 0 {
      OneRune(s[..k]);
    } else {
      Shifted(s, k, j, n);
      RuneEndIsBoundary(s[k..], j - k, n - k);
      Spliced(s, k, n - k);
      RuneThenText(s[..k], s[k..][..n - k]);
    }
  }

  /** No four consecutive cuts all miss a boundary. */
  lemma {:induction false} BoundaryNearby(s: bytes, n: nat) returns (k: nat)
    requires WellFormed(s) && n <= |s|
    ensures k <= n <= k + 3 && WellFormed(s[..k])
    decreases |s|
  {
    hide IsRune;
    hide WellFormed;
    k := 0;
    EmptyText(s);
    if n > 0 {
      var first := FirstRune(s);
      if first <= n {
        k := BoundaryNearby(s[first..], n - first);
        Spliced(s, first, k);
        RuneThenText(s[..first], s[first..][..k]);
        k := first + k;
      }
    }
  }

  lemma {:induction false} TrimmedIsLongest(s: bytes, k: nat)
    requires k <= |s| && (k > 0 ==> EndsInRune(s[..k]))
    ensures k <= |Trimmed(s)|
    decreases |s|
  {
    if s != [] && !EndsInRune(s) {
      assert s[..|s|] == s;
      assert s[..|s| - 1][..k] == s[..k];
      TrimmedIsLongest(s[..|s| - 1], k);
    }
  }

  lemma {:induction false} TrimmedEnds(s: bytes)
    ensures Trimmed(s) == [] || EndsInRune(Trimmed(s))
    decreases |s|
  {
    if s != [] && !EndsInRune(s) {
      TrimmedEnds(s[..|s| - 1]);
    }
  }

  lemma KeptFits(reason: bytes)
    requires WellFormed(reason)
    ensures Kept(reason) <= reason && |Kept(reason)| <= 123 && WellFormed(Kept(reason))
  {
    if |reason| > ROOM {
      var kept := Trimmed(reason[..ROOM]);
      TrimmedEnds(reason[..ROOM]);
      assert kept == reason[..|kept|];
      if kept != [] {
        var j :| 0 <= j < |kept| && IsRune(kept[j..]);
        assert kept[j..] == reason[j..|kept|];
        RuneEndIsBoundary(reason, j, |kept|);
      }
    }
  }

  /** No longer beginning of the reason is whole runes and fits, and at most three bytes go to the boundary. */
  lemma KeptIsLongest(reason: bytes, k: nat)
    requires WellFormed(reason) && k <= |reason|
    ensures k <= 123 && WellFormed(reason[..k]) ==> k <= |Kept(reason)|
    ensures |Kept(reason)| >= 120 || Kept(reason) == reason
  {
    if |reason| > ROOM {
      if k <= ROOM { NoLongerCut(reason, k); }
      var near := BoundaryNearby(reason, ROOM);
      NoLongerCut(reason, near);
    }
  }

  lemma NoLongerCut(reason: bytes, k: nat)
    requires k <= ROOM < |reason|
    ensures WellFormed(reason[..k]) ==> k <= |Trimmed(reason[..ROOM])|
  {
    if WellFormed(reason[..k]) {
      assert reason[..ROOM][..k] == reason[..k];
      if k > 0 {
        var j := TextEndsInRune(reason[..k]);
      }
      TrimmedIsLongest(reason[..ROOM], k);
    }
  }

  lemma ParseFront(code: int, front: bytes, kept: bytes)
    requires |front| == 2 && Number(front) == code && CloseCodeValid(code) && WellFormed(kept)
    ensures ParseClose(front + kept) == Ok((code, kept))
  {
    assert (front + kept)[..2] == front && (front + kept)[2..] == kept;
  }

  /** For every code that may be sent and every UTF-8 reason, what is parsed is that code and the part kept. */
  lemma CloseRoundTrip(code: int, reason: bytes)
    requires CloseCodeValid(code) && WellFormed(reason)
    ensures ParseClose(Formatted(code, reason)) == Ok((code, Kept(reason)))
    ensures |Formatted(code, reason)| <= MAX_CONTROL_PAYLOAD
  {
    KeptFits(reason);
    Pow8();
    NumberOfBigEndian(code, 2);
    ParseFront(code, BigEndian(code, 2), Kept(reason));
  }

  /** A payload is accepted exactly when it is empty or what a close frame may carry, and then nothing is lost. */
  lemma AcceptedPayloads(payload: bytes, code: nat, reason: bytes)
    requires |payload| <= MAX_CONTROL_PAYLOAD && ParseClose(payload) == Ok((code, reason))
    ensures WellFormed(reason) && payload == Formatted(code, reason)
    ensures CloseCodeValid(code) || (code == NO_STATUS && payload == [])
  {
    if payload != [] {
      BigEndianOfNumber(payload[..2]);
      assert payload == payload[..2] + payload[2..];
    }
  }
}
