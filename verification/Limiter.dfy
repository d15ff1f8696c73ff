/** One socket's inbound meter: an integer token bucket (server.go). Times are nanoseconds and never run backwards. */
module Limiters {

  const SECOND := 1_000_000_000

  datatype Bucket = Bucket(limit: int, cost: int, tokens: int, filled: int)

  /**
   * A frame's cost is a positive part of a second, the tokens are within the bucket, and a limit of zero is no limit.
   */
  predicate Sound(b: Bucket, now: int) {
    && (b.limit > 0 ==> b.cost > 0 && b.cost * b.limit <= SECOND)
    && 0 <= b.tokens <= (if b.limit > 0 then b.limit else 0)
    && (b.limit > 0 ==> b.filled <= now)
  }

  function Opened(limit: int, now: int): Bucket {
    if limit <= 0 || SECOND / limit == 0 then Bucket(0, 0, 0, 0) else Bucket(limit, SECOND / limit, limit, now)
  }

  /** What time has earned, whole tokens only, and from when the rest counts. */
  function Refilled(b: Bucket, now: int): Bucket
    requires b.limit > 0 && Sound(b, now)
  {
    var elapsed := now - b.filled;
    if elapsed < b.cost then b
    else if elapsed / b.cost < b.limit - b.tokens then
      b.(tokens := b.tokens + elapsed / b.cost, filled := b.filled + elapsed / b.cost * b.cost)
    else b.(tokens := b.limit, filled := now)
  }

  predicate Admits(b: Bucket, now: int)
    requires Sound(b, now)
  {
    b.limit <= 0 || Refilled(b, now).tokens > 0
  }

  function Spent(b: Bucket, now: int): Bucket
    requires Sound(b, now)
  {
    if b.limit <= 0 then b
    else if Refilled(b, now).tokens == 0 then Refilled(b, now)
    else Refilled(b, now).(tokens := Refilled(b, now).tokens - 1)
  }

  class RateLimiter {
    var limit: int
    var cost: int
    var tokens: int
    var filled: int

    function Value(): Bucket
      reads this
    {
      Bucket(limit, cost, tokens, filled)
    }

    constructor (limit: int, now: int)
      ensures Value() == Opened(limit, now)
    {
      this.limit, cost, tokens, filled := 0, 0, 0, 0;
      if limit > 0 {
        if SECOND / limit != 0 {
          this.limit, cost, tokens, filled := limit, SECOND / limit, limit, now;
        }
      }
    }

    method Allow(now: int) returns (allowed: bool)
      requires Sound(Value(), now)
      modifies this
      ensures allowed == Admits(old(Value()), now)
      ensures Value() == Spent(old(Value()), now) && Sound(Value(), now)
    {
      RefillSound(Value(), now);
      if limit <= 0 { return true; }
      var elapsed := now - filled;
      if elapsed >= cost {
        var room := limit - tokens;
        var earned := elapsed / cost;
        if earned < room {
          tokens := tokens + earned;
          filled := filled + earned * cost;
        } else {
          tokens := limit;
          filled := now;
        }
      }
      if tokens == 0 { return false; }
      tokens := tokens - 1;
      return true;
    }
  }

  lemma OpenedSound(limit: int, now: int)
    ensures Sound(Opened(limit, now), now)
  {
    if limit > 0 { assert SECOND / limit * limit <= SECOND; }
  }

  /** A bucket opens full and at this cost from one to a billion; any other limit is none. */
  lemma OpenedIs(limit: int, now: int)
    ensures Opened(limit, now)
         == if 0 < limit <= 1_000_000_000 then Bucket(limit, 1_000_000_000 / limit, limit, now) else Bucket(0, 0, 0, 0)
  {
    if limit > 0 { Divides(SECOND, limit); }
  }

  /** Every tick the bucket holds, spent or on its way to a token. */
  function Credit(b: Bucket, now: int): int {
    b.tokens * b.cost + (now - b.filled)
  }

  lemma Divides(a: int, c: int)
    requires 0 <= a && 0 < c
    ensures 0 <= a / c && a / c * c <= a < a / c * c + c
  {
  }

  lemma Distributes(a: int, b: int, c: int)
    ensures (a + b) * c == a * c + b * c
  {
  }

  /** A refill makes no credit: it is kept to the tick, or cut to a full bucket. */
  lemma RefillSound(b: Bucket, now: int)
    requires Sound(b, now)
    ensures b.limit > 0 ==>
              var r := Refilled(b, now);
              && Sound(r, now) && r.limit == b.limit && r.cost == b.cost
              && 0 <= now - r.filled < r.cost
              && (Credit(r, now) == Credit(b, now)
                 || (r.tokens == r.limit && r.filled == now && Credit(r, now) <= Credit(b, now)))
    ensures Sound(Spent(b, now), now)
  {
    if b.limit > 0 {
      var elapsed := now - b.filled;
      Divides(elapsed, b.cost);
      Distributes(b.tokens, elapsed / b.cost, b.cost);
      if elapsed >= b.cost && elapsed / b.cost >= b.limit - b.tokens {
        Multiplies(b.limit - b.tokens, elapsed / b.cost, b.cost);
        Distributes(b.tokens, b.limit - b.tokens, b.cost);
      }
    }
  }

  lemma Multiplies(a: int, b: int, c: int)
    requires a <= b && 0 <= c
    ensures a * c <= b * c
  {
  }

  lemma SpentCredit(b: Bucket, now: int)
    requires Sound(b, now) && b.limit > 0
    ensures var r := Spent(b, now);
            && r.limit == b.limit && r.cost == b.cost && Sound(r, now)
            && 0 <= Credit(r, now) == Credit(Refilled(b, now), now) - (if Admits(b, now) then b.cost else 0)
            && Credit(r, now) <= Credit(b, now) - (if Admits(b, now) then b.cost else 0)
  {
    RefillSound(b, now);
    Distributes(Refilled(b, now).tokens, -1, b.cost);
    Multiplies(0, Spent(b, now).tokens, b.cost);
  }

  // ----- A stream of frames -----

  ghost predicate Rising(ts: seq<int>) {
    forall i, j | 0 <= i <= j < |ts| :: ts[i] <= ts[j]
  }

  ghost predicate Follows(b: Bucket, ts: seq<int>) {
    Rising(ts) && forall i | 0 <= i < |ts| :: Sound(b, ts[i])
  }

  lemma FollowsOn(b: Bucket, ts: seq<int>)
    requires Follows(b, ts) && ts != []
    ensures Follows(Spent(b, ts[0]), ts[1..])
    ensures Spent(b, ts[0]).limit == b.limit && Spent(b, ts[0]).cost == b.cost
  {
    RefillSound(b, ts[0]);
  }

  /** The bucket after frames at these times. */
  function After(b: Bucket, ts: seq<int>): Bucket
    requires Follows(b, ts)
    decreases |ts|
  {
    if ts == [] then b else FollowsOn(b, ts); After(Spent(b, ts[0]), ts[1..])
  }

  function Admitted(b: Bucket, ts: seq<int>): nat
    requires Follows(b, ts)
    decreases |ts|
  {
    if ts == [] then 0 else FollowsOn(b, ts); (if Admits(b, ts[0]) then 1 else 0) + Admitted(Spent(b, ts[0]), ts[1..])
  }

  lemma {:induction false} AfterFollows(b: Bucket, ts: seq<int>, more: seq<int>)
    requires Follows(b, ts + more)
    ensures Follows(b, ts) && Follows(After(b, ts), more) && After(b, ts).limit == b.limit
        && After(b, ts).cost == b.cost
    decreases |ts|
  {
    assert forall i | 0 <= i < |ts| :: ts[i] == (ts + more)[i];
    if ts == [] {
      assert ts + more == more;
    } else {
      FollowsOn(b, ts + more);
      assert (ts + more)[1..] == ts[1..] + more;
      AfterFollows(Spent(b, ts[0]), ts[1..], more);
    }
  }

  /** What is admitted is paid for out of the credit there was and the time that passed. */
  lemma {:induction false} Paid(b: Bucket, ts: seq<int>)
    requires Follows(b, ts) && ts != [] && b.limit > 0
    ensures Admitted(b, ts) * b.cost <= Credit(b, ts[|ts| - 1])
    decreases |ts|
  {
    FollowsOn(b, ts);
    SpentCredit(b, ts[0]);
    var next, rest := Spent(b, ts[0]), ts[1..];
    Distributes(if Admits(b, ts[0]) then 1 else 0, Admitted(next, rest), b.cost);
    if rest != [] {
      Paid(next, rest);
      assert rest[|rest| - 1] == ts[|ts| - 1];
    }
  }

  function CeilDiv(d: nat, c: int): nat
    requires c > 0
  {
    (d + c - 1) / c
  }

  lemma CeilBounds(n: int, limit: int, d: nat, c: int)
    requires c > 0 && n * c < (limit + 1) * c + d
    ensures n <= limit + CeilDiv(d, c)
  {
    Divides(d + c - 1, c);
    var q := CeilDiv(d, c);
    Distributes(limit + 1, q, c);
    if n >= limit + q + 1 { Multiplies(limit + 1 + q, n, c); }
  }

  lemma FullEnough(b: Bucket, now: int)
    requires Sound(b, now) && b.limit > 0
    ensures Credit(Refilled(b, now), now) < (b.limit + 1) * b.cost
  {
    RefillSound(b, now);
    Multiplies(Refilled(b, now).tokens, b.limit, b.cost);
    Distributes(b.limit, 1, b.cost);
  }

  lemma Window(b: Bucket, ts: seq<int>)
    requires Follows(b, ts) && ts != [] && b.limit > 0
    ensures Admitted(b, ts) <= b.limit + CeilDiv(ts[|ts| - 1] - ts[0], b.cost)
  {
    FullEnough(b, ts[0]);
    FollowsOn(b, ts);
    SpentCredit(b, ts[0]);
    var next, rest := Spent(b, ts[0]), ts[1..];
    Distributes(if Admits(b, ts[0]) then 1 else 0, Admitted(next, rest), b.cost);
    if rest != [] {
      Paid(next, rest);
      assert rest[|rest| - 1] == ts[|ts| - 1];
    }
    hide Refilled, Spent, Admits, Sound, CeilDiv;
    CeilBounds(Admitted(b, ts), b.limit, ts[|ts| - 1] - ts[0], b.cost);
  }

  lemma StartFollows(limit: int, start: int, ts: seq<int>)
    requires Rising([start] + ts)
    ensures Follows(Opened(limit, start), ts) && (ts != [] ==> start <= ts[0])
  {
    OpenedSound(limit, start);
    forall i, j | 0 <= i <= j < |ts| ensures ts[i] <= ts[j] && start <= ts[i] {
      assert ts[i] == ([start] + ts)[i + 1] && ts[j] == ([start] + ts)[j + 1] && ([start] + ts)[0] == start;
    }
  }

  /**
   * Of any frames, those admitted in any stretch of them are no more than the limit and one for each cost of time it
   * took.
   */
  lemma WindowBound(limit: int, start: int, before: seq<int>, during: seq<int>)
    requires Rising([start] + before + during) && during != [] && 0 < limit <= 1_000_000_000
    ensures Follows(Opened(limit, start), before + during) && Follows(Opened(limit, start), before)
    ensures Follows(After(Opened(limit, start), before), during)
    ensures Admitted(After(Opened(limit, start), before), during)
            <= limit + CeilDiv(during[|during| - 1] - during[0], 1_000_000_000 / limit)
  {
    assert [start] + before + during == [start] + (before + during);
    StartFollows(limit, start, before + during);
    OpenedIs(limit, start);
    hide *;
    AfterFollows(Opened(limit, start), before, during);
    Window(After(Opened(limit, start), before), during);
  }

  // ----- Never stricter than it says -----

  /** The exact bucket: a billion to the token, limit earned every nanosecond, never more than limit tokens. */
  datatype Exact = Exact(level: int, at: int)

  function Earned(limit: int, x: Exact, now: int): int {
    var full := x.level + limit * (now - x.at);
    if full <= limit * 1_000_000_000 then full else limit * 1_000_000_000
  }

  predicate ExactAdmitsAll(limit: int, x: Exact, ts: seq<int>)
    decreases |ts|
  {
    ts == [] || (Earned(limit, x, ts[0]) >= 1_000_000_000
      && ExactAdmitsAll(limit, Exact(Earned(limit, x, ts[0]) - 1_000_000_000, ts[0]), ts[1..]))
  }

  /** The integer bucket holds at least the exact one's tokens. */
  predicate Covers(b: Bucket, x: Exact) {
    x.level * b.cost <= Credit(b, x.at) * SECOND
  }

  lemma Cancels(a: int, b: int, c: int)
    requires a * c <= b * c && 0 < c
    ensures a <= b
  {
  }

  lemma Grows(level: int, limit: int, d: int, cost: int, credit: int, second: int)
    requires level * cost <= credit * second && cost * limit <= second && 0 <= d
    ensures (level + limit * d) * cost <= (credit + d) * second
  {
    Distributes(level, limit * d, cost);
    Distributes(credit, d, second);
    Multiplies(cost * limit, second, d);
    assert limit * d * cost == cost * limit * d;
  }

  lemma EarnsAsMuch(b: Bucket, x: Exact, now: int)
    requires Sound(b, now) && b.limit > 0 && x.at <= now && Covers(b, x)
    ensures Earned(b.limit, x, now) * b.cost <= Credit(Refilled(b, now), now) * SECOND
  {
    RefillSound(b, now);
    var r := Refilled(b, now);
    var full := x.level + b.limit * (now - x.at);
    Grows(x.level, b.limit, now - x.at, b.cost, Credit(b, x.at), SECOND);
    if Credit(r, now) == Credit(b, now) {
      Multiplies(Earned(b.limit, x, now), full, b.cost);
    } else {
      Multiplies(Earned(b.limit, x, now), b.limit * SECOND, b.cost);
      Reorders(b.limit, SECOND, b.cost);
    }
  }

  lemma Reorders(a: int, b: int, c: int)
    ensures a * b * c == a * c * b
  {
  }

  lemma CoversOn(b: Bucket, x: Exact, now: int)
    requires Sound(b, now) && b.limit > 0 && x.at <= now && Covers(b, x) && Earned(b.limit, x, now) >= SECOND
    ensures Admits(b, now) && Covers(Spent(b, now), Exact(Earned(b.limit, x, now) - SECOND, now))
  {
    EarnsAsMuch(b, x, now);
    RefillSound(b, now);
    SpentCredit(b, now);
    var r := Refilled(b, now);
    var e := Earned(b.limit, x, now);
    Multiplies(SECOND, e, b.cost);
    Cancels(b.cost, Credit(r, now), SECOND);
    assert r.tokens == 0 ==> Credit(r, now) < b.cost;
    Distributes(e, -SECOND, b.cost);
    Distributes(Credit(r, now), -b.cost, SECOND);
  }

  lemma {:induction false} AdmitsWhatExactDoes(b: Bucket, x: Exact, ts: seq<int>)
    requires Follows(b, ts) && b.limit > 0 && Covers(b, x) && (ts != [] ==> x.at <= ts[0])
        && ExactAdmitsAll(b.limit, x, ts)
    ensures Admitted(b, ts) == |ts|
    decreases |ts|
  {
    if ts != [] {
      CoversOn(b, x, ts[0]);
      FollowsOn(b, ts);
      AdmitsWhatExactDoes(Spent(b, ts[0]), Exact(Earned(b.limit, x, ts[0]) - SECOND, ts[0]), ts[1..]);
    }
  }

  lemma StartCovers(limit: int, start: int)
    requires Opened(limit, start).limit > 0
    ensures Covers(Opened(limit, start), Exact(limit * SECOND, start))
  {
    Reorders(limit, SECOND, SECOND / limit);
  }

  /** A stream an exact bucket of this size and rate admits in full is never refused, whole nanoseconds or not. */
  lemma NeverStricter(limit: int, start: int, ts: seq<int>)
    requires Rising([start] + ts) && 0 < limit && ExactAdmitsAll(limit, Exact(limit * 1_000_000_000, start), ts)
    ensures Follows(Opened(limit, start), ts) && Admitted(Opened(limit, start), ts) == |ts|
  {
    StartFollows(limit, start, ts);
    var b := Opened(limit, start);
    if b.limit > 0 {
      assert b.limit == limit;
      StartCovers(limit, start);
      hide Covers, Opened, Earned, Admitted, ExactAdmitsAll, Sound;
      AdmitsWhatExactDoes(b, Exact(limit * SECOND, start), ts);
    } else {
      Unlimited(b, ts);
    }
  }

  lemma {:induction false} Unlimited(b: Bucket, ts: seq<int>)
    requires Follows(b, ts) && b.limit <= 0
    ensures Admitted(b, ts) == |ts|
    decreases |ts|
  {
    if ts != [] {
      FollowsOn(b, ts);
      Unlimited(b, ts[1..]);
    }
  }

  /** No limit, and a limit finer than the clock, refuse nothing. */
  lemma NoLimit(limit: int, start: int, ts: seq<int>)
    requires Rising([start] + ts) && (limit <= 0 || 1_000_000_000 < limit)
    ensures Follows(Opened(limit, start), ts) && Admitted(Opened(limit, start), ts) == |ts|
  {
    StartFollows(limit, start, ts);
    OpenedIs(limit, start);
    hide Opened, Sound, Admitted, Rising;
    Unlimited(Opened(limit, start), ts);
  }
}
