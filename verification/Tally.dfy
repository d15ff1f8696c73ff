/**
 * What the other instances answered, added together, and the routes that join it to what this one holds (scaling.go,
 * routes.go).
 */
module Tallies {

  datatype ChannelAnswer = ChannelAnswer(subscriptions: int, users: seq<string>)

  datatype Answer = Answer(origin: string, tenant: string, connections: int, channels: map<string, ChannelAnswer>)

  datatype ChannelTally = ChannelTally(subscriptions: int, users: set<string>)

  datatype Tally = Tally(connections: int, channels: map<string, ChannelTally>)

  const NOTHING := ChannelTally(0, {})
  const EMPTY := Tally(0, map[])

  function Of(channels: map<string, ChannelTally>, requested: string): ChannelTally {
    if requested in channels then channels[requested] else NOTHING
  }

  function Named(users: seq<string>): set<string> {
    set u | u in users && u != ""
  }

  function Merged(held: ChannelTally, one: ChannelAnswer): ChannelTally {
    ChannelTally(held.subscriptions + one.subscriptions, held.users + Named(one.users))
  }

  /** Only another instance's answer about the tenant that was asked about counts. */
  predicate Counts(mine: string, tenant: string, a: Answer) {
    a.origin != mine && a.tenant == tenant
  }

  function MergedAll(channels: map<string, ChannelTally>, answer: map<string, ChannelAnswer>): map<string,
    ChannelTally> {
    map r | r in channels.Keys + answer.Keys :: if r in answer then Merged(Of(channels, r), answer[r]) else channels[r]
  }

  function Added(mine: string, tenant: string, t: Tally, a: Answer): Tally {
    if Counts(mine, tenant, a) then Tally(t.connections + a.connections, MergedAll(t.channels, a.channels)) else t
  }

  class FleetTally {
    var connections: int
    var channels: map<string, ChannelTally>

    function Value(): Tally
      reads this
    {
      Tally(connections, channels)
    }

    constructor ()
      ensures Value() == EMPTY
    {
      connections, channels := 0, map[];
    }

    method Add(mine: string, tenant: string, answer: Answer)
      modifies this
      ensures Value() == Added(mine, tenant, old(Value()), answer)
    {
      if answer.origin == mine { return; }
      if answer.tenant != tenant { return; }
      connections := connections + answer.connections;
      channels := AddChannels(channels, answer.channels);
    }
  }

  method AddChannels(held: map<string, ChannelTally>, answer: map<string, ChannelAnswer>)
    returns (channels: map<string, ChannelTally>)
    ensures channels == MergedAll(held, answer)
  {
    hide MergedAll, Named, Of;
    MergedNone(held);
    channels := held;
    var rest := answer.Keys;
    assert answer - rest == map[];
    while rest != {}
      invariant rest <= answer.Keys
      invariant channels == MergedAll(held, answer - rest)
      decreases |rest|
    {
      var requested :| requested in rest;
      var one := Of(channels, requested);
      MergedMore(held, answer, rest, requested);
      var users := AddUsers(one.users, answer[requested].users);
      channels := channels[requested := ChannelTally(one.subscriptions + answer[requested].subscriptions, users)];
      rest := rest - {requested};
    }
    assert answer - rest == answer;
  }

  method AddUsers(held: set<string>, users: seq<string>) returns (all: set<string>)
    ensures all == held + Named(users)
  {
    all := held;
    for i := 0 to |users|
      invariant all == held + Named(users[..i])
    {
      assert users[..i + 1] == users[..i] + [users[i]];
      if users[i] == "" { continue; }
      all := all + {users[i]};
    }
    assert users[..|users|] == users;
  }

  lemma MergedNone(before: map<string, ChannelTally>)
    ensures MergedAll(before, map[]) == before
  {
  }

  lemma MergedMore(before: map<string, ChannelTally>, answer: map<string, ChannelAnswer>, rest: set<string>, r: string)
    requires rest <= answer.Keys && r in rest
    ensures MergedAll(before, answer - (rest - {r}))
        == MergedAll(before, answer - rest)[r := Merged(Of(before, r), answer[r])]
    ensures Of(MergedAll(before, answer - rest), r) == Of(before, r)
  {
  }

  // ----- In whatever order the answers arrive -----

  function Folded(mine: string, tenant: string, answers: seq<Answer>): Tally {
    if answers == [] then EMPTY
    else Added(mine, tenant, Folded(mine, tenant, answers[..|answers| - 1]), answers[|answers| - 1])
  }

  method Fold(mine: string, tenant: string, answers: seq<Answer>) returns (t: FleetTally)
    ensures fresh(t) && t.Value() == Folded(mine, tenant, answers)
  {
    t := new FleetTally();
    for i := 0 to |answers|
      invariant fresh(t) && t.Value() == Folded(mine, tenant, answers[..i])
    {
      assert answers[..i + 1][..i] == answers[..i];
      t.Add(mine, tenant, answers[i]);
    }
    assert answers[..|answers|] == answers;
  }

  function Sum(answers: seq<Answer>, part: Answer -> int): int {
    if answers == [] then 0 else Sum(answers[..|answers| - 1], part) + part(answers[|answers| - 1])
  }

  function ConnectionsOf(mine: string, tenant: string): Answer -> int {
    (a: Answer) => if a.origin != mine && a.tenant == tenant then a.connections else 0
  }

  function SubscriptionsOf(mine: string, tenant: string, r: string): Answer -> int {
    a => if Lists(mine, tenant, a, r) then a.channels[r].subscriptions else 0
  }

  predicate Lists(mine: string, tenant: string, a: Answer, r: string) {
    a.origin != mine && a.tenant == tenant && r in a.channels
  }

  predicate Knows(mine: string, tenant: string, a: Answer, r: string, user: string) {
    Lists(mine, tenant, a, r) && user in a.channels[r].users
  }

  /**
   * Connections and subscriptions are summed and users united, over the answers about the asked tenant from other
   * instances and no others; an empty user id is nobody.
   */
  lemma {:induction false} FoldedIs(mine: string, tenant: string, answers: seq<Answer>, r: string, user: string)
    ensures var t := Folded(mine, tenant, answers);
            && t.connections == Sum(answers, ConnectionsOf(mine, tenant))
            && Of(t.channels, r).subscriptions == Sum(answers, SubscriptionsOf(mine, tenant, r))
            && (r in t.channels <==> exists a :: a in answers && Lists(mine, tenant, a, r))
            && (user in Of(t.channels, r).users
               <==> user != "" && exists a :: a in answers && Knows(mine, tenant, a, r, user))
  {
    if answers != [] {
      var front, last := answers[..|answers| - 1], answers[|answers| - 1];
      FoldedIs(mine, tenant, front, r, user);
      assert answers == front + [last];
      AddedIs(mine, tenant, Folded(mine, tenant, front), last, r, user);
      hide Added, Counts, Of;
    }
  }

  lemma AddedIs(mine: string, tenant: string, t: Tally, a: Answer, r: string, user: string)
    ensures var end := Added(mine, tenant, t, a);
            && end.connections == t.connections + ConnectionsOf(mine, tenant)(a)
            && Of(end.channels, r).subscriptions
               == Of(t.channels, r).subscriptions + SubscriptionsOf(mine, tenant, r)(a)
            && (r in end.channels <==> r in t.channels || Lists(mine, tenant, a, r))
            && (user in Of(end.channels, r).users
               <==> user in Of(t.channels, r).users || (user != "" && Knows(mine, tenant, a, r, user)))
  {
  }

  lemma {:induction false} SumRemoves(answers: seq<Answer>, i: nat, part: Answer -> int)
    requires i < |answers|
    ensures Sum(answers, part) == Sum(answers[..i] + answers[i + 1..], part) + part(answers[i])
  {
    var less := answers[..i] + answers[i + 1..];
    if i < |answers| - 1 {
      SumRemoves(answers[..|answers| - 1], i, part);
      assert less[..|less| - 1] == answers[..|answers| - 1][..i] + answers[..|answers| - 1][i + 1..];
    } else {
      assert less == answers[..|answers| - 1];
    }
  }

  lemma SameMembers<T>(a: seq<T>, b: seq<T>)
    requires multiset(a) == multiset(b)
    ensures forall x :: x in a <==> x in b
  {
    forall x ensures x in a <==> x in b {
      assert x in a <==> x in multiset(a);
      assert x in b <==> x in multiset(b);
    }
  }

  lemma Without<T>(s: seq<T>, i: nat)
    requires i < |s|
    ensures multiset(s[..i] + s[i + 1..]) == multiset(s) - multiset{s[i]}
  {
    assert s == s[..i] + [s[i]] + s[i + 1..];
  }

  lemma TakeOne<T>(a: seq<T>, b: seq<T>) returns (i: nat)
    requires multiset(a) == multiset(b) && a != []
    ensures i < |b| && b[i] == a[|a| - 1] && multiset(a[..|a| - 1]) == multiset(b[..i] + b[i + 1..])
  {
    SameMembers(a, b);
    assert a[|a| - 1] in b;
    i :| 0 <= i < |b| && b[i] == a[|a| - 1];
    Without(a, |a| - 1);
    Without(b, i);
    assert a[..|a| - 1] + a[|a|..] == a[..|a| - 1];
  }

  lemma {:induction false} SumPermuted(a: seq<Answer>, b: seq<Answer>, part: Answer -> int)
    requires multiset(a) == multiset(b)
    ensures Sum(a, part) == Sum(b, part)
  {
    if a == [] {
      assert |multiset(b)| == |b|;
    } else {
      var i := TakeOne(a, b);
      SumRemoves(b, i, part);
      SumPermuted(a[..|a| - 1], b[..i] + b[i + 1..], part);
    }
  }

  /** The tally does not depend on which instance answered first. */
  lemma OrderDoesNotMatter(mine: string, tenant: string, a: seq<Answer>, b: seq<Answer>)
    requires multiset(a) == multiset(b)
    ensures Folded(mine, tenant, a) == Folded(mine, tenant, b)
  {
    var s, t := Folded(mine, tenant, a), Folded(mine, tenant, b);
    SameMembers(a, b);
    FoldedIs(mine, tenant, a, "", "");
    FoldedIs(mine, tenant, b, "", "");
    SumPermuted(a, b, ConnectionsOf(mine, tenant));
    forall r: string ensures (r in s.channels <==> r in t.channels) && Of(s.channels, r) == Of(t.channels, r) {
      SumPermuted(a, b, SubscriptionsOf(mine, tenant, r));
      FoldedIs(mine, tenant, a, r, "");
      FoldedIs(mine, tenant, b, r, "");
      forall u: string ensures u in Of(s.channels, r).users <==> u in Of(t.channels, r).users {
        FoldedIs(mine, tenant, a, r, u);
        FoldedIs(mine, tenant, b, r, u);
      }
    }
    forall r | r in s.channels ensures s.channels[r] == t.channels[r] {
      assert Of(s.channels, r) == Of(t.channels, r);
    }
  }

  /** What is about another tenant, or comes from this very instance, might as well not have been answered. */
  lemma ForeignIgnored(mine: string, tenant: string, before: seq<Answer>, a: Answer, after: seq<Answer>)
    requires a.origin == mine || a.tenant != tenant
    ensures Folded(mine, tenant, before + [a] + after) == Folded(mine, tenant, before + after)
  {
    assert multiset(before + [a] + after) == multiset(before + after + [a]);
    OrderDoesNotMatter(mine, tenant, before + [a] + after, before + after + [a]);
    assert (before + after + [a])[..|before + after|] == before + after;
  }

  /** Any other answer is in it, wherever it stood: leaving it out loses its connections. */
  lemma OwnCounted(mine: string, tenant: string, before: seq<Answer>, a: Answer, after: seq<Answer>)
    requires a.origin != mine && a.tenant == tenant
    ensures Folded(mine, tenant, before + [a] + after).connections
         == Folded(mine, tenant, before + after).connections + a.connections
  {
    assert multiset(before + [a] + after) == multiset(before + after + [a]);
    OrderDoesNotMatter(mine, tenant, before + [a] + after, before + after + [a]);
    assert (before + after + [a])[..|before + after|] == before + after;
  }
}
