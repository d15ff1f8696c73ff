/**
 * Several instances on one bus (scaling.go): what is published on one arrives once on every other that is joined.
 * The bus hands a message once to each instance subscribed when it was published; leaving a topic cancels at once.
 */
module Fleets {
  import opened Names
  import opened Channels
  import opened Relays

  /** A serial tells two publications of one event apart. */
  datatype Receipt = Receipt(serial: nat, event: Event)

  /** A channel object on one instance: since counts the publications made before it was joined. */
  datatype Local = Local(name: Name, since: nat, got: seq<Receipt>)

  datatype Flight = Flight(origin: string, event: Event, pending: set<string>)

  datatype Net = Net(ids: set<string>, joined: map<(string, string), Local>, flights: seq<Flight>)

  datatype Step =
    | Join(id: string, name: Name)
    | Leave(id: string, name: Name)
    | Publish(id: string, event: Event)
    | Deliver(id: string, serial: nat)

  function Subscribed(net: Net, topic: string): set<string> {
    set id | id in net.ids && (id, topic) in net.joined
  }

  predicate IsName(n: ChannelName) {
    ValidTenant(n.tenant) && ValidRequested(n.requested)
  }

  predicate Enabled(net: Net, a: Step) {
    match a
    case Join(id, _) => id in net.ids
    case Leave(id, _) => id in net.ids
    case Publish(id, e) => id in net.ids && e.name != "" && IsName(e.channel)
    case Deliver(id, k) => k < |net.flights| && id in net.flights[k].pending
  }

  function Got(l: Local, k: nat, e: Event): Local {
    l.(got := l.got + [Receipt(k, e)])
  }

  function DoJoin(net: Net, id: string, name: Name): Net {
    if (id, Topic(name)) in net.joined then net
    else net.(joined := net.joined[(id, Topic(name)) := Local(name, |net.flights|, [])])
  }

  function Cancelled(flights: seq<Flight>, id: string, topic: string): (r: seq<Flight>)
    ensures |r| == |flights|
    ensures forall k | 0 <= k < |r| ::
              r[k] == if Topic(flights[k].event.channel) != topic then flights[k]
                      else flights[k].(pending := flights[k].pending - {id})
  {
    seq(|flights|, k requires 0 <= k < |flights| =>
      if Topic(flights[k].event.channel) == topic then flights[k].(pending := flights[k].pending - {id})
        else flights[k])
  }

  function DoLeave(net: Net, id: string, name: Name): Net {
    net.(joined := net.joined - {(id, Topic(name))}, flights := Cancelled(net.flights, id, Topic(name)))
  }

  /** The instance's own sockets are served first, then the bus is handed the message. */
  function DoPublish(net: Net, id: string, e: Event): Net {
    var here := (id, Topic(e.channel));
    net.(joined := if here in net.joined then net.joined[here := Got(net.joined[here], |net.flights|, e)]
      else net.joined,
         flights := net.flights + [Flight(id, e, Subscribed(net, Topic(e.channel)))])
  }

  /** One message off the bus: the instance drops its own, and what is not addressed to the channel it joined. */
  function DoDeliver(net: Net, id: string, k: nat): Net
    requires Enabled(net, Deliver(id, k))
  {
    var f := net.flights[k];
    var here := (id, Topic(f.event.channel));
    var m := MessageOf(f.origin, f.event);
    net.(joined := if here in net.joined && Takes(id, m, net.joined[here].name)
                   then net.joined[here := Got(net.joined[here], k, EventOf(m, net.joined[here].name))] else net.joined,
         flights := net.flights[k := f.(pending := f.pending - {id})])
  }

  function Apply(net: Net, a: Step): Net
    requires Enabled(net, a)
  {
    match a
    case Join(id, name) => DoJoin(net, id, name)
    case Leave(id, name) => DoLeave(net, id, name)
    case Publish(id, e) => DoPublish(net, id, e)
    case Deliver(id, k) => DoDeliver(net, id, k)
  }

  ghost predicate Run(net: Net, steps: seq<Step>, end: Net)
    decreases |steps|
  {
    if steps == [] then end == net else Enabled(net, steps[0]) && Run(Apply(net, steps[0]), steps[1..], end)
  }

  // ----- Exactly once -----

  function Times(got: seq<Receipt>, k: nat): nat {
    if got == [] then 0 else Times(got[..|got| - 1], k) + if got[|got| - 1].serial == k then 1 else 0
  }

  lemma TimesMore(got: seq<Receipt>, r: Receipt, k: nat)
    ensures Times(got + [r], k) == Times(got, k) + if r.serial == k then 1 else 0
  {
    assert (got + [r])[..|got|] == got;
  }

  /** How often a channel object has been given the k-th publication. */
  function Due(f: Flight, k: nat, id: string, l: Local): nat {
    if f.event.channel != l.name || k < l.since then 0
    else if id == f.origin then 1
    else if id in f.pending then 0 else 1
  }

  ghost predicate Placed(net: Net) {
    && "" !in net.ids
    && (forall k | 0 <= k < |net.flights| :: IsName(net.flights[k].event.channel) && net.flights[k].origin in net.ids)
    && (forall at | at in net.joined ::
          at.0 in net.ids && at.1 == Topic(net.joined[at].name) && net.joined[at].since <= |net.flights|)
  }

  predicate CountedAt(net: Net, at: (string, string), k: nat)
    requires at in net.joined
  {
    Times(net.joined[at].got, k) == if k < |net.flights| then Due(net.flights[k], k, at.0, net.joined[at]) else 0
  }

  ghost predicate Counted(net: Net) {
    forall at, k: nat | at in net.joined :: CountedAt(net, at, k)
  }

  /** Only a joined instance is still owed a message, and only one published since. */
  predicate OwedAt(net: Net, k: nat, id: string)
    requires k < |net.flights|
  {
    var at := (id, Topic(net.flights[k].event.channel));
    id in net.flights[k].pending ==> at in net.joined && net.joined[at].since <= k
  }

  ghost predicate Owed(net: Net) {
    forall k, id | 0 <= k < |net.flights| :: OwedAt(net, k, id)
  }

  /** What was given is what was published: the same payload, on the channel of the same tenant and name. */
  predicate FaithfulAt(net: Net, l: Local) {
    forall i | 0 <= i < |l.got| ::
      l.got[i].serial < |net.flights| && l.got[i].event == net.flights[l.got[i].serial].event
        && l.got[i].event.channel == l.name
  }

  ghost predicate Faithful(net: Net) {
    forall at | at in net.joined :: FaithfulAt(net, net.joined[at])
  }

  ghost predicate Invariant(net: Net) {
    Placed(net) && Counted(net) && Owed(net) && Faithful(net)
  }

  /** Events of flights and the lengths of the list only grow. */
  predicate SameEvents(net: Net, end: Net) {
    |net.flights| <= |end.flights| && forall k | 0 <= k < |net.flights| :: end.flights[k].event == net.flights[k].event
  }

  lemma StaysFaithful(net: Net, end: Net, l: Local)
    requires FaithfulAt(net, l) && SameEvents(net, end)
    ensures FaithfulAt(end, l)
  {
  }

  lemma GotFaithful(net: Net, l: Local, k: nat, e: Event)
    requires FaithfulAt(net, l) && k < |net.flights| && e == net.flights[k].event && e.channel == l.name
    ensures FaithfulAt(net, Got(l, k, e))
  {
  }

  lemma JoinKeeps(net: Net, id: string, name: Name)
    requires Invariant(net) && Enabled(net, Join(id, name))
    ensures Invariant(DoJoin(net, id, name))
  {
    hide Topic, MessageOf, Takes;
    var end := DoJoin(net, id, name);
    forall at, k: nat | at in end.joined ensures CountedAt(end, at, k) {
      if at in net.joined { assert CountedAt(net, at, k); }
    }
    forall k, i | 0 <= k < |end.flights| ensures OwedAt(end, k, i) {
      assert OwedAt(net, k, i);
    }
    forall at | at in end.joined ensures FaithfulAt(end, end.joined[at]) {
      if at in net.joined { StaysFaithful(net, end, net.joined[at]); }
    }
  }

  lemma LeaveCounted(net: Net, id: string, name: Name, at: (string, string), k: nat)
    requires Placed(net) && Enabled(net, Leave(id, name)) && at in DoLeave(net, id, name).joined
        && CountedAt(net, at, k)
    ensures CountedAt(DoLeave(net, id, name), at, k)
  {
    hide Topic, Times;
    if k < |net.flights| && net.flights[k].event.channel == net.joined[at].name && at.0 == id {
      TopicInjective(net.joined[at].name, name);
    }
  }

  lemma LeaveOwed(net: Net, id: string, name: Name, k: nat, i: string)
    requires Placed(net) && Enabled(net, Leave(id, name)) && k < |net.flights| && OwedAt(net, k, i)
    ensures OwedAt(DoLeave(net, id, name), k, i)
  {
    hide Topic;
  }

  lemma LeaveKeeps(net: Net, id: string, name: Name)
    requires Invariant(net) && Enabled(net, Leave(id, name))
    ensures Invariant(DoLeave(net, id, name))
  {
    hide Topic, CountedAt, OwedAt, FaithfulAt, Times, Due;
    var end := DoLeave(net, id, name);
    forall at, k: nat | at in end.joined ensures CountedAt(end, at, k) {
      LeaveCounted(net, id, name, at, k);
    }
    forall k, i | 0 <= k < |end.flights| ensures OwedAt(end, k, i) {
      LeaveOwed(net, id, name, k, i);
    }
    forall at | at in end.joined ensures FaithfulAt(end, end.joined[at]) {
      StaysFaithful(net, end, net.joined[at]);
    }
  }

  lemma PublishCounted(net: Net, id: string, e: Event, at: (string, string), k: nat)
    requires Placed(net) && Enabled(net, Publish(id, e)) && at in net.joined && CountedAt(net, at, k)
    requires net.joined[at].since <= |net.flights|
    ensures CountedAt(DoPublish(net, id, e), at, k)
  {
    var end := DoPublish(net, id, e);
    var n := |net.flights|;
    TimesMore(net.joined[at].got, Receipt(n, e), k);
    TopicInjective(net.joined[at].name, e.channel);
    assert at.1 == Topic(net.joined[at].name) && at.0 in net.ids;
    assert end.flights[n] == Flight(id, e, Subscribed(net, Topic(e.channel)));
    assert net.joined[at].name == e.channel ==> at.0 in end.flights[n].pending;
    assert forall i | 0 <= i < n :: end.flights[i] == net.flights[i];
    assert end.joined[at] == if at == (id, Topic(e.channel)) then Got(net.joined[at], n, e) else net.joined[at];
    hide Topic, Times, IsName, Placed, Subscribed, DoPublish;
  }

  lemma PublishOwed(net: Net, id: string, e: Event, k: nat, i: string)
    requires Placed(net) && Enabled(net, Publish(id, e)) && k <= |net.flights|
        && (k < |net.flights| ==> OwedAt(net, k, i))
    requires forall at | at in net.joined :: net.joined[at].since <= |net.flights|
    ensures OwedAt(DoPublish(net, id, e), k, i)
  {
    hide Topic;
  }

  lemma PublishKeeps(net: Net, id: string, e: Event)
    requires Invariant(net) && Enabled(net, Publish(id, e))
    ensures Invariant(DoPublish(net, id, e))
  {
    var end := DoPublish(net, id, e);
    forall at | at in end.joined ensures FaithfulAt(end, end.joined[at]) {
      StaysFaithful(net, end, net.joined[at]);
      if at == (id, Topic(e.channel)) {
        TopicInjective(net.joined[at].name, e.channel);
        GotFaithful(end, net.joined[at], |net.flights|, e);
      }
    }
    hide Topic, CountedAt, OwedAt, FaithfulAt, Times, Due;
    forall at, k: nat | at in end.joined ensures CountedAt(end, at, k) {
      PublishCounted(net, id, e, at, k);
    }
    forall k, i | 0 <= k < |end.flights| ensures OwedAt(end, k, i) {
      PublishOwed(net, id, e, k, i);
    }
  }

  /** A message owed to an instance is for the very channel it has joined there, and becomes the event again. */
  lemma Addressed(net: Net, id: string, k: nat)
    requires Placed(net) && Owed(net) && Enabled(net, Deliver(id, k))
    ensures var f := net.flights[k];
            var here := (id, Topic(f.event.channel));
            && here in net.joined && net.joined[here].name == f.event.channel && net.joined[here].since <= k
            && (Takes(id, MessageOf(f.origin, f.event), net.joined[here].name) <==> id != f.origin)
            && EventOf(MessageOf(f.origin, f.event), net.joined[here].name) == f.event
  {
    hide Topic;
    var f := net.flights[k];
    assert OwedAt(net, k, id);
    TopicInjective(net.joined[(id, Topic(f.event.channel))].name, f.event.channel);
  }

  lemma DeliverIs(net: Net, id: string, k: nat)
    requires Placed(net) && Owed(net) && Enabled(net, Deliver(id, k))
    ensures var f := net.flights[k];
            var here := (id, Topic(f.event.channel));
            && here in net.joined && net.joined[here].name == f.event.channel && net.joined[here].since <= k
            && DoDeliver(net, id, k) == net.(
                 joined := if id != f.origin then net.joined[here := Got(net.joined[here], k, f.event)] else net.joined,
                 flights := net.flights[k := f.(pending := f.pending - {id})])
  {
    Addressed(net, id, k);
    hide Topic, Takes, MessageOf, EventOf, Owed, Placed, Got;
  }

  lemma DeliverCounted(net: Net, id: string, k: nat, at: (string, string), n: nat)
    requires Placed(net) && Owed(net) && Enabled(net, Deliver(id, k)) && at in net.joined && CountedAt(net, at, n)
    ensures at in DoDeliver(net, id, k).joined && CountedAt(DoDeliver(net, id, k), at, n)
  {
    DeliverIs(net, id, k);
    assert at.1 == Topic(net.joined[at].name);
    TimesMore(net.joined[at].got, Receipt(k, net.flights[k].event), n);
    hide Topic, Times, DoDeliver, Owed, Placed, IsName;
  }

  lemma DeliverKeeps(net: Net, id: string, k: nat)
    requires Invariant(net) && Enabled(net, Deliver(id, k))
    ensures Invariant(DoDeliver(net, id, k))
  {
    hide Topic, Times, Takes, MessageOf, EventOf, CountedAt, Due;
    var end := DoDeliver(net, id, k);
    Addressed(net, id, k);
    forall n, i | 0 <= n < |end.flights| ensures OwedAt(end, n, i) {
      assert OwedAt(net, n, i);
    }
    forall at, n: nat | at in end.joined ensures CountedAt(end, at, n) {
      DeliverCounted(net, id, k, at, n);
    }
    forall at | at in end.joined ensures FaithfulAt(end, end.joined[at]) {
      StaysFaithful(net, end, net.joined[at]);
      if at == (id, Topic(net.flights[k].event.channel)) {
        GotFaithful(end, net.joined[at], k, net.flights[k].event);
      }
    }
  }

  lemma {:induction false} RunKeeps(net: Net, steps: seq<Step>, end: Net)
    requires Invariant(net) && Run(net, steps, end)
    ensures Invariant(end)
    decreases |steps|
  {
    if steps != [] {
      match steps[0] {
        case Join(id, name) => JoinKeeps(net, id, name);
        case Leave(id, name) => LeaveKeeps(net, id, name);
        case Publish(id, e) => PublishKeeps(net, id, e);
        case Deliver(id, k) => DeliverKeeps(net, id, k);
      }
      hide Invariant, DoJoin, DoLeave, DoPublish, DoDeliver;
      RunKeeps(Apply(net, steps[0]), steps[1..], end);
    }
  }

  ghost predicate Reachable(ids: set<string>, net: Net) {
    exists steps :: Run(Net(ids, map[], []), steps, net)
  }

  lemma ReachableInvariant(ids: set<string>, net: Net)
    requires "" !in ids && Reachable(ids, net)
    ensures Invariant(net)
  {
    var steps :| Run(Net(ids, map[], []), steps, net);
    RunKeeps(Net(ids, map[], []), steps, net);
  }

  /** At every moment of every run: at most once anywhere, and never on a channel of another name or tenant. */
  lemma NeverTwice(ids: set<string>, net: Net, at: (string, string), k: nat)
    requires "" !in ids && Reachable(ids, net) && at in net.joined && k < |net.flights|
    ensures Times(net.joined[at].got, k) <= 1
    ensures net.flights[k].event.channel != net.joined[at].name ==> Times(net.joined[at].got, k) == 0
  {
    ReachableInvariant(ids, net);
    assert CountedAt(net, at, k);
  }

  /**
   * A channel joined when an event on its name was published, and not left since, has it exactly once as soon as the
   * bus owes its instance nothing: on the origin from the origin itself, everywhere else from the bus.
   */
  lemma ExactlyOnce(ids: set<string>, net: Net, id: string, k: nat)
    requires "" !in ids && Reachable(ids, net) && k < |net.flights|
    requires var at := (id, Topic(net.flights[k].event.channel)); at in net.joined && net.joined[at].since <= k
    ensures var l := net.joined[(id, Topic(net.flights[k].event.channel))];
            && l.name == net.flights[k].event.channel
            && (id == net.flights[k].origin || id !in net.flights[k].pending <==> Times(l.got, k) == 1)
            && (forall i | 0 <= i < |l.got| && l.got[i].serial == k :: l.got[i].event == net.flights[k].event)
  {
    ReachableInvariant(ids, net);
    var at := (id, Topic(net.flights[k].event.channel));
    TopicInjective(net.joined[at].name, net.flights[k].event.channel);
    assert CountedAt(net, at, k) && FaithfulAt(net, net.joined[at]);
  }

  // ----- The fleet falls silent -----

  function Total(flights: seq<Flight>): nat {
    if flights == [] then 0 else Total(flights[..|flights| - 1]) + |flights[|flights| - 1].pending|
  }

  lemma {:induction false} TotalUpdate(flights: seq<Flight>, k: nat, f: Flight)
    requires k < |flights|
    ensures Total(flights[k := f]) == Total(flights) - |flights[k].pending| + |f.pending|
  {
    var n := |flights| - 1;
    if k < n {
      assert flights[k := f][..n] == flights[..n][k := f];
      TotalUpdate(flights[..n], k, f);
    } else {
      assert flights[k := f][..n] == flights[..n];
    }
  }

  lemma DeliverCounts(net: Net, id: string, k: nat)
    requires Enabled(net, Deliver(id, k))
    ensures var end := DoDeliver(net, id, k);
            Total(end.flights) == Total(net.flights) - 1 && |end.flights| == |net.flights|
  {
    var f := net.flights[k];
    TotalUpdate(net.flights, k, f.(pending := f.pending - {id}));
  }

  predicate OnlyDeliveries(steps: seq<Step>) {
    forall i | 0 <= i < |steps| :: steps[i].Deliver?
  }

  /** Deliveries publish nothing, and every one of them leaves the bus owing one less. */
  lemma {:induction false} DeliveriesCount(net: Net, steps: seq<Step>, end: Net)
    requires Run(net, steps, end) && OnlyDeliveries(steps)
    ensures |end.flights| == |net.flights| && |steps| + Total(end.flights) == Total(net.flights)
    decreases |steps|
  {
    if steps != [] {
      DeliverCounts(net, steps[0].id, steps[0].serial);
      DeliveriesCount(Apply(net, steps[0]), steps[1..], end);
    }
  }

  lemma {:induction false} SomethingOwed(flights: seq<Flight>) returns (k: nat)
    requires Total(flights) > 0
    ensures k < |flights| && flights[k].pending != {}
  {
    k := |flights| - 1;
    if flights[k].pending == {} {
      var j := SomethingOwed(flights[..k]);
      return j;
    }
  }

  lemma {:induction false} NothingOwed(flights: seq<Flight>)
    requires Total(flights) == 0
    ensures forall k | 0 <= k < |flights| :: flights[k].pending == {}
  {
    if flights != [] {
      NothingOwed(flights[..|flights| - 1]);
      forall k | 0 <= k < |flights| ensures flights[k].pending == {} {
        if k < |flights| - 1 { assert flights[..|flights| - 1][k].pending == {}; }
      }
    }
  }

  /**
   * From any state deliveries alone can end with nothing owed, after exactly as many as are owed now: no message gives
   * rise to another, and none goes round.
   */
  lemma {:induction false} FallsSilent(net: Net) returns (steps: seq<Step>, end: Net)
    ensures Run(net, steps, end) && OnlyDeliveries(steps) && |steps| == Total(net.flights)
    ensures |end.flights| == |net.flights| && forall k | 0 <= k < |end.flights| :: end.flights[k].pending == {}
    decreases Total(net.flights)
  {
    if Total(net.flights) == 0 {
      steps, end := [], net;
      NothingOwed(net.flights);
    } else {
      var k := SomethingOwed(net.flights);
      var id :| id in net.flights[k].pending;
      DeliverCounts(net, id, k);
      var rest;
      rest, end := FallsSilent(DoDeliver(net, id, k));
      steps := [Deliver(id, k)] + rest;
      hide DoDeliver, Total;
      assert steps[1..] == rest;
    }
  }

  /** The questions and answers of the metrics route share the bus with the channels and reach none of them. */
  lemma MetricsReachNoChannel(ids: set<string>, net: Net, reply: string)
    requires "" !in ids && Reachable(ids, net)
    ensures Subscribed(net, METRICS_TOPIC) == {} && Subscribed(net, MetricsReplyTopic(reply)) == {}
  {
    ReachableInvariant(ids, net);
    forall at | at in net.joined ensures at.1 != METRICS_TOPIC && at.1 != MetricsReplyTopic(reply) {
      TopicNotMetrics(net.joined[at].name, reply);
    }
    hide Topic, MetricsReplyTopic;
  }

  // ----- Anybody may join, and whoever has joined is reached -----

  /** Any instance may join any name, and has then joined it; and may leave it, and is then owed nothing on it. */
  lemma JoinAndLeave(net: Net, id: string, name: Name, k: nat)
    requires id in net.ids
    ensures Enabled(net, Join(id, name)) && (id, Topic(name)) in DoJoin(net, id, name).joined
    ensures Enabled(net, Leave(id, name)) && (id, Topic(name)) !in DoLeave(net, id, name).joined
    ensures k < |net.flights| && net.flights[k].event.channel == name ==>
              id !in DoLeave(net, id, name).flights[k].pending
  {
  }

  lemma {:induction false} RunAppend(net: Net, a: seq<Step>, mid: Net, b: seq<Step>, end: Net)
    requires Run(net, a, mid) && Run(mid, b, end)
    ensures Run(net, a + b, end)
    decreases |a|
  {
    hide Apply, Enabled;
    if a == [] {
      assert a + b == b;
    } else {
      assert (a + b)[0] == a[0] && (a + b)[1..] == a[1..] + b;
      RunAppend(Apply(net, a[0]), a[1..], mid, b, end);
    }
  }

  predicate SameJoined(net: Net, end: Net) {
    && end.joined.Keys == net.joined.Keys
    && forall at | at in net.joined :: end.joined[at].since == net.joined[at].since
  }

  lemma {:induction false} DeliveriesJoinNobody(net: Net, steps: seq<Step>, end: Net, k: nat)
    requires Run(net, steps, end) && OnlyDeliveries(steps) && k < |net.flights|
    ensures SameJoined(net, end) && k < |end.flights| && end.flights[k].event == net.flights[k].event
    decreases |steps|
  {
    if steps != [] {
      hide Takes, MessageOf, EventOf, Topic;
      var next := DoDeliver(net, steps[0].id, steps[0].serial);
      assert SameJoined(net, next);
      DeliveriesJoinNobody(next, steps[1..], end, k);
    }
  }

  /** From any reachable state an event published now comes, by deliveries alone, once to everybody who has joined. */
  lemma PublishedReachesAll(ids: set<string>, net: Net, id: string, e: Event)
    returns (steps: seq<Step>, end: Net)
    requires "" !in ids && Reachable(ids, net) && id in net.ids
    requires e.name != "" && ValidTenant(e.channel.tenant) && ValidRequested(e.channel.requested)
    ensures Run(net, [Publish(id, e)] + steps, end) && OnlyDeliveries(steps)
    ensures forall other | (other, Topic(e.channel)) in net.joined ::
              && (other, Topic(e.channel)) in end.joined
              && Times(end.joined[(other, Topic(e.channel))].got, |net.flights|) == 1
  {
    var k := |net.flights|;
    var out := DoPublish(net, id, e);
    steps, end := FallsSilent(out);
    assert ([Publish(id, e)] + steps)[1..] == steps;
    DeliveriesJoinNobody(out, steps, end, k);
    ReachableInvariant(ids, net);
    var before :| Run(Net(ids, map[], []), before, net);
    RunAppend(Net(ids, map[], []), before, net, [Publish(id, e)] + steps, end);
    forall other | (other, Topic(e.channel)) in net.joined
      ensures var at := (other, Topic(e.channel)); at in end.joined && Times(end.joined[at].got, k) == 1
    {
      var at := (other, Topic(e.channel));
      assert at in out.joined && out.joined[at].since == net.joined[at].since;
      hide Run, Topic, Times;
      ExactlyOnce(ids, end, other, k);
    }
  }
}
