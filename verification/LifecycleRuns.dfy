/** Pieces of runs of the interleaving, to build particular ones from. */
module LifecycleRuns {
  import opened Names
  import opened Options
  import opened Sections
  import opened Lifecycle

  lemma {:induction false} RunAppend(st: State, a: seq<Step>, mid: State, b: seq<Step>, end: State)
    requires Run(st, a, mid) && Run(mid, b, end)
    ensures Run(st, a + b, end)
    decreases |a|
  {
    hide Apply, Enabled;
    if a == [] {
      assert a + b == b;
    } else {
      assert (a + b)[0] == a[0] && (a + b)[1..] == a[1..] + b;
      RunAppend(Apply(st, a[0]), a[1..], mid, b, end);
    }
  }

  lemma RunOne(st: State, steps: seq<Step>, mid: State, a: Step)
    requires Run(st, steps, mid) && Enabled(mid, a)
    ensures Run(st, steps + [a], Apply(mid, a))
  {
    hide Apply, Enabled;
    RunAppend(st, steps, mid, [a], Apply(mid, a));
  }

  /** What the runs built of these keep: one name, no limit, nobody's drop over yet. */
  predicate Early(st: State, k: string) {
    && st.holder == None && st.closed == {} && st.max < 0
    && st.log[Gone(k)] == 0 && st.log[Deleted(k)] == 0
  }

  predicate Holds(st: State, k: string, c: ChanId, on: set<SocketId>) {
    k in st.broker && st.broker[k] == c && c < |st.chans| && st.chans[c].subs == on
  }

  predicate Sits(st: State, k: string, seat: LiveSeat, s: SocketId) {
    k in SeatsOf(st.seats, s) && SeatsOf(st.seats, s)[k] == seat
  }

  /** A socket alone in the server asks for a channel. */
  predicate Asks(st: State, name: Name, grant: Grant, on: set<SocketId>) {
    && Early(st, name.Key()) && st.calls == map[] && st.joining == map[] && Accepts(grant, name)
    && if name.Key() in st.broker then Holds(st, name.Key(), st.broker[name.Key()], on) else on == {}
  }

  lemma Opens(st: State, s: SocketId, name: Name, grant: Grant, on: set<SocketId>)
    requires Asks(st, name, grant, on)
    ensures Enabled(st, StartJoin(s, name, grant))
    ensures var asked := Apply(st, StartJoin(s, name, grant));
            Enabled(asked, CheckLimit(s))
              && Apply(asked, CheckLimit(s)) == st.(calls := map[s := Reaching(name, grant)])
  {
    hide ChannelName.Key, Accepts;
  }

  lemma Finds(st: State, s: SocketId, name: Name, grant: Grant)
    requires st.holder == None && st.calls == map[s := Reaching(name, grant)] && Accepts(grant, name)
    ensures Enabled(st, Find(s))
    ensures Apply(st, Find(s))
        == st.(calls := map[s := Finding(name, grant, name.Key() !in st.broker)], holder := Some(s))
  {
    hide ChannelName.Key, Accepts;
  }

  function Made(st: State, name: Name): State {
    if name.Key() in st.broker then st
    else st.(chans := st.chans + [Chan(name, {})], broker := st.broker[name.Key() := |st.chans|])
  }

  lemma MakesOne(st: State, s: SocketId, name: Name, grant: Grant, missing: bool)
    requires st.calls == map[s := Finding(name, grant, missing)]
    ensures name.Key() in Made(st, name).broker
    ensures DoMake(st, s)
        == Made(st, name).(calls := map[s := Making(name, grant, missing, Made(st, name).broker[name.Key()])])
  {
    hide ChannelName.Key;
    var c := Made(st, name).broker[name.Key()];
    assert map[s := Finding(name, grant, missing)][s := Making(name, grant, missing, c)]
        == map[s := Making(name, grant, missing, c)];
  }

  lemma Makes(st: State, s: SocketId, name: Name, grant: Grant, missing: bool)
    requires st.calls == map[s := Finding(name, grant, missing)]
    ensures Enabled(st, Make(s)) && name.Key() in Made(st, name).broker
    ensures Apply(st, Make(s))
        == Made(st, name).(calls := map[s := Making(name, grant, missing, Made(st, name).broker[name.Key()])])
  {
    hide ChannelName.Key;
    MakesOne(st, s, name, grant, missing);
    hide Made, DoMake;
  }

  lemma Hands(st: State, s: SocketId, name: Name, grant: Grant, missing: bool, c: ChanId)
    requires st.calls == map[s := Making(name, grant, missing, c)] && st.joining == map[] && st.holder == Some(s)
    ensures Enabled(st, Hand(s))
    ensures var end := Apply(st, Hand(s));
            && end == st.(calls := map[s := Reached(Seat(name, c, grant))], joining := map[name.Key() := 1],
               holder := None, joined := end.joined, log := end.log)
            && forall k: string :: end.log[Gone(k)] == st.log[Gone(k)] && end.log[Deleted(k)] == st.log[Deleted(k)]
  {
    hide ChannelName.Key;
  }

  lemma Reaches(st: State, s: SocketId, name: Name, grant: Grant, on: set<SocketId>)
    returns (steps: seq<Step>, end: State, c: ChanId)
    requires Asks(st, name, grant, on)
    ensures Run(st, steps, end) && Early(end, name.Key()) && end.seats == st.seats
    ensures end.calls == map[s := Reached(Seat(name, c, grant))] && end.joining == map[name.Key() := 1]
    ensures Holds(end, name.Key(), c, on) && (name.Key() in st.broker ==> c == st.broker[name.Key()])
  {
    hide ChannelName.Key, Accepts;
    Opens(st, s, name, grant, on);
    hide Enabled, Apply;
    var asked := Apply(st, StartJoin(s, name, grant));
    var checked := Apply(asked, CheckLimit(s));
    Finds(checked, s, name, grant);
    var found := Apply(checked, Find(s));
    Makes(found, s, name, grant, name.Key() !in st.broker);
    var made := Apply(found, Make(s));
    c := made.broker[name.Key()];
    Hands(made, s, name, grant, name.Key() !in st.broker, c);
    end := Apply(made, Hand(s));
    steps := [StartJoin(s, name, grant), CheckLimit(s)];
    RunOne(st, [StartJoin(s, name, grant)], asked, CheckLimit(s));
    RunOne(st, steps, checked, Find(s));
    RunOne(st, steps + [Find(s)], found, Make(s));
    RunOne(st, steps + [Find(s)] + [Make(s)], made, Hand(s));
    steps := steps + [Find(s)] + [Make(s)] + [Hand(s)];
  }

  lemma Settles(st: State, s: SocketId, seat: LiveSeat, on: set<SocketId>)
    requires Early(st, seat.Key()) && st.calls == map[s := Reached(seat)] && st.joining == map[seat.Key() := 1]
    requires Holds(st, seat.Key(), seat.channel, on)
    ensures Enabled(st, Subscribe(s, Accepted))
    ensures var seated := Apply(st, Subscribe(s, Accepted));
            Enabled(seated, Take(s)) &&
            var end := Apply(seated, Take(s));
            && Early(end, seat.Key()) && end.calls == map[] && end.joining == map[]
            && Holds(end, seat.Key(), seat.channel, on + {s}) && end.seats == TakeSeat(st.seats, s, seat)
  {
    hide ChannelName.Key;
  }

  lemma Arrives(st: State, s: SocketId, name: Name, grant: Grant, on: set<SocketId>)
    returns (steps: seq<Step>, end: State, seat: LiveSeat)
    requires Asks(st, name, grant, on)
    ensures Run(st, steps, end) && Asks(end, name, grant, on + {s})
    ensures seat.Key() == name.Key() && Holds(end, seat.Key(), seat.channel, on + {s})
        && end.seats == TakeSeat(st.seats, s, seat)
    ensures name.Key() in st.broker ==> seat.channel == st.broker[name.Key()]
  {
    hide ChannelName.Key, Accepts, Apply, Enabled, TakeSeat;
    var c: ChanId;
    steps, end, c := Reaches(st, s, name, grant, on);
    seat := Seat(name, c, grant);
    Settles(end, s, seat, on);
    RunOne(st, steps, end, Subscribe(s, Accepted));
    var seated := Apply(end, Subscribe(s, Accepted));
    RunOne(st, steps + [Subscribe(s, Accepted)], seated, Take(s));
    steps, end := steps + [Subscribe(s, Accepted)] + [Take(s)], Apply(seated, Take(s));
  }

  lemma Parts(st: State, s: SocketId, seat: LiveSeat)
    requires Early(st, seat.Key()) && s !in st.calls && Sits(st, seat.Key(), seat, s)
    ensures Enabled(st, Part(s, seat.name))
    ensures Apply(st, Part(s, seat.name)) ==
            st.(calls := st.calls[s := Leaving(seat, [])], seats := ForgetOne(st.seats, s, seat.Key()))
  {
    hide ChannelName.Key, ForgetOne;
  }

  lemma Unseats(st: State, s: SocketId, seat: LiveSeat, on: set<SocketId>)
    requires s in st.calls && st.calls[s] == Leaving(seat, []) && Holds(st, seat.Key(), seat.channel, on)
    ensures Enabled(st, Unsubscribe(s))
    ensures var end := Apply(st, Unsubscribe(s));
            && end == st.(calls := st.calls[s := Dropping(seat, [])], chans := end.chans)
            && Holds(end, seat.Key(), seat.channel, on - {s})
  {
    hide ChannelName.Key;
  }

  lemma Departs(st: State, s: SocketId, seat: LiveSeat, on: set<SocketId>) returns (steps: seq<Step>, end: State)
    requires Early(st, seat.Key()) && s !in st.calls && Sits(st, seat.Key(), seat, s)
        && Holds(st, seat.Key(), seat.channel, on)
    ensures Run(st, steps, end) && Early(end, seat.Key()) && end.joining == st.joining
    ensures end.calls == st.calls[s := Dropping(seat, [])] && Holds(end, seat.Key(), seat.channel, on - {s})
    ensures forall t | t != s :: SeatsOf(end.seats, t) == SeatsOf(st.seats, t)
  {
    hide ChannelName.Key, Apply, Enabled;
    Parts(st, s, seat);
    var parted := Apply(st, Part(s, seat.name));
    Unseats(parted, s, seat, on);
    end := Apply(parted, Unsubscribe(s));
    RunOne(st, [Part(s, seat.name)], parted, Unsubscribe(s));
    steps := [Part(s, seat.name)] + [Unsubscribe(s)];
  }

  predicate Vacant(st: State, k: string, c: ChanId) {
    && st.holder == None && st.joining == map[] && Empty(st, c)
    && (k in st.broker ==> Empty(st, st.broker[k]))
  }

  lemma DropsStart(st: State, s: SocketId, seat: LiveSeat)
    requires Vacant(st, seat.Key(), seat.channel) && s in st.calls && st.calls[s] == Dropping(seat, [])
    ensures Enabled(st, Drop(s))
    ensures Apply(st, Drop(s)) == st.(calls := st.calls[s := Removing(seat, [])], holder := Some(s))
  {
    hide ChannelName.Key, Empty;
  }

  lemma DropsRemove(st: State, s: SocketId, seat: LiveSeat)
    requires s in st.calls && st.calls[s] == Removing(seat, [])
        && (seat.Key() in st.broker ==> Empty(st, st.broker[seat.Key()]))
    ensures Enabled(st, RemoveBase(s))
    ensures var end := Apply(st, RemoveBase(s));
            && end == st.(calls := st.calls[s := Removed(seat, [], seat.Key() in st.broker)],
               broker := st.broker - {seat.Key()}, log := end.log)
            && end.log == st.log + if seat.Key() in st.broker then multiset{Deleted(seat.Key())} else multiset{}
  {
    hide ChannelName.Key, Empty;
  }

  lemma DropsLeave(st: State, s: SocketId, seat: LiveSeat, deleted: bool)
    requires s in st.calls && st.calls[s] == Removed(seat, [], deleted) && seat.Key() !in st.broker
    ensures Enabled(st, Leave(s))
    ensures var end := Apply(st, Leave(s));
            end == st.(calls := st.calls - {s}, holder := None, joined := end.joined,
              log := st.log + multiset{Gone(seat.Key())})
  {
    hide ChannelName.Key, LeaveIfGone;
  }

  lemma Drops(st: State, s: SocketId, seat: LiveSeat) returns (steps: seq<Step>, end: State)
    requires Vacant(st, seat.Key(), seat.channel) && s in st.calls && st.calls[s] == Dropping(seat, [])
    ensures Run(st, steps, end)
        && end == st.(calls := st.calls - {s}, broker := st.broker - {seat.Key()}, joined := end.joined, log := end.log)
    ensures end.log[Gone(seat.Key())] == st.log[Gone(seat.Key())] + 1
    ensures end.log[Deleted(seat.Key())] == st.log[Deleted(seat.Key())] + if seat.Key() in st.broker then 1 else 0
  {
    hide ChannelName.Key, Apply, Enabled;
    DropsStart(st, s, seat);
    var dropping := Apply(st, Drop(s));
    DropsRemove(dropping, s, seat);
    var removed := Apply(dropping, RemoveBase(s));
    DropsLeave(removed, s, seat, seat.Key() in st.broker);
    end := Apply(removed, Leave(s));
    assert st.calls[s := Removing(seat, [])][s := Removed(seat, [], seat.Key() in st.broker)] - {s} == st.calls - {s};
    RunOne(st, [Drop(s)], dropping, RemoveBase(s));
    RunOne(st, [Drop(s)] + [RemoveBase(s)], removed, Leave(s));
    steps := [Drop(s)] + [RemoveBase(s)] + [Leave(s)];
  }
}
