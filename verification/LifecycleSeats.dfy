/**
 * A subscriber has a seat; the other way round holds exactly while no resubscription fails. Unwinding one takes the
 * socket off the channel and leaves the seat of the subscription before it on record.
 */
module LifecycleSeats {
  import opened Names
  import opened Options
  import opened Sections
  import opened Lifecycle
  import opened LifecycleInv
  import opened LifecycleSteps
  import opened LifecycleRuns

  /** Whatever this socket has a seat for, it is on. */
  predicate OnAll(st: State, s: SocketId) {
    forall k | k in SeatsOf(st.seats, s) :: HasSub(st, SeatsOf(st.seats, s)[k].channel, s)
  }

  ghost predicate EverySeatTaken(st: State) {
    forall s: SocketId :: OnAll(st, s)
  }

  /** This step takes a socket off a channel it still has a seat for. */
  predicate Strands(st: State, a: Step) {
    a.Unsubscribe? && MayUnsubscribe(st, a.s) &&
    var seat := st.calls[a.s].seat;
    seat.Key() in SeatsOf(st.seats, a.s) && SeatsOf(st.seats, a.s)[seat.Key()].channel == seat.channel
  }

  lemma OthersOn(st: State, end: State, s: SocketId, t: SocketId)
    requires OnAll(st, t) && t != s && SeatsFramed(st, end, s) && SubsFramed(st, end, s)
    ensures OnAll(end, t)
  {
    assert SeatsOf(end.seats, t) == SeatsOf(st.seats, t);
    forall k | k in SeatsOf(st.seats, t) ensures HasSub(end, SeatsOf(st.seats, t)[k].channel, t) {
      assert HasSub(st, SeatsOf(st.seats, t)[k].channel, t);
    }
  }

  lemma UnsubscribeOn(st: State, s: SocketId)
    requires OnAll(st, s) && OwnSeats(st, s) && MayUnsubscribe(st, s) && SeatOk(st, st.calls[s].seat)
    ensures OnAll(DoUnsubscribe(st, s), s) <==> !Strands(st, Unsubscribe(s))
  {
    hide ChannelName.Key, Accepts;
    var end := DoUnsubscribe(st, s);
    var c := st.calls[s].seat.channel;
    var held := SeatsOf(st.seats, s);
    assert SeatsOf(end.seats, s) == held;
    assert !HasSub(end, c, s);
    forall k | k in held && held[k].channel != c ensures HasSub(end, held[k].channel, s) {
      assert HasSub(st, held[k].channel, s);
    }
    assert forall k | k in held && held[k].channel == c :: k == st.calls[s].seat.Key();
  }

  lemma TakeOn(st: State, s: SocketId)
    requires OnAll(st, s) && MayTake(st, s) && HasSub(st, st.calls[s].seat.channel, s)
    ensures OnAll(DoTake(st, s), s)
  {
    hide ChannelName.Key, Release;
  }

  lemma FewerSeatsOn(st: State, end: State, s: SocketId)
    requires OnAll(st, s) && end.chans == st.chans
    requires forall k | k in SeatsOf(end.seats, s) ::
        k in SeatsOf(st.seats, s) && SeatsOf(end.seats, s)[k] == SeatsOf(st.seats, s)[k]
    ensures OnAll(end, s)
  {
  }

  /** Seats as they were, and the socket on all it was on. */
  lemma MoreSubsOn(st: State, end: State, s: SocketId)
    requires OnAll(st, s) && SeatsOf(end.seats, s) == SeatsOf(st.seats, s)
    requires |st.chans| <= |end.chans| && forall c | 0 <= c < |st.chans| :: s in st.chans[c].subs ==>
        s in end.chans[c].subs
    ensures OnAll(end, s)
  {
  }

  lemma JoinOn(st: State, a: Step)
    requires OnAll(st, a.s) && Enabled(st, a)
        && (a.StartJoin? || a.CheckLimit? || a.Find? || a.Make? || a.Hand? || a.Subscribe?)
    ensures OnAll(Apply(st, a), a.s)
  {
    hide OnAll, SeatsOf, Sections.Join, Reserve, Accepts, ChannelName.Key, AtLimit, FindOrCreate;
    MoreSubsOn(st, Apply(st, a), a.s);
  }

  lemma OnwardSame(st: State, s: SocketId, rest: seq<LiveSeat>)
    ensures Onward(st, s, rest).seats == st.seats && Onward(st, s, rest).chans == st.chans
  {
  }

  lemma LeaveOn(st: State, a: Step)
    requires OnAll(st, a.s) && Enabled(st, a) && (a.FinishJoining? || a.Drop? || a.RemoveBase? || a.Leave?)
    ensures OnAll(Apply(st, a), a.s)
  {
    hide OnAll, SeatsOf, Release, ChannelName.Key, Empty, Remove, LeaveIfGone, Onward, Reserved;
    if a.Drop? || a.Leave? { OnwardSame(st, a.s, st.calls[a.s].rest); }
    MoreSubsOn(st, Apply(st, a), a.s);
  }

  lemma CloseOn(st: State, s: SocketId, order: seq<string>)
    requires OnAll(st, s) && MayClose(st, s, order)
    ensures OnAll(DoClose(st, s, order), s)
  {
    OnwardSame(st, s, Listed(SeatsOf(st.seats, s), order));
    hide Onward;
  }

  lemma PartOn(st: State, s: SocketId, name: Name)
    requires OnAll(st, s) && MayPart(st, s)
    ensures OnAll(DoPart(st, s, name), s)
  {
    hide ChannelName.Key, OnAll;
    FewerSeatsOn(st, DoPart(st, s, name), s);
  }

  lemma OwnOn(st: State, a: Step)
    requires OnAll(st, a.s) && Local(st, a.s) && Enabled(st, a)
    ensures OnAll(Apply(st, a), a.s) <==> !Strands(st, a)
  {
    hide OnAll, OwnBacking, OwnShut;
    match a
    case Unsubscribe(s) => UnsubscribeOn(st, s);
    case Take(s) => TakeOn(st, s);
    case Part(s, name) => PartOn(st, s, name);
    case Close(s, order) => CloseOn(st, s, order);
    case FinishJoining(_) => LeaveOn(st, a);
    case Drop(_) => LeaveOn(st, a);
    case RemoveBase(_) => LeaveOn(st, a);
    case Leave(_) => LeaveOn(st, a);
    case _ => JoinOn(st, a);
  }

  lemma FramedParts(st: State, end: State, s: SocketId)
    requires Framed(st, end, s)
    ensures CallsFramed(st, end, s) && SeatsFramed(st, end, s) && SubsFramed(st, end, s)
  {
  }

  lemma AllButOneOn(st: State, end: State, s: SocketId)
    requires EverySeatTaken(st) && SeatsFramed(st, end, s) && SubsFramed(st, end, s)
    ensures EverySeatTaken(end) <==> OnAll(end, s)
  {
    hide OnAll, SeatsFramed, SubsFramed;
    forall t: SocketId ensures t != s ==> OnAll(end, t) {
      if t != s { OthersOn(st, end, s, t); }
    }
  }

  lemma StepExact(st: State, a: Step)
    requires Invariant(st) && Enabled(st, a) && EverySeatTaken(st)
    ensures EverySeatTaken(Apply(st, a)) <==> !Strands(st, a)
  {
    LocalOf(st, a.s);
    assert OnAll(st, a.s);
    hide *;
    StepFramed(st, a);
    FramedParts(st, Apply(st, a), a.s);
    OwnOn(st, a);
    AllButOneOn(st, Apply(st, a), a.s);
  }

  ghost predicate TakenThroughout(st: State, steps: seq<Step>)
    decreases |steps|
  {
    EverySeatTaken(st) && (steps != [] && Enabled(st, steps[0]) ==> TakenThroughout(Apply(st, steps[0]), steps[1..]))
  }

  ghost predicate NoneStranded(st: State, steps: seq<Step>)
    decreases |steps|
  {
    steps != [] && Enabled(st, steps[0]) ==> !Strands(st, steps[0]) && NoneStranded(Apply(st, steps[0]), steps[1..])
  }

  lemma {:induction false} RunExact(st: State, steps: seq<Step>, end: State)
    requires Invariant(st) && EverySeatTaken(st) && Run(st, steps, end)
    ensures TakenThroughout(st, steps) <==> NoneStranded(st, steps)
    decreases |steps|
  {
    hide Invariant, EverySeatTaken, Enabled, Apply, Strands;
    if steps != [] {
      StepExact(st, steps[0]);
      StepKeeps(st, steps[0]);
      if EverySeatTaken(Apply(st, steps[0])) {
        RunExact(Apply(st, steps[0]), steps[1..], end);
      }
    }
  }

  // ----- Only a failed resubscription comes to that -----

  /** A subscription of a socket that has a seat under this name already, and that fails. */
  predicate Stray(st: State, a: Step) {
    a.Subscribe? && !a.outcome.Accepted? && a.s in st.calls && st.calls[a.s].Reached?
    && st.calls[a.s].seat.Key() in SeatsOf(st.seats, a.s)
  }

  /** What a call has still to take the socket off. */
  function Unwinds(pc: Pc): seq<LiveSeat> {
    match pc
    case Failed(seat) => [seat]
    case Leaving(seat, rest) => [seat] + rest
    case Dropping(_, rest) => rest
    case Removing(_, rest) => rest
    case Removed(_, rest, _) => rest
    case _ => []
  }

  predicate NoneListed(unwinds: seq<LiveSeat>, held: map<string, LiveSeat>) {
    forall i | 0 <= i < |unwinds| :: unwinds[i].Key() !in held
  }

  /** It is off the record before it is off the channel. */
  predicate OffRecord(st: State, s: SocketId) {
    s in st.calls ==> NoneListed(Unwinds(st.calls[s]), SeatsOf(st.seats, s))
  }

  lemma OffRecordDoesNotStrand(st: State, a: Step)
    requires OffRecord(st, a.s)
    ensures !Strands(st, a)
  {
    if a.Unsubscribe? && MayUnsubscribe(st, a.s) {
      assert Unwinds(st.calls[a.s])[0] == st.calls[a.s].seat;
    }
  }

  lemma OnwardUnwinds(st: State, s: SocketId, rest: seq<LiveSeat>)
    ensures var end := Onward(st, s, rest);
            end.seats == st.seats && (s in end.calls ==> Unwinds(end.calls[s]) == rest)
  {
    if rest != [] { assert [rest[0]] + rest[1..] == rest; }
  }

  lemma JoinOffRecord(st: State, a: Step)
    requires OffRecord(st, a.s) && Enabled(st, a) && !Stray(st, a)
    requires a.StartJoin? || a.CheckLimit? || a.Find? || a.Make? || a.Hand? || a.Subscribe? || a.Take?
    ensures OffRecord(Apply(st, a), a.s)
  {
    hide Sections.Join, Reserve, Release, Accepts, ChannelName.Key, AtLimit, FindOrCreate, SeatsOf, TakeSeat;
  }

  lemma MovesOffRecord(st: State, end: State, s: SocketId)
    requires OffRecord(st, s) && SeatsOf(end.seats, s) == SeatsOf(st.seats, s)
    requires s in end.calls ==> s in st.calls && forall x | x in Unwinds(end.calls[s]) :: x in Unwinds(st.calls[s])
    ensures OffRecord(end, s)
  {
    hide SeatsOf, Unwinds, ChannelName.Key;
    if s in end.calls {
      forall i | 0 <= i < |Unwinds(end.calls[s])| ensures Unwinds(end.calls[s])[i].Key() !in SeatsOf(end.seats, s) {
        var x := Unwinds(end.calls[s])[i];
        assert x in Unwinds(st.calls[s]);
        var j :| 0 <= j < |Unwinds(st.calls[s])| && Unwinds(st.calls[s])[j] == x;
      }
    }
  }

  lemma UnsubscribeOffRecord(st: State, s: SocketId)
    requires OffRecord(st, s) && MayUnsubscribe(st, s)
    ensures OffRecord(DoUnsubscribe(st, s), s)
  {
    hide ChannelName.Key, SeatsOf, OffRecord;
    MovesOffRecord(st, DoUnsubscribe(st, s), s);
  }

  lemma LeaveOffRecord(st: State, a: Step)
    requires OffRecord(st, a.s) && Enabled(st, a)
    requires a.FinishJoining? || a.Drop? || a.RemoveBase? || a.Leave?
    ensures OffRecord(Apply(st, a), a.s)
  {
    var pc := st.calls[a.s];
    hide Release, ChannelName.Key, Empty, Remove, LeaveIfGone, Onward, Reserved, SeatsOf, OffRecord;
    if a.Drop? || a.Leave? { OnwardUnwinds(st, a.s, pc.rest); }
    MovesOffRecord(st, Apply(st, a), a.s);
  }

  lemma PartOffRecord(st: State, s: SocketId, name: Name)
    requires MayPart(st, s) && OwnSeats(st, s)
    ensures OffRecord(DoPart(st, s, name), s)
  {
    hide ChannelName.Key, SeatOk;
  }

  lemma CloseOffRecord(st: State, s: SocketId, order: seq<string>)
    requires MayClose(st, s, order)
    ensures OffRecord(DoClose(st, s, order), s)
  {
    hide ChannelName.Key;
    OnwardUnwinds(st, s, Listed(SeatsOf(st.seats, s), order));
    hide Onward;
  }

  lemma OwnOffRecord(st: State, a: Step)
    requires OffRecord(st, a.s) && Local(st, a.s) && Enabled(st, a) && !Stray(st, a)
    ensures OffRecord(Apply(st, a), a.s)
  {
    hide OffRecord, OwnBacking, OwnShut;
    match a
    case Part(s, name) => PartOffRecord(st, s, name);
    case Close(s, order) => CloseOffRecord(st, s, order);
    case FinishJoining(_) => LeaveOffRecord(st, a);
    case Unsubscribe(s) => UnsubscribeOffRecord(st, s);
    case Drop(_) => LeaveOffRecord(st, a);
    case RemoveBase(_) => LeaveOffRecord(st, a);
    case Leave(_) => LeaveOffRecord(st, a);
    case _ => JoinOffRecord(st, a);
  }

  ghost predicate AllOffRecord(st: State) {
    forall s: SocketId :: OffRecord(st, s)
  }

  lemma AllButOneOff(st: State, end: State, s: SocketId)
    requires AllOffRecord(st) && CallsFramed(st, end, s) && SeatsFramed(st, end, s) && OffRecord(end, s)
    ensures AllOffRecord(end)
  {
    hide NoneListed, Unwinds;
    forall t: SocketId ensures OffRecord(end, t) {
      assert OffRecord(st, t);
      if t != s { assert SeatsOf(end.seats, t) == SeatsOf(st.seats, t); }
    }
  }

  lemma StepOffRecord(st: State, a: Step)
    requires Invariant(st) && Enabled(st, a) && AllOffRecord(st) && !Stray(st, a)
    ensures AllOffRecord(Apply(st, a))
  {
    LocalOf(st, a.s);
    assert OffRecord(st, a.s);
    hide *;
    StepFramed(st, a);
    FramedParts(st, Apply(st, a), a.s);
    OwnOffRecord(st, a);
    AllButOneOff(st, Apply(st, a), a.s);
  }

  ghost predicate NoStray(st: State, steps: seq<Step>)
    decreases |steps|
  {
    steps != [] && Enabled(st, steps[0]) ==> !Stray(st, steps[0]) && NoStray(Apply(st, steps[0]), steps[1..])
  }

  lemma {:induction false} RunStrandsNone(st: State, steps: seq<Step>, end: State)
    requires Invariant(st) && AllOffRecord(st) && Run(st, steps, end) && NoStray(st, steps)
    ensures NoneStranded(st, steps)
    decreases |steps|
  {
    if steps != [] {
      assert OffRecord(st, steps[0].s);
      OffRecordDoesNotStrand(st, steps[0]);
      hide Invariant, AllOffRecord, OffRecord, Enabled, Apply, Strands, Stray;
      StepOffRecord(st, steps[0]);
      StepKeeps(st, steps[0]);
      RunStrandsNone(Apply(st, steps[0]), steps[1..], end);
    }
  }

  // ----- And a failed resubscription always does -----

  /** A call about to take its socket off the channel of a seat that stays on record. */
  predicate Doomed(st: State, s: SocketId) {
    && s in st.calls
    && (st.calls[s].Failed? || (st.calls[s].Leaving? && st.calls[s].rest == []))
    && var seat := st.calls[s].seat;
       seat.Key() in SeatsOf(st.seats, s) && SeatsOf(st.seats, s)[seat.Key()].channel == seat.channel
  }

  /** The seat on record and the channel just reached are one: both are held under the name. */
  lemma SameChannel(st: State, s: SocketId)
    requires Registered(st) && Seating(st) && NoOrphan(st) && OnAll(st, s)
    requires s in st.calls && st.calls[s].Reached? && PcOk(st, s, st.calls[s])
    requires st.calls[s].seat.Key() in SeatsOf(st.seats, s)
    ensures SeatsOf(st.seats, s)[st.calls[s].seat.Key()].channel == st.calls[s].seat.channel
  {
    var seat := st.calls[s].seat;
    var recorded := SeatsOf(st.seats, s)[seat.Key()];
    assert HasSub(st, recorded.channel, s);
    assert Held(st, recorded.channel) && Held(st, seat.channel);
    hide ChannelName.Key, Accepts;
  }

  lemma StrayDooms(st: State, a: Step)
    requires Invariant(st) && OnAll(st, a.s) && Enabled(st, a) && Stray(st, a)
    ensures Doomed(Apply(st, a), a.s)
  {
    assert Calling(st) && PcOk(st, a.s, st.calls[a.s]);
    hide OnAll, Invariant, PcOk, Registered, Seating, NoOrphan, ChannelName.Key;
    InvariantParts(st);
    SameChannel(st, a.s);
  }

  lemma InvariantParts(st: State)
    requires Invariant(st)
    ensures Registered(st) && Seating(st) && NoOrphan(st)
  {
  }

  lemma DoomStays(st: State, end: State, s: SocketId, t: SocketId)
    requires Doomed(st, t) && t != s && CallsFramed(st, end, s) && SeatsFramed(st, end, s)
    ensures Doomed(end, t)
  {
    hide ChannelName.Key;
    assert SeatsOf(end.seats, t) == SeatsOf(st.seats, t);
  }

  /** The doomed call's own next step leaves it doomed, or takes the socket off. */
  lemma DoomMoves(st: State, a: Step)
    requires Doomed(st, a.s) && Enabled(st, a)
    ensures Doomed(Apply(st, a), a.s) || Strands(st, a)
  {
    hide ChannelName.Key, Release;
  }

  lemma StepDooms(st: State, a: Step, s: SocketId)
    requires Invariant(st) && Enabled(st, a) && Doomed(st, s) && EverySeatTaken(st)
    ensures Doomed(Apply(st, a), s) || !EverySeatTaken(Apply(st, a))
  {
    LocalOf(st, a.s);
    hide *;
    if a.s == s {
      DoomMoves(st, a);
      StepExact(st, a);
    } else {
      StepFramed(st, a);
      FramedParts(st, Apply(st, a), a.s);
      DoomStays(st, Apply(st, a), a.s, s);
    }
  }

  lemma {:induction false} DoomedStrands(st: State, steps: seq<Step>, end: State, s: SocketId)
    requires Invariant(st) && Doomed(st, s) && Run(st, steps, end) && end.calls == map[]
    ensures !TakenThroughout(st, steps)
    decreases |steps|
  {
    assert s in st.calls;
    hide Invariant, Doomed, EverySeatTaken, Enabled, Apply;
    if EverySeatTaken(st) && steps != [] {
      StepKeeps(st, steps[0]);
      StepDooms(st, steps[0], s);
      if Doomed(Apply(st, steps[0]), s) {
        DoomedStrands(Apply(st, steps[0]), steps[1..], end, s);
      }
    }
  }

  lemma {:induction false} RunStrays(st: State, steps: seq<Step>, end: State)
    requires Invariant(st) && EverySeatTaken(st) && Run(st, steps, end) && end.calls == map[]
        && TakenThroughout(st, steps)
    ensures NoStray(st, steps)
    decreases |steps|
  {
    if steps != [] {
      assert OnAll(st, steps[0].s);
      hide Invariant, EverySeatTaken, OnAll, Enabled, Apply, Stray;
      StepKeeps(st, steps[0]);
      if Stray(st, steps[0]) {
        StrayDooms(st, steps[0]);
        DoomedStrands(Apply(st, steps[0]), steps[1..], end, steps[0].s);
      } else {
        RunStrays(Apply(st, steps[0]), steps[1..], end);
      }
    }
  }

  /**
   * Over any run that ends with no call in flight: every seat is of a channel its socket is on, all along, if and only
   * if no resubscription fails.
   */
  lemma SeatsExact(max: int, steps: seq<Step>, st: State)
    requires Run(Initial(max), steps, st) && st.calls == map[]
    ensures TakenThroughout(Initial(max), steps) <==> NoStray(Initial(max), steps)
  {
    if NoStray(Initial(max), steps) { SeatedIsOn(max, steps, st); }
    InitialInvariant(max);
    if TakenThroughout(Initial(max), steps) { RunStrays(Initial(max), steps, st); }
  }

  /** Over any run in which no resubscription fails, whoever has a seat is on the channel. */
  lemma SeatedIsOn(max: int, steps: seq<Step>, st: State)
    requires Run(Initial(max), steps, st) && NoStray(Initial(max), steps)
    ensures TakenThroughout(Initial(max), steps)
  {
    InitialInvariant(max);
    RunStrandsNone(Initial(max), steps, st);
    RunExact(Initial(max), steps, st);
  }

  // ----- A run in which one does -----

  /** A socket on a channel asks for it again and is refused. */
  lemma RefusedAgain(st: State, s: SocketId, seat: LiveSeat)
    requires Early(st, seat.Key()) && st.calls == map[s := Reached(seat)] && st.joining == map[seat.Key() := 1]
    ensures Enabled(st, Subscribe(s, Refused))
    ensures var failed := Apply(st, Subscribe(s, Refused));
            && Enabled(failed, FinishJoining(s))
            && Apply(failed, FinishJoining(s)) == st.(calls := map[s := Leaving(seat, [])], joining := map[])
  {
    hide ChannelName.Key;
  }

  lemma RefusesAgain(st: State, s: SocketId, name: Name, grant: Grant)
    returns (steps: seq<Step>, end: State, seat: LiveSeat)
    requires Asks(st, name, grant, {s}) && name.Key() in st.broker
    ensures Run(st, steps, end) && Early(end, name.Key()) && end.joining == map[] && end.seats == st.seats
    ensures end.calls == map[s := Dropping(seat, [])] && seat.Key() == name.Key()
        && seat.channel == st.broker[name.Key()]
    ensures Holds(end, name.Key(), seat.channel, {})
  {
    hide ChannelName.Key, Apply, Enabled, Run, Accepts;
    var c;
    steps, end, c := Reaches(st, s, name, grant, {s});
    seat := Seat(name, c, grant);
    RefusedAgain(end, s, seat);
    var failed := Apply(end, Subscribe(s, Refused));
    var leaving := Apply(failed, FinishJoining(s));
    Unseats(leaving, s, seat, {s});
    RunOne(st, steps, end, Subscribe(s, Refused));
    RunOne(st, steps + [Subscribe(s, Refused)], failed, FinishJoining(s));
    RunOne(st, steps + [Subscribe(s, Refused)] + [FinishJoining(s)], leaving, Unsubscribe(s));
    steps := steps + [Subscribe(s, Refused)] + [FinishJoining(s)] + [Unsubscribe(s)];
    end := Apply(leaving, Unsubscribe(s));
    assert {s} - {s} == {};
    assert leaving.calls[s := Dropping(seat, [])] == map[s := Dropping(seat, [])];
  }

  /**
   * A join, and the same again refused: no call is in flight, the seat is on record, and the socket is not on its
   * channel.
   */
  lemma SeatWithoutChannel(s: SocketId, name: Name, grant: Grant) returns (steps: seq<Step>, end: State)
    requires Accepts(grant, name)
    ensures Run(Initial(-1), steps, end) && end.calls == map[] && end.holder == None
    ensures name.Key() in SeatsOf(end.seats, s)
    ensures !HasSub(end, SeatsOf(end.seats, s)[name.Key()].channel, s) && !EverySeatTaken(end)
  {
    var k := name.Key();
    var p1, st1, seat1 := Arrives(Initial(-1), s, name, grant, {});
    assert Sits(st1, k, seat1, s) by { hide ChannelName.Key; }
    hide ChannelName.Key, Accepts, Apply, Enabled, Run;
    var p2, st2, seat2 := RefusesAgain(st1, s, name, grant);
    var p3, st3 := Drops(st2, s, seat2);
    RunAppend(Initial(-1), p1, st1, p2, st2);
    RunAppend(Initial(-1), p1 + p2, st2, p3, st3);
    steps, end := p1 + p2 + p3, st3;
    assert !OnAll(end, s);
  }
}
