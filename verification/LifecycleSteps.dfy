/** Each step of the interleaving keeps the invariant, so every run does. */
module LifecycleSteps {
  import opened Names
  import opened Options
  import opened Sections
  import opened Lifecycle
  import opened LifecycleInv

  // ----- What each step leaves alone -----

  lemma QuietFramed(st: State, end: State, s: SocketId)
    requires end.chans == st.chans && end.broker == st.broker
    requires CallsFramed(st, end, s) && SeatsFramed(st, end, s) && LockFramed(st, end, s) && JoiningFramed(st, end, s)
    ensures Framed(st, end, s)
  {
    hide CallsFramed, SeatsFramed, LockFramed, JoiningFramed;
  }

  lemma OnwardCalls(st: State, s: SocketId, rest: seq<LiveSeat>)
    ensures var end := Onward(st, s, rest);
            && end == st.(calls := end.calls)
            && CallsFramed(st, end, s)
            && (if rest == [] then s !in end.calls else s in end.calls && end.calls[s] == Leaving(rest[0], rest[1..]))
  {
  }

  lemma StartJoinFramed(st: State, s: SocketId, name: Name, grant: Grant)
    requires Local(st, s) && MayStart(st, s)
    ensures Framed(st, DoStartJoin(st, s, name, grant), s)
  {
  }

  lemma CheckLimitFramed(st: State, s: SocketId)
    requires Local(st, s) && MayCheckLimit(st, s)
    ensures Framed(st, DoCheckLimit(st, s), s)
  {
    hide AtLimit;
    hide SubsFramed, BrokerFramed, PcOk, OwnBacking, OwnSeats;
    QuietFramed(st, DoCheckLimit(st, s), s);
  }

  lemma FindFramed(st: State, s: SocketId)
    requires Local(st, s) && MayFind(st, s)
    ensures Framed(st, DoFind(st, s), s)
  {
    hide SubsFramed, BrokerFramed, PcOk, OwnBacking, OwnSeats;
    QuietFramed(st, DoFind(st, s), s);
  }

  lemma MakeCreates(st: State, s: SocketId)
    requires MayMake(st, s) && st.holder == Some(s)
    ensures SubsFramed(st, DoMake(st, s), s) && BrokerFramed(st, DoMake(st, s), s)
  {
    hide ChannelName.Key;
  }

  lemma MakeReserves(st: State, s: SocketId)
    requires MayMake(st, s) && forall k | k in st.joining :: st.joining[k] > 0
    ensures JoiningFramed(st, DoMake(st, s), s)
  {
    hide ChannelName.Key, Reserved, FindOrCreate;
    assert DoMake(st, s).joining == st.joining && DoMake(st, s).calls[s].Making?;
  }

  lemma MakeCalls(st: State, s: SocketId)
    requires MayMake(st, s) && st.holder == Some(s)
    ensures CallsFramed(st, DoMake(st, s), s) && SeatsFramed(st, DoMake(st, s), s) && LockFramed(st, DoMake(st, s), s)
  {
    hide ChannelName.Key, FindOrCreate;
  }

  lemma MakeFramed(st: State, s: SocketId)
    requires Local(st, s) && MayMake(st, s)
    ensures Framed(st, DoMake(st, s), s)
  {
    assert st.holder == Some(s);
    hide DoMake, OwnBacking, OwnSeats, OwnShut, SubsFramed, BrokerFramed, PcOk, CallsFramed, SeatsFramed, LockFramed,
      JoiningFramed;
    MakeCreates(st, s);
    MakeReserves(st, s);
    MakeCalls(st, s);
  }

  lemma HandFramed(st: State, s: SocketId)
    requires Local(st, s) && MayHand(st, s)
    ensures Framed(st, DoHand(st, s), s)
  {
  }

  lemma SubscribeFramed(st: State, s: SocketId, outcome: SubscribeOutcome)
    requires Local(st, s) && MaySubscribe(st, s, outcome)
    ensures Framed(st, DoSubscribe(st, s, outcome), s)
  {
    hide OwnBacking;
  }

  lemma TakeFramed(st: State, s: SocketId)
    requires Local(st, s) && MayTake(st, s)
    ensures Framed(st, DoTake(st, s), s)
  {
  }

  lemma FinishFramed(st: State, s: SocketId)
    requires Local(st, s) && MayFinish(st, s)
    ensures Framed(st, DoFinish(st, s), s)
  {
  }

  lemma PartFramed(st: State, s: SocketId, name: Name)
    requires Local(st, s) && MayPart(st, s)
    ensures Framed(st, DoPart(st, s, name), s)
  {
    hide SubsFramed, BrokerFramed, PcOk, OwnBacking, OwnSeats;
    QuietFramed(st, DoPart(st, s, name), s);
  }

  lemma CloseFramed(st: State, s: SocketId, order: seq<string>)
    requires Local(st, s) && MayClose(st, s, order)
    ensures Framed(st, DoClose(st, s, order), s)
  {
    hide SubsFramed, BrokerFramed, PcOk, OwnBacking, OwnSeats;
    var held := SeatsOf(st.seats, s);
    var all := seq(|order|, i requires 0 <= i < |order| => held[order[i]]);
    var end := DoClose(st, s, order);
    assert end == Onward(st, s, all).(seats := st.seats - {s}, closed := st.closed + {s});
    OnwardCalls(st, s, all);
    QuietFramed(st, end, s);
  }

  lemma UnsubscribeFramed(st: State, s: SocketId)
    requires Local(st, s) && MayUnsubscribe(st, s)
    ensures Framed(st, DoUnsubscribe(st, s), s)
  {
    hide OwnBacking;
  }

  predicate DropStays(st: State, s: SocketId)
    requires MayDrop(st, s)
  {
    Reserved(st.joining, st.calls[s].seat.Key()) > 0 || !Empty(st, st.calls[s].seat.channel)
  }

  lemma DropStaysFramed(st: State, s: SocketId)
    requires Local(st, s) && MayDrop(st, s) && DropStays(st, s)
    ensures Framed(st, DoDrop(st, s), s)
  {
    OnwardCalls(st, s, st.calls[s].rest);
    hide Onward, SubsFramed, BrokerFramed, PcOk, OwnBacking, OwnSeats, Empty;
    QuietFramed(st, DoDrop(st, s), s);
  }

  lemma DropGoesFramed(st: State, s: SocketId)
    requires Local(st, s) && MayDrop(st, s) && !DropStays(st, s)
    ensures Framed(st, DoDrop(st, s), s)
  {
    hide Onward, SubsFramed, BrokerFramed, PcOk, OwnBacking, OwnSeats, Empty;
    QuietFramed(st, DoDrop(st, s), s);
  }

  lemma RemoveFramed(st: State, s: SocketId)
    requires Local(st, s) && MayRemove(st, s)
    ensures Framed(st, DoRemove(st, s), s)
  {
    hide OwnBacking;
    hide OwnSeats;
  }

  lemma LeaveFramed(st: State, s: SocketId)
    requires Local(st, s) && MayLeave(st, s)
    ensures Framed(st, DoLeave(st, s), s)
  {
    OnwardCalls(st, s, st.calls[s].rest);
    hide Onward;
    hide SubsFramed, BrokerFramed, PcOk, OwnBacking, OwnSeats;
    QuietFramed(st, DoLeave(st, s), s);
  }

  // ----- What each step owes its own socket -----

  lemma StartJoinOwn(st: State, s: SocketId, name: Name, grant: Grant)
    requires Local(st, s) && MayStart(st, s)
    ensures Own(st, DoStartJoin(st, s, name, grant), s)
  {
  }

  lemma CheckLimitOwn(st: State, s: SocketId)
    requires Local(st, s) && MayCheckLimit(st, s)
    ensures Own(st, DoCheckLimit(st, s), s)
  {
    hide AtLimit;
  }

  lemma FindOwn(st: State, s: SocketId)
    requires Local(st, s) && MayFind(st, s)
    ensures Own(st, DoFind(st, s), s)
  {
  }

  lemma MakeBacking(st: State, s: SocketId)
    requires OwnBacking(st, s) && OwnSeats(st, s) && MayMake(st, s)
    ensures OwnBacking(DoMake(st, s), s) && OwnSeats(DoMake(st, s), s)
  {
    hide ChannelName.Key, Accepts;
    var end := DoMake(st, s);
    forall c | 0 <= c < |end.chans| && s in end.chans[c].subs ensures SeatedOn(end, s, c) || PendingOn(end, s, c) {
      assert SeatedOn(st, s, c) || PendingOn(st, s, c);
    }
  }

  lemma MakeCovers(st: State, s: SocketId)
    requires MayMake(st, s)
    ensures OwnCover(st, DoMake(st, s), s)
  {
    hide ChannelName.Key;
  }

  lemma MakeOwn(st: State, s: SocketId)
    requires Local(st, s) && MayMake(st, s) && Registered(st)
    ensures Own(st, DoMake(st, s), s)
  {
    var name := st.calls[s].name;
    if name.Key() in st.broker {
      KeyInjective(st.chans[st.broker[name.Key()]].name, name);
    }
    MakeBacking(st, s);
    MakeCovers(st, s);
    hide OwnBacking, OwnSeats, OwnCover, ChannelName.Key, Accepts;
  }

  lemma HandOwn(st: State, s: SocketId)
    requires Local(st, s) && MayHand(st, s) && Registered(st)
    ensures Own(st, DoHand(st, s), s)
  {
  }

  lemma SubscribeOwn(st: State, s: SocketId, outcome: SubscribeOutcome)
    requires Local(st, s) && MaySubscribe(st, s, outcome)
    ensures Own(st, DoSubscribe(st, s, outcome), s)
  {
    var end := DoSubscribe(st, s, outcome);
    var seat := st.calls[s].seat;
    forall c | 0 <= c < |end.chans| && s in end.chans[c].subs ensures SeatedOn(end, s, c) || PendingOn(end, s, c) {
      assert Pending(end.calls[s])[0] == seat;
    }
  }

  lemma TakeBacking(st: State, s: SocketId)
    requires OwnBacking(st, s) && MayTake(st, s) && NoOrphan(st)
    requires SeatOk(st, st.calls[s].seat) && Held(st, st.calls[s].seat.channel)
    ensures OwnBacking(DoTake(st, s), s)
  {
    hide ChannelName.Key, Accepts, Release;
    var end := DoTake(st, s);
    var seat := st.calls[s].seat;
    assert seat.Key() in end.seats[s];
    forall c | 0 <= c < |end.chans| && s in end.chans[c].subs ensures SeatedOn(end, s, c) {
      assert Held(st, c);
      assert SeatedOn(st, s, c) || PendingOn(st, s, c);
    }
  }

  lemma TakeOwn(st: State, s: SocketId)
    requires Local(st, s) && MayTake(st, s) && NoOrphan(st)
    ensures Own(st, DoTake(st, s), s)
  {
    assert st.calls[s].seat.Key() in DoTake(st, s).seats[s];
    TakeBacking(st, s);
    hide OwnBacking, ChannelName.Key, Accepts;
  }

  lemma FinishOwn(st: State, s: SocketId)
    requires Local(st, s) && MayFinish(st, s) && Registered(st)
    ensures Own(st, DoFinish(st, s), s)
  {
    var seat := st.calls[s].seat;
    assert [seat] + [] == [seat];
  }

  lemma PartBacking(st: State, s: SocketId, name: Name)
    requires OwnBacking(st, s) && MayPart(st, s)
    ensures OwnBacking(DoPart(st, s, name), s)
  {
    var end := DoPart(st, s, name);
    var held := SeatsOf(st.seats, s);
    hide ChannelName.Key;
    if name.Key() in held {
      forall c | 0 <= c < |end.chans| && s in end.chans[c].subs ensures SeatedOn(end, s, c) || PendingOn(end, s, c) {
        var key := st.chans[c].name.Key();
        assert SeatedOn(st, s, c);
        assert key != name.Key() ==> key in held - {name.Key()};
        ListsHead(held[name.Key()], [], c);
      }
    }
  }

  lemma PartOwn(st: State, s: SocketId, name: Name)
    requires Local(st, s) && MayPart(st, s)
    ensures Own(st, DoPart(st, s, name), s)
  {
    PartBacking(st, s, name);
    hide OwnBacking, ChannelName.Key, Accepts;
  }

  function Listed(held: map<string, LiveSeat>, order: seq<string>): seq<LiveSeat>
    requires forall k | k in order :: k in held
  {
    seq(|order|, i requires 0 <= i < |order| => held[order[i]])
  }

  lemma CloseBacking(st: State, s: SocketId, order: seq<string>)
    requires Local(st, s) && MayClose(st, s, order)
    ensures OwnBacking(DoClose(st, s, order), s)
  {
    hide PcOk, OwnSeats, OwnShut;
    var all := Listed(SeatsOf(st.seats, s), order);
    var end := DoClose(st, s, order);
    OnwardCalls(st, s, all);
    forall c | 0 <= c < |end.chans| && s in end.chans[c].subs ensures PendingOn(end, s, c) {
      assert SeatedOn(st, s, c);
      var i :| 0 <= i < |order| && order[i] == st.chans[c].name.Key();
      assert all[i].channel == c;
      assert [all[0]] + all[1..] == all;
    }
  }

  lemma ListedOk(st: State, end: State, s: SocketId, order: seq<string>)
    requires OwnSeats(st, s) && MayClose(st, s, order) && end.chans == st.chans
    ensures forall i | 0 <= i < |order| :: SeatOk(end, Listed(SeatsOf(st.seats, s), order)[i])
  {
    forall i | 0 <= i < |order| ensures SeatOk(end, Listed(SeatsOf(st.seats, s), order)[i]) {
      assert order[i] in order && order[i] in st.seats[s];
    }
  }

  lemma CloseOwn(st: State, s: SocketId, order: seq<string>)
    requires Local(st, s) && MayClose(st, s, order)
    ensures Own(st, DoClose(st, s, order), s)
  {
    var all := Listed(SeatsOf(st.seats, s), order);
    var end := DoClose(st, s, order);
    ListedOk(st, end, s, order);
    CloseBacking(st, s, order);
    OnwardCalls(st, s, all);
    hide OwnBacking, Onward, SeatOk, ChannelName.Key;
  }

  lemma UnsubscribeOwn(st: State, s: SocketId)
    requires Local(st, s) && MayUnsubscribe(st, s)
    ensures Own(st, DoUnsubscribe(st, s), s)
  {
    var end := DoUnsubscribe(st, s);
    var Leaving(seat, rest) := st.calls[s];
    forall c | 0 <= c < |end.chans| && s in end.chans[c].subs ensures SeatedOn(end, s, c) || PendingOn(end, s, c) {
      ListsHead(seat, rest, c);
    }
  }

  lemma DropStaysOwn(st: State, s: SocketId)
    requires Local(st, s) && MayDrop(st, s) && Registered(st) && DropStays(st, s)
    ensures Own(st, DoDrop(st, s), s)
  {
    var rest := st.calls[s].rest;
    OnwardCalls(st, s, rest);
    hide Onward;
    if rest != [] { assert [rest[0]] + rest[1..] == rest; }
  }

  lemma DropGoesOwn(st: State, s: SocketId)
    requires Local(st, s) && MayDrop(st, s) && !DropStays(st, s)
    ensures Own(st, DoDrop(st, s), s)
  {
    hide Onward;
  }

  lemma RemoveOwn(st: State, s: SocketId)
    requires Local(st, s) && MayRemove(st, s) && Registered(st)
    ensures Own(st, DoRemove(st, s), s)
  {
  }

  lemma LeaveOwn(st: State, s: SocketId)
    requires Local(st, s) && MayLeave(st, s)
    ensures Own(st, DoLeave(st, s), s)
  {
    var rest := st.calls[s].rest;
    OnwardCalls(st, s, rest);
    hide Onward;
    if rest != [] { assert [rest[0]] + rest[1..] == rest; }
  }

  // ----- Every step, every run -----

  lemma StepFramed(st: State, a: Step)
    requires Local(st, a.s) && Enabled(st, a)
    ensures Framed(st, Apply(st, a), a.s)
  {
    hide Local, Framed;
    match a
    case StartJoin(s, name, grant) => StartJoinFramed(st, s, name, grant);
    case CheckLimit(s) => CheckLimitFramed(st, s);
    case Find(s) => FindFramed(st, s);
    case Make(s) => MakeFramed(st, s);
    case Hand(s) => HandFramed(st, s);
    case Subscribe(s, outcome) => SubscribeFramed(st, s, outcome);
    case Take(s) => TakeFramed(st, s);
    case FinishJoining(s) => FinishFramed(st, s);
    case Part(s, name) => PartFramed(st, s, name);
    case Close(s, order) => CloseFramed(st, s, order);
    case Unsubscribe(s) => UnsubscribeFramed(st, s);
    case Drop(s) => if DropStays(st, s) { DropStaysFramed(st, s); } else { DropGoesFramed(st, s); }
    case RemoveBase(s) => RemoveFramed(st, s);
    case Leave(s) => LeaveFramed(st, s);
  }

  lemma StepOwn(st: State, a: Step)
    requires Local(st, a.s) && Registered(st) && NoOrphan(st) && Enabled(st, a)
    ensures Own(st, Apply(st, a), a.s)
  {
    hide Local, Own, Registered, NoOrphan;
    match a
    case StartJoin(s, name, grant) => StartJoinOwn(st, s, name, grant);
    case CheckLimit(s) => CheckLimitOwn(st, s);
    case Find(s) => FindOwn(st, s);
    case Make(s) => MakeOwn(st, s);
    case Hand(s) => HandOwn(st, s);
    case Subscribe(s, outcome) => SubscribeOwn(st, s, outcome);
    case Take(s) => TakeOwn(st, s);
    case FinishJoining(s) => FinishOwn(st, s);
    case Part(s, name) => PartOwn(st, s, name);
    case Close(s, order) => CloseOwn(st, s, order);
    case Unsubscribe(s) => UnsubscribeOwn(st, s);
    case Drop(s) => if DropStays(st, s) { DropStaysOwn(st, s); } else { DropGoesOwn(st, s); }
    case RemoveBase(s) => RemoveOwn(st, s);
    case Leave(s) => LeaveOwn(st, s);
  }

  lemma StepKeeps(st: State, a: Step)
    requires Invariant(st) && Enabled(st, a)
    ensures Invariant(Apply(st, a))
  {
    hide Local, Framed, Own, Apply, Enabled, Registered, NoOrphan;
    LocalOf(st, a.s);
    StepFramed(st, a);
    StepOwn(st, a);
    Suffices(st, Apply(st, a), a.s);
  }

  lemma {:induction false} RunKeeps(st: State, steps: seq<Step>, end: State)
    requires Invariant(st) && Run(st, steps, end)
    ensures Invariant(end)
    decreases |steps|
  {
    hide Invariant, Apply, Enabled;
    if steps != [] {
      StepKeeps(st, steps[0]);
      RunKeeps(Apply(st, steps[0]), steps[1..], end);
    }
  }

  ghost predicate Reachable(max: int, st: State) {
    exists steps :: Run(Initial(max), steps, st)
  }

  lemma InitialInvariant(max: int)
    ensures Invariant(Initial(max))
  {
    assert forall k: string :: Reservers(map[], k) == {};
  }

  lemma ReachableInvariant(max: int, st: State)
    requires Reachable(max, st)
    ensures Invariant(st)
  {
    var steps :| Run(Initial(max), steps, st);
    InitialInvariant(max);
    RunKeeps(Initial(max), steps, st);
  }

  // ----- What that means -----

  /**
   * In every interleaving, a channel with a subscriber, or handed to a join in flight, is the one held under its name.
   */
  lemma NothingOrphaned(max: int, st: State, c: ChanId)
    requires Reachable(max, st) && c < |st.chans|
    requires st.chans[c].subs != {} || exists s :: s in st.calls && Handed(st.calls[s]) && st.calls[s].seat.channel == c
    ensures st.chans[c].name.Key() in st.broker && st.broker[st.chans[c].name.Key()] == c
  {
    ReachableInvariant(max, st);
    assert NoOrphan(st) && Calling(st);
    hide Invariant, Run, Reachable, ChannelName.Key, Accepts;
    if s :| s in st.calls && Handed(st.calls[s]) && st.calls[s].seat.channel == c {
      assert PcOk(st, s, st.calls[s]);
    }
  }

  /**
   * With no call in flight the registry holds exactly the channels somebody is on, and nothing is reserved or locked.
   */
  lemma NothingLeaked(max: int, st: State)
    requires Reachable(max, st) && st.calls == map[]
    ensures forall c | 0 <= c < |st.chans| :: st.chans[c].subs != {} <==> Held(st, c)
    ensures st.joining == map[] && st.holder == None
  {
    ReachableInvariant(max, st);
    forall k: string ensures k !in st.joining {
      assert Reservers(st.calls, k) == {};
      assert Reserved(st.joining, k) == |Reservers(st.calls, k)|;
    }
  }

  /** Once Close is over, a socket has no seat and is on no channel. */
  lemma ClosedIsGone(max: int, st: State, s: SocketId)
    requires Reachable(max, st) && s in st.closed && s !in st.calls
    ensures s !in st.seats
    ensures forall c | 0 <= c < |st.chans| :: s !in st.chans[c].subs
  {
    ReachableInvariant(max, st);
  }

  /** With no call of its own in flight, a subscriber has a seat that names its channel. */
  lemma SubscriberHasSeat(max: int, st: State, s: SocketId, c: ChanId)
    requires Reachable(max, st) && s !in st.calls && c < |st.chans| && s in st.chans[c].subs
    ensures var key := st.chans[c].name.Key();
            s in st.seats && key in st.seats[s] && st.seats[s][key].channel == c
  {
    ReachableInvariant(max, st);
    assert SeatedOn(st, s, c) || PendingOn(st, s, c);
  }

  /** Whatever the interleaving, a socket is only ever put on a channel of the tenant its grant is for. */
  lemma TenantsNeverCross(max: int, st: State, s: SocketId)
    requires Reachable(max, st) && s in st.calls && Handed(st.calls[s])
    ensures var seat := st.calls[s].seat;
            seat.channel < |st.chans| && st.chans[seat.channel].name == seat.name
              && seat.grant.tenant == seat.name.tenant
  {
    ReachableInvariant(max, st);
    assert PcOk(st, s, st.calls[s]);
  }
}
