/** No interleaving takes a socket past its channel limit, though the answer at the door reserves nothing. */
module LifecycleLimit {
  import opened Names
  import opened Options
  import opened Sections
  import opened Lifecycle
  import opened LifecycleInv
  import opened LifecycleSteps

  /** The key a call was let through the limit for, until the seat is taken or given up. */
  function Wanted(pc: Pc): Option<string> {
    match pc
    case Reaching(name, _) => Some(name.Key())
    case Finding(name, _, _) => Some(name.Key())
    case Making(name, _, _, _) => Some(name.Key())
    case Reached(seat) => Some(seat.Key())
    case Seated(seat) => Some(seat.Key())
    case _ => None
  }

  predicate Room(max: int, held: map<string, LiveSeat>, wanted: Option<string>) {
    max >= 0 ==> |held| <= max && (wanted.Some? ==> wanted.value in held || |held| < max)
  }

  predicate Within(st: State, s: SocketId) {
    Room(st.max, SeatsOf(st.seats, s), if s in st.calls then Wanted(st.calls[s]) else None)
  }

  lemma Shrinks(held: map<string, LiveSeat>, k: string)
    ensures |held - {k}| <= |held|
  {
    if k in held {
      assert held == (held - {k})[k := held[k]];
    } else {
      assert held - {k} == held;
    }
  }

  lemma CallMoves(st: State, end: State, s: SocketId)
    requires Within(st, s) && end.max == st.max && SeatsOf(end.seats, s) == SeatsOf(st.seats, s)
    requires s in end.calls && Wanted(end.calls[s]).Some? ==>
        s in st.calls && Wanted(end.calls[s]) == Wanted(st.calls[s])
    ensures Within(end, s)
  {
  }

  lemma CheckWithin(st: State, s: SocketId)
    requires Within(st, s) && MayCheckLimit(st, s)
    ensures Within(DoCheckLimit(st, s), s)
  {
  }

  lemma TakeWithin(st: State, s: SocketId)
    requires Within(st, s) && MayTake(st, s)
    ensures Within(DoTake(st, s), s)
  {
    hide Release, ChannelName.Key;
  }

  lemma PartWithin(st: State, s: SocketId, name: Name)
    requires Within(st, s) && MayPart(st, s)
    ensures Within(DoPart(st, s, name), s)
  {
    Shrinks(SeatsOf(st.seats, s), name.Key());
    hide ChannelName.Key;
  }

  lemma OnwardWants(st: State, s: SocketId, rest: seq<LiveSeat>)
    ensures var end := Onward(st, s, rest);
            end.seats == st.seats && end.max == st.max && (s in end.calls ==> Wanted(end.calls[s]) == None)
  {
    hide Room;
  }

  lemma CloseWithin(st: State, s: SocketId, order: seq<string>)
    requires Within(st, s) && MayClose(st, s, order)
    ensures Within(DoClose(st, s, order), s)
  {
    OnwardWants(st, s, Listed(SeatsOf(st.seats, s), order));
    hide Onward;
  }

  lemma StartWithin(st: State, s: SocketId, name: Name, grant: Grant)
    requires Within(st, s) && MayStart(st, s)
    ensures Within(DoStartJoin(st, s, name, grant), s)
  {
    hide Room;
  }

  lemma FindWithin(st: State, s: SocketId)
    requires Within(st, s) && MayFind(st, s)
    ensures Within(DoFind(st, s), s)
  {
    hide Within, ChannelName.Key, Accepts, SeatsOf;
    CallMoves(st, DoFind(st, s), s);
  }

  lemma MakeWithin(st: State, s: SocketId)
    requires Within(st, s) && MayMake(st, s)
    ensures Within(DoMake(st, s), s)
  {
    hide Within, ChannelName.Key, FindOrCreate, SeatsOf;
    CallMoves(st, DoMake(st, s), s);
  }

  lemma HandWithin(st: State, s: SocketId)
    requires Within(st, s) && MayHand(st, s)
    ensures Within(DoHand(st, s), s)
  {
    hide Within, ChannelName.Key, Reserve, Join, Topic, SeatsOf;
    CallMoves(st, DoHand(st, s), s);
  }

  lemma SubscribeWithin(st: State, s: SocketId, outcome: SubscribeOutcome)
    requires Within(st, s) && MaySubscribe(st, s, outcome)
    ensures Within(DoSubscribe(st, s, outcome), s)
  {
    hide Within, ChannelName.Key, SeatsOf;
    CallMoves(st, DoSubscribe(st, s, outcome), s);
  }

  lemma FinishWithin(st: State, s: SocketId)
    requires Within(st, s) && MayFinish(st, s)
    ensures Within(DoFinish(st, s), s)
  {
    hide Within, ChannelName.Key, Release, SeatsOf;
    CallMoves(st, DoFinish(st, s), s);
  }

  lemma UnsubscribeWithin(st: State, s: SocketId)
    requires Within(st, s) && MayUnsubscribe(st, s)
    ensures Within(DoUnsubscribe(st, s), s)
  {
    hide Within, ChannelName.Key, SeatsOf;
    CallMoves(st, DoUnsubscribe(st, s), s);
  }

  lemma DropWithin(st: State, s: SocketId)
    requires Within(st, s)
    ensures MayDrop(st, s) ==> Within(DoDrop(st, s), s)
    ensures MayLeave(st, s) ==> Within(DoLeave(st, s), s)
  {
    if s in st.calls && Unwinding(st.calls[s]) { OnwardWants(st, s, st.calls[s].rest); }
    hide Within, ChannelName.Key, Empty, Reserved, Onward, LeaveIfGone, SeatsOf;
    if MayDrop(st, s) { CallMoves(st, DoDrop(st, s), s); }
    if MayLeave(st, s) { CallMoves(st, DoLeave(st, s), s); }
  }

  lemma RemoveWithin(st: State, s: SocketId)
    requires Within(st, s) && MayRemove(st, s)
    ensures Within(DoRemove(st, s), s)
  {
    hide Within, ChannelName.Key, Empty, Remove, SeatsOf;
    CallMoves(st, DoRemove(st, s), s);
  }

  lemma StepWithin(st: State, a: Step)
    requires Within(st, a.s) && Enabled(st, a)
    ensures Within(Apply(st, a), a.s)
  {
    hide Within;
    match a
    case CheckLimit(s) => CheckWithin(st, s);
    case Take(s) => TakeWithin(st, s);
    case Part(s, name) => PartWithin(st, s, name);
    case Close(s, order) => CloseWithin(st, s, order);
    case StartJoin(s, name, grant) => StartWithin(st, s, name, grant);
    case Find(s) => FindWithin(st, s);
    case Make(s) => MakeWithin(st, s);
    case Hand(s) => HandWithin(st, s);
    case Subscribe(s, outcome) => SubscribeWithin(st, s, outcome);
    case FinishJoining(s) => FinishWithin(st, s);
    case Unsubscribe(s) => UnsubscribeWithin(st, s);
    case Drop(s) => DropWithin(st, s);
    case RemoveBase(s) => RemoveWithin(st, s);
    case Leave(s) => DropWithin(st, s);
  }

  lemma OnwardMax(st: State, s: SocketId, rest: seq<LiveSeat>)
    ensures Onward(st, s, rest).max == st.max
  {
  }

  lemma JoinMax(st: State, s: SocketId, outcome: SubscribeOutcome)
    ensures MayCheckLimit(st, s) ==> DoCheckLimit(st, s).max == st.max
    ensures MayFind(st, s) ==> DoFind(st, s).max == st.max
    ensures MayMake(st, s) ==> DoMake(st, s).max == st.max
    ensures MayHand(st, s) ==> DoHand(st, s).max == st.max
    ensures MaySubscribe(st, s, outcome) ==> DoSubscribe(st, s, outcome).max == st.max
    ensures MayTake(st, s) ==> DoTake(st, s).max == st.max
  {
    hide AtLimit, Accepts, ChannelName.Key, FindOrCreate, Reserve, Join, Release, TakeSeat;
  }

  lemma LeaveMax(st: State, s: SocketId)
    ensures MayFinish(st, s) ==> DoFinish(st, s).max == st.max
    ensures MayUnsubscribe(st, s) ==> DoUnsubscribe(st, s).max == st.max
    ensures MayDrop(st, s) ==> DoDrop(st, s).max == st.max
    ensures MayRemove(st, s) ==> DoRemove(st, s).max == st.max
    ensures MayLeave(st, s) ==> DoLeave(st, s).max == st.max
  {
    if s in st.calls && Unwinding(st.calls[s]) { OnwardMax(st, s, st.calls[s].rest); }
    hide Release, Empty, Reserved, ChannelName.Key, Remove, LeaveIfGone, Onward;
  }

  lemma PartMax(st: State, s: SocketId, name: Name)
    requires MayPart(st, s)
    ensures DoPart(st, s, name).max == st.max
  {
    hide ChannelName.Key, ForgetOne;
  }

  lemma SameMax(st: State, a: Step)
    requires Enabled(st, a)
    ensures Apply(st, a).max == st.max
  {
    hide DoCheckLimit, DoFind, DoMake, DoHand, DoSubscribe, DoTake, DoFinish, DoPart, DoClose, DoUnsubscribe, DoDrop,
      DoRemove, DoLeave;
    match a
    case StartJoin(_, _, _) =>
    case Subscribe(s, outcome) => JoinMax(st, s, outcome);
    case Part(s, name) => PartMax(st, s, name);
    case Close(s, order) => CloseMax(st, s, order);
    case _ =>
      JoinMax(st, a.s, Accepted);
      LeaveMax(st, a.s);
  }

  lemma CloseMax(st: State, s: SocketId, order: seq<string>)
    requires MayClose(st, s, order)
    ensures DoClose(st, s, order).max == st.max
  {
    OnwardMax(st, s, Listed(SeatsOf(st.seats, s), order));
    hide Onward;
  }

  ghost predicate AllWithin(st: State) {
    forall s: SocketId :: Within(st, s)
  }

  /** Another socket's step is outside what the limit of this one depends on. */
  lemma StaysWithin(st: State, end: State, s: SocketId, t: SocketId)
    requires Within(st, t) && t != s && end.max == st.max
    requires CallsFramed(st, end, s) && SeatsFramed(st, end, s)
    ensures Within(end, t)
  {
    hide Room;
  }

  lemma StepKeepsWithin(st: State, a: Step)
    requires Invariant(st) && Enabled(st, a) && AllWithin(st)
    ensures AllWithin(Apply(st, a))
  {
    LocalOf(st, a.s);
    hide Invariant, Local, Within, Apply, Enabled, CallsFramed, SeatsFramed, SubsFramed, BrokerFramed, LockFramed,
      JoiningFramed;
    StepFramed(st, a);
    StepWithin(st, a);
    SameMax(st, a);
    forall t: SocketId ensures Within(Apply(st, a), t) {
      if t != a.s { StaysWithin(st, Apply(st, a), a.s, t); }
    }
  }

  lemma {:induction false} RunKeepsWithin(st: State, steps: seq<Step>, end: State)
    requires Invariant(st) && AllWithin(st) && Run(st, steps, end)
    ensures AllWithin(end) && end.max == st.max
    decreases |steps|
  {
    hide Invariant, AllWithin, Apply, Enabled;
    if steps != [] {
      SameMax(st, steps[0]);
      StepKeeps(st, steps[0]);
      StepKeepsWithin(st, steps[0]);
      RunKeepsWithin(Apply(st, steps[0]), steps[1..], end);
    }
  }

  /** Over any run, no socket holds more seats than the limit; a negative limit is none. */
  lemma LimitHolds(max: int, st: State, s: SocketId)
    requires Reachable(max, st) && 0 <= max
    ensures |SeatsOf(st.seats, s)| <= max
  {
    var steps :| Run(Initial(max), steps, st);
    InitialInvariant(max);
    RunKeepsWithin(Initial(max), steps, st);
    assert Within(st, s);
  }

  // ----- Never stricter than it says -----

  /** Over any run a subscription is turned away at the door if and only if its seat would pass the limit. */
  lemma DoorExact(max: int, st: State, s: SocketId, channel: ChanId)
    requires Reachable(max, st) && MayCheckLimit(st, s)
    ensures var Asking(name, grant) := st.calls[s];
            var end := DoCheckLimit(st, s);
            && end.seats == st.seats
            && (s !in end.calls <==>
                  0 <= max < |SeatsOf(st.seats, s)[name.Key() := Seat(name, channel, grant)]|)
            && (s in end.calls ==> end.calls[s] == Reaching(name, grant))
  {
    var steps :| Run(Initial(max), steps, st);
    InitialInvariant(max);
    RunKeepsWithin(Initial(max), steps, st);
    assert Within(st, s);
    var Asking(name, grant) := st.calls[s];
    hide ChannelName.Key, AtLimit, SeatsOf, Invariant, AllWithin, Run;
    RefusedExact(st.seats, max, s, Seat(name, channel, grant));
  }
}
