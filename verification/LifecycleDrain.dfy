/** No call is ever stuck: each has a step when the lock lets it, and from anywhere every call can be run to its end. */
module LifecycleDrain {
  import opened Names
  import opened Options
  import opened Sections
  import opened Lifecycle
  import opened LifecycleInv
  import opened LifecycleSteps
  import opened LifecycleRuns

  /** A step this call may take next; a subscription is taken to be accepted. */
  function NextStep(s: SocketId, pc: Pc): Step {
    match pc
    case Asking(_, _) => CheckLimit(s)
    case Reaching(_, _) => Find(s)
    case Finding(_, _, _) => Make(s)
    case Making(_, _, _, _) => Hand(s)
    case Reached(_) => Subscribe(s, Accepted)
    case Seated(_) => Take(s)
    case Failed(_) => FinishJoining(s)
    case Leaving(_, _) => Unsubscribe(s)
    case Dropping(_, _) => Drop(s)
    case Removing(_, _) => RemoveBase(s)
    case Removed(_, _, _) => Step.Leave(s)
  }

  /** How many steps a call has left at most. */
  function StepsLeft(pc: Pc): nat {
    match pc
    case Asking(_, _) => 6
    case Reaching(_, _) => 5
    case Finding(_, _, _) => 4
    case Making(_, _, _, _) => 3
    case Reached(_) => 2
    case Seated(_) => 1
    case Failed(_) => 5
    case Leaving(_, rest) => 4 * |rest| + 4
    case Dropping(_, rest) => 4 * |rest| + 3
    case Removing(_, rest) => 4 * |rest| + 2
    case Removed(_, rest, _) => 4 * |rest| + 1
  }

  /** While the lock is free, or its own, a call in flight can go on. */
  lemma NeverStuck(max: int, st: State, s: SocketId)
    requires Reachable(max, st) && s in st.calls && (st.holder == None || st.holder == Some(s))
    ensures Enabled(st, NextStep(s, st.calls[s]))
  {
    ReachableInvariant(max, st);
    CanGoOn(st, s);
  }

  /** Whoever holds the lock is in flight, so somebody can go on whenever anybody is in flight. */
  lemma SomebodyCanGoOn(max: int, st: State) returns (s: SocketId)
    requires Reachable(max, st) && st.calls != map[]
    ensures s in st.calls && Enabled(st, NextStep(s, st.calls[s]))
  {
    ReachableInvariant(max, st);
    s := Runner(st);
    CanGoOn(st, s);
  }

  lemma CanGoOn(st: State, s: SocketId)
    requires Locking(st) && s in st.calls && (st.holder == None || st.holder == Some(s))
    ensures Enabled(st, NextStep(s, st.calls[s]))
  {
  }

  lemma Runner(st: State) returns (s: SocketId)
    requires Locking(st) && st.calls != map[]
    ensures s in st.calls && (st.holder == None || st.holder == Some(s))
  {
    if st.holder.Some? {
      s := st.holder.value;
    } else {
      assert st.calls.Keys != {};
      s :| s in st.calls;
    }
  }

  predicate Nears(st: State, end: State, s: SocketId) {
    s in st.calls && (s in end.calls ==> StepsLeft(end.calls[s]) < StepsLeft(st.calls[s]))
  }

  lemma EntryNears(st: State, s: SocketId)
    ensures MayCheckLimit(st, s) ==> Nears(st, DoCheckLimit(st, s), s)
    ensures MayFind(st, s) ==> Nears(st, DoFind(st, s), s)
  {
    hide ChannelName.Key, Accepts, AtLimit;
  }

  lemma ReachNears(st: State, s: SocketId)
    ensures MayMake(st, s) ==> Nears(st, DoMake(st, s), s)
    ensures MayHand(st, s) ==> Nears(st, DoHand(st, s), s)
  {
    hide ChannelName.Key, Reserve, Join, FindOrCreate, Topic;
  }

  lemma SeatNears(st: State, s: SocketId)
    ensures MaySubscribe(st, s, Accepted) ==> Nears(st, DoSubscribe(st, s, Accepted), s)
    ensures MayTake(st, s) ==> Nears(st, DoTake(st, s), s)
    ensures MayFinish(st, s) ==> Nears(st, DoFinish(st, s), s)
  {
    hide ChannelName.Key, Release, TakeSeat, WithSubs, HasSub;
  }

  lemma OnwardNears(st: State, s: SocketId, rest: seq<LiveSeat>)
    ensures var end := Onward(st, s, rest);
            s in end.calls ==> StepsLeft(end.calls[s]) == 4 * |rest|
  {
  }

  lemma UnseatNears(st: State, s: SocketId)
    ensures MayUnsubscribe(st, s) ==> Nears(st, DoUnsubscribe(st, s), s)
    ensures MayRemove(st, s) ==> Nears(st, DoRemove(st, s), s)
  {
    hide ChannelName.Key, Remove, Empty, WithSubs;
  }

  lemma DropNears(st: State, s: SocketId)
    ensures MayDrop(st, s) ==> Nears(st, DoDrop(st, s), s)
    ensures MayLeave(st, s) ==> Nears(st, DoLeave(st, s), s)
  {
    if s in st.calls && Unwinding(st.calls[s]) { OnwardNears(st, s, st.calls[s].rest); }
    hide ChannelName.Key, Onward, LeaveIfGone, Empty, Reserved;
  }

  lemma NextNears(st: State, s: SocketId)
    requires s in st.calls && Enabled(st, NextStep(s, st.calls[s]))
    ensures Nears(st, Apply(st, NextStep(s, st.calls[s])), s)
  {
    hide Nears, DoCheckLimit, DoFind, DoMake, DoHand, DoSubscribe, DoTake, DoFinish, DoUnsubscribe, DoDrop, DoRemove;
    hide DoLeave;
    match st.calls[s]
    case Asking(_, _) => EntryNears(st, s);
    case Reaching(_, _) => EntryNears(st, s);
    case Finding(_, _, _) => ReachNears(st, s);
    case Making(_, _, _, _) => ReachNears(st, s);
    case Reached(_) => SeatNears(st, s);
    case Seated(_) => SeatNears(st, s);
    case Failed(_) => SeatNears(st, s);
    case Leaving(_, _) => UnseatNears(st, s);
    case Removing(_, _) => UnseatNears(st, s);
    case Dropping(_, _) => DropNears(st, s);
    case Removed(_, _, _) => DropNears(st, s);
  }

  lemma StepNears(st: State, s: SocketId)
    requires Invariant(st) && s in st.calls && (st.holder == None || st.holder == Some(s))
    ensures var a := NextStep(s, st.calls[s]);
            Enabled(st, a)
            && var end := Apply(st, a);
            && Invariant(end) && Nears(st, end, s) && end.calls - {s} == st.calls - {s}
            && (end.holder == None || end.holder == Some(s)) && (s !in end.calls ==> end.holder == None)
  {
    var a := NextStep(s, st.calls[s]);
    assert a.s == s;
    CanGoOn(st, s);
    LocalOf(st, s);
    hide *;
    NextNears(st, s);
    StepKeeps(st, a);
    StepFramed(st, a);
    LockAfter(st, Apply(st, a), s);
  }

  lemma LockAfter(st: State, end: State, s: SocketId)
    requires Framed(st, end, s) && Invariant(end) && (st.holder == None || st.holder == Some(s))
    ensures end.calls - {s} == st.calls - {s}
    ensures (end.holder == None || end.holder == Some(s)) && (s !in end.calls ==> end.holder == None)
  {
    assert CallsFramed(st, end, s) && LockFramed(st, end, s) && Locking(end);
    hide SeatsFramed, SubsFramed, BrokerFramed, JoiningFramed, Invariant;
  }

  lemma RunFrom(st: State, a: Step, steps: seq<Step>, end: State)
    requires Enabled(st, a) && Run(Apply(st, a), steps, end)
    ensures Run(st, [a] + steps, end)
  {
    hide Enabled, Apply;
    assert ([a] + steps)[1..] == steps;
  }

  /** One call, run to its end with nothing in between. */
  lemma {:induction false} DrainOne(st: State, s: SocketId) returns (steps: seq<Step>, end: State)
    requires Invariant(st) && s in st.calls && (st.holder == None || st.holder == Some(s))
    ensures Run(st, steps, end) && Invariant(end) && end.holder == None && end.calls == st.calls - {s}
    ensures |steps| <= StepsLeft(st.calls[s])
    decreases StepsLeft(st.calls[s])
  {
    var a := NextStep(s, st.calls[s]);
    StepNears(st, s);
    var next := Apply(st, a);
    assert StepsLeft(st.calls[s]) > 0;
    assert Nears(st, next, s) && s in next.calls ==> StepsLeft(next.calls[s]) < StepsLeft(st.calls[s]);
    assert Run(next, [], next);
    hide *;
    if s in next.calls {
      steps, end := DrainOne(next, s);
    } else {
      steps, end := [], next;
      assert next.calls == next.calls - {s};
    }
    RunFrom(st, a, steps, end);
    steps := [a] + steps;
  }

  lemma OneFewer(calls: map<SocketId, Pc>, s: SocketId)
    requires s in calls
    ensures |calls - {s}| < |calls|
  {
    assert calls == (calls - {s})[s := calls[s]];
  }

  /** From every state of the invariant some run drains every call. */
  lemma {:induction false} DrainAll(st: State) returns (steps: seq<Step>, end: State)
    requires Invariant(st)
    ensures Run(st, steps, end) && Invariant(end) && end.calls == map[]
    decreases |st.calls|
  {
    if st.calls == map[] {
      steps, end := [], st;
    } else {
      var s := Runner(st);
      hide *;
      var first, mid := DrainOne(st, s);
      OneFewer(st.calls, s);
      var rest;
      rest, end := DrainAll(mid);
      RunAppend(st, first, mid, rest, end);
      steps := first + rest;
    }
  }

  /** From every reachable state some run drains every call: states with none in flight are never out of reach. */
  lemma EverythingDrains(max: int, st: State) returns (steps: seq<Step>, end: State)
    requires Reachable(max, st)
    ensures Run(st, steps, end) && end.calls == map[] && Reachable(max, end)
  {
    ReachableInvariant(max, st);
    steps, end := DrainAll(st);
    var before :| Run(Initial(max), before, st);
    RunAppend(Initial(max), before, st, steps, end);
  }

  lemma {:induction false} InSomeOrder(all: set<string>) returns (order: seq<string>)
    ensures forall i, j | 0 <= i < j < |order| :: order[i] != order[j]
    ensures forall k :: k in order <==> k in all
    decreases |all|
  {
    order := [];
    if all != {} {
      var k :| k in all;
      order := InSomeOrder(all - {k});
      order := order + [k];
    }
  }

  /** A socket in no call and not closed may begin any: to join at any time, the others while the lock is free. */
  lemma IdleMayBegin(st: State, s: SocketId, name: Name, grant: Grant) returns (order: seq<string>)
    requires s !in st.calls && s !in st.closed
    ensures Enabled(st, StartJoin(s, name, grant))
    ensures st.holder == None ==> Enabled(st, Part(s, name)) && Enabled(st, Close(s, order))
  {
    order := InSomeOrder(SeatsOf(st.seats, s).Keys);
  }
}
