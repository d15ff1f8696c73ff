/**
 * drop can answer "gone" for a channel another drop removed. How often the answers exceed the removals, exactly, and
 * the run in which they do.
 */
module LifecycleGone {
  import opened Names
  import opened Options
  import opened Sections
  import opened Lifecycle
  import opened LifecycleInv
  import opened LifecycleSteps
  import opened LifecycleLedger
  import opened LifecycleRuns

  /** One drop answers gone for a channel it did not remove itself exactly when the name was not held as it began to. */
  lemma GoneWithoutRemoving(st: State, s: SocketId)
    requires MayRemove(st, s)
    ensures var k := st.calls[s].seat.Key();
            var between := DoRemove(st, s);
            var end := DoLeave(between, s);
            end.log[Gone(k)] > st.log[Gone(k)] && end.log[Deleted(k)] == st.log[Deleted(k)] <==> k !in st.broker
  {
    OnwardCalls(DoRemove(st, s), s, st.calls[s].rest);
    hide Onward;
  }

  // ----- Over a run -----

  /** This step begins to remove a name that is not held. */
  predicate Repeat(st: State, a: Step, k: string) {
    a.RemoveBase? && MayRemove(st, a.s) && st.calls[a.s].seat.Key() == k && k !in st.broker
  }

  function Repeats(st: State, steps: seq<Step>, k: string): nat
    decreases |steps|
  {
    if steps == [] || !Enabled(st, steps[0]) then 0
    else (if Repeat(st, steps[0], k) then 1 else 0) + Repeats(Apply(st, steps[0]), steps[1..], k)
  }

  /** An answer of gone that is settled and not yet given. */
  function Owed(st: State, k: string): nat {
    match Midway(st)
    case Some(Removed(seat, _, _)) => if seat.Key() == k && k !in st.broker then 1 else 0
    case _ => 0
  }

  function Surplus(st: State, k: string): int {
    st.log[Gone(k)] + Owed(st, k) - st.log[Deleted(k)]
  }

  lemma MakeSurplus(st: State, s: SocketId, k: string)
    requires Local(st, s) && MayMake(st, s)
    ensures Surplus(DoMake(st, s), k) == Surplus(st, k)
  {
    hide OwnBacking, OwnSeats, PcOk, ChannelName.Key, OwnShut;
  }

  lemma HandSurplus(st: State, s: SocketId, k: string)
    requires Local(st, s) && MayHand(st, s)
    ensures Surplus(DoHand(st, s), k) == Surplus(st, k)
  {
    hide OwnBacking, OwnSeats, PcOk, Sections.Join, Reserve, ChannelName.Key, OwnShut;
  }

  lemma RemoveSurplus(st: State, s: SocketId, k: string)
    requires Local(st, s) && MayRemove(st, s)
    ensures Surplus(DoRemove(st, s), k) == Surplus(st, k) + if Repeat(st, RemoveBase(s), k) then 1 else 0
  {
    hide OwnBacking, OwnSeats, PcOk, Empty, ChannelName.Key, OwnShut;
  }

  lemma LeaveSurplus(st: State, s: SocketId, k: string)
    requires Local(st, s) && MayLeave(st, s)
    ensures Surplus(DoLeave(st, s), k) == Surplus(st, k)
  {
    OnwardCalls(st, s, st.calls[s].rest);
    hide OwnBacking, OwnSeats, PcOk, Onward, LeaveIfGone, ChannelName.Key, OwnShut;
  }

  lemma TouchSurplus(st: State, a: Step, k: string)
    requires Local(st, a.s) && Enabled(st, a) && Touches(a)
    ensures Surplus(Apply(st, a), k) == Surplus(st, k) + if Repeat(st, a, k) then 1 else 0
  {
    hide Local, Surplus, DoMake, DoHand, DoRemove, DoLeave;
    match a
    case Make(s) => MakeSurplus(st, s, k);
    case Hand(s) => HandSurplus(st, s, k);
    case RemoveBase(s) => RemoveSurplus(st, s, k);
    case Leave(s) => LeaveSurplus(st, s, k);
  }

  lemma StepSurplus(st: State, a: Step, k: string)
    requires Invariant(st) && Enabled(st, a)
    ensures Surplus(Apply(st, a), k) == Surplus(st, k) + if Repeat(st, a, k) then 1 else 0
  {
    LocalOf(st, a.s);
    hide Invariant, Local, Enabled, Apply, Midway;
    if Touches(a) {
      TouchSurplus(st, a, k);
    } else {
      ApartStep(st, a);
      ApartMidway(st, a);
    }
  }

  lemma {:induction false} RunSurplus(st: State, steps: seq<Step>, end: State, k: string)
    requires Invariant(st) && Run(st, steps, end)
    ensures Surplus(end, k) == Surplus(st, k) + Repeats(st, steps, k)
    decreases |steps|
  {
    hide Invariant, Apply, Enabled, Surplus, Repeat;
    if steps != [] {
      StepKeeps(st, steps[0]);
      StepSurplus(st, steps[0], k);
      RunSurplus(Apply(st, steps[0]), steps[1..], end, k);
    }
  }

  /** Over any run: answers of gone are the removals, and one more for every drop that found its name already away. */
  lemma GoneCounted(max: int, steps: seq<Step>, st: State, k: string)
    requires Run(Initial(max), steps, st) && st.holder == None
    ensures st.log[Gone(k)] == st.log[Deleted(k)] + Repeats(Initial(max), steps, k)
    ensures st.log[Gone(k)] == st.log[Deleted(k)] <==> Repeats(Initial(max), steps, k) == 0
  {
    InitialInvariant(max);
    RunSurplus(Initial(max), steps, st, k);
  }

  // ----- A run in which they differ -----

  /** Two sockets unsubscribe from one channel before either drops it: one removal, two answers of gone. */
  lemma GoneTwice(s: SocketId, t: SocketId, name: Name, grant: Grant) returns (steps: seq<Step>, end: State)
    requires s != t && Accepts(grant, name)
    ensures Run(Initial(-1), steps, end) && end.holder == None
    ensures end.log[Deleted(name.Key())] == 1 && end.log[Gone(name.Key())] == 2
  {
    hide ChannelName.Key, Accepts, Apply, Enabled, Run;
    var k := name.Key();
    var st0 := Initial(-1);
    var p1, st1, seat1 := Arrives(st0, s, name, grant, {});
    var p2, st2, seat2 := Arrives(st1, t, name, grant, {s});
    assert seat1.channel == seat2.channel;
    var p3, st3 := Departs(st2, s, seat1, {s, t});
    var p4, st4 := Departs(st3, t, seat2, {t});
    var p5, st5 := Drops(st4, s, seat1);
    var p6, st6 := Drops(st5, t, seat2);
    RunAppend(st0, p1, st1, p2, st2);
    RunAppend(st0, p1 + p2, st2, p3, st3);
    RunAppend(st0, p1 + p2 + p3, st3, p4, st4);
    RunAppend(st0, p1 + p2 + p3 + p4, st4, p5, st5);
    RunAppend(st0, p1 + p2 + p3 + p4 + p5, st5, p6, st6);
    steps, end := p1 + p2 + p3 + p4 + p5 + p6, st6;
  }
}
