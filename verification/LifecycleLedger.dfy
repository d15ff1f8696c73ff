/** What the registry's neighbours see of a run: the relay's topics, the observer's announcements, the channel limit. */
module LifecycleLedger {
  import opened Names
  import opened Options
  import opened Sections
  import opened Lifecycle
  import opened LifecycleInv
  import opened LifecycleSteps

  function T(key: string): string {
    TOPIC_PREFIX + key
  }

  lemma TopicOfKey(a: string, b: string)
    ensures T(a) == T(b) <==> a == b
  {
    assert T(a)[6..] == a && T(b)[6..] == b;
  }

  /** The call that holds the lock with its change to the registry made and not yet passed on. */
  function Midway(st: State): Option<Pc> {
    if st.holder.Some? && st.holder.value in st.calls
       && (st.calls[st.holder.value].Making? || st.calls[st.holder.value].Removed?)
    then Some(st.calls[st.holder.value]) else None
  }

  // ----- Key by key -----

  /** The topic is joined exactly when the key is held, and for the same channel. */
  predicate Agrees(st: State, k: string) {
    (k in st.broker <==> T(k) in st.joined) && (k in st.broker ==> st.joined[T(k)] == st.broker[k])
  }

  /** Midway through reach the topic may not be joined yet; midway through drop it may not be left yet. */
  predicate Relayed(st: State, k: string) {
    match Midway(st)
    case Some(Making(name, _, _, _)) =>
      if name.Key() == k then T(k) in st.joined && k in st.broker ==> st.joined[T(k)] == st.broker[k] else Agrees(st, k)
    case Some(Removed(seat, _, _)) =>
      if seat.Key() == k then k in st.broker ==> Agrees(st, k) else Agrees(st, k)
    case _ => Agrees(st, k)
  }

  function Announcing(st: State, k: string): nat {
    match Midway(st)
    case Some(Making(name, _, missing, _)) => if name.Key() == k && missing then 1 else 0
    case _ => 0
  }

  function Reporting(st: State, k: string): nat {
    match Midway(st)
    case Some(Removed(seat, _, deleted)) => if seat.Key() == k && deleted then 1 else 0
    case _ => 0
  }

  /** Creations less deletions is what is held, and no deletion goes unreported. */
  predicate Balanced(st: State, k: string) {
    && st.log[Created(k)] + Announcing(st, k) == st.log[Deleted(k)] + (if k in st.broker then 1 else 0)
    && st.log[Deleted(k)] <= st.log[Gone(k)] + Reporting(st, k)
  }

  predicate Recorded(st: State, k: string) {
    Relayed(st, k) && Balanced(st, k)
  }

  ghost predicate Ledger(st: State) {
    && (forall k: string :: Recorded(st, k))
    && (forall t | t in st.joined :: 6 <= |t| && t == T(t[6..]))
  }

  // ----- Most steps touch none of it -----

  predicate Touches(a: Step) {
    a.Make? || a.Hand? || a.RemoveBase? || a.Leave?
  }

  lemma MidwayStays(st: State, end: State, s: SocketId)
    requires CallsFramed(st, end, s) && LockFramed(st, end, s) && Locking(st)
    requires s in st.calls ==> !st.calls[s].Making? && !st.calls[s].Removed?
    requires s in end.calls ==> !end.calls[s].Making? && !end.calls[s].Removed?
    ensures Midway(end) == Midway(st)
  {
  }

  lemma ApartStep(st: State, a: Step)
    requires Enabled(st, a) && !Touches(a)
    ensures Apart(st, Apply(st, a), a.s)
    ensures a.s in st.calls ==> !st.calls[a.s].Making? && !st.calls[a.s].Removed?
  {
    hide Apart, DoStartJoin, DoCheckLimit, DoFind, DoSubscribe, DoTake, DoFinish, DoPart, DoClose, DoUnsubscribe,
      DoDrop;
  }

  lemma SameLedger(st: State, end: State)
    requires Ledger(st) && Midway(end) == Midway(st)
    requires end.broker == st.broker && end.joined == st.joined && end.log == st.log
    ensures Ledger(end)
  {
    hide Midway;
    forall k: string ensures Recorded(end, k) {
      assert Recorded(st, k);
    }
  }

  lemma ApartMidway(st: State, a: Step)
    requires Invariant(st) && Enabled(st, a) && !Touches(a)
    ensures Midway(Apply(st, a)) == Midway(st)
  {
    ApartStep(st, a);
    LocalOf(st, a.s);
    StepFramed(st, a);
    hide Enabled, Apply, Local, Locking, CallsFramed, LockFramed, Midway;
    hide Counting, Calling, Covered, Backed, Seating, Registered, NoOrphan, Shut, SubsFramed, BrokerFramed,
      SeatsFramed, JoiningFramed;
    MidwayStays(st, Apply(st, a), a.s);
  }

  lemma StepKeepsLedger(st: State, a: Step)
    requires Invariant(st) && Enabled(st, a) && Ledger(st)
    ensures Ledger(Apply(st, a))
  {
    var s := a.s;
    LocalOf(st, s);
    if Touches(a) {
      LedgerRecords(st, a);
      LedgerTopics(st, a);
    } else {
      hide Invariant, Ledger, Local, Enabled, Apply;
      ApartStep(st, a);
      ApartMidway(st, a);
      SameLedger(st, Apply(st, a));
    }
  }

  // ----- The four that do -----

  lemma MakeRecorded(st: State, s: SocketId, k: string)
    requires Local(st, s) && MayMake(st, s) && Recorded(st, k)
    ensures Recorded(DoMake(st, s), k)
  {
  }

  lemma HandRecorded(st: State, s: SocketId, k: string)
    requires Local(st, s) && MayHand(st, s) && Recorded(st, k)
    ensures Recorded(DoHand(st, s), k)
  {
    TopicOfKey(k, st.calls[s].name.Key());
  }

  lemma RemoveRecorded(st: State, s: SocketId, k: string)
    requires Local(st, s) && MayRemove(st, s) && Recorded(st, k)
    ensures Recorded(DoRemove(st, s), k)
  {
  }

  lemma LeaveRecorded(st: State, s: SocketId, k: string)
    requires Local(st, s) && MayLeave(st, s) && Recorded(st, k)
    ensures Recorded(DoLeave(st, s), k)
  {
    TopicOfKey(k, st.calls[s].seat.Key());
    OnwardCalls(st, s, st.calls[s].rest);
    hide Onward;
  }

  lemma LedgerRecords(st: State, a: Step)
    requires Local(st, a.s) && Enabled(st, a) && Ledger(st) && Touches(a)
    ensures forall k: string :: Recorded(Apply(st, a), k)
  {
    hide Local, Recorded, DoMake, DoHand, DoRemove, DoLeave, MayMake, MayHand, MayRemove, MayLeave;
    forall k: string ensures Recorded(Apply(st, a), k) {
      assert Recorded(st, k);
      match a
      case Make(s) => MakeRecorded(st, s, k);
      case Hand(s) => HandRecorded(st, s, k);
      case RemoveBase(s) => RemoveRecorded(st, s, k);
      case Leave(s) => LeaveRecorded(st, s, k);
    }
  }

  /** Everything joined is the topic of a key. */
  lemma LedgerTopics(st: State, a: Step)
    requires Enabled(st, a) && Ledger(st) && Touches(a)
    ensures forall t | t in Apply(st, a).joined :: 6 <= |t| && t == T(t[6..])
  {
    hide Recorded, Onward;
    if a.Hand? {
      var k := st.calls[a.s].name.Key();
      assert T(k)[6..] == k;
    }
    if a.Leave? { OnwardCalls(st, a.s, st.calls[a.s].rest); }
  }

  lemma {:induction false} RunKeepsLedger(st: State, steps: seq<Step>, end: State)
    requires Invariant(st) && Ledger(st) && Run(st, steps, end)
    ensures Ledger(end)
    decreases |steps|
  {
    hide Invariant, Ledger, Apply, Enabled;
    if steps != [] {
      StepKeeps(st, steps[0]);
      StepKeepsLedger(st, steps[0]);
      RunKeepsLedger(Apply(st, steps[0]), steps[1..], end);
    }
  }

  lemma ReachableLedger(max: int, st: State)
    requires Reachable(max, st)
    ensures Ledger(st)
  {
    var steps :| Run(Initial(max), steps, st);
    InitialInvariant(max);
    RunKeepsLedger(Initial(max), steps, st);
  }

  /** While nobody holds the lock, the joined topics are those of the channels held, each for the same channel. */
  lemma RelayAgrees(max: int, st: State)
    requires Reachable(max, st) && st.holder == None
    ensures st.joined.Keys == set k | k in st.broker :: T(k)
    ensures forall k | k in st.broker :: st.joined[T(k)] == st.broker[k]
  {
    ReachableLedger(max, st);
    forall k: string ensures Agrees(st, k) {
      assert Recorded(st, k);
    }
    forall k | k in st.broker ensures T(k) in st.joined && st.joined[T(k)] == st.broker[k] {
      assert Agrees(st, k);
    }
    forall t | t in st.joined ensures t in (set k | k in st.broker :: T(k)) {
      assert Agrees(st, t[6..]);
    }
  }

  /**
   * Per name: creations announced less deletions is 1 if the channel is held and 0 if not, and no deletion goes
   * unreported.
   */
  lemma Accounting(max: int, st: State, k: string)
    requires Reachable(max, st) && st.holder == None
    ensures st.log[Created(k)] == st.log[Deleted(k)] + (if k in st.broker then 1 else 0)
    ensures st.log[Deleted(k)] <= st.log[Gone(k)]
  {
    ReachableLedger(max, st);
    assert Recorded(st, k);
  }
}
