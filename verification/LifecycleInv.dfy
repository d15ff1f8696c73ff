/** What every step of the interleaving keeps. */
module LifecycleInv {
  import opened Options
  import opened Sections
  import opened Lifecycle

  // ----- The invariant, one concern at a time -----

  predicate Held(st: State, c: ChanId) {
    c < |st.chans| && st.chans[c].name.Key() in st.broker && st.broker[st.chans[c].name.Key()] == c
  }

  predicate SeatOk(st: State, seat: LiveSeat) {
    seat.channel < |st.chans| && st.chans[seat.channel].name == seat.name && Accepts(seat.grant, seat.name)
  }

  predicate Unwinding(pc: Pc) {
    pc.Leaving? || pc.Dropping? || pc.Removing? || pc.Removed?
  }

  predicate Handed(pc: Pc) {
    pc.Reached? || pc.Seated? || pc.Failed?
  }

  predicate InSection(pc: Pc) {
    pc.Finding? || pc.Making? || pc.Removing? || pc.Removed?
  }

  /** The registry holds a channel under its own name. */
  ghost predicate Registered(st: State) {
    forall k | k in st.broker :: st.broker[k] < |st.chans| && st.chans[st.broker[k]].name.Key() == k
  }

  ghost predicate Seating(st: State) {
    && (forall s | s in st.seats :: st.seats[s] != map[])
    && (forall s, k | s in st.seats && k in st.seats[s] :: st.seats[s][k].Key() == k && SeatOk(st, st.seats[s][k]))
  }

  /** The lock is held exactly by the call inside a section. */
  ghost predicate Locking(st: State) {
    && (forall s | s in st.calls :: InSection(st.calls[s]) <==> st.holder == Some(s))
    && (st.holder.Some? ==> st.holder.value in st.calls)
  }

  /** What a call knows at each point. */
  ghost predicate PcOk(st: State, s: SocketId, pc: Pc) {
    match pc
    case Asking(_, _) => true
    case Reaching(_, _) => true
    case Finding(name, grant, missing) => Accepts(grant, name) && missing == (name.Key() !in st.broker)
    case Making(name, grant, _, c) => Accepts(grant, name) && Held(st, c) && st.chans[c].name == name
    case Reached(seat) => SeatOk(st, seat) && Held(st, seat.channel)
    case Seated(seat) => SeatOk(st, seat) && Held(st, seat.channel) && HasSub(st, seat.channel, s)
    case Failed(seat) => SeatOk(st, seat) && Held(st, seat.channel)
    case Leaving(seat, rest) => SeatOk(st, seat) && forall i | 0 <= i < |rest| :: SeatOk(st, rest[i])
    case Dropping(seat, rest) => SeatOk(st, seat) && forall i | 0 <= i < |rest| :: SeatOk(st, rest[i])
    case Removing(seat, rest) =>
      && SeatOk(st, seat) && (forall i | 0 <= i < |rest| :: SeatOk(st, rest[i]))
      && seat.Key() !in st.joining && Empty(st, seat.channel)
    case Removed(seat, rest, deleted) =>
      && SeatOk(st, seat) && (forall i | 0 <= i < |rest| :: SeatOk(st, rest[i]))
      && (deleted ==> seat.Key() !in st.broker)
  }

  ghost predicate Calling(st: State) {
    forall s | s in st.calls :: PcOk(st, s, st.calls[s])
  }

  predicate Reserves(pc: Pc, key: string) {
    Handed(pc) && pc.seat.Key() == key
  }

  function Reservers(calls: map<SocketId, Pc>, key: string): set<SocketId> {
    set s | s in calls && Reserves(calls[s], key)
  }

  /** A reservation counts the calls between reach and take. */
  ghost predicate Counting(st: State) {
    && (forall k | k in st.joining :: st.joining[k] > 0)
    && (forall k: string :: Reserved(st.joining, k) == |Reservers(st.calls, k)|)
  }

  /** No orphan: a channel with a subscriber is the one the registry holds under its name. */
  ghost predicate NoOrphan(st: State) {
    forall c | 0 <= c < |st.chans| && st.chans[c].subs != {} :: Held(st, c)
  }

  /** A call that will still ask whether this channel can go. */
  predicate Owes(pc: Pc, c: ChanId) {
    (pc.Making? && pc.channel == c) || ((pc.Leaving? || pc.Dropping? || pc.Removing?) && pc.seat.channel == c)
  }

  /** No leak: an empty channel in the registry is reserved, or a call owes it a drop. */
  ghost predicate Covered(st: State) {
    forall k | k in st.broker && Empty(st, st.broker[k]) ::
      k in st.joining || exists s :: s in st.calls && Owes(st.calls[s], st.broker[k])
  }

  /** The seats a call will still record or unsubscribe. */
  function Pending(pc: Pc): seq<LiveSeat> {
    match pc
    case Seated(seat) => [seat]
    case Failed(seat) => [seat]
    case Leaving(seat, rest) => [seat] + rest
    case Dropping(_, rest) => rest
    case Removing(_, rest) => rest
    case Removed(_, rest, _) => rest
    case _ => []
  }

  predicate SeatedOn(st: State, s: SocketId, c: ChanId)
    requires c < |st.chans|
  {
    var key := st.chans[c].name.Key();
    s in st.seats && key in st.seats[s] && st.seats[s][key].channel == c
  }

  predicate Lists(seats: seq<LiveSeat>, c: ChanId) {
    exists i | 0 <= i < |seats| :: seats[i].channel == c
  }

  predicate PendingOn(st: State, s: SocketId, c: ChanId) {
    s in st.calls && Lists(Pending(st.calls[s]), c)
  }

  lemma ListsHead(seat: LiveSeat, rest: seq<LiveSeat>, c: ChanId)
    ensures Lists([seat] + rest, c) <==> seat.channel == c || Lists(rest, c)
  {
    var all := [seat] + rest;
    assert all[0] == seat;
    if i :| 0 <= i < |rest| && rest[i].channel == c {
      assert all[i + 1].channel == c;
    }
    if i :| 0 <= i < |all| && all[i].channel == c && i > 0 {
      assert rest[i - 1].channel == c;
    }
  }

  /** A subscriber has a seat, or its own call is about to record one or take it off. */
  ghost predicate Backed(st: State) {
    forall c, s | 0 <= c < |st.chans| && s in st.chans[c].subs :: SeatedOn(st, s, c) || PendingOn(st, s, c)
  }

  ghost predicate Shut(st: State) {
    forall s | s in st.closed :: s !in st.seats && (s in st.calls ==> Unwinding(st.calls[s]))
  }

  ghost predicate Invariant(st: State) {
    && Registered(st) && Seating(st) && Locking(st) && Calling(st) && Counting(st)
    && NoOrphan(st) && Covered(st) && Backed(st) && Shut(st)
  }

  // ----- A step answers for its own socket; what it may not disturb keeps the rest -----

  ghost predicate CallsFramed(st: State, end: State, s: SocketId) {
    forall t | t != s :: (t in end.calls <==> t in st.calls) && (t in st.calls ==> end.calls[t] == st.calls[t])
  }

  ghost predicate SeatsFramed(st: State, end: State, s: SocketId) {
    && (forall t | t != s :: (t in end.seats <==> t in st.seats) && (t in st.seats ==> end.seats[t] == st.seats[t]))
    && (forall t | t != s :: t in end.closed <==> t in st.closed)
  }

  /** Only s may go on or off, and on only where its own reservation stands. */
  ghost predicate SubsFramed(st: State, end: State, s: SocketId) {
    && |st.chans| <= |end.chans|
    && (forall c | 0 <= c < |st.chans| :: end.chans[c].name == st.chans[c].name)
    && (forall c, t | 0 <= c < |st.chans| && t != s :: t in end.chans[c].subs <==> t in st.chans[c].subs)
    && (forall c | |st.chans| <= c < |end.chans| :: end.chans[c].subs == {})
    && (forall c | 0 <= c < |st.chans| && s in end.chans[c].subs && s !in st.chans[c].subs ::
          Held(st, c) && st.chans[c].name.Key() in st.joining)
  }

  /** The registry changes only under the lock: a name not held gains a new channel, or an empty unreserved one goes. */
  ghost predicate BrokerFramed(st: State, end: State, s: SocketId) {
    && (end.broker != st.broker ==> st.holder == Some(s))
    && (forall k | k in st.broker && k in end.broker :: end.broker[k] == st.broker[k])
    && (forall k | k in st.broker && k !in end.broker :: k !in st.joining && Empty(st, st.broker[k]))
    && (forall k | k in end.broker && k !in st.broker ::
       |st.chans| <= end.broker[k] < |end.chans| && end.chans[end.broker[k]].name.Key() == k)
  }

  ghost predicate LockFramed(st: State, end: State, s: SocketId) {
    && (end.holder != st.holder ==>
       (st.holder == None && end.holder == Some(s)) || (st.holder == Some(s) && end.holder == None))
    && (s in end.calls && InSection(end.calls[s]) <==> end.holder == Some(s))
  }

  ghost predicate JoiningFramed(st: State, end: State, s: SocketId) {
    && (forall k | k in end.joining :: end.joining[k] > 0)
    && (forall k: string :: Reserved(end.joining, k) == Reserved(st.joining, k)
          + (if s in end.calls && Reserves(end.calls[s], k) then 1 else 0)
          - (if s in st.calls && Reserves(st.calls[s], k) then 1 else 0))
    && (forall k | k in end.joining && k !in st.joining :: st.holder == Some(s))
  }

  ghost predicate OwnSeats(end: State, s: SocketId) {
    s in end.seats ==>
      end.seats[s] != map[] && forall k | k in end.seats[s] ::
        end.seats[s][k].Key() == k && SeatOk(end, end.seats[s][k])
  }

  ghost predicate OwnCover(st: State, end: State, s: SocketId) {
    forall k | k in end.broker && Empty(end, end.broker[k]) ::
      || k in end.joining
      || (s in end.calls && Owes(end.calls[s], end.broker[k]))
      || (k in st.broker && Empty(st, st.broker[k]) && k !in st.joining
          && !(s in st.calls && Owes(st.calls[s], st.broker[k])))
  }

  ghost predicate OwnBacking(end: State, s: SocketId) {
    forall c | 0 <= c < |end.chans| && s in end.chans[c].subs :: SeatedOn(end, s, c) || PendingOn(end, s, c)
  }

  ghost predicate OwnShut(end: State, s: SocketId) {
    s in end.closed ==> s !in end.seats && (s in end.calls ==> Unwinding(end.calls[s]))
  }

  ghost predicate Framed(st: State, end: State, s: SocketId) {
    CallsFramed(st, end, s) && SeatsFramed(st, end, s) && SubsFramed(st, end, s)
    && BrokerFramed(st, end, s) && LockFramed(st, end, s) && JoiningFramed(st, end, s)
  }

  ghost predicate Own(st: State, end: State, s: SocketId) {
    && OwnSeats(end, s) && (s in end.calls ==> PcOk(end, s, end.calls[s]))
    && OwnCover(st, end, s) && OwnBacking(end, s) && OwnShut(end, s)
  }

  lemma RegisteredFrom(st: State, end: State, s: SocketId)
    requires Registered(st) && SubsFramed(st, end, s) && BrokerFramed(st, end, s)
    ensures Registered(end)
  {
  }

  lemma SeatingFrom(st: State, end: State, s: SocketId)
    requires Seating(st) && SeatsFramed(st, end, s) && SubsFramed(st, end, s) && OwnSeats(end, s)
    ensures Seating(end)
  {
  }

  lemma LockingFrom(st: State, end: State, s: SocketId)
    requires Locking(st) && CallsFramed(st, end, s) && LockFramed(st, end, s)
    ensures Locking(end)
  {
  }

  lemma CountOf(st: State, end: State, s: SocketId, k: string)
    requires CallsFramed(st, end, s)
    ensures |Reservers(end.calls, k)| == |Reservers(st.calls, k)|
            + (if s in end.calls && Reserves(end.calls[s], k) then 1 else 0)
            - (if s in st.calls && Reserves(st.calls[s], k) then 1 else 0)
  {
    var others := set t | t in st.calls && t != s && Reserves(st.calls[t], k);
    CountSplit(st.calls, s, k, others);
    CountSplit(end.calls, s, k, others);
  }

  lemma CountSplit(calls: map<SocketId, Pc>, s: SocketId, k: string, others: set<SocketId>)
    requires s !in others && forall t | t != s :: t in others <==> t in calls && Reserves(calls[t], k)
    ensures |Reservers(calls, k)| == |others| + (if s in calls && Reserves(calls[s], k) then 1 else 0)
  {
    assert Reservers(calls, k) == if s in calls && Reserves(calls[s], k) then others + {s} else others;
  }

  lemma CountingFrom(st: State, end: State, s: SocketId)
    requires Counting(st) && CallsFramed(st, end, s) && JoiningFramed(st, end, s)
    ensures Counting(end)
  {
    hide Reservers;
    hide CallsFramed;
    forall k: string ensures Reserved(end.joining, k) == |Reservers(end.calls, k)| {
      CountOf(st, end, s, k);
    }
  }

  /** A call between reach and take has its key reserved. */
  lemma ReservedWhileHanded(st: State, t: SocketId)
    requires Counting(st) && t in st.calls && Handed(st.calls[t])
    ensures st.calls[t].seat.Key() in st.joining
  {
    assert t in Reservers(st.calls, st.calls[t].seat.Key());
  }

  /** What is reserved or has subscribers stays held. */
  lemma HeldStays(st: State, end: State, s: SocketId, c: ChanId)
    requires Held(st, c) && SubsFramed(st, end, s) && BrokerFramed(st, end, s)
    requires st.chans[c].name.Key() in st.joining || st.chans[c].subs != {}
    ensures Held(end, c)
  {
  }

  lemma NoOrphanFrom(st: State, end: State, s: SocketId)
    requires NoOrphan(st) && SubsFramed(st, end, s) && BrokerFramed(st, end, s)
    ensures NoOrphan(end)
  {
    forall c | 0 <= c < |end.chans| && end.chans[c].subs != {}
      ensures Held(end, c)
    {
      if st.chans[c].subs == {} {
        var t :| t in end.chans[c].subs;
      }
      HeldStays(st, end, s, c);
    }
  }

  lemma PcStays(st: State, end: State, s: SocketId, t: SocketId)
    requires t != s && t in st.calls && PcOk(st, t, st.calls[t]) && Counting(st) && Locking(st)
    requires SubsFramed(st, end, s) && BrokerFramed(st, end, s) && JoiningFramed(st, end, s)
    ensures PcOk(end, t, st.calls[t])
  {
    hide Counting;
    var pc := st.calls[t];
    if Handed(pc) {
      ReservedWhileHanded(st, t);
      HeldStays(st, end, s, pc.seat.channel);
    }
  }

  lemma CallingFrom(st: State, end: State, s: SocketId)
    requires Calling(st) && Counting(st) && Locking(st)
    requires CallsFramed(st, end, s) && SubsFramed(st, end, s) && BrokerFramed(st, end, s) && JoiningFramed(st, end, s)
    requires s in end.calls ==> PcOk(end, s, end.calls[s])
    ensures Calling(end)
  {
    forall t | t in end.calls ensures PcOk(end, t, end.calls[t]) {
      hide PcOk;
      if t != s {
        PcStays(st, end, s, t);
      }
    }
  }

  lemma CoveredFrom(st: State, end: State, s: SocketId)
    requires Covered(st) && CallsFramed(st, end, s) && BrokerFramed(st, end, s) && OwnCover(st, end, s)
    ensures Covered(end)
  {
    forall k | k in end.broker && Empty(end, end.broker[k])
      ensures k in end.joining || exists t :: t in end.calls && Owes(end.calls[t], end.broker[k])
    {
      if k !in end.joining && !(s in end.calls && Owes(end.calls[s], end.broker[k])) {
        var t :| t in st.calls && Owes(st.calls[t], st.broker[k]);
        assert t in end.calls && Owes(end.calls[t], end.broker[k]);
      }
    }
  }

  lemma BackedFrom(st: State, end: State, s: SocketId)
    requires Backed(st) && CallsFramed(st, end, s) && SeatsFramed(st, end, s) && SubsFramed(st, end, s)
        && OwnBacking(end, s)
    ensures Backed(end)
  {
    forall c, t | 0 <= c < |end.chans| && t in end.chans[c].subs
      ensures SeatedOn(end, t, c) || PendingOn(end, t, c)
    {
      if t != s {
        assert SeatedOn(st, t, c) || PendingOn(st, t, c);
      }
    }
  }

  lemma ShutFrom(st: State, end: State, s: SocketId)
    requires Shut(st) && CallsFramed(st, end, s) && SeatsFramed(st, end, s) && OwnShut(end, s)
    ensures Shut(end)
  {
  }

  lemma Suffices(st: State, end: State, s: SocketId)
    requires Invariant(st) && Framed(st, end, s) && Own(st, end, s)
    ensures Invariant(end)
  {
    RegisteredFrom(st, end, s);
    SeatingFrom(st, end, s);
    LockingFrom(st, end, s);
    CountingFrom(st, end, s);
    NoOrphanFrom(st, end, s);
    CallingFrom(st, end, s);
    CoveredFrom(st, end, s);
    BackedFrom(st, end, s);
    ShutFrom(st, end, s);
  }

  /** What a step may use: the part of the invariant that speaks of its own socket. */
  ghost predicate Local(st: State, s: SocketId) {
    && (s in st.calls ==> PcOk(st, s, st.calls[s]) && (InSection(st.calls[s]) <==> st.holder == Some(s)))
    && (s in st.calls && Handed(st.calls[s]) ==> st.calls[s].seat.Key() in st.joining)
    && (s !in st.calls ==> st.holder != Some(s))
    && (forall k | k in st.joining :: st.joining[k] > 0)
    && OwnSeats(st, s) && OwnBacking(st, s) && OwnShut(st, s)
  }

  lemma LocalOf(st: State, s: SocketId)
    requires Invariant(st)
    ensures Local(st, s)
  {
    hide PcOk;
    if s in st.calls && Handed(st.calls[s]) {
      ReservedWhileHanded(st, s);
    }
  }
}
