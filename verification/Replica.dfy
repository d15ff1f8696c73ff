/**
 * One presence channel and every browser on it, announcements and confirmations in flight: when the members' maps are
 * replicas of who is on the channel (protocols/pusher/channels.go, protocols/pusher/protocol.go, client/joaju.js).
 */
module Replica {
  import opened Names
  import opened Options
  import opened Sections
  import opened Channels
  import opened Browsers

  datatype Announcement = Added(user: string) | Removed(user: string)

  /**
   * Where a socket's call is once the channel's lock is released: still sending an announcement to those who were on
   * the channel when it was decided, about to read the member list, or about to write the confirmation made of it.
   */
  datatype Call =
    | Emitting(frame: Frame, to: set<SocketId>, joining: bool)
    | Joined
    | Listing(block: Block)

  /** Either of the kinds of channel that know who is on them. */
  type PresenceKind = kind: Kind | kind.IsPresence() witness Presence

  datatype Net = Net(kind: PresenceKind, subs: Subscribers, calls: map<SocketId, Call>,
    wire: map<SocketId, seq<Frame>>, log: seq<Announcement>)

  function Start(kind: PresenceKind): Net {
    Net(kind, map[], map[], map[], [])
  }

  /**
   * Arrive and Leave are the channel's critical sections. Deliver is one Send of an announcement one of them decided,
   * in any order and with anything in between. Other is any frame that is not about members.
   */
  datatype Step =
    | Arrive(conn: Connection, member: Member)
    | Leave(id: SocketId)
    | Deliver(id: SocketId, to: SocketId)
    | Emitted(id: SocketId)
    | Snapshot(id: SocketId, block: Block)
    | Confirm(id: SocketId)
    | Other(id: SocketId, frame: Frame)

  function Wire(st: Net, id: SocketId): seq<Frame> {
    if id in st.wire then st.wire[id] else []
  }

  function Sent(st: Net, id: SocketId, f: Frame): map<SocketId, seq<Frame>> {
    st.wire[id := Wire(st, id) + [f]]
  }

  predicate Announces(f: Frame) {
    f.MemberAdded? || f.MemberRemoved?
  }

  function Person(f: Frame): string
    requires Announces(f)
  {
    if f.MemberAdded? then f.member.userId else f.userId
  }

  ghost predicate Enabled(st: Net, a: Step) {
    match a
    case Arrive(conn, member) => conn.id != "" && conn.id !in st.calls && member.userId != ""
    case Leave(id) => id !in st.calls
    case Deliver(id, t) => id in st.calls && st.calls[id].Emitting? && t in st.calls[id].to
    case Emitted(id) => id in st.calls && st.calls[id].Emitting? && st.calls[id].to == {}
    case Snapshot(id, block) => id in st.calls && st.calls[id].Joined? && Describes(block, st.subs)
    case Confirm(id) => id in st.calls && st.calls[id].Listing?
    case Other(_, frame) => frame.Message? || frame.CacheMiss?
  }

  function DoArrive(st: Net, conn: Connection, member: Member): Net {
    var announce := AnnouncesArrival(st.kind, st.subs, conn.id, member.userId);
    Net(st.kind,
        Seated(st.kind, st.subs, conn, member),
        st.calls[conn.id := if announce then Emitting(MemberAdded(member), st.subs.Keys, true) else Joined],
        st.wire,
        if announce then st.log + [Added(member.userId)] else st.log)
  }

  function DoLeave(st: Net, id: SocketId): Net {
    var rest := st.subs - {id};
    if AnnouncesDeparture(st.kind, st.subs, id) then
      var user := st.subs[id].member.userId;
      Net(st.kind, rest, st.calls[id := Emitting(MemberRemoved(user), rest.Keys, false)], st.wire,
          st.log + [Removed(user)])
    else st.(subs := rest)
  }

  function DoDeliver(st: Net, id: SocketId, t: SocketId): Net
    requires id in st.calls && st.calls[id].Emitting?
  {
    var call := st.calls[id];
    st.(calls := st.calls[id := call.(to := call.to - {t})], wire := Sent(st, t, call.frame))
  }

  function DoEmitted(st: Net, id: SocketId): Net
    requires id in st.calls && st.calls[id].Emitting?
  {
    st.(calls := if st.calls[id].joining then st.calls[id := Joined] else st.calls - {id})
  }

  function DoConfirm(st: Net, id: SocketId): Net
    requires id in st.calls && st.calls[id].Listing?
  {
    st.(calls := st.calls - {id}, wire := Sent(st, id, Succeeded(Some(st.calls[id].block))))
  }

  ghost function Apply(st: Net, a: Step): Net
    requires Enabled(st, a)
  {
    match a
    case Arrive(conn, member) => DoArrive(st, conn, member)
    case Leave(id) => DoLeave(st, id)
    case Deliver(id, t) => DoDeliver(st, id, t)
    case Emitted(id) => DoEmitted(st, id)
    case Snapshot(id, block) => st.(calls := st.calls[id := Listing(block)])
    case Confirm(id) => DoConfirm(st, id)
    case Other(id, frame) => st.(wire := Sent(st, id, frame))
  }

  ghost predicate Run(st: Net, steps: seq<Step>, end: Net)
    decreases |steps|
  {
    if steps == [] then end == st else Enabled(st, steps[0]) && Run(Apply(st, steps[0]), steps[1..], end)
  }

  predicate InJoin(c: Call) {
    c.Emitting? ==> c.joining
  }

  ghost predicate Sound(st: Net) {
    && Peopled(st.kind, st.subs)
    && (forall id | id in st.calls && st.calls[id].Emitting? :: Announces(st.calls[id].frame))
    && (forall id | id in st.calls && InJoin(st.calls[id]) :: id in st.subs)
  }

  lemma StepSound(st: Net, a: Step)
    requires Sound(st) && Enabled(st, a)
    ensures Sound(Apply(st, a)) && Apply(st, a).kind == st.kind
  {
  }

  // ----- Being right -----

  /** This call has still to tell this socket something about this person. */
  predicate Tells(c: Call, t: SocketId, user: string) {
    c.Emitting? && t in c.to && Announces(c.frame) && Person(c.frame) == user
  }

  predicate Owes(st: Net, t: SocketId, user: string) {
    exists id :: id in st.calls && Tells(st.calls[id], t, user)
  }

  /** On the channel, with the confirmation of the last subscription written. */
  predicate Settled(st: Net, t: SocketId) {
    t in st.subs && (t in st.calls ==> !InJoin(st.calls[t]))
  }

  predicate Knows(st: Net, t: SocketId, user: string) {
    user in Folded(Wire(st, t)) <==> Holds(st.subs, user)
  }

  predicate RightAbout(st: Net, t: SocketId, user: string) {
    Settled(st, t) && !Owes(st, t, user) ==> Knows(st, t, user)
  }

  /** Every confirmed browser is right about every person it is owed nothing about. */
  ghost predicate AllRight(st: Net) {
    forall t, user :: RightAbout(st, t, user)
  }

  /** Who a resubscription takes off the channel or brings onto it, without a word to anybody. */
  function Moved(subs: Subscribers, id: SocketId, member: Member): set<string> {
    if id !in subs || member.userId == subs[id].member.userId then {} else
      var rest := subs - {id};
      var was := subs[id].member.userId;
      (if Holds(rest, was) then {} else {was}) + (if Holds(rest, member.userId) then {} else {member.userId})
  }

  /** Of what is on its way to this browser about the same person, this is the last. */
  predicate Last(st: Net, id: SocketId, t: SocketId)
    requires id in st.calls && st.calls[id].Emitting? && Announces(st.calls[id].frame)
  {
    forall i | i in st.calls && i != id :: !Tells(st.calls[i], t, Person(st.calls[id].frame))
  }

  /** The announcement still says how things are. */
  predicate Agrees(subs: Subscribers, f: Frame)
    requires Announces(f)
  {
    f.MemberAdded? <==> Holds(subs, Person(f))
  }

  /**
   * What a step must meet. A resubscription moves nobody, unless all who would miss it are owed word of that person. A
   * confirmation's list is right about everybody its browser is not owed word of. The last of the announcements about
   * one person to reach a confirmed browser still says how things are.
   */
  ghost predicate Fresh(st: Net, a: Step) {
    match a
    case Arrive(conn, member) =>
      forall user, t | user in Moved(st.subs, conn.id, member) && t != conn.id && Settled(st, t) :: Owes(st, t, user)
    case Confirm(id) =>
      id in st.calls && st.calls[id].Listing? ==>
        forall user | !Owes(st, id, user) :: user in st.calls[id].block.ids <==> Holds(st.subs, user)
    case Deliver(id, t) =>
      id in st.calls && st.calls[id].Emitting? && Announces(st.calls[id].frame) && Settled(st, t) && Last(st, id, t) ==>
        Agrees(st.subs, st.calls[id].frame)
    case _ => true
  }

  // ----- Who is there after a step -----

  lemma HoldsUsers(kind: PresenceKind, subs: Subscribers, user: string)
    requires Peopled(kind, subs)
    ensures Holds(subs, user) <==> user in Users(subs)
  {
  }

  lemma OneMore(subs: Subscribers, rest: Subscribers, id: SocketId, user: string)
    requires id in subs && rest == subs - {id} && subs[id].member.userId != ""
    ensures Holds(subs, user) <==> Holds(rest, user) || user == subs[id].member.userId
  {
    if t :| t in subs && subs[t].member.userId == user && t != id { assert rest[t].member.userId == user; }
    if t :| t in rest && rest[t].member.userId == user { assert subs[t].member.userId == user; }
  }

  lemma MovedIs(kind: PresenceKind, subs: Subscribers, conn: Connection, member: Member, user: string)
    requires Peopled(kind, subs) && conn.id in subs && member.userId != ""
    ensures Holds(Seated(kind, subs, conn, member), user)
            <==> (Holds(subs, user) != (user in Moved(subs, conn.id, member)))
  {
    var rest := subs - {conn.id};
    var end := Seated(kind, subs, conn, member);
    assert end - {conn.id} == rest;
    OneMore(subs, rest, conn.id, user);
    OneMore(end, rest, conn.id, user);
  }

  lemma SeatHolds(kind: PresenceKind, subs: Subscribers, conn: Connection, member: Member, user: string)
    requires conn.id !in subs && member.userId != ""
    ensures Holds(Seated(kind, subs, conn, member), user) <==> Holds(subs, user) || user == member.userId
  {
    var end := Seated(kind, subs, conn, member);
    assert end - {conn.id} == subs;
    OneMore(end, subs, conn.id, user);
  }

  lemma LeaveHolds(kind: PresenceKind, subs: Subscribers, id: SocketId, user: string)
    requires Peopled(kind, subs) && id in subs
    ensures Holds(subs - {id}, user)
            <==> Holds(subs, user) && !(AnnouncesDeparture(kind, subs, id) && user == subs[id].member.userId)
  {
    OneMore(subs, subs - {id}, id, user);
  }

  // ----- Exactly when a step keeps every browser right -----

  lemma ArrivalRight(st: Net, conn: Connection, member: Member, t: SocketId, user: string)
    requires Sound(st) && Enabled(st, Arrive(conn, member)) && conn.id !in st.subs && RightAbout(st, t, user)
    ensures RightAbout(DoArrive(st, conn, member), t, user)
  {
    var end := DoArrive(st, conn, member);
    SeatHolds(st.kind, st.subs, conn, member, user);
    hide Holds, Folded;
    if t != conn.id {
      OwesStays(st, end, conn.id, t, user);
    }
  }

  /** Another call's debts do not change with this call's, nor does a call that has none yet take any away. */
  lemma OwesStays(st: Net, end: Net, id: SocketId, t: SocketId, user: string)
    requires forall i | i in st.calls && i != id :: i in end.calls && end.calls[i] == st.calls[i]
    requires forall i | i in end.calls && i != id :: i in st.calls
    ensures Owes(end, t, user) <==>
              (id in end.calls && Tells(end.calls[id], t, user))
              || exists i :: i in st.calls && i != id && Tells(st.calls[i], t, user)
  {
    hide Tells;
    if Owes(end, t, user) {
      var i :| i in end.calls && Tells(end.calls[i], t, user);
      assert i != id ==> Tells(st.calls[i], t, user);
    }
    if i :| i in st.calls && i != id && Tells(st.calls[i], t, user) {
      assert Tells(end.calls[i], t, user);
    }
  }

  lemma ResubscriptionAt(st: Net, conn: Connection, member: Member, t: SocketId, user: string)
    requires Sound(st) && Enabled(st, Arrive(conn, member)) && conn.id in st.subs && RightAbout(st, t, user)
    ensures RightAbout(DoArrive(st, conn, member), t, user)
            <==> (user in Moved(st.subs, conn.id, member) && t != conn.id && Settled(st, t) ==> Owes(st, t, user))
  {
    var end := DoArrive(st, conn, member);
    MovedIs(st.kind, st.subs, conn, member, user);
    OwesStays(st, end, conn.id, t, user);
    hide Holds, Folded, Moved;
  }

  /**
   * A resubscription keeps every browser right exactly if whoever would miss the people it moves is owed word of them.
   */
  lemma ResubscriptionExact(st: Net, conn: Connection, member: Member)
    requires Sound(st) && AllRight(st) && Enabled(st, Arrive(conn, member)) && conn.id in st.subs
    ensures AllRight(DoArrive(st, conn, member)) <==> Fresh(st, Arrive(conn, member))
  {
    hide RightAbout, Moved, Settled, Owes, Enabled, Sound, DoArrive;
    forall t, user
      ensures RightAbout(DoArrive(st, conn, member), t, user)
              <==> (user in Moved(st.subs, conn.id, member) && t != conn.id && Settled(st, t) ==> Owes(st, t, user))
    {
      ResubscriptionAt(st, conn, member, t, user);
    }
  }

  lemma LeaveRight(st: Net, id: SocketId, t: SocketId, user: string)
    requires Sound(st) && Enabled(st, Leave(id)) && RightAbout(st, t, user)
    ensures RightAbout(DoLeave(st, id), t, user)
  {
    var end := DoLeave(st, id);
    if id in st.subs { LeaveHolds(st.kind, st.subs, id, user); } else { assert end.subs == st.subs; }
    OwesStays(st, end, id, t, user);
    hide Holds, Folded;
  }

  lemma DeliverOwes(st: Net, id: SocketId, to: SocketId, t: SocketId, user: string)
    requires Sound(st) && Enabled(st, Deliver(id, to))
    ensures var about := t == to && user == Person(st.calls[id].frame);
            Owes(DoDeliver(st, id, to), t, user) <==> if about then !Last(st, id, to) else Owes(st, t, user)
  {
    OwesStays(st, DoDeliver(st, id, to), id, t, user);
    OwesStays(st, st, id, t, user);
    hide Holds, Folded, Owes, Peopled;
  }

  lemma DeliverKnows(st: Net, id: SocketId, to: SocketId, t: SocketId, user: string)
    requires Sound(st) && Enabled(st, Deliver(id, to))
    ensures var frame := st.calls[id].frame;
            Knows(DoDeliver(st, id, to), t, user)
            <==> if t == to && user == Person(frame) then Agrees(st.subs, frame) else Knows(st, t, user)
  {
    FoldedMore(Wire(st, t), st.calls[id].frame);
    hide Holds, Folded, Peopled;
  }

  lemma DeliverAt(st: Net, id: SocketId, to: SocketId, t: SocketId, user: string)
    requires Sound(st) && Enabled(st, Deliver(id, to)) && RightAbout(st, t, user)
    ensures var frame := st.calls[id].frame;
            RightAbout(DoDeliver(st, id, to), t, user)
            <==> (t == to && user == Person(frame) && Settled(st, to) && Last(st, id, to) ==> Agrees(st.subs, frame))
  {
    DeliverOwes(st, id, to, t, user);
    DeliverKnows(st, id, to, t, user);
    assert Settled(DoDeliver(st, id, to), t) <==> Settled(st, t);
    hide DoDeliver, Owes, Knows, Settled, Agrees, Last, Tells, Sound;
  }

  /**
   * A delivery keeps every browser right exactly if it is not the last about its person, or still says how things are.
   */
  lemma DeliverExact(st: Net, id: SocketId, to: SocketId)
    requires Sound(st) && AllRight(st) && Enabled(st, Deliver(id, to))
    ensures AllRight(DoDeliver(st, id, to)) <==> Fresh(st, Deliver(id, to))
  {
    var end := DoDeliver(st, id, to);
    var frame := st.calls[id].frame;
    forall t, user
      ensures RightAbout(end, t, user)
              <==> (t == to && user == Person(frame) && Settled(st, to) && Last(st, id, to) ==> Agrees(st.subs, frame))
    {
      DeliverAt(st, id, to, t, user);
    }
    hide RightAbout, DoDeliver, Settled, Last, Agrees;
    if AllRight(end) { assert RightAbout(end, to, Person(frame)); }
  }

  lemma ConfirmAt(st: Net, id: SocketId, t: SocketId, user: string)
    requires Sound(st) && Enabled(st, Confirm(id)) && RightAbout(st, t, user)
    ensures RightAbout(DoConfirm(st, id), t, user)
            <==> (t == id && !Owes(st, id, user) ==> (user in st.calls[id].block.ids <==> Holds(st.subs, user)))
  {
    var end := DoConfirm(st, id);
    FoldedMore(Wire(st, id), Succeeded(Some(st.calls[id].block)));
    OwesStays(st, end, id, t, user);
    OwesStays(st, st, id, t, user);
    hide Holds, Folded, Owes;
  }

  /** A confirmation keeps every browser right exactly if its list still names those who are on the channel. */
  lemma ConfirmExact(st: Net, id: SocketId)
    requires Sound(st) && AllRight(st) && Enabled(st, Confirm(id))
    ensures AllRight(DoConfirm(st, id)) <==> Fresh(st, Confirm(id))
  {
    forall t, user
      ensures RightAbout(DoConfirm(st, id), t, user)
              <==> (t == id && !Owes(st, id, user) ==> (user in st.calls[id].block.ids <==> Holds(st.subs, user)))
    {
      ConfirmAt(st, id, t, user);
    }
    hide RightAbout, DoConfirm, Owes, Holds;
    if AllRight(DoConfirm(st, id)) {
      forall user | !Owes(st, id, user) ensures user in st.calls[id].block.ids <==> Holds(st.subs, user) {
        assert RightAbout(DoConfirm(st, id), id, user);
      }
    }
  }

  /** The call moves on; what is on the channel, on the wire and on its way stays. */
  lemma MovesOnRight(st: Net, a: Step, t: SocketId, user: string)
    requires Sound(st) && Enabled(st, a) && (a.Emitted? || a.Snapshot?) && RightAbout(st, t, user)
    ensures RightAbout(Apply(st, a), t, user)
  {
    OwesStays(st, Apply(st, a), a.id, t, user);
    OwesStays(st, st, a.id, t, user);
    hide Holds, Folded, Owes, Describes;
  }

  lemma OtherRight(st: Net, id: SocketId, frame: Frame, t: SocketId, user: string)
    requires Enabled(st, Other(id, frame)) && RightAbout(st, t, user)
    ensures RightAbout(Apply(st, Other(id, frame)), t, user)
  {
    FoldedMore(Wire(st, t), frame);
    hide Holds, Folded;
  }

  lemma StepExact(st: Net, a: Step)
    requires Sound(st) && AllRight(st) && Enabled(st, a)
    ensures AllRight(Apply(st, a)) <==> Fresh(st, a)
  {
    hide RightAbout, Sound, DoArrive, DoLeave, DoDeliver, DoEmitted, DoConfirm;
    match a
    case Arrive(conn, member) =>
      if conn.id in st.subs {
        ResubscriptionExact(st, conn, member);
      } else {
        forall t, user ensures RightAbout(DoArrive(st, conn, member), t, user) {
          ArrivalRight(st, conn, member, t, user);
        }
      }
    case Leave(id) =>
      forall t, user ensures RightAbout(DoLeave(st, id), t, user) { LeaveRight(st, id, t, user); }
    case Deliver(id, t) => DeliverExact(st, id, t);
    case Confirm(id) => ConfirmExact(st, id);
    case Other(id, frame) =>
      forall t, user ensures RightAbout(Apply(st, a), t, user) { OtherRight(st, id, frame, t, user); }
    case _ =>
      forall t, user ensures RightAbout(Apply(st, a), t, user) { MovesOnRight(st, a, t, user); }
  }

  // ----- Over any run -----

  /** At the start and after every step. */
  ghost predicate RightThroughout(st: Net, steps: seq<Step>)
    decreases |steps|
  {
    AllRight(st) && (steps != [] && Enabled(st, steps[0]) ==> RightThroughout(Apply(st, steps[0]), steps[1..]))
  }

  ghost predicate FreshThroughout(st: Net, steps: seq<Step>)
    decreases |steps|
  {
    steps != [] && Enabled(st, steps[0]) ==> Fresh(st, steps[0]) && FreshThroughout(Apply(st, steps[0]), steps[1..])
  }

  lemma {:induction false} RunSound(st: Net, steps: seq<Step>, end: Net)
    requires Sound(st) && Run(st, steps, end)
    ensures Sound(end) && end.kind == st.kind
    decreases |steps|
  {
    hide Sound, Enabled, Apply;
    if steps != [] {
      StepSound(st, steps[0]);
      RunSound(Apply(st, steps[0]), steps[1..], end);
    }
  }

  lemma {:induction false} RunExact(st: Net, steps: seq<Step>, end: Net)
    requires Sound(st) && AllRight(st) && Run(st, steps, end)
    ensures RightThroughout(st, steps) <==> FreshThroughout(st, steps)
    ensures FreshThroughout(st, steps) ==> AllRight(end)
    decreases |steps|
  {
    hide Sound, AllRight, Enabled, Apply, Fresh;
    if steps != [] {
      StepExact(st, steps[0]);
      StepSound(st, steps[0]);
      if AllRight(Apply(st, steps[0])) {
        RunExact(Apply(st, steps[0]), steps[1..], end);
      }
    }
  }

  /**
   * Every confirmed browser is right about everybody it is owed nothing about, throughout a run iff every step is
   * fresh.
   */
  lemma ReplicaExact(kind: PresenceKind, steps: seq<Step>, end: Net)
    requires Run(Start(kind), steps, end)
    ensures RightThroughout(Start(kind), steps) <==> FreshThroughout(Start(kind), steps)
  {
    RunExact(Start(kind), steps, end);
  }

  /** And then a confirmed browser that is owed nothing at all names exactly the people on the channel. */
  lemma NothingOwedIsExact(kind: PresenceKind, steps: seq<Step>, end: Net, t: SocketId)
    requires Run(Start(kind), steps, end) && FreshThroughout(Start(kind), steps)
    requires Settled(end, t) && forall user :: !Owes(end, t, user)
    ensures Folded(Wire(end, t)).Keys == Users(end.subs)
  {
    RunExact(Start(kind), steps, end);
    RunSound(Start(kind), steps, end);
    forall user: string ensures user in Folded(Wire(end, t)) <==> user in Users(end.subs) {
      assert RightAbout(end, t, user);
      HoldsUsers(end.kind, end.subs, user);
    }
  }
}
