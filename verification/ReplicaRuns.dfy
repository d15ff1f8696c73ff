/** Runs in which every browser is right: calls about one person kept apart, and one call at a time. */
module ReplicaRuns {
  import opened Sections
  import opened Channels
  import opened Browsers
  import opened Replica

  // ----- Calls about one person one after the other -----

  /** Some call is still sending word of this person. */
  predicate Underway(st: Net, user: string) {
    exists id ::
      id in st.calls && st.calls[id].Emitting? && Announces(st.calls[id].frame) && Person(st.calls[id].frame) == user
  }

  /**
   * Nothing is decided about a person while word of them is under way, nobody is moved, and lists hold when written.
   */
  ghost predicate Untangled(st: Net, a: Step) {
    match a
    case Arrive(conn, member) =>
      && Moved(st.subs, conn.id, member) == {}
      && (AnnouncesArrival(st.kind, st.subs, conn.id, member.userId) ==> !Underway(st, member.userId))
    case Leave(id) =>
      AnnouncesDeparture(st.kind, st.subs, id) ==> !Underway(st, st.subs[id].member.userId)
    case Confirm(id) => Fresh(st, a)
    case _ => true
  }

  ghost predicate AllAgree(st: Net) {
    forall id | id in st.calls && st.calls[id].Emitting? && Announces(st.calls[id].frame) ::
      Agrees(st.subs, st.calls[id].frame)
  }

  lemma ArriveAgrees(st: Net, conn: Connection, member: Member)
    requires Sound(st) && AllAgree(st) && Enabled(st, Arrive(conn, member)) && Untangled(st, Arrive(conn, member))
    ensures AllAgree(DoArrive(st, conn, member))
  {
    var end := DoArrive(st, conn, member);
    forall user: string
      ensures conn.id in st.subs ==> (Holds(end.subs, user) <==> Holds(st.subs, user))
      ensures conn.id !in st.subs ==> (Holds(end.subs, user) <==> Holds(st.subs, user) || user == member.userId)
    {
      if conn.id in st.subs {
        MovedIs(st.kind, st.subs, conn, member, user);
      } else {
        SeatHolds(st.kind, st.subs, conn, member, user);
      }
    }
    hide Holds, Moved;
    forall id | id in end.calls && end.calls[id].Emitting? && Announces(end.calls[id].frame)
      ensures Agrees(end.subs, end.calls[id].frame)
    {
      if id != conn.id { assert Agrees(st.subs, st.calls[id].frame); }
    }
  }

  lemma LeaveAgrees(st: Net, id: SocketId)
    requires Sound(st) && AllAgree(st) && Enabled(st, Leave(id)) && Untangled(st, Leave(id))
    ensures AllAgree(DoLeave(st, id))
  {
    var end := DoLeave(st, id);
    if id in st.subs {
      forall user: string
        ensures var told := AnnouncesDeparture(st.kind, st.subs, id) && user == st.subs[id].member.userId;
                Holds(end.subs, user) <==> Holds(st.subs, user) && !told
      {
        LeaveHolds(st.kind, st.subs, id, user);
      }
      hide Holds;
      forall i | i in end.calls && end.calls[i].Emitting? && Announces(end.calls[i].frame)
        ensures Agrees(end.subs, end.calls[i].frame)
      {
        if i != id { assert Agrees(st.subs, st.calls[i].frame); }
      }
    } else {
      assert end.subs == st.subs;
    }
  }

  lemma StepUntangled(st: Net, a: Step)
    requires Sound(st) && AllAgree(st) && Enabled(st, a) && Untangled(st, a)
    ensures AllAgree(Apply(st, a)) && Fresh(st, a)
  {
    match a
    case Arrive(conn, member) => ArriveAgrees(st, conn, member);
    case Leave(id) => LeaveAgrees(st, id);
    case _ =>
  }

  ghost predicate UntangledThroughout(st: Net, steps: seq<Step>)
    decreases |steps|
  {
    steps != [] && Enabled(st, steps[0]) ==>
      Untangled(st, steps[0]) && UntangledThroughout(Apply(st, steps[0]), steps[1..])
  }

  lemma {:induction false} RunUntangled(st: Net, steps: seq<Step>, end: Net)
    requires Sound(st) && AllAgree(st) && Run(st, steps, end) && UntangledThroughout(st, steps)
    ensures FreshThroughout(st, steps)
    decreases |steps|
  {
    hide Sound, AllAgree, Enabled, Apply, Fresh, Untangled;
    if steps != [] {
      StepUntangled(st, steps[0]);
      StepSound(st, steps[0]);
      RunUntangled(Apply(st, steps[0]), steps[1..], end);
    }
  }

  /** Calls may overlap as they like, so long as those that announce one person do not. */
  lemma UntangledIsRight(kind: PresenceKind, steps: seq<Step>, end: Net)
    requires Run(Start(kind), steps, end) && UntangledThroughout(Start(kind), steps)
    ensures RightThroughout(Start(kind), steps)
  {
    RunUntangled(Start(kind), steps, end);
    RunExact(Start(kind), steps, end);
  }

  // ----- One call at a time -----

  /** A join or a leave begins when no other is in flight, and a resubscription is as the same person. */
  predicate Alone(st: Net, a: Step) {
    && (a.Arrive? || a.Leave? ==> st.calls == map[])
    && (a.Arrive? && a.conn.id in st.subs ==> a.member.userId == st.subs[a.conn.id].member.userId)
  }

  ghost predicate AloneThroughout(st: Net, steps: seq<Step>)
    decreases |steps|
  {
    steps != [] && Enabled(st, steps[0]) ==> Alone(st, steps[0]) && AloneThroughout(Apply(st, steps[0]), steps[1..])
  }

  ghost predicate OneCall(st: Net) {
    && (forall i, j | i in st.calls && j in st.calls :: i == j)
    && (forall i | i in st.calls && st.calls[i].Listing? :: Describes(st.calls[i].block, st.subs))
  }

  lemma AloneIsUntangled(st: Net, a: Step)
    requires Sound(st) && OneCall(st) && Enabled(st, a) && Alone(st, a)
    ensures Untangled(st, a) && OneCall(Apply(st, a))
  {
    hide Holds, Peopled;
    if a.Confirm? {
      var block := st.calls[a.id].block;
      forall user: string ensures user in block.ids <==> Holds(st.subs, user) { HoldsUsers(st.kind, st.subs, user); }
    }
    hide Describes, Users;
  }

  lemma {:induction false} RunAlone(st: Net, steps: seq<Step>, end: Net)
    requires Sound(st) && OneCall(st) && Run(st, steps, end) && AloneThroughout(st, steps)
    ensures UntangledThroughout(st, steps)
    decreases |steps|
  {
    hide Sound, OneCall, Enabled, Apply, Untangled, Alone;
    if steps != [] {
      AloneIsUntangled(st, steps[0]);
      StepSound(st, steps[0]);
      RunAlone(Apply(st, steps[0]), steps[1..], end);
    }
  }

  /**
   * Over any run of whole joins and leaves, one after the other, whose resubscriptions keep their user: every seated
   * browser's map, folded from the frames it was sent, names exactly the people on the channel.
   */
  lemma AtomicReplica(kind: PresenceKind, steps: seq<Step>, end: Net, t: SocketId)
    requires Run(Start(kind), steps, end) && AloneThroughout(Start(kind), steps) && end.calls == map[] && t in end.subs
    ensures Folded(Wire(end, t)).Keys == Users(end.subs)
  {
    RunAlone(Start(kind), steps, end);
    RunUntangled(Start(kind), steps, end);
    NothingOwedIsExact(kind, steps, end, t);
  }
}
