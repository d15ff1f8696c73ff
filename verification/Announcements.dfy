/**
 * What a presence channel decides to announce of each person, and when it alternates (protocols/pusher/channels.go).
 * The decisions are made under the channel's lock; when they are delivered is another matter (Replica.dfy).
 */
module Announcements {
  import opened Sections
  import opened Options
  import opened Channels
  import opened Replica

  /**
   * Whether the last announcement of a person was of their arrival; None once two of a kind came one after the other.
   */
  function Standing(log: seq<Announcement>, user: string): Option<bool> {
    if log == [] then Some(false)
    else
      var before := Standing(log[..|log| - 1], user);
      match log[|log| - 1]
      case Added(u) => if u != user then before else if before == Some(false) then Some(true) else None
      case Removed(u) => if u != user then before else if before == Some(true) then Some(false) else None
  }

  lemma StandingMore(log: seq<Announcement>, a: Announcement, user: string)
    ensures Standing(log + [a], user) ==
            if a.user != user then Standing(log, user)
            else if Standing(log, user) == Some(a.Removed?) then Some(a.Added?) else None
  {
    assert (log + [a])[..|log|] == log;
  }

  /** Arrivals announced less departures: one while the last of them was an arrival, none otherwise. */
  lemma {:induction false} StandingCounts(log: seq<Announcement>, user: string)
    requires Standing(log, user).Some?
    ensures multiset(log)[Added(user)] == multiset(log)[Removed(user)] + if Standing(log, user).value then 1 else 0
  {
    if log != [] {
      assert log == log[..|log| - 1] + [log[|log| - 1]];
      StandingCounts(log[..|log| - 1], user);
    }
  }

  /** Everybody's announcements alternate, an arrival first. */
  ghost predicate Alternating(st: Net) {
    forall user: string :: Standing(st.log, user).Some?
  }

  /** And the last of them says whether the person is there. */
  ghost predicate LastWord(st: Net) {
    forall user: string :: Standing(st.log, user) == Some(Holds(st.subs, user))
  }

  // ----- What one step announces, and what it moves without announcing -----

  function Announced(st: Net, a: Step): Option<string> {
    match a
    case Arrive(conn, member) =>
      if AnnouncesArrival(st.kind, st.subs, conn.id, member.userId) then Some(member.userId) else None
    case Leave(id) => if AnnouncesDeparture(st.kind, st.subs, id) then Some(st.subs[id].member.userId) else None
    case _ => None
  }

  function MovedBy(st: Net, a: Step): set<string> {
    if a.Arrive? then Moved(st.subs, a.conn.id, a.member) else {}
  }

  /** Moved twice is back where the last announcement left them. */
  function MovedAfter(moved: set<string>, more: set<string>): set<string> {
    (moved - more) + (more - moved)
  }

  /** The last announcement of a person says whether they are there, unless resubscriptions have moved them since. */
  ghost predicate Tracks(st: Net, moved: set<string>) {
    forall user: string :: Standing(st.log, user) == Some(Holds(st.subs, user) != (user in moved))
  }

  lemma ArriveStanding(st: Net, conn: Connection, member: Member, user: string)
    requires Sound(st) && Enabled(st, Arrive(conn, member))
    ensures var end := DoArrive(st, conn, member);
            var told := Announced(st, Arrive(conn, member)) == Some(user);
            && (told ==> !Holds(st.subs, user) && Holds(end.subs, user))
            && (!told ==> (Holds(end.subs, user) <==>
                  (Holds(st.subs, user) != (user in Moved(st.subs, conn.id, member)))))
            && Standing(end.log, user) ==
               if !told then Standing(st.log, user) else if Standing(st.log, user) == Some(false) then Some(true)
                 else None
  {
    StandingMore(st.log, Added(member.userId), user);
    if conn.id in st.subs {
      MovedIs(st.kind, st.subs, conn, member, user);
    } else {
      SeatHolds(st.kind, st.subs, conn, member, user);
    }
    hide Holds, Standing;
  }

  lemma LeaveStanding(st: Net, id: SocketId, user: string)
    requires Sound(st) && Enabled(st, Leave(id))
    ensures var end := DoLeave(st, id);
            var told := Announced(st, Leave(id)) == Some(user);
            && (told ==> Holds(st.subs, user) && !Holds(end.subs, user))
            && (!told ==> (Holds(end.subs, user) <==> Holds(st.subs, user)))
            && Standing(end.log, user) ==
               if !told then Standing(st.log, user) else if Standing(st.log, user) == Some(true) then Some(false)
                 else None
  {
    var end := DoLeave(st, id);
    if id in st.subs {
      var was := st.subs[id].member.userId;
      StandingMore(st.log, Removed(was), user);
      LeaveHolds(st.kind, st.subs, id, user);
      OneMore(st.subs, st.subs - {id}, id, user);
    } else {
      assert end.subs == st.subs;
    }
    hide Holds, Standing;
  }

  lemma StepStanding(st: Net, a: Step, user: string)
    requires Sound(st) && Enabled(st, a)
    ensures var end := Apply(st, a);
            var told := Announced(st, a) == Some(user);
            && (told ==> Holds(end.subs, user) == !Holds(st.subs, user))
            && (!told ==> (Holds(end.subs, user) == (Holds(st.subs, user) != (user in MovedBy(st, a)))))
            && Standing(end.log, user) ==
               if !told then Standing(st.log, user)
               else if Standing(st.log, user) == Some(Holds(st.subs, user)) then Some(Holds(end.subs, user)) else None
  {
    hide Sound, Moved, Holds, Standing;
    match a
    case Arrive(conn, member) => ArriveStanding(st, conn, member, user);
    case Leave(id) => LeaveStanding(st, id, user);
    case _ => assert Apply(st, a).subs == st.subs && Apply(st, a).log == st.log;
  }

  lemma MovedOrAnnounced(st: Net, a: Step)
    ensures Announced(st, a).Some? ==> MovedBy(st, a) == {}
  {
  }

  // ----- Plain alternation -----

  /** The step announces nobody resubscriptions have moved. */
  predicate Unmoved(st: Net, moved: set<string>, a: Step) {
    Announced(st, a).Some? ==> Announced(st, a).value !in moved
  }

  lemma StepAlternates(st: Net, moved: set<string>, a: Step)
    requires Sound(st) && Tracks(st, moved) && Enabled(st, a)
    ensures Unmoved(st, moved, a) ==> Tracks(Apply(st, a), MovedAfter(moved, MovedBy(st, a)))
    ensures Alternating(Apply(st, a)) <==> Unmoved(st, moved, a)
  {
    MovedOrAnnounced(st, a);
    hide Sound, Apply, Enabled, Announced, MovedBy, Holds, Standing;
    var end := Apply(st, a);
    var after := MovedAfter(moved, MovedBy(st, a));
    forall user: string
      ensures Unmoved(st, moved, a) ==> Standing(end.log, user) == Some(Holds(end.subs, user) != (user in after))
      ensures Standing(end.log, user) == None <==> Announced(st, a) == Some(user) && user in moved
    {
      StepStanding(st, a, user);
    }
  }

  ghost predicate AlternatesThroughout(st: Net, steps: seq<Step>)
    decreases |steps|
  {
    Alternating(st) && (steps != [] && Enabled(st, steps[0]) ==> AlternatesThroughout(Apply(st, steps[0]), steps[1..]))
  }

  /**
   * No step of the run announces anybody whom resubscriptions have moved an odd number of times since their last word.
   */
  ghost predicate UnmovedThroughout(st: Net, moved: set<string>, steps: seq<Step>)
    decreases |steps|
  {
    steps != [] && Enabled(st, steps[0]) ==>
      && Unmoved(st, moved, steps[0])
      && UnmovedThroughout(Apply(st, steps[0]), MovedAfter(moved, MovedBy(st, steps[0])), steps[1..])
  }

  lemma {:induction false} RunAlternates(st: Net, moved: set<string>, steps: seq<Step>, end: Net)
    requires Sound(st) && Tracks(st, moved) && Run(st, steps, end)
    ensures AlternatesThroughout(st, steps) <==> UnmovedThroughout(st, moved, steps)
    decreases |steps|
  {
    assert Alternating(st);
    hide Sound, Alternating, Tracks, Enabled, Apply, Unmoved, MovedBy, MovedAfter;
    if steps != [] {
      StepAlternates(st, moved, steps[0]);
      StepSound(st, steps[0]);
      if Unmoved(st, moved, steps[0]) {
        RunAlternates(Apply(st, steps[0]), MovedAfter(moved, MovedBy(st, steps[0])), steps[1..], end);
      }
    }
  }

  /** Over any run everybody's announcements alternate if and only if none is of a person resubscriptions had moved. */
  lemma AlternationExact(kind: PresenceKind, steps: seq<Step>, end: Net)
    requires Run(Start(kind), steps, end)
    ensures AlternatesThroughout(Start(kind), steps) <==> UnmovedThroughout(Start(kind), {}, steps)
  {
    RunAlternates(Start(kind), {}, steps, end);
  }

  // ----- The last word -----

  lemma StepLastWord(st: Net, a: Step)
    requires Sound(st) && LastWord(st) && Enabled(st, a)
    ensures LastWord(Apply(st, a)) <==> MovedBy(st, a) == {}
  {
    hide Sound, Apply, Enabled, Holds, Standing;
    MovedOrAnnounced(st, a);
    hide Announced, MovedBy;
    var end := Apply(st, a);
    forall user: string
      ensures Standing(end.log, user) == Some(Holds(end.subs, user)) <==> user !in MovedBy(st, a)
    {
      StepStanding(st, a, user);
    }
    if LastWord(end) {
      assert forall user | user in MovedBy(st, a) :: Standing(end.log, user) == Some(Holds(end.subs, user));
    }
  }

  ghost predicate LastWordThroughout(st: Net, steps: seq<Step>)
    decreases |steps|
  {
    LastWord(st) && (steps != [] && Enabled(st, steps[0]) ==> LastWordThroughout(Apply(st, steps[0]), steps[1..]))
  }

  ghost predicate NobodyMoved(st: Net, steps: seq<Step>)
    decreases |steps|
  {
    steps != [] && Enabled(st, steps[0]) ==> MovedBy(st, steps[0]) == {} && NobodyMoved(Apply(st, steps[0]), steps[1..])
  }

  lemma {:induction false} RunLastWord(st: Net, steps: seq<Step>, end: Net)
    requires Sound(st) && LastWord(st) && Run(st, steps, end)
    ensures LastWordThroughout(st, steps) <==> NobodyMoved(st, steps)
    decreases |steps|
  {
    hide Sound, LastWord, Enabled, Apply, MovedBy;
    if steps != [] {
      StepLastWord(st, steps[0]);
      StepSound(st, steps[0]);
      if MovedBy(st, steps[0]) == {} {
        RunLastWord(Apply(st, steps[0]), steps[1..], end);
      }
    }
  }

  /**
   * Over any run they alternate and end in an arrival exactly while the person is there iff no resubscription moves
   * anybody.
   */
  lemma LastWordExact(kind: PresenceKind, steps: seq<Step>, end: Net)
    requires Run(Start(kind), steps, end)
    ensures LastWordThroughout(Start(kind), steps) <==> NobodyMoved(Start(kind), steps)
  {
    RunLastWord(Start(kind), steps, end);
  }
}
