/** Runs from the start in which a browser ends up wrong, one for each way there is. */
module ReplicaFailures {
  import opened Options
  import opened Ordering
  import opened Sections
  import opened Channels
  import opened Browsers
  import opened Replica
  import opened Announcements

  // ----- Whole joins -----

  lemma RunsOn(st: Net, a: Step, mid: Net, steps: seq<Step>, end: Net)
    requires Enabled(st, a) && Apply(st, a) == mid && Run(mid, steps, end)
    ensures Run(st, [a] + steps, end)
  {
    hide Enabled, Apply;
    assert ([a] + steps)[1..] == steps;
  }

  lemma {:induction false} RunAppend(st: Net, a: seq<Step>, mid: Net, b: seq<Step>, end: Net)
    requires Run(st, a, mid) && Run(mid, b, end)
    ensures Run(st, a + b, end)
    decreases |a|
  {
    hide Apply, Enabled;
    if a == [] {
      assert a + b == b;
    } else {
      assert (a + b)[0] == a[0] && (a + b)[1..] == a[1..] + b;
      RunAppend(Apply(st, a[0]), a[1..], mid, b, end);
    }
  }

  /** An announcement reaches everybody it was for. */
  lemma {:induction false} DeliversAll(st: Net, id: SocketId) returns (steps: seq<Step>, end: Net)
    requires id in st.calls && st.calls[id].Emitting?
    ensures Run(st, steps, end) && end == st.(calls := st.calls[id := st.calls[id].(to := {})], wire := end.wire)
    decreases |st.calls[id].to|
  {
    if st.calls[id].to == {} {
      steps, end := [], st;
      assert st.calls[id := st.calls[id]] == st.calls;
    } else {
      var t :| t in st.calls[id].to;
      var next := DoDeliver(st, id, t);
      steps, end := DeliversAll(next, id);
      assert end.calls == st.calls[id := st.calls[id].(to := {})];
      hide Run;
      RunsOn(st, Deliver(id, t), next, steps, end);
      steps := [Deliver(id, t)] + steps;
    }
  }

  /** From the subscription to the confirmation written, with the announcement, if there is one, delivered to all. */
  lemma JoinsWhole(st: Net, conn: Connection, member: Member, block: Block) returns (steps: seq<Step>, end: Net)
    requires Sound(st) && st.calls == map[] && Enabled(st, Arrive(conn, member))
    requires Describes(block, Seated(st.kind, st.subs, conn, member))
    ensures Run(st, steps, end) && Sound(end) && end.calls == map[]
        && end.subs == Seated(st.kind, st.subs, conn, member)
    ensures end.log == DoArrive(st, conn, member).log
    ensures forall user :: user in Folded(Wire(end, conn.id)) <==> user in block.ids
  {
    hide Describes, Sound;
    var id := conn.id;
    var arrived := DoArrive(st, conn, member);
    var joined, rest := arrived, [];
    assert Run(arrived, [], arrived);
    if arrived.calls[id].Emitting? {
      var told;
      rest, told := DeliversAll(arrived, id);
      joined := DoEmitted(told, id);
      RunsOn(told, Emitted(id), joined, [], joined);
      RunAppend(arrived, rest, told, [Emitted(id)] + [], joined);
      rest := rest + ([Emitted(id)] + []);
    }
    assert joined.calls == map[id := Joined] && joined.subs == arrived.subs && joined.log == arrived.log;
    var listed := joined.(calls := joined.calls[id := Listing(block)]);
    end := DoConfirm(listed, id);
    hide Run, DoConfirm;
    ConfirmEnds(joined, id, block);
    RunAppend(arrived, rest, joined, [Snapshot(id, block)] + ([Confirm(id)] + []), end);
    RunsOn(st, Arrive(conn, member), arrived, rest + ([Snapshot(id, block)] + ([Confirm(id)] + [])), end);
    steps := [Arrive(conn, member)] + (rest + ([Snapshot(id, block)] + ([Confirm(id)] + [])));
    RunSound(st, steps, end);
  }

  lemma ConfirmEnds(st: Net, id: SocketId, block: Block)
    requires st.calls == map[id := Joined] && Describes(block, st.subs)
    ensures var listed := st.(calls := st.calls[id := Listing(block)]);
            var end := DoConfirm(listed, id);
            && Run(st, [Snapshot(id, block)] + ([Confirm(id)] + []), end) && end.calls == map[] && end.subs == st.subs
            && end.log == st.log && (forall user :: user in Folded(Wire(end, id)) <==> user in block.ids)
            && forall t | t != id :: Wire(end, t) == Wire(st, t)
  {
    FoldedMore(Wire(st, id), Succeeded(Some(block)));
    hide Describes, Folded;
    var listed := st.(calls := st.calls[id := Listing(block)]);
    var end := DoConfirm(listed, id);
    assert Run(end, [], end);
    RunsOn(listed, Confirm(id), end, [], end);
    RunsOn(st, Snapshot(id, block), listed, [Confirm(id)] + [], end);
  }

  // ----- Two people -----

  const A := Connection("a", "t", "u")
  const B := Connection("b", "t", "v")
  const C := Connection("c", "t", "u")

  const X := Member("x", "")
  const Y := Member("y", "")
  const Z := Member("z", "")

  const ONE: Subscribers := map["a" := Subscriber(A, X)]
  const BOTH: Subscribers := map["a" := Subscriber(A, X), "b" := Subscriber(B, Y)]
  const OTHERS: Subscribers := map["c" := Subscriber(C, X), "b" := Subscriber(B, Y)]

  const ONE_LISTED := Block(["x"], map["x" := "{}"])
  const BOTH_LISTED := Block(["x", "y"], map["x" := "{}", "y" := "{}"])

  lemma Lists(subs: Subscribers, first: SocketId)
    requires subs.Keys == {first, "b"} && first != "b"
    requires subs[first].member == X && subs["b"].member == Y
    ensures Describes(BOTH_LISTED, subs)
  {
    assert AtMost("x", "y");
    assert InfoOf(subs, "x", "{}") by { assert InfoSent(subs[first].member) == "{}"; }
    assert InfoOf(subs, "y", "{}") by { assert InfoSent(subs["b"].member) == "{}"; }
    assert Users(subs) == {"x", "y"} by {
      assert "x" in Users(subs) && "y" in Users(subs);
    }
    hide InfoOf, Users;
  }

  lemma ListsOne()
    ensures Describes(ONE_LISTED, ONE)
  {
    assert ONE["a"].member.userId == "x";
    assert Users(ONE) == {"x"};
    assert InfoOf(ONE, "x", "{}");
  }

  lemma OnePerson(kind: PresenceKind) returns (steps: seq<Step>, st: Net)
    ensures Run(Start(kind), steps, st) && Sound(st) && st.calls == map[] && st.subs == ONE && st.log == [Added("x")]
  {
    ListsOne();
    assert Sound(Start(kind)) && Seated(kind, Start(kind).subs, A, X) == ONE;
    assert Enabled(Start(kind), Arrive(A, X)) && DoArrive(Start(kind), A, X).log == [Added("x")];
    hide *;
    steps, st := JoinsWhole(Start(kind), A, X, ONE_LISTED);
  }

  lemma Another(st: Net) returns (steps: seq<Step>, end: Net)
    requires Sound(st) && st.calls == map[] && st.subs == ONE
    ensures Run(st, steps, end) && Sound(end) && end.calls == map[] && end.subs == BOTH
    ensures forall user :: user in Folded(Wire(end, "b")) <==> user in BOTH_LISTED.ids
  {
    Lists(BOTH, "a");
    assert Seated(st.kind, st.subs, B, Y) == BOTH;
    assert Enabled(st, Arrive(B, Y)) && B.id == "b";
    hide *;
    steps, end := JoinsWhole(st, B, Y, BOTH_LISTED);
  }

  /** Two people on the channel, each in one tab, and b's browser has just been told so. */
  lemma TwoPeople(kind: PresenceKind) returns (steps: seq<Step>, st: Net)
    ensures Run(Start(kind), steps, st) && Sound(st) && st.calls == map[] && st.subs == BOTH
    ensures forall user :: user in Folded(Wire(st, "b")) <==> user in BOTH_LISTED.ids
  {
    var one, more;
    steps, one := OnePerson(kind);
    more, st := Another(one);
    hide *;
    RunAppend(Start(kind), steps, one, more, st);
    steps := steps + more;
  }

  // ----- A resubscription as somebody else -----

  /** A socket that comes back as somebody else leaves the others with a list that is wrong, and nothing tells them. */
  lemma NewUserMisleads(kind: PresenceKind) returns (steps: seq<Step>, end: Net)
    ensures Run(Start(kind), steps, end) && Settled(end, "b") && !Owes(end, "b", "z") && !Knows(end, "b", "z")
  {
    var st;
    steps, st := TwoPeople(kind);
    end := DoArrive(st, A, Z);
    assert end.subs["a"].member.userId == "z";
    assert end.calls == map["a" := Joined];
    hide Folded, Run;
    RunNone(end);
    RunsOn(st, Arrive(A, Z), end, [], end);
    RunAppend(Start(kind), steps, st, [Arrive(A, Z)] + [], end);
    steps := steps + ([Arrive(A, Z)] + []);
  }

  lemma RunNone(st: Net)
    ensures Run(st, [], st)
  {
  }

  // ----- A list overtaken by a departure -----

  lemma Departs(st: Net, id: SocketId, rest: Subscribers, user: string)
    requires id in st.subs && rest == st.subs - {id} && st.subs[id].member.userId == user && !Holds(rest, user)
    ensures DoLeave(st, id)
         == Net(st.kind, rest, st.calls[id := Emitting(MemberRemoved(user), rest.Keys, false)], st.wire,
           st.log + [Removed(user)])
  {
  }

  lemma DeliversOne(st: Net, id: SocketId, t: SocketId)
    requires id in st.calls && st.calls[id].Emitting? && st.calls[id].to == {t}
    ensures DoDeliver(st, id, t)
         == st.(calls := st.calls[id := st.calls[id].(to := {})], wire := Sent(st, t, st.calls[id].frame))
  {
    assert {t} - {t} == {};
  }

  lemma YLeaves(st: Net)
    requires st.subs == BOTH
    ensures DoLeave(st, "b")
         == Net(st.kind, ONE, st.calls["b" := Emitting(MemberRemoved("y"), {"a"}, false)], st.wire,
           st.log + [Removed("y")])
    ensures !Holds(ONE, "y")
  {
    assert BOTH - {"b"} == ONE && ONE.Keys == {"a"};
    Departs(st, "b", ONE, "y");
  }

  lemma Returns(st: Net)
    requires st.calls == map[] && st.subs == BOTH
    ensures DoArrive(st, A, X) == st.(calls := map["a" := Joined])
  {
    assert BOTH["a" := Subscriber(A, X)] == BOTH;
  }

  /** One leaves, and is told to have left, between the list of the other's join and its confirmation. */
  lemma Overtaken(st: Net) returns (st1: Net, st2: Net, st3: Net)
    requires st.calls == map[] && st.subs == BOTH
    ensures Enabled(st, Arrive(A, X)) && st1 == Apply(st, Arrive(A, X))
    ensures Enabled(st1, Snapshot("a", BOTH_LISTED)) && st2 == Apply(st1, Snapshot("a", BOTH_LISTED))
    ensures Enabled(st2, Leave("b")) && st3 == Apply(st2, Leave("b")) && st3.subs == ONE
    ensures st3.calls == map["a" := Listing(BOTH_LISTED), "b" := Emitting(MemberRemoved("y"), {"a"}, false)]
  {
    Lists(BOTH, "a");
    st1 := DoArrive(st, A, X);
    Returns(st);
    st2 := st1.(calls := map["a" := Listing(BOTH_LISTED)]);
    st3 := DoLeave(st2, "b");
    YLeaves(st2);
    hide Describes, DoArrive, DoLeave, Holds;
  }

  /** What is written of a list stays written: the browser lists somebody it is owed nothing about. */
  lemma StaleConfirm(st: Net, id: SocketId, user: string)
    requires id in st.calls && st.calls[id].Listing? && id in st.subs && user in st.calls[id].block.ids
        && !Holds(st.subs, user)
    requires forall i | i in st.calls :: !Tells(st.calls[i], id, user)
    ensures var end := DoConfirm(st, id); Settled(end, id) && !Owes(end, id, user) && !Knows(end, id, user)
  {
    FoldedMore(Wire(st, id), Succeeded(Some(st.calls[id].block)));
    hide Folded, Holds, Tells;
  }

  lemma Late(st: Net) returns (st1: Net, end: Net)
    requires st.subs == ONE
    requires st.calls == map["a" := Listing(BOTH_LISTED), "b" := Emitting(MemberRemoved("y"), {"a"}, false)]
    ensures Enabled(st, Deliver("b", "a")) && st1 == Apply(st, Deliver("b", "a"))
    ensures Enabled(st1, Confirm("a")) && end == Apply(st1, Confirm("a"))
    ensures Settled(end, "a") && !Owes(end, "a", "y") && !Knows(end, "a", "y")
  {
    DeliversOne(st, "b", "a");
    st1 := DoDeliver(st, "b", "a");
    hide DoDeliver;
    assert st1.calls == map["a" := Listing(BOTH_LISTED), "b" := Emitting(MemberRemoved("y"), {}, false)];
    assert "y" in BOTH_LISTED.ids && !Holds(ONE, "y");
    end := DoConfirm(st1, "a");
    StaleConfirm(st1, "a", "y");
    hide DoConfirm, Holds, Settled, Owes, Knows;
  }

  /**
   * A list built before somebody left and written after: the browser is told they left, and then that they are there.
   */
  lemma StaleListMisleads(kind: PresenceKind) returns (steps: seq<Step>, end: Net)
    ensures Run(Start(kind), steps, end) && Settled(end, "a") && !Owes(end, "a", "y") && !Knows(end, "a", "y")
  {
    var before, st := TwoPeople(kind);
    var st1, st2, st3 := Overtaken(st);
    var st4;
    st4, end := Late(st3);
    hide *;
    RunNone(end);
    RunsOn(st4, Confirm("a"), end, [], end);
    RunsOn(st3, Deliver("b", "a"), st4, [Confirm("a")] + [], end);
    steps := [Deliver("b", "a")] + ([Confirm("a")] + []);
    RunsOn(st2, Leave("b"), st3, steps, end);
    steps := [Leave("b")] + steps;
    RunsOn(st1, Snapshot("a", BOTH_LISTED), st2, steps, end);
    steps := [Snapshot("a", BOTH_LISTED)] + steps;
    RunsOn(st, Arrive(A, X), st1, steps, end);
    steps := [Arrive(A, X)] + steps;
    RunAppend(Start(kind), before, st, steps, end);
    steps := before + steps;
  }

  // ----- Announcements that cross -----

  lemma XLeaves(st: Net)
    requires st.subs == BOTH
    ensures DoLeave(st, "a") == Net(st.kind, map["b" := Subscriber(B, Y)],
              st.calls["a" := Emitting(MemberRemoved("x"), {"b"}, false)], st.wire, st.log + [Removed("x")])
  {
    var rest: Subscribers := map["b" := Subscriber(B, Y)];
    assert BOTH - {"a"} == rest && rest.Keys == {"b"};
    Departs(st, "a", rest, "x");
  }

  lemma XArrives(st: Net)
    requires st.subs == map["b" := Subscriber(B, Y)]
    ensures DoArrive(st, C, X)
         == Net(st.kind, OTHERS, st.calls["c" := Emitting(MemberAdded(X), {"b"}, true)], st.wire, st.log + [Added("x")])
    ensures Holds(OTHERS, "x")
  {
    assert st.subs["c" := Subscriber(C, X)] == OTHERS && st.subs.Keys == {"b"};
    assert OTHERS["c"].member.userId == "x";
    assert !Holds(st.subs, "x");
  }

  /** A departure decided first and delivered last. */
  lemma Crossed(st: Net) returns (st1: Net, st2: Net)
    requires st.calls == map[] && st.subs == BOTH
    ensures Enabled(st, Leave("a")) && st1 == Apply(st, Leave("a"))
    ensures Enabled(st1, Arrive(C, X)) && st2 == Apply(st1, Arrive(C, X)) && st2.subs == OTHERS
    ensures st2.calls
        == map["a" := Emitting(MemberRemoved("x"), {"b"}, false), "c" := Emitting(MemberAdded(X), {"b"}, true)]
  {
    st1 := DoLeave(st, "a");
    XLeaves(st);
    st2 := DoArrive(st1, C, X);
    XArrives(st1);
    hide DoArrive, DoLeave, Holds;
  }

  lemma OutOfOrder(st: Net) returns (st1: Net, end: Net)
    requires st.subs == OTHERS
    requires st.calls
        == map["a" := Emitting(MemberRemoved("x"), {"b"}, false), "c" := Emitting(MemberAdded(X), {"b"}, true)]
    ensures Enabled(st, Deliver("c", "b")) && st1 == Apply(st, Deliver("c", "b"))
    ensures Enabled(st1, Deliver("a", "b")) && end == Apply(st1, Deliver("a", "b"))
    ensures Settled(end, "b") && !Owes(end, "b", "x") && !Knows(end, "b", "x")
  {
    DeliversOne(st, "c", "b");
    st1 := DoDeliver(st, "c", "b");
    DeliversOne(st1, "a", "b");
    end := DoDeliver(st1, "a", "b");
    hide DoDeliver, Folded;
    FoldedMore(Wire(st1, "b"), MemberRemoved("x"));
    assert OTHERS["c"].member.userId == "x" && Holds(OTHERS, "x");
    assert end.calls == map["a" := Emitting(MemberRemoved("x"), {}, false), "c" := Emitting(MemberAdded(X), {}, true)];
    hide Holds;
  }

  /**
   * One tab of a person closes as another opens: each announcement is decided under the channel's lock and sent after
   * it, and if the departure is sent last the others lose somebody who is there. Nobody resubscribes and no list is
   * stale.
   */
  lemma CrossingMisleads(kind: PresenceKind) returns (steps: seq<Step>, end: Net)
    ensures Run(Start(kind), steps, end) && Settled(end, "b") && !Owes(end, "b", "x") && !Knows(end, "b", "x")
  {
    var before, st := TwoPeople(kind);
    var st1, st2 := Crossed(st);
    var st3;
    st3, end := OutOfOrder(st2);
    hide *;
    RunNone(end);
    RunsOn(st3, Deliver("a", "b"), end, [], end);
    RunsOn(st2, Deliver("c", "b"), st3, [Deliver("a", "b")] + [], end);
    steps := [Deliver("c", "b")] + ([Deliver("a", "b")] + []);
    RunsOn(st1, Arrive(C, X), st2, steps, end);
    steps := [Arrive(C, X)] + steps;
    RunsOn(st, Leave("a"), st1, steps, end);
    steps := [Leave("a")] + steps;
    RunAppend(Start(kind), before, st, steps, end);
    steps := before + steps;
  }

  // ----- Two arrivals in a row -----

  lemma BackAsZ(st: Net) returns (st1: Net, end: Net)
    requires st.calls == map[] && st.subs == ONE
    ensures Enabled(st, Arrive(A, Z)) && st1 == Apply(st, Arrive(A, Z))
    ensures Enabled(st1, Arrive(C, X)) && end == Apply(st1, Arrive(C, X)) && end.log == st.log + [Added("x")]
  {
    st1 := DoArrive(st, A, Z);
    assert st1.subs == map["a" := Subscriber(A, Z)] && st1.calls == map["a" := Joined] && st1.log == st.log;
    assert !Holds(st1.subs, "x");
    end := DoArrive(st1, C, X);
  }

  /**
   * One socket arrives as x and comes back as z, another arrives as x: x is announced twice and was never said to
   * leave.
   */
  lemma ArrivesTwice(kind: PresenceKind) returns (steps: seq<Step>, end: Net)
    ensures Run(Start(kind), steps, end) && Standing(end.log, "x") == None
  {
    var before, st := OnePerson(kind);
    var st1;
    st1, end := BackAsZ(st);
    StandingMore([], Added("x"), "x");
    StandingMore([Added("x")], Added("x"), "x");
    assert [] + [Added("x")] == [Added("x")];
    hide *;
    RunNone(end);
    RunsOn(st1, Arrive(C, X), end, [], end);
    RunsOn(st, Arrive(A, Z), st1, [Arrive(C, X)] + [], end);
    steps := [Arrive(A, Z)] + ([Arrive(C, X)] + []);
    RunAppend(Start(kind), before, st, steps, end);
    steps := before + steps;
  }
}
