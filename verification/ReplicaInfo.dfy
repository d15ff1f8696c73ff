/** What a browser shows of a person: the info that came with them (protocols/pusher/channels.go, client/joaju.js). */
module ReplicaInfo {
  import opened Options
  import opened Sections
  import opened Channels
  import opened Browsers
  import opened Replica

  /** Info that was given is shown as it was given. */
  function Shown(info: string): set<string> {
    if info == "" then {"null", "{}"} else {info}
  }

  /** Whenever this person arrives, it is with this info. */
  predicate Brings(a: Step, user: string, info: string) {
    a.Arrive? && a.member.userId == user ==> a.member.info == info
  }

  predicate ShownIn(members: Members, user: string, info: string) {
    user in members ==> members[user] in Shown(info)
  }

  ghost predicate Shows(st: Net, t: SocketId, user: string, info: string) {
    ShownIn(Folded(Wire(st, t)), user, info)
  }

  predicate CallBears(c: Call, user: string, info: string) {
    && (c.Emitting? && c.frame.MemberAdded? && c.frame.member.userId == user ==> c.frame.member.info == info)
    && (c.Listing? && user in c.block.ids ==>
          user in c.block.hash && c.block.hash[user] == if info == "" then "{}" else info)
  }

  /** On the channel, on its way, in a list about to be written and in every browser. */
  ghost predicate Bears(st: Net, user: string, info: string) {
    && (forall id | id in st.subs :: st.subs[id].member.userId == user ==> st.subs[id].member.info == info)
    && (forall id | id in st.calls :: CallBears(st.calls[id], user, info))
    && (forall t :: Shows(st, t, user, info))
  }

  lemma ListBears(block: Block, subs: Subscribers, user: string, info: string)
    requires Describes(block, subs)
    requires forall id | id in subs :: subs[id].member.userId == user ==> subs[id].member.info == info
    ensures CallBears(Listing(block), user, info)
  {
    hide Users;
    if user in block.hash {
      assert InfoOf(subs, user, block.hash[user]);
    }
  }

  lemma FoldShows(members: Members, f: Frame, user: string, info: string)
    requires ShownIn(members, user, info)
    requires f.Succeeded? ==> f.block.Some? && CallBears(Listing(f.block.value), user, info)
    requires f.MemberAdded? && f.member.userId == user ==> f.member.info == info
    ensures ShownIn(Fold(true, members, f), user, info)
  {
  }

  lemma FrameShows(st: Net, end: Net, to: SocketId, f: Frame, user: string, info: string)
    requires end.wire == Sent(st, to, f) && forall t :: Shows(st, t, user, info)
    requires f.Succeeded? ==> f.block.Some? && CallBears(Listing(f.block.value), user, info)
    requires f.MemberAdded? && f.member.userId == user ==> f.member.info == info
    ensures forall t :: Shows(end, t, user, info)
  {
    forall t ensures Shows(end, t, user, info) {
      assert Shows(st, t, user, info);
      FoldedMore(Wire(st, t), f);
      FoldShows(Folded(Wire(st, t)), f, user, info);
      hide Folded, Fold, ShownIn;
    }
  }

  lemma CallsBear(st: Net, a: Step, user: string, info: string)
    requires Bears(st, user, info) && Enabled(st, a) && (a.Arrive? || a.Leave?) && Brings(a, user, info)
    ensures Bears(Apply(st, a), user, info)
  {
    hide Shows, Peopled, AnnouncesArrival, AnnouncesDeparture;
    SameWire(st, Apply(st, a), user, info);
  }

  lemma StepBears(st: Net, a: Step, user: string, info: string)
    requires Sound(st) && Bears(st, user, info) && Enabled(st, a) && Brings(a, user, info)
    ensures Bears(Apply(st, a), user, info)
  {
    var end := Apply(st, a);
    hide Describes, Holds, Shows, Peopled, DoArrive, DoLeave;
    match a
    case Arrive(_, _) => CallsBear(st, a, user, info);
    case Leave(_) => CallsBear(st, a, user, info);
    case Deliver(id, t) => FrameShows(st, end, t, st.calls[id].frame, user, info);
    case Confirm(id) => FrameShows(st, end, id, Succeeded(Some(st.calls[id].block)), user, info);
    case Other(id, frame) => FrameShows(st, end, id, frame, user, info);
    case Snapshot(id, block) =>
      ListBears(block, st.subs, user, info);
      SameWire(st, end, user, info);
    case _ => SameWire(st, end, user, info);
  }

  lemma SameWire(st: Net, end: Net, user: string, info: string)
    requires end.wire == st.wire && forall t :: Shows(st, t, user, info)
    ensures forall t :: Shows(end, t, user, info)
  {
    forall t ensures Shows(end, t, user, info) {
      assert Shows(st, t, user, info) && Wire(end, t) == Wire(st, t);
    }
  }

  lemma {:induction false} RunBears(st: Net, steps: seq<Step>, end: Net, user: string, info: string)
    requires Sound(st) && Bears(st, user, info) && Run(st, steps, end)
    requires forall i | 0 <= i < |steps| :: Brings(steps[i], user, info)
    ensures Bears(end, user, info)
    decreases |steps|
  {
    hide Sound, Bears, Enabled, Apply, Brings;
    if steps != [] {
      StepBears(st, steps[0], user, info);
      StepSound(st, steps[0]);
      RunBears(Apply(st, steps[0]), steps[1..], end, user, info);
    }
  }

  /**
   * Over any run, whatever crosses or is overtaken: a person who always comes with the same info is shown with exactly
   * that by every browser that shows them at all, and one who brought none with an empty object or null.
   */
  lemma InfoArrives(kind: PresenceKind, steps: seq<Step>, end: Net, t: SocketId, user: string, info: string)
    requires Run(Start(kind), steps, end) && user in Folded(Wire(end, t))
    requires forall a | a in steps && a.Arrive? && a.member.userId == user :: a.member.info == info
    ensures info != "" ==> Folded(Wire(end, t))[user] == info
    ensures info == "" ==> Folded(Wire(end, t))[user] in {"null", "{}"}
  {
    assert Bears(Start(kind), user, info);
    assert forall i | 0 <= i < |steps| :: steps[i] in steps && Brings(steps[i], user, info);
    RunBears(Start(kind), steps, end, user, info);
    assert Shows(end, t, user, info);
  }
}
