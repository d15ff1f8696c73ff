/**
 * Any number of sockets subscribing, unsubscribing and closing at once (protocols/pusher/protocol.go).
 *
 * A step is one critical section, or one of the pieces of reach and drop while the protocol's lock is held, so that
 * whatever does not take that lock may happen in between. Channels are identities: a name may denote another later.
 */
module Lifecycle {
  import opened Names
  import opened Options
  import opened Sections

  type ChanId = nat

  datatype Chan = Chan(name: Name, subs: set<SocketId>)

  type LiveSeat = Seat<ChanId>

  /**
   * Where a call is. Frames of one socket are ordered and Close comes after them, so a socket is in one call at most.
   */
  datatype Pc =
    | Asking(name: Name, grant: Grant)                                     // before atChannelLimit
    | Reaching(name: Name, grant: Grant)                                   // before reach
    | Finding(name: Name, grant: Grant, missing: bool)                     // in reach: Find has answered
    | Making(name: Name, grant: Grant, missing: bool, channel: ChanId)     // in reach: the base broker has answered
    | Reached(seat: LiveSeat)                                              // before Channel.Subscribe
    | Seated(seat: LiveSeat)                                               // before take
    | Failed(seat: LiveSeat)                                               // before finishJoining
    | Leaving(seat: LiveSeat, rest: seq<LiveSeat>)                         // before Channel.Unsubscribe
    | Dropping(seat: LiveSeat, rest: seq<LiveSeat>)                        // before drop
    | Removing(seat: LiveSeat, rest: seq<LiveSeat>)                        // in drop: nobody reserved, nobody on it
    | Removed(seat: LiveSeat, rest: seq<LiveSeat>, deleted: bool)          // in drop: the base broker has removed

  /** created: reach answered true; deleted: the registry lost the name; gone: drop answered true. */
  datatype Event = Created(key: string) | Deleted(key: string) | Gone(key: string)

  datatype State = State(
    chans: seq<Chan>,
    broker: map<string, ChanId>,
    joined: map<string, ChanId>,
    seats: Seats<ChanId>,
    joining: map<string, nat>,
    holder: Option<SocketId>,
    calls: map<SocketId, Pc>,
    closed: set<SocketId>,
    max: int,
    log: multiset<Event>)

  function Initial(max: int): State {
    State([], map[], map[], map[], map[], None, map[], {}, max, multiset{})
  }

  datatype SubscribeOutcome = Accepted | Refused | Undelivered

  datatype Step =
    | StartJoin(s: SocketId, name: Name, grant: Grant)
    | CheckLimit(s: SocketId)
    | Find(s: SocketId)
    | Make(s: SocketId)
    | Hand(s: SocketId)
    | Subscribe(s: SocketId, outcome: SubscribeOutcome)
    | Take(s: SocketId)
    | FinishJoining(s: SocketId)
    | Part(s: SocketId, name: Name)
    | Close(s: SocketId, order: seq<string>)
    | Unsubscribe(s: SocketId)
    | Drop(s: SocketId)
    | RemoveBase(s: SocketId)
    | Leave(s: SocketId)

  // ----- The steps -----

  function At(st: State, s: SocketId, pc: Pc): State {
    st.(calls := st.calls[s := pc])
  }

  function Done(st: State, s: SocketId): State {
    st.(calls := st.calls - {s})
  }

  /** One seat is unwound; Close goes on to the next. */
  function Onward(st: State, s: SocketId, rest: seq<LiveSeat>): State {
    if rest == [] then Done(st, s) else At(st, s, Leaving(rest[0], rest[1..]))
  }

  predicate HasSub(st: State, c: ChanId, s: SocketId) {
    c < |st.chans| && s in st.chans[c].subs
  }

  predicate Empty(st: State, c: ChanId) {
    c < |st.chans| ==> st.chans[c].subs == {}
  }

  function WithSubs(st: State, c: ChanId, subs: set<SocketId>): State {
    if c < |st.chans| then st.(chans := st.chans[c := st.chans[c].(subs := subs)]) else st
  }

  /** The registry, the relay and the announcements are as they were. */
  predicate Apart(st: State, r: State, s: SocketId) {
    && r.broker == st.broker && r.joined == st.joined && r.log == st.log
    && (s in r.calls ==> !r.calls[s].Making? && !r.calls[s].Removed?)
  }

  // Each step has its guard and its effect.

  predicate MayStart(st: State, s: SocketId) {
    s !in st.calls && s !in st.closed
  }

  function DoStartJoin(st: State, s: SocketId, name: Name, grant: Grant): (r: State)
    requires MayStart(st, s)
    ensures Apart(st, r, s)
  {
    At(st, s, Asking(name, grant))
  }

  predicate MayCheckLimit(st: State, s: SocketId) {
    s in st.calls && st.calls[s].Asking? && st.holder == None
  }

  function DoCheckLimit(st: State, s: SocketId): (r: State)
    requires MayCheckLimit(st, s)
    ensures Apart(st, r, s)
  {
    var Asking(name, grant) := st.calls[s];
    if AtLimit(st.seats, st.max, s, name.Key()) then Done(st, s) else At(st, s, Reaching(name, grant))
  }

  predicate MayFind(st: State, s: SocketId) {
    s in st.calls && st.calls[s].Reaching? && st.holder == None
  }

  function DoFind(st: State, s: SocketId): (r: State)
    requires MayFind(st, s)
    ensures Apart(st, r, s)
  {
    var Reaching(name, grant) := st.calls[s];
    if !Accepts(grant, name) then Done(st, s)
    else At(st, s, Finding(name, grant, name.Key() !in st.broker)).(holder := Some(s))
  }

  predicate MayMake(st: State, s: SocketId) {
    s in st.calls && st.calls[s].Finding?
  }

  function DoMake(st: State, s: SocketId): State
    requires MayMake(st, s)
  {
    var Finding(name, grant, missing) := st.calls[s];
    var key := name.Key();
    if key in st.broker then At(st, s, Making(name, grant, missing, st.broker[key]))
    else
      At(st, s, Making(name, grant, missing, |st.chans|))
      .(chans := st.chans + [Chan(name, {})], broker := FindOrCreate(st.broker, key, |st.chans|))
  }

  predicate MayHand(st: State, s: SocketId) {
    s in st.calls && st.calls[s].Making?
  }

  function DoHand(st: State, s: SocketId): State
    requires MayHand(st, s)
  {
    var Making(name, grant, missing, channel) := st.calls[s];
    At(st, s, Reached(Seat(name, channel, grant)))
    .(joined := Join(st.joined, Topic(name), channel), joining := Reserve(st.joining, name.Key()), holder := None,
      log := if missing then st.log + multiset{Created(name.Key())} else st.log)
  }

  /** Delivery is attempted only for a socket that was not on the channel yet. */
  predicate MaySubscribe(st: State, s: SocketId, outcome: SubscribeOutcome) {
    s in st.calls && st.calls[s].Reached? && (outcome.Undelivered? ==> !HasSub(st, st.calls[s].seat.channel, s))
  }

  function DoSubscribe(st: State, s: SocketId, outcome: SubscribeOutcome): (r: State)
    requires MaySubscribe(st, s, outcome)
    ensures Apart(st, r, s)
  {
    var seat := st.calls[s].seat;
    var c := seat.channel;
    var on := if outcome.Refused? || c >= |st.chans| then st else WithSubs(st, c, st.chans[c].subs + {s});
    At(on, s, if outcome.Accepted? then Seated(seat) else Failed(seat))
  }

  predicate MayTake(st: State, s: SocketId) {
    s in st.calls && st.calls[s].Seated? && st.holder == None
  }

  function DoTake(st: State, s: SocketId): (r: State)
    requires MayTake(st, s)
    ensures Apart(st, r, s)
  {
    var seat := st.calls[s].seat;
    Done(st, s).(joining := Release(st.joining, seat.Key()), seats := TakeSeat(st.seats, s, seat))
  }

  predicate MayFinish(st: State, s: SocketId) {
    s in st.calls && st.calls[s].Failed? && st.holder == None
  }

  function DoFinish(st: State, s: SocketId): (r: State)
    requires MayFinish(st, s)
    ensures Apart(st, r, s)
  {
    var seat := st.calls[s].seat;
    At(st, s, Leaving(seat, [])).(joining := Release(st.joining, seat.Key()))
  }

  predicate MayPart(st: State, s: SocketId) {
    s !in st.calls && s !in st.closed && st.holder == None
  }

  function DoPart(st: State, s: SocketId, name: Name): (r: State)
    requires MayPart(st, s)
    ensures Apart(st, r, s)
  {
    var held := SeatsOf(st.seats, s);
    if name.Key() !in held then st
    else At(st, s, Leaving(held[name.Key()], [])).(seats := ForgetOne(st.seats, s, name.Key()))
  }

  /** The socket's seats, in whatever order the map gives them. */
  predicate MayClose(st: State, s: SocketId, order: seq<string>) {
    && MayPart(st, s)
    && (forall i, j | 0 <= i < j < |order| :: order[i] != order[j])
    && (forall k | k in order :: k in SeatsOf(st.seats, s))
    && (forall k | k in SeatsOf(st.seats, s) :: k in order)
  }

  function DoClose(st: State, s: SocketId, order: seq<string>): (r: State)
    requires MayClose(st, s, order)
    ensures Apart(st, r, s)
  {
    var held := SeatsOf(st.seats, s);
    Onward(st, s, seq(|order|, i requires 0 <= i < |order| => held[order[i]]))
    .(seats := st.seats - {s}, closed := st.closed + {s})
  }

  predicate MayUnsubscribe(st: State, s: SocketId) {
    s in st.calls && st.calls[s].Leaving?
  }

  function DoUnsubscribe(st: State, s: SocketId): (r: State)
    requires MayUnsubscribe(st, s)
    ensures Apart(st, r, s)
  {
    var Leaving(seat, rest) := st.calls[s];
    var c := seat.channel;
    At(if c < |st.chans| then WithSubs(st, c, st.chans[c].subs - {s}) else st, s, Dropping(seat, rest))
  }

  predicate MayDrop(st: State, s: SocketId) {
    s in st.calls && st.calls[s].Dropping? && st.holder == None
  }

  function DoDrop(st: State, s: SocketId): (r: State)
    requires MayDrop(st, s)
    ensures Apart(st, r, s)
  {
    var Dropping(seat, rest) := st.calls[s];
    if Reserved(st.joining, seat.Key()) > 0 || !Empty(st, seat.channel) then Onward(st, s, rest)
    else At(st, s, Removing(seat, rest)).(holder := Some(s))
  }

  predicate MayRemove(st: State, s: SocketId) {
    s in st.calls && st.calls[s].Removing?
  }

  function DoRemove(st: State, s: SocketId): State
    requires MayRemove(st, s)
  {
    var Removing(seat, rest) := st.calls[s];
    var key := seat.Key();
    var empty := key in st.broker && Empty(st, st.broker[key]);
    At(st, s, Removed(seat, rest, empty))
    .(broker := Remove(st.broker, key, empty), log := if empty then st.log + multiset{Deleted(key)} else st.log)
  }

  predicate MayLeave(st: State, s: SocketId) {
    s in st.calls && st.calls[s].Removed?
  }

  function DoLeave(st: State, s: SocketId): State
    requires MayLeave(st, s)
  {
    var Removed(seat, rest, _) := st.calls[s];
    var key := seat.Key();
    Onward(st, s, rest)
    .(joined := LeaveIfGone(st.joined, st.broker, key), holder := None,
      log := if key in st.broker then st.log else st.log + multiset{Gone(key)})
  }

  predicate Enabled(st: State, a: Step) {
    match a
    case StartJoin(s, _, _) => MayStart(st, s)
    case CheckLimit(s) => MayCheckLimit(st, s)
    case Find(s) => MayFind(st, s)
    case Make(s) => MayMake(st, s)
    case Hand(s) => MayHand(st, s)
    case Subscribe(s, outcome) => MaySubscribe(st, s, outcome)
    case Take(s) => MayTake(st, s)
    case FinishJoining(s) => MayFinish(st, s)
    case Part(s, _) => MayPart(st, s)
    case Close(s, order) => MayClose(st, s, order)
    case Unsubscribe(s) => MayUnsubscribe(st, s)
    case Drop(s) => MayDrop(st, s)
    case RemoveBase(s) => MayRemove(st, s)
    case Leave(s) => MayLeave(st, s)
  }

  function Apply(st: State, a: Step): State
    requires Enabled(st, a)
  {
    match a
    case StartJoin(s, name, grant) => DoStartJoin(st, s, name, grant)
    case CheckLimit(s) => DoCheckLimit(st, s)
    case Find(s) => DoFind(st, s)
    case Make(s) => DoMake(st, s)
    case Hand(s) => DoHand(st, s)
    case Subscribe(s, outcome) => DoSubscribe(st, s, outcome)
    case Take(s) => DoTake(st, s)
    case FinishJoining(s) => DoFinish(st, s)
    case Part(s, name) => DoPart(st, s, name)
    case Close(s, order) => DoClose(st, s, order)
    case Unsubscribe(s) => DoUnsubscribe(st, s)
    case Drop(s) => DoDrop(st, s)
    case RemoveBase(s) => DoRemove(st, s)
    case Leave(s) => DoLeave(st, s)
  }

  /** Every run: each step is enabled where it is taken. */
  ghost predicate Run(st: State, steps: seq<Step>, end: State)
    decreases |steps|
  {
    if steps == [] then end == st
    else Enabled(st, steps[0]) && Run(Apply(st, steps[0]), steps[1..], end)
  }
}
