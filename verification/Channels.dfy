/**
 * One channel of any kind: who is on it, what it announces, what it caches, who it delivers to
 * (protocols/pusher/channels.go).
 */
module Channels {
  import opened Names
  import opened Options
  import opened Ordering
  import opened Sections

  datatype Connection = Connection(id: SocketId, tenant: string, subject: string)

  datatype Member = Member(userId: string, info: string)

  const NOBODY := Member("", "")

  datatype Subscriber = Subscriber(conn: Connection, member: Member)

  type Subscribers = map<SocketId, Subscriber>

  datatype Event = Event(name: string, channel: ChannelName, data: string, socket: SocketId, userId: string)

  /** The presence block: the ids in order, and the user info of each. */
  datatype Block = Block(ids: seq<string>, hash: map<string, string>)

  datatype Frame =
    | MemberAdded(member: Member)
    | MemberRemoved(userId: string)
    | CacheMiss
    | Message(event: Event)
    | Succeeded(block: Option<Block>)

  datatype Delivery = Delivery(to: SocketId, frame: Frame)

  // ----- Who is on it -----

  function Users(subs: Subscribers): set<string> {
    set id | id in subs :: subs[id].member.userId
  }

  predicate Holds(subs: Subscribers, user: string) {
    user != "" && exists id :: id in subs && subs[id].member.userId == user
  }

  /** A presence channel knows who everybody is; any other knows nobody. */
  predicate Peopled(kind: Kind, subs: Subscribers) {
    && (forall id | id in subs :: id != "" && subs[id].conn.id == id)
    && (forall id | id in subs :: if kind.IsPresence() then subs[id].member.userId != "" else subs[id].member == NOBODY)
  }

  function MemberOn(kind: Kind, member: Member): Member {
    if kind.IsPresence() then member else NOBODY
  }

  function Seated(kind: Kind, subs: Subscribers, conn: Connection, member: Member): Subscribers {
    subs[conn.id := Subscriber(conn, MemberOn(kind, member))]
  }

  /** An arrival is announced once per person: not for a socket already on the channel, not for a second tab. */
  predicate AnnouncesArrival(kind: Kind, subs: Subscribers, id: SocketId, user: string) {
    kind.IsPresence() && id !in subs && !Holds(subs, user)
  }

  predicate AnnouncesDeparture(kind: Kind, subs: Subscribers, id: SocketId) {
    kind.IsPresence() && id in subs && !Holds(subs - {id}, subs[id].member.userId)
  }

  // ----- Subscribing -----

  datatype Refusal = NoConnection | NotAJoin | WrongTenant | Forbidden | NoMember

  /** The checks in their order. */
  function Refused(name: ChannelName, g: Grant, conn: Option<Connection>, member: Member): Option<Refusal> {
    match conn
    case None => Some(NoConnection)
    case Some(c) =>
      if g.action != ChannelJoin then Some(NotAJoin)
      else if g.tenant != name.tenant then Some(WrongTenant)
      else if c.tenant != name.tenant then Some(WrongTenant)
      else if g.subject != c.subject then Some(Forbidden)
      else if KindOf(name.requested).IsPresence() && member.userId == "" then Some(NoMember)
      else None
  }

  /**
   * In whatever order: a join grant of the channel's tenant, held by the socket's own subject and tenant, and a person.
   */
  lemma AdmittedIs(name: ChannelName, g: Grant, conn: Option<Connection>, member: Member)
    ensures Refused(name, g, conn, member) == None <==>
              && conn.Some? && g.action == ChannelJoin && g.tenant == name.tenant == conn.value.tenant
              && g.subject == conn.value.subject && ("presence-" <= name.requested ==> member.userId != "")
    ensures match Refused(name, g, conn, member) {
              case Some(NoConnection) => conn == None
              case Some(NotAJoin) => g.action != ChannelJoin
              case Some(WrongTenant) => g.tenant != name.tenant || conn.value.tenant != name.tenant
              case Some(Forbidden) => g.subject != conn.value.subject
              case Some(NoMember) => "presence-" <= name.requested && member.userId == ""
              case None => conn.Some?
            }
  {
    KindByPrefix(name.requested);
    hide KindOf;
  }

  // ----- The cache -----

  predicate Cacheable(e: Event) {
    !("pusher:" <= e.name) && !("pusher_internal:" <= e.name) && !("client-" <= e.name)
  }

  /** What a channel of this kind replays after these broadcasts. */
  function Cached(kind: Kind, history: seq<Event>): Option<Event> {
    if !kind.IsCache() || history == [] then None
    else if Cacheable(history[|history| - 1]) then Some(history[|history| - 1])
    else Cached(kind, history[..|history| - 1])
  }

  /** It is the last of them that may be replayed, and nothing only when there is none. */
  lemma {:induction false} CachedIsLast(kind: Kind, history: seq<Event>)
    requires kind.IsCache()
    ensures Cached(kind, history) == None <==> forall i | 0 <= i < |history| :: !Cacheable(history[i])
    ensures Cached(kind, history).Some? ==>
              exists i :: 0 <= i < |history| && Cacheable(history[i]) && history[i] == Cached(kind, history).value
                && forall j | i < j < |history| :: !Cacheable(history[j])
  {
    hide Cacheable;
    if history == [] {
    } else if Cacheable(history[|history| - 1]) {
      assert Cached(kind, history) == Some(history[|history| - 1]);
    } else {
      CachedIsLast(kind, history[..|history| - 1]);
    }
  }

  /** The frame a new subscriber of a cache channel is sent at once. */
  function Replay(kind: Kind, cached: Option<Event>): Option<Frame> {
    if !kind.IsCache() then None else if cached.Some? then Some(Message(cached.value)) else Some(CacheMiss)
  }

  /** The protocol's own events and those of other clients. */
  predicate NotBroadcast(name: string) {
    "pusher:" <= name || "pusher_internal:" <= name || "client-" <= name
  }

  ghost predicate LastBroadcast(history: seq<Event>, i: nat) {
    i < |history| && !NotBroadcast(history[i].name) && forall j | i < j < |history| :: NotBroadcast(history[j].name)
  }

  /**
   * On a channel whose name says it caches, a new subscriber is sent the last event broadcast, as it was, and a miss
   * exactly if there has been none; on any other channel, nothing.
   */
  lemma NewcomerIsSent(requested: string, history: seq<Event>)
    ensures var sent := Replay(KindOf(requested), Cached(KindOf(requested), history));
            && (sent.Some? <==> || "cache-" <= requested || "private-cache-" <= requested
                                || "presence-cache-" <= requested || "private-encrypted-cache-" <= requested)
            && (sent == Some(CacheMiss) ==> forall i | 0 <= i < |history| :: NotBroadcast(history[i].name))
            && (sent.Some? && sent.value != CacheMiss ==>
                  exists i: nat :: LastBroadcast(history, i) && sent.value == Message(history[i]))
  {
    var kind := KindOf(requested);
    KindByPrefix(requested);
    assert forall e: Event :: Cacheable(e) <==> !NotBroadcast(e.name);
    hide KindOf, Cacheable, NotBroadcast;
    if kind.IsCache() {
      CachedIsLast(kind, history);
      if Cached(kind, history).Some? {
        var i :| 0 <= i < |history| && Cacheable(history[i]) && history[i] == Cached(kind, history).value
          && forall j | i < j < |history| :: !Cacheable(history[j]);
        assert LastBroadcast(history, i);
      }
    }
  }

  // ----- Delivering -----

  /** Exactly these sockets were sent the frame, each once. */
  ghost predicate SentTo(sent: seq<Delivery>, frame: Frame, ids: set<SocketId>) {
    && (forall i | 0 <= i < |sent| :: sent[i].frame == frame)
    && (forall i, j | 0 <= i < j < |sent| :: sent[i].to != sent[j].to)
    && (forall id :: id in ids <==> exists i :: 0 <= i < |sent| && sent[i].to == id)
  }

  /** These subscribers, each once, in some order. */
  ghost predicate Lists(all: seq<Subscriber>, subs: Subscribers, ids: set<SocketId>) {
    && (forall i | 0 <= i < |all| :: all[i].conn.id in ids && all[i].conn.id in subs && subs[all[i].conn.id] == all[i])
    && (forall i, j | 0 <= i < j < |all| :: all[i].conn.id != all[j].conn.id)
    && (forall id | id in ids :: exists i :: 0 <= i < |all| && all[i].conn.id == id)
  }

  lemma {:induction false} ListedCount(all: seq<Subscriber>, subs: Subscribers, ids: set<SocketId>)
    requires Lists(all, subs, ids)
    ensures |all| == |ids|
  {
    if all == [] {
      assert ids == {};
    } else {
      var last := all[|all| - 1];
      var rest := all[..|all| - 1];
      forall id | id in ids - {last.conn.id} ensures exists i :: 0 <= i < |rest| && rest[i].conn.id == id {
        var i :| 0 <= i < |all| && all[i].conn.id == id;
        assert rest[i].conn.id == id;
      }
      ListedCount(rest, subs, ids - {last.conn.id});
    }
  }

  /** Attempted on everyone; a socket in down fails and the others are served regardless. */
  method Deliver(to: seq<Subscriber>, frame: Frame, down: set<SocketId>) returns (sent: seq<Delivery>, failed: bool)
    requires forall i, j | 0 <= i < j < |to| :: to[i].conn.id != to[j].conn.id
    ensures SentTo(sent, frame, set i | 0 <= i < |to| && to[i].conn.id !in down :: to[i].conn.id)
    ensures failed <==> exists i :: 0 <= i < |to| && to[i].conn.id in down
  {
    sent, failed := [], false;
    for i := 0 to |to|
      invariant SentTo(sent, frame, set k | 0 <= k < i && to[k].conn.id !in down :: to[k].conn.id)
      invariant failed <==> exists k :: 0 <= k < i && to[k].conn.id in down
    {
      ghost var before, was := sent, set k | 0 <= k < i && to[k].conn.id !in down :: to[k].conn.id;
      if to[i].conn.id in down {
        failed := true;
        assert was == set k | 0 <= k < i + 1 && to[k].conn.id !in down :: to[k].conn.id;
      } else {
        sent := sent + [Delivery(to[i].conn.id, frame)];
        assert was + {to[i].conn.id} == set k | 0 <= k < i + 1 && to[k].conn.id !in down :: to[k].conn.id;
        SentOneMore(before, frame, was, to[i].conn.id);
      }
    }
  }

  lemma SentOneMore(sent: seq<Delivery>, frame: Frame, ids: set<SocketId>, id: SocketId)
    requires SentTo(sent, frame, ids) && id !in ids
    ensures SentTo(sent + [Delivery(id, frame)], frame, ids + {id})
  {
    var more := sent + [Delivery(id, frame)];
    forall x ensures x in ids + {id} <==> exists i :: 0 <= i < |more| && more[i].to == x {
      if x in ids {
        var i :| 0 <= i < |sent| && sent[i].to == x;
        assert more[i].to == x;
      } else if x == id {
        assert more[|sent|].to == x;
      }
    }
  }

  // ----- The presence block -----

  /** Info a client left out goes out as an empty object. */
  function InfoSent(m: Member): string {
    if m.info == "" then "{}" else m.info
  }

  ghost predicate InfoOf(subs: Subscribers, user: string, info: string) {
    exists id :: id in subs && subs[id].member.userId == user && info == InfoSent(subs[id].member)
  }

  /** Each person once, in order, with the info of one of their sockets. */
  ghost predicate Describes(block: Block, subs: Subscribers) {
    && Ascending(block.ids) && Distinct(block.ids)
    && (forall u :: u in block.ids <==> u in Users(subs))
    && block.hash.Keys == Users(subs)
    && (forall u | u in block.hash :: InfoOf(subs, u, block.hash[u]))
  }

  /** The count is the number of people, and the list is the same list every time. */
  lemma DescribedOnce(a: Block, b: Block, subs: Subscribers)
    requires Describes(a, subs) && Describes(b, subs)
    ensures |a.ids| == |Users(subs)| && a.ids == b.ids
  {
    OneOrder(a.ids, b.ids);
    DistinctCount(a.ids, Users(subs));
  }

  lemma {:induction false} DistinctCount(s: seq<string>, all: set<string>)
    requires Distinct(s) && forall x :: x in s <==> x in all
    ensures |s| == |all|
  {
    if s == [] {
      assert all == {};
    } else {
      TailOf(s);
      DistinctCount(s[1..], all - {s[0]});
    }
  }

  /** The one type behind all six kinds. history is every event it has taken, and is only spoken about. */
  class Channel {
    const name: Name
    var subscribers: Subscribers
    var cached: Event
    var cachedSet: bool
    ghost var history: seq<Event>

    ghost predicate Valid()
      reads this
    {
      && Peopled(KindOf(name.requested), subscribers)
      && (forall id | id in subscribers :: subscribers[id].conn.tenant == name.tenant)
      && Cached(KindOf(name.requested), history) == (if cachedSet then Some(cached) else None)
    }

    constructor (name: Name)
      ensures Valid() && this.name == name && subscribers == map[] && history == []
    {
      this.name := name;
      subscribers := map[];
      cached := Event("", ChannelName("", ""), "", "", "");
      cachedSet := false;
      history := [];
    }

    /** holds: whether any socket on the channel is this person. */
    method HoldsUser(user: string) returns (found: bool)
      ensures found <==> Holds(subscribers, user)
    {
      if user == "" { return false; }
      var rest := subscribers.Keys;
      while rest != {}
        invariant rest <= subscribers.Keys
        invariant forall id | id in subscribers && id !in rest :: subscribers[id].member.userId != user
        decreases |rest|
      {
        var id :| id in rest;
        if subscribers[id].member.userId == user { return true; }
        rest := rest - {id};
      }
      return false;
    }

    /** Everyone on the channel but one. */
    method Gather(skip: SocketId) returns (recipients: seq<Subscriber>)
      requires Valid()
      ensures Lists(recipients, subscribers, subscribers.Keys - {skip})
    {
      hide KindOf, Cached, Lists;
      recipients := AllBut(subscribers, skip);
    }

    method Subscribe(g: Grant, conn: Option<Connection>, member: Member, down: set<SocketId>)
      returns (refusal: Option<Refusal>, announced: seq<Delivery>, replayed: seq<Delivery>, failed: bool)
      requires Valid() && (conn.Some? ==> conn.value.id != "")
      modifies this
      ensures Valid() && history == old(history)
      ensures refusal == Refused(name, g, conn, member)
      ensures refusal.Some? ==> subscribers == old(subscribers) && announced == [] && replayed == [] && !failed
      ensures refusal == None ==>
                var kind := KindOf(name.requested);
                var id := conn.value.id;
                var others := if AnnouncesArrival(kind, old(subscribers), id, member.userId) then old(subscribers).Keys
                  else {};
                var mine := if id in old(subscribers) then None else Replay(kind, Cached(kind, history));
                && subscribers == Seated(kind, old(subscribers), conn.value, member)
                && SentTo(announced, MemberAdded(member), others - down)
                && replayed == (if mine.Some? && id !in down then [Delivery(id, mine.value)] else [])
                && (failed <==> others * down != {} || (mine.Some? && id in down))
      ensures !("presence-" <= name.requested) ==> announced == []
    {
      KindByPrefix(name.requested);
      hide KindOf, Cached, Holds;
      announced, replayed, failed := [], [], false;
      refusal := Refused(name, g, conn, member);
      if refusal.Some? { return; }
      var kind := KindOf(name.requested);
      var id := conn.value.id;
      var seated := id in subscribers;
      var held := HoldsUser(member.userId);
      var announce := kind.IsPresence() && !seated && !held;
      subscribers := subscribers[id := Subscriber(conn.value, MemberOn(kind, member))];
      var others := [];
      if announce { others := Gather(id); }
      if seated { return; }
      if announce {
        assert subscribers.Keys - {id} == old(subscribers).Keys;
        announced, failed := Deliver(others, MemberAdded(member), down);
        AttemptedAll(others, subscribers, old(subscribers).Keys, down);
      }
      if kind.IsCache() {
        if id in down {
          failed := true;
        } else {
          replayed := [Delivery(id, if cachedSet then Message(cached) else CacheMiss)];
        }
      }
    }

    method Unsubscribe(id: SocketId, down: set<SocketId>) returns (announced: seq<Delivery>, failed: bool)
      requires Valid()
      modifies this
      ensures Valid() && history == old(history)
      ensures subscribers == old(subscribers) - {id}
      ensures var others := if AnnouncesDeparture(KindOf(name.requested), old(subscribers), id) then subscribers.Keys
          else {};
              && (failed <==> others * down != {})
              && (id in old(subscribers) ==>
                 SentTo(announced, MemberRemoved(old(subscribers)[id].member.userId), others - down))
              && (id !in old(subscribers) ==> announced == [])
      ensures !("presence-" <= name.requested) ==> announced == []
    {
      KindByPrefix(name.requested);
      hide KindOf, Cached;
      announced, failed := [], false;
      if id !in subscribers { return; }
      var gone := subscribers[id];
      subscribers := subscribers - {id};
      var held := HoldsUser(gone.member.userId);
      if !KindOf(name.requested).IsPresence() || held { return; }
      var remaining := Gather("");
      assert subscribers.Keys - {""} == subscribers.Keys;
      AttemptedAll(remaining, subscribers, subscribers.Keys, down);
      announced, failed := Deliver(remaining, MemberRemoved(gone.member.userId), down);
    }

    /** send, which Broadcast and BroadcastToAll are: skip is the socket that caused the event, or nobody. */
    method Send(e: Event, skip: SocketId, down: set<SocketId>)
      returns (accepted: bool, sent: seq<Delivery>, failed: bool)
      requires Valid()
      modifies this
      ensures Valid() && subscribers == old(subscribers)
      ensures accepted <==> e.name != "" && e.channel == name
      ensures history == if accepted then old(history) + [e] else old(history)
      ensures accepted ==> SentTo(sent, Message(e), subscribers.Keys - {skip} - down)
      ensures !accepted ==> sent == []
      ensures failed <==> accepted && (subscribers.Keys - {skip}) * down != {}
    {
      if e.name == "" || e.channel.tenant != name.tenant || e.channel.requested != name.requested {
        return false, [], false;
      }
      accepted := true;
      if KindOf(name.requested).IsCache() && Cacheable(e) {
        cached, cachedSet := e, true;
      }
      history := history + [e];
      assert history[..|history| - 1] == old(history);
      var recipients := Gather(skip);
      AttemptedAll(recipients, subscribers, subscribers.Keys - {skip}, down);
      sent, failed := Deliver(recipients, Message(e), down);
    }

    /** Everyone, by socket id; the one order of them, whatever order the map gave them in. */
    method Connections() returns (all: seq<Subscriber>)
      requires Valid()
      ensures Lists(all, subscribers, subscribers.Keys) && |all| == |subscribers|
      ensures Ascending(Ids(all))
    {
      hide KindOf, Cached, Ascending, Lists, Distinct;
      var gathered := Gather("");
      assert subscribers.Keys - {""} == subscribers.Keys;
      Ordered(gathered, subscribers);
      all := Pick(subscribers, Sort(Ids(gathered)));
    }

    /** The presence block, and nothing off a presence channel. */
    method Data() returns (block: Option<Block>)
      requires Valid()
      ensures block.Some? <==> KindOf(name.requested).IsPresence()
      ensures block.Some? ==> Describes(block.value, subscribers)
    {
      if !KindOf(name.requested).IsPresence() { return None; }
      var ids: seq<string>, hash: map<string, string> := [], map[];
      var rest := subscribers.Keys;
      while rest != {}
        invariant rest <= subscribers.Keys
        invariant Distinct(ids) && (forall u :: u in ids <==> u in hash)
        invariant hash.Keys == set id | id in subscribers && id !in rest :: subscribers[id].member.userId
        invariant forall u | u in hash :: InfoOf(subscribers, u, hash[u])
        decreases |rest|
      {
        var id :| id in rest;
        var member := subscribers[id].member;
        if member.userId !in hash {
          ids := ids + [member.userId];
          hash := hash[member.userId := InfoSent(member)];
        }
        rest := rest - {id};
      }
      SortKeepsDistinct(ids);
      Sorted(ids);
      block := Some(Block(Sort(ids), hash));
    }
  }

  method AllBut(subs: Subscribers, skip: SocketId) returns (all: seq<Subscriber>)
    requires forall id | id in subs :: subs[id].conn.id == id
    ensures Lists(all, subs, subs.Keys - {skip})
  {
    hide Lists;
    all := [];
    var rest := subs.Keys;
    ghost var listed := {};
    ListedNone(subs);
    while rest != {}
      invariant rest <= subs.Keys && Lists(all, subs, listed)
      invariant forall id :: id in listed <==> id in subs && id !in rest && id != skip
      decreases |rest|
    {
      var id :| id in rest;
      if id != skip {
        ListedOneMore(all, subs, listed, id);
        all := all + [subs[id]];
        listed := listed + {id};
      }
      rest := rest - {id};
    }
    assert listed == subs.Keys - {skip};
  }

  lemma ListedNone(subs: Subscribers)
    ensures Lists([], subs, {})
  {
  }

  lemma ListedOneMore(all: seq<Subscriber>, subs: Subscribers, ids: set<SocketId>, id: SocketId)
    requires Lists(all, subs, ids) && id !in ids && id in subs && subs[id].conn.id == id
    ensures Lists(all + [subs[id]], subs, ids + {id})
  {
    var more := all + [subs[id]];
    forall x | x in ids + {id} ensures exists i :: 0 <= i < |more| && more[i].conn.id == x {
      if x in ids {
        var i :| 0 <= i < |all| && all[i].conn.id == x;
        assert more[i].conn.id == x;
      } else {
        assert more[|all|].conn.id == x;
      }
    }
  }

  function Ids(all: seq<Subscriber>): (ids: seq<SocketId>)
    ensures |ids| == |all| && forall i | 0 <= i < |all| :: ids[i] == all[i].conn.id
  {
    seq(|all|, i requires 0 <= i < |all| => all[i].conn.id)
  }

  function Pick(subs: Subscribers, ids: seq<SocketId>): (all: seq<Subscriber>)
    requires forall id | id in ids :: id in subs
    ensures |all| == |ids| && forall i | 0 <= i < |ids| :: ids[i] in ids && all[i] == subs[ids[i]]
  {
    seq(|ids|, i requires 0 <= i < |ids| => assert ids[i] in ids; subs[ids[i]])
  }

  lemma PickedIds(subs: Subscribers, ids: seq<SocketId>)
    requires forall id | id in ids :: id in subs
    requires forall id | id in subs :: subs[id].conn.id == id
    ensures Ids(Pick(subs, ids)) == ids
  {
    forall i | 0 <= i < |ids| ensures ids[i] in subs && Pick(subs, ids)[i].conn.id == ids[i] {
      assert ids[i] in ids;
    }
  }

  lemma Ordered(all: seq<Subscriber>, subs: Subscribers)
    requires Lists(all, subs, subs.Keys) && forall id | id in subs :: subs[id].conn.id == id
    ensures forall id | id in Sort(Ids(all)) :: id in subs
    ensures var picked := Pick(subs, Sort(Ids(all)));
            Lists(picked, subs, subs.Keys) && |picked| == |subs| && Ascending(Ids(picked))
  {
    hide *;
    ListedIds(all, Ids(all), subs);
    SortKeepsDistinct(Ids(all));
    Sorted(Ids(all));
    PickedIds(subs, Sort(Ids(all)));
    ListedBy(Pick(subs, Sort(Ids(all))), Sort(Ids(all)), subs);
  }

  lemma ListedIds(all: seq<Subscriber>, ids: seq<SocketId>, subs: Subscribers)
    requires Lists(all, subs, subs.Keys)
    requires |ids| == |all| && forall i | 0 <= i < |all| :: ids[i] == all[i].conn.id
    ensures Distinct(ids) && forall id :: id in ids <==> id in subs
  {
    forall id | id in subs ensures id in ids {
      var i :| 0 <= i < |all| && all[i].conn.id == id;
      assert ids[i] == id;
    }
  }

  lemma ListedBy(all: seq<Subscriber>, ids: seq<SocketId>, subs: Subscribers)
    requires Distinct(ids) && forall id :: id in ids <==> id in subs
    requires forall id | id in subs :: subs[id].conn.id == id
    requires |ids| == |all| && forall i | 0 <= i < |all| :: ids[i] in subs && all[i] == subs[ids[i]]
    ensures Lists(all, subs, subs.Keys) && |all| == |subs|
  {
    forall id | id in subs ensures exists i :: 0 <= i < |all| && all[i].conn.id == id {
      var i :| 0 <= i < |ids| && ids[i] == id;
      assert all[i].conn.id == id;
    }
    ListedCount(all, subs, subs.Keys);
  }

  /** Who was attempted, up and down. */
  lemma AttemptedAll(to: seq<Subscriber>, subs: Subscribers, ids: set<SocketId>, down: set<SocketId>)
    requires Lists(to, subs, ids)
    ensures (set i | 0 <= i < |to| && to[i].conn.id !in down :: to[i].conn.id) == ids - down
    ensures (exists i :: 0 <= i < |to| && to[i].conn.id in down) <==> ids * down != {}
  {
    forall id | id in ids * down ensures exists i :: 0 <= i < |to| && to[i].conn.id in down {
      var i :| 0 <= i < |to| && to[i].conn.id == id;
    }
    if i :| 0 <= i < |to| && to[i].conn.id in down {
      assert to[i].conn.id in ids * down;
    }
  }
}
