/**
 * The protocol's own record of who is where, and the critical sections that keep it (protocols/pusher/protocol.go).
 * Each method does to its maps what the section of the same name does in Sections.dfy, which is what the interleaving
 * of Lifecycle.dfy is made of.
 */
module Pushers {
  import opened Names
  import opened Options
  import opened Sections
  import opened Channels
  import opened Brokers
  import opened Relays

  type LiveSeat = Seat<Channel>

  predicate Positive(joining: map<string, nat>) {
    forall k | k in joining :: joining[k] > 0
  }

  /** A reservation made and given back leaves nothing. */
  lemma ReleaseUndoesReserve(joining: map<string, nat>, key: string)
    requires Positive(joining)
    ensures Release(Reserve(joining, key), key) == joining
  {
  }

  lemma StaysPositive(joining: map<string, nat>, key: string)
    requires Positive(joining)
    ensures Positive(Reserve(joining, key)) && Positive(Release(joining, key))
  {
  }

  predicate SeatFits(s: LiveSeat) {
    s.channel.name == s.name && Accepts(s.grant, s.name)
  }

  predicate RowFits(row: map<string, LiveSeat>) {
    row != map[] && forall k | k in row :: row[k].Key() == k && SeatFits(row[k])
  }

  ghost predicate Rows(seats: Seats<Channel>) {
    forall s | s in seats :: RowFits(seats[s])
  }

  lemma ForgetOneFits(seats: Seats<Channel>, id: SocketId, key: string)
    requires Rows(seats)
    ensures Rows(ForgetOne(seats, id, key))
  {
    var held := SeatsOf(seats, id) - {key};
    if held != map[] { assert RowFits(held); }
  }

  lemma TakeSeatFits(seats: Seats<Channel>, id: SocketId, s: LiveSeat)
    requires SeatFits(s) && Rows(seats)
    ensures Rows(TakeSeat(seats, id, s))
  {
    var row := SeatsOf(seats, id)[s.Key() := s];
    assert s.Key() in row;
    assert RowFits(row);
  }

  /** Undone is a subscription refused or not delivered: what failed is unwound before the call answers. */
  datatype JoinEnd =
    | TooMany
    | Unreached(trouble: Trouble)
    | Undone(refusal: Option<Refusal>)
    | Seated(created: bool, block: Option<Block>)

  class Pusher {
    const broker: RelayedBroker
    const maxChannels: int
    var seats: Seats<Channel>
    var joining: map<string, nat>

    ghost predicate Valid()
      reads this, broker.base, broker.base.channels.Values
    {
      && broker.base.Valid() && broker.base.ChannelsValid()
      && Positive(joining)
      && Rows(seats)
    }

    constructor (broker: RelayedBroker, maxChannels: int)
      requires broker.base.Valid() && broker.base.ChannelsValid()
      ensures this.broker == broker && this.maxChannels == maxChannels && seats == map[] && joining == map[] && Valid()
    {
      this.broker, this.maxChannels := broker, maxChannels;
      seats, joining := map[], map[];
    }

    /** The channel, reserved until the seat is taken, and whether this call is what brought it about. */
    method Reach(g: Grant, n: Name) returns (trouble: Option<Trouble>, channel: Option<Channel>, created: bool)
      requires Valid()
      modifies this`joining, broker.base, broker.relay`joined
      ensures Valid()
      ensures trouble == if !Accepts(g, n) then Checked(g, n) else if broker.relay.closed then Some(RelayClosed)
          else None
      ensures channel.Some? <==> Accepts(g, n) && !broker.relay.closed
      ensures trouble.Some? <==> channel == None
      ensures trouble.Some? ==> joining == old(joining) && broker.relay.joined == old(broker.relay.joined) && !created
      ensures SameBut(broker.base.channels, old(broker.base.channels), n.Key())
      ensures !Accepts(g, n) ==> broker.base.channels == old(broker.base.channels)
      ensures channel.Some? ==>
                var key, c := n.Key(), channel.value;
                && joining == Reserve(old(joining), key)
                && broker.base.channels == Sections.FindOrCreate(old(broker.base.channels), key, c)
                && broker.base.channels[key] == c && c.name == n && c.Valid()
                && broker.relay.joined == Sections.Join(old(broker.relay.joined), Topic(n), c)
                && created == (key !in old(broker.base.channels))
                && (created ==> fresh(c) && c.subscribers == map[])
                && (old(broker.Agrees()) ==> broker.Agrees())
    {
      SameButSelf(broker.base.channels, n.Key());
      hide Rows, ChannelName.Key, Accepts, Checked, Agree, Positive, Reserve, Reserved, Sections.Join, Topic, SameBut;
      hide Sections.FindOrCreate;
      StaysPositive(joining, n.Key());
      created := false;
      var missing, _ := broker.base.Find(g, n);
      CheckedIsAccepts(g, n);
      if missing.Some? && missing != Some(NoChannel) { return missing, None, false; }
      trouble, channel := broker.FindOrCreate(g, n);
      if trouble.Some? { return; }
      joining := Reserve(joining, n.Key());
      created := missing == Some(NoChannel);
    }

    /** Whether the channel is really gone. */
    method Drop(s: LiveSeat) returns (gone: bool)
      requires Valid() && SeatFits(s) && s.channel.Valid()
      modifies broker.base, broker.relay`joined
      ensures Valid()
      ensures var key := s.Key();
              var channels := old(broker.base.channels);
              if Reserved(joining, key) > 0 || s.channel.subscribers != map[] then
                !gone && broker.base.channels == channels && broker.relay.joined == old(broker.relay.joined)
              else
                && broker.base.channels == Remove(channels, key, key in channels && channels[key].subscribers == map[])
                && broker.relay.joined == LeaveIfGone(old(broker.relay.joined), broker.base.channels, key)
                && gone == (key !in broker.base.channels)
      ensures old(broker.Agrees()) ==> broker.Agrees()
    {
      hide Rows, ChannelName.Key, Positive, Reserved, Agree, Accepts, Checked, Topic, Remove, LeaveIfGone;
      if Reserved(joining, s.Key()) > 0 { return false; }
      var on := s.channel.Connections();
      if |on| > 0 { return false; }
      CheckedIsAccepts(s.grant, s.name);
      var trouble := broker.Remove(s.grant, s.name);
      var missing, _ := broker.base.Find(s.grant, s.name);
      gone := missing == Some(NoChannel);
    }

    /** One socket off one channel, and the channel away if it was the last. */
    method Unseat(id: SocketId, s: LiveSeat, down: set<SocketId>) returns (gone: bool)
      requires Valid() && SeatFits(s) && s.channel.Valid()
      modifies broker.base, broker.relay`joined, s.channel
      ensures Valid() && s.channel.Valid()
      ensures s.channel.subscribers == old(s.channel.subscribers) - {id}
      ensures s.Key() in broker.base.channels ==>
                s.Key() in old(broker.base.channels)
                  && broker.base.channels[s.Key()] == old(broker.base.channels)[s.Key()]
      ensures SameBut(broker.base.channels, old(broker.base.channels), s.Key())
      ensures Reserved(joining, s.Key()) > 0 || s.channel.subscribers != map[] ==>
                broker.base.channels == old(broker.base.channels)
      ensures gone <==>
                && Reserved(joining, s.Key()) == 0 && s.channel.subscribers == map[]
                && s.Key() !in broker.base.channels
      ensures s.channel.subscribers == map[] ==>
                s.Key() in broker.base.channels ==>
                  broker.base.channels[s.Key()] == s.channel ==> Reserved(joining, s.Key()) > 0
      ensures old(broker.Agrees()) ==> broker.Agrees()
    {
      var _, _ := s.channel.Unsubscribe(id, down);
      gone := Drop(s);
    }

    method AtChannelLimit(id: SocketId, n: Name) returns (at: bool)
      ensures at == AtLimit(seats, maxChannels, id, n.Key())
    {
      if maxChannels < 0 { return false; }
      var held := if id in seats then seats[id] else map[];
      if n.Key() in held { return false; }
      return |held| >= maxChannels;
    }

    method FinishJoining(key: string)
      requires Valid()
      modifies this`joining
      ensures Valid() && joining == Release(old(joining), key)
    {
      if Reserved(joining, key) <= 1 {
        joining := joining - {key};
        return;
      }
      joining := joining[key := joining[key] - 1];
    }

    method Take(id: SocketId, s: LiveSeat)
      requires Valid() && SeatFits(s)
      modifies this`seats, this`joining
      ensures Valid()
      ensures joining == Release(old(joining), s.Key()) && seats == TakeSeat(old(seats), id, s)
    {
      hide Rows, SeatFits, Positive, ChannelName.Key, Release;
      FinishJoining(s.Key());
      TakeSeatFits(seats, id, s);
      var held := if id in seats then seats[id] else map[];
      seats := seats[id := held[s.Key() := s]];
    }

    method ForgetOne(id: SocketId, n: Name) returns (s: Option<LiveSeat>)
      requires Valid()
      modifies this`seats
      ensures Valid()
      ensures s == if n.Key() in SeatsOf(old(seats), id) then Some(SeatsOf(old(seats), id)[n.Key()]) else None
      ensures seats == if s.Some? then Sections.ForgetOne(old(seats), id, n.Key()) else old(seats)
    {
      hide Rows, Positive, ChannelName.Key;
      var held := if id in seats then seats[id] else map[];
      if n.Key() !in held { return None; }
      s := Some(held[n.Key()]);
      ForgetOneFits(seats, id, n.Key());
      held := held - {n.Key()};
      if held == map[] {
        seats := seats - {id};
      } else {
        seats := seats[id := held];
      }
    }

    /** Everything the socket was on, taken out in one step. */
    method Forget(id: SocketId) returns (all: seq<LiveSeat>)
      requires Valid()
      modifies this`seats
      ensures Valid()
      ensures seats == old(seats) - {id}
      ensures SeatsListed(all, SeatsOf(old(seats), id))
    {
      var held := if id in seats then seats[id] else map[];
      ForgetFits(seats, id);
      hide Rows, SeatFits, ChannelName.Key, Positive, SeatsListed;
      seats := seats - {id};
      all := ListSeats(held);
    }

    /** What a failed subscription unwinds: the reservation, and then the socket and perhaps the channel. */
    method Unwind(id: SocketId, s: LiveSeat, down: set<SocketId>)
      requires Valid() && SeatFits(s) && s.channel.Valid()
      requires s.Key() in broker.base.channels && broker.base.channels[s.Key()] == s.channel
      modifies this`joining, broker.base, broker.relay`joined, s.channel
      ensures Valid() && joining == Release(old(joining), s.Key())
      ensures SameBut(broker.base.channels, old(broker.base.channels), s.Key())
      ensures s.channel.subscribers == old(s.channel.subscribers) - {id}
      ensures s.Key() in broker.base.channels ==> broker.base.channels[s.Key()] == s.channel
      ensures s.Key() in broker.base.channels && s.channel.subscribers == map[] ==> Reserved(joining, s.Key()) > 0
      ensures old(broker.Agrees()) ==> broker.Agrees()
    {
      hide Rows, ChannelName.Key, Agree, Accepts, KindOf, Release, Reserved, SameBut;
      FinishJoining(s.Key());
      var _ := Unseat(id, s, down);
    }

    /** The rest of pusher:subscribe once a channel is reached: on it and recorded, or off it and unwound. */
    method Settle(conn: Connection, s: LiveSeat, created: bool, member: Member, down: set<SocketId>)
      returns (end: JoinEnd)
      requires Valid() && conn.id != "" && SeatFits(s) && s.channel.Valid()
      requires s.Key() in broker.base.channels && broker.base.channels[s.Key()] == s.channel
      modifies this, broker.base, broker.relay`joined, s.channel
      ensures Valid() && joining == Release(old(joining), s.Key())
      ensures SameBut(broker.base.channels, old(broker.base.channels), s.Key())
      ensures end.Undone? || end.Seated?
      ensures end.Undone? ==> end.refusal == Refused(s.name, s.grant, Some(conn), member)
      ensures end.Undone? && down == {} ==> end.refusal.Some?
      ensures end.Seated? ==> Refused(s.name, s.grant, Some(conn), member) == None
      ensures end.Undone? ==>
                && seats == old(seats) && conn.id !in s.channel.subscribers
                && (s.Key() in broker.base.channels ==> broker.base.channels[s.Key()] == s.channel)
                && (s.Key() in broker.base.channels && old(s.channel.subscribers) == map[] ==>
                   Reserved(joining, s.Key()) > 0)
      ensures end.Seated? ==>
                && broker.base.channels == old(broker.base.channels)
                && s.channel.subscribers
                   == Channels.Seated(KindOf(s.name.requested), old(s.channel.subscribers), conn, member)
                && seats == TakeSeat(old(seats), conn.id, s)
                && end.created == created
                && (end.block.Some? ==> Describes(end.block.value, s.channel.subscribers))
      ensures old(broker.Agrees()) ==> broker.Agrees()
    {
      SameButSelf(broker.base.channels, s.Key());
      hide Rows, ChannelName.Key, Agree, Accepts, KindOf, Refused, Describes, SentTo, TakeSeat, Release, Reserved,
        SameBut, Positive, Peopled, Cached, Channels.Seated, AnnouncesArrival, Replay;
      var refusal, _, _, failed := s.channel.Subscribe(s.grant, Some(conn), member, down);
      if refusal.Some? || failed {
        Unwind(conn.id, s, down);
        return Undone(refusal);
      }
      Take(conn.id, s);
      var block := s.channel.Data();
      return JoinEnd.Seated(created, block);
    }

    /** The whole of pusher:subscribe after the policy, as one call sees it when nothing comes in between. */
    method Join(conn: Connection, g: Grant, n: Name, member: Member, down: set<SocketId>) returns (end: JoinEnd)
      requires Valid() && conn.id != ""
      modifies this, broker.base, broker.relay`joined, set k | k in broker.base.channels && k == n.Key() ::
          broker.base.channels[k]
      ensures Valid() && joining == old(joining)
      ensures end.TooMany? <==> AtLimit(old(seats), maxChannels, conn.id, n.Key())
      ensures SameBut(broker.base.channels, old(broker.base.channels), n.Key())
      ensures end.TooMany? ==> broker.base.channels == old(broker.base.channels)
      ensures end.TooMany? || end.Unreached? ==> unchanged(broker.relay)
      ensures end.Unreached? <==> !end.TooMany? && (!Accepts(g, n) || broker.relay.closed)
      ensures end.Undone? ==> end.refusal == Refused(n, g, Some(conn), member)
      ensures end.Undone? && down == {} ==> end.refusal.Some?
      ensures end.Seated? ==> Refused(n, g, Some(conn), member) == None
      ensures !end.Seated? ==> seats == old(seats)
      ensures end.Undone? ==>
                var key := n.Key();
                && (key in broker.base.channels ==> conn.id !in broker.base.channels[key].subscribers)
                && (key !in old(broker.base.channels) && key in broker.base.channels ==> Reserved(joining, key) > 0)
      ensures end.Seated? ==>
                var key := n.Key();
                var before: Subscribers :=
                  if key in old(broker.base.channels) then old(broker.base.channels[key].subscribers) else map[];
                && key in broker.base.channels
                && broker.base.channels[key].subscribers == Channels.Seated(KindOf(n.requested), before, conn, member)
                && seats == TakeSeat(old(seats), conn.id, Seat(n, broker.base.channels[key], g))
                && end.created == (key !in old(broker.base.channels))
                && (end.block.Some? ==> Describes(end.block.value, broker.base.channels[key].subscribers))
      ensures !broker.relay.closed && old(broker.Agrees()) ==> broker.Agrees()
    {
      hide Rows, ChannelName.Key, Agree, Checked, AtLimit, KindOf, Describes, Channels.Seated, TakeSeat, Reserve,
        Release, Reserved, Positive;
      SameButSelf(broker.base.channels, n.Key());
      hide SameBut;
      var at := AtChannelLimit(conn.id, n);
      if at { return TooMany; }
      var trouble, reached, created := Reach(g, n);
      if trouble.Some? { return Unreached(trouble.value); }
      ReleaseUndoesReserve(old(joining), n.Key());
      ghost var between := broker.base.channels;
      end := Settle(conn, Seat(n, reached.value, g), created, member, down);
      SameButThrough(broker.base.channels, between, old(broker.base.channels), n.Key());
    }

    /**
     * pusher:unsubscribe: nothing for a name the socket has no seat for, otherwise off the record and off the channel.
     */
    method Part(id: SocketId, n: Name, down: set<SocketId>) returns (gone: bool)
      requires Valid()
      requires n.Key() in SeatsOf(seats, id) ==> SeatsOf(seats, id)[n.Key()].channel.Valid()
      modifies this`seats, broker.base, broker.relay`joined
      modifies set k | k in SeatsOf(seats, id) && k == n.Key() :: SeatsOf(seats, id)[k].channel
      ensures Valid()
      ensures n.Key() !in SeatsOf(old(seats), id) ==>
                !gone && seats == old(seats) && broker.base.channels == old(broker.base.channels)
                  && unchanged(broker.relay)
      ensures n.Key() in SeatsOf(old(seats), id) ==>
                && seats == Sections.ForgetOne(old(seats), id, n.Key())
                && Unwound(SeatsOf(old(seats), id)[n.Key()], id, joining, broker.base.channels)
                && (gone <==>
                      && Reserved(joining, n.Key()) == 0 && n.Key() !in broker.base.channels
                      && SeatsOf(old(seats), id)[n.Key()].channel.subscribers == map[])
      ensures old(broker.Agrees()) ==> broker.Agrees()
    {
      ForgetFits(seats, id);
      hide Rows, ChannelName.Key, Positive, Agree, Accepts, Sections.ForgetOne;
      var s := ForgetOne(id, n);
      if s == None { return false; }
      gone := Unseat(id, s.value, down);
    }

    /** Off every channel the socket had a seat on; a channel left empty is not left behind. */
    method Close(id: SocketId, down: set<SocketId>)
      requires Valid()
      requires forall k | k in SeatsOf(seats, id) :: SeatsOf(seats, id)[k].channel.Valid()
      modifies this`seats, broker.base, broker.relay`joined, set k | k in SeatsOf(seats, id) ::
          SeatsOf(seats, id)[k].channel
      ensures Valid() && seats == old(seats) - {id}
      ensures forall k | k in SeatsOf(old(seats), id) ::
          Unwound(SeatsOf(old(seats), id)[k], id, joining, broker.base.channels)
      ensures forall k | k in old(broker.base.channels) && k !in SeatsOf(old(seats), id) ::
                k in broker.base.channels && broker.base.channels[k] == old(broker.base.channels)[k]
      ensures old(broker.Agrees()) ==> broker.Agrees()
    {
      ghost var held := SeatsOf(seats, id);
      ForgetFits(seats, id);
      var all := Forget(id);
      ListedApart(all, held);
      hide Rows, Positive, ChannelName.Key, Agree, SeatFits, Unwound;
      UnseatAll(id, all, down);
    }

    method UnseatAll(id: SocketId, all: seq<LiveSeat>, down: set<SocketId>)
      requires Valid() && Apart(all)
      requires forall i | 0 <= i < |all| :: all[i].channel.Valid()
      modifies broker.base, broker.relay`joined, set i | 0 <= i < |all| :: all[i].channel
      ensures Valid()
      ensures forall i | 0 <= i < |all| :: Unwound(all[i], id, joining, broker.base.channels)
      ensures forall k | k in old(broker.base.channels) && (forall i | 0 <= i < |all| :: all[i].Key() != k) ::
                k in broker.base.channels && broker.base.channels[k] == old(broker.base.channels)[k]
      ensures old(broker.Agrees()) ==> broker.Agrees()
    {
      hide Rows, Positive, ChannelName.Key, Agree, Unwound, SeatFits, Reserved;
      for i := 0 to |all|
        invariant Valid()
        invariant forall j | 0 <= j < |all| :: all[j].channel.Valid()
        invariant forall j | 0 <= j < i :: Unwound(all[j], id, joining, broker.base.channels)
        invariant forall k | k in old(broker.base.channels) && (forall j | 0 <= j < |all| :: all[j].Key() != k) ::
                    k in broker.base.channels && broker.base.channels[k] == old(broker.base.channels)[k]
        invariant old(broker.Agrees()) ==> broker.Agrees()
      {
        UnseatNext(id, all, i, down);
      }
    }

    method UnseatNext(id: SocketId, all: seq<LiveSeat>, i: nat, down: set<SocketId>)
      requires Valid() && Apart(all) && i < |all| && all[i].channel.Valid()
      requires forall j | 0 <= j < i :: Unwound(all[j], id, joining, broker.base.channels)
      modifies broker.base, broker.relay`joined, all[i].channel
      ensures Valid() && all[i].channel.Valid()
      ensures forall j | 0 <= j <= i :: Unwound(all[j], id, joining, broker.base.channels)
      ensures forall k | k in old(broker.base.channels) && k != all[i].Key() ::
                k in broker.base.channels && broker.base.channels[k] == old(broker.base.channels)[k]
      ensures old(broker.Agrees()) ==> broker.Agrees()
    {
      hide Rows, Positive, ChannelName.Key, Agree, SeatFits, Reserved, KindOf, Peopled, Cached, SameBut;
      ghost var before := broker.base.channels;
      var _ := Unseat(id, all[i], down);
      ButOne(before, broker.base.channels, all[i].Key());
    }
  }

  lemma ButOne(before: map<string, Channel>, after: map<string, Channel>, key: string)
    requires SameBut(after, before, key)
    ensures forall k | k in before && k != key :: k in after && after[k] == before[k]
    ensures forall k | k in after && k != key :: k in before && after[k] == before[k]
  {
  }

  /** Different seats of one socket: different names, so different channels. */
  ghost predicate Apart(all: seq<LiveSeat>) {
    && (forall i | 0 <= i < |all| :: SeatFits(all[i]))
    && (forall i, j | 0 <= i < j < |all| :: all[i].Key() != all[j].Key() && all[i].channel != all[j].channel)
  }

  lemma ListedApart(all: seq<LiveSeat>, held: map<string, LiveSeat>)
    requires SeatsListed(all, held) && forall k | k in held :: SeatFits(held[k])
    ensures Apart(all)
    ensures forall k | k in held :: exists i :: 0 <= i < |all| && all[i] == held[k]
    ensures forall i | 0 <= i < |all| :: all[i].Key() in held && held[all[i].Key()] == all[i]
  {
    hide ChannelName.Key, Accepts;
    forall i, j | 0 <= i < j < |all| ensures all[i].channel != all[j].channel {
      assert all[i].Key() != all[j].Key();
    }
  }

  /**
   * The socket is off, and if that left the channel empty the registry has let it go unless somebody is on the way in.
   */
  ghost predicate Unwound(s: LiveSeat, id: SocketId, joining: map<string, nat>, channels: map<string, Channel>)
    reads s.channel
  {
    && id !in s.channel.subscribers
    && (s.Key() in channels && channels[s.Key()] == s.channel && s.channel.subscribers == map[] ==>
       Reserved(joining, s.Key()) > 0)
  }

  method ListSeats(held: map<string, LiveSeat>) returns (all: seq<LiveSeat>)
    requires forall k | k in held :: held[k].Key() == k
    ensures SeatsListed(all, held)
  {
    hide ChannelName.Key;
    all := [];
    var rest := held.Keys;
    while rest != {}
      invariant rest <= held.Keys
      invariant SeatsListed(all, held - rest)
      decreases |rest|
    {
      var k :| k in rest;
      SeatsListedMore(all, held, rest, k);
      all := all + [held[k]];
      rest := rest - {k};
    }
    assert held - rest == held;
  }

  /** A socket's seats, each once, in whatever order the map gave them. */
  ghost predicate SeatsListed(all: seq<LiveSeat>, held: map<string, LiveSeat>) {
    && (forall i | 0 <= i < |all| :: all[i].Key() in held && held[all[i].Key()] == all[i])
    && (forall i, j | 0 <= i < j < |all| :: all[i].Key() != all[j].Key())
    && (forall k | k in held :: held[k] in all)
  }

  lemma SeatsListedMore(all: seq<LiveSeat>, held: map<string, LiveSeat>, rest: set<string>, k: string)
    requires SeatsListed(all, held - rest) && k in rest && k in held && held[k].Key() == k
    ensures SeatsListed(all + [held[k]], held - (rest - {k}))
  {
    hide ChannelName.Key;
    var more := all + [held[k]];
    forall key | key in held - (rest - {k}) ensures held[key] in more {
      if key == k {
        assert more[|all|] == held[k];
      } else {
        var i :| 0 <= i < |all| && all[i] == (held - rest)[key];
        assert more[i] == held[key];
      }
    }
  }

  lemma ForgetFits(seats: Seats<Channel>, id: SocketId)
    requires Rows(seats)
    ensures Rows(seats - {id})
    ensures forall k | k in SeatsOf(seats, id) :: SeatsOf(seats, id)[k].Key() == k && SeatFits(SeatsOf(seats, id)[k])
  {
  }
}
