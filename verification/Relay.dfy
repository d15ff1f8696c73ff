/**
 * One instance's end of the fleet: which topics it listens to, and the registry that keeps them in step (scaling.go).
 */
module Relays {
  import opened Names
  import opened Options
  import opened Sections
  import opened Channels
  import opened Brokers

  /** What one instance tells the others. The tenant is in the topic and nowhere else. */
  datatype Message = Relayed(origin: string, event: string, requested: string, data: string, socket: SocketId,
    userId: string)

  function MessageOf(origin: string, e: Event): Message {
    Relayed(origin, e.name, e.channel.requested, e.data, e.socket, e.userId)
  }

  /** The event a message becomes on the channel it arrived for: the name is the subscription's, never the message's. */
  function EventOf(m: Message, n: Name): Event {
    Event(m.event, n, m.data, m.socket, m.userId)
  }

  predicate Takes(id: string, m: Message, n: Name) {
    m.origin != id && m.origin != "" && m.requested == n.requested
  }

  datatype PublishTrouble = NoName | NoEvent | Closed

  class Relay {
    const id: string
    const bus: bool
    var joined: map<string, Channel>
    var closed: bool

    constructor (id: string, bus: bool)
      ensures joined == map[] && !closed && this.id == id && this.bus == bus
    {
      this.id, this.bus := id, bus;
      joined, closed := map[], false;
    }

    method Join(g: Grant, channel: Channel) returns (trouble: Option<Trouble>)
      modifies this`joined
      ensures trouble ==
              if g.action != ChannelJoin then Some(Trouble.NotAJoin)
              else if g.tenant != channel.name.tenant then Some(Trouble.WrongTenant)
              else if closed then Some(RelayClosed) else None
      ensures joined == if trouble == None then Sections.Join(old(joined), Topic(channel.name), channel)
          else old(joined)
    {
      if g.action != ChannelJoin { return Some(Trouble.NotAJoin); }
      if g.tenant != channel.name.tenant { return Some(Trouble.WrongTenant); }
      if closed { return Some(RelayClosed); }
      var topic := Topic(channel.name);
      if topic !in joined {
        joined := joined[topic := channel];
      }
      trouble := None;
    }

    method Leave(n: Name)
      modifies this`joined
      ensures joined == old(joined) - {Topic(n)}
    {
      joined := joined - {Topic(n)};
    }

    method Close()
      modifies this
      ensures closed && (joined == if old(closed) then old(joined) else map[])
    {
      if !closed {
        closed, joined := true, map[];
      }
    }

    /** What goes on the bus, if anything does; a relay with no bus has nothing to fail. */
    method Publish(e: Event) returns (trouble: Option<PublishTrouble>, sent: Option<(string, Message)>)
      ensures trouble ==
              if e.channel.IsZero() then Some(NoName) else if e.name == "" then Some(NoEvent)
                else if closed then Some(Closed) else None
      ensures sent == if trouble == None && bus then Some((Topic(e.channel), MessageOf(id, e))) else None
    {
      if e.channel.IsZero() { return Some(NoName), None; }
      if e.name == "" { return Some(NoEvent), None; }
      if closed { return Some(Closed), None; }
      if !bus { return None, None; }
      return None, Some((Topic(e.channel), MessageOf(id, e)));
    }

    /** One message off the bus. Nothing here writes to the bus again. */
    method Receive(channel: Channel, m: Message, down: set<SocketId>) returns (delivered: bool, sent: seq<Delivery>)
      requires channel.Valid()
      modifies channel
      ensures channel.Valid() && channel.subscribers == old(channel.subscribers)
      ensures delivered <==>
                m.origin != id && m.origin != "" && m.requested == channel.name.requested && m.event != ""
      ensures delivered ==>
          SentTo(sent, Frame.Message(EventOf(m, channel.name)), channel.subscribers.Keys - {m.socket} - down)
      ensures !delivered ==> sent == []
      ensures channel.history == if delivered then old(channel.history) + [EventOf(m, channel.name)]
          else old(channel.history)
    {
      if m.origin == id { return false, []; }
      if m.origin == "" { return false, []; }
      if m.requested != channel.name.requested { return false, []; }
      var failed;
      delivered, sent, failed := channel.Send(EventOf(m, channel.name), m.socket, down);
    }
  }

  /** The joined topics are those of the channels held, each for the same channel. */
  ghost predicate Agree<C>(channels: map<string, C>, joined: map<string, C>) {
    && (forall k | k in channels :: TOPIC_PREFIX + k in joined && joined[TOPIC_PREFIX + k] == channels[k])
    && (forall t | t in joined :: 6 <= |t| && t == TOPIC_PREFIX + t[6..] && t[6..] in channels)
  }

  lemma TopicTail(n: Name)
    ensures Topic(n) == TOPIC_PREFIX + n.Key() && 6 <= |Topic(n)| && Topic(n)[6..] == n.Key()
    ensures forall k: string :: (TOPIC_PREFIX + k == Topic(n) ==> k == n.Key())
  {
    forall k: string ensures TOPIC_PREFIX + k == Topic(n) ==> k == n.Key() {
      assert (TOPIC_PREFIX + k)[6..] == k;
    }
  }

  lemma AgreeOnJoin<C>(channels: map<string, C>, joined: map<string, C>, n: Name, c: C)
    requires Agree(channels, joined)
    requires n.Key() in channels ==> channels[n.Key()] == c
    ensures Agree(Sections.FindOrCreate(channels, n.Key(), c), Sections.Join(joined, Topic(n), c))
  {
    TopicTail(n);
    hide Topic, ChannelName.Key;
  }

  lemma AgreeOnLeave<C>(channels: map<string, C>, left: map<string, C>, joined: map<string, C>, n: Name)
    requires Agree(channels, joined)
    requires left == channels || left == channels - {n.Key()}
    ensures Agree(left, LeaveIfGone(joined, left, n.Key()))
  {
    TopicTail(n);
    hide Topic, ChannelName.Key;
  }

  /** Joins the topic of what it creates, and leaves the topic of what is really gone. */
  class RelayedBroker {
    const base: MemoryBroker
    const relay: Relay

    constructor (base: MemoryBroker, relay: Relay)
      ensures this.base == base && this.relay == relay
    {
      this.base, this.relay := base, relay;
    }

    ghost predicate Agrees()
      reads base, relay
    {
      Agree(base.channels, relay.joined)
    }

    method FindOrCreate(g: Grant, n: Asked) returns (trouble: Option<Trouble>, held: Option<Channel>)
      requires base.Valid() && base.ChannelsValid()
      modifies base, relay`joined
      ensures base.Valid() && base.ChannelsValid()
      ensures trouble == if !Accepts(g, n) then Checked(g, n) else if relay.closed then Some(RelayClosed) else None
      ensures held.Some? <==> trouble == None
      ensures SameBut(base.channels, old(base.channels), n.Key())
      ensures !Accepts(g, n) ==> base.channels == old(base.channels)
      ensures trouble.Some? ==> relay.joined == old(relay.joined)
      ensures held.Some? ==>
                && base.channels == Sections.FindOrCreate(old(base.channels), n.Key(), held.value)
                && base.channels[n.Key()] == held.value && held.value.name == n
                && relay.joined == Sections.Join(old(relay.joined), Topic(n), held.value)
                && (n.Key() !in old(base.channels) ==>
                   fresh(held.value) && held.value.Valid() && held.value.subscribers == map[])
                && (old(Agrees()) ==> Agrees())
    {
      trouble, held := base.FindOrCreate(g, n);
      CheckedIsAccepts(g, n);
      if trouble.Some? { return; }
      trouble := relay.Join(g, held.value);
      if trouble.Some? { held := None; return; }
      if old(Agrees()) { AgreeOnJoin(old(base.channels), old(relay.joined), n, held.value); }
    }

    method Remove(g: Grant, n: Asked) returns (trouble: Option<Trouble>)
      requires base.Valid() && base.ChannelsValid()
      modifies base, relay`joined
      ensures base.Valid() && base.ChannelsValid()
      ensures trouble == Checked(g, n)
      ensures trouble.Some? ==> base.channels == old(base.channels) && relay.joined == old(relay.joined)
      ensures trouble == None ==>
                var key := n.Key();
                && base.channels
                   == Sections.Remove(old(base.channels), key, key in old(base.channels)
                     && old(base.channels)[key].subscribers == map[])
                && relay.joined == LeaveIfGone(old(relay.joined), base.channels, key)
                && (old(Agrees()) ==> Agrees())
    {
      trouble := base.Remove(g, n);
      if trouble.Some? { return; }
      CheckedIsAccepts(g, n);
      var missing, _ := base.Find(g, n);
      if missing == Some(NoChannel) {
        relay.Leave(n);
      }
      if old(Agrees()) { AgreeOnLeave(old(base.channels), base.channels, old(relay.joined), n); }
    }
  }
}
