/**
 * What each critical section does to the maps it guards (protocols/pusher/protocol.go, broker.go, scaling.go),
 * for any kind of channel identity: the interleaving uses numbers, the objects of Pusher.dfy use references.
 */
module Sections {
  import opened Names

  type SocketId = string

  datatype Seat<+C> = Seat(name: Name, channel: C, grant: Grant) {
    function Key(): string { name.Key() }
  }

  type Seats<C> = map<SocketId, map<string, Seat<C>>>

  /** Both checks of a broker on a name: the grant joins channels, and is for the tenant of the name. */
  predicate Accepts(g: Grant, n: ChannelName) {
    g.action == ChannelJoin && g.tenant != "" && !n.IsZero() && g.tenant == n.tenant
  }

  // ----- Reservations -----

  function Reserved(joining: map<string, nat>, key: string): nat {
    if key in joining then joining[key] else 0
  }

  function Reserve(joining: map<string, nat>, key: string): map<string, nat> {
    joining[key := Reserved(joining, key) + 1]
  }

  function Release(joining: map<string, nat>, key: string): map<string, nat> {
    if Reserved(joining, key) <= 1 then joining - {key} else joining[key := joining[key] - 1]
  }

  // ----- Seats -----

  function SeatsOf<C>(seats: Seats<C>, id: SocketId): map<string, Seat<C>> {
    if id in seats then seats[id] else map[]
  }

  function TakeSeat<C>(seats: Seats<C>, id: SocketId, s: Seat<C>): Seats<C> {
    seats[id := SeatsOf(seats, id)[s.Key() := s]]
  }

  function ForgetOne<C>(seats: Seats<C>, id: SocketId, key: string): Seats<C> {
    var held := SeatsOf(seats, id) - {key};
    if held == map[] then seats - {id} else seats[id := held]
  }

  /** A name the socket is already on adds no seat, and a negative limit is none. */
  predicate AtLimit<C>(seats: Seats<C>, max: int, id: SocketId, key: string) {
    max >= 0 && key !in SeatsOf(seats, id) && |SeatsOf(seats, id)| >= max
  }

  /** The answer at the door is yes exactly when one seat more under this key would be one too many. */
  lemma RefusedExact<C>(seats: Seats<C>, max: int, id: SocketId, s: Seat<C>)
    requires 0 <= max ==> |SeatsOf(seats, id)| <= max
    ensures AtLimit(seats, max, id, s.Key()) <==> 0 <= max < |SeatsOf(seats, id)[s.Key() := s]|
  {
    var held := SeatsOf(seats, id);
    hide ChannelName.Key;
    if s.Key() in held {
      assert held[s.Key() := s].Keys == held.Keys;
      assert |held[s.Key() := s]| == |held.Keys|;
    } else {
      assert |held[s.Key() := s]| == |held| + 1;
    }
  }

  // ----- The registry and the relay -----

  function FindOrCreate<C>(channels: map<string, C>, key: string, made: C): map<string, C> {
    if key in channels then channels else channels[key := made]
  }

  /** empty says whether the channel held under the key has nobody on it at this moment. */
  function Remove<C>(channels: map<string, C>, key: string, empty: bool): map<string, C> {
    if key in channels && empty then channels - {key} else channels
  }

  /** Relay.Join of an open relay, keyed by topic; a topic already joined is left as it is. */
  function Join<C>(joined: map<string, C>, topic: string, channel: C): map<string, C> {
    if topic in joined then joined else joined[topic := channel]
  }

  /** The end of relayedBroker.Remove: the topic is left only when the channel is really gone. */
  function LeaveIfGone<C>(joined: map<string, C>, channels: map<string, C>, key: string): map<string, C> {
    if key in channels then joined else joined - {TOPIC_PREFIX + key}
  }

  /** Two registries that differ under this key at most. */
  ghost predicate SameBut<C>(a: map<string, C>, b: map<string, C>, key: string) {
    forall k | k != key :: (k in a <==> k in b) && (k in a ==> a[k] == b[k])
  }

  lemma SameButThrough<C>(a: map<string, C>, b: map<string, C>, c: map<string, C>, key: string)
    requires SameBut(a, b, key) && SameBut(b, c, key)
    ensures SameBut(a, c, key)
  {
  }

  lemma SameButSelf<C>(a: map<string, C>, key: string)
    ensures SameBut(a, a, key)
  {
  }
}
