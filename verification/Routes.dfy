/**
 * The routes that answer for the whole fleet: what this instance holds, and what the others said
 * (protocols/pusher/routes.go).
 */
module Routes {
  import opened Names
  import opened Options
  import opened Ordering
  import opened Channels
  import opened Tallies

  /** The people on a channel; nobody on a channel that publishes nobody. */
  function People(subs: Subscribers): set<string> {
    Users(subs) - {""}
  }

  function Seen(on: seq<Subscriber>): set<string> {
    set i | 0 <= i < |on| && on[i].member.userId != "" :: on[i].member.userId
  }

  lemma SeenMore(on: seq<Subscriber>, i: nat)
    requires i < |on|
    ensures Seen(on[..i + 1]) == Seen(on[..i]) + if on[i].member.userId == "" then {} else {on[i].member.userId}
  {
    var less, more := on[..i], on[..i + 1];
    assert more == less + [on[i]];
    forall u ensures u in Seen(more) <==> u in Seen(less) || (u != "" && u == on[i].member.userId) {
      if u in Seen(less) {
        var k :| 0 <= k < |less| && less[k].member.userId == u;
        assert more[k].member.userId == u;
      }
      if u != "" && u == on[i].member.userId { assert more[i].member.userId == u; }
    }
  }

  lemma ListedPeople(all: seq<Subscriber>, subs: Subscribers)
    requires Channels.Lists(all, subs, subs.Keys)
    ensures Seen(all) == People(subs)
  {
    forall u | u in People(subs) ensures u in Seen(all) {
      var id :| id in subs && subs[id].member.userId == u;
      var i :| 0 <= i < |all| && all[i].conn.id == id;
    }
  }

  /** How many distinct people, here and elsewhere together: two tabs are one member, on one instance or on two. */
  method CountMembers(held: Channel, fleet: set<string>) returns (n: nat)
    requires held.Valid()
    ensures n == |People(held.subscribers) + fleet|
  {
    hide KindOf, Cached, Seen, People, Channels.Lists, Peopled, Ascending;
    var seen: set<string> := {};
    var rest := fleet;
    while rest != {}
      invariant rest <= fleet && seen == fleet - rest
      decreases |rest|
    {
      var id :| id in rest;
      seen := seen + {id};
      rest := rest - {id};
    }
    var on := held.Connections();
    assert Seen(on[..0]) == {} by { NoneSeen(on[..0]); }
    for i := 0 to |on|
      invariant seen == fleet + Seen(on[..i])
    {
      SeenMore(on, i);
      if on[i].member.userId != "" {
        seen := seen + {on[i].member.userId};
      }
    }
    assert on[..|on|] == on;
    ListedPeople(on, held.subscribers);
    assert seen == People(held.subscribers) + fleet;
    n := |seen|;
  }

  lemma NoneSeen(on: seq<Subscriber>)
    requires on == []
    ensures Seen(on) == {}
  {
  }

  /** The ids in one order, each once. */
  method Members(users: set<string>) returns (ids: seq<string>)
    ensures Ascending(ids) && Distinct(ids) && forall u :: u in ids <==> u in users
  {
    ids := [];
    var rest := users;
    while rest != {}
      invariant rest <= users && Distinct(ids) && forall u :: u in ids <==> u in users && u !in rest
      decreases |rest|
    {
      var id :| id in rest;
      ids := ids + [id];
      rest := rest - {id};
    }
    SortKeepsDistinct(ids);
    Sorted(ids);
    ids := Sort(ids);
  }

  /** The member list of a presence channel: everybody here or elsewhere, and nobody twice. */
  method ChannelUsers(held: Channel, fleet: set<string>) returns (users: seq<string>)
    requires held.Valid()
    ensures Distinct(users) && forall u :: u in users <==> u in People(held.subscribers) + fleet
    ensures |users| == |People(held.subscribers) + fleet|
  {
    hide KindOf, Cached, Seen, People, Channels.Lists, Peopled, Ascending;
    users := [];
    var seen: set<string> := {};
    var on := held.Connections();
    assert Seen(on[..0]) == {} by { NoneSeen(on[..0]); }
    for i := 0 to |on|
      invariant Distinct(users) && (forall u :: u in users <==> u in seen)
      invariant seen == Seen(on[..i])
    {
      SeenMore(on, i);
      var id := on[i].member.userId;
      if id != "" && id !in seen {
        seen := seen + {id};
        users := users + [id];
      }
    }
    assert on[..|on|] == on;
    ListedPeople(on, held.subscribers);
    var elsewhere := Members(fleet);
    users := Extend(users, elsewhere);
    DistinctCount(users, People(held.subscribers) + fleet);
  }

  /** The second list after the first, without what the first already has. */
  method Extend(users: seq<string>, more: seq<string>) returns (all: seq<string>)
    requires Distinct(users)
    ensures users <= all && Distinct(all) && forall u :: u in all <==> u in users || u in more
  {
    all := users;
    for i := 0 to |more|
      invariant users <= all && Distinct(all) && forall u :: u in all <==> u in users || u in more[..i]
    {
      assert more[..i + 1] == more[..i] + [more[i]];
      if more[i] !in all {
        all := all + [more[i]];
      }
    }
    assert more[..|more|] == more;
  }

  // ----- The channel list -----

  datatype Entry = Entry(occupied: bool, userCount: Option<nat>)

  /** Whether a name the fleet answered with is a presence channel of the tenant that asks. */
  predicate FleetPresence(g: Grant, requested: string) {
    NewChannelName(g, requested).Some? && KindOf(requested).IsPresence()
  }

  /**
   * What is said of one channel: nobody here is nobody here, and a channel held by one side only is still a channel.
   */
  function Expected(g: Grant, requested: string, here: Subscribers, local: bool, fleet: ChannelTally): Entry {
    var presence := if local then KindOf(requested).IsPresence() else FleetPresence(g, requested);
    Entry(|here| + fleet.subscriptions > 0, if presence then Some(|People(here) + fleet.users|) else None)
  }

  /**
   * Occupied if anybody has subscribed, here or elsewhere; a count for presence channels, of the people here and
   * elsewhere, each once. A name only others answered for says its kind just if it is one the tenant could have.
   */
  lemma EntrySays(g: Grant, requested: string, here: Subscribers, local: bool, fleet: ChannelTally)
    ensures var entry := Expected(g, requested, here, local, fleet);
            var people := set id | id in here && here[id].member.userId != "" :: here[id].member.userId;
            && (entry.occupied <==> |here| + fleet.subscriptions > 0)
            && (entry.userCount.Some? <==>
                  "presence-" <= requested && (local || (ValidRequested(requested) && ValidTenant(g.tenant))))
            && (entry.userCount.Some? ==> entry.userCount.value == |people + fleet.users|)
  {
    KindByPrefix(requested);
    hide KindOf, ValidRequested, ValidTenant;
    assert People(here) == set id | id in here && here[id].member.userId != "" :: here[id].member.userId;
  }

  ghost predicate Distinctly(held: seq<Channel>) {
    forall i, j | 0 <= i < j < |held| :: held[i].name.requested != held[j].name.requested
  }

  /** One entry for every channel held here or answered for elsewhere, and no other. */
  method ListChannels(g: Grant, held: seq<Channel>, elsewhere: map<string, ChannelTally>)
    returns (listed: map<string, Entry>)
    requires Distinctly(held) && forall i | 0 <= i < |held| :: held[i].Valid()
    ensures forall i | 0 <= i < |held| ::
              var requested := held[i].name.requested;
              requested in listed
                && listed[requested] == Expected(g, requested, held[i].subscribers, true, Of(elsewhere, requested))
    ensures forall r | r in elsewhere && (forall i | 0 <= i < |held| :: held[i].name.requested != r) ::
              r in listed && listed[r] == Expected(g, r, map[], false, elsewhere[r])
    ensures forall r | r in listed :: r in elsewhere || exists i :: 0 <= i < |held| && held[i].name.requested == r
  {
    hide Expected, Of, KindOf, Cached, Peopled;
    listed := map[];
    for i := 0 to |held|
      invariant forall k | 0 <= k < i ::
                  var requested := held[k].name.requested;
                  requested in listed
                    && listed[requested] == Expected(g, requested, held[k].subscribers, true, Of(elsewhere, requested))
      invariant forall r | r in listed :: exists k :: 0 <= k < i && held[k].name.requested == r
    {
      var entry := EntryHere(g, held[i], Of(elsewhere, held[i].name.requested));
      listed := listed[held[i].name.requested := entry];
    }
    listed := AddElsewhere(g, listed, elsewhere);
  }

  method EntryHere(g: Grant, held: Channel, fleet: ChannelTally) returns (entry: Entry)
    requires held.Valid()
    ensures entry == Expected(g, held.name.requested, held.subscribers, true, fleet)
  {
    hide KindOf, Cached, People, Channels.Lists, Peopled, Ascending, FleetPresence;
    var on := held.Connections();
    entry := Entry(|on| + fleet.subscriptions > 0, None);
    if KindOf(held.name.requested).IsPresence() {
      var n := CountMembers(held, fleet.users);
      entry := entry.(userCount := Some(n));
    }
  }

  method EntryElsewhere(g: Grant, requested: string, one: ChannelTally) returns (entry: Entry)
    ensures entry == Expected(g, requested, map[], false, one)
  {
    hide FleetPresence;
    entry := Entry(one.subscriptions > 0, None);
    if FleetPresence(g, requested) {
      assert People(map[]) + one.users == one.users;
      entry := entry.(userCount := Some(|one.users|));
    }
  }

  /** Entries for the names only the other instances answered for. */
  method AddElsewhere(g: Grant, here: map<string, Entry>, elsewhere: map<string, ChannelTally>)
    returns (listed: map<string, Entry>)
    ensures forall r :: r in listed <==> r in here || r in elsewhere
    ensures forall r | r in here :: listed[r] == here[r]
    ensures forall r | r in elsewhere && r !in here :: listed[r] == Expected(g, r, map[], false, elsewhere[r])
  {
    hide Expected;
    listed := here;
    var rest := elsewhere.Keys;
    while rest != {}
      invariant rest <= elsewhere.Keys
      invariant forall r :: r in listed <==> r in here || (r in elsewhere && r !in rest)
      invariant forall r | r in here :: listed[r] == here[r]
      invariant forall r | r in elsewhere && r !in rest && r !in here ::
          listed[r] == Expected(g, r, map[], false, elsewhere[r])
      decreases |rest|
    {
      var r :| r in rest;
      rest := rest - {r};
      if r !in listed {
        var entry := EntryElsewhere(g, r, elsewhere[r]);
        listed := listed[r := entry];
      }
    }
  }
}
