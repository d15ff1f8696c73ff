/** The registry of one process: every channel by its key (protocols/pusher/broker.go). */
module Brokers {
  import opened Names
  import opened Options
  import opened Ordering
  import opened Sections
  import opened Channels

  /** A name is one NewChannelName built, or the zero value. */
  type Asked = n: ChannelName | n.IsZero() || (ValidTenant(n.tenant) && ValidRequested(n.requested))
    witness ChannelName("t", "c")

  datatype Trouble = NotAJoin | NoTenant | ZeroName | WrongTenant | NoChannel | RelayClosed

  /** tenantOf, then accepts. */
  function TenantTrouble(g: Grant): Option<Trouble> {
    if g.action != ChannelJoin then Some(Trouble.NotAJoin) else if g.tenant == "" then Some(NoTenant) else None
  }

  function Checked(g: Grant, n: ChannelName): Option<Trouble> {
    if TenantTrouble(g).Some? then TenantTrouble(g)
    else if n.IsZero() then Some(ZeroName)
    else if g.tenant != n.tenant then Some(Trouble.WrongTenant)
    else None
  }

  /** Only a grant to join channels of the name's own tenant passes, and a refusal names something really wrong. */
  lemma CheckedIsAccepts(g: Grant, n: ChannelName)
    ensures Checked(g, n) == None <==> Accepts(g, n)
    ensures Checked(g, n) == None <==>
              g.action == ChannelJoin && g.tenant != "" && n.requested != "" && n.tenant == g.tenant
    ensures match Checked(g, n) {
              case Some(NotAJoin) => g.action != ChannelJoin
              case Some(NoTenant) => g.tenant == ""
              case Some(ZeroName) => n.tenant == "" || n.requested == ""
              case Some(WrongTenant) => n.tenant != g.tenant
              case Some(_) => false
              case None => true
            }
  {
  }

  class MemoryBroker {
    var channels: map<string, Channel>

    ghost predicate Valid()
      reads this
    {
      forall k | k in channels :: channels[k].name.Key() == k
    }

    ghost predicate ChannelsValid()
      reads this, channels.Values
    {
      forall k | k in channels :: channels[k].Valid()
    }

    constructor ()
      ensures Valid() && ChannelsValid() && channels == map[]
    {
      channels := map[];
    }

    method Find(g: Grant, n: Asked) returns (trouble: Option<Trouble>, found: Option<Channel>)
      ensures trouble == if Accepts(g, n) then (if n.Key() in channels then None else Some(NoChannel))
          else Checked(g, n)
      ensures found == if trouble == None then Some(channels[n.Key()]) else None
    {
      trouble, found := Checked(g, n), None;
      CheckedIsAccepts(g, n);
      if trouble.Some? { return; }
      if n.Key() !in channels { return Some(NoChannel), None; }
      found := Some(channels[n.Key()]);
    }

    method FindOrCreate(g: Grant, n: Asked) returns (trouble: Option<Trouble>, held: Option<Channel>)
      requires Valid() && ChannelsValid()
      modifies this
      ensures Valid() && ChannelsValid()
      ensures trouble == Checked(g, n) && (held.Some? <==> Accepts(g, n))
      ensures held == None ==> channels == old(channels)
      ensures held.Some? ==>
                && channels == Sections.FindOrCreate(old(channels), n.Key(), held.value)
                && channels[n.Key()] == held.value && held.value.name == n
                && (n.Key() !in old(channels) ==>
                   fresh(held.value) && held.value.Valid() && held.value.subscribers == map[])
    {
      trouble, held := Checked(g, n), None;
      CheckedIsAccepts(g, n);
      if trouble.Some? { return; }
      var key := n.Key();
      if key in channels {
        KeyInjective(channels[key].name, n);
        held := Some(channels[key]);
        return;
      }
      var made := new Channel(n);
      channels := channels[key := made];
      held := Some(made);
    }

    /** Takes the name away if nobody is on its channel; otherwise nothing happens. */
    method Remove(g: Grant, n: Asked) returns (trouble: Option<Trouble>)
      requires Valid() && ChannelsValid()
      modifies this
      ensures Valid() && ChannelsValid()
      ensures trouble == Checked(g, n)
      ensures var key := n.Key();
              channels == if trouble == None then
                Sections.Remove(old(channels), key, key in old(channels) && old(channels)[key].subscribers == map[])
              else old(channels)
    {
      trouble := Checked(g, n);
      if trouble.Some? { return; }
      var key := n.Key();
      if key !in channels { return; }
      var on := channels[key].Connections();
      if |on| > 0 { return; }
      channels := channels - {key};
    }

    /** The tenant's channels and nobody else's, each once, in the order of their keys. */
    method All(g: Grant) returns (trouble: Option<Trouble>, keys: seq<string>)
      requires Valid()
      ensures trouble == TenantTrouble(g)
      ensures trouble == None ==>
                && Ascending(keys) && Distinct(keys)
                && forall k :: k in keys <==> k in channels && channels[k].name.tenant == g.tenant
      ensures trouble.Some? ==> keys == []
    {
      trouble, keys := TenantTrouble(g), [];
      if trouble.Some? { return; }
      var rest := channels.Keys;
      while rest != {}
        invariant rest <= channels.Keys
        invariant Distinct(keys)
        invariant forall k :: k in keys <==> k in channels && k !in rest && channels[k].name.tenant == g.tenant
        decreases |rest|
      {
        var k :| k in rest;
        if channels[k].name.tenant == g.tenant {
          keys := keys + [k];
        }
        rest := rest - {k};
      }
      SortKeepsDistinct(keys);
      Sorted(keys);
      keys := Sort(keys);
    }
  }
}
