/** The member list one browser keeps of a channel, folded from the frames it is sent (client/joaju.js). */
module Browsers {
  import opened Options
  import opened Channels

  type Members = map<string, string>

  const NULL := "null"

  /** What a confirmation's list makes of the map: the ids decide, the hash only says more about them. */
  function Listed(ids: seq<string>, hash: map<string, string>): Members {
    map u | u in ids :: if u in hash then hash[u] else NULL
  }

  lemma ListedMore(ids: seq<string>, i: nat, hash: map<string, string>)
    requires i < |ids|
    ensures Listed(ids[..i + 1], hash)
        == Listed(ids[..i], hash)[ids[i] := if ids[i] in hash then hash[ids[i]] else NULL]
  {
    assert ids[..i + 1] == ids[..i] + [ids[i]];
  }

  lemma ListedKeys(keys: seq<string>, hash: map<string, string>)
    requires forall u :: u in keys <==> u in hash
    ensures Listed(keys, hash) == hash
  {
  }

  /** The keys of an object, in some order. */
  method KeysOf(hash: map<string, string>) returns (keys: seq<string>)
    ensures forall u :: u in keys <==> u in hash
  {
    keys := [];
    var rest := hash.Keys;
    while rest != {}
      invariant rest <= hash.Keys && forall u :: u in keys <==> u in hash && u !in rest
      decreases |rest|
    {
      var u :| u in rest;
      keys := keys + [u];
      rest := rest - {u};
    }
  }

  function InfoRead(info: string): string {
    if info == "" then NULL else info
  }

  /** The presence block as it arrives: either part may be missing or of another type. */
  datatype Received = Received(ids: Option<seq<string>>, hash: Option<map<string, string>>)

  function Hash(data: Received): map<string, string> {
    if data.hash.Some? then data.hash.value else map[]
  }

  /**
   * What a confirmation makes of the map, whatever was in it: the listed ids, or the hash's own where none are listed.
   */
  function Confirmed(presence: bool, data: Option<Received>): Members {
    if !presence || data == None then map[]
    else if data.value.ids.Some? then Listed(data.value.ids.value, Hash(data.value))
    else Hash(data.value)
  }

  /** The ids decide who is there, the hash what is known of them, and on its own it decides both. */
  lemma ConfirmedNames(presence: bool, data: Option<Received>, user: string)
    ensures var members := Confirmed(presence, data);
            && (user in members <==>
                  && presence && data.Some?
                  && if data.value.ids.Some? then user in data.value.ids.value
                     else data.value.hash.Some? && user in data.value.hash.value)
            && (user in members ==>
                  var known := data.value.hash.Some? && user in data.value.hash.value;
                  members[user] == if known then data.value.hash.value[user] else "null")
  {
  }

  function AsReceived(block: Option<Block>): Option<Received> {
    if block == None then None else Some(Received(Some(block.value.ids), Some(block.value.hash)))
  }

  /** What one frame does to the map. */
  function Fold(presence: bool, members: Members, f: Frame): Members {
    match f
    case Succeeded(block) => Confirmed(presence, AsReceived(block))
    case MemberAdded(m) => members[m.userId := InfoRead(m.info)]
    case MemberRemoved(user) => members - {user}
    case Message(_) => members
    case CacheMiss => members
  }

  class BrowserChannel {
    const presence: bool
    var subscribed: bool
    var members: Members

    constructor (presence: bool)
      ensures !subscribed && members == map[] && this.presence == presence
    {
      this.presence := presence;
      subscribed, members := false, map[];
    }

    method OnSucceeded(data: Option<Received>)
      modifies this
      ensures subscribed && members == Confirmed(presence, data)
    {
      subscribed := true;
      members := map[];
      if !presence || data == None { return; }
      var hash := Hash(data.value);
      var ids := data.value.ids;
      if ids == None {
        var keys := KeysOf(hash);
        ids := Some(keys);
        ListedKeys(keys, hash);
      }
      SetAll(ids.value, hash);
    }

    method SetAll(ids: seq<string>, hash: map<string, string>)
      requires members == map[]
      modifies this`members
      ensures members == Listed(ids, hash)
    {
      for i := 0 to |ids|
        invariant members == Listed(ids[..i], hash)
      {
        ListedMore(ids, i, hash);
        hide Listed;
        members := members[ids[i] := if ids[i] in hash then hash[ids[i]] else NULL];
      }
      assert ids[..|ids|] == ids;
    }

    method OnMemberAdded(m: Member)
      modifies this`members
      ensures members == Fold(presence, old(members), MemberAdded(m))
    {
      members := members[m.userId := InfoRead(m.info)];
    }

    method OnMemberRemoved(user: string)
      modifies this`members
      ensures members == Fold(presence, old(members), MemberRemoved(user))
    {
      members := members - {user};
    }

    method Reset()
      modifies this
      ensures !subscribed && members == map[]
    {
      subscribed, members := false, map[];
    }
  }

  /** The map of a browser that was sent these frames. */
  function Folded(frames: seq<Frame>): Members {
    if frames == [] then map[] else Fold(true, Folded(frames[..|frames| - 1]), frames[|frames| - 1])
  }

  lemma FoldedMore(frames: seq<Frame>, f: Frame)
    ensures Folded(frames + [f]) == Fold(true, Folded(frames), f)
  {
    assert (frames + [f])[..|frames|] == frames;
  }
}
