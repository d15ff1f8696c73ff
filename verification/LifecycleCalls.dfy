/**
 * reach and drop as one call each, when nothing comes in between their steps: what the methods of Pusher.dfy promise of
 * their maps is what the interleaving is made of.
 */
module LifecycleCalls {
  import opened Names
  import opened Options
  import opened Sections
  import opened Lifecycle
  import opened LifecycleSteps

  /**
   * The three steps of reach: channel found or made, topic joined, reservation made, creation reported if it was
   * missing; and nothing at all for a grant that is not for joining channels of the name's tenant.
   */
  lemma ReachIsOneSection(st: State, s: SocketId)
    requires MayFind(st, s)
    ensures var name, grant := st.calls[s].name, st.calls[s].grant;
            if grant.action == ChannelJoin && grant.tenant == name.tenant then
              var end := DoHand(DoMake(DoFind(st, s), s), s);
              && end.broker == FindOrCreate(st.broker, name.Key(), |st.chans|)
              && end.joined == Join(st.joined, Topic(name), end.broker[name.Key()])
              && end.joining == Reserve(st.joining, name.Key())
              && end.calls[s] == Reached(Seat(name, end.broker[name.Key()], grant))
              && end.holder == None && end.seats == st.seats
              && end.log == (if name.Key() in st.broker then st.log else st.log + multiset{Created(name.Key())})
            else DoFind(st, s) == Done(st, s)
  {
    hide ChannelName.Key, Topic, Join, Reserve;
  }

  /** A subscription puts this socket on this channel and nobody else anywhere; one that is refused, nobody. */
  lemma SubscribesOne(st: State, s: SocketId, outcome: SubscribeOutcome, c: ChanId, t: SocketId)
    requires MaySubscribe(st, s, outcome) && st.calls[s].seat.channel < |st.chans|
    ensures HasSub(DoSubscribe(st, s, outcome), c, t)
        <==> HasSub(st, c, t) || (c == st.calls[s].seat.channel && t == s && !outcome.Refused?)
  {
  }

  /** Unsubscribing takes this socket off this channel and nobody else off any. */
  lemma UnsubscribesOne(st: State, s: SocketId, c: ChanId, t: SocketId)
    requires MayUnsubscribe(st, s)
    ensures HasSub(DoUnsubscribe(st, s), c, t)
        <==> HasSub(st, c, t) && !(c == st.calls[s].seat.channel && t == s)
  {
  }

  /**
   * The three steps of drop: kept if reserved or not empty, otherwise removed if still empty, left and reported if
   * gone.
   */
  lemma DropIsOneSection(st: State, s: SocketId)
    requires MayDrop(st, s)
    ensures var seat := st.calls[s].seat;
            var key := seat.Key();
            var dropped := DoDrop(st, s);
            if DropStays(st, s) then
              dropped.broker == st.broker && dropped.joined == st.joined && dropped.log == st.log
                && dropped.holder == None
            else
              var end := DoLeave(DoRemove(dropped, s), s);
              && end.broker == Remove(st.broker, key, key in st.broker && Empty(st, st.broker[key]))
              && end.joined == LeaveIfGone(st.joined, end.broker, key)
              && end.joining == st.joining && end.seats == st.seats && end.holder == None
              && (end.log[Gone(key)] == st.log[Gone(key)] + if key in end.broker then 0 else 1)
  {
    var seat, rest := st.calls[s].seat, st.calls[s].rest;
    OnwardCalls(st, s, rest);
    hide ChannelName.Key, Onward, LeaveIfGone;
    if !DropStays(st, s) {
      var dropped := DoDrop(st, s);
      var removed := DoRemove(dropped, s);
      OnwardCalls(removed, s, rest);
      assert Empty(dropped, seat.channel) == Empty(st, seat.channel);
    }
  }
}
