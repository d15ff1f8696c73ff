# A verified model of joaju

joaju is a websocket server that speaks the Pusher protocol. Sockets subscribe to named channels, channels announce
who is on them and replay what they cached, several server instances relay events to each other over a bus, and
underneath sits the server's own RFC 6455 transport. This project models the parts of it where the difficulty lies and
proves what they promise:

* **The transport** (`Utf8`, `Frames`, `WireFormat`, `ClosePayload`, `Conn`, `Reassembly`, `Closing`): an incremental
  UTF-8 decoder that decides section 4 of RFC 3629 whatever the cuts, a frame codec that is inverse both ways and whose
  bytes are those of RFC 6455 bit for bit, a message reader that gives back every fragmented conversation exactly, keeps
  its limit and latches its errors on any bytes at all, and what the peer is told when a connection ends.
* **The channel lifecycle** (`Sections`, `Lifecycle`, `LifecycleInv`, `LifecycleSteps`, `LifecycleLedger`,
  `LifecycleLimit`, `LifecycleGone`, `LifecycleSeats`, `LifecycleDrain`, `LifecycleCalls`, `LifecycleRuns`): any number
  of sockets joining, leaving and closing at once, as a machine whose steps are single critical sections, finer than the
  protocol's lock where something else can come in between. Channels are identities, because a name may denote a new
  object later. Inductive invariants hold over every interleaving: no orphaned channel, none leaked, the relay in step
  with the registry, exact accounts.
* **The same sections as objects** (`Broker`, `Relay`, `Pusher`): classes with the source's fields, each method proved to
  do to its maps what `Sections` says; `LifecycleCalls` shows the machine's steps, with nothing in between, do the same.
* **Presence** (`Ordering`, `Channels`, `Browser`, `Replica`, `ReplicaRuns`, `ReplicaInfo`, `ReplicaFailures`,
  `Announcements`): the channel object, and the member list in every browser as a replica of who is on the channel, on
  either kind of presence channel, with each delivery of an announcement and each confirmation a step of its own, and
  the exact conditions under which the replicas are right.
* **The fleet** (`Fleet`, `Tally`, `Routes`): exactly-once delivery between instances, and the sums and unions of the
  metrics routes.
* **The server's bounds** (`Limiter`, `Registry`, `Sink`): the token bucket, the socket registry, and the outbound queue
  with its flush on close.

Four claims one would expect are false of the code. For each there is a run from the start in which it fails, and the
exact condition under which it holds, over all runs:

* *drop* answers "gone" once per removal. Fails when two sockets unsubscribe before either drops (`GoneTwice`). The
  answers exceed the removals by exactly the drops that found their name already away (`GoneCounted`).
* Whoever has a seat is on the channel. Fails when a resubscription is refused (`SeatWithoutChannel`). Over every run that
  ends with no call in flight it holds all along if and only if no resubscription fails (`SeatsExact`).
* Every confirmed browser is right about everybody it is owed no announcement of, and so exact when it is owed none
  (`NothingOwedIsExact`). Fails in three ways: a resubscription changes its `user_id` (`NewUserMisleads`), a confirmation's
  list is overtaken before it is written (`StaleListMisleads`), or two announcements of one person, decided by two
  sockets' calls, reach a browser in the other order (`CrossingMisleads`). It holds throughout a run if and only if
  resubscriptions take nobody off the channel and bring nobody onto it, unless every other confirmed browser is owed word
  of that person; every list, when it is written, is right about all its browser is not owed word of; and the last
  announcement of a person to reach a confirmed browser still says how things are (`ReplicaExact`). The last of these
  follows when calls that announce the same person do not overlap (`UntangledIsRight`), and all of them one call at a
  time with resubscriptions that keep their user (`AtomicReplica`).
* Announcements of one person alternate. Fails when a socket arrives as one person and returns as another, and the first
  arrives again (`ArrivesTwice`). They alternate throughout a run if and only if nobody is announced whom resubscriptions
  have moved since their last announcement (`AlternationExact`). That the last one also says whether the person is there
  is a stronger claim, and holds if and only if no resubscription moves anybody (`LastWordExact`).

Bytes are numbers below 256, with the source's masks and shifts as division and remainder; integers do not wrap.
`dafny verify dfyconfig.toml` checks everything.

## Model

| member | source | states |
|---|---|---|
| Utf8.Utf8Validator.Reset | ws/utf8.go:38 | the validator is as at the start, so a refusal ends here |
| Utf8.Utf8Validator.Write | ws/utf8.go:46-100 | the loop in place is the decoder's fold over the bytes, and answers false from the first bad byte on |
| Utf8.Utf8Validator.IsComplete | ws/utf8.go:106 | true exactly when nothing is bad and no rune is owed |
| Utf8.CutsDoNotMatter | ws/utf8.go:46-100 | all of any sequence of writes accept iff one write of them joined does |
| Utf8.Decides | ws/utf8.go:38-106 | for every text and every cut of it: all writes accept and it is complete iff the text is well formed by section 4 of RFC 3629 |
| Utf8.NoPrefixRefused | ws/utf8.go:46-100 | no beginning of well-formed text is refused |
| Utf8.FeedBad | ws/utf8.go:46-54 | a refusal latches through any further bytes |
| Frames.Mask | ws/frame.go:356-360 | in place, every byte is the payload's byte exclusive-or the key's in turn |
| Frames.MaskTwice | ws/frame.go:356-360 | masking with one key twice is no masking |
| Frames.Writer.WriteFrame | ws/frame.go:288-349 | what is written is the frame's encoding, or the refusal of a frame that may not be written and nothing |
| Frames.Reader.ReadPayload | ws/frame.go:250-281 | reading in chunks gives exactly the bytes asked for, or reports them missing |
| Frames.Reader.ReadFrame | ws/frame.go:147-234 | the imperative reader is the parser on what is unread, error by error |
| Frames.ReadsBack | ws/frame.go:147-349 | any frame that may be written, followed by any bytes, is read back and leaves those bytes: all three lengths, both directions, any key |
| Frames.TooLongRefused | ws/frame.go:147-234 | a data frame over a set limit is refused by its declared length, whatever follows |
| Frames.AcceptsOnlyEncodings | ws/frame.go:147-234 | accepted bytes are the one encoding of the frame they gave, for the key they carry, so no second spelling of a length is accepted |
| WireFormat.MaskedBits | ws/frame.go:356-360 | each bit of byte i is flipped exactly where byte i mod 4 of the key has a one, and no byte is added or lost |
| WireFormat.HeaderLayout | ws/frame.go:288-331 | the header in plain numbers: 128 for final plus the opcode, 128 for masked plus the short length, and the long lengths most significant byte first |
| WireFormat.BodyLayout | ws/frame.go:288-349 | after the header a client's four key bytes and the payload masked from its first byte on, a server's payload as it is |
| WireFormat.TakenIff | ws/frame.go:147-234 | the reader gives a written frame back iff its opcode is one of 0, 1, 2, 8, 9, 10, control frames are final with at most 125 bytes, and a data frame fits the limit |
| WireFormat.HeadRefused | ws/frame.go:147-174 | from the first two bytes alone, in this order: reserved bits, an unknown opcode, a client unmasked, a server masked; and what too few bytes are called |
| WireFormat.LengthRefused | ws/frame.go:175-222 | then the declared length: not the shortest form, over 2^62, over 125 or not final for a control frame, over a set limit for a data frame |
| WireFormat.BodyTaken | ws/frame.go:147-281 | with nothing wrong in its header a frame is read as soon as its last byte is there, bit by bit what the wire and the key say, and the rest is left; cut short it says how |
| ClosePayload.FormatClose | ws/frame.go:421-442 | the loop that backs off to a rune boundary computes the formatted payload |
| ClosePayload.KeptFits | ws/frame.go:421-442 | what is kept of a reason is a well-formed beginning of it that fits 123 bytes |
| ClosePayload.KeptIsLongest | ws/frame.go:421-442 | no longer beginning of the reason is whole runes and fits, and at most three bytes are lost to the boundary |
| ClosePayload.CloseRoundTrip | ws/frame.go:371-442 | for every sendable code and every UTF-8 reason, parsing gives back the code and the part kept |
| ClosePayload.AcceptedPayloads | ws/frame.go:391-409 | an accepted payload is empty or exactly what formatting its code and reason gives |
| Closing.CloseRead | ws/frame.go:371-409 | empty is 1005, one byte is refused, and otherwise the two bytes are accepted iff they are 1000 to 1003, 1007 to 1011 or 3000 to 4999 and the rest is UTF-8, with the error each failure has |
| Closing.CloseWritten | ws/frame.go:421-442 | for any code and reason: nothing for 1005, otherwise the code in two bytes, high byte first, and the part kept |
| Conn.Connection.WriteFrame | ws/conn.go:380-396 | nothing is written after a close frame has been |
| Conn.Connection.FailRead | ws/conn.go:317-342 | in place, the connection becomes what Fail makes of it; which code the peer is told is Closing.FailureTold |
| Conn.Connection.Handle | ws/conn.go:269-311 | pings are answered, pongs reach the handler, a close is echoed and ends the connection |
| Conn.Connection.Next | ws/conn.go:181-266 | the reading loop terminates on any bytes and computes the recursive reader |
| Conn.Round | ws/conn.go:187-266 | a round that does not end the call leaves no error and consumes at least two bytes |
| Conn.OutcomeOf | ws/conn.go:181-266 | a message leaves nothing half read; anything else is latched |
| Closing.FailureTold | ws/conn.go:181-357 | on any bytes: a call of ReadMessage writes pongs, and if it fails ends with one close frame of two bytes: 1007 for ill-formed text, 1009 over the limit, the peer's code or 1000 for none, 1002 for any other breach, and no close at all when the connection itself failed |
| Closing.TooLargeUnread | ws/conn.go:187-216 | a data frame that would take the message past the limit is refused on its declared length, before any of it is there |
| Closing.PeerCloses | ws/conn.go:293-311 | a close frame with any payload: the error it comes back as, and the one frame that answers it, 1000 for an empty payload, 1002 or 1007 for one that is wrong, otherwise the peer's own code |
| Closing.PongEnds | ws/conn.go:281-291 | a pong the handler refuses ends the connection and nothing is written |
| Closing.CloseIsLast | ws/conn.go:380-396 | over any run of calls and writes a close frame is the last frame written, and nothing is written after it |
| Reassembly.Sound | ws/conn.go:181-266 | on any bytes: text or binary only, text is UTF-8, no message over a set limit |
| Reassembly.RoundKeeps | ws/conn.go:191-198 | what is gathered never exceeds the limit between frames, so the branch for a negative remainder is never taken |
| Reassembly.Latches | ws/conn.go:182-184 | after an error every later call answers the same error and changes nothing |
| Reassembly.Reassembles | ws/conn.go:181-291 | for every sequence of messages, every fragmentation, any keep-alives in between: successive calls return exactly those messages with the first fragment's opcode |
| Reassembly.ReadsRest | ws/conn.go:181-291 | and every ping among the fragments is answered, in order, with its own payload |
| Reassembly.DeliveredIffWithinLimit | ws/conn.go:190-222 | a legal message is delivered iff it fits the limit, and refused as too large otherwise |
| Reassembly.TextIffUtf8 | ws/conn.go:181-266 | a text message within the limit, in any fragments with any keep-alives, is delivered iff it is UTF-8, and refused as ill-formed otherwise |
| Reassembly.OutOfPlace | ws/conn.go:225-236 | a frame ends the call as misplaced iff it continues no message or begins one inside another |
| Names.KindByPrefix | joaju.go:250-271 | guarded, presence and cache are each one prefix question, whatever order the prefixes are tested in |
| Names.NameBuilt | joaju.go:322-361 | a name is built iff the tenant and the name are of the allowed characters and the name has 1 to 164 of them, and it is those two parts |
| Names.KeyInjective | joaju.go:377-383 | two names share a registry key only if tenant and name are the same |
| Names.TopicInjective | scaling.go:121-127 | two names share a topic only if they are one name |
| Names.TopicNotMetrics | scaling.go:129-140 | a channel's topic is joaju:, tenant, colon and name, and neither the metrics topic nor any instance's reply topic |
| LifecycleSteps.StepKeeps | protocols/pusher/protocol.go:606-807 | every critical section keeps the invariant: registry, seats, lock, reservations, no orphan, no leak, subscribers backed by seats |
| LifecycleSteps.NothingOrphaned | protocols/pusher/protocol.go:606-680 | in every interleaving a channel with a subscriber, or handed to a join in flight, is the one the broker holds under its name |
| LifecycleSteps.NothingLeaked | protocols/pusher/protocol.go:440-455 | with no call in flight the broker holds exactly the channels somebody is on, and nothing is reserved |
| LifecycleSteps.ClosedIsGone | protocols/pusher/protocol.go:329-333 | after Close a socket has no seat and is on no channel |
| LifecycleSteps.SubscriberHasSeat | protocols/pusher/protocol.go:717-727 | with no call of its own in flight, a subscriber has a seat naming that channel |
| LifecycleSteps.TenantsNeverCross | protocols/pusher/broker.go:250-290 | a call is only ever handed a channel of its own grant's tenant |
| LifecycleLedger.RelayAgrees | scaling.go:1394-1436 | whenever the protocol's lock is free, the joined topics are those of the channels held, each for the same channel |
| LifecycleLedger.Accounting | protocols/pusher/protocol.go:606-680 | per name, creations reported less removals is one if held and zero if not, and no removal goes unreported |
| LifecycleLimit.LimitHolds | protocols/pusher/protocol.go:695-712 | no interleaving takes a socket past its channel limit, though the check reserves nothing |
| LifecycleLimit.DoorExact | protocols/pusher/protocol.go:395-712 | over any run a subscription is turned away at the door iff its seat would be one more than the limit, so never for a name the socket is already on |
| Sections.RefusedExact | protocols/pusher/protocol.go:685-712 | the same of the check alone, for a socket within its limit |
| LifecycleGone.GoneCounted | protocols/pusher/protocol.go:660-679 | over any run, answers of gone are the removals and one more for each drop that found its name away |
| LifecycleGone.GoneTwice | protocols/pusher/protocol.go:636-679 | a run from the start with one removal and two answers of gone |
| LifecycleSeats.SeatsExact | protocols/pusher/protocol.go:441-453 | over any run that ends with no call in flight, every seat is of a channel its socket is on, all along, iff no resubscription fails |
| LifecycleSeats.SeatedIsOn | protocols/pusher/protocol.go:441-453 | and one way over any run at all: while no resubscription fails, whoever has a seat is on the channel |
| LifecycleSeats.SeatWithoutChannel | protocols/pusher/protocol.go:441-453 | a run from the start: a join, the same again refused, and then a seat on record of a channel the socket is not on |
| LifecycleDrain.NeverStuck | protocols/pusher/protocol.go:395-680 | in every reachable state a call in flight has an enabled step when the lock is free or its own |
| LifecycleDrain.SomebodyCanGoOn | protocols/pusher/protocol.go:395-680 | whenever any call is in flight, some call has an enabled step |
| LifecycleDrain.EverythingDrains | protocols/pusher/protocol.go:395-680 | from every reachable state some run brings every call to its end, so the states with none in flight are reached |
| LifecycleDrain.IdleMayBegin | protocols/pusher/protocol.go:329-488 | a socket in no call and not closed may begin to join, and to part or close while the lock is free |
| LifecycleCalls.ReachIsOneSection | protocols/pusher/protocol.go:606-623 | the machine's three steps of reach, run together, are the one critical section the object performs, for exactly the grants that join channels of the name's tenant; any other ends the call |
| LifecycleCalls.DropIsOneSection | protocols/pusher/protocol.go:660-679 | and so are the three of drop: kept, or removed, left and reported |
| LifecycleCalls.SubscribesOne | protocols/pusher/channels.go:167-234 | a subscription puts its socket on its channel and nobody else on any; a refused one changes nobody |
| LifecycleCalls.UnsubscribesOne | protocols/pusher/channels.go:248-276 | and unsubscribing takes that socket off that channel alone |
| Brokers.MemoryBroker.Find | protocols/pusher/broker.go:94-108 | the held channel of an accepted name, or which check failed |
| Brokers.MemoryBroker.FindOrCreate | protocols/pusher/broker.go:125-147 | the held channel, or a new one under that key and nothing else changed |
| Brokers.MemoryBroker.Remove | protocols/pusher/broker.go:174-193 | a channel somebody is on is kept; an empty one goes and nothing else |
| Brokers.MemoryBroker.All | protocols/pusher/broker.go:213-239 | the tenant's channels and nobody else's, each once, in key order |
| Brokers.CheckedIsAccepts | protocols/pusher/broker.go:250-290 | exactly a grant to join channels of the name's own tenant passes, and every refusal names a fault there is |
| Relays.Relay.Join | scaling.go:551-588 | joins once per topic; a refused grant, another tenant or a closed relay joins nothing |
| Relays.Relay.Leave | scaling.go:600-617 | that topic and no other is left |
| Relays.Relay.Publish | scaling.go:646-686 | what goes on the bus, on which topic, and what is refused |
| Relays.Relay.Receive | scaling.go:791-834 | delivered iff from another named instance and for this channel, to all its sockets but the sender's, and nothing is published |
| Relays.RelayedBroker.FindOrCreate | scaling.go:1394-1405 | registry and topics change together and stay in agreement |
| Relays.RelayedBroker.Remove | scaling.go:1415-1437 | the topic is left only when the channel is really gone, and agreement is kept |
| Pushers.Pusher.Reach | protocols/pusher/protocol.go:606-623 | channel held, reservation made, topic joined, and created says whether the name was missing |
| Pushers.Pusher.Drop | protocols/pusher/protocol.go:660-679 | removes only what is unreserved and empty, and answers whether the name is held afterwards |
| Pushers.Pusher.Unseat | protocols/pusher/protocol.go:636-645 | the socket is off, other channels are untouched, and an empty unreserved channel does not stay |
| Pushers.Pusher.AtChannelLimit | protocols/pusher/protocol.go:695-712 | the answer of Sections.AtLimit, which Sections.RefusedExact says is yes exactly when one seat more would be too many |
| Pushers.Pusher.Take | protocols/pusher/protocol.go:717-728 | reservation released and seat recorded in one step |
| Pushers.Pusher.FinishJoining | protocols/pusher/protocol.go:736-751 | one reservation less, and no entry at zero |
| Pushers.Pusher.ForgetOne | protocols/pusher/protocol.go:769-787 | that seat off the record, and the socket's row with its last seat |
| Pushers.Pusher.Forget | protocols/pusher/protocol.go:794-807 | every seat of the socket, each once, and none left on record |
| Pushers.Pusher.Join | protocols/pusher/protocol.go:409-462 | seated, recorded and described exactly when nothing refuses it and every frame is delivered, or unwound with no seat, no reservation and no channel left behind; no channel of another name is touched |
| Pushers.Pusher.Part | protocols/pusher/protocol.go:471-488 | nothing for a name it has no seat for; otherwise off the record, off the channel, no empty channel left, and the answer is whether its name is gone |
| Pushers.Pusher.Close | protocols/pusher/protocol.go:329-333 | off every channel it had a seat on, no empty one left behind, others untouched |
| Pushers.ReleaseUndoesReserve | protocols/pusher/protocol.go:620-751 | a reservation made and released leaves no trace |
| Channels.Channel.Subscribe | protocols/pusher/channels.go:167-234 | the checks in order; seat taken; arrival announced to the others exactly when the person was not there, and never off a presence channel; cache replayed to a new socket only |
| Channels.AdmittedIs | protocols/pusher/channels.go:167-190 | the checks together let in exactly a join grant of the channel's tenant held by the socket's own subject and tenant, and on a presence channel a named person; every refusal names a fault there is |
| Channels.Channel.Unsubscribe | protocols/pusher/channels.go:248-276 | departure announced to all who remain exactly when it was the person's last socket |
| Channels.Channel.Send | protocols/pusher/channels.go:345-372 | every subscriber but the skipped one is sent the event exactly once, whoever else fails; what is cached follows |
| Channels.Channel.Gather | protocols/pusher/channels.go:398-408 | everyone but one, each once |
| Channels.Channel.HoldsUser | protocols/pusher/channels.go:414-425 | whether any socket on the channel is that person |
| Channels.Channel.Connections | protocols/pusher/channels.go:96-109 | everyone once, in order of socket id |
| Channels.Channel.Data | protocols/pusher/channels.go:305-338 | a presence channel's people each once in order, with the info of one of their sockets, and nothing for other kinds |
| Channels.Deliver | protocols/pusher/channels.go:451-471 | a failing socket costs itself the frame and nobody else |
| Channels.DescribedOnce | protocols/pusher/channels.go:305-338 | the count is the number of people and the id list is the same whatever order the map gave |
| Channels.CachedIsLast | protocols/pusher/channels.go:355-366 | what is replayed is the last cacheable broadcast, and a miss only when there was none |
| Channels.NewcomerIsSent | protocols/pusher/channels.go:190-234 | by the channel's name and the events' names: a new subscriber of a cache channel is sent the last event that is not the protocol's or a client's, a miss exactly if there was none, and nothing on other channels |
| Ordering.OneOrder | protocols/pusher/channels.go:105-107 | a sorted list without repeats is determined by what is in it |
| Ordering.AtMostIs | protocols/pusher/channels.go:105-107 | the order is the usual one of strings: decided where they first differ, a beginning first |
| Browsers.BrowserChannel.OnSucceeded | client/joaju.js:318-336 | the loop over the ids, or over the hash's own keys where there is no list, makes the map exactly that, and clears it off a presence channel |
| Browsers.ConfirmedNames | client/joaju.js:318-336 | for any block, whatever is missing of it: who is in the map, and with which info or null |
| Browsers.BrowserChannel.OnMemberAdded | client/joaju.js:338-343 | the fold's step for an arrival |
| Browsers.BrowserChannel.OnMemberRemoved | client/joaju.js:345-350 | the fold's step for a departure |
| Browsers.BrowserChannel.Reset | client/joaju.js:359-362 | everything the server said is forgotten |
| Replica.ReplicaExact | protocols/pusher/channels.go:187-276 | over any run, every delivery and confirmation apart from the section that caused it: confirmed browsers are right about all they are owed nothing about, throughout, iff every step is fresh |
| Replica.NothingOwedIsExact | client/joaju.js:318-350 | and then a confirmed browser that is owed nothing has exactly the channel's distinct user ids as keys |
| Replica.ResubscriptionExact | protocols/pusher/channels.go:196-209 | a resubscription keeps everybody right iff whoever would miss the people it moves is owed word of them |
| Replica.DeliverExact | protocols/pusher/channels.go:205-216 | a delivery, made after the lock is released, keeps everybody right iff it is not the last about its person or still says how things are |
| Replica.ConfirmExact | protocols/pusher/protocol.go:455-462 | a confirmation keeps everybody right iff its list still names those who are on the channel, but for people word of whom is on its way |
| ReplicaRuns.UntangledIsRight | protocols/pusher/channels.go:187-276 | where nobody is moved and lists hold when written, calls may overlap as they like so long as no two announce one person at once: every browser stays right |
| ReplicaRuns.AtomicReplica | protocols/pusher/channels.go:187-276 | over any run of whole joins and leaves whose resubscriptions keep their user, every seated browser's map, folded from its frames, names exactly the people on the channel |
| ReplicaInfo.InfoArrives | protocols/pusher/channels.go:205-338 | over any run, whatever crosses: a person who always arrives with the same info is shown with exactly it by every browser that shows them, and with an empty object or null if it was left out |
| ReplicaFailures.NewUserMisleads | protocols/pusher/channels.go:196-209 | a run in which a changed user id leaves another browser wrong |
| ReplicaFailures.StaleListMisleads | protocols/pusher/protocol.go:455-462 | a run in which a list overtaken by a departure leaves its own browser wrong |
| ReplicaFailures.CrossingMisleads | protocols/pusher/channels.go:205-274 | a run in which a departure decided before an arrival of the same person and delivered after it takes somebody off a list who is there |
| ReplicaFailures.ArrivesTwice | protocols/pusher/channels.go:196-205 | a run in which one person's arrival is announced twice with no departure between |
| Announcements.AlternationExact | protocols/pusher/channels.go:196-266 | over any run each person's announcements alternate from an arrival, throughout, iff nobody is announced whom resubscriptions had moved since their last |
| Announcements.LastWordExact | protocols/pusher/channels.go:196-266 | over any run they alternate and the last says whether the person is there, throughout, iff no resubscription moves anybody |
| Announcements.StandingCounts | protocols/pusher/channels.go:196-266 | arrivals announced less departures is one while the last was an arrival and zero otherwise |
| Fleets.ExactlyOnce | scaling.go:646-834 | a channel joined when an event was published and not left since has it exactly once as soon as the bus owes it nothing, unaltered; on the origin from the origin alone |
| Fleets.NeverTwice | scaling.go:791-834 | at no moment of any run twice, and never on a channel of another name or tenant |
| Fleets.DeliveriesCount | scaling.go:791-834 | over any run of deliveries nothing is published and the bus owes exactly one less for each |
| Fleets.FallsSilent | scaling.go:791-834 | from any state deliveries alone end with nothing owed, after exactly as many as were owed |
| Fleets.PublishedReachesAll | scaling.go:646-834 | from any reachable state an event published now is brought by deliveries alone, exactly once, to everybody who has joined |
| Fleets.JoinAndLeave | scaling.go:551-617 | any instance may join and leave any name; having left it is owed nothing on it |
| Fleets.MetricsReachNoChannel | scaling.go:129-140 | questions and answers of the metrics route are delivered to no channel |
| Tallies.FleetTally.Add | scaling.go:314-347 | the nested loops add exactly one counted answer |
| Tallies.FoldedIs | scaling.go:295-347 | connections and subscriptions are sums and users unions over the answers about the asked tenant from other instances, empty ids left out |
| Tallies.OrderDoesNotMatter | scaling.go:314-347 | the tally is the same in whatever order the answers arrive |
| Tallies.ForeignIgnored | scaling.go:314-347 | an answer about another tenant, or from this instance, might be anywhere among the answers or missing: the tally is the same |
| Tallies.OwnCounted | scaling.go:314-347 | any other answer is in it wherever it stands: without it the tally has its connections less |
| Routes.CountMembers | protocols/pusher/routes.go:609-621 | the number of distinct people here and elsewhere together |
| Routes.ChannelUsers | protocols/pusher/routes.go:371-391 | everybody here or elsewhere, each once |
| Routes.Members | scaling.go:295-303 | the fleet's ids once each, in order |
| Routes.ListChannels | protocols/pusher/routes.go:304-328 | an entry for every channel held here or answered for elsewhere and no other, occupancy and member count over both |
| Routes.EntrySays | protocols/pusher/routes.go:304-328 | occupied iff anybody has subscribed here or elsewhere; a count exactly for presence names, of the people of both sides each once |
| Limiters.RateLimiter.Allow | server.go:1271-1295 | the branches in place are the bucket's refill and spend |
| Limiters.RefillSound | server.go:1276-1288 | a refill makes no credit: it is kept to the tick or cut to a full bucket |
| Limiters.WindowBound | server.go:1254-1295 | for every limit from one to a billion, in any stretch of any stream, frames admitted are at most the limit and one for each started limit-th of a second it took |
| Limiters.NeverStricter | server.go:1254-1295 | a stream an exact bucket of that size and rate admits in full is never refused |
| Limiters.NoLimit | server.go:1254-1265 | for any other limit every frame is admitted |
| Limiters.OpenedIs | server.go:1254-1265 | the bucket opens full, with a limit-th of a second to the token |
| Registries.Registry.Register | server.go:936-951 | refused when closed or full, otherwise held and counted |
| Registries.Registry.Unregister | server.go:953-980 | the recorded reason before the fallback; a socket never held lowers no count |
| Registries.Registry.Terminate | server.go:615-645 | exactly the tenant's sockets of that subject, each once, marked terminated |
| Registries.Registry.Close | server.go:667-678 | closed, and every held socket marked shut down |
| Registries.Registry.RecordCloseReason | server.go:982-994 | the first reason is kept, and only for a held socket |
| Registries.Registry.RecordReadCloseReason | server.go:996-1007 | a final reason is not replaced |
| Registries.CountsAreExact | server.go:936-980 | over any run a tenant's count is the sockets it holds, absent at zero, never over a positive limit, and reasons are only for held sockets |
| Registries.NothingAfterClose | server.go:667-678 | after Close nothing registers and the sockets held only go |
| Registries.ReasonSticks | server.go:953-1007 | once terminated or shut down is recorded, the reason finally given is one of those two |
| Registries.LetInExact | server.go:936-951 | over any run a socket is let in, and nothing else changes among those held, iff the server is open and its tenant holds fewer than a positive limit; otherwise the trouble is the one it is |
| Registries.TerminateMarks | server.go:615-645 | per socket: marked terminated iff the grant operates, a subject is named, and the socket is the grant's tenant's and that subject's; any other keeps its reason |
| Registries.CloseMarks | server.go:667-678 | per socket: marked shut down iff held |
| Registries.ReadReplaces | server.go:996-1007 | a read's reason replaces any but those two |
| Registries.FirstReasonGiven | server.go:953-994 | over any run in which nothing else decides it, the first reason recorded is the one given when the socket goes, whatever is offered later |
| Registries.ReasonRecorded | server.go:953-994 | with nothing on record the fallback is given, and the first reason offered is recorded iff the socket is held |
| Registries.UnregisterRemoves | server.go:953-980 | that socket and its reason are gone, nobody else's |
| Sinks.Socket.Send | server.go:1079-1114 | queued iff open with room; a full queue closes; alone it is a run of the machine |
| Sinks.Socket.Flush | server.go:1186-1199 | writes what is queued in order, at most the queue's capacity, until a write fails; a run of the machine |
| Sinks.Socket.Terminate | server.go:1119-1127 | closes once |
| Sinks.InOrder | server.go:1143-1199 | over every interleaving, frames reach the wire in the order accepted, each once; while no write fails, what was accepted is the wire, the frame in hand and the queue |
| Sinks.FlushedBeforeClose | server.go:1079-1199 | when the writer stops and no write failed, every frame accepted before done closed is on the wire ahead of the one close frame, and what is left unsent in the queue was all accepted after it |
| Sinks.LateSendsRefused | server.go:1079-1114 | after the close only frames already on offer can still be accepted, so a Send begun later is refused |
| Sinks.FlushTakesNoMore | server.go:1186-1199 | from seeing the close the writer writes at most the queue's capacity, whatever racing senders do |
| Sinks.WriterStops | server.go:1143-1199 | from any reachable state with done closed the writer can stop by its own steps alone, and if no write failed ends with the close frame after everything accepted before it closed |
| Sinks.WriterCatchesUp | server.go:1143-1160 | and from one in which it is idle or writing, everything accepted can reach the wire by its own steps |

## Left out

- Frames.Writer.WriteFrame: the writer never fails here; a transport error on writing is not modelled, and the reader's errors are end of input only.
- Frames.ReadsBack: payload lengths are unbounded integers up to the largest a frame can declare; the int64 sum of lengths in `ReadMessage` does not overflow here.
- Utf8.Decides: overlong and too-large forms are refused when their rune is complete, as the code does; nothing is claimed about refusing them at the earliest byte.
- Names.KeyInjective: tenants and names are over the characters the server allows; the packages that own grants and requested channels (`hesape/auth`, `hesape/broadcasting`) are not part of this model, and a tenant is taken to be letters, digits, `-` and `_`.
- LifecycleSteps.StepKeeps: the policy and the limit's refusal frame are not steps; a policy that refuses ends a join before it reaches anything. The relay is open throughout; after it closes a join fails with its channel already created.
- LifecycleLedger.RelayAgrees: stands while the relay is open, for the same reason.
- Pushers.Pusher.Join: what one call does when nothing comes in between; what may come in between is `Lifecycle`.
- Channels.Channel.Subscribe: a Send fails or not by a given set of sockets, and encoding does not fail; socket ids are not empty, as `NewConnection` demands.
- Replica.ReplicaExact: no Send fails, and a Send puts its frame after those sent to that socket before it. Frames carrying published events do not touch the map: the events route refuses the reserved prefixes (routes.go:195).
- ReplicaRuns.AtomicReplica: the claim is about whose ids are in the map; which of a person's tabs the info comes from is whichever the server's map gives first.
- Fleets.ExactlyOnce: the bus is abstract: it hands a message once to each instance subscribed when it was published, and leaving a topic cancels at once. Reconnects, retries and degraded mode are not modelled.
- Limiters.WindowBound: times are integers that never run backwards, and a difference of times does not saturate.
- Sinks.FlushedBeforeClose: contexts and deadlines are not modelled; a Send whose context is already over never begins. The queue hands a frame to the writer through its buffer.
- JSON, HTTP, the upgrade handshake, dialing and TLS: work of libraries; frames of the protocol are records.
- Policies, signatures, HMAC and the other cryptography of `cmd/joaju`: a policy is an arbitrary yes or no.
- The Redis bus, metrics deadlines and the collection of answers by request id: wall-clock behaviour.
- The browser's reconnection, timers and callbacks, and client events (`whisper`, `ClientEvents.Accept`): page code re-enters them, and their decisions are single branches.
- Configuration, logging, counters, asset serving, the address limit: wiring.
