# OrbMQ in Dafny

OrbMQ is an MQTT 3.1.1 broker. This project models its delivery queue and session store, its topic
tree, its wire codec, its retained messages and the ownership of sessions by connections, and proves
what they promise. `dafny verify dfyconfig.toml` checks all of it.

- **Delivery.** `SessionStore` has the session and the store as objects changed in place: one list of
  entries, a table of identifiers, counters and totals. `Delivery` is the reference: three queues (sent
  in this epoch, waiting for replay, never sent). Every operation of the objects is proved to be the
  operation of the reference, and keeps the totals equal to the sums over the sessions. `Trace` proves
  order, replay and release of every run of the reference, and the objects carry such a history, so
  the same holds of every sequence of their methods. `Consumer` adds the delivery loop and its one-slot
  channel; that only one loop receives from it is `Ownership.OneConsumerPerSession`.
- **Topics.** `Tree` is the node graph, seen through `Routing` as a map from filter and client to
  subscription. `Filters` decides one filter on one topic, `Covers` inclusion between filters, with a
  witness topic for every refusal. `Utf8` has validity byte by byte, proved to mean an encoding of
  scalar values.
- **Wire.** `Packets` gives the layout and the grammar of each packet; `Grammar` proves them inverse;
  `Encoder` and `Decoder` are the step-by-step writers and readers, proved against them. `Template` is
  the encode-once path whose copies are patched at a computed offset.
- **Broker.** `Broker` replaces its tree with a changed clone and keeps a bounded retained map.
- **Server.** `Ownership` is a step system. A step is one section under the store's or the tree's
  mutex; the registry lock is held across steps, by one writer or many publishers. `Handles` follows the
  life of each session object through it: what may delete it and what a returning client finds.
  `Progress` proves that nobody gets stuck.
  `Fanout` is the publish path over the objects of `Broker` and `SessionStore`.

`Ownership.SettledRoutesAgree` proves of the step system the condition under which
`Fanout.PublishMessage` is stated: `Routing.Agreed` and `Routing.Rooted`.

Where the code and the standard differ the model follows the code:

- The decoder accepts a will QoS of 3, which section 3.1.2.6 of MQTT 3.1.1 forbids. Delivery lowers it.
- The decoder accepts length fields that are longer than necessary.
- A live publish keeps its RETAIN flag toward established subscribers, where section 3.3.1.3 asks for 0.
- An empty Client ID is used as it is, so all such clients share one.
- Before the first `BeginDelivery` the epoch is 0, the mark of an entry never sent, and `Next` returns
  nothing.
- The epoch has 64 bits. When it wraps to 0, messages never sent are skipped in that epoch. The
  contract of `BeginDelivery` states this exactly, and its other promises are made for an epoch that
  does not wrap.

Time, network results and the choice of the next step are parameters. Integers are unbounded except
packet identifiers and epochs, whose wrap is written out.

## Model

| member | source | states |
|---|---|---|
| Delivery.NextIDIsFree | internal/session/queue.go:162-170 | in every sound queue with room in its window the identifier search has an answer: a pigeonhole over the 65535 identifiers |
| Delivery.SendStaysSound | internal/session/queue.go:150-188 | sending keeps flights within the window, with distinct nonzero identifiers and increasing acceptance numbers, also across the identifier wrap |
| Delivery.AckStaysSound | internal/session/queue.go:189-214 | so does releasing a message anywhere in the queue |
| Delivery.BeginStaysSound | internal/session/queue.go:130-137 | so does a new connection epoch with unacknowledged messages |
| Delivery.AdmitStaysSound | internal/session/queue.go:119-126 | so does accepting a message |
| Trace.StepKeeps | internal/session/queue.go:93-214 | every operation, on every good history, keeps it good: order, replay, identifiers, bytes and release are in order |
| Trace.RunIsGood | internal/session/queue.go:93-214 | hence the history of every run of operations is good |
| SessionStore.State.HistoryIsGood | internal/session/queue.go:93-214 | and so is, at any time, the history that the methods of a stored session have left, with all that good histories promise |
| Trace.FirstSendsArePrefix | internal/session/queue.go:150-188 | in a good history the messages sent with DUP=0, across all epochs, are a prefix of the accepted messages, bytes included, in order and once each |
| Trace.EpochsReplayThenSend | internal/session/queue.go:150-188 | within one epoch messages go out in order, none twice, all replays before any first send |
| Trace.ReplaysRepeat | internal/session/queue.go:160-180 | every replay repeats an earlier first send: same message, same identifier, earlier epoch |
| Trace.NothingIsLost | internal/session/queue.go:93-214 | every accepted message is unsent, in flight or released, and just one of these |
| Trace.LeavesOnlyByAck | internal/session/queue.go:189-214 | a message is released once, by acknowledgement of an identifier it had been sent under |
| Trace.FlightsHoldAccepted | internal/session/queue.go:119-121 | what is in flight is, byte for byte, the message accepted under its number |
| Trace.AcceptedAsAsked | internal/session/queue.go:119-121 | over any run the accepted messages are those asked for, with their bytes and offsets |
| Trace.EpochsAreLifetimes | internal/session/queue.go:130-137 | the epoch is the number of connection lifetimes begun, so the counter is exact for fewer than 2^64 |
| SessionStore.State.Append | internal/session/queue.go:119-121 | appending an entry is acceptance in the three-queue model |
| SessionStore.State.NextIdentifier | internal/session/queue.go:162-170 | the search loop stops at the first free identifier after the last one, within 65535 steps |
| SessionStore.State.FirstStaleMeans | internal/session/queue.go:156-161 | the first entry not sent in this epoch stands right behind those that were; it exists exactly when something waits, and has an identifier exactly when it is a replay |
| SessionStore.State.TransmitAgain | internal/session/queue.go:175-185 | the replay branch is a send of the three-queue model and puts the patched bytes with DUP set on the wire |
| SessionStore.State.TransmitFirst | internal/session/queue.go:161-185 | the first-send branch is a send of the three-queue model under the next free identifier, DUP clear; the identifier table stays exact |
| SessionStore.State.Remove | internal/session/queue.go:192-209 | removal from list, table and counters is release in the three-queue model |
| SessionStore.State.Admit | internal/session/queue.go:93-126 | malformed, removed, session limit, global limit, accepted, in that order, each exactly when the bytes, counters and limits say so; accepted, one entry with those bytes is appended, otherwise none; every counter and total changes by exactly that; the store stays balanced and within limits |
| SessionStore.State.BeginDelivery | internal/session/queue.go:130-137 | everything queued becomes eligible again, if and only if the 64-bit counter does not wrap or the entry was sent before |
| Lifetimes.NewEpochIsFresh | internal/session/queue.go:130-137 | the same condition for one entry, both directions |
| Lifetimes.WrapStrandsUnsent | internal/session/queue.go:133-136 | where it fails: after the last epoch the entries taken for already sent are exactly those never sent |
| Lifetimes.DeadlineIsExact | internal/session/store.go:197-204 | an offline session is kept before its time plus the time to live and overdue from then on; a connected one, or any without a time to live, never is |
| SessionStore.State.PauseDelivery | internal/session/queue.go:138-142 | only the pause flag of that session changes |
| SessionStore.State.ResumeDelivery | internal/session/queue.go:144-149 | the flag is cleared and a token is left |
| SessionStore.State.Next | internal/session/queue.go:150-188 | a delivery exactly when the session is live and not paused, the epoch current, fewer entries are out than the window allows and some entry was not sent in this epoch; it is the first such entry, byte for byte but for identifier and DUP, replayed under its old identifier; queue and history change as in the three-queue model |
| SessionStore.State.Ack | internal/session/queue.go:189-214 | an identifier in flight releases exactly its entry, with its bytes and its flight; the others keep their order; any other, or a deleted session, changes nothing |
| SessionStore.State.SetSubscription | internal/session/store.go:124-144 | gone, filter too large, too many and granted, each exactly when lengths, counts and limits say so; only a grant changes the subscriptions, by that filter |
| SessionStore.State.DeleteSubscription | internal/session/store.go:145-152 | the filter is gone and the total follows; nothing on a deleted session |
| SessionStore.State.MarkConnected | internal/session/store.go:156-163 | only connection data of a live session changes |
| SessionStore.State.MarkDisconnectedAt | internal/session/store.go:171-178 | only for a live connected session, with the given time |
| SessionStore.NewWithLimits | internal/session/store.go:56-61 | a store exactly for acceptable limits, empty and balanced |
| SessionStore.Store.Get | internal/session/store.go:67-72 | the stored session, live and in order |
| SessionStore.Store.GetOrCreateOwned | internal/session/store.go:79-95 | wrong owner, no room, existing or new, each exactly when; an existing session is the stored object of that owner, a new one is empty and offline since now; only the last changes the sessions |
| SessionStore.Store.Delete | internal/session/store.go:96-119 | the session goes and exactly its messages, bytes, flights and subscriptions leave the totals; the old handle is empty |
| SessionStore.Store.ExpireSession | internal/session/store.go:197-211 | deleted exactly when there is a time to live and the session has been offline for all of it |
| SessionStore.Store.Expire | internal/session/store.go:182-195 | the loop lists exactly the sessions that have been offline for the whole time to live, once each, counts them and deletes exactly those; the others stay as they were |
| Books.AdmitBooks | internal/session/queue.go:102-123 | accepting within both budgets keeps the totals exact and within limits |
| Books.SendBooks | internal/session/queue.go:172-176 | only a first send adds to the global in-flight count |
| Books.AckBooks | internal/session/queue.go:208-212 | a release takes one message, its bytes and one flight off the totals |
| Books.SubscribeBooks | internal/session/store.go:133-141 | a grant keeps the subscription count exact and within limits |
| Books.Slashes | internal/session/store.go:131 | counting slashes counts levels, less one |
| Accounts.ReplaceKeeps | internal/session/queue.go:93-214 | changing one session by its exact cost difference keeps all four totals equal to the sums over the sessions |
| Accounts.InsertKeeps | internal/session/store.go:89-94 | a new session keeps them |
| Accounts.RemoveKeeps | internal/session/store.go:102-118 | so does removing a session with all it costs |
| Accounts.LedgerIsNonNegative | internal/session/queue.go:208-212 | no total ever becomes negative |
| Accounts.Validate | internal/session/queue.go:39-56 | the chain of tests accepts exactly the limits that are positive, ordered and within 16 bits where needed |
| Consumer.NoLostWakeup | internal/server/server.go:695-721 | over any run around the loop, and over any number of connections one after the other: if the loop is blocked, the session live, not paused and of this epoch, the window open and a message waits, its channel holds a token |
| Consumer.LeftAloneItDrains | internal/server/server.go:695-721 | left alone, the loop ends blocked, because the session is deleted, paused or of another epoch, the window is full or nothing waits; no message is lost or reordered on the way |
| Levels.SplitLevels | internal/topic/parse.go:72-85 | the loop splits at every slash |
| Levels.JoinOfSplit | internal/topic/parse.go:72-85 | joining undoes splitting, so splitting is injective |
| Levels.SplitOfJoin | internal/topic/parse.go:93-106 | splitting undoes joining of slash-free levels |
| Filters.ScanIsLevelwise | internal/protocol/wire.go:80-91 | the neighbour tests of the byte scan hold exactly when every level is `+`, a last `#`, or free of wildcards |
| Filters.ValidateTopicFilter | internal/protocol/wire.go:73-93 | accepts exactly the nonempty well-formed strings with such levels |
| Filters.NameIsPlainFilter | internal/protocol/wire.go:62-70 | topic names are exactly the valid filters without a wildcard level |
| Filters.MatchFilter | internal/topic/parse.go:38-64 | the loop decides the recursive matching relation, with its rule for `$` topics |
| Filters.MatchMeansPairing | internal/topic/parse.go:38-64 | that relation means: levels pair up one to one, or up to a `#` that also takes its parent |
| Filters.MatchMeans | internal/topic/parse.go:38-64 | on strings: a match exactly when the levels pair up and no leading wildcard meets a `$` topic |
| Covers.CoverIsSound | internal/topic/parse.go:7-29 | level-wise covering implies inclusion |
| Covers.WitnessSeparates | internal/topic/parse.go:7-29 | each refusing branch has a topic that one filter matches and the other does not |
| Covers.DollarRefusal | internal/topic/parse.go:8-10 | the refusal at a leading `$` level is right |
| Covers.RewrittenSame | internal/topic/parse.go:11-18 | the rewrites of `#` and `/#` change nothing about which topics match |
| Covers.CoversFilter | internal/topic/parse.go:7-29 | true if and only if every valid topic name matched by the requested filter is matched by the allowed one |
| Routing.AddRoute | internal/topic/tree.go:32-47 | filing at the levels of a filter changes exactly the key (filter, client) |
| Routing.DropRoute | internal/topic/tree.go:81-101 | taking out there removes exactly that key |
| Routing.DropClient | internal/topic/tree.go:104-106 | taking out everywhere removes exactly the client's keys |
| Tree.Tree.Subscribe | internal/topic/tree.go:32-47 | the node graph stays linked and pruned; one route is put |
| Tree.Tree.Unsubscribe | internal/topic/tree.go:81-101 | one route is taken out, and every node that led nowhere else is pruned |
| Tree.Tree.UnsubscribeAll | internal/topic/tree.go:172-185 | all routes of the client are taken out, with pruning |
| Tree.Tree.BareRoot | internal/topic/tree.go:97-100 | a tree without routes is a bare root |
| Tree.Tree.Clone | internal/topic/tree.go:108-123 | fresh nodes only, with the same routes |
| Tree.Tree.Match | internal/topic/tree.go:58-69 | one entry for each client with a filter that `MatchFilter` accepts, with its highest QoS, and no other |
| Tree.Tree.MatchAt | internal/topic/tree.go:125-163 | the recursive walk adds exactly the subscriptions whose remaining levels match the rest of the topic |
| Matching.AddAll | internal/topic/tree.go:165-170 | merging keeps the higher QoS per client |
| Matching.TargetsAreMatches | internal/topic/tree.go:125-163 | the nodes the walk reaches from the root are exactly those whose filter matches the topic |
| Broker.Broker.Subscribe | internal/broker/broker.go:69-83 | the tree is replaced by a fresh one; every earlier snapshot still has the routes of its share of the updates |
| Broker.Broker.Unsubscribe | internal/broker/broker.go:106-116 | likewise |
| Broker.Broker.UnsubscribeAll | internal/broker/broker.go:119-129 | likewise |
| Broker.Broker.MatchSnapshot | internal/broker/broker.go:94-95 | matching an old snapshot gives the fan-out of the updates up to it, whatever came later |
| Broker.RefusalIsExact | internal/broker/broker.go:153-163 | the test on counts and sizes accepts exactly when the map it leads to is within both limits |
| Broker.AcceptedStaysFaithful | internal/broker/broker.go:166-181 | the map stays the last accepted value per topic, the statistics its exact count and size, both within limits |
| Broker.EntryIsLast | internal/broker/broker.go:148-183 | over any history a topic has an entry exactly when the last accepted publish to it had a payload, and the entry is that publish with RETAIN set and DUP clear |
| Broker.Broker.UpdateRetained | internal/broker/broker.go:148-183 | accepted exactly when the payload is empty or count and size fit; then the topic has no entry or this publish, field by field, and every other topic keeps its own; a refusal changes the refusal counter alone |
| Broker.Broker.Publish | internal/broker/broker.go:87-103 | a refused retained publish reaches nobody and changes nothing; otherwise the fan-out of the current routes, and the retained entry of that topic as for `UpdateRetained` |
| Broker.Broker.RetainedMatching | internal/broker/broker.go:132-146 | each retained message whose topic the filter matches, once |
| Broker.ReplayedIffRouted | internal/broker/broker.go:132-146 | a retained message is replayed for a filter exactly when a publish to its topic would be routed to a client with just that filter |
| Lengths.EncodeRemainingLength | internal/protocol/encoder.go:14-31 | refuses exactly what is out of range, and writes the encoding |
| Lengths.EncodeLengthIsField | internal/protocol/encoder.go:14-31 | the encoding is a length field of at most 4 bytes with that value |
| Lengths.ValueByPlace | internal/protocol/decoder.go:385-406 | the value of a field is the sum of its low seven bits, each weighted with 128 to the power of its place |
| Lengths.EncodeLengthIsShortest | internal/protocol/encoder.go:14-31 | no field with that value is shorter |
| Lengths.EncodedLengthSize | internal/server/server.go:836-845 | the number of bytes of the encoding |
| Lengths.FieldSizeIsUnique | internal/protocol/decoder.go:385-406 | a stream starts with at most one length field |
| Lengths.DecodeRemainingLength | internal/protocol/decoder.go:385-406 | the value and size of that field, at most 268435455, reading nothing beyond it |
| Grammar.BodyForth | internal/protocol/decoder.go:57-108 | every well-formed packet of every type is read back from its body |
| Grammar.BodyBack | internal/protocol/decoder.go:111-379 | whatever body is read, it is the body of the packet that was read |
| Framing.DecodeFrame | internal/protocol/decoder.go:32-109 | a framed packet is decoded whatever follows it |
| Framing.DecodedIsFramed | internal/protocol/decoder.go:32-109 | a decode consumes exactly header, length field and declared length, within the limit |
| Framing.HeaderByType | internal/protocol/decoder.go:57-108 | the first byte of whatever is decoded tells its type, both directions, and the flags of a PUBLISH |
| Framing.ConnectByPosition | internal/protocol/decoder.go:111-235 | every field and flag bit of a decoded CONNECT stood at its place in the body |
| Framing.StreamRoundTrip | internal/protocol/decoder.go:32-109 | decoding any concatenation of framed packets recovers the packet list |
| Framing.FramingIsInjective | internal/protocol/encoder.go:53-160 | different packet lists have different streams |
| Decoder.LimitedReader.ReadBinaryData | internal/protocol/wire.go:19-31 | the field at the front of what is left, or failure |
| Decoder.LimitedReader.ReadUTF8String | internal/protocol/wire.go:37-60 | the same, if it is valid UTF-8 without U+0000 |
| Utf8.ValidMeansText | internal/protocol/wire.go:55-60 | byte strings taken for valid are exactly the encodings of sequences of scalar values, surrogates excluded |
| Utf8.RuneForth | internal/protocol/wire.go:55-60 | the shortest encoding of any scalar value is taken, whatever follows it |
| Decoder.LimitedReader.ReadWill | internal/protocol/decoder.go:136-151 | topic and payload of a will, with a valid topic name |
| Decoder.DecodeConnect | internal/protocol/decoder.go:111-235 | the grammar's answer on the declared body, and failure on a body cut short; on success exactly the declared length is read |
| Decoder.DecodePublish | internal/protocol/decoder.go:288-325 | likewise |
| Decoder.DecodePubAck | internal/protocol/decoder.go:327-341 | likewise |
| Decoder.LimitedReader.ReadRequest | internal/protocol/decoder.go:254-276 | one valid filter and a QoS of at most 2, or failure |
| Decoder.DecodeSubscribe | internal/protocol/decoder.go:237-286 | likewise, for its loop over requests |
| Decoder.DecodeUnsubscribe | internal/protocol/decoder.go:343-379 | likewise, for its loop over filters |
| Decoder.DecodeWithLimit | internal/protocol/decoder.go:32-109 | the packet and size of the reference decoder, or failure |
| Decoder.ReadStream | internal/server/server.go:510-543 | reading packet after packet recovers the list whose framing is the stream |
| Encoder.EncodePublish | internal/protocol/encoder.go:53-106 | writes the frame of the packet, exactly for the packets the protocol allows |
| Encoder.PublishLayout | internal/protocol/encoder.go:67-104 | the frame has the computed remaining length and the fields in order |
| Encoder.PublishByteForByte | internal/protocol/encoder.go:53-106 | every byte of the frame at its position: flags, length, topic length, topic, identifier, payload |
| Encoder.EncodePubAck | internal/protocol/encoder.go:152-160 | writes the frame that the decoder reads back, for nonzero identifiers |
| Encoder.EncodeSubAck | internal/protocol/encoder.go:177-195 | writes header, length, identifier and codes |
| Template.PublishPacketIDOffset | internal/server/server.go:831-834 | the position of the identifier in the encoding |
| Template.NewPublishTemplate | internal/server/server.go:781-801 | a template exactly for encodable QoS 1 publishes |
| Template.TemplateIsAdmissible | internal/session/queue.go:94-96 | `Admit` never finds a template malformed |
| Template.PatchIsEncoding | internal/session/queue.go:177-185 | patching identifier and DUP gives, byte for byte, the encoding under that identifier and flag |
| Template.PatchIsCopy | internal/session/queue.go:177-185 | the patch changes the identifier bytes and the DUP bit alone |
| Template.PatchedIsReadBack | internal/session/queue.go:177-185 | and the decoder reads the patched packet back, whatever follows |
| Template.DecodedIsEncodable | internal/server/server.go:760-767 | whatever PUBLISH was decoded can be encoded at its delivery QoS |
| Template.WillIsEncodable | internal/server/server.go:569-576 | so can any will message |
| Fanout.PublishCache.Qos0Payload | internal/server/server.go:803-815 | what a fresh encoding for this subscriber would give |
| Fanout.PublishCache.Qos1Template | internal/server/server.go:817-829 | likewise |
| Fanout.DecodedIsRelayable | internal/server/server.go:760-767 | a decoded PUBLISH can be relayed at every delivery QoS |
| Fanout.WillIsRelayable | internal/server/server.go:569-576 | so can any will message |
| Fanout.PayloadConveys | internal/server/server.go:760-779 | wherever the QoS 0 bytes stand in a stream, a client decodes just them: topic, payload and retain flag of the publish, QoS 0, no DUP |
| Fanout.QueuedConveys | internal/server/server.go:781-801 | so it does the queued bytes as sent, at QoS 1, under every identifier and DUP flag |
| Fanout.EntryIsHighest | internal/topic/tree.go:165-170 | each entry of a fan-out carries the highest QoS among its session's matching filters |
| Fanout.EntryIffEffective | internal/server/server.go:752-758 | a client has an entry of delivery QoS q exactly when q is its session's effective QoS |
| Fanout.DeliverToSubscriber | internal/server/server.go:723-751 | one `Admit` of the fresh template, or one write to a ready connection that is closed if the write fails, or nothing, each exactly when due |
| Fanout.DueAdmitsOnce | internal/server/server.go:673-693 | the due deliveries make exactly one `Admit` for each session with effective QoS 1 and none for any other, of bytes that convey the publish |
| Fanout.DueWritesOnce | internal/server/server.go:729-743 | and one write, conveying the publish, for each session with effective QoS 0 and a ready connection of its own that is not closing |
| Fanout.AppliedQueuesOnce | internal/server/server.go:673-693 | each session with effective QoS 1 gains one message that conveys the publish, or none if a limit refuses it; no other session changes |
| Fanout.PublishMessage | internal/server/server.go:673-693 | with routes that agree with the sessions, a publish does exactly that; it is refused exactly when it is to be retained and does not fit, and is retained otherwise, if asked for |
| Ownership.OnlyHere | internal/server/server.go:412-506 | a step that concerns one Client ID and leaves it in order leaves every other in order |
| Ownership.OthersIdle | internal/server/server.go:426-462 | while a connection is registered or being registered, all others of its Client ID wait or are done |
| Ownership.ExpireKeeps | internal/server/server.go:496-501 | the sweep's deletion keeps everything in order |
| Ownership.StepKeeps | internal/server/server.go:318-506 | each of the 31 kinds of step does |
| Ownership.RunIsSane | internal/server/server.go:318-506 | hence every interleaving does |
| Ownership.OneOwnerPerClient | internal/server/server.go:426-479 | at most one registered connection per Client ID |
| Ownership.OneConsumerPerSession | internal/server/server.go:376-382 | at most one live consumer per session, of a session not deleted, under its current epoch |
| Ownership.OwnedSessionsSurvive | internal/server/server.go:412-506 | no expiry, clean start or close deletes a session that a connection owns, except that connection's own close |
| Ownership.RoutesAreSubscriptions | internal/server/server.go:599-659 | when nothing for a Client ID is between two of its updates, its routes are exactly its stored session's subscriptions with that session as subscriber, and none without one |
| Ownership.SettledRoutesAgree | internal/server/server.go:599-659 | when that holds of every Client ID, the routes are all the stored subscriptions, none above QoS 1, and lead to the stored sessions: the condition of `Fanout.PublishMessage` |
| Ownership.SnapshotsStayDeliverable | internal/server/server.go:673-727 | while a publisher holds the read lock, the sessions stay stored and each entry of its snapshot finds its own subscriber |
| Handles.SessionLife | internal/server/server.go:318-506 | over every interleaving each step makes of every session object exactly what is written out for that kind of step, and nothing of any other; a new one is empty and of the connection's owner |
| Handles.DeletedOnlyBy | internal/server/server.go:412-506 | a session is deleted only after being offline for the whole time to live, or by a connection of its client that asked for a clean session |
| Handles.SweepIsExact | internal/server/server.go:496-501 | of the live sessions the sweep deletes exactly those that have been offline for the whole time to live |
| Handles.OwnersOnly | internal/server/server.go:434-446 | a connection only ever holds a session of its own Client ID and owner |
| Handles.CleanStartIsEmpty | internal/server/server.go:416-421 | a client that asked for a clean session starts without subscriptions |
| Handles.AbandonedIsOffline | internal/server/server.go:466-479 | a stored session that nobody holds is offline and knows since when, so that it can time out |
| Handles.ReconnectKeepsSession | internal/server/server.go:412-462 | over every interleaving: a client that wants its session kept, finds it stored and is in time, gets that very session; its subscriptions are as they were and nothing is cleaned |
| Handles.ReconnectReaches | internal/server/server.go:412-462 | and its own steps lead it to restoring all of them |
| Progress.LockIsReleased | internal/server/server.go:426-479 | in every reachable state a connection that holds the registry lock gives it back by its own steps: registered if it was opening a session, gone if it was closing one |
| Progress.RegisteredCanLeave | internal/server/server.go:466-479 | with the lock free, a registered connection's own steps lead to its end and unregister its client |
| Progress.ComesIn | internal/server/server.go:426-462 | a waiting connection of an unregistered client, whose session is not somebody else's, gets registered by its own steps |
| Progress.Takeover | internal/server/server.go:426-462 | over every run, a client that connects again while registered takes over by the steps of the two connections alone |

## Left out

- TCP and TLS, deadlines, keep-alive, shutdown and `connectionGroup`: input, output and wall-clock time; a connection may end at any step instead.
- `internal/client`: a send or enqueue is one step; a failed one ends the connection.
- Authentication, access lists, configuration, logging and observation: thin, or over libraries that are not part of this model.
- `sync.Pool` reuse of slices and buffers: results are fresh sequences.
- Acceptance times, `OldestPendingAge` and `Snapshot` reports: only observe.
- The order of `SnapshotSubscriptions`: restoring subscriptions does not depend on it.
- The retained replay loop and return codes of `handleSubscribe`: `RetainedMatching`, templates and `Admit` are modelled, their loop is not.
- CONNACK, PINGRESP and UNSUBACK encoders: fixed bytes.
- The `closing`, `ready` and `disconnectedAt` fields in `Ownership`: they decide QoS 0 writes, which `Fanout` takes as given, and the time of going offline, which is a parameter.
- SessionStore.State.BeginDelivery: after the 64-bit wrap it states which entries are eligible and no longer that the store is valid, because a wrapped epoch mistakes unsent entries for sent ones.
- Trace.RunIsGood: epochs are unbounded numbers there, so by `Trace.EpochsAreLifetimes` runs with 2^64 or more connection lifetimes of one session are not covered.
