# WispMQ broker: a verified model

This project models the state machine of the WispMQ MQTT 5.0 broker and proves
what it keeps over every run: the per-session QoS 1/2 delivery machine, the
router with its shared groups, connection takeover and timers, policy reload,
the persistence log, bridges, the connection rate limiter and the
connected-clients high-water mark.

All shared state of the broker sits behind one mutex, so a run is a sequence of
critical sections in any order. `BrokerRuns` makes each of them one step (a
CONNECT, a packet, a close, a timer, a policy swap, a revoke pass, a bridge
action, a status publication, a purge, or the connection task draining its
channel), and the theorems quantify over all event sequences.

## How it is put together

- `Types`, `Delivery`, `Router`, `Storage`, `Broker`, `StatusBatch`: the values and the
  handler functions. `Delivery` is the outbound half of a session, `Broker` has one
  function per critical section.
- `SessionObject`, `BrokerObject`, `Loader`, `RateLimit`, `BridgeLink`: the
  objects the program really holds. Their methods have the program's loops and
  update fields in place; each is proved equal to the function beside it, so
  every theorem about the functions holds of them.
- `SessionRuns`, `FlowControl`, `Conservation`, `EndToEnd`, `ExactlyOnce`,
  `Content`: theorems about one session under any sequence of events, the last
  three with a conforming receiver and links that may lose everything in transit
  at any step: that nothing is passed on twice, lost unaccounted for, or altered.
- `Tokens`, `Outcomes`, `Progress`: that everything owed can still be delivered,
  from every reachable state.
- `Sending`, `Publishing`, `SubscribeRules`, `ConnectRules`, `Lists`, `Policy`,
  `Housekeeping`: what each request does, answers and writes, in terms of the
  request, the state and the configuration, without the functions that compute
  it.
- `SessionProjection`, `Posts`, `Erasure`: from the broker to its sessions. Every
  step of the broker moves every session by a run of that session machine;
  `Posts` says by which one, event by event, and the ledger that numbers a
  session's deliveries goes through the same states but for labels.
- `Accounting`, `ClientDelivery`, `GroupTurns`: what this carries over to every
  broker run, beside identifier discipline, the queue bound and Receive Maximum:
  the broker-wide count of drops, at most once and exactly once for every client
  that keeps to the protocol whatever the others do, and round-robin.
- `Takeover`, `Authorization`, `InboundQos2`, `BridgeLoop`: theorems about the
  whole broker. `Fairness`, `HighWater`: the two side cores.
- `DiskRows`, `Persistence`, `Reload`: memory against the database.
- `Scenarios`, `Collision`: concrete runs, for what turned out not to hold.

`Label` on messages is a history variable (which delivery, on whose behalf); no
branch reads it. The functions of the external protocol crate (topic matching,
filter parsing, validity, packet size) and the settings are fields of `Env` and
are arbitrary; only the persistence theorems assume something of them, namely
that a parsed filter can be rebuilt from its parts (`ParseCanonical`).
Iteration orders of hash tables and SQL queries are parameters over which the
theorems quantify. Time is a clock that never runs backwards.

Every lemma carries `{:induction false}`: no proof leans on automatic induction,
each recursion is written out.

## What turned out not to hold

Each of these has the exact condition and an input.

- The comment on topic aliases (`src/broker/session.rs:98-99`) says they are
  reset on each new connection. A takeover that resumes the session keeps them:
  `Takeover.AliasesAfterConnect`, and the run `Scenarios.AliasTakeoverHappens`.
- The comment in `src/broker/lifecycle.rs:19-21` says a stale DISCONNECT cannot
  change the expiry of the session that replaced it. The update runs in a second
  critical section without an epoch check: `Takeover.ExpiryUpdateUnfenced`, and
  the run `Scenarios.StaleDisconnectHappens`.
- A PUBREC with an error frees a slot but does not flush the queue:
  `FlowControl.ErrorPubrecMayStall`, and the run `FlowControl.ErrorPubrecStalls`.
- CONNECT does not always keep memory and disk in agreement: a resume that turns
  a session persistent does not store the subscriptions it already had, and one
  that turns it off leaves the old row behind. `Reload.ConnectAgreesExactly`, and
  the runs `Scenarios.SwitchOnHappens` and `Scenarios.SwitchOffHappens`.
- When the 64-bit cursor of a shared group wraps, a full turn is fair exactly if
  the number of members divides 2^64: `Fairness.FullTurnFairExactly`, and three
  members in `Fairness.ThreeMembersWrapUnfairly`.
- The rate limiter counts in 32 bits, wrapping in a release build (a build with
  overflow checks stops instead): a window keeps its limit exactly if the address
  makes fewer than 2^32 attempts in it, `RateLimit.FixedWindowExact`, and the
  trace `RateLimit.FloodBreaksTheLimit`.
- After a change of identity an accepted QoS 2 delivery may never have reached
  the application: exactly those sent under an identifier the receiver still
  held, `ExactlyOnce.ExactlyOnceUnlessCollided`. The wipe keeps the identifier
  cursor, so in `Collision.CollisionHappens` it walks round to a held one. A
  restart forgets the cursor instead, and the first message after it suffices:
  `Collision.RestartCollides`.
- The resends of a resume are not measured against the Maximum Packet Size of the
  new connection: they fit exactly if every message in flight does,
  `Sending.ResumeFitsExactly`, and one that does not in `Sending.ResendTooBig`.

## Model

| member | source | states |
|---|---|---|
| `Types.ExpiryIsFinal` | src/message.rs:56-69 | a message is expired exactly from its deadline on, and stays expired |
| `Types.CodesAreDistinct` | src/broker/publish.rs:222-233 | reason codes by their number in section 2.4 of MQTT 5.0: distinct, and the errors are those of 0x80 and above |
| `Types.ToPublishCarries` | src/message.rs:76-118 | an outbound PUBLISH has the message's topic, payload and properties, the delivery's level, flag and identifiers, and as expiry the seconds left until the deadline, as many as 32 bits hold |
| `Delivery.NextIdExact` | src/broker/session.rs:142-157 | identifier allocation fails exactly when all 65535 are in use, and otherwise returns one in range that nothing in flight holds |
| `Delivery.OpenWindowHasId` | src/broker/session.rs:131-157 | by pigeonhole an open window always has a free identifier, so the exhausted branches are dead |
| `SessionObject.Session.constructor` | src/broker/session.rs:104-124 | a new session as the value model has it |
| `SessionObject.Session.NextId` | src/broker/session.rs:142-151 | the probing loop finds the first free identifier in cyclic order, or none, and leaves the cursor behind it |
| `SessionObject.Session.UpsertSubscription` | src/broker/session.rs:161-173 | replaces the first subscription with the same filter and share or appends, and reports which |
| `SessionObject.Session.RemoveSubscription` | src/broker/session.rs:177-182 | removes exactly those with that filter and share, and reports whether there was one |
| `SessionObject.Session.GoOffline` | src/broker/session.rs:186-188 | drops the channel and nothing else |
| `SessionObject.Session.Deliver` | src/broker/routing.rs:150-244 | sends, records, queues or drops as the delivery function says, with the same drop report |
| `SessionObject.Session.FlushQueue` | src/broker/routing.rs:251-308 | the flush loop terminates in the state and with the count of the recursive flush |
| `SessionObject.Session.ResumeDelivery` | src/broker/routing.rs:314-338 | offers both resend tables and the releases in order, then flushes |
| `SessionObject.Session.HandlePuback` | src/broker/publish.rs:202-207 | frees the identifier and flushes |
| `SessionObject.Session.HandlePubrec` | src/broker/publish.rs:222-240 | turns an entry into a release, or frees it on an error, or answers an unknown identifier |
| `SessionObject.Session.HandlePubrel` | src/broker/publish.rs:255-268 | forgets an inbound identifier and answers whether it was pending |
| `SessionObject.Session.HandlePubcomp` | src/broker/publish.rs:282-288 | ends a release and flushes |
| `SessionRuns.FlushMove` | src/broker/routing.rs:253-306 | every iteration of the flush is one legal move: stay, discard the head for a stated reason, or send it with a free identifier, carrying its message |
| `SessionRuns.DeliverEffect` | src/broker/routing.rs:150-244 | every delivery is ignored, refused, pushed, sent in flight with a free identifier, or queued, each with its exact condition and report, and what is sent carries the message |
| `SessionRuns.StepKeepsWellFormed` | src/broker/publish.rs:191-290 | every event keeps the three in-flight tables disjoint sets of identifiers in 1..65535, each entry filed under its own identifier and QoS |
| `SessionRuns.RunKeepsWellFormed` | src/broker/session.rs:131-157 | hence so does every run |
| `SessionRuns.EntriesStay` | src/broker/routing.rs:196-224 | no in-flight entry is ever overwritten: whatever the event, every entry it does not itself settle is afterwards exactly what it was |
| `FlowControl.DeliverFlow` | src/broker/routing.rs:196-224 | a QoS 1 or 2 PUBLISH goes in flight only below Receive Maximum and takes one slot |
| `FlowControl.RunFlow` | src/broker/session.rs:131-139 | along any run of one connection the in-flight count never exceeds the larger of its start and Receive Maximum |
| `FlowControl.ReceiveMaximumRespected` | src/broker/routing.rs:314-338 | the same from a CONNECT on, including its resume |
| `FlowControl.FlushSplitsQueue` | src/broker/routing.rs:251-308 | the old queue is a consumed prefix, namely the sent in order, each fitting the client's packet size, the expired and those that do not fit (the returned count), and an untouched suffix; and the four exit conditions |
| `FlowControl.AcksLeaveNoStall` | src/broker/publish.rs:202-207 | after a PUBACK or PUBCOMP whatever still waits does so behind the window or the channel, or for a connection |
| `FlowControl.ResumeLeavesNoStall` | src/broker/routing.rs:314-338 | likewise after a resume |
| `FlowControl.ErrorPubrecMayStall` | src/broker/publish.rs:223-227 | exactly when an error PUBREC leaves a session that could send but does not |
| `FlowControl.ErrorPubrecStalls` | src/broker/publish.rs:223-227 | a run of a fresh session that ends so |
| `FlowControl.QueueBounded` | src/broker/routing.rs:225-241 | with a bound, no reachable queue is longer than it |
| `FlowControl.OfflineSlidingWindow` | src/broker/routing.rs:225-241 | deliveries to an offline session leave exactly the last `cap` of old queue plus new messages, and the drops are the excess |
| `Conservation.StepBalances` | src/broker/routing.rs:150-338 | every event moves every QoS 1/2 delivery to exactly one place or fate and reports exactly the evicted, oversized and refused |
| `Conservation.Conserved` | src/broker/publish.rs:191-290 | in every run each delivery is in exactly one of queued, awaiting PUBACK, awaiting PUBREC, released, acknowledged, rejected, evicted, oversized, expired, wiped; and the reported drops are exactly the evicted, oversized and refused |
| `Conservation.StepTruthful` | src/broker/publish.rs:191-290 | whatever leaves a session at an event leaves it for the recorded cause: its own identifier acknowledged or rejected, head of a full queue, too big, past its deadline, or a change of identity; nothing leaves otherwise |
| `Conservation.FatesAreTrue` | src/broker/routing.rs:150-338 | in every run every recorded fate was entered by an event that really did that to the delivery |
| `Conservation.FateIsFinal` | src/broker/routing.rs:150-338 | and it never changes |
| `EndToEnd.AtMostOnce` | src/broker/publish.rs:211-290 | with a conforming receiver over links that may reset at any step, no delivery reaches the application twice and a rejected one never does |
| `EndToEnd.ExactlyOnceUnlessWiped` | src/broker/publish.rs:211-243 | without an identity change, everything whose PUBREC the broker accepted was passed on once |
| `EndToEnd.NeverResentAfterPubrec` | src/broker/routing.rs:314-338 | once its PUBREC was accepted, no PUBLISH of a delivery is queued, recorded, in the channel or on the wire |
| `ExactlyOnce.ExactlyOnceUnlessCollided` | src/broker/connect.rs:145-177 | in every run, wiped or not, an accepted delivery was passed on, once, exactly if it was never sent under an identifier the receiver still held; without an identity change none is |
| `Content.ContentIsKept` | src/message.rs:76-118 | in every run with loss, reconnects and wipes: each PUBLISH in a table, in the channel, on the wire or handed to the application carries the message given under its serial; two of one serial differ in DUP only; the queue holds deliveries as given |
| `Progress.EverythingSettles` | src/broker/routing.rs:314-338 | from every reachable state, after a reconnect of the same owner whose channel takes the backlog, an exchange in which nothing is lost leaves nothing waiting, in flight or in transit; every delivery alive ended acknowledged, or expired or too big while still waiting; and unless the owner ever changed each QoS 2 message owed was passed on, but for these, and the client holds no identifier |
| `Sending.PubrecAnswered` | src/broker/publish.rs:222-240 | a PUBREC is answered by exactly one PUBREL if it is no error, Success for an identifier that awaited it, which is then parked, Packet Identifier not found for any other; an error frees the identifier and sends nothing |
| `Sending.ChannelKeepsBounds` | src/broker/session.rs:186-188 | the channel never holds more than its capacity and a closed one gets nothing, whatever the event |
| `Sending.FlushedFit` | src/broker/routing.rs:272-281 | every PUBLISH a flush sends is within the client's Maximum Packet Size |
| `Sending.DeliveredFits` | src/broker/routing.rs:164-196 | so is every direct delivery, measured at QoS 1 and 2 with identifier 0 |
| `Sending.BacklogIs` | src/broker/routing.rs:318-337 | a resume offers every entry as it was first sent but for DUP, then a PUBREL for every release, in the order of the tables |
| `Sending.ResumeFitsExactly` | src/broker/routing.rs:318-337 | after a resume the channel is within the new Maximum Packet Size exactly if every in-flight packet is |
| `Sending.ResendTooBig` | src/broker/routing.rs:318-337 | one that is not |
| `Collision.CollisionHappens` | src/broker/connect.rs:145-177 | in every configuration there is a run in which the broker accepts the PUBREC of a delivery that never reached the application |
| `Collision.RestartCollides` | src/broker/mod.rs:156-190 | a client that still holds identifier 1 when a restored session begins never sees the next message, though its PUBREC is accepted |
| `Router.TargetIsDue` | src/broker/routing.rs:41-95 | a session with a match gets one delivery: at a level no higher than the message's and some matching subscription's, while no matching subscription could be given more; identifiers in list order, RETAIN as published |
| `Router.OrdinaryPass` | src/broker/routing.rs:41-95 | after the ordinary pass every session is as after its own due delivery, others untouched, counts exact |
| `Router.OrdinaryOrderIrrelevant` | src/broker/routing.rs:41-95 | the iteration order of the sessions does not matter |
| `Router.CandidatesExact` | src/broker/routing.rs:46-76 | the candidates of a group are exactly its members that want the message, each at the lower of the two levels with its own identifier |
| `Router.BumpAllAt` | src/broker/routing.rs:98-108 | each group served moves its own cursor by one, wrapping, and no other |
| `Router.RouteRefines` | src/broker/routing.rs:16-125 | one due delivery per matching session plus one per shared group with an eligible member, true exactly if something was eligible, for every iteration order |
| `Fairness.Fair` | src/broker/routing.rs:98-107 | without a wrap, k selections among n members pick each floor(k/n) or ceil(k/n) times, and n selections each once |
| `Fairness.GroupsIndependent` | src/broker/mod.rs:142-143 | turning one group's cursor leaves every other group's alone |
| `Fairness.FairByName` | src/broker/routing.rs:98-107 | a client listed m times among them is picked between m * floor(k/n) and m * ceil(k/n) times |
| `GroupTurns.TurnServes` | src/broker/routing.rs:97-108 | a route's delivery for a group goes to the member at the group's cursor |
| `GroupTurns.StepMoves` | src/broker/routing.rs:98-108 | a group's cursor moves, by one, at exactly those steps of the broker that have a delivery for it |
| `GroupTurns.ServedInTurn` | src/broker/routing.rs:97-108 | along any broker run in which the group has the same members whenever a message comes for it, its deliveries go round them in order, starting at the cursor |
| `GroupTurns.TurnsAreFair` | src/broker/routing.rs:16-125 | so of any k deliveries to a group of n a client listed m times gets between m * floor(k/n) and m * ceil(k/n), whatever else happens in between, without a wrap |
| `Fairness.FullTurnFairExactly` | src/broker/routing.rs:103-105 | a full turn across the wrap is fair exactly if n divides 2^64 |
| `Fairness.ThreeMembersWrapUnfairly` | src/broker/routing.rs:103-107 | three members at the wrap are not served once each |
| `BrokerObject.ScanSubscriptions` | src/broker/routing.rs:42-86 | the scan of one session's list computes its best grant and appends its candidates to their groups |
| `BrokerObject.ChooseMembers` | src/broker/routing.rs:97-108 | the choice loop picks one member per group by its cursor and moves the cursors on |
| `BrokerObject.Broker.RouteOrdinary` | src/broker/routing.rs:41-95 | the single pass that scans and delivers equals planning first and delivering after, and gathers every group |
| `BrokerObject.Broker.Route` | src/broker/routing.rs:16-125 | the in-place router equals the routing function on sessions, cursors, result and drops |
| `Publishing.AliasesStand` | src/broker/publish.rs:52-67 | a topic sent with an alias is what the alias stands for afterwards, no other alias changes, and an alias is refused exactly if it is out of bounds or stands for nothing |
| `Publishing.PublishVerdict` | src/broker/publish.rs:23-87 | what is wrong with a PUBLISH, the first that applies, decides the DISCONNECT, and nothing but an alias changed |
| `Publishing.UnpermittedIsRefused` | src/broker/publish.rs:89-121 | one that only lacks permission is acknowledged with Not authorized and neither routed nor retained |
| `Publishing.PublishRetains` | src/broker/publish.rs:123-136 | RETAIN replaces the message on its topic by what was published, or clears it if empty, even for a repeated identifier; nothing else retained changes |
| `Publishing.PublishAnswered` | src/broker/publish.rs:138-185 | after its deliveries a PUBLISH is acknowledged by its level: Success if some subscription wanted the unexpired message or its identifier repeats, No matching subscribers otherwise |
| `Publishing.RoutedIsDue` | src/broker/routing.rs:41-119 | every delivery of a routing carries the message to a client with a subscription that wants it, at its level, identifiers and flag |
| `Publishing.GivesAreDue` | src/broker/routing.rs:16-125 | in every step of the broker nobody is given a message that is not due to them, by a routing or by a filter of their SUBSCRIBE |
| `Publishing.RouteIs` | src/message.rs:36-54 | what a step routes is what a client published, with its expiry interval turned into a deadline, a Will's message, a bridge's, or a status line |
| `BrokerObject.Broker.HandlePublish` | src/broker/publish.rs:14-185 | QoS and RETAIN limits, epoch, alias, `$SYS`, authorisation, retained store, duplicate check, routing and answer, in this order |
| `BrokerObject.Broker.HandlePuback` | src/broker/publish.rs:191-209 | the fenced acknowledgement changes only its own session and counts what the flush dropped |
| `BrokerObject.Broker.HandlePubrec` | src/broker/publish.rs:211-243 | likewise for PUBREC |
| `BrokerObject.Broker.HandlePubrel` | src/broker/publish.rs:245-270 | likewise for PUBREL |
| `BrokerObject.Broker.HandlePubcomp` | src/broker/publish.rs:272-290 | likewise for PUBCOMP |
| `SubscribeRules.RetainedExactly` | src/broker/subscribe.rs:102-120 | whatever order the retained topics come in, the messages due to a new subscription are exactly the unexpired ones on topics its filter matches, one each, with RETAIN, its identifier and the lower of the two levels |
| `SubscribeRules.StripsShare` | src/broker/subscribe.rs:210-219 | validity is judged on what follows the share name, if there is one |
| `SubscribeRules.FilterHandled` | src/broker/subscribe.rs:47-129 | a filter is malformed, not permitted, or granted at the lower of the level asked for and the server's: listed in place of the same filter and share or at the end, written if the session is on disk, acknowledged with its level, and the retained messages due at every subscribe, at a new one, or never, and never to a share |
| `SubscribeRules.SubscribeFollowsRules` | src/broker/subscribe.rs:14-151 | a whole SUBSCRIBE: list and records are the outcome of its filters in turn, and the client gets the SUBACK with one code each, then the retained messages due |
| `SubscribeRules.UnsubscribeFollowsRules` | src/broker/subscribe.rs:153-207 | a whole UNSUBSCRIBE likewise: every entry of the filter and share goes, and the code says whether there was one |
| `Lists.UpsertAt` | src/broker/session.rs:161-173 | adding replaces the first entry of the filter and share where it stands, or appends |
| `Lists.RemovalKeeps` | src/broker/session.rs:177-182 | removal leaves every other entry as often as it was |
| `Lists.PolicySplits` | src/broker/authz.rs:55-63 | the entries kept and those revoked are those the policy permits and those it does not, each as often as it was |
| `Lists.PolicyKeepsOrder` | src/broker/authz.rs:55-63 | both in their old order |
| `Policy.PublishPermitted` | src/acl.rs:132-143 | publishing is permitted without an enforced policy, by default, or exactly if a rule about the client, by name, as anonymous or about everybody, lists a filter for it |
| `Policy.SubscribePermitted` | src/acl.rs:145-167 | subscribing likewise, by the other list |
| `Policy.ListsAreIndependent` | src/acl.rs:133-167 | neither looks at the other's list |
| `BrokerObject.MatchingRetained` | src/broker/subscribe.rs:102-120 | the retained messages a new subscription is sent |
| `BrokerObject.Broker.HandleSubscribe` | src/broker/subscribe.rs:14-151 | list, log, reason codes, SUBACK and then the retained deliveries, filter by filter, with their drops counted |
| `BrokerObject.Broker.HandleUnsubscribe` | src/broker/subscribe.rs:153-207 | list, log and reason codes, filter by filter |
| `BrokerObject.SplitAllowed` | src/broker/authz.rs:55-63 | the subscriptions a policy keeps and those it revokes |
| `BrokerObject.Broker.HandleConnect` | src/broker/connect.rs:18-294 | refusals with their codes, epoch, clean start, takeover, identity change, binding, re-authorisation, log, resume and its drops, and the answer: epoch, Session Present and the expiry where it is not the one asked for |
| `ConnectRules.Refusals` | src/broker/connect.rs:55-88 | a CONNECT is refused for a Will it may not publish, or for a reserved id, with that code and no change |
| `ConnectRules.ConnectLasts` | src/broker/connect.rs:90-105 | a v3.1.1 session lasts the cap, or not beyond its connection if clean; a v5 session the lesser of what was asked and the cap; it is persistent, and written last, exactly if it outlives its connection under an id of the client's own |
| `ConnectRules.ConnectBinds` | src/broker/connect.rs:113-189 | epoch, identity, Will, Receive Maximum and Maximum Packet Size are the connection's, and no other session, retained message or cursor changes |
| `ConnectRules.NewOwnerInheritsNothing` | src/broker/connect.rs:145-177 | a kept session whose authenticated owner changed has no subscription and no message left, and nothing is sent |
| `ConnectRules.SameOwnerKeeps` | src/broker/connect.rs:132-234 | otherwise it keeps exactly the subscriptions the policy permits, everything in flight, its inbound identifiers and aliases |
| `ConnectRules.NewSessionIsFresh` | src/broker/connect.rs:118-131 | a clean start or an unknown client starts from nothing |
| `Takeover.ConnackIsTrue` | src/broker/connect.rs:113-281 | the answer is true of the session: a refusal changes nothing, epoch and expiry are the session's, and without Session Present nothing of an earlier session is left |
| `Housekeeping.PubrelAnswered` | src/broker/publish.rs:245-270 | a PUBREL forgets its identifier and is answered by one PUBCOMP that says whether it was pending |
| `Housekeeping.LateAcksChangeNothing` | src/broker/publish.rs:191-200 | acknowledgements for a vanished session are ignored, those of a superseded connection end it; neither changes anything |
| `Housekeeping.ExpiryIsUpdated` | src/broker/lifecycle.rs:42-56 | the expiry becomes the lesser of what was asked and the cap, and is written exactly if the session is on disk |
| `Housekeeping.CloseClears` | src/broker/lifecycle.rs:69-95 | the close of the current connection takes link, aliases and Will and nothing else; any other close does nothing |
| `Housekeeping.CloseLeavesWork` | src/broker/lifecycle.rs:80-116 | a close leaves the removal and, if its Will is to be published, that Will on behalf of the session's owner, waiting exactly if it has a delay |
| `Housekeeping.DelayEnds` | src/broker/lifecycle.rs:121-140 | when its delay is over a Will is due exactly if its client stayed away |
| `Housekeeping.WillIsStored` | src/broker/lifecycle.rs:142-173 | a due Will its owner may still publish is stored if retained and used up; otherwise it is dropped |
| `Housekeeping.InjectedIsStored` | src/broker/bridges.rs:54-68 | a bridge's message is stored if retained |
| `Housekeeping.StatusIsStored` | src/broker/bridges.rs:80-98 | a status line replaces the one on its topic, and nothing is logged |
| `Housekeeping.BridgeComesAndGoes` | src/broker/bridges.rs:20-30 | a bridge starts from a clean session under the identity of bridges, and its end removes it unless it registered again |
| `Housekeeping.BridgeListens` | src/broker/bridges.rs:37-49 | a bridge's filter is heard at QoS 0, as published, and without its own messages |
| `Housekeeping.BridgeReleases` | src/bridge.rs:538-563 | a PUBREC from the remote is answered by one PUBREL |
| `Housekeeping.BridgeConforms` | src/bridge.rs:609-651 | a bridge is a conforming receiver of what the remote broker sends: same identifiers held, same acknowledgements, and QoS 2 messages injected exactly when such a receiver passes them on |
| `BrokerObject.Broker.UpdateExpiry` | src/broker/lifecycle.rs:42-56 | the second section of a DISCONNECT sets the clamped expiry, whatever the epoch |
| `BrokerObject.Broker.CloseSession` | src/broker/lifecycle.rs:64-99 | a close of the current epoch clears aliases, channel and Will, and hands over the Will and how long the session is to be kept |
| `BrokerObject.Broker.RemoveIfIdle` | src/broker/lifecycle.rs:102-115 | a session is removed only if its epoch is unchanged and it is offline |
| `BrokerObject.Broker.RetainAndRoute` | src/broker/bridges.rs:54-68 | a bridge's message, or a fired Will, is stored if retained and routed |
| `BrokerObject.Broker.Revoke` | src/broker/authz.rs:42-94 | the pass prunes every session, logs the deletions of persistent ones and shuts affected clients down |
| `BrokerObject.Broker.RegisterBridge` | src/broker/bridges.rs:20-30 | a fresh, clean session under the bridge's id |
| `BrokerObject.Broker.BridgeSubscribe` | src/broker/bridges.rs:37-49 | one more unshared QoS 0 subscription |
| `BrokerObject.Broker.DeregisterBridge` | src/broker/bridges.rs:101-106 | removes the session of that epoch, and logs nothing |
| `BrokerObject.Broker.PublishSys` | src/broker/bridges.rs:82-97 | one status message is retained in memory only, and routed |
| `BrokerObject.Broker.PublishSysAll` | src/broker/bridges.rs:80-98 | a batch under one lock publishes its entries in order |
| `StatusBatch.BatchIsARun` | src/broker/bridges.rs:80-98 | a batch is a run of the broker, one status step per entry, so what holds over all runs holds across batches |
| `BrokerObject.Broker.PurgeRetained` | src/broker/stats.rs:63 | exactly the expired messages leave memory, at no later time does any topic look different, and nothing is logged |
| `BrokerObject.Broker.constructor` | src/broker/mod.rs:149-214 | restores every session and message read, except sessions under reserved ids |
| `BrokerObject.Boot` | src/broker/mod.rs:149-214 | reading a database and restoring it gives the start state of that database |
| `SessionProjection.StepFollows` | src/broker/routing.rs:16-125 | whatever the broker does in a step, each session it does not reopen moves by a run of its own machine |
| `SessionProjection.ConnectFollows` | src/broker/connect.rs:122-281 | a CONNECT is the reconnect event of the session it resumes, or of a fresh one |
| `SessionProjection.EverySessionIsARun` | src/broker/session.rs:131-157 | in every broker run every session is reachable in the session machine, hence well formed, never out of identifiers in an open window, and within its queue bound |
| `SessionProjection.BrokerRespectsReceiveMaximum` | src/broker/session.rs:131-139 | in every broker run, from an accepted CONNECT to the client's next one, its in-flight count never exceeds the larger of what it resumed with and its Receive Maximum |
| `Erasure.BareStep` | src/broker/routing.rs:150-338 | no event reads a label |
| `Erasure.LedgerIsTheRun` | src/broker/routing.rs:150-338 | a ledger's session is the session itself but for labels, over any run |
| `Posts.StepPosts` | src/broker/mod.rs:253-299 | after any step of the broker the outbound halves of all sessions and publish_dropped are exactly what the step's posts, a function of the state and the event, make of them in order |
| `Accounting.DropsAccountedFor` | src/broker/routing.rs:120-123 | in every broker run publish_dropped is exactly the sum, over the sessions it has and those it ever had, of the evicted and oversized deliveries and refused QoS 0 messages in the ledger of the events posted to that session, and these events made the session what it is |
| `ClientDelivery.EveryClientOnce` | src/broker/publish.rs:191-290 | in every broker run composed with a client that keeps to the protocol, whatever everybody else does and whatever the client holds at start-up: none of its deliveries reaches its application twice, a rejected one never does, an accepted one does exactly if it did not collide and is not on its way again; and everything on its link carries what was given |
| `Takeover.StepEpoch` | src/broker/connect.rs:113-115 | a step changes no session's epoch except that an accepted connection takes the next unused one |
| `Takeover.EpochFence` | src/broker/mod.rs:253-299 | after a takeover and any further run, every packet or close of an earlier connection leaves sessions, retained messages and log unchanged |
| `Takeover.StaleIsIgnored` | src/broker/publish.rs:38-49 | a packet or close whose epoch is not current changes nothing |
| `Takeover.ExpiryUpdateUnfenced` | src/broker/lifecycle.rs:42-56 | exactly when the unfenced expiry update changes nothing |
| `Takeover.StaleUpdateLands` | src/broker/lifecycle.rs:35-56 | a superseded DISCONNECT sets the new connection's expiry |
| `Scenarios.StaleDisconnectHappens` | src/broker/lifecycle.rs:35-56 | a run from start-up in which it does |
| `Takeover.AliasesAfterConnect` | src/broker/lifecycle.rs:74-79 | aliases are empty after CONNECT exactly if the session is new or they were empty before |
| `Scenarios.AliasTakeoverHappens` | src/broker/connect.rs:132-189 | a run from start-up after which the new connection still has the old one's alias |
| `Takeover.RemovalMeansNoReconnect` | src/broker/lifecycle.rs:102-192 | a teardown or expiry timer removes a session only if no connection for that client was accepted since |
| `Takeover.WillsFireAtMostOnce` | src/broker/lifecycle.rs:64-174 | in every run each Will is fired at most once, and only if its own epoch's close took it with the request to publish |
| `Authorization.OnlineAlwaysAuthorised` | src/broker/authz.rs:25-94 | in every run every subscription of an online client is allowed by the current policy, or that policy's revoke pass is pending |
| `Authorization.PassSettlesEveryone` | src/broker/authz.rs:42-94 | after the pass this holds of offline sessions too, until the next swap |
| `Authorization.ConnectAuthorises` | src/broker/connect.rs:198-234 | a CONNECT leaves only subscriptions the current policy allows its identity |
| `Authorization.SubscribeAllowed` | src/broker/subscribe.rs:40-84 | a SUBSCRIBE adds only allowed subscriptions |
| `InboundQos2.RoutedExactlyWhenEntered` | src/broker/publish.rs:158-183 | a QoS 2 PUBLISH is routed, once, exactly when its identifier enters the pending set; otherwise no other session and no cursor changes |
| `InboundQos2.RoutedOncePerRelease` | src/broker/publish.rs:245-270 | over every run, two routings of one identifier have a PUBREL or the end of the session between them, and the pending set is what the history says |
| `BridgeLink.RemoteLink.HandleInbound` | src/bridge.rs:609-651 | a PUBLISH from the remote is injected unless it repeats a pending QoS 2 identifier, and acknowledged by its QoS |
| `BridgeLink.RemoteLink.Serve` | src/bridge.rs:538-563 | the receive loop applies these to everything received, in order |
| `BridgeLink.InjectedOncePerRelease` | src/bridge.rs:609-651 | on one remote connection a QoS 2 identifier is injected exactly when every earlier PUBLISH of it has been released |
| `BridgeLoop.BridgeNeverHearsItself` | src/bridge.rs:219-228 | in every run a bridge's session has only No Local subscriptions, belongs to no client connection, and holds nothing routed on the bridge's behalf |
| `BridgeLoop.InjectionSkipsItsBridge` | src/broker/routing.rs:52-54 | injecting a message leaves the injecting bridge's own session exactly as it was |
| `Loader.Store.Apply` | src/storage.rs:352-433 | each command changes the tables in place as the command function says |
| `Loader.Store.ApplyAll` | src/storage.rs:344-350 | the writer folds the log in order |
| `Loader.Store.LoadAll` | src/storage.rs:246-342 | the lists of unexpired messages and of sessions with their subscriptions |
| `Loader.RestoredIsLoaded` | src/broker/mod.rs:156-190 | restoring those lists gives the start state, whatever order the rows come in |
| `DiskRows.DiskFollowsAll` | src/storage.rs:352-433 | a log acts on each client's rows separately |
| `DiskRows.MirrorsAgree` | src/broker/mod.rs:172-187 | two lists that mirror the same rows are permutations of each other |
| `Persistence.ConnectAgrees` | src/broker/connect.rs:122-249 | CONNECT keeps memory and disk in agreement about its client |
| `Persistence.SubscribeMirrors` | src/broker/subscribe.rs:84-100 | SUBSCRIBE keeps the rows exactly the list |
| `Persistence.UnsubscribeMirrors` | src/broker/subscribe.rs:176-200 | UNSUBSCRIBE keeps the rows exactly the list |
| `Persistence.RevokeAgrees` | src/broker/authz.rs:47-80 | the revoke pass keeps the agreement about every client |
| `Reload.DiskTracksMemory` | src/storage.rs:352-433 | in every run the folded log has the row of every persistent session, no row of a vanished client, exactly the subscriptions of sessions that never switched, and the unexpired messages on topics the status publisher never wrote |
| `Reload.RestartRestores` | src/broker/mod.rs:156-190 | starting again from it restores exactly that |
| `Reload.SwitchOnForgetsSubscriptions` | src/broker/connect.rs:181-249 | after a resume that turns a session persistent, the database has its row and no subscription |
| `Reload.SwitchOffKeepsRow` | src/broker/connect.rs:181-249 | after a resume that turns it off, the old row is still there |
| `Reload.ConnectAgreesExactly` | src/broker/connect.rs:122-249 | CONNECT keeps memory and disk in agreement about its client exactly if the session does not switch, or becomes persistent without keeping a subscription |
| `Scenarios.SwitchOnHappens` | src/broker/connect.rs:181-249 | a run from start-up after which a persistent session has a subscription the database lacks |
| `Scenarios.SwitchOffHappens` | src/broker/connect.rs:181-249 | a run from start-up after which a session that is not persistent still has its row |
| `RateLimit.RateLimiter.Check` | src/ratelimit.rs:41-54 | one attempt counts, resets or opens a window in place |
| `RateLimit.RateLimiter.Sweep` | src/ratelimit.rs:59-63 | exactly the entries two windows old are dropped, and every later attempt is decided as it would have been |
| `RateLimit.FixedWindowBound` | src/ratelimit.rs:41-54 | a fixed window admits at most the limit per address, as long as that address's counter does not wrap |
| `RateLimit.AtMostTwiceTheLimit` | src/ratelimit.rs:41-54 | any interval of one window length admits at most twice the limit, under the same condition |
| `RateLimit.SweepIsInvisible` | src/ratelimit.rs:59-63 | sweeping at any moment changes no later decision |
| `RateLimit.FixedWindowExact` | src/ratelimit.rs:41-54 | a window keeps its limit exactly if the address makes fewer than 2^32 attempts in it |
| `RateLimit.FloodBreaksTheLimit` | src/ratelimit.rs:41-54 | 2^32 attempts at once break it |
| `HighWater.RunKeepsInv` | src/metrics.rs:127-143 | under every interleaving, with spurious failures, the maximum never decreases and covers every observer that returned |
| `HighWater.MaximumWhenAllReturned` | src/metrics.rs:127-143 | once all observers have returned it is the maximum of everything observed |

## Left out

- EndToEnd.ExactlyOnceUnlessWiped: says nothing once an identity has changed; ExactlyOnce.ExactlyOnceUnlessCollided does.
- BrokerObject.Broker.HandleConnect: the channel of the replaced connection is dropped with its contents, so its last Shutdown is not followed; the CONNACK properties copied from the configuration and the naming of assigned client ids are not modelled, and authentication happens before it.
- BrokerObject.Broker.CloseSession: what the caller does with the time to keep the session is left to the run, which may remove it at any later step; immediate removal and the timer are among these.
- BrokerObject.Broker.Route: of the counters only publish_dropped is modelled.
- Time within one critical section is one instant, where the program reads the clock again for each message.
- A policy swap that falls between two reads of the policy within one handler counts as before or after that handler; a fired Will checks the policy and routes in one step.
- Sockets, TLS, WebSocket, HTTP admin and the command line: plumbing over external libraries; a connection is an epoch, a bounded channel and its loss.
- Wire codec, packet decoding, topic matching and filter parsing: in the external protocol crate, arbitrary functions here.
- SQLite, the writer thread's death and schema migrations: the log is folded in order by a live writer.
- Configuration layering, policy and credential file parsing, password hashing, metric rendering: easy or external.
- Bridge connection handling and its outbound identifiers: network client code.
- PINGREQ, AUTH and enhanced authentication: single-branch behaviour.
