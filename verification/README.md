# A verified model of the Minecraft LAN relay

The program connects local networks: every process hears game advertisements on its own network, floods
them to its peers, opens a listener for each game it learns of, and splices the byte streams of clients
through any number of relays to the game server. This project models the event loop and its tables, the
network of such loops, the threads that serve game sockets, the framed and encrypted link between two
relays, the discovery packet, and the listener's keepalive protocol, and proves what holds of them in
every run.

`dafny verify dfyconfig.toml` checks everything.

## How the project is laid out

| files | what they hold |
|---|---|
| `Basics.dfy` | optional values, bytes, prefixes |
| `RelayModel.dfy` | the tables of one relay and one pure function per event handler |
| `Relay.dfy` | the relay as a class that updates those tables in place, each method proved equal to its function |
| `Tables.dfy`, `Orphans.dfy`, `Ports.dfy`, `Pairing.dfy`, `Roles.dfy`, `Receivers.dfy` | what every run of one relay keeps: game index, owned games, listener ports, paired connections, who receives under an id |
| `Handlers.dfy`, `Adverts.dfy` | what each event does to peers, connections, games and listeners, as peers, clients, hosts and the local network observe it |
| `Routes.dfy`, `Echo.dfy`, `Flood.dfy` | networks of relays: depth and origin of advertisements, echoes, how long a flood lasts |
| `Circuits.dfy` | networks with ordered links, mailboxes and socket threads; when an id collides; what safe streams are |
| `CircuitInvariant.dfy`, `CircuitThreads.dfy`, `CircuitLoop.dfy`, `CircuitClaim.dfy`, `CircuitOpen.dfy`, `CircuitForward.dfy`, `CircuitData.dfy`, `CircuitSteps.dfy` | the circuit invariant, and that every kind of step keeps it |
| `CircuitTheorems.dfy`, `CircuitEnds.dfy`, `CircuitCallers.dfy`, `CircuitCrossed.dfy`, `CircuitTurns.dfy` | stream safety, how threads end, the exact condition on who may open connections, runs that fail and a run that uses an id twice safely |
| `CircuitRoutes.dfy`, `CircuitProjection.dfy` | every circuit run is a run of the advertisement network |
| `GameConnection.dfy` | the loops of a socket thread |
| `MessageSize.dfy`, `Protobuf.dfy`, `Framing.dfy`, `FramedStream.dfy`, `Handshake.dfy` | messages on the wire between two relays |
| `Discovery.dfy`, `DiscoveryPacket.dfy` | the LAN discovery packet |
| `Listeners.dfy`, `ListenerLoop.dfy` | a listener's thread against the keepalive calls on its handle |

## How to read it

- What the outside world answers is a parameter. `Env` says which sends fail, which keepalive calls
  succeed, what a bind yields and which socket channels are closed; theorems hold for every `Env`.
- A handler queues at most one message per peer, so its sends are a map from peers to messages. The order
  in which a loop visits its peers does not show.
- `Routes` lets a sent message arrive late, never, out of order or several times, and peers leave and
  return at any moment. `CircuitProjection.CircuitsProject` proves that every run with ordered links is one
  of these runs.
- `Circuits` has ordered links and one mailbox per event loop, and its runs lose no peer. A client arrives
  only for a game for which a listener has been bound. Both ends of a link count connection ids from 0 in
  one shared space, so streams can mix. The run condition `Collisionless` asks that whenever a relay
  allocates an id, no trace of that id is left on the link: no table entry at either end, no thread that may
  still send, no chunk, Connect or registration on its way. An id may be used by one end after the other, as
  in the run of `CircuitTurns.TakesTurns`. `CircuitCrossed.StreamSafeExactly` says who may open connections
  so that no run can go wrong, and gives the runs that do.
- Where a promise fails for some inputs, a lemma states the exact condition and another a run that fails:
  `Pairing.CircuitPairing` and `Pairing.PairingBroken`, `Orphans.NoOrphans` and `Orphans.OrphanStays`,
  `Ports.SetsEqualExactly` and `Ports.PortLost`, `Echo.EchoExactly` and `Echo.TriangleEchoes`,
  `CircuitCrossed.StreamSafeExactly` and `CircuitCrossed.HostsMixed`, and `Listeners.KeepaliveInWindow`.

Three places where the code does other than a reader may expect, modelled as the code has it:
`handle_close_connection` drops both table entries of a relayed connection and forwards nothing; a
keepalive that runs wholly between a listener's swap and its `try_unwrap` succeeds although the listener
closes; and `encode` refuses every MOTD with an opening bracket, so a game whose MOTD has one is parsed and
forwarded but offered on no other network, although only a closing tag would spoil the packet
(`DiscoveryPacket.RoundTripExact`, `DiscoveryPacket.Send`).

## Model

| member | source | states |
|---|---|---|
| `Relays.IdMap.Add` | relay/src/id_map.rs:12-16 | stores the value under the next key, which is never handed out again |
| `Relays.IdMap.NextId` | relay/src/id_map.rs:18-22 | hands out ascending keys |
| `Relays.Relay.RunLoop` | relay/src/relay.rs:152-171 | the tables after any sequence of events are those of the model's run, and no game id was rebound |
| `Relays.Relay.Handle` | relay/src/relay.rs:152-171 | one event updates the tables in place, queues messages, starts threads, gives a chunk to a game connection and offers a packet to the local network exactly as the model says; what that is for each event is stated by the lemmas of `Handlers` and `Adverts` |
| `Relays.Relay.AcceptGameConnection` | relay/src/relay.rs:173-239 | an accepted client takes the next id towards the game's owner, receives and is served under it, and that id is in the Connect; when the Connect cannot be sent the id is taken all the same (`Handlers.AcceptExact`) |
| `Relays.Relay.AddGameConnection` | relay/src/relay.rs:241-261 | registers the host connection and answers with an empty chunk, or drops the peer |
| `Relays.Relay.AddLocalGame` | relay/src/relay.rs:267-295 | ignores the relay's own advertisements, and on every other hearing offers the game to every peer under the one id of its address (`Adverts.LocalExact`) |
| `Relays.Relay.SendGame` | relay/src/relay.rs:280-294 | the loop over the peers and the removal of those that failed amount to one simultaneous step |
| `Relays.RemoveOneMore` | relay/src/relay.rs:419-421 | removing failed peers one after the other removes their games and ports as removing them at once |
| `Relays.Relay.RemovePeer` | relay/src/relay.rs:605-634 | the peer, every game in its table and every port of their listeners go; nothing else does |
| `Relays.Relay.HandleGame` | relay/src/relay.rs:311-322 | records the game, offers a packet with its listener's port to the local network, and forwards it one hop on to all other peers below the hop limit (`Adverts.GameExact`, `Adverts.AdvertisedExact`, `Adverts.ForwardExact`) |
| `Relays.Relay.AddGame` | relay/src/relay.rs:324-395 | keeps the id of a known game, reaps a dead listener, binds a new one if there is none |
| `Relays.Relay.HandleConnect` | relay/src/relay.rs:424-479 | dials a local game, forwards for a remote one, drops an unknown one |
| `Relays.Relay.ForwardConnect` | relay/src/relay.rs:481-532 | links both ends or, if the send fails, removes the target peer; the branch marked unreachable is never taken |
| `Relays.Relay.HandleData` | relay/src/relay.rs:534-578 | a chunk goes to the local connection, else to the paired connection under its id there, else nowhere |
| `Relays.Relay.HandleCloseConnection` | relay/src/relay.rs:580-590 | drops the entry and its pair, and sends nothing |
| `Relays.Relay.RemoveGameListener` | relay/src/relay.rs:592-603 | forgets the listener and its port only if its keepalive fails |
| `Handlers.CloseExact` | relay/src/relay.rs:580-590 | a close takes out the entry it names and the entry paired with it, and no other, and sends nothing |
| `Handlers.RemoveExact` | relay/src/relay.rs:605-634 | dropping peers takes their connections, the games they told and the ports of those games' listeners, and nothing else, links to them in the tables of others included |
| `Handlers.AddPeerExact` | relay/src/relay.rs:263-265 | a peer starts without games and connections and with id 0, whatever an earlier connection of it left |
| `Handlers.AcceptExact` | relay/src/relay.rs:192-239 | which client is admitted and what changes then; a thread serves it if and only if the Connect is sent, and table, Connect and thread have one id |
| `Handlers.ServedUnderItsId` | relay/src/relay.rs:192-239 | after any run, a client's thread, its Connect and its entry in the table have the same id, with the local bit clear |
| `Handlers.AddConnectionExact` | relay/src/relay.rs:241-261 | the host connection becomes the receiver of its id and the peer gets one empty chunk under it, or the peer is dropped; nothing else changes |
| `Handlers.DialExact` | relay/src/relay.rs:424-448 | a thread dials exactly for a Connect of a present peer for a local game, to that game's address and under the Connect's id |
| `Handlers.ForwardConnectExact` | relay/src/relay.rs:481-532 | the only recipient, its message, the two new links and the counter that moves, if and only if the Connect is forwarded; otherwise only a peer that refused it goes |
| `Handlers.DataExact` | relay/src/relay.rs:534-578 | which game connection or which peer gets a chunk, under which id, and that nobody else gets anything |
| `Handlers.DataTables` | relay/src/relay.rs:547-577 | a chunk changes no table but for the receiver whose channel is closed or the peer that refused it |
| `Adverts.ForwardExact` | relay/src/relay.rs:397-418 | a peer gets a forwarded advertisement if and only if it is not the sender, takes it and the hops allow it; same MOTD, one hop more |
| `Adverts.AddGameExact` | relay/src/relay.rs:324-395 | the tables after an advertisement, in one update: a known game keeps its id, an unknown one gets the next, an open listener stays, and otherwise the bound one and its port take the place of the old ones |
| `Adverts.GameExact` | relay/src/relay.rs:311-322 | after an advertisement the tables are those, but for the peers that refused it; from an absent peer it changes and sends nothing |
| `Adverts.ListenerExact` | relay/src/relay.rs:346-377 | the recorded listener afterwards is the old one if its keepalive succeeds and otherwise the one just bound, or none |
| `Adverts.AdvertisedExact` | relay/src/relay.rs:381-392 | a packet is offered to the local network if and only if the event is an advertisement of a present peer for a game that then has a listener, and it holds that listener's port and the given MOTD |
| `Adverts.GameAgain` | relay/src/relay.rs:324-379 | hearing a remote game again changes no table while its listener is open, or if it has none and none can be bound |
| `Adverts.LocalExact` | relay/src/relay.rs:267-295 | on every hearing of a local game but the relay's own packets, the peers told are exactly those that take it, under the one id of the address and with no hop; peers that refuse are dropped and nothing else changes |
| `Adverts.HeardAgain` | relay/src/relay.rs:274-291 | whatever happens between two hearings of a local game, the second hearing tells every peer then present that takes it, under the id of the first |
| `Adverts.OwnPacketIgnored` | relay/src/relay.rs:270-272 | in every run that binds no recorded port, the packet that a relay offers parses back to itself when acceptable, and the relay that hears it ignores it |
| `Tables.GameIndexAgreement` | relay/src/relay.rs:273-278 | in every reachable state local games and their ids are mutually inverse, each peer's table points at exactly its own entries, no id is shared, and add_game never meets a non-remote entry |
| `Tables.IndexedRun` | relay/src/id_map.rs:12-22 | over any run, a surviving game keeps its origin and a new game has an id never used before |
| `Orphans.NoOrphans` | relay/src/relay.rs:263-265 | at every point of a run each remote game is in the table of its owner, who is present, if and only if the run never adds a peer over one that has told of games |
| `Orphans.GoneWithPeer` | relay/src/relay.rs:605-616 | in such runs all games of a peer go with it, whenever it leaves; peers may leave and return |
| `Orphans.OrphanStays` | relay/src/relay.rs:263-265 | a run in which a peer is added over itself and its game outlives it |
| `Ports.SetsEqualMeans` | relay/src/relay.rs:355-356 | the predicate on the two sets says that they are equal as sets |
| `Ports.ReapExact` | relay/src/relay.rs:344-349 | reaping a dead listener keeps the set of ports and the listeners' ports equal if and only if no listener that stays has its port |
| `Ports.RenewExact` | relay/src/relay.rs:344-379 | a bind keeps the two sets equal and the ports of the listeners different if and only if its port was not recorded already |
| `Ports.PortsStep` | relay/src/relay.rs:344-379 | every kind of event keeps the sets equal and the ports different if and only if it binds no recorded port, even if the other listener's owner is dropped in the same event |
| `Ports.PortAgreement` | relay/src/relay.rs:344-379 | no port is leaked in any run; the sets are equal and the ports different at every point of a run if and only if no bind yields a recorded port |
| `Ports.StaysEqualExactly` | relay/src/relay.rs:344-379 | when the sets are equal, the ports differ if and only if the sets stay equal in every continuation that binds no recorded port |
| `Ports.SetsEqualExactly` | relay/src/relay.rs:344-379 | a run binds no recorded port if and only if from each of its points on the sets stay equal as long as no recorded port is bound |
| `Ports.PortReused` | relay/src/relay.rs:351-356 | a run in which the port of a dead but recorded listener is bound again: the sets are equal, but two listeners share a port |
| `Ports.PortLost` | relay/src/relay.rs:592-603 | that run continued: the dead listener is reaped and the sets differ, the live listener's port being no longer recorded |
| `Ports.NoSelfFeedback` | relay/src/relay.rs:267-272 | a relay that hears its own advertisement for a recorded listener changes nothing and sends nothing |
| `Ports.LateRemoval` | relay/src/relay.rs:592-603 | a removal notice changes nothing while keepalive succeeds, and otherwise unregisters that listener alone |
| `Pairing.PairedForward` | relay/src/relay.rs:503-531 | a forwarded Connect links both ends, and keeps all other pairs if and only if its new id was free |
| `Pairing.PairedStep` | relay/src/relay.rs:481-623 | every kind of event keeps the pairing of relayed connections if and only if it causes no collision |
| `Pairing.CircuitPairing` | relay/src/relay.rs:481-623 | a run stays paired throughout if and only if it is free of collisions and of re-added peers with stale links |
| `Pairing.PairingBroken` | relay/src/relay.rs:503-508 | a run in which two peers' Connects meet under id 0 and a link loses its pair |
| `Receivers.ReceiverStep` | relay/src/relay.rs:241-264 | an event leaves a connection the receiver of its id if and only if it is none of the listed ones: the id given to another, a close, a send to its closed channel, the peer dropped or added anew |
| `Receivers.AcceptedReceives` | relay/src/relay.rs:192-194 | after any run, an accepted client receives under its id throughout what follows if and only if none of those events occurs |
| `Roles.RolesSuffice` | relay/src/relay.rs:192-194 | if only hosts offer games, only the others open connections and no peer comes twice, every run stays paired |
| `Routes.InvStep` | relay/src/relay.rs:152-171 | every step of every relay keeps the depth, route, origin and size invariants |
| `Routes.AdCarriesDepth` | relay/src/relay.rs:398-413 | every advertisement ever sent carries the depth of its id at the sender, at most two, and the MOTD it started with |
| `Routes.AdvertHeard` | relay/src/relay.rs:281-291 | every advertisement ever sent was heard, with that MOTD, on the local network of the relay it leads to |
| `Routes.HopBudget` | relay/src/relay.rs:482-518 | every Connect ever sent has hops plus the depth of its game at the receiver of at most two |
| `Routes.ChainsBounded` | relay/src/relay.rs:122-122 | remote pointers form chains of at most three links and no cycles, peers leaving and returning included |
| `Routes.HopCheckNeverRejects` | relay/src/relay.rs:482-485 | the hop check of forward_connect never rejects a Connect that a relay of the network sent |
| `Routes.RouteCorrectness` | relay/src/relay.rs:424-448 | a client accepted for an entry is only ever connected to the one server whose advertisement created that entry |
| `Routes.LeadsUnique` | relay/src/relay.rs:324-337 | an entry has one depth and one origin |
| `Echo.NoEcho` | relay/src/relay.rs:397-418 | without three mutually peered relays and without a relay that is its own peer, no relay ever holds its own game as a remote one |
| `Echo.TriangleEchoes` | relay/src/relay.rs:398-407 | three mutually peered relays have a run in which a game comes back to its relay |
| `Echo.EchoExactly` | relay/src/relay.rs:397-418 | a topology admits an echo if and only if it has a triangle or a self-loop |
| `Flood.DeliverDecreases` | relay/src/relay.rs:397-418 | every delivery of a flood's advertisement strictly decreases a weighted count of those in flight |
| `Flood.FloodBound` | relay/src/relay.rs:281-291 | with at most D peers per relay one local advertisement causes at most D(1+(D-1)+(D-1)^2) deliveries, whatever else happens |
| `CircuitClaim.ClaimKeeps` | relay/src/relay.rs:192-194 | allocating an id of which no trace is left changes the meaning of nothing that is still in use |
| `CircuitSteps.InvStep` | relay/src/relay.rs:173-261 | every step of event loops, links and socket threads without a collision keeps the circuit invariant and the pairing |
| `CircuitTheorems.StreamSafety` | relay/src/relay.rs:534-577 | in every run without collisions the bytes written to the socket at each end of a circuit, part of a last chunk included, are a prefix of those read at the other end, no client has two hosts, and a client without a host exchanges nothing |
| `CircuitTheorems.HandshakeBeforeData` | relay/src/relay.rs:447-460 | in every run without collisions, a relay about to handle a chunk on the last segment of a client's circuit has handled the Connect, dialled, and registered the host connection |
| `CircuitEnds.EndAnnounced` | relay/src/relay.rs:226-237 | in every run, collisions included, a thread that has ended did so in one step, with a close under its id on its link behind all that it sent, and has read and written nothing since |
| `CircuitCallers.OneWaySafe` | relay/src/relay.rs:503-531 | if at most one end of each link opens connections, every run is safe |
| `CircuitCrossed.HostsMixed` | relay/src/relay.rs:241-250 | two relays that call each other: a run in which one host's bytes come out at the other host's socket, whose client sent nothing |
| `CircuitCrossed.HostHearsItself` | relay/src/relay.rs:241-250 | a relay that is its own peer: a run in which a host's bytes come back to it |
| `CircuitCrossed.StreamSafeExactly` | relay/src/relay.rs:71-75 | all runs with the given callers are safe if and only if no two relays may call each other and none itself |
| `CircuitTurns.TakesTurns` | relay/src/relay.rs:580-590 | a safe run in which both ends of a link have opened a connection under the same id, the second when the first was over at both ends |
| `CircuitProjection.CircuitsProject` | relay/src/relay.rs:152-171 | every circuit run, collisions included, is a run of the advertisement network with the same tables, messages and dials |
| `CircuitProjection.DialledRight` | relay/src/relay.rs:437-448 | in every circuit run, collisions included, the tables lead from the game a client was accepted for over at most three Remote entries to the very address that its host thread dials |
| `CircuitProjection.OrderedHopCheck` | relay/src/relay.rs:482-485 | in every circuit run the hop check rejects no Connect for a remote game |
| `GameConnection.ReadLoop` | relay/src/game/connection.rs:100-112 | the chunks passed on are all that was read, in order, each of 1 to 16384 bytes |
| `GameConnection.WriteLoop` | relay/src/game/connection.rs:91-98 | writes the channel's bytes in order as far as the socket takes them, part of a chunk included, and fails exactly when that is not all |
| `GameConnection.WaitForData` | relay/src/game/connection.rs:59-66 | takes one chunk off the channel and writes what the socket takes of it |
| `GameConnection.ServeClient` | relay/src/game/connection.rs:59-74 | waiting for one chunk first and looping afterwards writes every byte once, in order, and fails exactly when the socket takes less than all |
| `MessageSize.QueuedMessagesFit` | relay/src/relay/connection.rs:280-296 | every message queued in any run encodes to at most 16405 bytes, below the 65519 that a frame can carry |
| `MessageSize.VarintLenExact` | protocol/src/minecraft-relay.proto:16-36 | a number takes at most k bytes if and only if it is below 128^k |
| `Protobuf.MessageRoundTrip` | protocol/src/minecraft-relay.proto:6-36 | decoding inverts the canonical encoding, whose length is the one the size bound speaks of |
| `Protobuf.WireFormat` | protocol/src/minecraft-relay.proto:6-36 | the key byte of every variant and field, their order, and that default values are left out |
| `Protobuf.VarintGroups` | protocol/src/minecraft-relay.proto:16-36 | a varint holds groups of seven bits, least significant first, with the high bit set in all but the last |
| `Protobuf.CanonicalIsFaithful` | protocol/src/minecraft-relay.proto:6-36 | that encoding meets everything the framed link asks of a codec |
| `Framing.WriteLoop` | relay/src/relay/connection.rs:272-305 | the loop over its two reused buffers writes the specified frames and pings, and counts its nonce |
| `Framing.U16RoundTrip` | relay/src/relay/connection.rs:229-235 | lengths are two bytes, most significant first, in both directions |
| `Framing.ReadLoop` | relay/src/relay/connection.rs:243-270 | the loop over its reused buffer passes on, and ends, as specified for any stream of bytes |
| `FramedStream.WriteExact` | relay/src/relay/connection.rs:287-302 | the writer gets through its queue if and only if every message has at most 65519 bytes |
| `FramedStream.WriteStops` | relay/src/relay/connection.rs:287-296 | the first message that does not fit stops the writer with its kind of failure, after everything before it was written |
| `FramedStream.FramedRoundTrip` | relay/src/relay/connection.rs:253-302 | cut anywhere, the stream reads as a prefix of what was queued, every whole item included, nonces in step, no error |
| `FramedStream.FramedComplete` | relay/src/relay/connection.rs:253-302 | the whole stream reads as the whole queue, pings as empty messages, and both nonces end equal |
| `FramedStream.SpoiltFrame` | relay/src/relay/connection.rs:253-268 | a frame that fails to decrypt or decode ends the reader with that error: everything queued before it is passed on and nothing behind it |
| `FramedStream.PingsDistinct` | relay/src/relay/connection.rs:258-266 | a frame's length is zero if and only if it is a ping |
| `FramedStream.WriterNeverFails` | relay/src/relay/connection.rs:289-296 | on messages of a relay network, with pings in between, no slice, encryption or length ever fails |
| `Handshake.HandshakeProgress` | relay/src/relay/connection.rs:221-241 | two loops over an alternating pattern of any length never both wait, never fail, and stop only when both have finished with every byte consumed |
| `Handshake.HandshakeLoop` | relay/src/relay/connection.rs:221-241 | one side finishes if and only if the stream starts with the other side's frames, has then read exactly those and written exactly its own; otherwise it has written its own messages up to the first one that the stream does not hold |
| `Discovery.ElementExact` | relay/src/discovery.rs:160-175 | an element is parsed if and only if the input starts with its printed form |
| `Discovery.SplitExact` | relay/src/discovery.rs:153-158 | the parser splits any input into printed elements and a rest that starts none, and there is only one such split |
| `Discovery.LastWins` | relay/src/discovery.rs:154-157 | the map holds a name if and only if an element has it, with the value of the last one |
| `Discovery.Elements` | relay/src/discovery.rs:153-158 | the fold builds that map and leaves that rest, for all bytes |
| `DiscoveryPacket.Parse` | relay/src/discovery.rs:123-131 | for all bytes, the packet read is what its elements mean: the last AD gives the port if it is the text of one, and is reported otherwise; the last MOTD, if any, gives the MOTD, whatever bytes it holds |
| `DiscoveryPacket.ParseExact` | relay/src/discovery.rs:123-131 | for every split of the bytes into printed elements and a rest that starts none, a packet is read as a result if and only if the elements mean it |
| `DiscoveryPacket.RoundTripExact` | relay/src/discovery.rs:123-146 | the printed form of a packet parses back to it if and only if the port has 16 bits and the MOTD holds no closing tag |
| `DiscoveryPacket.PrintedAs` | relay/src/discovery.rs:138-143 | the text of a packet, tag by tag |
| `DiscoveryPacket.ParsedMotdFits` | relay/src/discovery.rs:81-85 | a MOTD that was parsed is no longer than its packet, which fits the receive buffer |
| `DiscoveryPacket.ParseU16Exact` | relay/src/discovery.rs:127-128 | a port parses if and only if it is an optional plus sign and digits whose value fits 16 bits |
| `DiscoveryPacket.Encode` | relay/src/discovery.rs:133-146 | succeeds if and only if the MOTD is acceptable and the printed packet fits the buffer, which then holds it |
| `DiscoveryPacket.PacketRoundTrip` | relay/src/discovery.rs:123-146 | parsing what was encoded returns the same port and MOTD, for every port and every acceptable MOTD |
| `DiscoveryPacket.PacketFits` | relay/src/discovery.rs:107-115 | an acceptable packet takes at most 283 of the 1500 bytes |
| `DiscoveryPacket.Send` | relay/src/discovery.rs:107-115 | sends the printed packet, and refuses only an unacceptable MOTD |
| `Listeners.ClosesWhenIdle` | relay/src/game/listener.rs:57-61 | a timeout closes the listener if and only if no keepalive call is mid-way |
| `Listeners.TimeoutCloses` | relay/src/game/listener.rs:50-63 | a listener closed by a timeout saw no keepalive store between its last reset and the swap |
| `Listeners.FailsForever` | relay/src/game/listener.rs:76-80 | once the flag is released keepalive fails in every later state, and a timed out listener has released it |
| `Listeners.OpenIsAlive` | relay/src/game/listener.rs:76-80 | keepalive succeeds as long as the listener runs |
| `Listeners.StoreBuysOneTimeout` | relay/src/game/listener.rs:54-62 | a store made while the listener waits outlasts the next timeout unless a client comes first |
| `Listeners.KeepaliveInWindow` | relay/src/game/listener.rs:57-61 | a call inside the window saves the listener if and only if it is still mid-way at the try_unwrap |
| `Listeners.LateRemovalSpares` | relay/src/relay.rs:592-603 | a late removal notice changes no table while the recorded listener still runs, whatever the tables are |
| `Listeners.LateRemovalReaps` | relay/src/relay.rs:592-603 | in every run with fresh binds it unregisters a recorded listener that a timeout has closed, and its port |
| `ListenerLoop.Run` | relay/src/game/listener.rs:42-68 | whatever the accepts and the keepalive calls do, the loop makes exactly the run of the listener protocol that its rounds dictate |
| `ListenerLoop.MadeAll` | relay/src/game/listener.rs:76-80 | keepalive calls whose steps are all possible make them all |
| `ListenerLoop.LoopAppend` | relay/src/game/listener.rs:48-67 | every round is handled until one ends the loop, and none after that |
| `ListenerLoop.ClientRound` | relay/src/game/listener.rs:50-54 | a round with a client is an accept and, after the calls in between, a reset, and the loop goes on |
| `ListenerLoop.ErrorRound` | relay/src/game/listener.rs:50-65 | a failed accept or a client that cannot be passed on ends the loop with an error |
| `ListenerLoop.ElapsedRound` | relay/src/game/listener.rs:55-63 | a timeout ends the loop if and only if no store is newer than the last reset and no call is mid-way at the try_unwrap, and otherwise the loop goes on |
| `ListenerLoop.IdleCloses` | relay/src/game/listener.rs:55-63 | with no call between swap and try_unwrap, a timeout closes the listener if and only if nobody has kept it alive since the last reset and no call is mid-way |

## Left out

- Counters are unbounded: `next_key` and `next_connection_id` are 64-bit in the program, and the size bound assumes ids below 2^64.
- Sockets, connects, binds, multicast set-up, timers and thread creation are environment steps or parameters.
- Cryptography is an abstract pair of functions: decryption under the same nonce inverts encryption and adds 16 bytes (sections 3, 4.2 and 5.1 of the Noise Protocol Framework); key exchange and the nonce limit are not modelled.
- `prost` is a faithful codec, an encoder and a decoder that inverts it; how it treats bytes that no encoder wrote is not modelled.
- CircuitTheorems.StreamSafety: is stated for runs that lose no peer and in which no id is allocated while a trace of it is left on its link; without the second condition it is false (`CircuitCrossed.HostsMixed`), and `CircuitCrossed.StreamSafeExactly` says which callers can bring it about. What a lost peer leaves behind in the tables of others is not covered.
- CircuitTheorems.HandshakeBeforeData: is stated for the same runs.
- That a traceless allocation is also necessary in each single run is not claimed: a run may get away with a collision.
- Progress of circuits is not claimed: that bytes arrive eventually needs fairness of threads and links.
- Closes are not propagated by the program, so nothing is stated about the far end after a close.
- The tables are immutable maps held in fields; the capacity shrinking of the hash map has no counterpart.
- The UI, the prompts, the trusted peers, key generation and logging (`relay/src/main.rs`) are not modelled.
- The reconnect loop, its cancel flag and `relay/src/relay/listener.rs` are thin wrappers around I/O and would only add easy members.
- Games heard by two relays on one local network count as separate local games.
