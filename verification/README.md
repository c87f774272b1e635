# Mesh2Mesh: a verified model of its stateful core

Mesh2Mesh is a control plane (tenants, memberships, enrolment, a UDP prober and relay) and a node daemon that keeps a
WireGuard device configured. This project models the parts that keep state under concurrency and proves what they keep
over every run. `dafny verify dfyconfig.toml` checks all of it.

| file | models |
|---|---|
| `Base`, `Bits`, `Netip` | identifiers and time; bits of a byte; addresses, prefixes, byte forms |
| `AddressPool` | which address a new peer gets |
| `Session`, `Enrollment`, `PeerStore` | RegisterPeer: as interleaved transaction steps, and as the program that issues them |
| `Membership`, `MemberStore` | RemoveMember, AcceptInvite, ClaimTenant, CreateOwnedTenant, CreateInvite: the same two views |
| `Wire` | frames, and addresses inside them |
| `RelayBook`, `Relay` | the relay as one table searched linearly, and as the four maps over shared sessions |
| `Protocol`, `Quiescence` | what the two kinds of socket answer, and why answering ends |
| `MeshBind`, `Delivery`, `Lease` | a node's socket, datagrams end to end, direct and relayed, and when "the relay is up" is true |
| `Exchange`, `Prober`, `Mapping` | requests matched by nonce (prober waiters, binding requests), the prober's read loop, and what requests bring back |
| `WireGuard`, `SyncPeers`, `SyncDevice`, `SyncDaemon`, `SyncEntries`, `SyncRuns` | the device as a line interpreter; what a sync asks for and sends, what that makes of the device, the loops that do it, what each entry comes to, and runs of syncs |
| `EndToEnd` | what enrolment gives the relay and the nodes |

## How it is modelled

**Transactions.** `Membership` and `Enrollment` are state machines over committed tables, row locks and open
transactions. One event is one lock, read, write, commit or abort; any transaction may abort anywhere. Statements see
what is committed when they begin, a lock waiter checks its row again, and the owner rows of a count are locked one at a
time from one snapshot, in any order, deleted rows dropping out. An event that would have to wait changes nothing, so a
run is any sequence of events. `MemberStore` and `PeerStore` are the programs: each statement is issued with arbitrary
events of other sessions before it and may fail; every program is proved to be a run of the machine, to publish its
changes exactly when it reports success, to give each error only when one of its own statements met tables that are the
reason for it, and to do precisely the stated thing when nothing interferes.

**The relay.** `RelayBook` is the meaning (one table), `Relay` the implementation (four maps, sessions updated in
place, frames rewritten in place). Every method of `Relay` is proved equal to its table operation.

**Concurrency in the prober and in a node.** Each critical section is one event; between taking a request off its map
and closing its channel, anything else may happen.

**Devices and lists.** The configuration text is a sequence of key=value lines; the device reads them with a current
peer, an endpoint per peer, and one owner per allowed address. The order in which Go iterates over removed peers is
arbitrary here too.

**Assumptions**, stated as preconditions where they are used: tokens and nonces do not repeat; clocks do not go back,
and node and relay clocks run at one rate; a UDP source is an address with a 16-bit port; control planes do not write to
each other, and a node's datagrams are not seen to come from a control plane's address; a node's peer list names no mesh
address twice (`EndToEnd.TenantListIsDistinct` derives it from enrolment); IpcSet takes all of its text or nothing; and a
peer's device endpoint is the last one configured, since WireGuard itself roams.

**Keys listed twice.** The peers table is unique on key text, and two texts can decode to one key, so a list can name a
key twice. "After a sync the device is as recorded" is false for such lists. `SyncDevice.SyncedExactlyWhen` gives the
exact condition for every list, `SyncDevice.RepeatSettlesExactlyWhen` shows that a second sync meets it only without
repetition, and `SyncRuns.RepeatedKeyDiverges` is a concrete list. What the source does is kept as it is.

## Model

| member | source | states |
|---|---|---|
| AddressPool.NextFreeAddr | internal/store/addr.go:32-54 | terminates with the least unused address from network+2 up to before broadcast, and with none exactly when all of those are used |
| AddressPool.LastAddr | internal/store/addr.go:56-63 | setting the host bits one by one gives network + span - 1 |
| AddressPool.LowestFreeUnique | internal/store/addr.go:30-31 | being the least unused address determines it |
| AddressPool.LowestFreeOfBlock | internal/store/addr.go:41-52 | with the first m addresses taken and no others, the choice is the m-th, or nothing when m is the capacity |
| AddressPool.IPv4Capacity | internal/api/http.go:36-38 | a prefix of length b up to 30 has room for 2^(32-b) - 3 peers, so at least one |
| Netip.SliceRoundTrip | internal/store/addr.go:57-61 | an address written to bytes and read back is itself |
| Enrollment.StepKeeps | internal/store/store.go:246-307 | every event keeps the table invariant: contiguous addresses, token counts, one uncommitted writer per tenant, locks held by those who rely on them |
| Enrollment.AddressesInOrder | internal/store/store.go:277-295 | after any interleaving the i-th peer committed in a tenant holds address network+2+i: no gap, no duplicate, never past the pool |
| Enrollment.PeersDistinct | migrations/0001_init.sql:31-32 | no two peers of a tenant share an address or a key |
| Enrollment.TokenAccounting | internal/store/store.go:297-301 | a token's uses equals the peers enrolled with it and never exceeds its limit |
| Enrollment.PeersOnlyGrow | internal/store/store.go:286-295 | no event removes or alters an enrolled peer |
| Enrollment.RevokedEnrolsNobody | internal/store/store.go:253-260 | over any later run a revoked token enrols nobody and its row stays as it is, whoever had seen it good before |
| Enrollment.NoStaleLocks | internal/store/store.go:246-307 | over any run a token's lock is held by an open transaction only, so it is free after its holder's commit or rollback |
| Enrollment.InsertOutcome | internal/store/store.go:286-295 | in every reachable state the insert fails when the chosen address is stale, else waits exactly while the tenant has another uncommitted writer, else fails exactly when the key is taken; failing or waiting changes no table |
| Enrollment.AloneOutcome | internal/store/store.go:246-307 | alone, enrolment succeeds exactly when the token is there, not revoked, not expired and not used up, the key is new and an address is free, adding the next address and one use; otherwise nothing changes |
| PeerStore.Store.SelectToken | internal/store/store.go:253-268 | for every behaviour of the others: the row is held and was neither revoked, expired nor used up when its lock was granted; or it was missing or one of these, at first sight or once its lock was free; or a statement errored or found the lock held |
| PeerStore.Store.UsedAddrs | internal/store/store.go:309-325 | the set filled row by row is the set of the rows |
| PeerStore.Store.ChooseAddr | internal/store/store.go:277-284 | the two loops together are the machine's choice, whatever others commit before and after; the pool is called exhausted only when every address was held |
| PeerStore.Store.InsertRow | internal/store/store.go:286-295 | a conflict only if the address or the key was taken in the tables it met; alone it inserts exactly if neither is |
| PeerStore.Store.PayAndCommit | internal/store/store.go:297-306 | what the commit adds to the tables it meets: that one peer, whose address and key nobody there has, and one use of its token |
| PeerStore.Store.WriteAndCommit | internal/store/store.go:286-306 | the session ends having published exactly when it reports the peer registered, and that peer then is the newest row with the tenant's newest address |
| PeerStore.Store.RegisterPeer | internal/store/store.go:246-307 | a run of the machine for every behaviour of the others, published exactly when registered: registered only with the token unrevoked, unexpired and unused enough when its lock was granted, and then exactly that peer and one use are added; each error only if its own statements saw the reason in the tables; undisturbed, exactly the missing, revoked, expired and used-up tokens are refused and exactly the enrollable succeed |
| Membership.StepKeeps | internal/store/members.go:142-274 | every event keeps the invariant and every tenant that has an owner |
| Membership.OwnerForever | internal/store/members.go:142-173 | a tenant that once has an owner has one after any further events, aborts included |
| Membership.MembersHaveOwner | internal/store/members.go:157-167 | in every reachable state a tenant has members exactly when it has an owner, and every invite's tenant has one |
| Membership.NeverEmptied | internal/store/members.go:142-173 | a tenant with a member never becomes empty |
| Membership.ClaimedOnce | internal/store/members.go:247-262 | over any run a tenant is claimed at most once, and never after it was founded with an owner |
| Membership.InviteAccounting | internal/store/members.go:226-231 | an invite's uses equals the memberships it inserted and never exceeds its limit |
| Membership.RemovalLeavesLockedOwner | internal/store/members.go:157-172 | a committing owner removal holds the lock of another live owner row, which survives it |
| Membership.RefusedExactlyWhenAlone | internal/store/members.go:164-166 | the last-owner refusal happens exactly when every other owner the count saw is gone |
| Membership.RolesFixed | internal/store/members.go:142-274 | no step changes a member's role, and members leave only by a committing removal of their own row |
| Membership.NoStaleLocks | internal/store/members.go:142-274 | over any run every row lock is held by an open transaction only |
| Membership.AcceptOutcome | internal/store/members.go:219-235 | committing an accepted invite adds one new member with the invite's role and spends one use, or changes nothing for someone already in |
| MemberStore.Store.SelectRole | internal/store/members.go:149-156 | the row is locked and still there, or it was missing at first or gone once its lock was free, or a statement errored or found the lock held |
| MemberStore.Store.CountOwners | internal/store/members.go:157-167 | for every behaviour of the others: it refuses only if, of the owners its snapshot showed, every one but the target was gone when the count ended; it gives up only if a statement errored or found a row's lock held; alone it refuses exactly at one owner |
| MemberStore.Store.DeleteRow | internal/store/members.go:168-172 | published exactly on success, and then that one row is gone from the tables the commit met and the tenant has an owner; it fails only if a statement errored |
| MemberStore.Store.RemoveMember | internal/store/members.go:142-173 | a run of the machine under any interference, published exactly when done, taking exactly that row; not found only if the row was missing or replaced when its lock came free, last owner only if every other owner of its snapshot was gone, failed only if a statement errored or found its lock held; alone it refuses exactly the only owner |
| MemberStore.Store.SelectInvite | internal/store/members.go:206-217 | the invite row is held and was unexpired and unused enough when its lock was granted, or it was missing, expired or used up when read, or a statement errored or found the lock held |
| MemberStore.Store.InsertMembership | internal/store/members.go:219-231 | the use is counted exactly when a row was added |
| MemberStore.Store.AcceptInvite | internal/store/members.go:199-234 | a run of the machine under any interference; done only with the invite unexpired and unused enough when its lock was granted, adding exactly one member with its role and one use, or nothing for who was in already; invalid and failed only if its statements saw why; alone, a usable invite adds whoever is not in yet, anyone in spends nothing |
| MemberStore.Store.SelectTenant | internal/store/members.go:247-251 | the tenant row is held, or the session is over |
| MemberStore.Store.ClaimTenant | internal/store/members.go:240-265 | a run of the machine; done adds exactly the claimer as owner to a tenant without members; not found only if there was no such tenant, claimed only if it had a member, failed only if a statement errored or found a lock or key held; alone, exactly a tenant without members can be claimed |
| MemberStore.Store.CreateOwnedTenant | internal/store/members.go:54-72 | tenant and owner appear together or not at all, and nothing else changes |
| MemberStore.Store.CreateInvite | internal/store/members.go:177-195 | behind the API's owner check, which lets in exactly who was an owner when it looked, an invite that exists belongs to a tenant with an owner, even if the caller was removed in between |
| Wire.EncodeInto | internal/wire/wire.go:63-66 | whether the buffer is reused or outgrown, the result holds exactly the frame; a buffer that only the payload outgrows keeps the header in its first four bytes and is otherwise untouched |
| Wire.DecodeEncode | internal/wire/wire.go:63-77 | decoding undoes encoding |
| Wire.DecodeAccepts | internal/wire/wire.go:69-77 | decoding yields a type and payload exactly for the frame encoding makes of them, up to the reserved bytes |
| Wire.ParseAppended | internal/wire/wire.go:79-89 | parsing behind any prefix what was appended gives the address unmapped, its zone lost |
| Wire.AddrPortRoundTrip | internal/wire/wire.go:79-89 | parsing undoes appending up to unmapping exactly for addresses without a zone, or with one that unmapping drops |
| Wire.Addr4RoundTrip | internal/relay/relay.go:157-158 | a mesh address survives its four bytes |
| Wire.NetworkOrder | internal/wire/wire.go:79-83 | addresses and ports travel with their most significant byte first |
| RelayBook.IssueKeeps | internal/relay/relay.go:68-77 | issuing a fresh token keeps tokens and addresses distinct and, for a free mesh key, everybody findable by mesh address |
| RelayBook.IssueState | internal/relay/relay.go:59-79 | a registration just issued is found by its token and mesh key, has no address, so nothing is routed from or to it, and leaves the others as they are |
| RelayBook.PlaceKeeps | internal/relay/relay.go:129-140 | moving in at an address, its occupant moving out, keeps the table well-formed |
| RelayBook.HandleKeeps | internal/relay/relay.go:101-183 | so does handling any frame |
| RelayBook.FoundByToken | internal/relay/relay.go:123-128 | a linear search by token or by address has one answer |
| RelayBook.ForwardIsRouting | internal/relay/relay.go:153-183 | the relay sends exactly when a search of the table finds a sender at the source and another peer of its tenant with the address asked for, both seen less than 90 seconds ago; it sends to that peer, never back |
| RelayBook.ForwardState | internal/relay/relay.go:160-168 | a data frame sets the lastSeen of its sender, if seen less than 90 seconds ago, and changes nothing else; without such a sender nothing at all |
| RelayBook.RegisterState | internal/relay/relay.go:116-151 | registering puts the token's session at the source, seen now, whoever else was there nowhere, changes nothing else and is acknowledged to the source; an unknown token does nothing |
| RelayBook.ReaddressedBytes | internal/relay/relay.go:176-179 | only bytes 4 to 8 change, to the sender's mesh address |
| RelayBook.AckIsCurrent | internal/relay/relay.go:123-148 | an acknowledgement names the token of a registered peer |
| RelayBook.RetiredForever | internal/relay/relay.go:72-93 | over any later run a token no peer has any more is never acknowledged and registering with it changes nothing |
| RelayBook.IssueRetires | internal/relay/relay.go:72-77 | replacing a registration retires its token |
| RelayBook.MeshAlwaysTotal | internal/relay/relay.go:59-98 | over any run from an empty relay, with distinct mesh keys, every registered peer is found by its own |
| Relay.ForgetAddr | internal/relay/relay.go:87-89 | forgetting a session keeps the address index the exact inverse for the others |
| Relay.ForgetMesh | internal/relay/relay.go:90-92 | forgetting a session drops from the mesh index exactly its own entry, never a newer session's |
| Relay.MoveAddr | internal/relay/relay.go:129-139 | the three updates of a move keep the address index the exact inverse |
| Relay.RegisterKnown | internal/relay/relay.go:123-124 | the token index answers what a linear search does |
| Relay.ForwardKnown | internal/relay/relay.go:162-163 | the address index answers what a linear search does |
| Relay.Relay.ContentsWf | internal/relay/relay.go:40-44 | with valid indexes the one table they stand for has no token and no address twice, and mesh keys point to registered peers under their own key |
| Relay.Relay.Forget | internal/relay/relay.go:82-93 | removes the session and leaves the indexes valid |
| Relay.Relay.Issue | internal/relay/relay.go:59-79 | both errors exactly, else the table operation |
| Relay.Relay.MoveTo | internal/relay/relay.go:129-139 | the session is at the new address, its occupant nowhere, the rest as before |
| Relay.Relay.Register | internal/relay/relay.go:116-151 | the table operation, acknowledgement included |
| Relay.Relay.Seen | internal/relay/relay.go:160-176 | marks the sender and finds the destination as the table does |
| Relay.Relay.Rewrite | internal/relay/relay.go:179-179 | the frame in place is the readdressed frame |
| Relay.Relay.Forward | internal/relay/relay.go:153-183 | the table operation, on a frame rewritten in place exactly when it is sent |
| Relay.Relay.HandleFrame | internal/relay/relay.go:101-114 | for every frame, the table operation |
| Protocol.AnswerDescends | cmd/meshd/wireguard.go:209-234 | a node answers with at most one datagram, to the sender, no longer, of lower rank at any host |
| Protocol.BindingDescends | internal/prober/prober.go:138-148 | a binding response goes to the source of its request, tells that source, and is no request itself |
| Protocol.RelayDescends | internal/relay/relay.go:116-183 | what the relay sends is no longer than what it got: an acknowledgement to the source or data to a registered address |
| Protocol.ServeDescends | internal/prober/prober.go:151-178 | the control plane answers with at most one datagram, no longer, of lower rank wherever it goes |
| Quiescence.AnsweringEnds | internal/prober/prober.go:151-200 | n datagrams in flight between nodes and control planes cause at most 2n deliveries in all, answers included, in any order, with any losses |
| MeshBind.MeshBind.SendRelayed | cmd/meshd/relay.go:47-64 | all frames in order up to the first write that fails, an error without a relay |
| MeshBind.MeshBind.Send | cmd/meshd/wireguard.go:110-131 | the same for both kinds of endpoint, an error on a closed socket |
| MeshBind.MeshBind.UnwrapRelayed | cmd/meshd/relay.go:66-80 | accepts exactly the relay's data frames and moves the datagram to the front in place, the tail untouched |
| MeshBind.MeshBind.AckRelay | cmd/meshd/relay.go:102-111 | only the relay's acknowledgement of the current token counts |
| MeshBind.MeshBind.UseRelay | cmd/meshd/relay.go:82-86 | from then on only that relay and that token count, and nothing is acknowledged yet |
| MeshBind.MeshBind.RegisterRelay | cmd/meshd/relay.go:88-100 | sends the current token when there is a relay, both errors exactly |
| MeshBind.MeshBind.AnswerProbe | cmd/meshd/wireguard.go:209-234 | what is echoed, handed to a waiting request, or noted as acknowledged |
| MeshBind.MeshBind.Receive | cmd/meshd/wireguard.go:179-207 | which datagrams reach WireGuard, with which bytes and endpoint, and which are answered in passing |
| MeshBind.AcknowledgedExactly | cmd/meshd/relay.go:102-117 | over any sequence of tokens given and datagrams received: the time kept is that of the latest acknowledgement, by the relay last given, of the token last given, and there is one exactly if it is set |
| MeshBind.MeshBind.RelayUp | cmd/meshd/relay.go:113-117 | true exactly if the relay last given acknowledged the token last given, the latest time less than 45 seconds ago |
| MeshBind.Refresher.RefreshRelay | cmd/meshd/relay.go:121-133 | a new token is asked for exactly when the present one was not acknowledged by its relay within the last 45 seconds and the last request is longer ago than that; a failed request changes nothing |
| Delivery.WrappedFrame | cmd/meshd/relay.go:55-59 | what of a wrapped datagram survives the relay's buffer and the rewriting |
| Delivery.DirectDelivery | cmd/meshd/wireguard.go:179-207 | a WireGuard datagram sent directly reaches WireGuard as it is, with its source as endpoint; what is sent to that endpoint goes back to that source and is received likewise |
| Delivery.OnlyTheRelayRelays | cmd/meshd/relay.go:66-76 | relayed data from anyone but the relay reaches nobody and is not answered |
| Delivery.RelayedDelivery | cmd/meshd/relay.go:47-80 | between live peers exactly the datagram sent arrives with the sender's mesh address as endpoint, cut only if it does not fit a frame, and not at all only if empty |
| Delivery.AlwaysSound | internal/relay/relay.go:59-183 | over any traffic the control plane serves, restarts included, the relay's table is well-formed, finds every registered peer by its mesh address, and holds addresses as sockets show them |
| Delivery.ReplyComesBack | cmd/meshd/relay.go:66-80 | from any reachable table, and whatever the relay serves in between, the answer sent to that endpoint reaches the original sender wherever it is registered by then, if both are live when it is sent |
| Lease.AckVouches | internal/relay/relay.go:140-148 | an acknowledgement goes out only for a session just seen and placed |
| Lease.StepKeeps | cmd/meshd/relay.go:82-117 | every event keeps: what was acknowledged is still registered and seen since, or known to have ended |
| Lease.LeaseSafety | cmd/meshd/relay.go:113-117 | for a node's socket that met the past of any run, with the relay's datagrams at most 45 seconds old when they arrive: while RelayUp, the session of its token was seen less than 90 seconds ago wherever it is placed, and is placed unless it lost its place since |
| Lease.RegistrationRenews | cmd/meshd/relay.go:88-111 | a register frame with a token the relay knows places the session where it came from, and its acknowledgement has the node find the relay up for exactly the next 45 seconds |
| Lease.LeaseEnds | internal/relay/relay.go:72-138 | a session loses its place exactly by a restart, a re-issue for its peer, or another token registering from its address |
| Lease.LeaseNeedsBound | internal/relay/relay.go:17-17 | for any longer delay there is a run in which the node is wrong |
| Exchange.StepKeeps | internal/prober/prober.go:95-103 | every event keeps a request in at most one of the table, the hands of its completer, and its channel |
| Exchange.CompletedOnce | internal/prober/prober.go:183-198 | over any run a channel is closed or filled at most once and is empty when that happens, so it never blocks |
| Exchange.AnswerFromPeer | internal/prober/prober.go:184-194 | a completed request was answered by the peer it went to, with its nonce, after it was made |
| Exchange.Exchange.Take | internal/prober/prober.go:183-194 | takes exactly the request the frame answers, or changes nothing |
| Exchange.Exchange.Finish | internal/prober/prober.go:196-198 | the channel was empty and now holds the one value |
| Exchange.Exchange.Dispatch | cmd/meshd/wireguard.go:237-255 | whoever waits for the reply at its source has it afterwards, whatever happens between lookup and send |
| Exchange.Exchange.Probe | internal/prober/prober.go:84-135 | true only if the probed address itself sent the nonce back after the call began; which of the rounds ended it and how, with how many probes sent, all to that address; nothing left in the table |
| Exchange.FalseMeansSilence | internal/prober/prober.go:83-135 | false means that no answer was in the channel by the last wait, and that unless the deadline came early or a write failed all three probes were out |
| Exchange.Exchange.DiscoverMapping | cmd/meshd/wireguard.go:134-175 | an address returned came from the server in reply to this nonce; which round ended it and how, six requests at most, all of the kind MappingRoundTrip is about; nothing left in the table |
| Prober.Prober.AnswerBinding | internal/prober/prober.go:138-148 | the response BindingDescends is about, and none for a request shorter than it |
| Prober.Prober.Turn | internal/prober/prober.go:151-200 | one datagram is served as Serve says, by the relay's own maps, or completes the waiter it answers, and any other leaves the waiters alone |
| Mapping.ResponseTells | internal/prober/prober.go:138-148 | a binding response from the control plane's socket tells the source of a request with that nonce |
| Mapping.MappingRoundTrip | cmd/meshd/wireguard.go:162-172 | any request DiscoverMapping sends, arriving from any source with a 16-bit port, is answered to that source, and the answer puts that source, unmapped and without zone, into the request's channel |
| Mapping.MappingIsSeen | cmd/meshd/wireguard.go:134-175 | with an honest prober on a network that drops, delays, repeats and reorders, the address learned is one the prober saw on a request with that nonce, its zone apart |
| Mapping.ProbeRoundTrip | cmd/meshd/wireguard.go:229-233 | any probe Reachable sends is answered by a node to where it came from, and the answer, from the probed address, completes the probe |
| WireGuard.Handshakes | cmd/meshd/relay.go:156-178 | the scan loop computes what the dump says |
| WireGuard.HandshakesReadBack | cmd/meshd/relay.go:164-176 | of a device's dump that is exactly the positive handshake times, each under its own peer |
| WireGuard.BlockConfigures | cmd/meshd/wireguard.go:347-352 | one peer's block makes it the only owner of its address and sets its endpoint if given |
| WireGuard.RemoveRemoves | cmd/meshd/wireguard.go:354-358 | a removal takes the peer and what it owns |
| SyncDevice.SyncedIsUnique | cmd/meshd/wireguard.go:275-276 | only one device matches a set of peers |
| SyncPeers.TargetKept | cmd/meshd/wireguard.go:312-315 | a listed peer with a target keeps one |
| SyncPeers.NextFrom | cmd/meshd/wireguard.go:284-342 | each configured peer comes from an entry with its key |
| SyncPeers.NextAt | cmd/meshd/wireguard.go:298-342 | in a list that names no key twice each key gets what its entry asks for |
| SyncDevice.EntryKeeps | cmd/meshd/wireguard.go:339-352 | the lines of each entry do to the device what is said of it, even when they take an address from a peer not yet handled or meet a key again |
| SyncDevice.RemovalsKeep | cmd/meshd/wireguard.go:354-358 | the removals, in any order, take exactly the peers no longer listed |
| SyncDaemon.Daemon.Decide | cmd/meshd/wireguard.go:298-337 | the endpoint, timer and relay decision for one entry, which EntriesDecide spells out, handshakes read only when needed |
| SyncDaemon.Daemon.Listing | cmd/meshd/wireguard.go:284-353 | for every list the loop gives the next peers, the number of entries with a target, and the exact lines |
| SyncDaemon.Daemon.Removals | cmd/meshd/wireguard.go:354-358 | the loop removes exactly the peers no longer listed, each once, in every iteration order |
| SyncDaemon.Daemon.SyncPeers | cmd/meshd/wireguard.go:277-367 | for every list, state and device: the text sent, the peers recorded, the device after it, which EntriesDecide spells out for lists without repetition; from a device that is as recorded, a list that names no mesh address twice leaves it so exactly when every key settles; a refused text changes nothing |
| SyncDaemon.DistinctSync | cmd/meshd/wireguard.go:339-366 | with no key listed twice: the device has exactly the recorded peers, each alone with its address and with its target; there is a block for a key exactly when it is new or gone or its address or target changed, and an endpoint exactly for a changed target; the count is of peers with a target |
| SyncEntries.EntriesDecide | cmd/meshd/wireguard.go:284-352 | with nothing listed twice: exactly the other peers with a usable key and address are recorded and on the device; a directly reachable entry's endpoint, or another's valid NAT endpoint, is what is recorded, without either the last one stays; relayed exactly if it was with that endpoint, or the relay is up and there is no endpoint or it was tried over 20 seconds without a handshake in the last 180; the device sends to the endpoint or through the relay accordingly, keepalive 25 seconds |
| SyncDevice.SyncedExactlyWhen | cmd/meshd/wireguard.go:311-352 | for any list that names no mesh address twice, keys repeating freely, the sync leaves the device as recorded if and only if for every key no entry before its last yields a block, or the last one does and sets the endpoint if an earlier one did |
| SyncDevice.RepeatSettlesExactlyWhen | cmd/meshd/wireguard.go:343-345 | the second of two syncs of one list at one moment does so if and only if the list names no key twice |
| SyncRuns.RepeatIsQuiet | cmd/meshd/wireguard.go:343-345 | a second sync of the list sends nothing exactly when it relays the same peers, and at the same moment always |
| SyncRuns.EqualsFullConfiguration | cmd/meshd/wireguard.go:275-276 | the device equals one configured from scratch, in whatever order |
| SyncRuns.SyncNeedsDistinctIPs | cmd/meshd/wireguard.go:347-347 | a device can hold the peers if and only if no two share a mesh address |
| SyncRuns.RepeatedKeyDiverges | cmd/meshd/wireguard.go:311-345 | concretely: two peers sharing a key, synced twice from an empty device, are as recorded after the first sync and not after the second |
| SyncRuns.TargetNeverLost | cmd/meshd/wireguard.go:312-315 | over any run of syncs a peer that stays listed never loses its target |
| SyncRuns.RelayedStays | cmd/meshd/wireguard.go:316-320 | a relayed peer stays relayed while its endpoint stays the same |
| SyncRuns.EndpointKept | cmd/meshd/wireguard.go:316-320 | since is the time of the sync that gave the endpoint, kept in every sync after it |
| SyncRuns.RelayedAfterPunching | cmd/meshd/wireguard.go:322-337 | a peer with an endpoint is relayed only after that endpoint was kept longer than 20 seconds, at a sync with the relay up and no handshake in the last 180, and has been relayed ever since |
| EndToEnd.HomesAreDistinct | migrations/0001_init.sql:31-31 | enrolled peers have distinct mesh keys |
| EndToEnd.RelayFindsEnrolled | internal/api/peers.go:214-243 | so over any runs of both, the relay finds every registered session by its mesh address |
| EndToEnd.TenantListIsDistinct | internal/store/store.go:226-244 | a tenant's peers listed in any order name no mesh address twice, and no key if decoding is injective |

## Left out

- Postgres beyond statement snapshots, row locks with re-check, unique indexes and atomic commit; in particular the key-share locks of foreign keys, which only make more events wait, and deadlock detection, which is an abort.
- Tenant names and their uniqueness: a name conflict is one of the errors any statement may end in.
- Email and display name of members, ListMembers, ListMemberships and the GetMembership read after a commit: reads and display data.
- SetPeerEndpoint and SetPeerNATEndpoint: they change columns the modelled invariants do not mention.
- Who may call what: the owner check before a removal runs outside its transaction, so nothing is claimed about the remover at commit time.
- parseCIDR beyond its /30 bound: it tests the unmasked address for being private, so nothing is claimed about the range.
- Text forms of addresses and keys, base64 and hex: an address is family, value and zone; a key is the decoded text.
- Randomness and SHA-256: fresh values, no collisions.
- WireGuard itself: handshake times are any input, its roaming is not modelled, and a line about the device's own key is not special.
- Exchange.Exchange.Probe: elapsed time is not measured; which way a select goes, when more than one is open, is an input.
- MeshBind.MeshBind.Send: opening and closing the socket are not modelled, whether it is open is part of the state.
- Prober.Prober.Turn: the relay gets its own copy of the frame, where the source hands it a slice of the read buffer.
- The read loops as such: each turn of them is modelled, not that they go on for ever.
- Sockets: a write either sends the datagram or fails, and reads cut at the prober's buffer size.
- HTTP handlers, JSON, the web interface, login, systemd, PID and state files, TUN setup, logging: little state with a hard property.
