# Safe Network storage node and client: replication and consistency core

This project models, in Dafny, five sequential decision and bookkeeping cores of the
Safe Network (the `safe_network` repository: storage nodes, the networking layer and
the `autonomi` client), and proves properties of them.

* **Record framing** (`header.dfy`, module `Header`): a stored record value is a
  two-byte `RecordHeader { kind }` followed by the MessagePack payload. The header is
  written the way `rmp_serde` writes a one-field struct holding a unit enum variant:
  the fixarray marker `0x91` followed by the variant index. The payload codec is an
  abstract `Codec`, a pair of encode/decode functions that may fail. The lemmas that
  need it assume the codec round-trips (`Header.RoundTrips`).
* **Replication** (`replication.dfy`, module `Replication`), on a storage node:
  * churn-triggered target selection builds a peer → keys plan, then sends one
    `Cmd::Replicate` per target;
  * the interval sweep sends the full key set to the `K_VALUE` peers closest to us;
  * the fetch fallback takes a holder's direct reply or falls back to a `Majority`
    network get.

  `sort_peers_by_address` is an abstract function. Its promise (sorted by XOR
  distance, drawn from its input, `min(n, |peers|)` long) is the hypothesis
  `Replication.SortsByDistance`.
* **Spend settlement** (`native_transfers.dfy`, module `NativeTransfers`), in the
  client:
  * the put `store_spend` builds;
  * the classification of a batch of spend results into double spends and other
    failures;
  * the unspent check of a cash note;
  * the wallet bookkeeping of `send`, `receive_transfer` and
    `resend_pending_transactions`, with `MemWallet` and `HotWallet` as classes.
* **Register client** (`registers.dfy`, module `Registers`): the control flow,
  error mapping and put/get configurations of create, fetch and update. The
  `sn_registers` CRDT is an abstract interface `Crdt`. The Merkle-register behaviour
  the client relies on (a write replaces exactly the heads it names as children) is
  the hypothesis `Registers.Lawful`.
* **Request/response dispatcher** (`msg.dfy`, module `Msg`): `handle_msg` over the
  `pending_requests` table. `Msg.Step` is the transition on values.
  `Msg.Dispatcher.HandleMsg` performs it in place on a class that holds the table
  and two output logs (events raised, answers delivered).

Shared types live in `wrappers.dfy` (`Option`, `Result`), `types.dfy` (opaque ids,
addresses, records, bytes) and `network_api.dfy` (quorums, get/put configurations,
network errors, protocol messages).

Everything outside the core is a parameter. This covers transport results,
`sort_peers_by_address`, the payload codec, the CRDT, wallet results, and which
waiting callers have hung up. Each model function or method is defined for every
answer its collaborators may give, and its contract ties its result and what it
sent to those answers.

On a removal, the doc comments of `try_trigger_targetted_replication`
(sn_node/src/replication.rs:27-28 and 81-82) speak of replicating to the farthest
peer of a record's close group when the departed peer belonged to it. The code
(sn_node/src/replication.rs:61-63 and 80-91) sorts the local peers, with the
departed peer appended, into a group of `CLOSE_GROUP_SIZE + 1`. If the departed
peer is in that group, the code replicates to the group's last (farthest) member,
except when that member is the departed peer itself: then it does nothing. The
model follows the code (`Replication.TargetFor`, `Replication.RemovalScenarioPlan`).

## Model

| member | source | states |
|---|---|---|
| `Header.KindOfIndex` | sn_protocol/src/storage/header.rs:33-43 | an index decodes to a kind iff it is below 7; decoding inverts `KindIndex` and the kind it yields is the only one with that index |
| `Header.TrySerialize` | sn_protocol/src/storage/header.rs:52-67 | serialising a header of any of the seven kinds succeeds with exactly `SIZE` = 2 bytes, `[0x91, index]`, the length the size test checks for each kind |
| `Header.TryDeserialize` | sn_protocol/src/storage/header.rs:69-74 | every failure is `RecordHeaderParsingFailed`; a success means the input starts with the header bytes of the decoded kind; any input starting with a kind's header decodes to that kind, whatever follows |
| `Header.FromRecord` | sn_protocol/src/storage/header.rs:76-81 | a value shorter than `SIZE + 1` fails with `RecordHeaderParsingFailed`; otherwise the result is the decoding of exactly the first `SIZE + 1` bytes, and any failure is `RecordHeaderParsingFailed` |
| `Header.IsRecordOfTypeChunk` | sn_protocol/src/storage/header.rs:83-86 | fails exactly when `from_record` fails, with the same error; otherwise true iff the decoded kind is exactly `Chunk` |
| `Header.TrySerializeRecord` | sn_protocol/src/storage/header.rs:108-120 | succeeds iff the payload encodes; the value is the header of `kind` followed by the payload encoding, so its first `SIZE` bytes depend only on `kind`; a payload failure is `RecordParsingFailed` |
| `Header.TryDeserializeRecord` | sn_protocol/src/storage/header.rs:91-104 | a value of at most `SIZE` bytes fails with `RecordParsingFailed`; otherwise it decodes exactly the bytes after offset `SIZE`, and every failure is `RecordParsingFailed` |
| `Header.HeaderInjective` | sn_protocol/src/storage/header.rs:33-43 | distinct kinds have distinct header bytes |
| `Header.HeaderRoundTrip` | sn_protocol/src/storage/header.rs:54-74 | deserialising a serialised header gives back the header, for every kind |
| `Header.FromRecordOfSerialized` | sn_protocol/src/storage/header.rs:76-120 | for a non-empty payload encoding, `from_record` of `try_serialize_record(d, k)` is `k`, whichever key the record has |
| `Header.PayloadRoundTrip` | sn_protocol/src/storage/header.rs:91-120 | when the codec round-trips, `try_deserialize_record(try_serialize_record(d, k)) == d` |
| `Header.IsChunkExactlyForChunk` | sn_protocol/src/storage/header.rs:83-86 | a serialised record of kind `k` is a chunk iff `k == Chunk`, so `ChunkWithPayment` is not |
| `Replication.TargetFor` | sn_node/src/replication.rs:78-99 | a churned peer outside the sorted group selects no target; otherwise a target exists iff the churned peer is not the group's last (farthest) member; it is the added peer itself, or on removal the farthest member, which is never the removed peer |
| `Replication.SendReplicateCmd` | sn_node/src/replication.rs:218-236 | sends one `Cmd::Replicate { holder, keys }` to the peer; succeeds iff that send succeeds, carrying exactly those keys; otherwise returns the send's error |
| `Replication.PlanInsert` | sn_node/src/replication.rs:101-102 | adding one key to the plan changes it only at that key's target, whose key set gains the key (`entry(..).or_default().insert`) |
| `Replication.BuildReplicationPlan` | sn_node/src/replication.rs:59-104 | succeeds iff every key's group sorts; the result maps each target to exactly the non-empty set of keys whose selection rule picks it; a failure is the sort error of some key |
| `Replication.SendReplicationPlan` | sn_node/src/replication.rs:106-108 | sends one `Replicate` per target with exactly that target's keys, no target twice; on success every target was served; a failure is the error of a send to a target not yet served |
| `Replication.TryTriggerTargetedReplication` | sn_node/src/replication.rs:29-112 | each lookup error is returned with nothing sent; fewer than `K_VALUE` local peers (counted before the removed peer is appended) gives Ok and sends nothing; a sort error aborts before any send; otherwise what is sent is the plan of all local keys over the local peers, plus the removed peer on removal |
| `Replication.PlanUnique` | sn_node/src/replication.rs:59-104 | the plan of a key set is unique, so the properties of `BuildReplicationPlan` determine its result |
| `Replication.TargetsAreLocalPeers` | sn_node/src/replication.rs:61-99 | under a correct sort every target is one of the local peers; on a removal, the departed peer is never a target |
| `Replication.JoinScenarioPlan` | sn_node/src/replication.rs:92-98 | a node holding one record whose sorted group contains the joining peer, but not as its farthest member, plans exactly one notice naming that record, to the joining peer |
| `Replication.RemovalScenarioPlan` | sn_node/src/replication.rs:80-91 | when the removed peer is in a record's group, the plan is one notice to the group's farthest member if that member is not the removed peer, and empty otherwise |
| `Replication.IntervalThreshold` | sn_node/src/replication.rs:122-130 | under a correct sort, the sweep's `closest_to_us.len() >= K_VALUE` test holds iff at least `K_VALUE` peers are known |
| `Replication.TryIntervalReplication` | sn_node/src/replication.rs:115-142 | fewer than `K_VALUE` closest peers sends nothing and gives Ok; otherwise the full local key set goes, in order, to the closest peers; every send listed succeeded; Ok iff all of them were sent; an error is exactly the failed send's, and no later peer is tried |
| `Replication.DirectContent` | sn_node/src/replication.rs:170-187 | the holder's direct reply yields content iff it is `QueryResponse::GetReplicatedRecord(Ok(..))`, and then it is that reply's record content |
| `Replication.FetchOne` | sn_node/src/replication.rs:166-204 | one fetch asks the holder for `GetReplicatedRecord { requester, key }`; it uses the direct content iff there is one, and otherwise the result of a `Majority` network get of the same key; that record is what goes to `store_prepaid_record` |
| `Replication.FetchReplicationKeysWithoutWait` | sn_node/src/replication.rs:156-215 | one fetch task per (holder, key) pair, in order, each as `FetchOne` states; the call itself always returns Ok |
| `NativeTransfers.ExpectedHolders` | autonomi/src/client/native_transfers.rs:301-307 | the expected holders are exactly the peers returned by `get_closest_peers` |
| `NativeTransfers.StoreSpendRequest` | autonomi/src/client/native_transfers.rs:285-326 | an encoding failure is a protocol `RecordParsingFailed`; with `VERIFY_STORE` a closest-peers failure is returned as is; otherwise the put is a record at the spend address of the unique key, whose value is the `Spend` header and then the encoded `[spend]`, with put quorum `Majority`, `Persistent` retry, no directed peers and `Network` verification (get quorum `Majority`, no retry, not a register). The record to verify and the expected holders are both set iff `VERIFY_STORE` |
| `NativeTransfers.StoreSpend` | autonomi/src/client/native_transfers.rs:285-328 | the result is the put's result, or the failure that prevented the put |
| `NativeTransfers.StoredSpendDecodes` | autonomi/src/client/native_transfers.rs:293-299 | the stored record sits at the spend's address, its header reads `Spend`, and when the codec round-trips it decodes back to exactly `[spend]` |
| `NativeTransfers.Outcomes` | autonomi/src/client/native_transfers.rs:87-103 | one task per spend, in order, pairing the spend's unique key with its `store_spend` result |
| `NativeTransfers.DoubleSpentKeysExact` | autonomi/src/client/native_transfers.rs:110-121 | a key is in the double-spend set iff one of its puts failed with `RecordDoesNotMatch` or `SplitRecord` |
| `NativeTransfers.GenericFailuresExact` | autonomi/src/client/native_transfers.rs:122-127 | the error list holds exactly the (key, error) pairs of the failures that are not double spends; it is empty iff there are none |
| `NativeTransfers.ClassifyOkIff` | autonomi/src/client/native_transfers.rs:108-152 | the verdict is Ok iff every put succeeded |
| `NativeTransfers.DoubleSpendPrecedence` | autonomi/src/client/native_transfers.rs:136-142 | one double-spend result suffices for `DoubleSpendAttemptedForCashNotes`, even alongside other errors; its set is exactly the double-spent keys |
| `NativeTransfers.CouldNotSendMoneyReport` | autonomi/src/client/native_transfers.rs:143-150 | with no double spend and at least one failure, the verdict is `CouldNotSendMoney`; its report names each failing key with its error, and nothing else |
| `NativeTransfers.SendSpends` | autonomi/src/client/native_transfers.rs:83-153 | the two loops of `send_spends` compute the classification of the per-spend outcomes, of which the lemmas above state the properties |
| `NativeTransfers.VerifyIfCashNoteIsValid` | autonomi/src/client/native_transfers.rs:199-214 | Ok (unspent) iff the spend lookup is `RecordNotFound`; `AlreadySpent` iff a spend is returned; `FailedToGetSpend` with that error iff the lookup fails with any other error |
| `NativeTransfers.ValidNotesExact` | autonomi/src/client/native_transfers.rs:186-193 | the valid notes are exactly the notes the network reports unspent |
| `NativeTransfers.DepositsStop` | autonomi/src/client/native_transfers.rs:188 | once a deposit has failed (`?`), later notes change nothing |
| `NativeTransfers.DepositedAreValid` | autonomi/src/client/native_transfers.rs:186-193 | every deposited note is one of the transfer's notes and was reported unspent |
| `NativeTransfers.DepositsAreValidNotes` | autonomi/src/client/native_transfers.rs:186-195 | when no deposit fails, exactly the valid notes are deposited, in order, and the run ends in success |
| `NativeTransfers.MemWallet.AddPendingSpends` | autonomi/src/client/native_transfers.rs:264-266 | the pending spends grow by exactly the transaction's spends, in order; nothing else in the wallet changes |
| `NativeTransfers.ReceiveTransfer` | autonomi/src/client/native_transfers.rs:172-196 | an unwrap failure is a wallet error and a redemption-check failure a network error, both with nothing deposited; otherwise the wallet gains the deposits of the run (the valid notes, skipping the rest) and the result is Ok unless a deposit failed |
| `NativeTransfers.SelectRecipientCashNote` | autonomi/src/client/native_transfers.rs:247-255 | Ok iff exactly one output, and then that output; 0 outputs gives "Got 0, expected 1." and more than one "Got multiple, expected 1." |
| `NativeTransfers.Send` | autonomi/src/client/native_transfers.rs:236-269 | errors come in the source's order (transaction, output count, transfer, spends); any error leaves the wallet unchanged; on success it returns the transfer, records the transaction and adds its spends as pending |
| `NativeTransfers.ResendPendingTransactions` | autonomi/src/client/native_transfers.rs:157-169 | with nothing unconfirmed nothing changes; otherwise the unconfirmed spends are cleared iff resending them all succeeded |
| `Registers.Heads` | autonomi/src/client/registers.rs:79-83 | the heads are exactly the entries `read()` returns |
| `Registers.HeadHashes` | autonomi/src/client/registers.rs:171 | the children collected are exactly the hashes of the current entries |
| `Registers.DropHashes` | autonomi/src/client/registers.rs:58 | one value per entry, in order, with the hash dropped |
| `Registers.Values` | autonomi/src/client/registers.rs:51-60 | `values()` has one element per entry of the register's `read()`, in order: that entry's value |
| `Registers.FetchRegister` | autonomi/src/client/registers.rs:127-153 | the get goes to the register's address with `FetchRegisterCfg` (quorum `One`, `is_register`); get failure → `Network`, then decode failure → `Serialization`, then verify failure → `FailedVerification`; a register is returned iff all three pass, and it is the decoded one |
| `Registers.FetchAfterStore` | autonomi/src/client/registers.rs:142-152 | fetching the record an update stored returns the same signed register, when the codec round-trips and the register verifies |
| `Registers.OwnerPermissions` | autonomi/src/client/registers.rs:75 | the owner's key is the only writer |
| `Registers.CreatePutCfg` | autonomi/src/client/registers.rs:112-117 | put quorum `All`, no retry, no verification, directed only to the payee |
| `Registers.UpdatePutCfg` | autonomi/src/client/registers.rs:193-198 | put quorum `All`, no retry, no directed peers, no verification |
| `Registers.CreateRegister` | autonomi/src/client/registers.rs:65-124 | errors in the source's order, each mapped as in the source: write → `Write`, pay → `Pay`, recent payment → `Wallet`, sign → `CouldNotSign`, serialise → `Serialization`, put → `Network`; the one put is a `RegisterWithPayment` record of (payment, signed register) at the new register's address, with `CreatePutCfg(payee)`; success returns the signed register |
| `Registers.UpdateRegister` | autonomi/src/client/registers.rs:156-204 | the new value is written with every current head hash as children, and the op is applied to the signed register; write and `add_op` failures are `Write`; the put is a `Register` record of the updated signed register with `UpdatePutCfg`, and the result is the put's |
| `Registers.NoSurvivorsOfAllHeads` | autonomi/src/client/registers.rs:171-176 | naming every head hash as a child supersedes every head |
| `Registers.CreatedRegisterHoldsValue` | autonomi/src/client/registers.rs:74-86 | under `Lawful`, the created register has no children to name, holds exactly the initial value, lives at (name, owner's key), and only the owner may write |
| `Registers.UpdateOverwritesAll` | autonomi/src/client/registers.rs:155-181 | under `Lawful`, after an update the register holds exactly one head, the new value ("this will overwrite existing value(s)") |
| `Registers.ConcurrentUpdatesKeepBoth` | autonomi/src/client/registers.rs:48-50 | under `Lawful`, two updates written concurrently over the same heads both survive, which is why `values()` can return several values |
| `Msg.Remove` | sn_networking/src/msg/mod.rs:46 | removing an id drops its entry and keeps every other entry as it was |
| `Msg.Step` | sn_networking/src/msg/mod.rs:21-102 | no entry other than the event's own request id is removed or altered, and no entry is added. Each log gains at most one item, and only one of the two. Every error is `InternalMsgChannelDropped` or `ReceivedResponseDropped(request_id)` |
| `Msg.RequestIsForwarded` | sn_networking/src/msg/mod.rs:29-40 | an inbound request raises one `RequestReceived` event with its channel and leaves the table and the senders untouched, returning Ok |
| `Msg.ResponseToPending` | sn_networking/src/msg/mod.rs:41-60 | a response to a pending id removes its entry. A `Some` sender receives `Ok(response)`. A `None` entry raises `ResponseReceived` instead. A sender whose receiver has gone gives `InternalMsgChannelDropped`, with the entry already removed and nothing delivered |
| `Msg.ResponseToUnknown` | sn_networking/src/msg/mod.rs:61-64 | a response whose id is not pending changes nothing and returns Ok |
| `Msg.OutboundFailureOutcome` | sn_networking/src/msg/mod.rs:67-89 | any entry for the id is removed. The result is Ok iff a live `Some` sender received `Err(error)`. An absent or `None` entry gives `ReceivedResponseDropped(request_id)`. A sender whose receiver has gone gives `InternalMsgChannelDropped`. No event is raised |
| `Msg.InboundFailureAndResponseSentIgnored` | sn_networking/src/msg/mod.rs:90-101 | `InboundFailure` and `ResponseSent` change nothing and return Ok |
| `Msg.AnsweredAtMostOnce` | sn_networking/src/msg/mod.rs:41-89 | after a response or an outbound failure for an id, a later response for that id is ignored, so no caller is answered twice |
| `Msg.Dispatcher.HandleMsg` | sn_networking/src/msg/mod.rs:21-102 | updates the table and the two logs in place exactly as `Step` prescribes, and returns `Step`'s result |

## Left out

- Concurrency: the spawned fetch tasks of `fetch_replication_keys_without_wait` and the `join_all` of `send_spends` run one after another in the model. Their results are only collected, so order does not matter.
- `store_prepaid_record`: the model stops at the record a fetch task hands to it (`FetchTask.record`); validating and storing it, and the task's own result, are not modelled.
- Kademlia routing and the transport become parameters standing for their answers: `get_all_local_peers`, `get_all_local_record_addresses`, `sort_peers_by_address`, `send_req_ignore_reply`, `send_request`, `get_record_from_network`, `put_record`, `get_closest_peers` and `get_spend`. So does the XOR distance. The network has no state, so a put does not change later gets.
- Replication.SendReplicationPlan: iterates the plan in an unspecified order rather than the `BTreeMap`'s key order. Its contract holds for every order, but it does not state which targets come first.
- Header.TryDeserialize: accepts only the canonical two-byte header `[0x91, index]`. Other encodings that `rmp_serde` might also accept are not modelled. The payload encoding is the abstract `Codec`, not MessagePack bytes.
- BLS keys, signatures and `XorName` hashing: keys, names and entry hashes are opaque numbers, and `PublicKeyOf` stands for `SecretKey::public_key`.
- Wallet, payment and `Transfer` internals enter as results given by the caller: `create_signed_transaction`, `unwrap_transfer`, `verify_cash_notes_redemptions`, `deposit_cash_note`, `transfer_from_cash_note`, `pay` and `get_recent_payment_for_addr`. Amount, recipient and reason of `send` only affect the transaction result, so they are not parameters.
- `get_recent_payment_for_addr` itself (a wallet lookup, with a panic on a malformed stored peer id) and `receive` (hex decoding of a `Transfer`, then `receive_transfer`) are not modelled.
- `add_keys_to_replication_fetcher` and `Register::address` are plain pass-throughs to other components and are not modelled.
- NativeTransfers.SendSpends: the `CouldNotSendMoney` report is the list of (key, error) pairs the source renders into its message, and `FailedToGetSpend` keeps the error instead of its formatted text. The puts issued are not logged, only their results.
- Registers.Values: requires the signed register to unsign, because the source panics (`expect`) otherwise; `Registers.UpdateRegister` has the same precondition for the same reason.
- Registers.Lawful: the Merkle-register laws are a hypothesis about `sn_registers`, which is not part of this model. `merge`, `verify` internals and the op log are left out.
- Dispatcher sends on `event_sender` (an mpsc channel, whose failures `handle_msg` ignores) are appends to the event log. Senders and response channels are opaque ids. Which receivers have hung up is a parameter.
- The insertion of entries into `pending_requests` (done by the request-sending command elsewhere in the driver) is not modelled; a `Dispatcher` starts from a given table.
- `K_VALUE` (20, from libp2p), `CLOSE_GROUP_SIZE` (5, from `sn_networking`) and `VERIFY_STORE` are defined outside the modelled files. The first two are constants here; `VERIFY_STORE` is a field of `SpendNetwork`.
- Metrics (`record_metrics`), timing (`Instant`) and trace logging.
