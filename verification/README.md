# A verified model of the IBC Eureka contracts and their tooling

The project models how tokens and packets move between chains that run the Solidity IBC contracts, and proves what users
and operators rely on, over every run. It also models the concurrent and encoding code of the end-to-end suite and tools.

**Packets.** Any number of chains, each with an ICS26 router (`Router`, `Host`), are connected by clients. `PacketSafety`
lets every interleaving of sends, receives, acknowledgements, timeouts and blocks happen, with proofs checked against
past blocks of the counterparty. Main result: `PacketSafety.ExactlyOnce`.

**Tokens.** `Erc20` is the voucher token with its unchecked 256-bit arithmetic, `Transfer` one chain's ICS20 ledger,
`Denoms` the traces. `Conservation` puts a ledger on every chain. Main results: `Solvency.Conserved` (an escrow always
covers the vouchers issued against it and everything in flight, both ways, even while anyone adds clients that lie),
`Surplus.ConservedExactly` (and exactly so, up to what was given to it), `Solvency.RefundNeverShort`,
`Solvency.DeliveryNeverShort`, `Solvency.EveryTransferCanSettle`, `Redemption.EveryVoucherIsRedeemable` and
`TransferExact.RefundUndoesSend`.

**Light clients.** `Attestation` is the committee-signed light client: its records over every run, quorum intersection,
and who is convicted by conflicting proofs. `Trust` and `TrustedTransfers` replace the ideal light clients of the two
parts above by attestation clients, each with fewer attestors than a quorum who sign what is false of its own chain, and
prove that every such run is a run of the ideal system, so exactly-once delivery and conservation carry over.

**Contracts as contracts.** `RouterContract`, `TransferContract`, `AttestationContract`, `Clients.ICS02Client`,
`Accounts.ICS27GMP` and `Erc20.IBCERC20` are classes that update storage in place, with the source's loops and with
rollback on revert. Each method is proved equal to the value-level function the whole-run theorems are about.

**Suite and tools.** `FanIn` is the goroutine fan-out with its channel, used by `ParallelTasks` and `AttestorSetup`;
`EventIterator` is the generated event iterator; `CallResult`, `KeyPaths`, `AccountKeys` and `Seeds` are codecs and hash
preimages; `TestMatrix` is the CI matrix builder.

Conventions: a hash is represented by what is hashed, so equal hashes mean equal preimages; the attestation model instead
takes signature recovery, ABI decoding and keccak256 as parameters. A revert is an `Err` result after which nothing has
changed. CREATE2 and contract creation pick addresses given as parameters and fail on an address in use. Time, block
contents, application results of other ports, pausing and rate limits (`admitted`) are parameters of each step.

What the proofs showed about the code:

- Misbehaviour convicts an attestor exactly when the disputed block time was not given at deployment or an update has
  confirmed it since (`Attestation.MisbehaviourConvictsIff`). Otherwise the client can freeze on a single honest
  attestation (`Attestation.DeploymentTimeConvictsNoOne`).
- A signed packet list that repeats a path proves both presence and absence of one record, exactly when the first entry
  for the path is zero (`Attestation.OneProofForBoth`, with an input in `Attestation.PresentAndAbsent`).
- Attestations do not name the chain they are about. A key that sits in the committees of two chains can mislead one of
  them without ever signing a falsehood about the other (`Trust.SharedKeyMisleads`).
- The result map of the parallel runner depends on the schedule exactly when two tasks share a name and return different
  values (`ParallelTasks.SameForAllIffAgree`).
- The 32-bit length prefix truncates: byte strings of length 2^32 collide, shorter ones never
  (`AccountKeys.InjectiveIffLengthsFit`).

## Model

| member | source | states |
|---|---|---|
| Host.PathReadsBack | ibc-solidity/contracts/utils/ICS24Host.sol:25-61 | client, kind and sequence can be read back from a commitment path, so records of all clients and kinds never share a path |
| Router.RecordPaths | ibc-solidity/contracts/utils/ICS24Host.sol:25-61 | where commitment, receipt and acknowledgement of a packet are kept: client, kind byte, big-endian sequence |
| Router.SendIff | ibc-solidity/contracts/ICS26Router.sol:99-130 | which sends are accepted, with the timeout window of a day, and that exactly one commitment and one counter change |
| Router.RecvIff | ibc-solidity/contracts/ICS26Router.sol:135-197 | which receives are accepted, that a known packet changes nothing, and which acknowledgement is written: what the application returned, or the universal error for one that reverted with a reason |
| Router.AckIff | ibc-solidity/contracts/ICS26Router.sol:202-251 | which acknowledgements are accepted, and that they remove at most this commitment |
| Router.TimeoutIff | ibc-solidity/contracts/ICS26Router.sol:254-299 | which timeouts are accepted, and that they remove at most this commitment |
| Bytes.ByteOrder | ibc-solidity/contracts/utils/ICS24Host.sol:186-194 | at every width, which byte holds which base-256 digit, for both byte orders |
| RouterContract.ICS26Router.Send | ibc-solidity/contracts/ICS26Router.sol:99-130 | the storage-level send is the send of the run model, with full rollback on revert |
| RouterContract.ICS26Router.Recv | ibc-solidity/contracts/ICS26Router.sol:135-197 | the storage-level receive is the receive of the run model: no-op on a known packet, universal error acknowledgement for a reverting application, rollback otherwise |
| RouterContract.ICS26Router.Close | ibc-solidity/contracts/ICS26Router.sol:202-299 | the common end of acknowledge and timeout: the commitment goes if and only if the callback succeeds |
| RouterContract.ICS26Router.Acknowledge | ibc-solidity/contracts/ICS26Router.sol:202-251 | the storage-level acknowledge is that of the run model |
| RouterContract.ICS26Router.TimeOut | ibc-solidity/contracts/ICS26Router.sol:254-299 | the storage-level timeout is that of the run model |
| PacketSafety.ApplyEffect | ibc-solidity/contracts/ICS26Router.sol:99-299 | every successful router step has one of five declarative effects on stores, log and callbacks |
| PacketSafety.RecvFacts | ibc-solidity/contracts/ICS26Router.sol:135-197 | a packet received for the first time was sent by the counterparty, is still committed there, and was never received |
| PacketSafety.AckFacts | ibc-solidity/contracts/ICS26Router.sol:202-251 | an acknowledgement that closes a packet is the one the destination wrote for that packet |
| PacketSafety.TimeoutFacts | ibc-solidity/contracts/ICS26Router.sol:254-299 | a timeout that closes a packet means the destination has not received it and its clock is past the timeout |
| PacketSafety.StepKeeps | ibc-solidity/contracts/ICS26Router.sol:99-299 | every step of every chain keeps the global invariant tying stores, past blocks and sent packets |
| PacketSafety.RunKeeps | ibc-solidity/contracts/ICS26Router.sol:99-299 | the invariant and the meaning of every callback hold in every reachable world |
| PacketSafety.ExactlyOnce | ibc-solidity/contracts/ICS26Router.sol:99-299 | in every run a packet is delivered at most once and only if sent, its acknowledgement answers what the application did, its sender hears of it at most once, a timeout excludes delivery forever, an acknowledgement is the one returned |
| Settlement.SendOpens | ibc-solidity/contracts/ICS26Router.sol:99-130 | a send opens exactly one packet |
| Settlement.RecvSettles | ibc-solidity/contracts/ICS26Router.sol:135-197 | a successful delivery settles exactly one open packet, a refused one none |
| Settlement.AckSettles | ibc-solidity/contracts/ICS26Router.sol:202-251 | an error acknowledgement settles exactly one open packet, a success acknowledgement none |
| Settlement.TimeoutSettles | ibc-solidity/contracts/ICS26Router.sol:254-299 | a timeout settles exactly one open packet |
| Clients.ValidateCustomIBCIdentifier | ibc-solidity/contracts/utils/IBCIdentifiers.sol:40-68 | the loop accepts exactly the identifiers of allowed length, characters and prefix |
| Clients.GeneratedIsNew | ibc-solidity/contracts/utils/ICS02ClientUpgradeable.sol:54-125 | in every run a generated client id is unused, so a chosen id never blocks it, and the client is registered under it with its counterparty |
| Clients.ExecuteIff | ibc-solidity/contracts/utils/ICS02ClientUpgradeable.sol:54-157 | which additions and migrations succeed, and the client and counterparty they leave under which identifier, with all others as before |
| Clients.CustomIsSpelled | ibc-solidity/contracts/utils/IBCIdentifiers.sol:40-68 | the identifiers that may be chosen, letter by letter |
| Clients.DecimalReadsBack | ibc-solidity/contracts/utils/ICS02ClientUpgradeable.sol:54-59 | the number in a generated identifier is in decimal notation and reads back |
| Clients.IdsAreSlashFree | ibc-solidity/contracts/utils/ICS02ClientUpgradeable.sol:78-125 | every client id ever registered is non-empty and slash-free, which the trace arithmetic needs |
| Clients.ICS02Client.Insert | ibc-solidity/contracts/utils/ICS02ClientUpgradeable.sol:111-125 | a client is added only where none is |
| Clients.ICS02Client.AddClient | ibc-solidity/contracts/utils/ICS02ClientUpgradeable.sol:54-88 | the storage-level add under a generated id is that of the run model |
| Clients.ICS02Client.AddCustomClient | ibc-solidity/contracts/utils/ICS02ClientUpgradeable.sol:91-104 | the storage-level add under a chosen id is that of the run model |
| Clients.ICS02Client.MigrateClient | ibc-solidity/contracts/utils/ICS02ClientUpgradeable.sol:142-157 | migration replaces an existing client and no other |
| Denoms.AddressRoundTrip | ibc-solidity/contracts/utils/ICS20Lib.sol:43-47 | printing an address and parsing it gives it back, without a slash |
| Denoms.PrintedAddress | ibc-solidity/contracts/ICS20Transfer.sol:231-249 | an address is printed as 0x and forty lower-case digits |
| Denoms.ParsedAddress | ibc-solidity/contracts/utils/ICS20Lib.sol:43-47 | exactly forty digits of either case, with or without 0x, parse as an address |
| Denoms.AddressHasNoSlash | ibc-solidity/contracts/utils/ICS20Lib.sol:43-47 | whatever parses as an address is not a trace |
| Denoms.TraceIsSpelled | ibc-solidity/contracts/utils/ICS20Lib.sol:53-63 | a trace is port, slash, client, slash and what it prefixes |
| Denoms.TraceUnwinds | ibc-solidity/contracts/utils/ICS20Lib.sol:53-63 | prefixing a denomination and unwinding it is the identity |
| Denoms.UnwoundTrace | ibc-solidity/contracts/utils/ICS20Lib.sol:53-63 | unwinding a denomination and prefixing it again is the identity |
| Denoms.TraceClientUnique | ibc-solidity/contracts/utils/ICS20Lib.sol:53-63 | a trace has one last hop among slash-free client ids |
| Erc20.UpdateExact | ibc-solidity/contracts/utils/IBCERC20.sol:88-99 | no unchecked addition or subtraction wraps: a move changes exactly two accounts by exactly the amount and keeps balances equal to supply |
| Erc20.ExecuteIff | packages/go-abigen/ibcerc20/contract.go:34-35 | which token calls succeed |
| Erc20.TransferFromExact | packages/go-abigen/ibcerc20/contract.go:34-35 | transferFrom moves exactly the amount and costs exactly that much of one allowance, unless unlimited |
| Erc20.ExecuteExact | ibc-solidity/contracts/utils/IBCERC20.sol:88-114 | every call keeps balances equal to supply; balances and allowances after each call, account by account; only authorised mint and burn change the supply |
| Erc20.RunBacked | packages/go-abigen/ibcerc20/contract.go:34-35 | after any sequence of calls by anyone the balances sum to the supply, which is what was minted less what was burned |
| Erc20.IBCERC20.MoveTokens | packages/go-abigen/ibcerc20/contract.go:34-35 | the in-place move of balances is the specified one |
| Erc20.IBCERC20.TransferTo | packages/go-abigen/ibcerc20/contract.go:34-35 | transfer has the specified effect or none |
| Erc20.IBCERC20.ApproveSpender | packages/go-abigen/ibcerc20/contract.go:34-35 | approve has the specified effect or none |
| Erc20.IBCERC20.TransferBetween | packages/go-abigen/ibcerc20/contract.go:34-35 | transferFrom spends the allowance and moves, or changes nothing |
| Erc20.IBCERC20.MintAt | ibc-solidity/contracts/utils/IBCERC20.sol:88-92 | minting succeeds for the ICS20 contract at the escrow only |
| Erc20.IBCERC20.BurnAt | ibc-solidity/contracts/utils/IBCERC20.sol:95-99 | burning succeeds for the ICS20 contract at the escrow only |
| Transfer.SendKeeps | ibc-solidity/contracts/ICS20Transfer.sol:223-269 | a send keeps the ledger invariant and shifts escrow balance or voucher supply by the amount |
| Transfer.SentIsTransfer | ibc-solidity/contracts/ICS20Transfer.sol:247-268 | version, encoding and ports of an outgoing payload, and the success acknowledgement, as text |
| Transfer.ReceivedIsTransfer | ibc-solidity/contracts/ICS20Transfer.sol:286-361 | only payloads with the same version, encoding and ports, a positive amount and a usable receiver are accepted |
| Redemption.SendTransferIff | ibc-solidity/contracts/ICS20Transfer.sol:153-269 | a send succeeds if and only if the caller has the amount and lets the application take it, and the escrow exists or can be created |
| Transfer.ReturnKeeps | ibc-solidity/contracts/ICS20Transfer.sol:286-361 | releasing a returning token keeps the ledger invariant and takes the amount from one escrow only |
| Transfer.ArrivalKeeps | ibc-solidity/contracts/ICS20Transfer.sol:286-361 | issuing vouchers for an arriving token keeps the ledger invariant and the registry one to one |
| Transfer.RefundKeeps | ibc-solidity/contracts/ICS20Transfer.sol:402-440 | a refund keeps the ledger invariant and reverses the shift of the send |
| Transfer.UserCallKeeps | packages/go-abigen/ibcerc20/contract.go:34-35 | nothing token holders can do takes tokens out of an escrow or changes a voucher's supply |
| TransferExact.SendMoves | ibc-solidity/contracts/ICS20Transfer.sol:223-269 | to the unit: the caller pays the amount to the escrow, or out of existence when the token goes home, and nobody else changes |
| TransferExact.ReceiveMoves | ibc-solidity/contracts/ICS20Transfer.sol:286-361 | to the unit: the receiver gets the amount from the escrow or in new vouchers, of the token the denomination stands for |
| TransferExact.RefundMoves | ibc-solidity/contracts/ICS20Transfer.sol:402-440 | to the unit: the sender gets the amount from the escrow or in vouchers issued again |
| TransferExact.RefundUndoesSend | ibc-solidity/contracts/ICS20Transfer.sol:402-440 | a send followed by its refund leaves every balance and supply of every token as before |
| TransferExact.UserCallMoves | packages/go-abigen/ibcerc20/contract.go:34-35 | to the unit: each call moves from and to the accounts it names, never out of an escrow, and creates or destroys no voucher |
| TransferContract.ICS20Transfer.GetOrCreateEscrow | ibc-solidity/contracts/ICS20Transfer.sol:542-558 | one escrow per client, created on first use at a fresh address |
| TransferContract.ICS20Transfer.GetOrCreateIBCERC20 | ibc-solidity/contracts/ICS20Transfer.sol:518-537 | one voucher per trace, entered in both mappings |
| TransferContract.ICS20Transfer.PullTokens | ibc-solidity/contracts/ICS20Transfer.sol:447-466 | succeeds only if the escrow's balance grew by exactly the amount |
| TransferContract.ICS20Transfer.Send | ibc-solidity/contracts/ICS20Transfer.sol:153-269 | the storage-level send is that of the ledger model, rolled back as a whole on revert |
| TransferContract.ICS20Transfer.ReceiveReturning | ibc-solidity/contracts/ICS20Transfer.sol:330-358 | a returning denomination is an address or a known trace, and its token is paid out |
| TransferContract.ICS20Transfer.ReceiveArriving | ibc-solidity/contracts/ICS20Transfer.sol:346-358 | an arriving denomination gets its voucher, minted and paid out |
| TransferContract.ICS20Transfer.OnRecvPacket | ibc-solidity/contracts/ICS20Transfer.sol:286-361 | the storage-level receive is that of the ledger model, rolled back as a whole on revert |
| TransferContract.ICS20Transfer.RefundTokens | ibc-solidity/contracts/ICS20Transfer.sol:402-440 | the storage-level refund is that of the ledger model, rolled back as a whole on revert |
| Conservation.NetStepKeeps | ibc-solidity/contracts/ICS20Transfer.sol:153-440 | every step of the network, by users, relayers, token holders and clients outside the links, keeps escrow balance at or above vouchers plus transfers in flight |
| Conservation.UnlinkedKeeps | ibc-solidity/contracts/utils/ICS02ClientUpgradeable.sol:78-88 | whatever a client outside the links delivers or refunds, and whatever is sent over it, the funds of every link stay covered: escrows and traces isolate clients that anyone may add |
| Conservation.RegisteredIds | ibc-solidity/contracts/utils/ICS02ClientUpgradeable.sol:78-125 | links between registered clients satisfy the assumption on identifiers |
| Conservation.NetRunKeeps | packages/go-abigen/ics20transfer/contract.go:95-96 | the network invariant holds in every reachable state |
| Solvency.Conserved | packages/go-abigen/ics20transfer/contract.go:95-96 | in every run, for every client and token, the escrow holds at least the vouchers issued at the other end plus all open transfers both ways |
| Solvency.OpenIsCovered | packages/go-abigen/ics20transfer/contract.go:95-96 | an open transfer is covered at its home on top of all vouchers |
| Solvency.RefundNeverShort | ibc-solidity/contracts/ICS20Transfer.sol:402-440 | an open transfer can be refunded if and only if its sender field is a non-zero address |
| Solvency.DeliveryNeverShort | ibc-solidity/contracts/ICS20Transfer.sol:286-361 | an open transfer can be delivered if and only if its receiver field is a non-zero address |
| Solvency.EveryTransferCanSettle | ibc-solidity/contracts/ICS20Transfer.sol:364-440 | from every reachable state every open refundable transfer can be settled in at most three steps |
| Redemption.EveryVoucherIsRedeemable | ibc-solidity/contracts/ICS20Transfer.sol:153-361 | from every reachable state a holder of vouchers who lets the application take them can have exactly that amount of the token they stand for paid out at its home, in four steps |
| Redemption.JustSent | ibc-solidity/contracts/ICS26Router.sol:99-130 | a packet just sent is open and nobody has received it |
| Surplus.StepExact | ibc-solidity/contracts/ICS20Transfer.sol:153-440 | every step changes what an escrow holds beyond its obligations by exactly what it gives to that escrow |
| Surplus.ConservedExactly | packages/go-abigen/ics20transfer/contract.go:95-96 | in every run the escrow holds exactly the vouchers issued at the other end, plus all open transfers both ways, plus what was paid to it for nothing |
| Attestation.RunEvolves | packages/go-abigen/attestation/contract.go:55-56 | over any calls a recorded time never changes, the latest height never falls and bounds all recorded heights, and a frozen client is unchanged |
| Attestation.NewClientIff | ibc-solidity/contracts/light-clients/attestation/AttestationLightClient.sol:42-76 | which committees can be deployed and with which first record |
| Attestation.SignerIff | ibc-solidity/contracts/light-clients/attestation/AttestationLightClient.sol:253-261 | which signatures are those of a registered attestor |
| Attestation.UpdateIff | ibc-solidity/contracts/light-clients/attestation/AttestationLightClient.sol:94-127 | which updates are accepted |
| Attestation.UpdateAnswers | ibc-solidity/contracts/light-clients/attestation/AttestationLightClient.sol:94-127 | what an update answers for a new, confirmed or disputed height, every recorded time after it, and the latest height as the larger one |
| Attestation.AttestedPacketsIff | ibc-solidity/contracts/light-clients/attestation/AttestationLightClient.sol:130-206 | when a proof puts a packet list forward |
| Attestation.MembershipIff | ibc-solidity/contracts/light-clients/attestation/AttestationLightClient.sol:130-167 | membership holds if and only if some entry has the hash of the path and the value |
| Attestation.NonMembershipIff | ibc-solidity/contracts/light-clients/attestation/AttestationLightClient.sol:170-206 | non-membership returns the block time if and only if the first entry for the path is 32 zero bytes |
| Attestation.RecordsAreFinal | ibc-solidity/contracts/light-clients/attestation/AttestationLightClient.sol:94-212 | the same between any two moments of a deployed client's life; once frozen no call of any kind succeeds |
| Attestation.SignersCount | ibc-solidity/contracts/light-clients/attestation/AttestationLightClient.sol:227-246 | an accepted signature list names as many registered attestors as it has signatures, at least the threshold |
| Attestation.MajorityIffQuorumsMeet | ibc-solidity/contracts/light-clients/attestation/AttestationLightClient.sol:49-53 | any two quorums share a member if and only if the threshold is a majority |
| Attestation.RecordedByUpdate | ibc-solidity/contracts/light-clients/attestation/AttestationLightClient.sol:94-127 | a recorded time not given at deployment was signed by a quorum in some call of the run |
| Attestation.CommonSigner | ibc-solidity/contracts/light-clients/attestation/AttestationLightClient.sol:227-246 | two accepted proofs have a common registered signer when the threshold is a majority |
| Attestation.AcceptedIsRecorded | ibc-solidity/contracts/light-clients/attestation/AttestationLightClient.sol:94-127 | while the client is not frozen, every update accepted for a height attested the time recorded now |
| Attestation.MisbehaviourConvictsIff | ibc-solidity/contracts/light-clients/attestation/AttestationLightClient.sol:108-117 | for every run under a majority threshold, misbehaviour exhibits an attestor who signed two times for one height if and only if the disputed time was not given at deployment or an accepted update has confirmed it since |
| Attestation.DeploymentTimeConvictsNoOne | ibc-solidity/contracts/light-clients/attestation/AttestationLightClient.sol:42-76 | an input where the client freezes and nobody is convicted: the first attestation disputes the time given at deployment |
| Attestation.PresentAndAbsentConvicts | ibc-solidity/contracts/light-clients/attestation/AttestationLightClient.sol:130-206 | presence and absence of one record at one height need two different packet lists, with a common signer under a majority threshold |
| Attestation.PresentAndAbsent | ibc-solidity/contracts/light-clients/attestation/AttestationLightClient.sol:130-206 | an input where one signed list proves a record present and absent |
| Attestation.OneProofForBoth | ibc-solidity/contracts/light-clients/attestation/AttestationLightClient.sol:130-206 | one proof shows both if and only if the path is listed twice, first with zero |
| AttestationContract.AttestationLightClient.Deploy | ibc-solidity/contracts/light-clients/attestation/AttestationLightClient.sol:42-76 | the constructor's loop rejects exactly empty, badly thresholded or duplicated committees |
| AttestationContract.AttestationLightClient.VerifySignature | ibc-solidity/contracts/light-clients/attestation/AttestationLightClient.sol:253-261 | a signature of 65 bytes that recovers to a registered attestor, or an error |
| AttestationContract.AttestationLightClient.VerifySignaturesThreshold | ibc-solidity/contracts/light-clients/attestation/AttestationLightClient.sol:227-246 | the nested loop over the seen array accepts if and only if all signatures are by pairwise distinct registered attestors, at least the threshold |
| AttestationContract.AttestationLightClient.Update | ibc-solidity/contracts/light-clients/attestation/AttestationLightClient.sol:94-127 | the storage-level update is that of the run model |
| AttestationContract.AttestationLightClient.CheckProof | ibc-solidity/contracts/light-clients/attestation/AttestationLightClient.sol:137-157 | the checks common to both proofs |
| AttestationContract.AttestationLightClient.Member | ibc-solidity/contracts/light-clients/attestation/AttestationLightClient.sol:130-167 | the scan finds the record if and only if it is listed |
| AttestationContract.AttestationLightClient.NonMember | ibc-solidity/contracts/light-clients/attestation/AttestationLightClient.sol:170-206 | the scan accepts if and only if the first entry for the path is zero |
| Trust.QuorumIsTruthful | ibc-solidity/contracts/light-clients/attestation/AttestationLightClient.sol:227-246 | with fewer liars than the threshold, accepted data is true of the chain |
| Trust.HonestRecords | ibc-solidity/contracts/light-clients/attestation/AttestationLightClient.sol:130-206 | what an honest attestor may sign: a record if and only if it is stored, zero if and only if nothing is |
| Trust.MisdirectedIsRejected | ibc-solidity/contracts/light-clients/attestation/AttestationLightClient.sol:227-261 | an attestation replayed from another chain is rejected unless one of this committee signed it, and counts against nobody |
| Trust.SharedKeyMisleads | ibc-solidity/contracts/light-clients/attestation/AttestationLightClient.sol:94-127 | a key in two committees makes the second client record what is true of the first chain only, since attestations do not name their chain |
| Trust.MemberIsTrue | ibc-solidity/contracts/light-clients/attestation/AttestationLightClient.sol:130-167 | an accepted membership proof shows a record that is in that block |
| Trust.AbsentIsTrue | ibc-solidity/contracts/light-clients/attestation/AttestationLightClient.sol:170-206 | an accepted non-membership proof returns the time of a block that lacks the record |
| Trust.StepRefines | ibc-solidity/contracts/ICS26Router.sol:135-299 | each step checked by an attestation client is a step of the ideal system or changes no chain |
| Trust.AttestedRunRefines | ibc-solidity/contracts/ICS26Router.sol:99-299 | every run watched by attestors ends in a world some ideal run ends in |
| Trust.AttestedExactlyOnce | ibc-solidity/contracts/ICS26Router.sol:99-299 | exactly-once delivery with attestation clients |
| TrustedTransfers.TransfersRefine | ibc-solidity/contracts/ICS20Transfer.sol:153-440 | every run of the token network watched by attestors is a run of the ideal network |
| TrustedTransfers.AttestedConserved | ibc-solidity/contracts/ICS20Transfer.sol:153-440 | conservation with attestation clients |
| Accounts.RunKeeps | ibc-solidity/contracts/ICS27GMP.sol:208-223 | the two account maps stay inverse to each other and agree with CREATE2, without assuming CREATE2 free of collisions |
| Accounts.AddressNeverChanges | ibc-solidity/contracts/ICS27GMP.sol:226-241 | an identifier has one address at all moments of all runs, before and after creation: its CREATE2 address |
| Accounts.CreatedIsFound | ibc-solidity/contracts/ICS27GMP.sol:97-103 | a created account is found under its identifier before and after, by address as the look-up's own guard on the client id says, and every older account as before |
| Accounts.PacketActsForItsSender | ibc-solidity/contracts/ICS27GMP.sol:134-171 | in every run which packets are accepted, that each acts through the account of its own client, sender and salt, calling its receiver with its payload, and that no other account changes |
| Accounts.AccountsFromPackets | ibc-solidity/contracts/ICS27GMP.sol:134-223 | every account is that of the client, sender and salt of a delivered packet |
| Accounts.AccountsAreFound | ibc-solidity/contracts/ICS27GMP.sol:97-241 | over every run of packets through registered clients, each account ever created is found by identifier, and its identifier by address |
| Accounts.ICS27GMP.GetOrCreateAccount | ibc-solidity/contracts/ICS27GMP.sol:208-223 | the storage-level creation is that of the run model |
| Accounts.ICS27GMP.OnRecvPacket | ibc-solidity/contracts/ICS27GMP.sol:134-171 | a packet leaves an account and a call behind only if its payload is admissible, its receiver parses and its call succeeds; otherwise nothing remains |
| FanIn.EverySchedule | e2e/interchaintestv8/e2esuite/parallel.go:48-66 | in every interleaving no sender blocks, something can happen until the collector returns, and it returns exactly when all results were received once |
| FanIn.EventsRunOut | e2e/interchaintestv8/e2esuite/parallel.go:48-66 | in any schedule at most 2n events happen, and the collector has returned if and only if 2n have |
| FanIn.EveryOrderHappens | e2e/interchaintestv8/e2esuite/parallel.go:48-66 | every order of arrival is the outcome of some schedule |
| ParallelTasks.RunParallelTasks | e2e/interchaintestv8/e2esuite/parallel.go:38-69 | an error if and only if some task failed, namely name and reason of the first failing result received |
| ParallelTasks.RunParallelTasksWithResults | e2e/interchaintestv8/e2esuite/parallel.go:95-135 | a map if and only if no task failed, otherwise name and reason of the first failure received |
| ParallelTasks.LastArrivalWins | e2e/interchaintestv8/e2esuite/parallel.go:117-134 | under each name the map holds what arrived last |
| ParallelTasks.SameForAllIffAgree | e2e/interchaintestv8/e2esuite/parallel.go:117-134 | without failures all schedules give one map if and only if tasks that share a name agree |
| ParallelTasks.EveryScheduleGathers | e2e/interchaintestv8/e2esuite/parallel.go:95-135 | with distinct names every schedule's map takes each name to its task's value and has no other entry |
| ParallelTasks.EveryScheduleReports | e2e/interchaintestv8/e2esuite/parallel.go:95-135 | if some task failed, every schedule has a first failing result to report |
| AttestorSetup.CollectResults | e2e/interchaintestv8/attestor/setup.go:88-136 | whatever the order of arrival, slot i holds what goroutine i started; the errors are those reported, in the order they arrived |
| AttestorSetup.ErrorsMean | e2e/interchaintestv8/attestor/setup.go:88-136 | the errors are those of the goroutines that failed or panicked, under their own index |
| AttestorSetup.CleanUp | e2e/interchaintestv8/attestor/setup.go:138-146 | every started container is cleaned up, in index order |
| AttestorSetup.SetupAttestors | e2e/interchaintestv8/attestor/setup.go:80-163 | index-ordered lists and registered cleanups if all started, otherwise failure with the started ones cleaned up now |
| AttestorSetup.StartedOnesCount | e2e/interchaintestv8/attestor/setup.go:138-146 | a container is cleaned up exactly as often as it was reported |
| EventIterator.SelfCalls | packages/go-abigen/attestation/contract.go:679-716 | a call of Next calls itself at most once |
| EventIterator.NextOnce | packages/go-abigen/attestation/contract.go:679-716 | what Next does, as an equation without its self-call |
| EventIterator.Iterator.TakeLog | packages/go-abigen/attestation/contract.go:687-694 | consumes one log into a new event, and fails for good if that does not unpack |
| EventIterator.Iterator.Advance | packages/go-abigen/attestation/contract.go:679-716 | the object's Next is the specified one, with a measure that allows one self-call |
| EventIterator.EverySchedule | packages/go-abigen/attestation/contract.go:679-716 | in every schedule an in-order prefix of the logs, all queued ones after a clean end if they unpack, and no more once it returned false |
| CallResult.ReadString | e2e/interchaintestv8/solana/ibc.go:74-87 | succeeds if and only if a whole length-prefixed string is there, and stops right after it |
| CallResult.ReadHead | e2e/interchaintestv8/solana/ibc.go:91-110 | version, sender and sequence, with what follows left untouched |
| CallResult.ReadTail | e2e/interchaintestv8/solana/ibc.go:125-157 | status, optional commitment, timestamp and bump, for every status byte |
| CallResult.EncodeUnique | e2e/interchaintestv8/solana/ibc.go:66-158 | no data begins with the encodings of two different accounts |
| CallResult.EncodeLayout | e2e/interchaintestv8/solana/ibc.go:66-158 | order, width and byte order of the fields |
| CallResult.Decode | e2e/interchaintestv8/solana/ibc.go:66-158 | never reads out of bounds; succeeds if and only if the data after the discriminator begins with an account's encoding, and returns that account |
| KeyPaths.Base64RoundTrip | e2e/interchaintestv8/operator/operator.go:252 | base64 decodes to what was encoded, for every length modulo three |
| KeyPaths.Alphabet | e2e/interchaintestv8/operator/operator.go:252 | the letters are those of table 1 of RFC 4648 |
| KeyPaths.GroupValue | e2e/interchaintestv8/operator/operator.go:252 | four letters hold the 24 bits of three bytes, most significant first |
| KeyPaths.LastGroup | e2e/interchaintestv8/operator/operator.go:252 | a short last group is padded as section 4 of RFC 4648 asks |
| KeyPaths.ToBase64KeyPaths | e2e/interchaintestv8/operator/operator.go:246-255 | prints if and only if every path has two elements |
| KeyPaths.PathIsSpelled | e2e/interchaintestv8/operator/operator.go:246-255 | a path is printed as its two encoded elements and the separator |
| KeyPaths.JoinIsSpelled | e2e/interchaintestv8/operator/operator.go:254 | paths are joined by their separator |
| KeyPaths.PathsRoundTrip | e2e/interchaintestv8/operator/operator.go:246-255 | splitting and decoding the print gives the list back |
| KeyPaths.PrintingIsInjective | e2e/interchaintestv8/operator/operator.go:246-255 | different lists print differently |
| AccountKeys.PutUint32 | e2e/interchaintestv8/solana/pda_gmp.go:24-26 | the reused buffer holds exactly the new length |
| AccountKeys.GmpAccountKey | e2e/interchaintestv8/solana/pda_gmp.go:21-37 | reusing the length buffer does not mix up the parts |
| AccountKeys.AppendLengthPrefixed | tools/compute-ift-addresses/main.go:84-90 | appends one framed part |
| AccountKeys.BuildKey | tools/compute-ift-addresses/main.go:72-82 | the key has exactly the reserved size |
| AccountKeys.SolanaKeyInjective | e2e/interchaintestv8/solana/pda_gmp.go:21-37 | different identifiers have different preimages while lengths fit 32 bits |
| AccountKeys.SolanaKeyLayout | e2e/interchaintestv8/solana/pda_gmp.go:21-37 | client, sender and salt lie in this order behind their 32-bit little-endian lengths |
| AccountKeys.CosmosKeyInjective | tools/compute-ift-addresses/main.go:72-90 | different identifiers have different preimages while lengths fit 64 bits |
| AccountKeys.CosmosKeyLayout | tools/compute-ift-addresses/main.go:72-90 | client, sender and salt lie in this order behind their 64-bit lengths |
| AccountKeys.LongKeysCollide | e2e/interchaintestv8/solana/pda_gmp.go:24-37 | a collision when a length does not fit |
| AccountKeys.InjectiveIffLengthsFit | e2e/interchaintestv8/solana/pda_gmp.go:21-37 | the preimage is injective on parts below a length bound if and only if the bound is at most 2^32 |
| Seeds.SameFamily | e2e/interchaintestv8/solana/pda.go:227-313 | seeds of different families never share a preimage |
| Seeds.PreimageLayout | e2e/interchaintestv8/solana/pda.go:227-313 | each family is its name, then client, port and sequence where it has them |
| Seeds.PreimageInjective | e2e/interchaintestv8/solana/pda.go:227-313 | a preimage determines family, client, port and sequence |
| Seeds.CallResultInjective | e2e/interchaintestv8/solana/ibc.go:20-31 | a call-result preimage is name, client and little-endian sequence, and determines client and sequence |
| TestMatrix.ExtractSuiteAndTestNames | scripts/go-test-matrix/main.go:158-186 | one entry point exactly, with all suite tests in order, or which of the two errors |
| TestMatrix.RecognisesSuites | scripts/go-test-matrix/main.go:188-276 | which functions start a suite and which are suite tests |
| TestMatrix.TestsAre | scripts/go-test-matrix/main.go:158-186 | the tests of a file are its suite tests that do not start a suite |
| TestMatrix.WalkFiles | scripts/go-test-matrix/main.go:79-119 | fails if and only if some entry is fatal; otherwise each selected suite has the tests of the last file that declares it |
| TestMatrix.ListPairs | scripts/go-test-matrix/main.go:125-138 | in any iteration order, every test not excluded with its multiplicity |
| TestMatrix.SortedUnique | scripts/go-test-matrix/main.go:144-152 | the order admits one sorted arrangement |
| TestMatrix.SortedMeans | scripts/go-test-matrix/main.go:144-152 | the list is in dictionary order of entry point, then test |
| TestMatrix.GetMatrix | scripts/go-test-matrix/main.go:79-155 | the sorted list with exact multiplicities, or the errors: a fatal entry or no test |
| TestMatrix.ListedMeans | scripts/go-test-matrix/main.go:79-155 | a test is listed if and only if the last test file that declares its suite has it, and neither is excluded nor another suite asked for |
| TestMatrix.MatrixIsUnique | scripts/go-test-matrix/main.go:79-155 | the result depends on the directory contents only |

## Left out

- Proxies, beacons, upgrades, initialisers, reentrancy guards and access-manager roles of the contracts; where a role decides an outcome it is an `authorized` parameter.
- Rate limits and pausing: whether a call is admitted is a free parameter of the step, so the theorems hold for every policy.
- Permit2 sends, multicall, sender callbacks, token metadata and custom ERC20s registered by an administrator; tokens other than vouchers are honest ERC20s of which nobody can burn what an escrow holds.
- Client migration is modelled in `Clients` only; the network theorems take links between clients as fixed and mutual.
- Packets with several payloads: the router rejects them.
- Merkle prefixes on proof paths: taken as empty, which the attestation client requires.
- Event emission and the text of error messages beyond the error's name.
- ECDSA, SHA-256, keccak256, CREATE2 and program-address bump search: parameters or preimages as described above.
- ABI encoding of packet data is taken as injective; ABI decoding of attestations is a parameter.
- The other light clients (SP1 ICS07 Tendermint, Besu), the Solana and CosmWasm programs, the relayer, prover and attestor services.
- Health checks and stabilisation waits after attestor start-up.
- Trust.AttestedRunRefines: assumes that no other record stored in the counterparty's blocks has the hash of the record being proved, that no other path stored there has the keccak256 of its path, and that deployments give true block times. Honesty is per client: a key in the committees of two chains counts as dishonest towards a client where what it signed is false. Nothing is said about liveness of frozen clients.
- Trust.MemberIsTrue: the same assumptions.
- Trust.StepRefines: the same assumptions.
- Trust.AttestedExactlyOnce: the same assumptions.
- TrustedTransfers.TransfersRefine: the same assumptions.
- TrustedTransfers.AttestedConserved: the same assumptions.
- PacketSafety.ExactlyOnce: packets over clients outside the links are not in the world; their records have paths of their own. `Conservation` lets such clients deliver and refund anything.
- ParallelTasks.RunParallelTasks: the collector takes the order of arrival as a parameter; `FanIn` proves which orders happen, but goroutines are not run inside the method.
- TestMatrix.Sort: stands for the standard library's sort, of which only sortedness and permutation are used.
- Seeds: the program-data seed, which is a fixed 32-byte key of another program.
- EventIterator.EverySchedule: the node queues no log after it has ended the subscription; that a clean stop is for good rests on this.
