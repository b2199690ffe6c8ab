/** The ICS26 router and its provable store, as functions on values. A commitment hash is represented by the
    data it commits to, so two commitments are equal exactly when their preimages are. */
module Router {
  import opened Bytes
  import opened Host

  /** ICS-20 packet data. ABI encoding is taken as injective, so the decoded value stands for its encoding. */
  datatype TransferData = TransferData(denom: bytes, sender: bytes, receiver: bytes, amount: uint256, memo: bytes)

  datatype AppData = Transfer(data: TransferData) | Opaque(raw: bytes)

  datatype Payload = Payload(sourcePort: bytes, destPort: bytes, version: bytes, encoding: bytes, value: AppData)

  datatype Packet = Packet(
    sequence: uint64, sourceClient: bytes, destClient: bytes, timeout: nat, payloads: seq<Payload>)

  datatype Commitment =
    | PacketCommit(destClient: bytes, timeout: nat, payloads: seq<Payload>)
    | ReceiptCommit(packet: Packet)
    | AckCommit(acks: seq<bytes>)

  type Store = map<bytes, Commitment>

  datatype RouterState = RouterState(store: Store, sent: map<bytes, nat>)

  /** What the destination application did with a packet. */
  datatype AppResult = NoApp | Returned(ack: bytes) | Reverted(reason: bytes)

  const MAX_TIMEOUT_DURATION: nat := 86400

  /** sha256("UNIVERSAL_ERROR_ACKNOWLEDGEMENT") */
  const UNIVERSAL_ERROR_ACK: bytes := [
    0x47, 0x74, 0xd4, 0xa5, 0x75, 0x99, 0x3f, 0x96, 0x3b, 0x1c, 0x06, 0x57, 0x37, 0x36, 0x61, 0x7a,
    0x45, 0x7a, 0xbe, 0xf8, 0x58, 0x91, 0x78, 0xdb, 0x8d, 0x10, 0xc9, 0x4b, 0x4a, 0xb5, 0x11, 0xab]

  const SOLIDITY_ABI := Ascii("application/x-solidity-abi")

  // The sequence and the source client of a packet are in the path, everything else in the commitment.

  function PacketPath(p: Packet): bytes {
    Path(p.sourceClient, PACKET_KIND, p.sequence)
  }

  function ReceiptPath(p: Packet): bytes {
    Path(p.destClient, RECEIPT_KIND, p.sequence)
  }

  function AckPath(p: Packet): bytes {
    Path(p.destClient, ACK_KIND, p.sequence)
  }

  function CommitmentOf(p: Packet): Commitment {
    PacketCommit(p.destClient, p.timeout, p.payloads)
  }

  function PrevSequence(r: RouterState, client: bytes): nat {
    if client in r.sent then r.sent[client] else 0
  }

  // The store

  function CommitPacket(store: Store, p: Packet): Result<Store> {
    if PacketPath(p) in store then Err("IBCPacketCommitmentAlreadyExists")
    else Ok(store[PacketPath(p) := CommitmentOf(p)])
  }

  /** The boolean is false, and nothing is deleted, when the commitment is already gone. */
  function CheckAndDeleteCommitment(store: Store, p: Packet): Result<(Store, bool)> {
    if PacketPath(p) !in store then Ok((store, false))
    else if store[PacketPath(p)] != CommitmentOf(p) then Err("IBCPacketCommitmentMismatch")
    else Ok((store - {PacketPath(p)}, true))
  }

  /** The boolean is false when this very receipt is already set. */
  function SetReceipt(store: Store, p: Packet): Result<(Store, bool)> {
    if ReceiptPath(p) in store then
      if store[ReceiptPath(p)] == ReceiptCommit(p) then Ok((store, false)) else Err("IBCPacketReceiptMismatch")
    else Ok((store[ReceiptPath(p) := ReceiptCommit(p)], true))
  }

  function CommitAck(store: Store, p: Packet, acks: seq<bytes>): Result<Store> {
    if AckPath(p) in store then Err("IBCPacketAcknowledgementAlreadyExists")
    else if acks == [] then Err("NoAcknowledgements")
    else Ok(store[AckPath(p) := AckCommit(acks)])
  }

  // The router. `counterparty` is the registered counterparty of the local client, if any.

  function SendPacket(
    r: RouterState, counterparty: Option<bytes>, callerPort: bytes,
    client: bytes, timeout: nat, payload: Payload, now: nat): Result<(RouterState, Packet)>
  {
    if callerPort != payload.sourcePort then Err("IBCUnauthorizedSender")
    else if counterparty.None? || counterparty.value == [] then Err("IBCCounterpartyClientNotFound")
    else if timeout <= now then Err("IBCInvalidTimeoutTimestamp")
    else if timeout - now > MAX_TIMEOUT_DURATION then Err("IBCInvalidTimeoutDuration")
    else if PrevSequence(r, client) + 1 >= TWO_64 then Err("arithmetic overflow")
    else
      var sequence: uint64 := PrevSequence(r, client) + 1;
      var packet := Packet(sequence, client, counterparty.value, timeout, [payload]);
      match CommitPacket(r.store, packet)
      case Err(e) => Err(e)
      case Ok(store) => Ok((RouterState(store, r.sent[client := sequence]), packet))
  }

  function AckFor(app: AppResult): Result<bytes> {
    match app
    case NoApp => Err("IBCAppNotFound")
    case Returned(ack) =>
      if ack == [] then Err("IBCAsyncAcknowledgementNotSupported")
      else if ack == UNIVERSAL_ERROR_ACK then Err("IBCErrorUniversalAcknowledgement")
      else Ok(ack)
    case Reverted(reason) =>
      if reason == [] then Err("IBCFailedCallback") else Ok(UNIVERSAL_ERROR_ACK)
  }

  /** The acknowledgement written, or `None` when the packet had been received before. */
  function RecvPacket(
    r: RouterState, counterparty: Option<bytes>, packet: Packet, now: nat, proven: bool,
    app: AppResult): Result<(RouterState, Option<bytes>)>
  {
    if |packet.payloads| != 1 then Err("IBCMultiPayloadPacketNotSupported")
    else if counterparty.None? || counterparty.value == [] then Err("IBCCounterpartyClientNotFound")
    else if counterparty.value != packet.sourceClient then Err("IBCInvalidCounterparty")
    else if packet.timeout <= now then Err("IBCInvalidTimeoutTimestamp")
    else if !proven then Err("light client rejected the membership proof")
    else match SetReceipt(r.store, packet)
      case Err(e) => Err(e)
      case Ok((store, isNew)) =>
        if !isNew then Ok((r, None))
        else match AckFor(app)
          case Err(e) => Err(e)
          case Ok(ack) =>
            match CommitAck(store, packet, [ack])
            case Err(e) => Err(e)
            case Ok(acked) => Ok((r.(store := acked), Some(ack)))
  }

  /** The boolean tells whether the sending application was called back. */
  function AckPacket(
    r: RouterState, counterparty: Option<bytes>, packet: Packet, proven: bool,
    callbackOk: bool): Result<(RouterState, bool)>
  {
    if |packet.payloads| != 1 then Err("IBCMultiPayloadPacketNotSupported")
    else if counterparty.None? || counterparty.value == [] then Err("IBCCounterpartyClientNotFound")
    else if counterparty.value != packet.destClient then Err("IBCInvalidCounterparty")
    else if !proven then Err("light client rejected the membership proof")
    else CloseCommitment(r, packet, callbackOk)
  }

  /** `proofTime` is the counterparty time the light client returned with its non-membership proof. */
  function TimeoutPacket(
    r: RouterState, counterparty: Option<bytes>, packet: Packet, proofTime: Option<nat>,
    callbackOk: bool): Result<(RouterState, bool)>
  {
    if |packet.payloads| != 1 then Err("IBCMultiPayloadPacketNotSupported")
    else if counterparty.None? || counterparty.value == [] then Err("IBCCounterpartyClientNotFound")
    else if counterparty.value != packet.destClient then Err("IBCInvalidCounterparty")
    else if proofTime.None? then Err("light client rejected the non-membership proof")
    else if proofTime.value < packet.timeout then Err("IBCInvalidTimeoutTimestamp")
    else CloseCommitment(r, packet, callbackOk)
  }

  function CloseCommitment(r: RouterState, packet: Packet, callbackOk: bool): Result<(RouterState, bool)> {
    match CheckAndDeleteCommitment(r.store, packet)
    case Err(e) => Err(e)
    case Ok((store, found)) =>
      if !found then Ok((r, false))
      else if !callbackOk then Err("the application callback reverted")
      else Ok((r.(store := store), true))
  }


  // What the calls promise, without how they go about it

  /** Where the three records of a packet are kept. */
  lemma RecordPaths(p: Packet)
    ensures PacketPath(p) == p.sourceClient + [1] + BigEndian(p.sequence, 8)
    ensures ReceiptPath(p) == p.destClient + [2] + BigEndian(p.sequence, 8)
    ensures AckPath(p) == p.destClient + [3] + BigEndian(p.sequence, 8)
  {
  }

  /** `ack` is the answer to what the application did: its own acknowledgement, or the universal one if it reverted. An
      application that is missing, returns nothing or the universal acknowledgement, or runs out of gas has no
      answer. */
  predicate Answers(app: AppResult, ack: bytes) {
    || (app.Returned? && ack == app.ack && ack != [] && ack != UNIVERSAL_ERROR_ACK)
    || (app.Reverted? && app.reason != [] && ack == UNIVERSAL_ERROR_ACK)
  }

  /** A send is accepted exactly from the port's owner, over a client with a counterparty, with a timeout after now and
      at most a day away; it commits to the packet under the next sequence and changes nothing else. */
  lemma SendIff(
    r: RouterState, counterparty: Option<bytes>, callerPort: bytes, client: bytes, timeout: nat, payload: Payload,
    now: nat)
    ensures var next := PrevSequence(r, client) + 1;
      SendPacket(r, counterparty, callerPort, client, timeout, payload, now).Ok? <==>
        && callerPort == payload.sourcePort && counterparty.Some? && counterparty.value != []
        && now < timeout <= now + 86400 && next < TWO_64 && client + [1] + BigEndian(next, 8) !in r.store
    ensures var outcome := SendPacket(r, counterparty, callerPort, client, timeout, payload, now);
      outcome.Ok? ==>
        var (r', p) := outcome.value;
        && p.sequence == PrevSequence(r, client) + 1 && p.sourceClient == client && p.destClient == counterparty.value
        && p.timeout == timeout && p.payloads == [payload]
        && r'.store == r.store[PacketPath(p) := PacketCommit(p.destClient, timeout, [payload])]
        && r'.sent == r.sent[client := p.sequence]
  {
  }

  /** A receive is accepted exactly from the registered counterparty, before the timeout, with a proof, and either for a
      packet whose very receipt is there, which changes nothing, or for a new packet with an answer to commit to. */
  lemma RecvIff(
    r: RouterState, counterparty: Option<bytes>, p: Packet, now: nat, proven: bool, app: AppResult)
    ensures RecvPacket(r, counterparty, p, now, proven, app).Ok? <==>
      && |p.payloads| == 1 && counterparty == Some(p.sourceClient) && p.sourceClient != [] && now < p.timeout && proven
      && if ReceiptPath(p) in r.store then r.store[ReceiptPath(p)] == ReceiptCommit(p)
         else AckPath(p) !in r.store && exists ack :: Answers(app, ack)
    ensures var outcome := RecvPacket(r, counterparty, p, now, proven, app);
      outcome.Ok? ==>
        match outcome.value
        case (r', None) => ReceiptPath(p) in r.store && r' == r
        case (r', Some(ack)) =>
          && ReceiptPath(p) !in r.store && Answers(app, ack)
          && r' == r.(store := r.store[ReceiptPath(p) := ReceiptCommit(p)][AckPath(p) := AckCommit([ack])])
  {
    ReceiptIsNotAck(p);
    match app
    case Returned(ack) => assert AckFor(app).Ok? ==> Answers(app, ack);
    case Reverted(_) => assert AckFor(app).Ok? ==> Answers(app, UNIVERSAL_ERROR_ACK);
    case NoApp =>
  }

  lemma ReceiptIsNotAck(p: Packet)
    ensures ReceiptPath(p) != AckPath(p)
  {
    PathReadsBack(p.destClient, RECEIPT_KIND, p.sequence);
    PathReadsBack(p.destClient, ACK_KIND, p.sequence);
  }

  /** What both ways of closing a packet promise: it is closed exactly if its own commitment is there. */
  ghost predicate ClosesIt(r: RouterState, p: Packet, outcome: Result<(RouterState, bool)>) {
    outcome.Ok? ==>
      var (r', called) := outcome.value;
      (called <==> PacketPath(p) in r.store) && r' == r.(store := r.store - {PacketPath(p)})
  }

  predicate CanClose(r: RouterState, p: Packet, callbackOk: bool) {
    PacketPath(p) in r.store ==>
      r.store[PacketPath(p)] == PacketCommit(p.destClient, p.timeout, p.payloads) && callbackOk
  }

  lemma AckIff(r: RouterState, counterparty: Option<bytes>, p: Packet, proven: bool, callbackOk: bool)
    ensures AckPacket(r, counterparty, p, proven, callbackOk).Ok? <==>
      && |p.payloads| == 1 && counterparty == Some(p.destClient) && p.destClient != [] && proven
      && CanClose(r, p, callbackOk)
    ensures ClosesIt(r, p, AckPacket(r, counterparty, p, proven, callbackOk))
  {
    assert PacketPath(p) !in r.store ==> r.store - {PacketPath(p)} == r.store;
  }

  lemma TimeoutIff(r: RouterState, counterparty: Option<bytes>, p: Packet, proofTime: Option<nat>, callbackOk: bool)
    ensures TimeoutPacket(r, counterparty, p, proofTime, callbackOk).Ok? <==>
      && |p.payloads| == 1 && counterparty == Some(p.destClient) && p.destClient != []
      && proofTime.Some? && p.timeout <= proofTime.value && CanClose(r, p, callbackOk)
    ensures ClosesIt(r, p, TimeoutPacket(r, counterparty, p, proofTime, callbackOk))
  {
    assert PacketPath(p) !in r.store ==> r.store - {PacketPath(p)} == r.store;
  }
}
