/** The ICS26 router as the contract it is: storage updated step by step, rolled back when a call reverts. Every call is
    proved to do what the functions of module Router say. */
module RouterContract {
  import opened Bytes
  import opened Host
  import opened Router

  class ICS26Router {
    var commitments: Store
    var prevSequenceSends: map<bytes, nat>

    constructor ()
      ensures Value() == RouterState(map[], map[])
    {
      commitments, prevSequenceSends := map[], map[];
    }

    function Value(): RouterState
      reads this
    {
      RouterState(commitments, prevSequenceSends)
    }

    method CommitNewPacket(packet: Packet) returns (ok: bool)
      modifies this`commitments
      ensures ok == CommitPacket(old(commitments), packet).Ok?
      ensures commitments == if ok then CommitPacket(old(commitments), packet).value else old(commitments)
    {
      var path := Path(packet.sourceClient, PACKET_KIND, packet.sequence);
      if path in commitments { return false; }
      commitments := commitments[path := PacketCommit(packet.destClient, packet.timeout, packet.payloads)];
      return true;
    }

    method CheckAndDeletePacketCommitment(packet: Packet) returns (ok: bool, found: bool)
      modifies this`commitments
      ensures var spec := CheckAndDeleteCommitment(old(commitments), packet);
        ok == spec.Ok? && if ok then (commitments, found) == spec.value else commitments == old(commitments)
    {
      var path := Path(packet.sourceClient, PACKET_KIND, packet.sequence);
      if path !in commitments { return true, false; }
      if commitments[path] != PacketCommit(packet.destClient, packet.timeout, packet.payloads) { return false, false; }
      commitments := commitments - {path};
      return true, true;
    }

    method SetPacketReceipt(packet: Packet) returns (ok: bool, isNew: bool)
      modifies this`commitments
      ensures var spec := SetReceipt(old(commitments), packet);
        ok == spec.Ok? && if ok then (commitments, isNew) == spec.value else commitments == old(commitments)
    {
      var path := Path(packet.destClient, RECEIPT_KIND, packet.sequence);
      if path in commitments {
        return commitments[path] == ReceiptCommit(packet), false;
      }
      commitments := commitments[path := ReceiptCommit(packet)];
      return true, true;
    }

    method CommitPacketAcknowledgement(packet: Packet, ack: bytes) returns (ok: bool)
      modifies this`commitments
      ensures ok == CommitAck(old(commitments), packet, [ack]).Ok?
      ensures commitments == if ok then CommitAck(old(commitments), packet, [ack]).value else old(commitments)
    {
      var path := Path(packet.destClient, ACK_KIND, packet.sequence);
      if path in commitments { return false; }
      commitments := commitments[path := AckCommit([ack])];
      return true;
    }

    method Send(
      counterparty: Option<bytes>, callerPort: bytes, client: bytes, timeout: nat, payload: Payload, now: nat)
      returns (packet: Option<Packet>)
      modifies this
      ensures match SendPacket(old(Value()), counterparty, callerPort, client, timeout, payload, now)
        case Ok((r, p)) => Value() == r && packet == Some(p)
        case Err(_) => Value() == old(Value()) && packet == None
    {
      if callerPort != payload.sourcePort { return None; }
      if counterparty.None? || counterparty.value == [] { return None; }
      if timeout <= now || timeout - now > MAX_TIMEOUT_DURATION { return None; }
      var previous := if client in prevSequenceSends then prevSequenceSends[client] else 0;
      if previous + 1 >= TWO_64 { return None; }
      var sequence: uint64 := previous + 1;
      var snapshot := prevSequenceSends;
      prevSequenceSends := prevSequenceSends[client := sequence];
      var p := Packet(sequence, client, counterparty.value, timeout, [payload]);
      var ok := CommitNewPacket(p);
      if !ok {
        prevSequenceSends := snapshot;
        return None;
      }
      return Some(p);
    }

    /** `ok` is false when the call reverts; `ack` is what was written, `None` for a packet received before. */
    method Recv(counterparty: Option<bytes>, packet: Packet, now: nat, proven: bool, app: AppResult)
      returns (ok: bool, ack: Option<bytes>)
      modifies this
      ensures match RecvPacket(old(Value()), counterparty, packet, now, proven, app)
        case Ok((r, a)) => ok && Value() == r && ack == a
        case Err(_) => !ok && Value() == old(Value())
    {
      ok, ack := false, None;
      if |packet.payloads| != 1 { return; }
      if counterparty.None? || counterparty.value == [] || counterparty.value != packet.sourceClient { return; }
      if packet.timeout <= now || !proven { return; }
      var snapshot, isNew := commitments, false;
      ok, isNew := SetPacketReceipt(packet);
      if !ok || !isNew { return; }
      var written := AckFor(app);
      if written.Ok? {
        ok := CommitPacketAcknowledgement(packet, written.value);
        ack := Some(written.value);
      }
      if written.Err? || !ok {
        ok, commitments := false, snapshot;
      }
    }

    method Close(packet: Packet, callbackOk: bool) returns (ok: bool, called: bool)
      modifies this
      ensures match CloseCommitment(old(Value()), packet, callbackOk)
        case Ok((r, c)) => ok && Value() == r && called == c
        case Err(_) => !ok && Value() == old(Value())
    {
      var snapshot := commitments;
      ok, called := CheckAndDeletePacketCommitment(packet);
      if ok && called && !callbackOk {
        ok, commitments := false, snapshot;
      }
    }

    method Acknowledge(counterparty: Option<bytes>, packet: Packet, proven: bool, callbackOk: bool)
      returns (ok: bool, called: bool)
      modifies this
      ensures match AckPacket(old(Value()), counterparty, packet, proven, callbackOk)
        case Ok((r, c)) => ok && Value() == r && called == c
        case Err(_) => !ok && Value() == old(Value())
    {
      if |packet.payloads| != 1 { return false, false; }
      if counterparty.None? || counterparty.value == [] ||
        counterparty.value != packet.destClient { return false, false; }
      if !proven { return false, false; }
      ok, called := Close(packet, callbackOk);
    }

    method TimeOut(counterparty: Option<bytes>, packet: Packet, proofTime: Option<nat>, callbackOk: bool)
      returns (ok: bool, called: bool)
      modifies this
      ensures match TimeoutPacket(old(Value()), counterparty, packet, proofTime, callbackOk)
        case Ok((r, c)) => ok && Value() == r && called == c
        case Err(_) => !ok && Value() == old(Value())
    {
      if |packet.payloads| != 1 { return false, false; }
      if counterparty.None? || counterparty.value == [] ||
        counterparty.value != packet.destClient { return false, false; }
      if proofTime.None? || proofTime.value < packet.timeout { return false, false; }
      ok, called := Close(packet, callbackOk);
    }
  }
}
