/** The attestation light client as the contract it is: loops over signatures and packet lists, storage written in
    place. Every call is proved to do what the functions of module Attestation say. */
module AttestationContract {
  import opened Bytes
  import opened Attestation

  class AttestationLightClient {
    const env: Env
    const attestorAddresses: seq<Address>
    const minRequiredSigs: nat
    const isAttestor: set<Address>
    var latestHeight: uint64
    var isFrozen: bool
    var consensusTimestampAtHeight: map<uint64, uint64>

    ghost predicate Valid() {
      isAttestor == Members(attestorAddresses) && minRequiredSigs > 0
    }

    ghost function Value(): Client
      reads this
    {
      Client(attestorAddresses, minRequiredSigs, latestHeight, isFrozen, consensusTimestampAtHeight)
    }

    constructor (
      env: Env, attestors: seq<Address>, isAttestor: set<Address>, minSigs: nat, height: uint64, timestamp: uint64)
      requires isAttestor == Members(attestors) && minSigs > 0
      ensures Valid() && this.env == env
      ensures Value() == Client(attestors, minSigs, height, false, map[height := timestamp])
    {
      this.env, attestorAddresses, this.isAttestor, minRequiredSigs := env, attestors, isAttestor, minSigs;
      latestHeight, isFrozen := height, false;
      consensusTimestampAtHeight := map[height := timestamp];
    }

    /** Deployment, `null` when it reverts. */
    static method Deploy(env: Env, attestors: seq<Address>, minSigs: nat, height: uint64, timestamp: uint64)
      returns (client: AttestationLightClient?)
      ensures client == null <==> NewClient(attestors, minSigs, height, timestamp).Err?
      ensures client != null ==>
        && fresh(client) && client.Valid() && client.env == env
        && client.Value() == NewClient(attestors, minSigs, height, timestamp).value
    {
      if attestors == [] { return null; }
      if minSigs == 0 || |attestors| <= minSigs - 1 { return null; }
      var registered: set<Address> := {};
      for i := 0 to |attestors|
        invariant registered == Members(attestors[..i])
        invariant Distinct(attestors[..i])
      {
        if attestors[i] in registered {
          return null;
        }
        registered := registered + {attestors[i]};
      }
      assert attestors[..|attestors|] == attestors;
      client := new AttestationLightClient(env, attestors, registered, minSigs, height, timestamp);
    }

    method VerifySignature(digest: Digest, signature: bytes) returns (r: Result<Address>)
      requires Valid()
      ensures r == Signer(env, attestorAddresses, digest, signature)
    {
      if |signature| != SIGNATURE_LENGTH { return Err("InvalidSignatureLength"); }
      var recovered := env.recover(digest, signature);
      if recovered.None? { return Err("ECDSAInvalidSignature"); }
      if recovered.value == 0 { return Err("SignatureInvalid"); }
      if recovered.value !in isAttestor { return Err("UnknownSigner"); }
      return Ok(recovered.value);
    }

    /** Accepts exactly the quorums. */
    method VerifySignaturesThreshold(digest: Digest, signatures: seq<bytes>) returns (ok: bool)
      requires Valid()
      ensures ok <==> Quorum(env, attestorAddresses, minRequiredSigs, digest, signatures)
    {
      if signatures == [] || |signatures| <= minRequiredSigs - 1 { return false; }
      var seen := new Address[|signatures|];
      for i := 0 to |signatures|
        invariant forall k :: 0 <= k < i ==> Signer(env, attestorAddresses, digest, signatures[k]) == Ok(seen[k])
        invariant forall k, l :: 0 <= k < l < i ==> seen[k] != seen[l]
      {
        var recovered := VerifySignature(digest, signatures[i]);
        if recovered.Err? { return false; }
        for j := 0 to i
          invariant forall k :: 0 <= k < j ==> seen[k] != recovered.value
        {
          if seen[j] == recovered.value { return false; }
        }
        seen[i] := recovered.value;
      }
      return true;
    }

    method Update(authorized: bool, proof: Proof) returns (result: Option<UpdateResult>)
      requires Valid()
      modifies this
      ensures match UpdateClient(env, old(Value()), authorized, proof)
        case Ok((c, r)) => Value() == c && result == Some(r)
        case Err(_) => Value() == old(Value()) && result == None
    {
      if isFrozen || !authorized { return None; }
      var ok := VerifySignaturesThreshold(Digest(STATE_TAG, proof.data), proof.signatures);
      if !ok { return None; }
      var state := env.state(proof.data);
      if state.None? || state.value.height == 0 || state.value.timestamp == 0 { return None; }
      var height, timestamp := state.value.height, state.value.timestamp;
      var existing := if height in consensusTimestampAtHeight then consensusTimestampAtHeight[height] else 0;
      if existing != 0 {
        if existing != timestamp {
          isFrozen := true;
          return Some(Misbehaviour);
        }
        return Some(NoOp);
      }
      if height > latestHeight {
        latestHeight := height;
      }
      consensusTimestampAtHeight := consensusTimestampAtHeight[height := timestamp];
      return Some(UpdateResult.Update);
    }

    /** The checks both proofs begin with. */
    method CheckProof(authorized: bool, path: seq<bytes>, height: uint64, proof: Proof)
      returns (packets: Option<seq<PacketCompact>>)
      requires Valid()
      ensures match AttestedPackets(env, Value(), authorized, path, height, proof)
        case Ok(list) => packets == Some(list)
        case Err(_) => packets == None
    {
      if isFrozen || !authorized || |path| != 1 { return None; }
      if height !in consensusTimestampAtHeight || consensusTimestampAtHeight[height] == 0 { return None; }
      var ok := VerifySignaturesThreshold(Digest(PACKET_TAG, proof.data), proof.signatures);
      if !ok { return None; }
      var attestation := env.packets(proof.data);
      if attestation.None? || attestation.value.height != height || attestation.value.packets == [] { return None; }
      return Some(attestation.value.packets);
    }

    method Member(authorized: bool, path: seq<bytes>, value: bytes, height: uint64, proof: Proof)
      returns (timestamp: Option<uint64>)
      requires Valid()
      ensures match VerifyMembership(env, Value(), authorized, path, value, height, proof)
        case Ok(t) => timestamp == Some(t)
        case Err(_) => timestamp == None
    {
      if |value| < 32 { return None; }
      var packets := CheckProof(authorized, path, height, proof);
      if packets.None? { return None; }
      var hash, commitment := env.keccak(path[0]), value[..32];
      for i := 0 to |packets.value|
        invariant PacketCompact(hash, commitment) !in packets.value[..i]
      {
        if packets.value[i].path == hash && packets.value[i].commitment == commitment {
          return Some(consensusTimestampAtHeight[height]);
        }
      }
      return None;
    }

    method NonMember(authorized: bool, path: seq<bytes>, height: uint64, proof: Proof)
      returns (timestamp: Option<uint64>)
      requires Valid()
      ensures match VerifyNonMembership(env, Value(), authorized, path, height, proof)
        case Ok(t) => timestamp == Some(t)
        case Err(_) => timestamp == None
    {
      var packets := CheckProof(authorized, path, height, proof);
      if packets.None? { return None; }
      var hash := env.keccak(path[0]);
      for i := 0 to |packets.value|
        invariant forall k :: 0 <= k < i ==> packets.value[k].path != hash
      {
        if packets.value[i].path == hash {
          if packets.value[i].commitment != ZERO { return None; }
          return Some(consensusTimestampAtHeight[height]);
        }
      }
      return None;
    }
  }
}
