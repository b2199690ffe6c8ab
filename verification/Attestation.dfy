/** The attestation light client: a fixed committee signs block times and packet records of the counterparty chain. */
module Attestation {
  import opened Bytes

  datatype StateAttestation = StateAttestation(height: uint64, timestamp: uint64)

  datatype PacketCompact = PacketCompact(path: bytes, commitment: bytes)

  datatype PacketAttestation = PacketAttestation(height: uint64, packets: seq<PacketCompact>)

  datatype Proof = Proof(data: bytes, signatures: seq<bytes>)

  /** sha256(tag || sha256(data)), represented by what is hashed. */
  datatype Digest = Digest(tag: byte, data: bytes)

  /** What the virtual machine supplies: signature recovery, ABI decoding (`None` reverts) and keccak256. */
  datatype Env = Env(
    recover: (Digest, bytes) -> Option<Address>,
    state: bytes -> Option<StateAttestation>,
    packets: bytes -> Option<PacketAttestation>,
    keccak: bytes -> bytes)

  datatype Client = Client(
    attestors: seq<Address>, minSigs: nat, latestHeight: uint64, frozen: bool, timestamps: map<uint64, uint64>)

  datatype UpdateResult = Update | Misbehaviour | NoOp

  const STATE_TAG: byte := 0x01
  const PACKET_TAG: byte := 0x02
  const SIGNATURE_LENGTH := 65
  const ZERO: bytes := seq(32, _ => 0)

  function TimestampAt(c: Client, height: uint64): uint64 {
    if height in c.timestamps then c.timestamps[height] else 0
  }

  ghost predicate Distinct<T(!new)>(s: seq<T>) {
    forall i, j :: 0 <= i < j < |s| ==> s[i] != s[j]
  }

  ghost function NewClient(attestors: seq<Address>, minSigs: nat, height: uint64, timestamp: uint64): Result<Client> {
    if attestors == [] then Err("NoAttestors")
    else if minSigs == 0 || |attestors| < minSigs then Err("BadQuorum")
    else if !Distinct(attestors) then Err("DuplicateSigner")
    else Ok(Client(attestors, minSigs, height, false, map[height := timestamp]))
  }

  function Signer(env: Env, attestors: seq<Address>, digest: Digest, signature: bytes): Result<Address> {
    if |signature| != SIGNATURE_LENGTH then Err("InvalidSignatureLength")
    else match env.recover(digest, signature)
      case None => Err("ECDSAInvalidSignature")
      case Some(a) =>
        if a == 0 then Err("SignatureInvalid") else if a !in attestors then Err("UnknownSigner") else Ok(a)
  }

  /** What the signature check promises: enough signatures, each by an attestor, no attestor twice. */
  ghost predicate Quorum(env: Env, attestors: seq<Address>, minSigs: nat, digest: Digest, signatures: seq<bytes>) {
    && signatures != [] && |signatures| >= minSigs
    && (forall i :: 0 <= i < |signatures| ==> Signer(env, attestors, digest, signatures[i]).Ok?)
    && (forall i, j :: 0 <= i < j < |signatures| ==>
          Signer(env, attestors, digest, signatures[i]) != Signer(env, attestors, digest, signatures[j]))
  }

  ghost predicate Accepts(env: Env, c: Client, tag: byte, proof: Proof) {
    Quorum(env, c.attestors, c.minSigs, Digest(tag, proof.data), proof.signatures)
  }

  ghost function UpdateClient(env: Env, c: Client, authorized: bool, proof: Proof): Result<(Client, UpdateResult)> {
    if c.frozen then Err("FrozenClientState")
    else if !authorized then Err("AccessControlUnauthorizedAccount")
    else if !Accepts(env, c, STATE_TAG, proof) then Err("signatures")
    else match env.state(proof.data)
      case None => Err("cannot decode")
      case Some(s) =>
        if s.height == 0 || s.timestamp == 0 then Err("InvalidState")
        else if TimestampAt(c, s.height) != 0 then
          if TimestampAt(c, s.height) != s.timestamp then Ok((c.(frozen := true), Misbehaviour)) else Ok((c, NoOp))
        else
          Ok((c.(timestamps := c.timestamps[s.height := s.timestamp],
                 latestHeight := if s.height > c.latestHeight then s.height else c.latestHeight), Update))
  }

  /** The packet list a proof puts forward for a height, once everything but its contents has been checked. */
  ghost function AttestedPackets(
    env: Env, c: Client, authorized: bool, path: seq<bytes>, height: uint64, proof: Proof): Result<seq<PacketCompact>>
  {
    if c.frozen then Err("FrozenClientState")
    else if !authorized then Err("AccessControlUnauthorizedAccount")
    else if |path| != 1 then Err("InvalidPathLength")
    else if TimestampAt(c, height) == 0 then Err("ConsensusTimestampNotFound")
    else if !Accepts(env, c, PACKET_TAG, proof) then Err("signatures")
    else match env.packets(proof.data)
      case None => Err("cannot decode")
      case Some(a) =>
        if a.height != height then Err("HeightMismatch")
        else if a.packets == [] then Err("EmptyPackets")
        else Ok(a.packets)
  }

  ghost function VerifyMembership(
    env: Env, c: Client, authorized: bool, path: seq<bytes>, value: bytes, height: uint64, proof: Proof): Result<uint64>
  {
    if |value| < 32 then Err("EmptyValue")
    else match AttestedPackets(env, c, authorized, path, height, proof)
      case Err(e) => Err(e)
      case Ok(packets) =>
        if PacketCompact(env.keccak(path[0]), value[..32]) in packets then Ok(TimestampAt(c, height))
        else Err("NotMember")
  }

  /** Position of the first record for a path hash, or the length of the list. */
  function FirstAt(packets: seq<PacketCompact>, hash: bytes): (i: nat)
    ensures i <= |packets|
    ensures i < |packets| ==> packets[i].path == hash
    ensures forall j :: 0 <= j < i ==> packets[j].path != hash
  {
    if packets == [] || packets[0].path == hash then 0 else 1 + FirstAt(packets[1..], hash)
  }

  ghost function VerifyNonMembership(
    env: Env, c: Client, authorized: bool, path: seq<bytes>, height: uint64, proof: Proof): Result<uint64>
  {
    match AttestedPackets(env, c, authorized, path, height, proof)
    case Err(e) => Err(e)
    case Ok(packets) =>
      var i := FirstAt(packets, env.keccak(path[0]));
      if i == |packets| then Err("NotMember")
      else if packets[i].commitment != ZERO then Err("NotNonMember")
      else Ok(TimestampAt(c, height))
  }

  // What the calls promise, without how they go about it

  /** Deployment is accepted exactly for a committee without repetition and a threshold between one and its size. */
  lemma NewClientIff(attestors: seq<Address>, minSigs: nat, height: uint64, timestamp: uint64)
    ensures var outcome := NewClient(attestors, minSigs, height, timestamp);
      && (outcome.Ok? <==>
            && 0 < minSigs <= |attestors|
            && forall i, j :: 0 <= i < j < |attestors| ==> attestors[i] != attestors[j])
      && (outcome.Ok? ==>
            var c := outcome.value;
            && c.attestors == attestors && c.minSigs == minSigs && c.latestHeight == height && !c.frozen
            && forall h: uint64 :: TimestampAt(c, h) == if h == height then timestamp else 0)
  {
  }

  /** A signature counts exactly if it has 65 bytes and recovers to a registered, non-zero address. */
  lemma SignerIff(env: Env, attestors: seq<Address>, digest: Digest, signature: bytes, a: Address)
    ensures Signer(env, attestors, digest, signature) == Ok(a) <==>
      |signature| == 65 && env.recover(digest, signature) == Some(a) && a != 0 && a in attestors
  {
  }

  /** An update is accepted exactly from an authorised caller of a client that is not frozen, with a quorum's signatures
      over the data tagged 1, for a non-zero height and time. */
  lemma UpdateIff(env: Env, c: Client, authorized: bool, proof: Proof)
    ensures UpdateClient(env, c, authorized, proof).Ok? <==>
      && !c.frozen && authorized && Quorum(env, c.attestors, c.minSigs, Digest(1, proof.data), proof.signatures)
      && env.state(proof.data).Some?
      && env.state(proof.data).value.height != 0 && env.state(proof.data).value.timestamp != 0
  {
  }

  /** What an accepted update answers and does: a new height is recorded, a known one confirmed or disputed. */
  lemma UpdateAnswers(env: Env, c: Client, authorized: bool, proof: Proof)
    requires UpdateClient(env, c, authorized, proof).Ok?
    ensures var (c', r) := UpdateClient(env, c, authorized, proof).value;
      var s := env.state(proof.data).value;
      && (r == Update <==> TimestampAt(c, s.height) == 0)
      && (r == NoOp <==> TimestampAt(c, s.height) == s.timestamp)
      && (r == Misbehaviour <==> TimestampAt(c, s.height) != 0 && TimestampAt(c, s.height) != s.timestamp)
      && (c'.frozen <==> r == Misbehaviour) && c'.attestors == c.attestors && c'.minSigs == c.minSigs
      && (forall h: uint64 ::
            TimestampAt(c', h) == if r == Update && h == s.height then s.timestamp else TimestampAt(c, h))
      && c'.latestHeight == if r == Update && s.height > c.latestHeight then s.height else c.latestHeight
  {
  }

  /** The list a proof puts forward is one a quorum signed, tagged 2, for the height of a recorded block. */
  lemma AttestedPacketsIff(
    env: Env, c: Client, authorized: bool, path: seq<bytes>, height: uint64, proof: Proof, packets: seq<PacketCompact>)
    ensures AttestedPackets(env, c, authorized, path, height, proof) == Ok(packets) <==>
      && !c.frozen && authorized && |path| == 1 && TimestampAt(c, height) != 0 && packets != []
      && Quorum(env, c.attestors, c.minSigs, Digest(2, proof.data), proof.signatures)
      && env.packets(proof.data) == Some(PacketAttestation(height, packets))
  {
  }

  /** Membership returns the block's time exactly if some entry has the path's hash and the value. */
  lemma MembershipIff(
    env: Env, c: Client, authorized: bool, path: seq<bytes>, value: bytes, height: uint64, proof: Proof, time: uint64)
    ensures VerifyMembership(env, c, authorized, path, value, height, proof) == Ok(time) <==>
      && time == TimestampAt(c, height) && |value| >= 32
      && exists packets: seq<PacketCompact> ::
           && AttestedPackets(env, c, authorized, path, height, proof) == Ok(packets)
           && PacketCompact(env.keccak(path[0]), value[..32]) in packets
  {
  }

  /** Non-membership returns the block's time exactly if the first entry with the path's hash has 32 zero bytes. */
  lemma NonMembershipIff(
    env: Env, c: Client, authorized: bool, path: seq<bytes>, height: uint64, proof: Proof, time: uint64)
    ensures VerifyNonMembership(env, c, authorized, path, height, proof) == Ok(time) <==>
      && time == TimestampAt(c, height)
      && exists packets: seq<PacketCompact>, i ::
           && AttestedPackets(env, c, authorized, path, height, proof) == Ok(packets)
           && 0 <= i < |packets| && packets[i] == PacketCompact(env.keccak(path[0]), seq(32, _ => 0))
           && forall j :: 0 <= j < i ==> packets[j].path != env.keccak(path[0])
  {
    var outcome := AttestedPackets(env, c, authorized, path, height, proof);
    if outcome.Ok? {
      var i := FirstAt(outcome.value, env.keccak(path[0]));
      var list := outcome.value;
      assert i < |list| ==> list[i] == PacketCompact(env.keccak(path[0]), list[i].commitment);
    }
  }

  // Runs

  datatype Call =
    | Updating(authorized: bool, proof: Proof)
    | Membership(authorized: bool, path: seq<bytes>, value: bytes, height: uint64, proof: Proof)
    | NonMembership(authorized: bool, path: seq<bytes>, height: uint64, proof: Proof)
    | Misbehaving(authorized: bool)

  ghost function Execute(env: Env, c: Client, call: Call): Result<Client> {
    match call
    case Updating(authorized, proof) =>
      (match UpdateClient(env, c, authorized, proof)
       case Err(e) => Err(e)
       case Ok((c', _)) => Ok(c'))
    case Membership(authorized, path, value, height, proof) =>
      (match VerifyMembership(env, c, authorized, path, value, height, proof)
       case Err(e) => Err(e)
       case Ok(_) => Ok(c))
    case NonMembership(authorized, path, height, proof) =>
      (match VerifyNonMembership(env, c, authorized, path, height, proof)
       case Err(e) => Err(e)
       case Ok(_) => Ok(c))
    case Misbehaving(_) => Err("FeatureNotSupported")
  }

  ghost function Run(env: Env, c: Client, calls: seq<Call>): Client {
    if calls == [] then c
    else
      var before := Run(env, c, calls[..|calls| - 1]);
      match Execute(env, before, calls[|calls| - 1])
      case Ok(after) => after
      case Err(_) => before
  }

  ghost predicate Bounded(c: Client) {
    forall h :: h in c.timestamps && c.timestamps[h] != 0 ==> h <= c.latestHeight
  }

  /** How a client may change: block times are written once, the latest height only grows, and frozen is frozen. */
  ghost predicate Evolves(c: Client, c': Client) {
    && c'.attestors == c.attestors && c'.minSigs == c.minSigs
    && (forall h: uint64 :: TimestampAt(c, h) != 0 ==> TimestampAt(c', h) == TimestampAt(c, h))
    && c'.latestHeight >= c.latestHeight
    && (c.frozen ==> c' == c)
  }

  lemma {:induction false} RunEvolves(env: Env, c: Client, calls: seq<Call>)
    requires Bounded(c)
    ensures Bounded(Run(env, c, calls)) && Evolves(c, Run(env, c, calls))
  {
    if calls != [] {
      RunEvolves(env, c, calls[..|calls| - 1]);
    }
  }

  lemma {:induction false} RunSplits(env: Env, c: Client, first: seq<Call>, rest: seq<Call>)
    ensures Run(env, c, first + rest) == Run(env, Run(env, c, first), rest)
  {
    hide Execute;
    if rest == [] {
      assert first + rest == first;
    } else {
      var k := |rest| - 1;
      RunSplits(env, c, first, rest[..k]);
      assert (first + rest)[..|first| + k] == first + rest[..k];
    }
  }

  /** Between any two moments of any run of a deployed client. */
  lemma RecordsAreFinal(
    env: Env, attestors: seq<Address>, minSigs: nat, height: uint64, timestamp: uint64, first: seq<Call>,
    rest: seq<Call>)
    requires NewClient(attestors, minSigs, height, timestamp).Ok?
    ensures var c := NewClient(attestors, minSigs, height, timestamp).value;
      && Evolves(Run(env, c, first), Run(env, c, first + rest))
      && Bounded(Run(env, c, first + rest))
      && (Run(env, c, first).frozen ==> forall call :: Execute(env, Run(env, c, first + rest), call).Err?)
  {
    var c := NewClient(attestors, minSigs, height, timestamp).value;
    RunEvolves(env, c, first);
    RunSplits(env, c, first, rest);
    RunEvolves(env, Run(env, c, first), rest);
    if Run(env, c, first).frozen {
      forall call ensures Execute(env, Run(env, c, first + rest), call).Err? {
      }
    }
  }

  // Quorums

  ghost function Signers(env: Env, attestors: seq<Address>, digest: Digest, signatures: seq<bytes>): set<Address> {
    set i | 0 <= i < |signatures| && Signer(env, attestors, digest, signatures[i]).Ok? ::
      Signer(env, attestors, digest, signatures[i]).value
  }

  function Members(attestors: seq<Address>): set<Address> {
    set a | a in attestors
  }

  lemma {:induction false} MembersCount(attestors: seq<Address>)
    ensures |Members(attestors)| <= |attestors|
    ensures Distinct(attestors) ==> |Members(attestors)| == |attestors|
  {
    if attestors != [] {
      var k := |attestors| - 1;
      MembersCount(attestors[..k]);
      assert Members(attestors) == Members(attestors[..k]) + {attestors[k]};
    }
  }

  lemma SubsetCount<T>(small: set<T>, large: set<T>)
    requires small <= large
    ensures |small| <= |large|
  {
    assert large == small + (large - small);
  }

  /** An accepted signature list names as many attestors as it has signatures. */
  lemma {:induction false} SignersCount(
    env: Env, attestors: seq<Address>, minSigs: nat, digest: Digest, signatures: seq<bytes>)
    requires Quorum(env, attestors, minSigs, digest, signatures)
    ensures Signers(env, attestors, digest, signatures) <= Members(attestors)
    ensures minSigs <= |signatures| == |Signers(env, attestors, digest, signatures)| <= |attestors|
  {
    PrefixSigners(env, attestors, minSigs, digest, signatures, |signatures|);
    assert signatures[..|signatures|] == signatures;
    SubsetCount(Signers(env, attestors, digest, signatures), Members(attestors));
    MembersCount(attestors);
  }

  lemma {:induction false} PrefixSigners(
    env: Env, attestors: seq<Address>, minSigs: nat, digest: Digest, signatures: seq<bytes>, k: nat)
    requires Quorum(env, attestors, minSigs, digest, signatures) && k <= |signatures|
    ensures |Signers(env, attestors, digest, signatures[..k])| == k
  {
    if k > 0 {
      PrefixSigners(env, attestors, minSigs, digest, signatures, k - 1);
      var last := Signer(env, attestors, digest, signatures[k - 1]).value;
      assert Signers(env, attestors, digest, signatures[..k])
          == Signers(env, attestors, digest, signatures[..k - 1]) + {last};
      assert last !in Signers(env, attestors, digest, signatures[..k - 1]);
    }
  }

  lemma Overlap<T>(all: set<T>, s: set<T>, t: set<T>)
    requires s <= all && t <= all && |s| + |t| > |all|
    ensures s * t != {}
  {
    SubsetCount(s + t, all);
    assert |s + t| == |s| + |t| - |s * t|;
  }

  lemma {:induction false} SubsetOfSize<T>(all: set<T>, n: nat) returns (s: set<T>)
    requires n <= |all|
    ensures s <= all && |s| == n
  {
    if n == 0 {
      s := {};
    } else {
      var x :| x in all;
      s := SubsetOfSize(all - {x}, n - 1);
      s := s + {x};
    }
  }

  ghost predicate QuorumsMeet<T(!new)>(all: set<T>, size: nat) {
    forall s, t :: s <= all && t <= all && |s| >= size && |t| >= size ==> s * t != {}
  }

  /** Any two quorums share a member exactly when a quorum is a majority. */
  lemma MajorityIffQuorumsMeet<T(!new)>(all: set<T>, size: nat)
    requires 0 < size <= |all|
    ensures QuorumsMeet(all, size) <==> 2 * size > |all|
  {
    if 2 * size > |all| {
      forall s, t | s <= all && t <= all && |s| >= size && |t| >= size ensures s * t != {} {
        Overlap(all, s, t);
      }
    } else {
      var s := SubsetOfSize(all, size);
      assert |all - s| == |all| - size;
      var t := SubsetOfSize(all - s, size);
      assert s * t == {};
      assert !QuorumsMeet(all, size);
    }
  }

  // Equivocation

  /** A call that got a quorum's word that block `height` has time `timestamp`. */
  ghost predicate Attested(env: Env, c: Client, call: Call, height: uint64, timestamp: uint64) {
    && call.Updating? && Accepts(env, c, STATE_TAG, call.proof)
    && env.state(call.proof.data) == Some(StateAttestation(height, timestamp))
  }

  /** Call `k` of the run was accepted, on a quorum's word about block `height`. */
  ghost predicate AcceptedFor(env: Env, c: Client, calls: seq<Call>, k: nat, height: uint64) {
    && k < |calls| && calls[k].Updating? && Execute(env, Run(env, c, calls[..k]), calls[k]).Ok?
    && env.state(calls[k].proof.data).value.height == height
  }

  /** A block time that deployment did not set was set by an accepted update of the run. */
  lemma {:induction false} RecordedByUpdate(env: Env, c: Client, calls: seq<Call>, height: uint64) returns (k: nat)
    requires Bounded(c) && TimestampAt(c, height) == 0 && TimestampAt(Run(env, c, calls), height) != 0
    ensures AcceptedFor(env, c, calls, k, height)
    ensures Attested(env, c, calls[k], height, TimestampAt(Run(env, c, calls), height))
  {
    var last := |calls| - 1;
    var before := Run(env, c, calls[..last]);
    RunEvolves(env, c, calls[..last]);
    if TimestampAt(before, height) != 0 {
      k := RecordedByUpdate(env, c, calls[..last], height);
      assert calls[..last][..k] == calls[..k];
    } else {
      k := last;
    }
  }

  /** As long as the client is not frozen, every accepted update attested the time that is recorded now. */
  lemma AcceptedIsRecorded(env: Env, c: Client, calls: seq<Call>, k: nat, height: uint64)
    requires Bounded(c) && AcceptedFor(env, c, calls, k, height) && !Run(env, c, calls).frozen
    ensures Attested(env, c, calls[k], height, TimestampAt(Run(env, c, calls), height))
  {
    var before := Run(env, c, calls[..k]);
    var after := Execute(env, before, calls[k]).value;
    RunEvolves(env, c, calls[..k]);
    assert calls[..k + 1][..k] == calls[..k];
    assert Run(env, c, calls[..k + 1]) == after;
    assert calls == calls[..k + 1] + calls[k + 1..];
    RunSplits(env, c, calls[..k + 1], calls[k + 1..]);
    RunEvolves(env, c, calls[..k + 1]);
    RunEvolves(env, after, calls[k + 1..]);
  }

  /** Two accepted proofs have a signer in common when a quorum is a majority. */
  lemma CommonSigner(env: Env, c: Client, tag: byte, p: Proof, q: Proof) returns (a: Address)
    requires 2 * c.minSigs > |c.attestors| && Accepts(env, c, tag, p) && Accepts(env, c, tag, q)
    ensures a in c.attestors
    ensures a in Signers(env, c.attestors, Digest(tag, p.data), p.signatures)
    ensures a in Signers(env, c.attestors, Digest(tag, q.data), q.signatures)
  {
    var s := Signers(env, c.attestors, Digest(tag, p.data), p.signatures);
    var t := Signers(env, c.attestors, Digest(tag, q.data), q.signatures);
    SignersCount(env, c.attestors, c.minSigs, Digest(tag, p.data), p.signatures);
    SignersCount(env, c.attestors, c.minSigs, Digest(tag, q.data), q.signatures);
    MembersCount(c.attestors);
    Overlap(Members(c.attestors), s, t);
    a :| a in s * t;
  }

  /** Attestor `a` signed `p` and `q`, which give one block two times. */
  ghost predicate Equivocates(env: Env, attestors: seq<Address>, a: Address, p: Proof, q: Proof) {
    && a in attestors
    && a in Signers(env, attestors, Digest(STATE_TAG, p.data), p.signatures)
    && a in Signers(env, attestors, Digest(STATE_TAG, q.data), q.signatures)
    && env.state(p.data).Some? && env.state(q.data).Some?
    && env.state(p.data).value.height == env.state(q.data).value.height
    && env.state(p.data).value.timestamp != env.state(q.data).value.timestamp
  }

  /** An accepted update of the run, together with `proof`, shows that some attestor gave one block two times. */
  ghost predicate Convicts(env: Env, c: Client, calls: seq<Call>, proof: Proof) {
    env.state(proof.data).Some? && exists k: nat, a ::
      (&& AcceptedFor(env, c, calls, k, env.state(proof.data).value.height)
       && Equivocates(env, c.attestors, a, calls[k].proof, proof))
  }

  /** When misbehaviour convicts a registered attestor: exactly if the disputed block time was not given at deployment,
      or an update of the run has confirmed it since. */
  lemma MisbehaviourConvictsIff(
    env: Env, attestors: seq<Address>, minSigs: nat, height: uint64, timestamp: uint64, calls: seq<Call>, proof: Proof)
    requires NewClient(attestors, minSigs, height, timestamp).Ok? && 2 * minSigs > |attestors|
    requires var c := NewClient(attestors, minSigs, height, timestamp).value;
      var r := UpdateClient(env, Run(env, c, calls), true, proof);
      r.Ok? && r.value.1 == Misbehaviour
    ensures var c := NewClient(attestors, minSigs, height, timestamp).value;
      var disputed := env.state(proof.data).value.height;
      Convicts(env, c, calls, proof) <==>
        TimestampAt(c, disputed) == 0 || exists k :: AcceptedFor(env, c, calls, k, disputed)
  {
    var c := NewClient(attestors, minSigs, height, timestamp).value;
    var disputed := env.state(proof.data).value.height;
    RunEvolves(env, c, calls);
    if TimestampAt(c, disputed) == 0 {
      var k := RecordedByUpdate(env, c, calls, disputed);
      Conviction(env, c, calls, k, proof);
    }
    if k: nat :| AcceptedFor(env, c, calls, k, disputed) {
      Conviction(env, c, calls, k, proof);
    }
  }

  lemma Conviction(env: Env, c: Client, calls: seq<Call>, k: nat, proof: Proof)
    requires Bounded(c) && 2 * c.minSigs > |c.attestors|
    requires var r := UpdateClient(env, Run(env, c, calls), true, proof);
      r.Ok? && r.value.1 == Misbehaviour && AcceptedFor(env, c, calls, k, env.state(proof.data).value.height)
    ensures Convicts(env, c, calls, proof)
  {
    var disputed := env.state(proof.data).value.height;
    RunEvolves(env, c, calls);
    AcceptedIsRecorded(env, c, calls, k, disputed);
    var a := CommonSigner(env, c, STATE_TAG, calls[k].proof, proof);
    assert Equivocates(env, c.attestors, a, calls[k].proof, proof);
  }

  /** A virtual machine in which every signature is by `a` and every attestation says `s`. */
  function OneVoice(a: Address, s: StateAttestation): Env {
    Env((_, _) => Some(a), _ => Some(s), _ => None, data => data)
  }

  /** Where nobody is convicted: the time given at deployment is disputed by the first attestation ever submitted. The
      client freezes although its only attestor has signed one thing only. */
  lemma DeploymentTimeConvictsNoOne(a: Address, height: uint64, timestamp: uint64, told: uint64, signature: bytes)
    requires a != 0 && height != 0 && timestamp != 0 && told != 0 && told != timestamp &&
      |signature| == SIGNATURE_LENGTH
    ensures var env := OneVoice(a, StateAttestation(height, told));
      var proof := Proof([], [signature]);
      var c := NewClient([a], 1, height, timestamp);
      && c.Ok? && UpdateClient(env, c.value, true, proof) == Ok((c.value.(frozen := true), Misbehaviour))
      && !Convicts(env, c.value, [], proof)
  {
    var env := OneVoice(a, StateAttestation(height, told));
    assert Signer(env, [a], Digest(STATE_TAG, []), signature) == Ok(a);
  }

  // Membership against non-membership

  ghost predicate NoPathTwice(packets: seq<PacketCompact>) {
    forall i, j :: 0 <= i < j < |packets| ==> packets[i].path != packets[j].path
  }

  /** A record cannot be both present and absent at one height unless the committee signed two packet lists. */
  lemma PresentAndAbsentConvicts(
    env: Env, c: Client, c': Client, path: seq<bytes>, value: bytes, height: uint64, p: Proof, q: Proof)
    requires c'.attestors == c.attestors && c'.minSigs == c.minSigs
    requires VerifyMembership(env, c, true, path, value, height, p).Ok? && value[..32] != ZERO
    requires VerifyNonMembership(env, c', true, path, height, q).Ok?
    requires NoPathTwice(env.packets(p.data).value.packets)
    ensures env.packets(p.data).value.packets != env.packets(q.data).value.packets && p.data != q.data
    ensures 2 * c.minSigs > |c.attestors| ==>
      exists a :: (&& a in c.attestors
                   && a in Signers(env, c.attestors, Digest(PACKET_TAG, p.data), p.signatures)
                   && a in Signers(env, c.attestors, Digest(PACKET_TAG, q.data), q.signatures))
  {
    if 2 * c.minSigs > |c.attestors| {
      var a := CommonSigner(env, c, PACKET_TAG, p, q);
    }
  }

  /** A virtual machine in which every signature is by `a` and every packet attestation is `p`. */
  function OneList(a: Address, p: PacketAttestation): Env {
    Env((_, _) => Some(a), _ => None, _ => Some(p), data => data)
  }

  /** It happens: a list with a path twice, zero first, shows that the record is there and that it is not. */
  lemma PresentAndAbsent(
    a: Address, height: uint64, timestamp: uint64, path: bytes, value: bytes, signature: bytes)
    requires a != 0 && timestamp != 0 && |value| == 32 && value != ZERO && |signature| == SIGNATURE_LENGTH
    ensures var list := [PacketCompact(path, ZERO), PacketCompact(path, value)];
      var env := OneList(a, PacketAttestation(height, list));
      var proof := Proof([], [signature]);
      var c := NewClient([a], 1, height, timestamp).value;
      && VerifyMembership(env, c, true, [path], value, height, proof) == Ok(timestamp)
      && VerifyNonMembership(env, c, true, [path], height, proof) == Ok(timestamp)
  {
    var list := [PacketCompact(path, ZERO), PacketCompact(path, value)];
    var env := OneList(a, PacketAttestation(height, list));
    assert Signer(env, [a], Digest(PACKET_TAG, []), signature) == Ok(a);
    assert value[..32] == value && list[1] in list;
    assert FirstAt(list, path) == 0;
  }

  /** With a path listed twice one proof shows both, exactly when the first record for it is zero. */
  lemma OneProofForBoth(env: Env, c: Client, path: seq<bytes>, value: bytes, height: uint64, proof: Proof)
    requires VerifyMembership(env, c, true, path, value, height, proof).Ok? && value[..32] != ZERO
    ensures VerifyNonMembership(env, c, true, path, height, proof).Ok? <==>
      (exists i, j :: var packets := env.packets(proof.data).value.packets;
         (&& 0 <= i < j < |packets| && i == FirstAt(packets, env.keccak(path[0])) && packets[i].commitment == ZERO
          && packets[j] == PacketCompact(env.keccak(path[0]), value[..32])))
  {
    var packets := env.packets(proof.data).value.packets;
    var i := FirstAt(packets, env.keccak(path[0]));
    var j :| 0 <= j < |packets| && packets[j] == PacketCompact(env.keccak(path[0]), value[..32]);
    assert i <= j;
  }
}
