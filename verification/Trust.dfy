/** Chains that watch each other through attestation light clients instead of light clients that are always right. As
    long as fewer than a quorum of each committee sign falsehoods, every run is also a run of the ideal system. */
module Trust {
  import opened Bytes
  import opened Router
  import opened PacketSafety
  import A = Attestation

  datatype Attested = Attested(world: World, clients: map<End, A.Client>)

  datatype AttestedStep =
    | Do(step: Step, proof: A.Proof)
    | CreateClient(at: End, attestors: seq<Address>, minSigs: nat, height: uint64, timestamp: uint64)
    | UpdateClient(at: End, authorized: bool, proof: A.Proof)

  /** Who of its committee tells the truth to the client at an end. Attestations do not name the chain they are about,
      so a key that signs for two chains is honest only where its words hold. */
  type Honest = End -> set<Address>

  /** The bytes under which routers publish a record. */
  type Hash = Commitment -> bytes

  ghost predicate AcceptsMember(
    env: A.Env, hash: Hash, s: Attested, e: End, height: nat, path: bytes, value: Commitment, proof: A.Proof)
  {
    && e in s.clients && height < TWO_64
    && A.VerifyMembership(env, s.clients[e], true, [path], hash(value), height, proof).Ok?
  }

  ghost function AcceptsAbsent(
    env: A.Env, s: Attested, e: End, height: nat, path: bytes, proof: A.Proof): Option<nat>
  {
    if e in s.clients && height < TWO_64 then
      match A.VerifyNonMembership(env, s.clients[e], true, [path], height, proof)
      case Ok(t) => Some(t)
      case Err(_) => None
    else None
  }

  ghost predicate AttestedMember(env: A.Env, hash: Hash, s: Attested, step: Step, proof: A.Proof) {
    match step
    case Recv(x, p, height, _) =>
      AcceptsMember(env, hash, s, End(x, p.destClient), height, PacketPath(p), CommitmentOf(p), proof)
    case Ack(x, p, ack, height, _) =>
      AcceptsMember(env, hash, s, End(x, p.sourceClient), height, AckPath(p), AckCommit([ack]), proof)
    case _ => false
  }

  ghost function AttestedAbsent(env: A.Env, s: Attested, step: Step, proof: A.Proof): Option<nat> {
    match step
    case Timeout(x, p, height, _) => AcceptsAbsent(env, s, End(x, p.sourceClient), height, ReceiptPath(p), proof)
    case _ => None
  }

  ghost function AttestedApply(
    links: Links, env: A.Env, hash: Hash, s: Attested, step: AttestedStep): Result<Attested>
  {
    match step
    case Do(inner, proof) =>
      (match ApplyWith(links, s.world, inner, AttestedMember(env, hash, s, inner, proof),
        AttestedAbsent(env, s, inner, proof))
       case Err(e) => Err(e)
       case Ok(w) => Ok(s.(world := w)))
    case CreateClient(at, attestors, minSigs, height, timestamp) =>
      if at !in links || at in s.clients then Err("client exists")
      else (match A.NewClient(attestors, minSigs, height, timestamp)
            case Err(e) => Err(e)
            case Ok(c) => Ok(s.(clients := s.clients[at := c])))
    case UpdateClient(at, authorized, proof) =>
      if at !in s.clients then Err("no such client")
      else (match A.UpdateClient(env, s.clients[at], authorized, proof)
            case Err(e) => Err(e)
            case Ok((c, _)) => Ok(s.(clients := s.clients[at := c])))
  }

  ghost function AttestedRun(links: Links, env: A.Env, hash: Hash, s: Attested, steps: seq<AttestedStep>): Attested {
    if steps == [] then s
    else
      var before := AttestedRun(links, env, hash, s, steps[..|steps| - 1]);
      match AttestedApply(links, env, hash, before, steps[|steps| - 1])
      case Ok(after) => after
      case Err(_) => before
  }

  // What is taken for granted

  ghost predicate TrueTime(chain: Chain, height: uint64, timestamp: uint64) {
    height < |chain.history| && chain.history[height].time == timestamp
  }

  /** A zero commitment says that nothing is stored under a path with that hash, any other one that the record is. */
  ghost predicate TrueRecord(env: A.Env, hash: Hash, store: Store, record: A.PacketCompact) {
    if record.commitment == A.ZERO then forall path :: path in store ==> env.keccak(path) != record.path
    else exists path :: path in store && env.keccak(path) == record.path && hash(store[path]) == record.commitment
  }

  ghost predicate TruePackets(env: A.Env, hash: Hash, chain: Chain, a: A.PacketAttestation) {
    && a.height < |chain.history|
    && forall i :: 0 <= i < |a.packets| ==> TrueRecord(env, hash, chain.history[a.height].store, a.packets[i])
  }

  /** The data says nothing false about the blocks of the chain. */
  ghost predicate Truthful(env: A.Env, hash: Hash, chain: Chain, digest: A.Digest) {
    && (digest.tag == A.STATE_TAG && env.state(digest.data).Some? ==>
          TrueTime(chain, env.state(digest.data).value.height, env.state(digest.data).value.timestamp))
    && (digest.tag == A.PACKET_TAG && env.packets(digest.data).Some? ==>
          TruePackets(env, hash, chain, env.packets(digest.data).value))
  }

  /** Honest attestors signed the data only if it is truthful. */
  ghost predicate HonestlySigned(
    env: A.Env, hash: Hash, honest: set<Address>, chain: Chain, tag: byte, proof: A.Proof)
  {
    forall i :: (&& 0 <= i < |proof.signatures|
                 && env.recover(A.Digest(tag, proof.data), proof.signatures[i]).Some?
                 && env.recover(A.Digest(tag, proof.data), proof.signatures[i]).value in honest) ==>
      Truthful(env, hash, chain, A.Digest(tag, proof.data))
  }

  /** Fewer dishonest attestors than a quorum. */
  ghost predicate Trusted(c: A.Client, honest: set<Address>) {
    |A.Members(c.attestors) - honest| < c.minSigs
  }

  /** The record's hash is a non-zero word, and no other stored record has it. */
  ghost predicate HashOk(hash: Hash, chain: Chain, value: Commitment) {
    && |hash(value)| == 32 && hash(value) != A.ZERO
    && forall h, path :: 0 <= h < |chain.history| && path in chain.history[h].store ==>
         (hash(chain.history[h].store[path]) == hash(value) ==> chain.history[h].store[path] == value)
  }

  /** No other path stored in the chain's blocks has this path's hash. */
  ghost predicate PathOk(env: A.Env, chain: Chain, path: bytes) {
    forall h, other :: 0 <= h < |chain.history| && other in chain.history[h].store ==>
      (env.keccak(other) == env.keccak(path) ==> other == path)
  }

  ghost predicate EndOk(links: Links, w: World, e: End) {
    e in links && links[e].chain < |w.chains|
  }

  /** What is assumed of the proofs and deployments of a run. */
  ghost predicate HonestStep(
    links: Links, env: A.Env, hash: Hash, honest: Honest, w: World, step: AttestedStep)
  {
    match step
    case Do(Recv(x, p, _, _), proof) =>
      EndOk(links, w, End(x, p.destClient)) ==>
        && HonestlySigned(env, hash, honest(End(x, p.destClient)), w.chains[links[End(x, p.destClient)].chain],
             A.PACKET_TAG, proof)
        && HashOk(hash, w.chains[links[End(x, p.destClient)].chain], CommitmentOf(p))
        && PathOk(env, w.chains[links[End(x, p.destClient)].chain], PacketPath(p))
    case Do(Ack(x, p, ack, _, _), proof) =>
      EndOk(links, w, End(x, p.sourceClient)) ==>
        && HonestlySigned(env, hash, honest(End(x, p.sourceClient)), w.chains[links[End(x, p.sourceClient)].chain],
             A.PACKET_TAG, proof)
        && HashOk(hash, w.chains[links[End(x, p.sourceClient)].chain], AckCommit([ack]))
        && PathOk(env, w.chains[links[End(x, p.sourceClient)].chain], AckPath(p))
    case Do(Timeout(x, p, _, _), proof) =>
      EndOk(links, w, End(x, p.sourceClient)) ==>
        HonestlySigned(env, hash, honest(End(x, p.sourceClient)), w.chains[links[End(x, p.sourceClient)].chain],
          A.PACKET_TAG, proof)
    case Do(_, _) => true
    case CreateClient(at, attestors, minSigs, height, timestamp) =>
      EndOk(links, w, at) ==>
        && |A.Members(attestors) - honest(at)| < minSigs
        && (timestamp != 0 ==> TrueTime(w.chains[links[at].chain], height, timestamp))
    case UpdateClient(at, _, proof) =>
      EndOk(links, w, at) ==> HonestlySigned(env, hash, honest(at), w.chains[links[at].chain], A.STATE_TAG, proof)
  }

  ghost predicate HonestRun(
    links: Links, env: A.Env, hash: Hash, honest: Honest, s: Attested, steps: seq<AttestedStep>)
  {
    forall k :: 0 <= k < |steps| ==>
      HonestStep(links, env, hash, honest, AttestedRun(links, env, hash, s, steps[..k]).world, steps[k])
  }

  /** What an honest attestor may sign about a path: the record exactly if it is stored, zero exactly if nothing is. */
  lemma HonestRecords(env: A.Env, hash: Hash, chain: Chain, height: nat, path: bytes, value: Commitment)
    requires height < |chain.history| && HashOk(hash, chain, value) && PathOk(env, chain, path)
    ensures var store := chain.history[height].store;
      && (TrueRecord(env, hash, store, A.PacketCompact(env.keccak(path), hash(value))) <==>
            path in store && store[path] == value)
      && (TrueRecord(env, hash, store, A.PacketCompact(env.keccak(path), A.ZERO)) <==> path !in store)
  {
    var store := chain.history[height].store;
    assert forall other :: other in store && env.keccak(other) == env.keccak(path) ==> other == path;
  }

  // A quorum has an honest member

  lemma QuorumIsTruthful(
    env: A.Env, hash: Hash, honest: set<Address>, c: A.Client, chain: Chain, tag: byte, proof: A.Proof)
    requires A.Accepts(env, c, tag, proof) && Trusted(c, honest)
    requires HonestlySigned(env, hash, honest, chain, tag, proof)
    ensures Truthful(env, hash, chain, A.Digest(tag, proof.data))
  {
    hide Truthful;
    var digest := A.Digest(tag, proof.data);
    var signers := A.Signers(env, c.attestors, digest, proof.signatures);
    A.SignersCount(env, c.attestors, c.minSigs, digest, proof.signatures);
    if signers * honest == {} {
      assert forall a :: a in signers ==> a !in honest by {
        assert forall a :: a in signers && a in honest ==> a in signers * honest;
      }
      A.SubsetCount(signers, A.Members(c.attestors) - honest);
      assert false;
    }
    var a :| a in signers * honest;
    var i :| 0 <= i < |proof.signatures| && A.Signer(env, c.attestors, digest, proof.signatures[i]) == Ok(a);
  }

  /** Replaying another chain's attestation is harmless while committees are disjoint: without a signature by one of
      this committee the proof is rejected, and it says nothing against anyone's honesty. */
  lemma MisdirectedIsRejected(
    env: A.Env, hash: Hash, honest: set<Address>, c: A.Client, chain: Chain, tag: byte, proof: A.Proof)
    requires honest <= A.Members(c.attestors)
    requires forall i :: 0 <= i < |proof.signatures| ==>
      var a := env.recover(A.Digest(tag, proof.data), proof.signatures[i]);
      a.Some? ==> a.value !in c.attestors
    ensures !A.Accepts(env, c, tag, proof) && HonestlySigned(env, hash, honest, chain, tag, proof)
  {
    assert proof.signatures != [] ==> A.Signer(env, c.attestors, A.Digest(tag, proof.data), proof.signatures[0]).Err?;
  }

  /** A key in two committees is a liar to one of them without ever lying: what it signed is true of its first chain,
      the client of the second chain records it, and there it is false. */
  lemma SharedKeyMisleads(
    hash: Hash, a: Address, first: Chain, second: Chain, height: uint64, timestamp: uint64, signature: bytes)
    requires a != 0 && height != 0 && timestamp != 0 && |signature| == A.SIGNATURE_LENGTH
    requires TrueTime(first, height, timestamp) && !TrueTime(second, height, timestamp)
    ensures var env := A.OneVoice(a, A.StateAttestation(height, timestamp));
      var proof := A.Proof([], [signature]);
      var c := A.NewClient([a], 1, 0, 0).value;
      var r := A.UpdateClient(env, c, true, proof);
      && HonestlySigned(env, hash, {a}, first, A.STATE_TAG, proof)
      && r.Ok? && A.TimestampAt(r.value.0, height) == timestamp
      && !HonestlySigned(env, hash, {a}, second, A.STATE_TAG, proof)
  {
    var env := A.OneVoice(a, A.StateAttestation(height, timestamp));
    assert A.Signer(env, [a], A.Digest(A.STATE_TAG, []), signature) == Ok(a);
    assert env.recover(A.Digest(A.STATE_TAG, []), [signature][0]) == Some(a);
  }

  /** Recorded block times are those of the counterparty's blocks. */
  ghost predicate ClientOk(links: Links, honest: Honest, w: World, e: End, c: A.Client) {
    && EndOk(links, w, e) && Trusted(c, honest(e))
    && forall h: uint64 :: A.TimestampAt(c, h) != 0 ==> TrueTime(w.chains[links[e].chain], h, A.TimestampAt(c, h))
  }

  ghost predicate ClientsOk(links: Links, honest: Honest, s: Attested) {
    forall e :: e in s.clients ==> ClientOk(links, honest, s.world, e, s.clients[e])
  }

  lemma MemberIsTrue(
    links: Links, env: A.Env, hash: Hash, honest: Honest, s: Attested, e: End, height: nat, path: bytes,
    value: Commitment, proof: A.Proof)
    requires ClientsOk(links, honest, s) && AcceptsMember(env, hash, s, e, height, path, value, proof)
    requires EndOk(links, s.world, e) ==>
      && HonestlySigned(env, hash, honest(e), s.world.chains[links[e].chain], A.PACKET_TAG, proof)
      && HashOk(hash, s.world.chains[links[e].chain], value)
      && PathOk(env, s.world.chains[links[e].chain], path)
    ensures ProvesMember(links, s.world, e, height, path, value)
  {
    hide HonestlySigned, A.Accepts, Trusted, A.FirstAt;
    assert ClientOk(links, honest, s.world, e, s.clients[e]);
    var chain := s.world.chains[links[e].chain];
    QuorumIsTruthful(env, hash, honest(e), s.clients[e], chain, A.PACKET_TAG, proof);
    var packets := env.packets(proof.data).value.packets;
    assert hash(value)[..32] == hash(value);
    var i :| 0 <= i < |packets| && packets[i] == A.PacketCompact(env.keccak(path), hash(value));
    assert TrueRecord(env, hash, chain.history[height].store, packets[i]);
    HonestRecords(env, hash, chain, height, path, value);
  }

  lemma AbsentIsTrue(
    links: Links, env: A.Env, hash: Hash, honest: Honest, s: Attested, e: End, height: nat, path: bytes,
    proof: A.Proof)
    requires ClientsOk(links, honest, s) && AcceptsAbsent(env, s, e, height, path, proof).Some?
    requires EndOk(links, s.world, e) ==>
      HonestlySigned(env, hash, honest(e), s.world.chains[links[e].chain], A.PACKET_TAG, proof)
    ensures AcceptsAbsent(env, s, e, height, path, proof) == ProvesAbsent(links, s.world, e, height, path)
  {
    hide HonestlySigned, A.Accepts, Trusted;
    assert ClientOk(links, honest, s.world, e, s.clients[e]);
    var chain := s.world.chains[links[e].chain];
    QuorumIsTruthful(env, hash, honest(e), s.clients[e], chain, A.PACKET_TAG, proof);
    var packets := env.packets(proof.data).value.packets;
    var i := A.FirstAt(packets, env.keccak(path));
    assert TrueRecord(env, hash, chain.history[height].store, packets[i]);
  }

  // Every step is an ideal step

  lemma DoRefines(
    links: Links, env: A.Env, hash: Hash, honest: Honest, s: Attested, step: Step, proof: A.Proof, s': Attested)
    requires ClientsOk(links, honest, s) && HonestStep(links, env, hash, honest, s.world, Do(step, proof))
    requires AttestedApply(links, env, hash, s, Do(step, proof)) == Ok(s')
    ensures Apply(links, s.world, step) == Ok(s'.world) && s'.clients == s.clients
  {
    hide ClientsOk, HonestlySigned, HashOk, PathOk, AcceptsMember, AcceptsAbsent, ProvesMember, ProvesAbsent;
    match step
    case Recv(x, p, height, _) =>
      MemberIsTrue(links, env, hash, honest, s, End(x, p.destClient), height, PacketPath(p), CommitmentOf(p), proof);
    case Ack(x, p, ack, height, _) =>
      MemberIsTrue(links, env, hash, honest, s, End(x, p.sourceClient), height, AckPath(p), AckCommit([ack]), proof);
    case Timeout(x, p, height, _) =>
      AbsentIsTrue(links, env, hash, honest, s, End(x, p.sourceClient), height, ReceiptPath(p), proof);
    case _ =>
  }

  /** Blocks are never rewritten. */
  ghost predicate Grows(w: World, w': World) {
    && |w'.chains| == |w.chains|
    && forall y :: 0 <= y < |w.chains| ==> w.chains[y].history <= w'.chains[y].history
  }

  lemma ApplyGrows(links: Links, w: World, step: Step, w': World)
    requires Apply(links, w, step) == Ok(w')
    ensures Grows(w, w')
  {
    hide Member, Absent, SendPacket, RecvPacket, AckPacket, TimeoutPacket;
  }

  lemma GrowthKeeps(links: Links, honest: Honest, w: World, w': World, e: End, c: A.Client)
    requires ClientOk(links, honest, w, e, c) && Grows(w, w')
    ensures ClientOk(links, honest, w', e, c)
  {
    var chain, chain' := w.chains[links[e].chain], w'.chains[links[e].chain];
    forall h: uint64, t: uint64 | TrueTime(chain, h, t) ensures TrueTime(chain', h, t) {
      assert chain'.history[..|chain.history|][h] == chain.history[h];
    }
  }

  lemma UpdateKeeps(
    links: Links, env: A.Env, hash: Hash, honest: Honest, w: World, e: End, c: A.Client, authorized: bool,
    proof: A.Proof)
    requires ClientOk(links, honest, w, e, c)
    requires HonestlySigned(env, hash, honest(e), w.chains[links[e].chain], A.STATE_TAG, proof)
    requires A.UpdateClient(env, c, authorized, proof).Ok?
    ensures ClientOk(links, honest, w, e, A.UpdateClient(env, c, authorized, proof).value.0)
  {
    hide HonestlySigned, A.Accepts;
    var chain := w.chains[links[e].chain];
    QuorumIsTruthful(env, hash, honest(e), c, chain, A.STATE_TAG, proof);
    var c' := A.UpdateClient(env, c, authorized, proof).value.0;
    forall h: uint64 | A.TimestampAt(c', h) != 0 ensures TrueTime(chain, h, A.TimestampAt(c', h)) {
      assert A.TimestampAt(c, h) != 0 || h == env.state(proof.data).value.height;
    }
  }

  lemma StepRefines(
    links: Links, env: A.Env, hash: Hash, honest: Honest, s: Attested, step: AttestedStep, s': Attested)
    requires WellLinked(links, |s.world.chains|) && ClientsOk(links, honest, s)
    requires HonestStep(links, env, hash, honest, s.world, step)
    requires AttestedApply(links, env, hash, s, step) == Ok(s')
    ensures ClientsOk(links, honest, s') && |s'.world.chains| == |s.world.chains|
    ensures s'.world == s.world || (step.Do? && Apply(links, s.world, step.step) == Ok(s'.world))
  {
    hide Apply, ApplyWith, ClientOk, HonestlySigned, HashOk, PathOk;
    match step
    case Do(inner, proof) =>
      DoRefines(links, env, hash, honest, s, inner, proof, s');
      ApplyGrows(links, s.world, inner, s'.world);
      forall e | e in s'.clients ensures ClientOk(links, honest, s'.world, e, s'.clients[e]) {
        GrowthKeeps(links, honest, s.world, s'.world, e, s.clients[e]);
      }
    case CreateClient(at, attestors, minSigs, height, timestamp) =>
      CreateKeeps(links, honest, s.world, at, attestors, minSigs, height, timestamp);
    case UpdateClient(at, authorized, proof) =>
      EndOfClient(links, honest, s, at);
      UpdateKeeps(links, env, hash, honest, s.world, at, s.clients[at], authorized, proof);
  }

  lemma EndOfClient(links: Links, honest: Honest, s: Attested, e: End)
    requires ClientsOk(links, honest, s) && e in s.clients
    ensures EndOk(links, s.world, e)
  {
    assert ClientOk(links, honest, s.world, e, s.clients[e]);
  }

  lemma CreateKeeps(
    links: Links, honest: Honest, w: World, at: End, attestors: seq<Address>, minSigs: nat, height: uint64,
    timestamp: uint64)
    requires WellLinked(links, |w.chains|) && at in links && A.NewClient(attestors, minSigs, height, timestamp).Ok?
    requires EndOk(links, w, at) ==>
      && |A.Members(attestors) - honest(at)| < minSigs
      && (timestamp != 0 ==> TrueTime(w.chains[links[at].chain], height, timestamp))
    ensures ClientOk(links, honest, w, at, A.NewClient(attestors, minSigs, height, timestamp).value)
  {
    assert links[at] in links;
  }

  /** Every run watched by attestors is a run watched by ideal light clients. */
  lemma {:induction false} AttestedRunRefines(
    links: Links, env: A.Env, hash: Hash, honest: Honest, n: nat, steps: seq<AttestedStep>)
    returns (ideal: seq<Step>)
    requires WellLinked(links, n) && HonestRun(links, env, hash, honest, Attested(Genesis(n), map[]), steps)
    ensures var s := AttestedRun(links, env, hash, Attested(Genesis(n), map[]), steps);
      s.world == Run(links, Genesis(n), ideal) && ClientsOk(links, honest, s) && |s.world.chains| == n
  {
    hide Apply, HonestStep, AttestedApply, ClientsOk;
    var start := Attested(Genesis(n), map[]);
    if steps == [] {
      ideal := [];
      NoClients(links, honest, start);
    } else {
      var k := |steps| - 1;
      forall i | 0 <= i < k
        ensures HonestStep(links, env, hash, honest, AttestedRun(links, env, hash, start, steps[..k][..i]).world,
          steps[..k][i])
      {
        assert steps[..k][..i] == steps[..i];
      }
      ideal := AttestedRunRefines(links, env, hash, honest, n, steps[..k]);
      var before := AttestedRun(links, env, hash, start, steps[..k]);
      var outcome := AttestedApply(links, env, hash, before, steps[k]);
      if outcome.Ok? {
        StepRefines(links, env, hash, honest, before, steps[k], outcome.value);
        if outcome.value.world != before.world {
          assert (ideal + [steps[k].step])[..|ideal|] == ideal;
          ideal := ideal + [steps[k].step];
        }
      }
    }
  }

  lemma NoClients(links: Links, honest: Honest, s: Attested)
    requires s.clients == map[]
    ensures ClientsOk(links, honest, s)
  {
  }

  /** Exactly-once delivery holds when every light client is an attestation client with fewer liars than a quorum. */
  lemma AttestedExactlyOnce(
    links: Links, env: A.Env, hash: Hash, honest: Honest, n: nat, steps: seq<AttestedStep>)
    requires WellLinked(links, n) && HonestRun(links, env, hash, honest, Attested(Genesis(n), map[]), steps)
    ensures var w := AttestedRun(links, env, hash, Attested(Genesis(n), map[]), steps).world;
      && (forall j, k :: 0 <= j < k < |w.calls| ==> !SameCallback(w.calls[j], w.calls[k]))
      && (forall call :: call in w.calls && call.OnRecv? ==>
            && End(call.chain, call.packet.destClient) in links
            && Sent(links[End(call.chain, call.packet.destClient)].chain, call.packet) in w.log)
      && (forall call :: call in w.calls && !call.OnRecv? ==>
            && Sent(call.chain, call.packet) in w.log && End(call.chain, call.packet.sourceClient) in links
            && var dest := links[End(call.chain, call.packet.sourceClient)].chain;
            && (call.OnAck? ==> OnRecv(dest, call.packet, call.ack) in w.calls)
            && (call.OnTimeout? ==> forall ack :: OnRecv(dest, call.packet, ack) !in w.calls))
  {
    hide *;
    var ideal := AttestedRunRefines(links, env, hash, honest, n, steps);
    ExactlyOnce(links, n, ideal);
  }
}
