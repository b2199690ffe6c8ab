/** Token transfers between chains that watch each other through attestation light clients: as long as fewer than a
    quorum of each committee sign falsehoods, every run is a run of the ideal network, so conservation carries over. */
module TrustedTransfers {
  import opened Bytes
  import opened Router
  import opened PacketSafety
  import opened Settlement
  import opened Denoms
  import opened Transfer
  import opened Conservation
  import opened Trust
  import Solvency
  import A = Attestation

  datatype AttestedNet = AttestedNet(net: Net, clients: map<End, A.Client>)

  datatype Action =
    | Perform(step: NetStep, proof: A.Proof)
    | Create(at: End, attestors: seq<Address>, minSigs: nat, height: uint64, timestamp: uint64)
    | Update(at: End, authorized: bool, proof: A.Proof)

  /** The steps that carry a proof, and what their callback would do. */
  predicate NeedsProof(step: NetStep) {
    step.Receive? || step.Acknowledge? || step.Expire?
  }

  function Callback(l: Ledger, step: NetStep): Result<Ledger>
    requires NeedsProof(step)
  {
    match step
    case Receive(_, p, _, newEscrow, newToken, admitted, _) =>
      if ToTransfer(p) then OnReceive(l, p, newEscrow, newToken, admitted) else Ok(l)
    case Acknowledge(_, p, ack, _, admitted) => if FromTransfer(p) then OnAcknowledge(l, p, ack, admitted) else Ok(l)
    case Expire(_, p, _, admitted) => if FromTransfer(p) then OnRefund(l, p, admitted) else Ok(l)
  }

  function RouterStep(l: Ledger, step: NetStep): Step
    requires NeedsProof(step)
  {
    var ok := Callback(l, step).Ok?;
    match step
    case Receive(x, p, height, _, _, _, other) =>
      Recv(x, p, height, if !ToTransfer(p) then other else if ok then Returned(SUCCESS_ACK) else Reverted([1]))
    case Acknowledge(x, p, ack, height, admitted) => Ack(x, p, ack, height, if FromTransfer(p) then ok else admitted)
    case Expire(x, p, height, admitted) => Timeout(x, p, height, if FromTransfer(p) then ok else admitted)
  }

  lemma NetApplyIs(links: Links, net: Net, step: NetStep)
    requires NeedsProof(step) && step.chain < |net.ledgers|
    ensures var l := net.ledgers[step.chain];
      NetApply(links, net, step) ==
        Commit(net, step.chain, Apply(links, net.world, RouterStep(l, step)), Callback(l, step))
  {
    hide Apply, Commit, OnReceive, OnRefund, OnAcknowledge;
  }

  ghost function PerformWith(
    links: Links, env: A.Env, hash: Hash, s: AttestedNet, step: NetStep, proof: A.Proof): Result<Net>
  {
    if !NeedsProof(step) then NetApply(links, s.net, step)
    else if step.chain >= |s.net.ledgers| then Err("no such chain")
    else
      var l, seen := s.net.ledgers[step.chain], Attested(s.net.world, s.clients);
      var inner := RouterStep(l, step);
      var outcome := ApplyWith(
        links, s.net.world, inner, AttestedMember(env, hash, seen, inner, proof),
          AttestedAbsent(env, seen, inner, proof));
      Commit(s.net, step.chain, outcome, Callback(l, step))
  }

  ghost function ActionApply(
    links: Links, env: A.Env, hash: Hash, s: AttestedNet, action: Action): Result<AttestedNet>
  {
    match action
    case Perform(step, proof) =>
      (match PerformWith(links, env, hash, s, step, proof)
       case Err(e) => Err(e)
       case Ok(net) => Ok(s.(net := net)))
    case Create(at, attestors, minSigs, height, timestamp) =>
      (match AttestedApply(links, env, hash, Attested(s.net.world, s.clients),
        CreateClient(at, attestors, minSigs, height, timestamp))
       case Err(e) => Err(e)
       case Ok(seen) => Ok(s.(clients := seen.clients)))
    case Update(at, authorized, proof) =>
      (match AttestedApply(links, env, hash, Attested(s.net.world, s.clients), UpdateClient(at, authorized, proof))
       case Err(e) => Err(e)
       case Ok(seen) => Ok(s.(clients := seen.clients)))
  }

  ghost function ActionRun(links: Links, env: A.Env, hash: Hash, s: AttestedNet, actions: seq<Action>): AttestedNet {
    if actions == [] then s
    else
      var before := ActionRun(links, env, hash, s, actions[..|actions| - 1]);
      match ActionApply(links, env, hash, before, actions[|actions| - 1])
      case Ok(after) => after
      case Err(_) => before
  }

  /** The same assumptions as for packets alone. */
  ghost predicate HonestAction(links: Links, env: A.Env, hash: Hash, honest: Honest, net: Net, action: Action) {
    match action
    case Perform(step, proof) =>
      NeedsProof(step) && step.chain < |net.ledgers| ==>
        HonestStep(links, env, hash, honest, net.world, Do(RouterStep(net.ledgers[step.chain], step), proof))
    case Create(at, attestors, minSigs, height, timestamp) =>
      HonestStep(links, env, hash, honest, net.world, CreateClient(at, attestors, minSigs, height, timestamp))
    case Update(at, authorized, proof) =>
      HonestStep(links, env, hash, honest, net.world, UpdateClient(at, authorized, proof))
  }

  ghost predicate HonestActions(
    links: Links, env: A.Env, hash: Hash, honest: Honest, s: AttestedNet, actions: seq<Action>)
  {
    forall k :: 0 <= k < |actions| ==>
      HonestAction(links, env, hash, honest, ActionRun(links, env, hash, s, actions[..k]).net, actions[k])
  }

  lemma PerformRefines(
    links: Links, env: A.Env, hash: Hash, honest: Honest, s: AttestedNet, step: NetStep, proof: A.Proof, net': Net)
    requires ClientsOk(links, honest, Attested(s.net.world, s.clients))
    requires HonestAction(links, env, hash, honest, s.net, Perform(step, proof))
    requires PerformWith(links, env, hash, s, step, proof) == Ok(net')
    ensures NetApply(links, s.net, step) == Ok(net')
  {
    hide NetApply, ApplyWith, Apply, ClientsOk, HonestStep, Callback, RouterStep;
    if NeedsProof(step) {
      var l, seen := s.net.ledgers[step.chain], Attested(s.net.world, s.clients);
      var inner := RouterStep(l, step);
      NetApplyIs(links, s.net, step);
      var outcome := AttestedApply(links, env, hash, seen, Do(inner, proof));
      assert outcome.Ok?;
      DoRefines(links, env, hash, honest, seen, inner, proof, outcome.value);
    }
  }

  lemma NetGrows(links: Links, net: Net, step: NetStep, net': Net)
    requires NetApply(links, net, step) == Ok(net')
    ensures Grows(net.world, net'.world)
  {
    hide Apply, SendTransfer, Callback, UserCall, DeployToken, UnlinkedLedger, Grows;
    StaysGrown(net.world);
    if NeedsProof(step) {
      NetApplyIs(links, net, step);
      ApplyGrows(links, net.world, RouterStep(net.ledgers[step.chain], step), net'.world);
    } else if step.SendTokens? {
      var data := SendTransfer(net.ledgers[step.chain], step.caller, step.sender, step.client, step.token, step.amount,
                               step.receiver, step.memo, step.newEscrow).value.1;
      ApplyGrows(links, net.world, Send(step.chain, TRANSFER_PORT, step.client, step.timeout, PayloadOf(data)),
        net'.world);
    } else if step.SendOther? {
      ApplyGrows(links, net.world, Send(step.chain, step.port, step.client, step.timeout, step.payload), net'.world);
    } else if step.NewBlock? {
      ApplyGrows(links, net.world, Block(step.chain, step.time), net'.world);
    }
  }

  lemma StaysGrown(w: World)
    ensures Grows(w, w)
  {
  }

  lemma ActionRefines(
    links: Links, env: A.Env, hash: Hash, honest: Honest, s: AttestedNet, action: Action, s': AttestedNet)
    requires WellLinked(links, |s.net.world.chains|) && ClientsOk(links, honest, Attested(s.net.world, s.clients))
    requires HonestAction(links, env, hash, honest, s.net, action)
    requires ActionApply(links, env, hash, s, action) == Ok(s')
    ensures ClientsOk(links, honest, Attested(s'.net.world, s'.clients)) &&
      |s'.net.world.chains| == |s.net.world.chains|
    ensures s'.net == s.net || (action.Perform? && NetApply(links, s.net, action.step) == Ok(s'.net))
  {
    hide NetApply, PerformWith, ClientOk, HonestStep, ApplyWith;
    var seen := Attested(s.net.world, s.clients);
    match action
    case Perform(step, proof) =>
      PerformRefines(links, env, hash, honest, s, step, proof, s'.net);
      NetGrows(links, s.net, step, s'.net);
      forall e | e in s.clients ensures ClientOk(links, honest, s'.net.world, e, s.clients[e]) {
        GrowthKeeps(links, honest, s.net.world, s'.net.world, e, s.clients[e]);
      }
    case Create(at, attestors, minSigs, height, timestamp) =>
      StepRefines(links, env, hash, honest, seen, CreateClient(at, attestors, minSigs, height, timestamp),
                  Attested(s.net.world, s'.clients));
    case Update(at, authorized, proof) =>
      StepRefines(links, env, hash, honest, seen, UpdateClient(at, authorized, proof),
        Attested(s.net.world, s'.clients));
  }

  function Beginning(selves: seq<Address>): AttestedNet {
    AttestedNet(NetGenesis(selves), map[])
  }

  /** Every run watched by attestors is a run of the network with ideal light clients. */
  lemma {:induction false} TransfersRefine(
    links: Links, env: A.Env, hash: Hash, honest: Honest, selves: seq<Address>, actions: seq<Action>)
    returns (ideal: seq<NetStep>)
    requires WellLinked(links, |selves|) && HonestActions(links, env, hash, honest, Beginning(selves), actions)
    ensures var s := ActionRun(links, env, hash, Beginning(selves), actions);
      && s.net == NetRun(links, NetGenesis(selves), ideal)
      && ClientsOk(links, honest, Attested(s.net.world, s.clients)) && |s.net.world.chains| == |selves|
  {
    hide NetApply, HonestAction, ActionApply, ClientsOk;
    var start := Beginning(selves);
    if actions == [] {
      ideal := [];
      NoClients(links, honest, Attested(start.net.world, start.clients));
    } else {
      var k := |actions| - 1;
      forall i | 0 <= i < k
        ensures HonestAction(links, env, hash, honest, ActionRun(links, env, hash, start, actions[..k][..i]).net,
          actions[..k][i])
      {
        assert actions[..k][..i] == actions[..i];
      }
      ideal := TransfersRefine(links, env, hash, honest, selves, actions[..k]);
      var before := ActionRun(links, env, hash, start, actions[..k]);
      var outcome := ActionApply(links, env, hash, before, actions[k]);
      if outcome.Ok? {
        ActionRefines(links, env, hash, honest, before, actions[k], outcome.value);
        if outcome.value.net != before.net {
          assert (ideal + [actions[k].step])[..|ideal|] == ideal;
          ideal := ideal + [actions[k].step];
        }
      }
    }
  }

  /** Conservation with attestation committees in place of ideal light clients. */
  lemma AttestedConserved(
    links: Links, env: A.Env, hash: Hash, honest: Honest, selves: seq<Address>, actions: seq<Action>, home: Home)
    requires WellLinked(links, |selves|) && SlashFreeIds(links)
    requires HonestActions(links, env, hash, honest, Beginning(selves), actions)
    requires home.end in links && !CameOver(home.end.client, home.denom)
    ensures var net := ActionRun(links, env, hash, Beginning(selves), actions).net;
      && |net.ledgers| == |selves| && home.end.chain < |selves| && links[home.end].chain < |selves|
      && Escrowed(net.ledgers[home.end.chain], home.end.client, home.denom) >=
           VoucherSupply(net.ledgers[links[home.end].chain], Trace(links[home.end].client, home.denom)) +
           InFlight(links, net.world.log, OpenFlags(links, net.world), home)
  {
    hide *;
    var ideal := TransfersRefine(links, env, hash, honest, selves, actions);
    Solvency.Conserved(links, selves, ideal, home);
  }
}
