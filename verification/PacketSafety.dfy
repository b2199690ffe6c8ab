/** Any number of chains, each with an ICS26 router, connected by clients. Every interleaving of sends, receives,
    acknowledgements, timeouts and new blocks is a run; proofs are checked against past blocks of the counterparty. */
module PacketSafety {
  import opened Bytes
  import opened Host
  import opened Router

  /** One end of a connection: a client on a chain. */
  datatype End = End(chain: nat, client: bytes)

  type Links = map<End, End>

  datatype Snapshot = Snapshot(store: Store, time: nat)

  datatype Chain = Chain(router: RouterState, now: nat, history: seq<Snapshot>)

  /** A SendPacket event. */
  datatype Sent = Sent(chain: nat, packet: Packet)

  /** The callbacks a router makes into its applications. */
  datatype Call =
    | OnRecv(chain: nat, packet: Packet, ack: bytes)
    | OnAck(chain: nat, packet: Packet, ack: bytes)
    | OnTimeout(chain: nat, packet: Packet)

  datatype World = World(chains: seq<Chain>, log: seq<Sent>, calls: seq<Call>)

  datatype Step =
    | Send(chain: nat, port: bytes, client: bytes, timeout: nat, payload: Payload)
    | Recv(chain: nat, packet: Packet, height: nat, app: AppResult)
    | Ack(chain: nat, packet: Packet, ack: bytes, height: nat, callbackOk: bool)
    | Timeout(chain: nat, packet: Packet, height: nat, callbackOk: bool)
    | Block(chain: nat, time: nat)

  ghost predicate WellLinked(links: Links, n: nat) {
    forall e :: e in links ==>
      e.chain < n && e.client != [] && links[e] in links && links[links[e]] == e
  }

  function Counterparty(links: Links, e: End): Option<bytes> {
    if e in links then Some(links[e].client) else None
  }

  /** What a sound light client of `e`'s counterparty accepts: the record is in that block of that chain. */
  predicate ProvesMember(links: Links, w: World, e: End, height: nat, path: bytes, value: Commitment) {
    && e in links && links[e].chain < |w.chains|
    && var history := w.chains[links[e].chain].history;
    && height < |history|
    && path in history[height].store && history[height].store[path] == value
  }

  /** The block time a sound light client returns when the path is absent from that block. */
  function ProvesAbsent(links: Links, w: World, e: End, height: nat, path: bytes): Option<nat> {
    if e in links && links[e].chain < |w.chains| then
      var history := w.chains[links[e].chain].history;
      if height < |history| && path !in history[height].store then Some(history[height].time) else None
    else None
  }

  function SetRouter(w: World, x: nat, r: RouterState): World
    requires x < |w.chains|
  {
    w.(chains := w.chains[x := w.chains[x].(router := r)])
  }

  /** The record a step must show to be on the counterparty. */
  predicate Member(links: Links, w: World, step: Step) {
    match step
    case Recv(x, p, height, _) =>
      ProvesMember(links, w, End(x, p.destClient), height, PacketPath(p), CommitmentOf(p))
    case Ack(x, p, ack, height, _) =>
      ProvesMember(links, w, End(x, p.sourceClient), height, AckPath(p), AckCommit([ack]))
    case _ => false
  }

  /** The time at which a timeout shows the receipt to be missing. */
  function Absent(links: Links, w: World, step: Step): Option<nat> {
    match step
    case Timeout(x, p, height, _) => ProvesAbsent(links, w, End(x, p.sourceClient), height, ReceiptPath(p))
    case _ => None
  }

  /** One step, given what the light client says of its proof. */
  function ApplyWith(links: Links, w: World, step: Step, member: bool, absent: Option<nat>): Result<World> {
    if step.chain >= |w.chains| then Err("no such chain")
    else
      var x := step.chain;
      var c := w.chains[x];
      match step
      case Send(_, port, client, timeout, payload) =>
        (match SendPacket(c.router, Counterparty(links, End(x, client)), port, client, timeout, payload, c.now)
         case Err(e) => Err(e)
         case Ok((r, p)) => Ok(SetRouter(w, x, r).(log := w.log + [Sent(x, p)])))
      case Recv(_, p, height, app) =>
        (match RecvPacket(c.router, Counterparty(links, End(x, p.destClient)), p, c.now, member, app)
         case Err(e) => Err(e)
         case Ok((r, None)) => Ok(w)
         case Ok((r, Some(ack))) => Ok(SetRouter(w, x, r).(calls := w.calls + [OnRecv(x, p, ack)])))
      case Ack(_, p, ack, height, callbackOk) =>
        (match AckPacket(c.router, Counterparty(links, End(x, p.sourceClient)), p, member, callbackOk)
         case Err(e) => Err(e)
         case Ok((r, called)) =>
           Ok(if called then SetRouter(w, x, r).(calls := w.calls + [OnAck(x, p, ack)]) else w))
      case Timeout(_, p, height, callbackOk) =>
        (match TimeoutPacket(c.router, Counterparty(links, End(x, p.sourceClient)), p, absent, callbackOk)
         case Err(e) => Err(e)
         case Ok((r, called)) =>
           Ok(if called then SetRouter(w, x, r).(calls := w.calls + [OnTimeout(x, p)]) else w))
      case Block(_, time) =>
        if time < c.now then Err("time does not run backwards")
        else Ok(w.(chains := w.chains[x :=
          c.(now := time, history := c.history + [Snapshot(c.router.store, c.now)])]))
  }

  /** One step under light clients that are always right. */
  function Apply(links: Links, w: World, step: Step): Result<World> {
    ApplyWith(links, w, step, Member(links, w, step), Absent(links, w, step))
  }

  /** A reverted step leaves the world as it was. */
  function Run(links: Links, w: World, steps: seq<Step>): World {
    if steps == [] then w
    else
      var before := Run(links, w, steps[..|steps| - 1]);
      match Apply(links, before, steps[|steps| - 1])
      case Ok(after) => after
      case Err(_) => before
  }

  function Genesis(n: nat): World {
    World(seq(n, i => Chain(RouterState(map[], map[]), 0, [])), [], [])
  }

  // Invariants

  function Source(s: Sent): End {
    End(s.chain, s.packet.sourceClient)
  }

  predicate SentOk(links: Links, w: World, s: Sent) {
    && s.chain < |w.chains|
    && Source(s) in links
    && links[Source(s)].client == s.packet.destClient
    && s.packet.sequence <= PrevSequence(w.chains[s.chain].router, s.packet.sourceClient)
    && |s.packet.payloads| == 1
  }

  predicate SameKey(s: Sent, t: Sent) {
    Source(s) == Source(t) && s.packet.sequence == t.packet.sequence
  }

  ghost predicate LogOk(links: Links, w: World) {
    && (forall i :: 0 <= i < |w.log| ==> SentOk(links, w, w.log[i]))
    && (forall i, j :: 0 <= i < j < |w.log| ==> !SameKey(w.log[i], w.log[j]))
  }

  /** Every packet commitment in a present or past store of chain `x` is of a packet that `x` sent. */
  ghost predicate PacketsLogged(log: seq<Sent>, x: nat, store: Store) {
    && (forall p: Packet :: PacketPath(p) in store ==> store[PacketPath(p)].PacketCommit?)
    && (forall p: Packet :: PacketPath(p) in store && store[PacketPath(p)] == CommitmentOf(p) ==> Sent(x, p) in log)
  }

  /** Every receipt of chain `x` is of a packet that the counterparty sent, and was acknowledged with it. */
  ghost predicate ReceiptsLogged(links: Links, log: seq<Sent>, x: nat, store: Store) {
    && (forall p: Packet :: ReceiptPath(p) in store <==> AckPath(p) in store)
    && (forall p: Packet :: ReceiptPath(p) in store ==>
          var receipt := store[ReceiptPath(p)];
          && receipt.ReceiptCommit?
          && receipt.packet.destClient == p.destClient && receipt.packet.sequence == p.sequence
          && End(x, p.destClient) in links
          && links[End(x, p.destClient)].client == receipt.packet.sourceClient
          && Sent(links[End(x, p.destClient)].chain, receipt.packet) in log)
    && (forall p: Packet :: AckPath(p) in store ==> store[AckPath(p)].AckCommit? && |store[AckPath(p)].acks| == 1)
  }

  /** A past block: its receipts are still there, and whatever was received since was not yet due in that block. */
  ghost predicate SnapshotOk(log: seq<Sent>, x: nat, c: Chain, snap: Snapshot) {
    && snap.time <= c.now
    && PacketsLogged(log, x, snap.store)
    && (forall p: Packet :: AckPath(p) in snap.store ==>
          AckPath(p) in c.router.store && c.router.store[AckPath(p)] == snap.store[AckPath(p)])
    && (forall p: Packet :: ReceiptPath(p) in c.router.store && ReceiptPath(p) !in snap.store ==>
          c.router.store[ReceiptPath(p)].ReceiptCommit? && c.router.store[ReceiptPath(p)].packet.timeout > snap.time)
  }

  ghost predicate ChainOk(links: Links, log: seq<Sent>, x: nat, c: Chain) {
    && PacketsLogged(log, x, c.router.store)
    && ReceiptsLogged(links, log, x, c.router.store)
    && (forall h :: 0 <= h < |c.history| ==> SnapshotOk(log, x, c, c.history[h]))
  }

  predicate Committed(w: World, s: Sent)
    requires s.chain < |w.chains|
  {
    PacketPath(s.packet) in w.chains[s.chain].router.store
  }

  predicate Received(links: Links, w: World, s: Sent)
    requires Source(s) in links && links[Source(s)].chain < |w.chains|
  {
    ReceiptPath(s.packet) in w.chains[links[Source(s)].chain].router.store
  }

  /** A commitment only disappears once its packet was received or can no longer be. */
  predicate ClosedOk(links: Links, w: World, s: Sent)
    requires s.chain < |w.chains|
    requires Source(s) in links && links[Source(s)].chain < |w.chains|
  {
    !Committed(w, s) ==>
      Received(links, w, s) || s.packet.timeout <= w.chains[links[Source(s)].chain].now
  }

  ghost predicate Inv(links: Links, w: World) {
    && WellLinked(links, |w.chains|)
    && LogOk(links, w)
    && (forall x :: 0 <= x < |w.chains| ==> ChainOk(links, w.log, x, w.chains[x]))
    && (forall i :: 0 <= i < |w.log| ==> ClosedOk(links, w, w.log[i]))
  }

  // What a step that succeeds does

  function SetStore(w: World, x: nat, store: Store): World
    requires x < |w.chains|
  {
    SetRouter(w, x, w.chains[x].router.(store := store))
  }

  ghost predicate Sends(links: Links, w: World, x: nat, p: Packet, w': World) {
    && x < |w.chains|
    && Counterparty(links, End(x, p.sourceClient)) == Some(p.destClient)
    && p.sequence == PrevSequence(w.chains[x].router, p.sourceClient) + 1 && |p.payloads| == 1
    && var r := w.chains[x].router;
    && PacketPath(p) !in r.store
    && var r' := RouterState(r.store[PacketPath(p) := CommitmentOf(p)], r.sent[p.sourceClient := p.sequence]);
    && w' == SetRouter(w, x, r')
             .(log := w.log + [Sent(x, p)])
  }

  ghost predicate Receives(links: Links, w: World, x: nat, p: Packet, height: nat, ack: bytes, w': World) {
    && x < |w.chains|
    && Counterparty(links, End(x, p.destClient)) == Some(p.sourceClient)
    && w.chains[x].now < p.timeout
    && ProvesMember(links, w, End(x, p.destClient), height, PacketPath(p), CommitmentOf(p))
    && var store := w.chains[x].router.store;
    && ReceiptPath(p) !in store
    && w' == SetStore(w, x, store[ReceiptPath(p) := ReceiptCommit(p)][AckPath(p) := AckCommit([ack])])
             .(calls := w.calls + [OnRecv(x, p, ack)])
  }

  ghost predicate Closes(links: Links, w: World, x: nat, p: Packet, w': World, call: Call) {
    && x < |w.chains|
    && Counterparty(links, End(x, p.sourceClient)) == Some(p.destClient)
    && var store := w.chains[x].router.store;
    && PacketPath(p) in store && store[PacketPath(p)] == CommitmentOf(p)
    && w' == SetStore(w, x, store - {PacketPath(p)}).(calls := w.calls + [call])
    && call.chain == x && call.packet == p
  }

  ghost predicate Acknowledges(
    links: Links, w: World, x: nat, p: Packet, ack: bytes, height: nat, w': World)
  {
    && Closes(links, w, x, p, w', OnAck(x, p, ack))
    && ProvesMember(links, w, End(x, p.sourceClient), height, AckPath(p), AckCommit([ack]))
  }

  ghost predicate TimesOut(links: Links, w: World, x: nat, p: Packet, height: nat, w': World) {
    && Closes(links, w, x, p, w', OnTimeout(x, p))
    && var proofTime := ProvesAbsent(links, w, End(x, p.sourceClient), height, ReceiptPath(p));
    && proofTime.Some? && p.timeout <= proofTime.value
  }

  ghost predicate Advances(w: World, x: nat, time: nat, w': World) {
    && x < |w.chains| && w.chains[x].now <= time
    && var c := w.chains[x];
    && w' == w.(chains := w.chains[x :=
         c.(now := time, history := c.history + [Snapshot(c.router.store, c.now)])])
  }

  /** The step handed a packet to its application, which gave an acknowledgement. */
  predicate Answered(w: World, w': World) {
    |w'.calls| == |w.calls| + 1 && w'.calls[|w.calls|].OnRecv?
  }

  function NewAck(w: World, w': World): bytes
    requires Answered(w, w')
  {
    w'.calls[|w.calls|].ack
  }

  /** Every successful step is one of these, or changes nothing. */
  ghost predicate StepEffect(links: Links, w: World, step: Step, w': World) {
    match step
    case Send(x, _, _, _, payload) =>
      |w'.log| == |w.log| + 1 && Sends(links, w, x, w'.log[|w.log|].packet, w') &&
      w'.log[|w.log|].packet.payloads == [payload] && payload.sourcePort == step.port
    case Recv(x, p, height, app) =>
      w' == w || (Answered(w, w') && Answers(app, NewAck(w, w')) && Receives(links, w, x, p, height, NewAck(w, w'), w'))
    case Ack(x, p, ack, height, _) => w' == w || Acknowledges(links, w, x, p, ack, height, w')
    case Timeout(x, p, height, _) => w' == w || TimesOut(links, w, x, p, height, w')
    case Block(x, time) => Advances(w, x, time, w')
  }

  lemma ApplyEffect(links: Links, w: World, step: Step, w': World)
    requires Apply(links, w, step) == Ok(w')
    ensures StepEffect(links, w, step, w')
  {
    if step.Recv? {
      var x, p := step.chain, step.packet;
      RecvIff(w.chains[x].router, Counterparty(links, End(x, p.destClient)), p, w.chains[x].now, Member(links, w, step),
              step.app);
    }
  }

  // Facts about the packet a step is about

  lemma PathsOf(p: Packet, q: Packet)
    ensures PacketPath(p) != ReceiptPath(q) && PacketPath(p) != AckPath(q) && ReceiptPath(p) != AckPath(q)
    ensures ReceiptPath(p) == ReceiptPath(q) <==> p.destClient == q.destClient && p.sequence == q.sequence
    ensures AckPath(p) == AckPath(q) <==> p.destClient == q.destClient && p.sequence == q.sequence
    ensures PacketPath(p) == PacketPath(q) <==> p.sourceClient == q.sourceClient && p.sequence == q.sequence
  {
    PathsReadBack();
  }

  lemma SameKeySame(links: Links, w: World, s: Sent, t: Sent)
    requires LogOk(links, w) && s in w.log && t in w.log && SameKey(s, t)
    ensures s == t
  {
    var i :| 0 <= i < |w.log| && w.log[i] == s;
    var j :| 0 <= j < |w.log| && w.log[j] == t;
  }

  lemma LoggedOk(links: Links, w: World, s: Sent)
    requires LogOk(links, w) && s in w.log
    ensures SentOk(links, w, s)
  {
  }

  /** A packet received for the first time was sent by the counterparty and is still committed there. */
  lemma RecvFacts(links: Links, w: World, x: nat, p: Packet, height: nat, ack: bytes, w': World)
    requires Inv(links, w) && Receives(links, w, x, p, height, ack, w')
    ensures End(x, p.destClient) in links
    ensures var s := Sent(links[End(x, p.destClient)].chain, p);
      && s in w.log && Source(s) in links && links[Source(s)] == End(x, p.destClient)
      && s.chain < |w.chains| && Committed(w, s) && !Received(links, w, s)
  {
    var y := links[End(x, p.destClient)].chain;
    assert ChainOk(links, w.log, y, w.chains[y]);
    assert SnapshotOk(w.log, y, w.chains[y], w.chains[y].history[height]);
    var i :| 0 <= i < |w.log| && w.log[i] == Sent(y, p);
    assert ClosedOk(links, w, w.log[i]);
  }

  /** An acknowledged packet was sent here, and its acknowledgement is the one the counterparty recorded for it. */
  lemma AckFacts(links: Links, w: World, x: nat, p: Packet, ack: bytes, height: nat, w': World)
    requires Inv(links, w) && Acknowledges(links, w, x, p, ack, height, w')
    ensures var s := Sent(x, p);
      && s in w.log && Source(s) in links && links[Source(s)].chain < |w.chains|
      && Committed(w, s) && Received(links, w, s) && AckRecorded(w, links[Source(s)].chain, p, ack)
  {
    assert ChainOk(links, w.log, x, w.chains[x]);
    var y := links[End(x, p.sourceClient)].chain;
    assert ChainOk(links, w.log, y, w.chains[y]);
    assert SnapshotOk(w.log, y, w.chains[y], w.chains[y].history[height]);
  }

  /** A packet that times out was sent here, was not received, and is too old to be received later. */
  lemma TimeoutFacts(links: Links, w: World, x: nat, p: Packet, height: nat, w': World)
    requires Inv(links, w) && TimesOut(links, w, x, p, height, w')
    ensures var s := Sent(x, p);
      && s in w.log && Source(s) in links && links[Source(s)].chain < |w.chains|
      && Committed(w, s) && !Received(links, w, s)
      && p.timeout <= w.chains[links[Source(s)].chain].now
  {
    var s := Sent(x, p);
    assert ChainOk(links, w.log, x, w.chains[x]);
    assert s in w.log;
    var y := links[Source(s)].chain;
    var c := w.chains[y];
    assert ChainOk(links, w.log, y, c);
    assert SnapshotOk(w.log, y, c, c.history[height]);
    if Received(links, w, s) {
      SameKeySame(links, w, s, Sent(x, c.router.store[ReceiptPath(p)].packet));
    }
  }

  // Preservation of the store invariant

  lemma SendKeepsLog(links: Links, w: World, x: nat, p: Packet, w': World)
    requires Inv(links, w) && Sends(links, w, x, p, w')
    ensures LogOk(links, w')
  {
    var n := |w.log|;
    forall i | 0 <= i < n
      ensures SentOk(links, w', w'.log[i]) && !SameKey(w'.log[i], w'.log[n])
    {
      assert SentOk(links, w, w.log[i]);
    }
  }

  /** More log entries and a new packet commitment leave the other facts about a chain as they were. */
  lemma LoggedMore(links: Links, log: seq<Sent>, log': seq<Sent>, x: nat, c: Chain)
    requires ChainOk(links, log, x, c) && log <= log'
    ensures ChainOk(links, log', x, c)
  {
    forall s | s in log ensures s in log' {
      var i :| 0 <= i < |log| && log[i] == s;
      assert log'[i] == s;
    }
    forall h | 0 <= h < |c.history| ensures SnapshotOk(log', x, c, c.history[h]) {
      assert SnapshotOk(log, x, c, c.history[h]);
    }
  }

  lemma CommitKeepsChain(links: Links, log: seq<Sent>, x: nat, c: Chain, p: Packet, r: RouterState)
    requires ChainOk(links, log, x, c) && Sent(x, p) in log
    requires r.store == c.router.store[PacketPath(p) := CommitmentOf(p)]
    ensures ChainOk(links, log, x, c.(router := r))
  {
    PathsReadBack();
    var c' := c.(router := r);
    forall q: Packet ensures ReceiptPath(q) != PacketPath(p) && AckPath(q) != PacketPath(p) {}
    forall q: Packet | PacketPath(q) in r.store && r.store[PacketPath(q)] == CommitmentOf(q) ensures Sent(x, q) in log {
      if PacketPath(q) == PacketPath(p) {
        assert q == p;
      }
    }
    forall h | 0 <= h < |c'.history| ensures SnapshotOk(log, x, c', c'.history[h]) {
      assert SnapshotOk(log, x, c, c.history[h]);
    }
  }

  lemma SendKeeps(links: Links, w: World, x: nat, p: Packet, w': World)
    requires Inv(links, w) && Sends(links, w, x, p, w')
    ensures Inv(links, w')
  {
    SendKeepsLog(links, w, x, p, w');
    assert w'.log[|w.log|] in w'.log;
    forall y | 0 <= y < |w'.chains| ensures ChainOk(links, w'.log, y, w'.chains[y]) {
      LoggedMore(links, w.log, w'.log, y, w.chains[y]);
      if y == x {
        CommitKeepsChain(links, w'.log, x, w.chains[x], p, w'.chains[x].router);
      }
    }
    forall i | 0 <= i < |w'.log| ensures ClosedOk(links, w', w'.log[i]) {
      if i < |w.log| {
        assert ClosedOk(links, w, w.log[i]);
        PathsOf(p, w.log[i].packet);
      }
    }
  }

  lemma ReceiveKeepsReceipts(links: Links, log: seq<Sent>, x: nat, store: Store, p: Packet, ack: bytes, store': Store)
    requires ReceiptsLogged(links, log, x, store)
    requires End(x, p.destClient) in links && links[End(x, p.destClient)].client == p.sourceClient
    requires Sent(links[End(x, p.destClient)].chain, p) in log
    requires store' == store[ReceiptPath(p) := ReceiptCommit(p)][AckPath(p) := AckCommit([ack])]
    ensures ReceiptsLogged(links, log, x, store')
  {
    forall q: Packet
      ensures ReceiptPath(q) in store' <==> AckPath(q) in store'
    {
      PathsOf(p, q);
      PathsOf(q, p);
    }
    forall q: Packet | ReceiptPath(q) in store'
      ensures
        var receipt := store'[ReceiptPath(q)];
        && receipt.ReceiptCommit?
        && receipt.packet.destClient == q.destClient && receipt.packet.sequence == q.sequence
        && End(x, q.destClient) in links
        && links[End(x, q.destClient)].client == receipt.packet.sourceClient
        && Sent(links[End(x, q.destClient)].chain, receipt.packet) in log
    {
      PathsOf(p, q);
      PathsOf(q, p);
    }
    forall q: Packet | AckPath(q) in store'
      ensures store'[AckPath(q)].AckCommit? && |store'[AckPath(q)].acks| == 1
    {
      PathsOf(p, q);
      PathsOf(q, p);
    }
  }

  lemma ReceiveKeepsPackets(log: seq<Sent>, x: nat, store: Store, p: Packet, ack: bytes, store': Store)
    requires PacketsLogged(log, x, store)
    requires store' == store[ReceiptPath(p) := ReceiptCommit(p)][AckPath(p) := AckCommit([ack])]
    ensures PacketsLogged(log, x, store')
  {
    forall q: Packet
      ensures PacketPath(q) in store' ==> PacketPath(q) in store && store'[PacketPath(q)] == store[PacketPath(q)]
    {
      PathsOf(q, p);
    }
  }

  lemma ReceiveKeepsSnapshot(
    links: Links, log: seq<Sent>, x: nat, c: Chain, p: Packet, ack: bytes, c': Chain, snap: Snapshot)
    requires SnapshotOk(log, x, c, snap) && ReceiptsLogged(links, log, x, c.router.store)
    requires ReceiptPath(p) !in c.router.store && c.now < p.timeout && c'.now == c.now
    requires c'.router.store == c.router.store[ReceiptPath(p) := ReceiptCommit(p)][AckPath(p) := AckCommit([ack])]
    ensures SnapshotOk(log, x, c', snap)
  {
    forall q: Packet | AckPath(q) in snap.store
      ensures AckPath(q) in c'.router.store && c'.router.store[AckPath(q)] == snap.store[AckPath(q)]
    {
      PathsOf(p, q);
      PathsOf(q, p);
      assert ReceiptPath(q) in c.router.store;
    }
    forall q: Packet | ReceiptPath(q) in c'.router.store && ReceiptPath(q) !in snap.store
      ensures c'.router.store[ReceiptPath(q)].ReceiptCommit? &&
        c'.router.store[ReceiptPath(q)].packet.timeout > snap.time
    {
      PathsOf(p, q);
      PathsOf(q, p);
    }
  }

  lemma RecvKeeps(links: Links, w: World, x: nat, p: Packet, height: nat, ack: bytes, w': World)
    requires Inv(links, w) && Receives(links, w, x, p, height, ack, w')
    ensures Inv(links, w')
  {
    RecvFacts(links, w, x, p, height, ack, w');
    var c, c' := w.chains[x], w'.chains[x];
    assert ChainOk(links, w.log, x, c);
    ReceiveKeepsReceipts(links, w.log, x, c.router.store, p, ack, c'.router.store);
    ReceiveKeepsPackets(w.log, x, c.router.store, p, ack, c'.router.store);
    forall h | 0 <= h < |c.history| ensures SnapshotOk(w.log, x, c', c'.history[h]) {
      ReceiveKeepsSnapshot(links, w.log, x, c, p, ack, c', c.history[h]);
    }
    forall i | 0 <= i < |w.log| ensures ClosedOk(links, w', w'.log[i]) && SentOk(links, w', w'.log[i]) {
      assert ClosedOk(links, w, w.log[i]) && SentOk(links, w, w.log[i]);
      PathsOf(w.log[i].packet, p);
    }
  }

  /** Closing a packet commitment is all that an acknowledgement or a timeout does to the stores. */
  lemma CloseKeepsChain(links: Links, log: seq<Sent>, x: nat, c: Chain, p: Packet, r: RouterState)
    requires ChainOk(links, log, x, c) && r.store == c.router.store - {PacketPath(p)}
    ensures ChainOk(links, log, x, c.(router := r))
  {
    var c' := c.(router := r);
    forall q: Packet ensures PacketPath(p) != ReceiptPath(q) && PacketPath(p) != AckPath(q) {
      PathsOf(p, q);
    }
    forall h | 0 <= h < |c.history| ensures SnapshotOk(log, x, c', c'.history[h]) {
      assert SnapshotOk(log, x, c, c.history[h]);
    }
  }

  lemma CloseKeeps(links: Links, w: World, x: nat, p: Packet, w': World, call: Call)
    requires Inv(links, w) && Closes(links, w, x, p, w', call)
    requires ClosedOk(links, w', Sent(x, p)) && Sent(x, p) in w.log
    ensures Inv(links, w')
  {
    assert ChainOk(links, w.log, x, w.chains[x]);
    CloseKeepsChain(links, w.log, x, w.chains[x], p, w'.chains[x].router);
    forall i | 0 <= i < |w.log| ensures ClosedOk(links, w', w'.log[i]) && SentOk(links, w', w'.log[i]) {
      var s := w.log[i];
      assert ClosedOk(links, w, s) && SentOk(links, w, s);
      PathsOf(p, s.packet);
      if s.chain == x && PacketPath(s.packet) == PacketPath(p) {
        SameKeySame(links, w, s, Sent(x, p));
      }
    }
  }

  lemma AdvanceKeeps(links: Links, w: World, x: nat, time: nat, w': World)
    requires Inv(links, w) && Advances(w, x, time, w')
    ensures Inv(links, w')
  {
    var c, c' := w.chains[x], w'.chains[x];
    assert ChainOk(links, w.log, x, c);
    forall h | 0 <= h < |c'.history| ensures SnapshotOk(w.log, x, c', c'.history[h]) {
      if h < |c.history| {
        assert SnapshotOk(w.log, x, c, c.history[h]);
      }
    }
    forall i | 0 <= i < |w.log| ensures ClosedOk(links, w', w'.log[i]) && SentOk(links, w', w'.log[i]) {
      assert ClosedOk(links, w, w.log[i]) && SentOk(links, w, w.log[i]);
    }
  }

  lemma StepKeeps(links: Links, w: World, step: Step, w': World)
    requires Inv(links, w) && StepEffect(links, w, step, w')
    ensures Inv(links, w')
  {
    match step
    case Send(x, _, _, _, _) => SendKeeps(links, w, x, w'.log[|w.log|].packet, w');
    case Recv(x, p, height, app) =>
      if w' != w {
        RecvKeeps(links, w, x, p, height, NewAck(w, w'), w');
      }
    case Ack(x, p, ack, height, _) =>
      if w' != w {
        AckFacts(links, w, x, p, ack, height, w');
        PathsOf(p, p);
        CloseKeeps(links, w, x, p, w', OnAck(x, p, ack));
      }
    case Timeout(x, p, height, _) =>
      if w' != w {
        TimeoutFacts(links, w, x, p, height, w');
        PathsOf(p, p);
        CloseKeeps(links, w, x, p, w', OnTimeout(x, p));
      }
    case Block(x, time) => AdvanceKeeps(links, w, x, time, w');
  }

  // Callbacks

  predicate SameCallback(a: Call, b: Call) {
    a.chain == b.chain && a.packet == b.packet && (a.OnRecv? <==> b.OnRecv?)
  }

  predicate AckRecorded(w: World, x: nat, p: Packet, ack: bytes)
    requires x < |w.chains|
  {
    var store := w.chains[x].router.store;
    AckPath(p) in store && store[AckPath(p)] == AckCommit([ack])
  }

  predicate HoldsReceipt(store: Store, p: Packet) {
    ReceiptPath(p) in store && store[ReceiptPath(p)] == ReceiptCommit(p)
  }

  /** What a callback made in the past says about the stores now. */
  ghost predicate CallOk(links: Links, w: World, call: Call) {
    var x, p := call.chain, call.packet;
    && x < |w.chains|
    && if call.OnRecv? then
         HoldsReceipt(w.chains[x].router.store, p) && AckRecorded(w, x, p, call.ack)
       else
         var s := Sent(x, p);
         && s in w.log && Source(s) in links && links[Source(s)].chain < |w.chains| && !Committed(w, s)
         && if call.OnAck? then AckRecorded(w, links[Source(s)].chain, p, call.ack)
            else !Received(links, w, s) && p.timeout <= w.chains[links[Source(s)].chain].now
  }

  ghost predicate CallsOk(links: Links, w: World) {
    && (forall k :: 0 <= k < |w.calls| ==> CallOk(links, w, w.calls[k]))
    && (forall j, k :: 0 <= j < k < |w.calls| ==> !SameCallback(w.calls[j], w.calls[k]))
    && (forall x, p: Packet :: 0 <= x < |w.chains| && HoldsReceipt(w.chains[x].router.store, p) ==>
          exists ack :: OnRecv(x, p, ack) in w.calls && AckRecorded(w, x, p, ack))
  }

  lemma SentCallKept(links: Links, w: World, x: nat, p: Packet, w': World, call: Call)
    requires Inv(links, w) && Sends(links, w, x, p, w') && CallOk(links, w, call)
    ensures CallOk(links, w', call)
  {
    PathsOf(p, call.packet);
    if !call.OnRecv? {
      LoggedOk(links, w, Sent(call.chain, call.packet));
    }
  }

  lemma ClosedCallKept(links: Links, w: World, x: nat, p: Packet, w': World, made: Call, call: Call)
    requires Closes(links, w, x, p, w', made) && CallOk(links, w, call)
    ensures CallOk(links, w', call)
  {
    PathsOf(p, call.packet);
  }

  lemma ReceivedCallKept(links: Links, w: World, x: nat, p: Packet, height: nat, ack: bytes, w': World, call: Call)
    requires Inv(links, w) && Receives(links, w, x, p, height, ack, w') && CallOk(links, w, call)
    ensures CallOk(links, w', call)
  {
    hide LogOk, ClosedOk, SnapshotOk, PacketsLogged;
    RecvFacts(links, w, x, p, height, ack, w');
    PathsOf(p, call.packet);
    PathsOf(call.packet, p);
    assert ChainOk(links, w.log, x, w.chains[x]);
    if call.OnTimeout? {
      var s, t := Sent(call.chain, call.packet), Sent(links[End(x, p.destClient)].chain, p);
      LoggedOk(links, w, s);
      if SameKey(s, t) {
        SameKeySame(links, w, s, t);
      }
    }
  }

  lemma CallKept(links: Links, w: World, step: Step, w': World, call: Call)
    requires Inv(links, w) && StepEffect(links, w, step, w') && CallOk(links, w, call)
    ensures CallOk(links, w', call)
  {
    if w' != w {
      match step
      case Send(x, _, _, _, _) => SentCallKept(links, w, x, w'.log[|w.log|].packet, w', call);
      case Recv(x, p, height, app) => ReceivedCallKept(links, w, x, p, height, NewAck(w, w'), w', call);
      case Ack(x, p, ack, _, _) => ClosedCallKept(links, w, x, p, w', OnAck(x, p, ack), call);
      case Timeout(x, p, _, _) => ClosedCallKept(links, w, x, p, w', OnTimeout(x, p), call);
      case Block(_, _) =>
    }
  }

  /** A callback is made only where none of its kind was made for that packet before. */
  lemma NewCallOk(links: Links, w: World, step: Step, w': World)
    requires Inv(links, w) && CallsOk(links, w) && StepEffect(links, w, step, w') && w'.calls != w.calls
    ensures |w'.calls| == |w.calls| + 1 && w.calls == w'.calls[..|w.calls|]
    ensures CallOk(links, w', w'.calls[|w.calls|])
    ensures forall k :: 0 <= k < |w.calls| ==> !SameCallback(w.calls[k], w'.calls[|w.calls|])
  {
    hide LogOk, ChainOk, ClosedOk;
    PathsOf(step.packet, step.packet);
    if step.Recv? {
      RecvFacts(links, w, step.chain, step.packet, step.height, NewAck(w, w'), w');
    } else if step.Ack? {
      AckFacts(links, w, step.chain, step.packet, step.ack, step.height, w');
    } else {
      TimeoutFacts(links, w, step.chain, step.packet, step.height, w');
    }
    forall k | 0 <= k < |w.calls| ensures !SameCallback(w.calls[k], w'.calls[|w.calls|]) {
      assert CallOk(links, w, w.calls[k]);
    }
  }

  lemma ReceiptCalled(links: Links, w: World, step: Step, w': World, x: nat, p: Packet)
    requires Inv(links, w) && CallsOk(links, w) && StepEffect(links, w, step, w') && x < |w.chains| == |w'.chains|
    requires HoldsReceipt(w'.chains[x].router.store, p)
    ensures exists ack :: OnRecv(x, p, ack) in w'.calls && AckRecorded(w', x, p, ack)
  {
    hide Inv;
    if HoldsReceipt(w.chains[x].router.store, p) {
      var ack :| OnRecv(x, p, ack) in w.calls && AckRecorded(w, x, p, ack);
      CallKept(links, w, step, w', OnRecv(x, p, ack));
      assert OnRecv(x, p, ack) in w'.calls;
    } else if step.Recv? {
      PathsOf(p, step.packet);
      var call := w'.calls[|w.calls|];
      assert call in w'.calls && AckRecorded(w', x, p, call.ack);
    }
  }

  lemma CallsKept(links: Links, w: World, step: Step, w': World)
    requires Inv(links, w) && CallsOk(links, w) && StepEffect(links, w, step, w')
    ensures CallsOk(links, w')
  {
    hide Inv, CallOk, HoldsReceipt, AckRecorded, SameCallback;
    if w'.calls != w.calls {
      NewCallOk(links, w, step, w');
    }
    forall k | 0 <= k < |w.calls| ensures CallOk(links, w', w.calls[k]) {
      CallKept(links, w, step, w', w.calls[k]);
    }
    forall x, p: Packet | 0 <= x < |w'.chains| && HoldsReceipt(w'.chains[x].router.store, p)
      ensures exists ack :: OnRecv(x, p, ack) in w'.calls && AckRecorded(w', x, p, ack)
    {
      ReceiptCalled(links, w, step, w', x, p);
    }
  }

  lemma {:induction false} RunKeeps(links: Links, n: nat, steps: seq<Step>)
    requires WellLinked(links, n)
    ensures var w := Run(links, Genesis(n), steps); |w.chains| == n && Inv(links, w) && CallsOk(links, w)
  {
    if steps != [] {
      RunKeeps(links, n, steps[..|steps| - 1]);
      var before := Run(links, Genesis(n), steps[..|steps| - 1]);
      var outcome := Apply(links, before, steps[|steps| - 1]);
      if outcome.Ok? {
        ApplyEffect(links, before, steps[|steps| - 1], outcome.value);
        StepKeeps(links, before, steps[|steps| - 1], outcome.value);
        CallsKept(links, before, steps[|steps| - 1], outcome.value);
      }
    }
  }

  /** Step `k` delivered the packet, and the acknowledgement answers what the application did in it. */
  predicate IsDelivery(steps: seq<Step>, k: int, call: Call)
    requires call.OnRecv?
  {
    && 0 <= k < |steps| && steps[k].Recv? && steps[k].chain == call.chain && steps[k].packet == call.packet
    && Answers(steps[k].app, call.ack)
  }

  lemma {:induction false} DeliveredBy(links: Links, n: nat, steps: seq<Step>, call: Call)
    requires WellLinked(links, n) && call in Run(links, Genesis(n), steps).calls && call.OnRecv?
    ensures exists k :: IsDelivery(steps, k, call)
  {
    hide Apply, StepEffect, Inv, CallsOk;
    if steps != [] {
      var last := |steps| - 1;
      var before, after := Run(links, Genesis(n), steps[..last]), Run(links, Genesis(n), steps);
      if call in before.calls {
        DeliveredBy(links, n, steps[..last], call);
        var k :| IsDelivery(steps[..last], k, call);
        assert IsDelivery(steps, k, call);
      } else {
        ApplyEffect(links, before, steps[last], after);
        NewDelivery(links, before, steps[last], after, call);
        assert IsDelivery(steps, last, call);
      }
    }
  }

  lemma NewDelivery(links: Links, w: World, step: Step, w': World, call: Call)
    requires StepEffect(links, w, step, w') && call in w'.calls && call !in w.calls && call.OnRecv?
    ensures step.Recv? && step.chain == call.chain && step.packet == call.packet && Answers(step.app, call.ack)
  {
  }

  /** In every run, on every chain: a packet is handed to its destination at most once and only if it was sent;
      its sender hears of it at most once; it hears a timeout only if the packet never was and never will be
      received, and an acknowledgement only if it is what the destination's application answered. */
  lemma ExactlyOnce(links: Links, n: nat, steps: seq<Step>)
    requires WellLinked(links, n)
    ensures var w := Run(links, Genesis(n), steps);
      forall j, k :: 0 <= j < k < |w.calls| ==> !SameCallback(w.calls[j], w.calls[k])
    ensures var w := Run(links, Genesis(n), steps);
      forall call :: call in w.calls && call.OnRecv? ==>
        && End(call.chain, call.packet.destClient) in links
        && Sent(links[End(call.chain, call.packet.destClient)].chain, call.packet) in w.log
    ensures var w := Run(links, Genesis(n), steps);
      forall call :: call in w.calls && !call.OnRecv? ==>
        && Sent(call.chain, call.packet) in w.log && End(call.chain, call.packet.sourceClient) in links
        && var dest := links[End(call.chain, call.packet.sourceClient)].chain;
        && (call.OnAck? ==> OnRecv(dest, call.packet, call.ack) in w.calls)
        && (call.OnTimeout? ==> forall ack :: OnRecv(dest, call.packet, ack) !in w.calls)
    ensures var w := Run(links, Genesis(n), steps);
      forall call :: call in w.calls && call.OnRecv? ==> exists k :: IsDelivery(steps, k, call)
  {
    RunKeeps(links, n, steps);
    var w := Run(links, Genesis(n), steps);
    forall call | call in w.calls && call.OnRecv? ensures exists k :: IsDelivery(steps, k, call) {
      DeliveredBy(links, n, steps, call);
    }
    forall call | call in w.calls && call.OnRecv?
      ensures End(call.chain, call.packet.destClient) in links
      ensures Sent(links[End(call.chain, call.packet.destClient)].chain, call.packet) in w.log
    {
      assert ChainOk(links, w.log, call.chain, w.chains[call.chain]);
    }
    forall call | call in w.calls && call.OnAck?
      ensures OnRecv(links[End(call.chain, call.packet.sourceClient)].chain, call.packet, call.ack) in w.calls
    {
      AckedWasReceived(links, w, call);
    }
    forall call | call in w.calls && call.OnTimeout?
      ensures forall ack :: OnRecv(links[End(call.chain, call.packet.sourceClient)].chain, call.packet, ack) !in w.calls
    {
      forall ack ensures OnRecv(links[End(call.chain, call.packet.sourceClient)].chain, call.packet, ack) !in w.calls {
        var received := OnRecv(links[End(call.chain, call.packet.sourceClient)].chain, call.packet, ack);
        assert received in w.calls ==> CallOk(links, w, received);
      }
    }
  }

  lemma AckedWasReceived(links: Links, w: World, call: Call)
    requires Inv(links, w) && CallsOk(links, w) && call in w.calls && call.OnAck?
    ensures End(call.chain, call.packet.sourceClient) in links
    ensures OnRecv(links[End(call.chain, call.packet.sourceClient)].chain, call.packet, call.ack) in w.calls
  {
    var p := call.packet;
    var s := Sent(call.chain, p);
    assert CallOk(links, w, call);
    LoggedOk(links, w, s);
    var y := links[Source(s)].chain;
    assert ChainOk(links, w.log, y, w.chains[y]);
    assert ReceiptPath(p) in w.chains[y].router.store;
    var q := w.chains[y].router.store[ReceiptPath(p)].packet;
    SameKeySame(links, w, s, Sent(call.chain, q));
    assert HoldsReceipt(w.chains[y].router.store, p);
  }
}
