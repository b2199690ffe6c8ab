/** What conservation is for: a transfer that is still open can always be paid out, and can always be brought to an
    end. */
module Solvency {
  import opened Bytes
  import opened Router
  import opened PacketSafety
  import opened Settlement
  import opened Denoms
  import opened Transfer
  import opened Conservation
  import Erc20

  /** In every run, for every client and every token: the escrow holds at least the vouchers issued at the other end
      plus all unsettled transfers of the token, in both directions. */
  lemma Conserved(links: Links, selves: seq<Address>, steps: seq<NetStep>, home: Home)
    requires WellLinked(links, |selves|) && SlashFreeIds(links)
    requires home.end in links && !CameOver(home.end.client, home.denom)
    ensures var net := NetRun(links, NetGenesis(selves), steps);
      && |net.ledgers| == |selves| && home.end.chain < |selves| && links[home.end].chain < |selves|
      && Escrowed(net.ledgers[home.end.chain], home.end.client, home.denom) >=
           VoucherSupply(net.ledgers[links[home.end].chain], Trace(links[home.end].client, home.denom)) +
           InFlight(links, net.world.log, OpenFlags(links, net.world), home)
  {
    NetRunKeeps(links, selves, steps);
    RunSize(links, NetGenesis(selves), steps);
    var net := NetRun(links, NetGenesis(selves), steps);
    assert FundsOk(links, net, home);
  }

  lemma {:induction false} RunSize(links: Links, net: Net, steps: seq<NetStep>)
    ensures |NetRun(links, net, steps).ledgers| == |net.ledgers|
  {
    hide Apply, SendTransfer, OnReceive, OnRefund, OnAcknowledge, UserCall, DeployToken, UnlinkedLedger;
    if steps != [] {
      RunSize(links, net, steps[..|steps| - 1]);
    }
  }

  lemma {:induction false} ClaimWithin(links: Links, log: seq<Sent>, open: seq<bool>, k: nat, home: Home)
    requires |log| == |open| && k < |open| && open[k]
    ensures InFlight(links, log, open, home) >= Claim(links, log[k], home)
  {
    InFlightSettle(links, log, open, k, home);
  }

  /** An open transfer is covered at its home, on top of all vouchers issued for that home. */
  lemma OpenIsCovered(links: Links, net: Net, k: nat)
    requires NetInv(links, net) && k < |net.world.log|
    requires Open(links, net.world, net.world.log[k]) && FromTransfer(net.world.log[k].packet)
    ensures var s := net.world.log[k];
      && s.chain < |net.ledgers| && Source(s) in links && links[Source(s)].chain < |net.ledgers|
      && TransferOk(net.ledgers, s)
      && var data := s.packet.payloads[0].value.data;
      && var home := HomeOf(links, s, data.denom);
      && home.end in links && home.end.chain < |net.ledgers| && links[home.end].chain < |net.ledgers|
      && TokenFor(net.ledgers[home.end.chain], home.denom).Some?
      && Escrowed(net.ledgers[home.end.chain], home.end.client, home.denom) >=
           VoucherSupply(net.ledgers[links[home.end].chain], Trace(links[home.end].client, home.denom)) + data.amount
  {
    hide LedgerOk, TokenFor, CameOver, Unwind, Trace, Escrowed, VoucherSupply, InFlight;
    var s := net.world.log[k];
    assert s in net.world.log;
    TransferHome(links, net, s);
    var data := s.packet.payloads[0].value.data;
    var home := HomeOf(links, s, data.denom);
    assert FundsOk(links, net, home);
    LinkBack(links, net.world, Source(s));
    LinkBack(links, net.world, home.end);
    ClaimWithin(links, net.world.log, OpenFlags(links, net.world), k, home);
    assert Claim(links, s, home) == data.amount;
  }

  lemma PayOutSucceeds(l: Ledger, client: bytes, t: Address, to: Address, v: uint256)
    requires LedgerOk(l) && t in l.tokens && client in l.escrows && Bal(l, t, l.escrows[client]) >= v && to != 0
    ensures PayOut(l, t, l.escrows[client], to, v).Ok?
  {
  }

  lemma MintSucceeds(l: Ledger, client: bytes, trace: bytes, v: uint256)
    requires LedgerOk(l) && trace in l.contracts && SlashFree(client) && CameOver(client, trace)
    requires VoucherSupply(l, trace) + v < TWO_256
    ensures client in l.escrows && MintAt(l, l.contracts[trace], l.escrows[client], v).Ok?
  {
  }

  lemma MintedIsThere(l: Ledger, t: Address, e: Address, v: uint256, l1: Ledger)
    requires LedgerOk(l) && MintAt(l, t, e, v) == Ok(l1)
    ensures t in l1.tokens && Bal(l1, t, e) >= v
  {
    Erc20.UpdateExact(l.tokens[t], 0, e, v);
  }

  /** An open transfer can be refunded exactly if its sender field is a usable address: funds are never the reason a
      refund fails. */
  lemma RefundNeverShort(links: Links, net: Net, k: nat)
    requires NetInv(links, net) && k < |net.world.log|
    requires Open(links, net.world, net.world.log[k]) && FromTransfer(net.world.log[k].packet)
    ensures var p := net.world.log[k].packet;
      && net.world.log[k].chain < |net.ledgers| && p.payloads[0].value.Transfer?
      && var sender := ParseAddress(p.payloads[0].value.data.sender);
      && RefundTransfer(net.ledgers[net.world.log[k].chain], p.sourceClient, p.payloads[0].value.data).Ok? <==>
           sender.Some? && sender.value != 0
  {
    hide LedgerOk, TokenFor, CameOver, Unwind, Trace, MintAt, HomeOf;
    OpenIsCovered(links, net, k);
    var s := net.world.log[k];
    var data := s.packet.payloads[0].value.data;
    RefundByKind(links, net, s, data);
  }

  lemma RefundByKind(links: Links, net: Net, s: Sent, data: TransferData)
    requires NetInv(links, net) && s.chain < |net.ledgers| && Source(s) in links &&
      links[Source(s)].chain < |net.ledgers|
    requires TokenFor(net.ledgers[s.chain], data.denom).Some? && s.packet.sourceClient in net.ledgers[s.chain].escrows
    requires var home := HomeOf(links, s, data.denom);
      && home.end in links && home.end.chain < |net.ledgers| && links[home.end].chain < |net.ledgers|
      && Escrowed(net.ledgers[home.end.chain], home.end.client, home.denom) >=
           VoucherSupply(net.ledgers[links[home.end].chain], Trace(links[home.end].client, home.denom)) + data.amount
    requires data.amount > 0
    ensures var sender := ParseAddress(data.sender);
      RefundTransfer(net.ledgers[s.chain], s.packet.sourceClient, data).Ok? <==> sender.Some? && sender.value != 0
  {
    hide LedgerOk, TokenFor, CameOver, Unwind, Trace, MintAt, Inv, ParseDigits;
    var l, client, v := net.ledgers[s.chain], s.packet.sourceClient, data.amount;
    LinkBack(links, net.world, Source(s));
    TokenNamesDenom(l, data.denom);
    if CameOver(client, data.denom) {
      VoucherLookup(l, client, data.denom);
      UnwoundTrace(client, data.denom);
      MintSucceeds(l, client, data.denom, v);
      var t, e := l.contracts[data.denom], l.escrows[client];
      var l1 := MintAt(l, t, e, v).value;
      MintAtKeeps(l, t, e, v, l1);
      MintedIsThere(l, t, e, v, l1);
      if ParseAddress(data.sender).Some? && ParseAddress(data.sender).value != 0 {
        PayOutSucceeds(l1, client, t, ParseAddress(data.sender).value, v);
      }
    } else {
      LookupsAgree(l, data.denom);
      var t := TokenFor(l, data.denom).value;
      if ParseAddress(data.sender).Some? && ParseAddress(data.sender).value != 0 {
        PayOutSucceeds(l, client, t, ParseAddress(data.sender).value, v);
      }
    }
  }

  /** The contracts a delivery may have to create can be created. */
  predicate CanCreate(l: Ledger, p: Packet, denom: bytes, newEscrow: Address, newToken: Address) {
    && EscrowFor(l, p.destClient, newEscrow).Ok?
    && var (l1, escrow) := EscrowFor(l, p.destClient, newEscrow).value;
    && (CameOver(p.sourceClient, denom) || VoucherFor(l1, Trace(p.destClient, denom), escrow, newToken).Ok?)
  }

  /** An open transfer can be delivered exactly if its receiver field is a usable address: neither the escrow's
      balance nor the width of the voucher's supply is ever the reason a delivery fails. */
  lemma DeliveryNeverShort(links: Links, net: Net, k: nat, newEscrow: Address, newToken: Address)
    requires NetInv(links, net) && k < |net.world.log|
    requires Open(links, net.world, net.world.log[k]) && FromTransfer(net.world.log[k].packet)
    requires Source(net.world.log[k]) in links && links[Source(net.world.log[k])].chain < |net.ledgers|
    requires var p := net.world.log[k].packet;
      && p.payloads[0].value.Transfer?
      && CanCreate(net.ledgers[links[Source(net.world.log[k])].chain], p, p.payloads[0].value.data.denom, newEscrow,
           newToken)
    ensures var p := net.world.log[k].packet;
      var l := net.ledgers[links[Source(net.world.log[k])].chain];
      var receiver := ParseAddress(p.payloads[0].value.data.receiver);
      ReceiveTransfer(l, p.sourceClient, p.destClient, p.payloads[0], newEscrow, newToken).Ok? <==>
        receiver.Some? && receiver.value != 0
  {
    hide LedgerOk, TokenFor, CameOver, Unwind, Trace, Inv, ReceiveTransfer, CanCreate, Escrowed, VoucherSupply;
    OpenIsCovered(links, net, k);
    var s := net.world.log[k];
    LinkBack(links, net.world, Source(s));
    LoggedDest(links, net.world, s);
    var l := net.ledgers[links[Source(s)].chain];
    var data := s.packet.payloads[0].value.data;
    if CameOver(s.packet.sourceClient, data.denom) {
      ReturnSucceeds(l, s.packet, data, newEscrow, newToken);
    } else {
      EscrowedWidth(net.ledgers[s.chain], s.packet.sourceClient, data.denom);
      ArrivalSucceeds(l, s.packet, data, newEscrow, newToken);
    }
  }

  lemma EscrowedWidth(l: Ledger, client: bytes, denom: bytes)
    ensures Escrowed(l, client, denom) < TWO_256
  {
  }

  lemma LoggedDest(links: Links, w: World, s: Sent)
    requires Inv(links, w) && s in w.log
    ensures Source(s) in links && links[Source(s)].client == s.packet.destClient
  {
  }

  lemma ReturnSucceeds(l: Ledger, p: Packet, data: TransferData, newEscrow: Address, newToken: Address)
    requires LedgerOk(l) && |p.payloads| == 1 && p.payloads[0] == PayloadOf(data) && data.amount > 0
    requires CameOver(p.sourceClient, data.denom) && TokenFor(l, Unwind(p.sourceClient, data.denom)).Some?
    requires Escrowed(l, p.destClient, Unwind(p.sourceClient, data.denom)) >= data.amount
    ensures var receiver := ParseAddress(data.receiver);
      ReceiveTransfer(l, p.sourceClient, p.destClient, p.payloads[0], newEscrow, newToken).Ok? <==>
        receiver.Some? && receiver.value != 0
  {
    hide LedgerOk, TokenFor, CameOver, Unwind, Trace, ParseDigits;
    var denom := Unwind(p.sourceClient, data.denom);
    LookupsAgree(l, denom);
    TokenNamesDenom(l, denom);
    var receiver := ParseAddress(data.receiver);
    if receiver.Some? && receiver.value != 0 {
      PayOutSucceeds(l, p.destClient, TokenFor(l, denom).value, receiver.value, data.amount);
    }
  }

  lemma ArrivalSucceeds(l: Ledger, p: Packet, data: TransferData, newEscrow: Address, newToken: Address)
    requires LedgerOk(l) && |p.payloads| == 1 && p.payloads[0] == PayloadOf(data) && data.amount > 0
    requires !CameOver(p.sourceClient, data.denom) && SlashFree(p.destClient)
    requires VoucherSupply(l, Trace(p.destClient, data.denom)) + data.amount < TWO_256
    requires CanCreate(l, p, data.denom, newEscrow, newToken)
    ensures var receiver := ParseAddress(data.receiver);
      ReceiveTransfer(l, p.sourceClient, p.destClient, p.payloads[0], newEscrow, newToken).Ok? <==>
        receiver.Some? && receiver.value != 0
  {
    hide LedgerOk, TokenFor, CameOver, Unwind, Trace, ParseDigits, Extends, Shift, EscrowFor, VoucherFor, MintAt,
         VoucherSupply;
    var client, v, trace := p.destClient, data.amount, Trace(p.destClient, data.denom);
    var (l1, escrow) := EscrowFor(l, client, newEscrow).value;
    EscrowForKeeps(l, client, newEscrow, l1, escrow);
    var (l2, t) := VoucherFor(l1, trace, escrow, newToken).value;
    VoucherForKeeps(l1, client, data.denom, newToken, l2, t);
    TraceUnwinds(client, data.denom);
    SameSupply(l, l1, trace);
    SupplyShift(l1, l2, t, escrow, 0, 0, trace);
    MintSucceeds(l2, client, trace, v);
    var l3 := MintAt(l2, t, escrow, v).value;
    MintAtKeeps(l2, t, escrow, v, l3);
    MintedIsThere(l2, t, escrow, v, l3);
    var receiver := ParseAddress(data.receiver);
    if receiver.Some? && receiver.value != 0 {
      PayOutSucceeds(l3, client, t, receiver.value, v);
    }
  }

  lemma SameSupply(l: Ledger, l1: Ledger, trace: bytes)
    requires l1.tokens == l.tokens && l1.contracts == l.contracts
    ensures VoucherSupply(l1, trace) == VoucherSupply(l, trace)
  {
  }

  // Nothing gets stuck

  /** Two more blocks on chain `y`, the first of them late enough, give a block without the receipt after the
      timeout. */
  function ExpirySteps(net: Net, s: Sent, y: nat): seq<NetStep>
    requires y < |net.world.chains|
  {
    var c := net.world.chains[y];
    var late := if c.now < s.packet.timeout then s.packet.timeout else c.now;
    [NewBlock(y, late), NewBlock(y, late), Expire(s.chain, s.packet, |c.history| + 1, true)]
  }

  function RefusalSteps(net: Net, s: Sent, y: nat): seq<NetStep>
    requires y < |net.world.chains|
  {
    var c := net.world.chains[y];
    [NewBlock(y, c.now), Acknowledge(s.chain, s.packet, UNIVERSAL_ERROR_ACK, |c.history|, true)]
  }

  function AfterBlock(net: Net, y: nat, time: nat): Net
    requires y < |net.world.chains|
  {
    var c := net.world.chains[y];
    net.(world := net.world.(chains := net.world.chains[y :=
      c.(now := time, history := c.history + [Snapshot(c.router.store, c.now)])]))
  }

  lemma BlockHappens(links: Links, net: Net, y: nat, time: nat)
    requires NetInv(links, net) && y < |net.world.chains| && net.world.chains[y].now <= time
    ensures NetApply(links, net, NewBlock(y, time)) == Ok(AfterBlock(net, y, time))
    ensures NetInv(links, AfterBlock(net, y, time))
    ensures forall s :: Open(links, AfterBlock(net, y, time).world, s) == Open(links, net.world, s)
  {
    NetStepKeeps(links, net, NewBlock(y, time), AfterBlock(net, y, time));
  }

  /** The commitment of an open packet is the packet's own. */
  lemma OpenIsCommitted(links: Links, w: World, s: Sent)
    requires Inv(links, w) && s in w.log && Open(links, w, s)
    ensures s.chain < |w.chains| && PacketPath(s.packet) in w.chains[s.chain].router.store
    ensures w.chains[s.chain].router.store[PacketPath(s.packet)] == CommitmentOf(s.packet)
  {
    assert ChainOk(links, w.log, s.chain, w.chains[s.chain]);
    var c := w.chains[s.chain].router.store[PacketPath(s.packet)];
    var q := Packet(s.packet.sequence, s.packet.sourceClient, c.destClient, c.timeout, c.payloads);
    assert PacketPath(q) == PacketPath(s.packet);
    SameKeySame(links, w, s, Sent(s.chain, q));
  }

  ghost predicate Refundable(links: Links, net: Net, k: nat) {
    && k < |net.world.log| && Open(links, net.world, net.world.log[k]) && FromTransfer(net.world.log[k].packet)
    && net.world.log[k].packet.payloads[0].value.Transfer?
    && var sender := ParseAddress(net.world.log[k].packet.payloads[0].value.data.sender);
    && sender.Some? && sender.value != 0
  }

  /** What the router needs to close the commitment of `s` with a working callback. */
  ghost predicate Closable(links: Links, w: World, s: Sent, y: nat, height: nat) {
    && Inv(links, w) && s in w.log && Open(links, w, s) && |s.packet.payloads| == 1
    && Source(s) in links && links[Source(s)].chain == y < |w.chains| && height < |w.chains[y].history|
  }

  lemma TimeoutApplies(links: Links, w: World, s: Sent, y: nat, height: nat)
    requires Closable(links, w, s, y, height)
    requires var snap := w.chains[y].history[height];
      ReceiptPath(s.packet) !in snap.store && snap.time >= s.packet.timeout
    ensures var outcome := Apply(links, w, Timeout(s.chain, s.packet, height, true));
      && outcome.Ok? && outcome.value.log == w.log && outcome.value.calls != w.calls && !Open(links, outcome.value, s)
  {
    OpenIsCommitted(links, w, s);
    LoggedDest(links, w, s);
    LinkBack(links, w, Source(s));
    LinkNonEmpty(links, w, links[Source(s)]);
    hide Inv;
  }

  lemma RefusalApplies(links: Links, w: World, s: Sent, y: nat, height: nat)
    requires Closable(links, w, s, y, height)
    requires var store := w.chains[y].history[height].store;
      AckPath(s.packet) in store && store[AckPath(s.packet)] == AckCommit([UNIVERSAL_ERROR_ACK])
    ensures var outcome := Apply(links, w, Ack(s.chain, s.packet, UNIVERSAL_ERROR_ACK, height, true));
      && outcome.Ok? && outcome.value.log == w.log && outcome.value.calls != w.calls && !Open(links, outcome.value, s)
  {
    OpenIsCommitted(links, w, s);
    LoggedDest(links, w, s);
    LinkBack(links, w, Source(s));
    LinkNonEmpty(links, w, links[Source(s)]);
    hide Inv;
  }

  lemma LinkNonEmpty(links: Links, w: World, e: End)
    requires Inv(links, w) && e in links
    ensures e.client != []
  {
  }

  /** A step that ends with entry `k` settled and the log as it was. */
  ghost predicate Settled(links: Links, net: Net, outcome: Result<Net>, k: nat)
    requires k < |net.world.log|
  {
    outcome.Ok? && outcome.value.world.log == net.world.log && !Open(links, outcome.value.world, net.world.log[k])
  }

  lemma ExpireHappens(links: Links, net: Net, k: nat, y: nat, height: nat)
    requires NetInv(links, net) && Refundable(links, net, k)
    requires Closable(links, net.world, net.world.log[k], y, height)
    requires var snap := net.world.chains[y].history[height];
      ReceiptPath(net.world.log[k].packet) !in snap.store && snap.time >= net.world.log[k].packet.timeout
    ensures Settled(links, net,
      NetApply(links, net, Expire(net.world.log[k].chain, net.world.log[k].packet, height, true)), k)
  {
    hide Apply, NetInv, Inv, Open, RefundTransfer, Closable;
    RefundNeverShort(links, net, k);
    TimeoutApplies(links, net.world, net.world.log[k], y, height);
  }

  lemma RefusalHappens(links: Links, net: Net, k: nat, y: nat, height: nat)
    requires NetInv(links, net) && Refundable(links, net, k)
    requires Closable(links, net.world, net.world.log[k], y, height)
    requires var store := net.world.chains[y].history[height].store; var p := net.world.log[k].packet;
      AckPath(p) in store && store[AckPath(p)] == AckCommit([UNIVERSAL_ERROR_ACK])
    ensures Settled(links, net,
      NetApply(links, net, Acknowledge(net.world.log[k].chain, net.world.log[k].packet, UNIVERSAL_ERROR_ACK, height,
        true)), k)
  {
    hide Apply, NetInv, Inv, Open, RefundTransfer, Closable;
    RefundNeverShort(links, net, k);
    RefusalApplies(links, net.world, net.world.log[k], y, height);
  }

  lemma ExpireAfterBlocks(links: Links, net: Net, k: nat, y: nat)
    requires NetInv(links, net) && Refundable(links, net, k) && y < |net.world.chains|
    requires Source(net.world.log[k]) in links && links[Source(net.world.log[k])].chain == y
    requires ReceiptPath(net.world.log[k].packet) !in net.world.chains[y].router.store
    ensures var s := net.world.log[k];
      var after := NetRun(links, net, ExpirySteps(net, s, y));
      after.world.log == net.world.log && !Open(links, after.world, s)
  {
    hide NetInv, Inv, NetApply, Open;
    var s, c := net.world.log[k], net.world.chains[y];
    var steps := ExpirySteps(net, s, y);
    var late := steps[0].time;
    var net1 := AfterBlock(net, y, late);
    var net2 := AfterBlock(net1, y, late);
    BlockHappens(links, net, y, late);
    BlockHappens(links, net1, y, late);
    NetRunThree(links, net, steps, net1, net2);
    ClosableAfter(links, net2, k, y, |c.history| + 1);
    ExpireHappens(links, net2, k, y, |c.history| + 1);
  }

  lemma ClosableAfter(links: Links, net: Net, k: nat, y: nat, height: nat)
    requires NetInv(links, net) && Refundable(links, net, k) && y < |net.world.chains|
    requires Source(net.world.log[k]) in links && links[Source(net.world.log[k])].chain == y
    requires height < |net.world.chains[y].history|
    ensures Closable(links, net.world, net.world.log[k], y, height)
  {
  }

  lemma NetRunThree(links: Links, net: Net, steps: seq<NetStep>, net1: Net, net2: Net)
    requires |steps| == 3 && NetApply(links, net, steps[0]) == Ok(net1) && NetApply(links, net1, steps[1]) == Ok(net2)
    ensures NetApply(links, net2, steps[2]).Ok? ==> NetRun(links, net, steps) == NetApply(links, net2, steps[2]).value
  {
    hide NetApply;
    assert steps[..2][..1] == steps[..1] && steps[..1][..0] == [];
    assert NetRun(links, net, steps[..1]) == net1;
    assert NetRun(links, net, steps[..2]) == net2;
  }

  lemma RefuseAfterBlock(links: Links, net: Net, k: nat, y: nat)
    requires NetInv(links, net) && Refundable(links, net, k) && y < |net.world.chains|
    requires Source(net.world.log[k]) in links && links[Source(net.world.log[k])].chain == y
    requires var store := net.world.chains[y].router.store; var p := net.world.log[k].packet;
      AckPath(p) in store && store[AckPath(p)] == AckCommit([UNIVERSAL_ERROR_ACK])
    ensures var s := net.world.log[k];
      var after := NetRun(links, net, RefusalSteps(net, s, y));
      after.world.log == net.world.log && !Open(links, after.world, s)
  {
    hide NetInv, Inv, NetApply, Open;
    var s, c := net.world.log[k], net.world.chains[y];
    var steps := RefusalSteps(net, s, y);
    var net1 := AfterBlock(net, y, c.now);
    BlockHappens(links, net, y, c.now);
    ClosableAfter(links, net1, k, y, |c.history|);
    RefusalHappens(links, net1, k, y, |c.history|);
    assert steps[..1][..0] == [];
    assert NetRun(links, net, steps[..1]) == net1;
  }

  /** In every run, every transfer that is still open and names a usable sender can be brought to an end by at most
      three more steps: blocks, then a timeout or the relay of a refusal, which fail only while the application is
      paused or rate limited. */
  lemma EveryTransferCanSettle(links: Links, selves: seq<Address>, steps: seq<NetStep>, k: nat)
    requires WellLinked(links, |selves|) && SlashFreeIds(links)
    requires Refundable(links, NetRun(links, NetGenesis(selves), steps), k)
    ensures var net := NetRun(links, NetGenesis(selves), steps);
      exists more: seq<NetStep> :: |more| <= 3 &&
        var after := NetRun(links, net, more);
        after.world.log == net.world.log && !Open(links, after.world, net.world.log[k])
  {
    hide NetInv, Inv, NetApply, Open, WellLinked, SlashFreeIds, NetGenesis;
    var net := NetRun(links, NetGenesis(selves), steps);
    NetRunKeeps(links, selves, steps);
    var y := OpenNotDelivered(links, net, k);
    if ReceiptPath(net.world.log[k].packet) in net.world.chains[y].router.store {
      RefuseAfterBlock(links, net, k, y);
      assert |RefusalSteps(net, net.world.log[k], y)| <= 3;
    } else {
      ExpireAfterBlocks(links, net, k, y);
      assert |ExpirySteps(net, net.world.log[k], y)| <= 3;
    }
  }

  lemma OpenNotDelivered(links: Links, net: Net, k: nat) returns (y: nat)
    requires NetInv(links, net) && Refundable(links, net, k)
    ensures Source(net.world.log[k]) in links && y == links[Source(net.world.log[k])].chain < |net.world.chains|
    ensures var store := net.world.chains[y].router.store; var p := net.world.log[k].packet;
      ReceiptPath(p) in store ==> AckPath(p) in store && store[AckPath(p)] == AckCommit([UNIVERSAL_ERROR_ACK])
  {
    var s := net.world.log[k];
    LoggedDest(links, net.world, s);
    LinkBack(links, net.world, Source(s));
    y := links[Source(s)].chain;
    assert ChainOk(links, net.world.log, y, net.world.chains[y]);
  }
}
