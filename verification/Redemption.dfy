/** What a voucher is worth: from every reachable state its holder can have it paid out in the token it stands for. */
module Redemption {
  import opened Bytes
  import opened Router
  import opened PacketSafety
  import opened Settlement
  import opened Denoms
  import opened Transfer
  import opened TransferExact
  import opened Conservation
  import opened Solvency
  import Erc20

  /** The holder has `v` vouchers for `denom` that came over `client`, and lets the application take them. */
  ghost predicate Holds(l: Ledger, client: bytes, denom: bytes, holder: Address, v: uint256) {
    && Trace(client, denom) in l.contracts && l.contracts[Trace(client, denom)] in l.tokens && holder != 0 && v > 0
    && var token := l.tokens[l.contracts[Trace(client, denom)]];
    && Erc20.BalanceOf(token, holder) >= v && Erc20.Allowance(token, holder, l.self) >= v
  }

  // The send goes through

  lemma PullSucceeds(l: Ledger, t: Address, holder: Address, client: bytes, v: uint256)
    requires LedgerOk(l) && t in l.tokens && client in l.escrows && l.self != 0 && holder != 0 && v > 0
    requires Erc20.BalanceOf(l.tokens[t], holder) >= v && Erc20.Allowance(l.tokens[t], holder, l.self) >= v
    ensures var outcome := PullIn(l, t, holder, l.escrows[client], v);
      && outcome.Ok? && outcome.value.tokens.Keys == l.tokens.Keys && Bal(outcome.value, t, l.escrows[client]) >= v
      && outcome.value == l.(tokens := outcome.value.tokens)
  {
    var token, e := l.tokens[t], l.escrows[client];
    EscrowsNonZero(l);
    assert NoAllowance(token, l.escrows);
    assert Erc20.Allowance(token, e, l.self) == 0;
    SpendSucceeds(token, l.self, holder, e, v);
    Erc20.TransferFromExact(token, l.self, holder, e, v);
  }

  lemma SpendSucceeds(token: Token, spender: Address, from: Address, to: Address, v: uint256)
    requires from != 0 && to != 0 && spender != 0
    requires Erc20.BalanceOf(token, from) >= v && Erc20.Allowance(token, from, spender) >= v
    ensures Erc20.TransferFrom(token, spender, from, to, v).Ok?
  {
  }

  lemma BurnSucceeds(l: Ledger, client: bytes, trace: bytes, v: uint256)
    requires LedgerOk(l) && SlashFree(client) && trace in l.contracts && CameOver(client, trace) && client in l.escrows
    requires l.contracts[trace] in l.tokens && Bal(l, l.contracts[trace], l.escrows[client]) >= v
    ensures BurnAt(l, l.contracts[trace], l.escrows[client], v).Ok?
  {
    EscrowsNonZero(l);
  }

  lemma VoucherKnown(l: Ledger, client: bytes, denom: bytes)
    requires LedgerOk(l) && SlashFree(client) && Trace(client, denom) in l.contracts
    ensures var trace := Trace(client, denom); var t := l.contracts[trace];
      && t in l.tokens && DenomOf(l, t) == trace && t in l.denoms && l.denoms[t] == trace != []
      && client in l.escrows && CameOver(client, trace)
  {
    TraceUnwinds(client, denom);
    TraceHasSlash(client, Trace(client, denom));
  }

  /** A send succeeds exactly if the caller has the amount and lets the application take it, and the escrow exists or
      can be created. */
  lemma SendTransferIff(
    l: Ledger, caller: Address, sender: Address, client: bytes, t: Address, v: uint256, receiver: bytes, memo: bytes,
    created: Address)
    requires LedgerOk(l) && l.self != 0 && SlashFree(client)
    ensures SendTransfer(l, caller, sender, client, t, v, receiver, memo, created).Ok? <==>
      && v > 0 && caller != 0 && t in l.tokens && (client in l.escrows || Unused(l, created))
      && Erc20.BalanceOf(l.tokens[t], caller) >= v && Erc20.Allowance(l.tokens[t], caller, l.self) >= v
  {
    hide LedgerOk, CameOver, PullIn, BurnAt, ToHexString, Unused;
    var made := EscrowFor(l, client, created);
    if made.Ok? && t in l.tokens && v > 0 {
      var (l1, escrow) := made.value;
      EscrowForKeeps(l, client, created, l1, escrow);
      PullIff(l1, t, caller, client, v);
      if PullIn(l1, t, caller, escrow, v).Ok? {
        BurnFollows(l1, t, caller, client, v);
      }
    } else if t !in l.tokens {
      NoToken(l, t, caller, v);
    }
  }

  lemma BurnFollows(l: Ledger, t: Address, caller: Address, client: bytes, v: uint256)
    requires LedgerOk(l) && t in l.tokens && client in l.escrows && l.self != 0 && v > 0 && SlashFree(client)
    requires PullIn(l, t, caller, l.escrows[client], v).Ok?
    ensures var pulled := PullIn(l, t, caller, l.escrows[client], v).value;
      && pulled.denoms == l.denoms
      && (t in l.denoms && CameOver(client, l.denoms[t]) ==> BurnAt(pulled, t, l.escrows[client], v).Ok?)
  {
    hide LedgerOk, CameOver, PullIn, BurnAt;
    var pulled := PullIn(l, t, caller, l.escrows[client], v).value;
    PullInKeeps(l, t, caller, l.escrows[client], v, pulled);
    PullIff(l, t, caller, client, v);
    if t in l.denoms && CameOver(client, l.denoms[t]) {
      Registered(l, t);
      BurnSucceeds(pulled, client, l.denoms[t], v);
    }
  }

  lemma NoToken(l: Ledger, t: Address, caller: Address, v: uint256)
    requires t !in l.tokens
    ensures forall l1: Ledger, escrow: Address :: l1.tokens == l.tokens ==> PullIn(l1, t, caller, escrow, v).Err?
  {
  }

  lemma Registered(l: Ledger, t: Address)
    requires LedgerOk(l) && t in l.denoms
    ensures l.denoms[t] in l.contracts && l.contracts[l.denoms[t]] == t && t in l.tokens
  {
  }

  lemma PullIff(l: Ledger, t: Address, caller: Address, client: bytes, v: uint256)
    requires LedgerOk(l) && t in l.tokens && client in l.escrows && l.self != 0 && v > 0
    ensures var outcome := PullIn(l, t, caller, l.escrows[client], v);
      && (outcome.Ok? <==>
            && caller != 0 && Erc20.BalanceOf(l.tokens[t], caller) >= v
            && Erc20.Allowance(l.tokens[t], caller, l.self) >= v)
      && (outcome.Ok? ==> Bal(outcome.value, t, l.escrows[client]) >= v)
  {
    var wanted := && caller != 0 && Erc20.BalanceOf(l.tokens[t], caller) >= v
                  && Erc20.Allowance(l.tokens[t], caller, l.self) >= v;
    if wanted {
      PullSucceeds(l, t, caller, client, v);
    } else {
      Erc20.ExecuteIff(l.tokens[t], 0, 0, l.self, Erc20.DoTransferFrom(caller, l.escrows[client], v));
    }
  }

  lemma VoucherSends(l: Ledger, client: bytes, denom: bytes, holder: Address, v: uint256, receiver: bytes)
    returns (l': Ledger, data: TransferData)
    requires LedgerOk(l) && l.self != 0 && SlashFree(client) && Holds(l, client, denom, holder, v)
    ensures var t := l.contracts[Trace(client, denom)];
      SendTransfer(l, holder, holder, client, t, v, receiver, [], 0) == Ok((l', data))
    ensures data == TransferData(Trace(client, denom), ToHexString(holder), receiver, v, [])
  {
    hide LedgerOk, Trace, CameOver, PullIn, BurnAt, ToHexString;
    var trace := Trace(client, denom);
    var t := l.contracts[trace];
    VoucherKnown(l, client, denom);
    PullSucceeds(l, t, holder, client, v);
    var l2 := PullIn(l, t, holder, l.escrows[client], v).value;
    PullInKeeps(l, t, holder, l.escrows[client], v, l2);
    BurnSucceeds(l2, client, trace, v);
    l' := BurnAt(l2, t, l.escrows[client], v).value;
    data := TransferData(trace, ToHexString(holder), receiver, v, []);
  }

  lemma SendApplies(links: Links, w: World, x: nat, port: bytes, client: bytes, timeout: nat, payload: Payload)
    requires Inv(links, w) && x < |w.chains| && End(x, client) in links && payload.sourcePort == port
    requires w.chains[x].now < timeout <= w.chains[x].now + MAX_TIMEOUT_DURATION
    requires PrevSequence(w.chains[x].router, client) + 1 < TWO_64
    ensures Apply(links, w, Send(x, port, client, timeout, payload)).Ok?
    ensures var w' := Apply(links, w, Send(x, port, client, timeout, payload)).value;
      var sequence: uint64 := PrevSequence(w.chains[x].router, client) + 1;
      && w'.log == w.log + [Sent(x, Packet(sequence, client, links[End(x, client)].client, timeout, [payload]))]
      && |w'.chains| == |w.chains| && w'.calls == w.calls
      && forall y :: 0 <= y < |w.chains| ==>
           w'.chains[y].now == w.chains[y].now && w'.chains[y].history == w.chains[y].history
  {
    var sequence: uint64 := PrevSequence(w.chains[x].router, client) + 1;
    LinkBack(links, w, End(x, client));
    LinkNonEmpty(links, w, links[End(x, client)]);
    SequenceUnused(links, w, x, Packet(sequence, client, links[End(x, client)].client, timeout, [payload]));
  }

  lemma SequenceUnused(links: Links, w: World, x: nat, p: Packet)
    requires Inv(links, w) && x < |w.chains| && p.sequence > PrevSequence(w.chains[x].router, p.sourceClient)
    ensures PacketPath(p) !in w.chains[x].router.store
  {
    assert ChainOk(links, w.log, x, w.chains[x]);
    var store := w.chains[x].router.store;
    if PacketPath(p) in store {
      var c := store[PacketPath(p)];
      var q := Packet(p.sequence, p.sourceClient, c.destClient, c.timeout, c.payloads);
      assert PacketPath(q) == PacketPath(p);
      LoggedOk(links, w, Sent(x, q));
    }
  }

  /** A packet that was just sent is open, and nobody has received it. */
  lemma JustSent(links: Links, w: World, x: nat, p: Packet, w': World)
    requires Inv(links, w) && Sends(links, w, x, p, w')
    ensures Open(links, w', Sent(x, p))
    ensures var y := links[End(x, p.sourceClient)].chain;
      y < |w'.chains| && ReceiptPath(p) !in w'.chains[y].router.store
  {
    NotDeliveredYet(links, w, x, p, w');
    var e := links[End(x, p.sourceClient)];
    LinkBack(links, w, End(x, p.sourceClient));
    PathsOf(p, p);
    assert ChainOk(links, w.log, e.chain, w.chains[e.chain]);
    if ReceiptPath(p) in w.chains[e.chain].router.store {
      LoggedOk(links, w, Sent(x, w.chains[e.chain].router.store[ReceiptPath(p)].packet));
    }
  }

  // The delivery goes through

  lemma RecvApplies(links: Links, w: World, s: Sent, y: nat, height: nat, ack: bytes)
    requires Inv(links, w) && s in w.log && Source(s) in links && links[Source(s)].chain == y < |w.chains|
    requires |s.packet.payloads| == 1 && w.chains[y].now < s.packet.timeout
    requires ReceiptPath(s.packet) !in w.chains[y].router.store
    requires s.chain < |w.chains| && height < |w.chains[s.chain].history|
    requires var store := w.chains[s.chain].history[height].store;
      PacketPath(s.packet) in store && store[PacketPath(s.packet)] == CommitmentOf(s.packet)
    requires ack != [] && ack != UNIVERSAL_ERROR_ACK
    ensures var outcome := Apply(links, w, Recv(y, s.packet, height, Returned(ack)));
      outcome.Ok? && outcome.value.calls != w.calls
  {
    LoggedDest(links, w, s);
    LinkBack(links, w, Source(s));
    LinkNonEmpty(links, w, Source(s));
    assert ChainOk(links, w.log, y, w.chains[y]);
    PathsOf(s.packet, s.packet);
    assert AckPath(s.packet) !in w.chains[y].router.store;
    hide Inv;
  }

  lemma ReceiveHappens(links: Links, net: Net, k: nat, y: nat, height: nat)
    requires NetInv(links, net) && k < |net.world.log| && y < |net.world.chains|
    requires Open(links, net.world, net.world.log[k]) && FromTransfer(net.world.log[k].packet)
    requires var s := net.world.log[k];
      && Source(s) in links && links[Source(s)].chain == y && net.world.chains[y].now < s.packet.timeout
      && ReceiptPath(s.packet) !in net.world.chains[y].router.store
      && s.chain < |net.world.chains| && height < |net.world.chains[s.chain].history|
      && var store := net.world.chains[s.chain].history[height].store;
      && PacketPath(s.packet) in store && store[PacketPath(s.packet)] == CommitmentOf(s.packet)
    requires var p := net.world.log[k].packet;
      && p.payloads[0].value.Transfer? && p.payloads[0].destPort == TRANSFER_PORT
      && CameOver(p.sourceClient, p.payloads[0].value.data.denom)
      && var receiver := ParseAddress(p.payloads[0].value.data.receiver); receiver.Some? && receiver.value != 0
    ensures var p := net.world.log[k].packet;
      var outcome := NetApply(links, net, Receive(y, p, height, 0, 0, true, NoApp));
      && y < |net.ledgers| && outcome.Ok? && |outcome.value.ledgers| == |net.ledgers|
      && ReceiveTransfer(net.ledgers[y], p.sourceClient, p.destClient, p.payloads[0], 0, 0) ==
           Ok(outcome.value.ledgers[y])
      && outcome.value.ledgers == net.ledgers[y := outcome.value.ledgers[y]]
  {
    hide Apply, NetInv, Inv, Open, ReceiveTransfer, CameOver, CanCreate;
    var s := net.world.log[k];
    EscrowReady(links, net, k);
    DeliveryNeverShort(links, net, k, 0, 0);
    assert |SUCCESS_ACK| != |UNIVERSAL_ERROR_ACK|;
    NetParts(links, net);
    RecvApplies(links, net.world, s, y, height, SUCCESS_ACK);
  }

  /** The escrow that covers an open return exists. */
  lemma EscrowReady(links: Links, net: Net, k: nat)
    requires NetInv(links, net) && k < |net.world.log|
    requires Open(links, net.world, net.world.log[k]) && FromTransfer(net.world.log[k].packet)
    requires net.world.log[k].packet.payloads[0].value.Transfer?
    requires CameOver(net.world.log[k].packet.sourceClient, net.world.log[k].packet.payloads[0].value.data.denom)
    ensures var s := net.world.log[k];
      && Source(s) in links && links[Source(s)].chain < |net.ledgers|
      && CanCreate(net.ledgers[links[Source(s)].chain], s.packet, s.packet.payloads[0].value.data.denom, 0, 0)
  {
    hide LedgerOk, TokenFor, CameOver, Unwind, Trace, Inv;
    OpenIsCovered(links, net, k);
    NetParts(links, net);
    LoggedDest(links, net.world, net.world.log[k]);
  }

  // Redemption

  /** A block on each side of the send: the first brings the clock level with the home chain, the second lets the home
      chain see the commitment. */
  function RedeemSteps(
    net: Net, x: nat, client: bytes, t: Address, holder: Address, v: uint256, receiver: bytes, y: nat,
    p: Packet): seq<NetStep>
    requires x < |net.world.chains| && y < |net.world.chains|
  {
    var time := Level(net, x, y);
    [NewBlock(x, time), SendTokens(x, holder, holder, client, t, v, receiver, [], time + 1, 0), NewBlock(x, time),
     Receive(y, p, |net.world.chains[x].history| + 1, 0, 0, true, NoApp)]
  }

  function Level(net: Net, x: nat, y: nat): nat
    requires x < |net.world.chains| && y < |net.world.chains|
  {
    if net.world.chains[x].now < net.world.chains[y].now then net.world.chains[y].now else net.world.chains[x].now
  }

  /** The state after the send, with what it says about the packet. */
  ghost predicate SentHome(links: Links, net: Net, net': Net, x: nat, client: bytes, data: TransferData, timeout: nat) {
    && NetInv(links, net') && |net'.world.log| == |net.world.log| + 1 && |net'.world.chains| == |net.world.chains|
    && |net'.ledgers| == |net.ledgers| && x < |net.ledgers| && net'.ledgers == net.ledgers[x := net'.ledgers[x]]
    && (forall z :: 0 <= z < |net.world.chains| ==>
          net'.world.chains[z].now == net.world.chains[z].now &&
            net'.world.chains[z].history == net.world.chains[z].history)
    && var s := net'.world.log[|net.world.log|];
    && s.chain == x && s.packet.sourceClient == client && s.packet.timeout == timeout
    && s.packet.payloads == [PayloadOf(data)] && Source(s) in links && Open(links, net'.world, s)
    && var y := links[Source(s)].chain;
    && y < |net'.world.chains| && ReceiptPath(s.packet) !in net'.world.chains[y].router.store
  }

  lemma SendHappens(
    links: Links, net: Net, x: nat, client: bytes, denom: bytes, holder: Address, v: uint256, receiver: bytes,
    timeout: nat)
    returns (net': Net, data: TransferData)
    requires NetInv(links, net) && x < |net.ledgers| && x < |net.world.chains| && End(x, client) in links
    requires net.ledgers[x].self != 0 && Holds(net.ledgers[x], client, denom, holder, v)
    requires net.world.chains[x].now < timeout <= net.world.chains[x].now + MAX_TIMEOUT_DURATION
    requires PrevSequence(net.world.chains[x].router, client) + 1 < TWO_64
    ensures var t := net.ledgers[x].contracts[Trace(client, denom)];
      NetApply(links, net, SendTokens(x, holder, holder, client, t, v, receiver, [], timeout, 0)) == Ok(net')
    ensures data == TransferData(Trace(client, denom), ToHexString(holder), receiver, v, [])
    ensures SentHome(links, net, net', x, client, data, timeout) && Extends(net.ledgers[x], net'.ledgers[x])
    ensures Moved(net.ledgers[x], net'.ledgers[x], net.ledgers[x].contracts[Trace(client, denom)], holder, 0, v)
  {
    hide NetInv, Inv, LedgerOk, Apply, SendTransfer, Holds, Trace, CameOver, Open, Moved, PayloadOf, ToHexString,
         Sends, Extends, Shift, TokenFor, OpenFlags;
    NetParts(links, net);
    LedgerAt(links, net, x);
    var l, w := net.ledgers[x], net.world;
    var t := TokenOf(l, client, denom, holder, v);
    var l';
    l', data := VoucherSends(l, client, denom, holder, v, receiver);
    SendMoves(l, holder, holder, client, t, v, receiver, [], 0, l', data);
    Transfer.SendKeeps(l, holder, holder, client, t, v, receiver, [], 0, l', data);
    VoucherKnown(l, client, denom);
    var send := Send(x, TRANSFER_PORT, client, timeout, PayloadOf(data));
    SentFromTransfer(data);
    SendApplies(links, w, x, TRANSFER_PORT, client, timeout, PayloadOf(data));
    var w' := Apply(links, w, send).value;
    ApplyEffect(links, w, send, w');
    JustSent(links, w, x, w'.log[|w.log|].packet, w');
    net' := Net(w', net.ledgers[x := l']);
    NetStepKeeps(links, net, SendTokens(x, holder, holder, client, t, v, receiver, [], timeout, 0), net');
  }

  lemma SentFromTransfer(data: TransferData)
    ensures PayloadOf(data).sourcePort == TRANSFER_PORT == PayloadOf(data).destPort
    ensures PayloadOf(data).value == AppData.Transfer(data)
  {
  }

  lemma TokenOf(l: Ledger, client: bytes, denom: bytes, holder: Address, v: uint256) returns (t: Address)
    requires Holds(l, client, denom, holder, v)
    ensures Trace(client, denom) in l.contracts && t == l.contracts[Trace(client, denom)]
  {
    t := l.contracts[Trace(client, denom)];
  }

  lemma BlockSees(links: Links, net: Net, s: Sent, time: nat)
    requires NetInv(links, net) && s in net.world.log && Open(links, net.world, s)
    ensures s.chain < |net.world.chains|
    ensures var after := AfterBlock(net, s.chain, time).world.chains[s.chain];
      && |after.history| == |net.world.chains[s.chain].history| + 1
      && var store := after.history[|after.history| - 1].store;
      && PacketPath(s.packet) in store && store[PacketPath(s.packet)] == CommitmentOf(s.packet)
  {
    NetParts(links, net);
    OpenIsCommitted(links, net.world, s);
  }

  lemma NetRunFour(links: Links, net: Net, steps: seq<NetStep>, net1: Net, net2: Net, net3: Net, net4: Net)
    requires |steps| == 4 && NetApply(links, net, steps[0]) == Ok(net1) && NetApply(links, net1, steps[1]) == Ok(net2)
    requires NetApply(links, net2, steps[2]) == Ok(net3) && NetApply(links, net3, steps[3]) == Ok(net4)
    ensures NetRun(links, net, steps[..3]) == net3 && NetRun(links, net, steps) == net4
  {
    hide NetApply;
    NetRunThree(links, net, steps[..3], net1, net2);
  }

  /** What redeeming did: the vouchers are gone, and the token they stand for went from the escrow to the receiver. */
  ghost predicate Redeemed(
    net: Net, mid: Net, after: Net, x: nat, t: Address, holder: Address, home: End, u: Address, receiver: Address,
    v: uint256)
  {
    && x < |net.ledgers| == |mid.ledgers| == |after.ledgers| && home.chain < |net.ledgers|
    && mid.ledgers == net.ledgers[x := mid.ledgers[x]]
    && Moved(net.ledgers[x], mid.ledgers[x], t, holder, 0, v)
    && after.ledgers == mid.ledgers[home.chain := after.ledgers[home.chain]]
    && home.client in after.ledgers[home.chain].escrows
    && Moved(mid.ledgers[home.chain], after.ledgers[home.chain], u, after.ledgers[home.chain].escrows[home.client],
         receiver, v)
  }

  /** The delivery of a return pays in the token the voucher stands for. */
  lemma PaidInKind(links: Links, net: Net, k: nat, denom: bytes, l': Ledger)
    returns (u: Address, receiver: Address)
    requires NetInv(links, net) && k < |net.world.log| && FromTransfer(net.world.log[k].packet)
    requires var s := net.world.log[k];
      && Source(s) in links && links[Source(s)].chain < |net.ledgers| && s.packet.payloads[0].value.Transfer?
      && s.packet.payloads[0].value.data.denom == Trace(s.packet.sourceClient, denom)
      && ReceiveTransfer(net.ledgers[links[Source(s)].chain], s.packet.sourceClient, s.packet.destClient,
                         s.packet.payloads[0], 0, 0) == Ok(l')
    ensures var s := net.world.log[k]; var l := net.ledgers[links[Source(s)].chain];
      var data := s.packet.payloads[0].value.data;
      && TokenFor(l, denom) == Some(u) && ParseAddress(data.receiver) == Some(receiver)
      && links[Source(s)].client in l'.escrows
      && Moved(l, l', u, l'.escrows[links[Source(s)].client], receiver, data.amount)
  {
    hide LedgerOk, TokenFor, CameOver, Unwind, Trace, Inv, Moved, ReceiveTransfer, UnwoundToken, ParseDigits;
    var s := net.world.log[k];
    var y := links[Source(s)].chain;
    NetParts(links, net);
    LoggedDest(links, net.world, s);
    LinkBack(links, net.world, Source(s));
    LedgerAt(links, net, y);
    TransferHome(links, net, s);
    TraceUnwinds(s.packet.sourceClient, denom);
    LookupsAgree(net.ledgers[y], denom);
    u, receiver := ReceiveMoves(net.ledgers[y], s.packet.sourceClient, s.packet.destClient, s.packet.payloads[0], 0, 0,
      l');
  }

  /** In every run: whoever holds `v` vouchers and lets the application take them can have exactly `v` of the token they
      stand for paid out at its home, in four more steps. */
  lemma EveryVoucherIsRedeemable(
    links: Links, selves: seq<Address>, steps: seq<NetStep>, x: nat, client: bytes, denom: bytes, holder: Address,
    v: uint256, receiver: bytes)
    returns (more: seq<NetStep>, u: Address, paid: Address)
    requires WellLinked(links, |selves|) && SlashFreeIds(links)
    requires var net := NetRun(links, NetGenesis(selves), steps);
      && x < |net.ledgers| && End(x, client) in links && net.ledgers[x].self != 0
      && Holds(net.ledgers[x], client, denom, holder, v)
      && x < |net.world.chains| && PrevSequence(net.world.chains[x].router, client) + 1 < TWO_64
    requires ParseAddress(receiver).Some? && ParseAddress(receiver).value != 0
    ensures |more| == 4 && ParseAddress(receiver) == Some(paid)
    ensures var net := NetRun(links, NetGenesis(selves), steps);
      var home := links[End(x, client)];
      && home.chain < |net.ledgers| && TokenFor(net.ledgers[home.chain], denom) == Some(u)
      && Redeemed(net, NetRun(links, net, more[..3]), NetRun(links, net, more), x,
                  net.ledgers[x].contracts[Trace(client, denom)], holder, home, u, paid, v)
  {
    hide NetInv, Inv, NetApply, Open, WellLinked, SlashFreeIds, NetGenesis, Holds, Trace, CameOver, TokenFor, Moved,
         ParseAddress, PayloadOf, ReceiveTransfer, ToHexString;
    var net := NetRun(links, NetGenesis(selves), steps);
    NetRunKeeps(links, selves, steps);
    more, u, paid := Redeem(links, net, x, client, denom, holder, v, receiver);
  }

  lemma Redeem(
    links: Links, net: Net, x: nat, client: bytes, denom: bytes, holder: Address, v: uint256, receiver: bytes)
    returns (more: seq<NetStep>, u: Address, paid: Address)
    requires NetInv(links, net) && x < |net.ledgers| && End(x, client) in links && net.ledgers[x].self != 0
    requires Holds(net.ledgers[x], client, denom, holder, v)
    requires x < |net.world.chains| && PrevSequence(net.world.chains[x].router, client) + 1 < TWO_64
    requires ParseAddress(receiver).Some? && ParseAddress(receiver).value != 0
    ensures |more| == 4 && ParseAddress(receiver) == Some(paid)
    ensures var home := links[End(x, client)];
      && home.chain < |net.ledgers| && TokenFor(net.ledgers[home.chain], denom) == Some(u)
      && Redeemed(net, NetRun(links, net, more[..3]), NetRun(links, net, more), x,
                  net.ledgers[x].contracts[Trace(client, denom)], holder, home, u, paid, v)
  {
    hide NetInv, Inv, NetApply, Open, Holds, Trace, CameOver, TokenFor, Moved, ParseAddress, PayloadOf,
         ReceiveTransfer, ToHexString, NetRun;
    NetParts(links, net);
    LinkBack(links, net.world, End(x, client));
    var y := links[End(x, client)].chain;
    var time := Level(net, x, y);
    var t := TokenOf(net.ledgers[x], client, denom, holder, v);
    var net1 := AfterBlock(net, x, time);
    BlockHappens(links, net, x, time);
    var net2, data := SendHappens(links, net1, x, client, denom, holder, v, receiver, time + 1);
    var k := |net.world.log|;
    var s := net2.world.log[k];
    var net3 := AfterBlock(net2, x, time);
    BlockHappens(links, net2, x, time);
    BlockSees(links, net2, s, time);
    SentFromTransfer(data);
    TracedOver(client, denom);
    var height := |net.world.chains[x].history| + 1;
    ReceiveHappens(links, net3, k, y, height);
    var net4 := NetApply(links, net3, Receive(y, s.packet, height, 0, 0, true, NoApp)).value;
    u, paid := PaidInKind(links, net3, k, denom, net4.ledgers[y]);
    more := RedeemSteps(net, x, client, t, holder, v, receiver, y, s.packet);
    NetRunFour(links, net, more, net1, net2, net3, net4);
    KnownBefore(links, net, x, client, denom, net3, u);
  }

  lemma TracedOver(client: bytes, denom: bytes)
    ensures CameOver(client, Trace(client, denom))
  {
    TraceUnwinds(client, denom);
  }

  /** The token a voucher stands for was known at its home all along. */
  lemma KnownBefore(links: Links, net: Net, x: nat, client: bytes, denom: bytes, net3: Net, u: Address)
    requires NetInv(links, net) && NetInv(links, net3) && x < |net.ledgers| == |net3.ledgers| && End(x, client) in links
    requires links[End(x, client)].chain < |net.ledgers| && Trace(client, denom) in net.ledgers[x].contracts
    requires net3.ledgers == net.ledgers[x := net3.ledgers[x]] && Extends(net.ledgers[x], net3.ledgers[x])
    requires TokenFor(net3.ledgers[links[End(x, client)].chain], denom) == Some(u)
    ensures TokenFor(net.ledgers[links[End(x, client)].chain], denom) == Some(u)
  {
    hide LedgerOk, TokenFor, Trace, CameOver, Extends, Inv, FundsOk, TransfersOk;
    var y := links[End(x, client)].chain;
    LedgerAt(links, net, y);
    LedgerAt(links, net3, y);
    if y == x {
      assert TokenFor(net.ledgers[y], denom).Some?;
      TokenForExtends(net.ledgers[y], net3.ledgers[y], denom);
    }
  }
}
