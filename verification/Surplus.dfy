/** Conservation to the last unit: what an escrow holds beyond its obligations is exactly what was given to it. */
module Surplus {
  import opened Bytes
  import opened Router
  import opened PacketSafety
  import opened Settlement
  import opened Denoms
  import opened Transfer
  import opened TransferExact
  import opened Conservation
  import opened Solvency
  import Erc20

  /** Whom a step pays, other than the escrow of the client tokens are sent over. */
  datatype Payment = NoPayment | Payment(token: Address, payee: Address, amount: nat)

  function DeliveryPayment(l: Ledger, l': Ledger, source: bytes, dest: bytes, payload: Payload): Payment {
    if !payload.value.Transfer? then NoPayment
    else
      var data := payload.value.data;
      var token := if CameOver(source, data.denom) then UnwoundToken(l, Unwind(source, data.denom))
                   else MappedToken(l', Trace(dest, data.denom));
      match (token, ParseAddress(data.receiver))
      case (Some(t), Some(receiver)) => Payment(t, receiver, data.amount)
      case _ => NoPayment
  }

  function RefundPayment(l: Ledger, client: bytes, data: TransferData): Payment {
    match (RefundedToken(l, client, data.denom), ParseAddress(data.sender))
    case (Some(t), Some(sender)) => Payment(t, sender, data.amount)
    case _ => NoPayment
  }

  function PacketRefund(l: Ledger, p: Packet): Payment {
    if FromTransfer(p) && p.payloads[0].value.Transfer? then RefundPayment(l, p.sourceClient, p.payloads[0].value.data)
    else NoPayment
  }

  function PaymentOf(net: Net, step: NetStep, net': Net): Payment
    requires step.chain < |net.ledgers| == |net'.ledgers|
  {
    var l, l' := net.ledgers[step.chain], net'.ledgers[step.chain];
    var called := net'.world.calls != net.world.calls;
    match step
    case Receive(_, p, _, newEscrow, newToken, admitted, _) =>
      if called && ToTransfer(p) && OnReceive(l, p, newEscrow, newToken, admitted).Ok? then
        DeliveryPayment(l, l', p.sourceClient, p.destClient, p.payloads[0])
      else NoPayment
    case Acknowledge(_, p, ack, _, _) => if called && ack == UNIVERSAL_ERROR_ACK then PacketRefund(l, p) else NoPayment
    case Expire(_, p, _, _) => if called then PacketRefund(l, p) else NoPayment
    case Act(_, t, _, call) =>
      (match call
       case DoTransfer(to, v) => Payment(t, to, v)
       case DoTransferFrom(_, to, v) => Payment(t, to, v)
       case DoMint(at, v) => Payment(t, at, v)
       case _ => NoPayment)
    case UnlinkedReceive(_, client, source, payload, _, _) => DeliveryPayment(l, l', source, client, payload)
    case UnlinkedRefund(_, client, data) => RefundPayment(l, client, data)
    case _ => NoPayment
  }

  /** `a` is the escrow of the home, and `t` its token. */
  predicate AtHome(l: Ledger, home: Home, t: Address, a: Address) {
    home.end.client in l.escrows && l.escrows[home.end.client] == a && TokenFor(l, home.denom) == Some(t)
  }

  /** What the escrow's address held before it became the escrow. */
  function Opening(l: Ledger, l': Ledger, home: Home): nat {
    if home.end.client !in l.escrows && home.end.client in l'.escrows && TokenFor(l', home.denom).Some?
    then Bal(l, TokenFor(l', home.denom).value, l'.escrows[home.end.client]) else 0
  }

  /** What a step gives to the escrow of a home without anything in return. */
  function Gift(net: Net, step: NetStep, net': Net, home: Home): nat
    requires step.chain < |net.ledgers| == |net'.ledgers|
  {
    if step.chain != home.end.chain then 0
    else
      var l, l' := net.ledgers[step.chain], net'.ledgers[step.chain];
      Opening(l, l', home) +
      match PaymentOf(net, step, net')
      case NoPayment => 0
      case Payment(t, payee, amount) => if AtHome(l', home, t, payee) then amount else 0
  }

  /** All gifts of a run. */
  function Gifts(links: Links, net: Net, steps: seq<NetStep>, home: Home): nat {
    if steps == [] then 0
    else
      var before, last := NetRun(links, net, steps[..|steps| - 1]), steps[|steps| - 1];
      Gifts(links, net, steps[..|steps| - 1], home) +
      match NetApply(links, before, last)
      case Ok(after) => if last.chain < |before.ledgers| == |after.ledgers| then Gift(before, last, after, home) else 0
      case Err(_) => 0
  }

  // One ledger

  lemma NewToken(l: Ledger, l': Ledger, denom: bytes)
    requires LedgerOk(l) && LedgerOk(l') && Extends(l, l') && TokenFor(l, denom).None? && TokenFor(l', denom).Some?
    ensures TokenFor(l', denom).value !in l.tokens
  {
    var u := TokenFor(l', denom).value;
    if u in l.tokens {
      TokenNamesDenom(l', denom);
      DenomNamesToken(l, u);
      TokenForExtends(l, l', DenomOf(l, u));
      TokenNamesDenom(l', DenomOf(l, u));
    }
  }

  lemma EscrowedExact(l: Ledger, l': Ledger, t: Address, from: Address, to: Address, v: nat, home: Home)
    requires LedgerOk(l) && LedgerOk(l') && Extends(l, l') && Moved(l, l', t, from, to, v)
    ensures Escrowed(l', home.end.client, home.denom) == Escrowed(l, home.end.client, home.denom) + Opening(l, l', home)
      - (if AtHome(l', home, t, from) then v else 0) + (if AtHome(l', home, t, to) then v else 0)
  {
    hide LedgerOk, TokenFor;
    EscrowsNonZero(l');
    if TokenFor(l, home.denom).Some? {
      TokenForExtends(l, l', home.denom);
    } else if TokenFor(l', home.denom).Some? {
      NewToken(l, l', home.denom);
    }
  }

  lemma VoucherExact(l: Ledger, l': Ledger, t: Address, from: Address, to: Address, v: nat, trace: bytes)
    requires LedgerOk(l) && LedgerOk(l') && Extends(l, l') && Moved(l, l', t, from, to, v)
    ensures VoucherSupply(l', trace) == VoucherSupply(l, trace)
      + (if trace in l'.contracts && l'.contracts[trace] == t
         then (if from == 0 then v else 0) - (if to == 0 then v else 0) else 0)
  {
    if trace in l'.contracts && trace !in l.contracts {
      assert l'.contracts[trace] !in l.tokens;
    }
  }

  // One step

  ghost predicate HomeOk(links: Links, net: Net, home: Home) {
    && home.end in links && home.end.chain < |net.ledgers| && links[home.end].chain < |net.ledgers|
    && !CameOver(home.end.client, home.denom)
  }

  /** What the escrow of a home holds beyond the vouchers issued for it and the transfers in flight. */
  ghost function Slack(links: Links, net: Net, home: Home): int
    requires home.end in links && home.end.chain < |net.ledgers| && links[home.end].chain < |net.ledgers|
  {
    Escrowed(net.ledgers[home.end.chain], home.end.client, home.denom)
    - VoucherSupply(net.ledgers[links[home.end].chain], Trace(links[home.end].client, home.denom))
    - Owed(links, net.world, home)
  }

  function IfThen(b: bool, v: int): int {
    if b then v else 0
  }

  predicate IsVoucherOf(links: Links, l: Ledger, home: Home, t: Address)
    requires home.end in links
  {
    var trace := Trace(links[home.end].client, home.denom);
    trace in l.contracts && l.contracts[trace] == t
  }

  /** One ledger moved `v`, and `d` more is owed. */
  lemma SlackMoves(
    links: Links, net: Net, net': Net, x: nat, t: Address, from: Address, to: Address, v: nat, d: int, home: Home)
    requires NetInv(links, net) && NetInv(links, net') && HomeOk(links, net, home)
    requires x < |net.ledgers| == |net'.ledgers| && net'.ledgers == net.ledgers[x := net'.ledgers[x]]
    requires Extends(net.ledgers[x], net'.ledgers[x]) && Moved(net.ledgers[x], net'.ledgers[x], t, from, to, v)
    requires Owed(links, net'.world, home) == Owed(links, net.world, home) + d
    ensures var l, l' := net.ledgers[x], net'.ledgers[x];
      Slack(links, net', home) == Slack(links, net, home) - d
        + IfThen(home.end.chain == x, Opening(l, l', home))
        - IfThen(home.end.chain == x && AtHome(l', home, t, from), v)
        + IfThen(home.end.chain == x && AtHome(l', home, t, to), v)
        - IfThen(links[home.end].chain == x && IsVoucherOf(links, l', home, t) && from == 0, v)
        + IfThen(links[home.end].chain == x && IsVoucherOf(links, l', home, t) && to == 0, v)
  {
    hide NetInv, LedgerOk, Extends, Moved, Escrowed, VoucherSupply, Opening, AtHome, Trace, CameOver, Owed;
    LedgerAt(links, net, x);
    LedgerAt(links, net', x);
    var l, l' := net.ledgers[x], net'.ledgers[x];
    if home.end.chain == x {
      EscrowedExact(l, l', t, from, to, v, home);
    }
    if links[home.end].chain == x {
      VoucherExact(l, l', t, from, to, v, Trace(links[home.end].client, home.denom));
    }
  }

  /** Nothing moved. */
  lemma SlackStays(links: Links, net: Net, net': Net, x: nat, home: Home)
    requires HomeOk(links, net, home) && net'.ledgers == net.ledgers && x < |net.ledgers|
    requires Owed(links, net'.world, home) == Owed(links, net.world, home)
    ensures Slack(links, net', home) == Slack(links, net, home)
    ensures Opening(net.ledgers[x], net'.ledgers[x], home) == 0
  {
  }

  // Which home a movement concerns

  lemma EscrowHome(l: Ledger, x: nat, t: Address, e: Address, h: Home, home: Home)
    requires LedgerOk(l) && h.end.chain == x == home.end.chain && AtHome(l, h, t, e)
    ensures AtHome(l, home, t, e) <==> home == h
  {
    if AtHome(l, home, t, e) {
      TokenNamesDenom(l, h.denom);
      TokenNamesDenom(l, home.denom);
    }
  }

  lemma VoucherHome(links: Links, w: World, l: Ledger, x: nat, t: Address, h: Home, home: Home)
    requires LedgerOk(l) && Inv(links, w) && SlashFreeIds(links)
    requires h.end in links && home.end in links && links[h.end].chain == x == links[home.end].chain
    requires IsVoucherOf(links, l, h, t)
    ensures IsVoucherOf(links, l, home, t) <==> home == h
  {
    if IsVoucherOf(links, l, home, t) {
      hide CameOver, Trace;
      LinkBack(links, w, h.end);
      LinkBack(links, w, home.end);
      var trace, own := Trace(links[home.end].client, home.denom), Trace(links[h.end].client, h.denom);
      SameVoucher(l, trace, own);
      TraceUnwinds(links[home.end].client, home.denom);
      TraceUnwinds(links[h.end].client, h.denom);
      TraceClientUnique(links[home.end].client, links[h.end].client, trace);
      assert links[links[home.end]] == links[links[h.end]];
    }
  }

  /** The zero address is nobody's escrow. */
  lemma NoZeroEscrow(l: Ledger, home: Home, t: Address)
    requires LedgerOk(l)
    ensures !AtHome(l, home, t, 0)
  {
    EscrowsNonZero(l);
  }

  // Transfers between links. `h` is the home of the transfer; what is owed there changes by the amount.

  lemma SendSlack(
    links: Links, net: Net, net': Net, x: nat, client: bytes, t: Address, caller: Address, v: nat, denom: bytes,
    h: Home, home: Home)
    requires NetInv(links, net) && NetInv(links, net') && HomeOk(links, net, home)
    requires x < |net.ledgers| == |net'.ledgers| && net'.ledgers == net.ledgers[x := net'.ledgers[x]]
    requires var l, l' := net.ledgers[x], net'.ledgers[x];
      && Extends(l, l') && client in l'.escrows && TokenFor(l', denom) == Some(t)
      && Moved(l, l', t, caller, if CameOver(client, denom) then 0 else l'.escrows[client], v)
      && caller != 0 && forall c :: c in l'.escrows ==> l'.escrows[c] != caller
    requires End(x, client) in links
    requires h == if CameOver(client, denom) then Home(links[End(x, client)], Unwind(client, denom))
                  else Home(End(x, client), denom)
    requires Owed(links, net'.world, home) == Owed(links, net.world, home) + IfThen(home == h, v)
    ensures Slack(links, net', home) == Slack(links, net, home) +
      IfThen(home.end.chain == x, Opening(net.ledgers[x], net'.ledgers[x], home))
  {
    hide NetInv, LedgerOk, Extends, Moved, Escrowed, VoucherSupply, Opening, Trace, CameOver, Owed, TokenFor, Slack,
         Unwind, Inv;
    var l' := net'.ledgers[x];
    NetParts(links, net');
    LedgerAt(links, net', x);
    LinkBack(links, net'.world, End(x, client));
    LinkBack(links, net'.world, home.end);
    var to := if CameOver(client, denom) then 0 else l'.escrows[client];
    SlackMoves(links, net, net', x, t, caller, to, v, IfThen(home == h, v), home);
    EscrowsNonZero(l');
    if CameOver(client, denom) {
      VoucherLookup(l', client, denom);
      UnwoundTrace(client, denom);
      if links[home.end].chain == x {
        VoucherHome(links, net'.world, l', x, t, h, home);
      }
    } else if home.end.chain == x {
      EscrowHome(l', x, t, to, h, home);
    }
  }

  /** A delivery or a refund: `from` is the escrow of `h`, or zero if vouchers for `h` are issued. */
  lemma PaySlack(
    links: Links, net: Net, net': Net, x: nat, t: Address, from: Address, to: Address, v: nat, h: Home, home: Home)
    requires NetInv(links, net) && NetInv(links, net') && HomeOk(links, net, home)
    requires x < |net.ledgers| == |net'.ledgers| && net'.ledgers == net.ledgers[x := net'.ledgers[x]]
    requires Extends(net.ledgers[x], net'.ledgers[x]) && Moved(net.ledgers[x], net'.ledgers[x], t, from, to, v) &&
      to != 0
    requires h.end in links
    requires if from == 0 then links[h.end].chain == x && IsVoucherOf(links, net'.ledgers[x], h, t)
             else h.end.chain == x && AtHome(net'.ledgers[x], h, t, from)
    requires Owed(links, net'.world, home) == Owed(links, net.world, home) - IfThen(home == h, v)
    ensures Slack(links, net', home) == Slack(links, net, home) +
      IfThen(home.end.chain == x, Opening(net.ledgers[x], net'.ledgers[x], home)) +
      IfThen(home.end.chain == x && AtHome(net'.ledgers[x], home, t, to), v)
  {
    hide NetInv, LedgerOk, Extends, Moved, Escrowed, VoucherSupply, Opening, Trace, CameOver, Owed, TokenFor, Slack,
         Inv, AtHome, IsVoucherOf;
    var l' := net'.ledgers[x];
    NetParts(links, net');
    LedgerAt(links, net', x);
    SlackMoves(links, net, net', x, t, from, to, v, 0 - IfThen(home == h, v), home);
    NoZeroEscrow(l', home, t);
    if from == 0 {
      if links[home.end].chain == x {
        VoucherHome(links, net'.world, l', x, t, h, home);
      }
    } else if home.end.chain == x {
      EscrowHome(l', x, t, from, h, home);
    }
  }

  // Every step

  ghost predicate Exact(links: Links, net: Net, step: NetStep, net': Net, home: Home) {
    && step.chain < |net.ledgers| == |net'.ledgers| && HomeOk(links, net, home)
    && Slack(links, net', home) == Slack(links, net, home) + Gift(net, step, net', home)
  }

  lemma SendTokensExact(links: Links, net: Net, step: NetStep, net': Net, home: Home)
    requires NetInv(links, net) && NetInv(links, net') && step.SendTokens?
    requires NetApply(links, net, step) == Ok(net') && HomeOk(links, net, home)
    ensures Exact(links, net, step, net', home)
  {
    hide NetInv, SendTransfer, Apply, LedgerOk, Extends, Shift, TokenFor, CameOver, Inv, OpenFlags, Sends, Moved, Owed,
         Slack, Opening, HomeOk, Unwind, PayloadOf, SlashFreeIds;
    NetParts(links, net);
    var x, l, w, w' := step.chain, net.ledgers[step.chain], net.world, net'.world;
    var sent := SendTransfer(l, step.caller, step.sender, step.client, step.token, step.amount, step.receiver,
                             step.memo, step.newEscrow).value;
    var l', data := sent.0, sent.1;
    LedgerAt(links, net, x);
    SendMoves(l, step.caller, step.sender, step.client, step.token, step.amount, step.receiver, step.memo,
              step.newEscrow, l', data);
    Transfer.SendKeeps(l, step.caller, step.sender, step.client, step.token, step.amount, step.receiver, step.memo,
                       step.newEscrow, l', data);
    var send := Send(x, TRANSFER_PORT, step.client, step.timeout, PayloadOf(data));
    ApplyEffect(links, w, send, w');
    SentClient(links, w, send, w');
    var s := w'.log[|w.log|];
    SendOpens(links, w, x, s.packet, w');
    OwedOpened(links, w, w', s, home);
    PayloadParts(data);
    TransferHome(links, net', s);
    SendSlack(links, net, net', x, step.client, step.token, step.caller, step.amount, data.denom,
              HomeOf(links, s, data.denom), home);
  }

  lemma PayloadParts(data: TransferData)
    ensures PayloadOf(data).sourcePort == TRANSFER_PORT && PayloadOf(data).value == AppData.Transfer(data)
  {
  }

  lemma SendOtherExact(links: Links, net: Net, step: NetStep, net': Net, home: Home)
    requires NetInv(links, net) && NetInv(links, net') && step.SendOther?
    requires NetApply(links, net, step) == Ok(net') && HomeOk(links, net, home)
    ensures Exact(links, net, step, net', home)
  {
    hide NetInv, Apply, Inv, OpenFlags, Sends, Owed, Slack, Opening;
    NetParts(links, net);
    var w, w' := net.world, net'.world;
    var send := Send(step.chain, step.port, step.client, step.timeout, step.payload);
    ApplyEffect(links, w, send, w');
    SentClient(links, w, send, w');
    var s := w'.log[|w.log|];
    SendOpens(links, w, step.chain, s.packet, w');
    OwedOpened(links, w, w', s, home);
    SlackStays(links, net, net', step.chain, home);
  }

  /** The transfer at log entry `k` is settled by a delivery at chain `x`. */
  lemma DeliveryExact(
    links: Links, net: Net, net': Net, x: nat, p: Packet, newEscrow: Address, newToken: Address, k: nat, home: Home)
    requires NetInv(links, net) && NetInv(links, net') && HomeOk(links, net, home)
    requires x < |net.ledgers| == |net'.ledgers| && net'.ledgers == net.ledgers[x := net'.ledgers[x]]
    requires Settles(links, net.world, net'.world, k) && net'.world.log == net.world.log
    requires |p.payloads| == 1 && net.world.log[k].packet == p && Source(net.world.log[k]) in links
    requires links[Source(net.world.log[k])] == End(x, p.destClient)
    requires ReceiveTransfer(net.ledgers[x], p.sourceClient, p.destClient, p.payloads[0], newEscrow, newToken) ==
      Ok(net'.ledgers[x])
    ensures var payment := DeliveryPayment(net.ledgers[x], net'.ledgers[x], p.sourceClient, p.destClient,
      p.payloads[0]);
      && payment.Payment?
      && Slack(links, net', home) == Slack(links, net, home) +
           IfThen(home.end.chain == x, Opening(net.ledgers[x], net'.ledgers[x], home)) +
           IfThen(home.end.chain == x && AtHome(net'.ledgers[x], home, payment.token, payment.payee), payment.amount)
  {
    hide NetInv, LedgerOk, Extends, Shift, Inv, InFlight, OpenFlags, CameOver, Trace, Unwind, TokenFor, Owed,
         ReceiveTransfer, Moved, Slack, Opening, HomeOk, AtHome, UnwoundToken, ParseDigits;
    var s, l, l' := net.world.log[k], net.ledgers[x], net'.ledgers[x];
    FromPort(l, p, newEscrow, newToken);
    NetParts(links, net);
    LedgerAt(links, net, x);
    LedgerAt(links, net', x);
    assert s in net.world.log;
    TransferHome(links, net, s);
    LinkBack(links, net.world, Source(s));
    var data := p.payloads[0].value.data;
    var h := HomeOf(links, s, data.denom);
    OwedSettled(links, net.world, net'.world, k, home);
    DestSlashFree(links, Source(s));
    var t, receiver := ReceiveMoves(l, p.sourceClient, p.destClient, p.payloads[0], newEscrow, newToken, l');
    if CameOver(p.sourceClient, data.denom) {
      LookupsAgree(l, h.denom);
      ReturnKeeps(l, p.sourceClient, p.destClient, p.payloads[0], newEscrow, newToken, t, l');
      TokenForExtends(l, l', h.denom);
      AtHomeIs(l', h, t, l'.escrows[p.destClient]);
      EscrowsNonZero(l');
      PaySlack(links, net, net', x, t, l'.escrows[p.destClient], receiver, data.amount, h, home);
    } else {
      ArrivalKeeps(l, p.sourceClient, p.destClient, p.payloads[0], newEscrow, newToken, l');
      PaySlack(links, net, net', x, t, 0, receiver, data.amount, h, home);
    }
  }

  lemma FromPort(l: Ledger, p: Packet, newEscrow: Address, newToken: Address)
    requires |p.payloads| == 1
    requires ReceiveTransfer(l, p.sourceClient, p.destClient, p.payloads[0], newEscrow, newToken).Ok?
    ensures FromTransfer(p) && p.payloads[0].value.Transfer?
  {
  }

  lemma DestSlashFree(links: Links, e: End)
    requires SlashFreeIds(links) && e in links && links[e] in links
    ensures SlashFree(links[e].client)
  {
  }

  lemma AtHomeIs(l: Ledger, home: Home, t: Address, a: Address)
    requires home.end.client in l.escrows && l.escrows[home.end.client] == a && TokenFor(l, home.denom) == Some(t)
    ensures AtHome(l, home, t, a)
  {
  }

  lemma ReceiveExact(links: Links, net: Net, step: NetStep, net': Net, home: Home)
    requires NetInv(links, net) && NetInv(links, net') && step.Receive?
    requires NetApply(links, net, step) == Ok(net') && HomeOk(links, net, home)
    ensures Exact(links, net, step, net', home)
  {
    hide NetInv, Apply, LedgerOk, Inv, OpenFlags, Receives, ReceiveTransfer, Settles, Owed, Slack, Opening, AtHome,
         DeliveryPayment, HomeOk;
    NetParts(links, net);
    var x, p, w, w' := step.chain, step.packet, net.world, net'.world;
    var callback := if ToTransfer(p) then OnReceive(net.ledgers[x], p, step.newEscrow, step.newToken, step.admitted)
                    else Ok(net.ledgers[x]);
    var app := if !ToTransfer(p) then step.other else if callback.Ok? then Returned(SUCCESS_ACK) else Reverted([1]);
    StepWorld(links, w, Recv(x, p, step.height, app), w');
    if w' == w {
      SlackStays(links, net, net', x, home);
    } else {
      var ack := NewAck(w, w');
      var k := RecvSettles(links, w, x, p, step.height, ack, w');
      if ToTransfer(p) && callback.Ok? {
        assert |SUCCESS_ACK| != |UNIVERSAL_ERROR_ACK|;
        DeliveryExact(links, net, net', x, p, step.newEscrow, step.newToken, k, home);
      } else {
        if ack == UNIVERSAL_ERROR_ACK {
          SameOwed(links, w, w');
        } else {
          NotATransfer(links, net, w.log[k]);
          NoClaim(links, w, w', k);
        }
        SlackStays(links, net, net', x, home);
      }
    }
  }

  /** The transfer at log entry `k` is settled by a refund. */
  lemma RefundExact(links: Links, net: Net, net': Net, x: nat, p: Packet, k: nat, home: Home)
    requires NetInv(links, net) && NetInv(links, net') && HomeOk(links, net, home)
    requires x < |net.ledgers| == |net'.ledgers| && net'.ledgers == net.ledgers[x := net'.ledgers[x]]
    requires Settles(links, net.world, net'.world, k) && net'.world.log == net.world.log &&
      net.world.log[k] == Sent(x, p)
    requires FromTransfer(p) && p.payloads[0].value.Transfer?
    requires RefundTransfer(net.ledgers[x], p.sourceClient, p.payloads[0].value.data) == Ok(net'.ledgers[x])
    ensures var payment := PacketRefund(net.ledgers[x], p);
      && payment.Payment?
      && Slack(links, net', home) == Slack(links, net, home) +
           IfThen(home.end.chain == x, Opening(net.ledgers[x], net'.ledgers[x], home)) +
           IfThen(home.end.chain == x && AtHome(net'.ledgers[x], home, payment.token, payment.payee), payment.amount)
  {
    hide NetInv, LedgerOk, Extends, Shift, Inv, InFlight, OpenFlags, CameOver, Trace, Unwind, TokenFor, Owed,
         RefundTransfer, Moved, Slack, Opening, HomeOk, AtHome, ParseDigits, RefundedToken;
    var s, l, l' := net.world.log[k], net.ledgers[x], net'.ledgers[x];
    NetParts(links, net);
    LedgerAt(links, net, x);
    LedgerAt(links, net', x);
    assert s in net.world.log;
    TransferHome(links, net, s);
    LinkBack(links, net.world, Source(s));
    var data := p.payloads[0].value.data;
    var h := HomeOf(links, s, data.denom);
    OwedSettled(links, net.world, net'.world, k, home);
    var t := TokenFor(l, data.denom).value;
    RefundsInKind(l, p.sourceClient, data.denom);
    RefundKeeps(l, p.sourceClient, data, t, l');
    var refundee := RefundMoves(l, p.sourceClient, data, t, l');
    TokenForExtends(l, l', data.denom);
    EscrowsNonZero(l');
    if CameOver(p.sourceClient, data.denom) {
      VoucherLookup(l', p.sourceClient, data.denom);
      UnwoundTrace(p.sourceClient, data.denom);
      PaySlack(links, net, net', x, t, 0, refundee, data.amount, h, home);
    } else {
      SameEscrow(l, l', p.sourceClient);
      AtHomeIs(l', h, t, l'.escrows[p.sourceClient]);
      PaySlack(links, net, net', x, t, l'.escrows[p.sourceClient], refundee, data.amount, h, home);
    }
  }

  lemma SameEscrow(l: Ledger, l': Ledger, client: bytes)
    requires Extends(l, l') && client in l.escrows
    ensures client in l'.escrows && l'.escrows[client] == l.escrows[client]
  {
  }

  lemma AcknowledgeExact(links: Links, net: Net, step: NetStep, net': Net, home: Home)
    requires NetInv(links, net) && NetInv(links, net') && step.Acknowledge?
    requires NetApply(links, net, step) == Ok(net') && HomeOk(links, net, home)
    ensures Exact(links, net, step, net', home)
  {
    hide NetInv, Apply, LedgerOk, Inv, OpenFlags, Acknowledges, RefundTransfer, Settles, Owed, Slack, Opening, AtHome,
         HomeOk, RefundPayment;
    NetParts(links, net);
    var x, p, w, w' := step.chain, step.packet, net.world, net'.world;
    var callback := if FromTransfer(p) then OnAcknowledge(net.ledgers[x], p, step.ack, step.admitted)
                    else Ok(net.ledgers[x]);
    var ackStep := Ack(x, p, step.ack, step.height, if FromTransfer(p) then callback.Ok? else step.admitted);
    StepWorld(links, w, ackStep, w');
    if w' == w {
      SlackStays(links, net, net', x, home);
    } else {
      var k := AckSettles(links, w, x, p, step.ack, step.height, w');
      CalledBack(links, w, ackStep, w');
      if step.ack == UNIVERSAL_ERROR_ACK && FromTransfer(p) {
        RefundExact(links, net, net', x, p, k, home);
      } else {
        if step.ack != UNIVERSAL_ERROR_ACK {
          SameOwed(links, w, w');
        } else {
          NoClaim(links, w, w', k);
        }
        SlackStays(links, net, net', x, home);
      }
    }
  }

  lemma ExpireExact(links: Links, net: Net, step: NetStep, net': Net, home: Home)
    requires NetInv(links, net) && NetInv(links, net') && step.Expire?
    requires NetApply(links, net, step) == Ok(net') && HomeOk(links, net, home)
    ensures Exact(links, net, step, net', home)
  {
    hide NetInv, Apply, LedgerOk, Inv, OpenFlags, TimesOut, RefundTransfer, Settles, Owed, Slack, Opening, AtHome,
         HomeOk, RefundPayment;
    NetParts(links, net);
    var x, p, w, w' := step.chain, step.packet, net.world, net'.world;
    var callback := if FromTransfer(p) then OnRefund(net.ledgers[x], p, step.admitted) else Ok(net.ledgers[x]);
    var timeout := Timeout(x, p, step.height, if FromTransfer(p) then callback.Ok? else step.admitted);
    StepWorld(links, w, timeout, w');
    if w' == w {
      SlackStays(links, net, net', x, home);
    } else {
      var k := TimeoutSettles(links, w, x, p, step.height, w');
      CalledBack(links, w, timeout, w');
      if FromTransfer(p) {
        RefundExact(links, net, net', x, p, k, home);
      } else {
        NoClaim(links, w, w', k);
        SlackStays(links, net, net', x, home);
      }
    }
  }

  lemma ActExact(links: Links, net: Net, step: NetStep, net': Net, home: Home)
    requires NetInv(links, net) && NetInv(links, net') && step.Act?
    requires NetApply(links, net, step) == Ok(net') && HomeOk(links, net, home)
    ensures Exact(links, net, step, net', home)
  {
    hide NetInv, LedgerOk, Extends, Shift, Inv, Moved, Owed, Slack, Opening, UserCall, Trace, TokenFor, CameOver;
    var x, l, l' := step.chain, net.ledgers[step.chain], net'.ledgers[step.chain];
    LedgerAt(links, net, x);
    LedgerAt(links, net', x);
    UserCallKeeps(l, step.token, step.caller, step.call, l');
    var from, to, v := UserCallMoves(l, step.token, step.caller, step.call, l');
    SlackMoves(links, net, net', x, step.token, from, to, v, 0, home);
    NoZeroEscrow(l', home, step.token);
    if links[home.end].chain == x && IsVoucherOf(links, l', home, step.token) {
      VoucherRegistered(l, Trace(links[home.end].client, home.denom));
    }
  }

  lemma VoucherRegistered(l: Ledger, trace: bytes)
    requires LedgerOk(l) && trace in l.contracts
    ensures l.contracts[trace] in l.denoms
  {
  }

  lemma QuietExact(links: Links, net: Net, step: NetStep, net': Net, home: Home)
    requires NetInv(links, net) && NetInv(links, net') && (step.NewBlock? || step.Deploy?)
    requires NetApply(links, net, step) == Ok(net')
    requires HomeOk(links, net, home)
    ensures Exact(links, net, step, net', home)
  {
    hide NetInv, Apply, LedgerOk, Extends, Shift, Inv, OpenFlags, Moved, Owed, Slack, Opening, Advances, DeployToken;
    var x := step.chain;
    NetParts(links, net);
    if step.NewBlock? {
      StepWorld(links, net.world, Block(x, step.time), net'.world);
      AdvanceSettlesNothing(links, net.world, x, step.time, net'.world);
      SameOwed(links, net.world, net'.world);
      SlackStays(links, net, net', x, home);
    } else {
      LedgerAt(links, net, x);
      DeployKeeps(net.ledgers[x], step.token, net'.ledgers[x]);
      DeployMovesNothing(net.ledgers[x], step.token, net'.ledgers[x]);
      SlackMoves(links, net, net', x, step.token, 0, 0, 0, 0, home);
    }
  }

  lemma DeployMovesNothing(l: Ledger, created: Address, l': Ledger)
    requires DeployToken(l, created) == Ok(l')
    ensures Moved(l, l', created, 0, 0, 0)
  {
  }

  // Clients outside the links

  /** A movement over an unlinked client concerns no home, except as a payment to its escrow. */
  lemma UnlinkedSlack(
    links: Links, net: Net, net': Net, x: nat, client: bytes, t: Address, from: Address, to: Address, v: nat,
    home: Home)
    requires NetInv(links, net) && NetInv(links, net') && HomeOk(links, net, home) && Unlinked(links, x, client)
    requires x < |net.ledgers| == |net'.ledgers| && net'.ledgers == net.ledgers[x := net'.ledgers[x]]
    requires net'.world == net.world && client in net'.ledgers[x].escrows
    requires Extends(net.ledgers[x], net'.ledgers[x]) && Moved(net.ledgers[x], net'.ledgers[x], t, from, to, v)
    requires from == 0 || to == 0 ==> VoucherOver(net'.ledgers[x], client, t)
    requires from == 0 || from == net'.ledgers[x].escrows[client] ||
      forall c :: c in net'.ledgers[x].escrows ==> net'.ledgers[x].escrows[c] != from
    ensures Slack(links, net', home) == Slack(links, net, home) +
      IfThen(home.end.chain == x, Opening(net.ledgers[x], net'.ledgers[x], home)) +
      IfThen(home.end.chain == x && AtHome(net'.ledgers[x], home, t, to), v)
  {
    hide NetInv, LedgerOk, Extends, Moved, Slack, Opening, Trace, CameOver, TokenFor, VoucherOver, Inv, Owed;
    var l' := net'.ledgers[x];
    NetParts(links, net);
    LedgerAt(links, net', x);
    LinkBack(links, net.world, home.end);
    SlackMoves(links, net, net', x, t, from, to, v, 0, home);
    EscrowsNonZero(l');
    if home.end.chain == x {
      NotItsEscrow(l', client, home.end.client);
    }
    if links[home.end].chain == x && (from == 0 || to == 0) {
      NotItsVoucher(links, l', x, client, t, home);
    }
  }

  lemma NotItsEscrow(l: Ledger, client: bytes, other: bytes)
    requires LedgerOk(l) && client in l.escrows && other != client
    ensures other in l.escrows ==> l.escrows[other] != l.escrows[client]
  {
  }

  lemma NotItsVoucher(links: Links, l: Ledger, x: nat, client: bytes, t: Address, home: Home)
    requires LedgerOk(l) && VoucherOver(l, client, t) && Unlinked(links, x, client) && SlashFreeIds(links)
    requires home.end in links && links[home.end] in links && links[home.end].chain == x
    ensures !IsVoucherOf(links, l, home, t)
  {
    if IsVoucherOf(links, l, home, t) {
      var trace := Trace(links[home.end].client, home.denom);
      var own :| own in l.contracts && l.contracts[own] == t && CameOver(client, own);
      SameVoucher(l, trace, own);
      TraceUnwinds(links[home.end].client, home.denom);
      TraceClientUnique(links[home.end].client, client, trace);
    }
  }

  lemma IsVoucherOver(l: Ledger, client: bytes, trace: bytes, t: Address)
    requires trace in l.contracts && l.contracts[trace] == t && CameOver(client, trace)
    ensures VoucherOver(l, client, t)
  {
  }

  lemma UnlinkedSendExact(links: Links, net: Net, step: NetStep, net': Net, home: Home)
    requires NetInv(links, net) && NetInv(links, net') && step.UnlinkedSend?
    requires NetApply(links, net, step) == Ok(net') && HomeOk(links, net, home)
    ensures Exact(links, net, step, net', home)
  {
    hide NetInv, LedgerOk, Extends, Shift, Moved, SendTransfer, CameOver, TokenFor, Slack, Opening, HomeOk,
         VoucherOver;
    var x, l, l', client := step.chain, net.ledgers[step.chain], net'.ledgers[step.chain], step.client;
    LedgerAt(links, net, x);
    LedgerAt(links, net', x);
    var data := SendTransfer(l, step.caller, step.sender, client, step.token, step.amount, step.receiver, step.memo,
                             step.newEscrow).value.1;
    SendMoves(l, step.caller, step.sender, client, step.token, step.amount, step.receiver, step.memo, step.newEscrow,
              l', data);
    Transfer.SendKeeps(l, step.caller, step.sender, client, step.token, step.amount, step.receiver, step.memo,
                       step.newEscrow, l', data);
    EscrowsNonZero(l');
    if CameOver(client, data.denom) {
      VoucherLookup(l', client, data.denom);
      IsVoucherOver(l', client, data.denom, step.token);
      UnlinkedSlack(links, net, net', x, client, step.token, step.caller, 0, step.amount, home);
      NoZeroEscrow(l', home, step.token);
    } else {
      UnlinkedSlack(links, net, net', x, client, step.token, step.caller, l'.escrows[client], step.amount, home);
      if home.end.chain == x {
        HomeIsLinked(links, net, home);
        NotItsEscrow(l', client, home.end.client);
      }
    }
  }

  lemma HomeIsLinked(links: Links, net: Net, home: Home)
    requires HomeOk(links, net, home)
    ensures home.end in links
  {
  }

  lemma UnlinkedReceiveExact(links: Links, net: Net, step: NetStep, net': Net, home: Home)
    requires NetInv(links, net) && NetInv(links, net') && step.UnlinkedReceive?
    requires NetApply(links, net, step) == Ok(net') && HomeOk(links, net, home)
    ensures Exact(links, net, step, net', home)
  {
    hide NetInv, LedgerOk, Extends, Shift, Moved, ReceiveTransfer, CameOver, TokenFor, Slack, Opening, HomeOk,
         VoucherOver, Unwind, UnwoundToken, AtHome, ParseDigits;
    var x, l, l', client := step.chain, net.ledgers[step.chain], net'.ledgers[step.chain], step.client;
    LedgerAt(links, net, x);
    LedgerAt(links, net', x);
    var t, receiver := ReceiveMoves(l, step.sourceClient, client, step.payload, step.newEscrow, step.newToken, l');
    var data := step.payload.value.data;
    EscrowsNonZero(l');
    if CameOver(step.sourceClient, data.denom) {
      ReturnKeeps(l, step.sourceClient, client, step.payload, step.newEscrow, step.newToken, t, l');
      UnlinkedSlack(links, net, net', x, client, t, l'.escrows[client], receiver, data.amount, home);
    } else {
      ArrivalKeeps(l, step.sourceClient, client, step.payload, step.newEscrow, step.newToken, l');
      TraceUnwinds(client, data.denom);
      IsVoucherOver(l', client, Trace(client, data.denom), t);
      UnlinkedSlack(links, net, net', x, client, t, 0, receiver, data.amount, home);
    }
  }

  lemma UnlinkedRefundExact(links: Links, net: Net, step: NetStep, net': Net, home: Home)
    requires NetInv(links, net) && NetInv(links, net') && step.UnlinkedRefund?
    requires NetApply(links, net, step) == Ok(net') && HomeOk(links, net, home)
    ensures Exact(links, net, step, net', home)
  {
    hide NetInv, LedgerOk, Extends, Shift, Moved, RefundTransfer, CameOver, TokenFor, Slack, Opening, HomeOk,
         VoucherOver, AtHome, ParseDigits;
    var x, l, l', client, data := step.chain, net.ledgers[step.chain], net'.ledgers[step.chain], step.client, step.data;
    LedgerAt(links, net, x);
    LedgerAt(links, net', x);
    var t := RefundedOf(l, client, data);
    RefundKeeps(l, client, data, t, l');
    var refundee := RefundMoves(l, client, data, t, l');
    EscrowsNonZero(l');
    if CameOver(client, data.denom) {
      IsVoucherOver(l', client, data.denom, t);
      UnlinkedSlack(links, net, net', x, client, t, 0, refundee, data.amount, home);
    } else {
      SameEscrow(l, l', client);
      UnlinkedSlack(links, net, net', x, client, t, l'.escrows[client], refundee, data.amount, home);
    }
  }

  lemma StepExact(links: Links, net: Net, step: NetStep, net': Net, home: Home)
    requires NetInv(links, net) && NetApply(links, net, step) == Ok(net') && HomeOk(links, net, home)
    ensures Exact(links, net, step, net', home)
  {
    hide NetInv, NetApply, HomeOk, Exact;
    NetStepKeeps(links, net, step, net');
    match step
    case SendTokens(_, _, _, _, _, _, _, _, _, _) => SendTokensExact(links, net, step, net', home);
    case SendOther(_, _, _, _, _) => SendOtherExact(links, net, step, net', home);
    case Receive(_, _, _, _, _, _, _) => ReceiveExact(links, net, step, net', home);
    case Acknowledge(_, _, _, _, _) => AcknowledgeExact(links, net, step, net', home);
    case Expire(_, _, _, _) => ExpireExact(links, net, step, net', home);
    case Act(_, _, _, _) => ActExact(links, net, step, net', home);
    case UnlinkedSend(_, _, _, _, _, _, _, _, _) => UnlinkedSendExact(links, net, step, net', home);
    case UnlinkedReceive(_, _, _, _, _, _) => UnlinkedReceiveExact(links, net, step, net', home);
    case UnlinkedRefund(_, _, _) => UnlinkedRefundExact(links, net, step, net', home);
    case _ => QuietExact(links, net, step, net', home);
  }

  // Every run

  lemma {:induction false} RunExact(links: Links, selves: seq<Address>, steps: seq<NetStep>, home: Home)
    requires WellLinked(links, |selves|) && SlashFreeIds(links)
    requires home.end in links && !CameOver(home.end.client, home.denom)
    ensures var net := NetRun(links, NetGenesis(selves), steps);
      HomeOk(links, net, home) && Slack(links, net, home) == Gifts(links, NetGenesis(selves), steps, home)
  {
    hide NetInv, NetApply, SlashFreeIds, WellLinked, NetGenesis, CameOver, Slack, Gift, HomeOk;
    var net := NetRun(links, NetGenesis(selves), steps);
    if steps == [] {
      BeginsEven(links, selves, home);
    } else {
      var prefix, last := steps[..|steps| - 1], steps[|steps| - 1];
      RunExact(links, selves, prefix, home);
      NetRunKeeps(links, selves, prefix);
      var before := NetRun(links, NetGenesis(selves), prefix);
      if NetApply(links, before, last).Ok? {
        StepExact(links, before, last, net, home);
        StillHome(links, before, net, home);
      }
    }
  }

  lemma StillHome(links: Links, net: Net, net': Net, home: Home)
    requires HomeOk(links, net, home) && |net'.ledgers| == |net.ledgers|
    ensures HomeOk(links, net', home)
  {
  }

  lemma BeginsEven(links: Links, selves: seq<Address>, home: Home)
    requires WellLinked(links, |selves|) && home.end in links && !CameOver(home.end.client, home.denom)
    ensures HomeOk(links, NetGenesis(selves), home) && Slack(links, NetGenesis(selves), home) == 0
  {
    assert links[home.end] in links;
  }

  /** In every run, for every client and every token: the escrow holds exactly the vouchers issued at the other end,
      plus all unsettled transfers in both directions, plus what was given to it. */
  lemma ConservedExactly(links: Links, selves: seq<Address>, steps: seq<NetStep>, home: Home)
    requires WellLinked(links, |selves|) && SlashFreeIds(links)
    requires home.end in links && !CameOver(home.end.client, home.denom)
    ensures var net := NetRun(links, NetGenesis(selves), steps);
      && home.end.chain < |net.ledgers| && links[home.end].chain < |net.ledgers|
      && Escrowed(net.ledgers[home.end.chain], home.end.client, home.denom) ==
           VoucherSupply(net.ledgers[links[home.end].chain], Trace(links[home.end].client, home.denom)) +
           InFlight(links, net.world.log, OpenFlags(links, net.world), home) +
           Gifts(links, NetGenesis(selves), steps, home)
  {
    hide NetRun, NetGenesis, Gifts, Escrowed, VoucherSupply, InFlight, OpenFlags, Trace, CameOver, WellLinked,
         SlashFreeIds;
    RunExact(links, selves, steps, home);
  }
}
