/** Token conservation across any number of chains: in every run, what an escrow holds of a token covers the vouchers
    issued for it at the other end of the client plus everything still in flight in either direction. */
module Conservation {
  import opened Bytes
  import opened Router
  import opened PacketSafety
  import opened Settlement
  import opened Denoms
  import opened Transfer
  import Erc20
  import Clients

  datatype Net = Net(world: World, ledgers: seq<Ledger>)

  /** `admitted` is false when the application is paused or its rate limit is exhausted. Anyone can add a client, so
      the three unlinked steps let through whatever a client outside the links may claim: any packet at any time, and a
      refund of anything. */
  datatype NetStep =
    | SendTokens(chain: nat, caller: Address, sender: Address, client: bytes, token: Address, amount: uint256,
                 receiver: bytes, memo: bytes, timeout: nat, newEscrow: Address)
    | SendOther(chain: nat, port: bytes, client: bytes, timeout: nat, payload: Payload)
    | Receive(chain: nat, packet: Packet, height: nat, newEscrow: Address, newToken: Address, admitted: bool,
              other: AppResult)
    | Acknowledge(chain: nat, packet: Packet, ack: bytes, height: nat, admitted: bool)
    | Expire(chain: nat, packet: Packet, height: nat, admitted: bool)
    | NewBlock(chain: nat, time: nat)
    | Act(chain: nat, token: Address, caller: Address, call: Erc20.TokenCall)
    | Deploy(chain: nat, token: Address)
    | UnlinkedSend(chain: nat, caller: Address, sender: Address, client: bytes, token: Address, amount: uint256,
                   receiver: bytes, memo: bytes, newEscrow: Address)
    | UnlinkedReceive(chain: nat, client: bytes, sourceClient: bytes, payload: Payload, newEscrow: Address,
                      newToken: Address)
    | UnlinkedRefund(chain: nat, client: bytes, data: TransferData)

  /** A registered client that is not one of the links. */
  predicate Unlinked(links: Links, x: nat, client: bytes) {
    End(x, client) !in links && SlashFree(client)
  }

  /** What traffic over an unlinked client does to the ledger. Its router records have paths of their own and are left
      out of the world. */
  function UnlinkedLedger(links: Links, l: Ledger, step: NetStep): Result<Ledger>
    requires step.UnlinkedSend? || step.UnlinkedReceive? || step.UnlinkedRefund?
  {
    if !Unlinked(links, step.chain, step.client) then Err("a linked client, or none")
    else match step
      case UnlinkedSend(_, caller, sender, client, t, v, receiver, memo, newEscrow) =>
        (match SendTransfer(l, caller, sender, client, t, v, receiver, memo, newEscrow)
         case Err(e) => Err(e)
         case Ok((l', _)) => Ok(l'))
      case UnlinkedReceive(_, client, sourceClient, payload, newEscrow, newToken) =>
        ReceiveTransfer(l, sourceClient, client, payload, newEscrow, newToken)
      case UnlinkedRefund(_, client, data) => RefundTransfer(l, client, data)
  }

  predicate ToTransfer(p: Packet) {
    |p.payloads| == 1 && p.payloads[0].destPort == TRANSFER_PORT
  }

  predicate FromTransfer(p: Packet) {
    |p.payloads| == 1 && p.payloads[0].sourcePort == TRANSFER_PORT
  }

  function OnReceive(l: Ledger, p: Packet, newEscrow: Address, newToken: Address, admitted: bool): Result<Ledger>
    requires |p.payloads| == 1
  {
    if admitted then ReceiveTransfer(l, p.sourceClient, p.destClient, p.payloads[0], newEscrow, newToken)
    else Err("paused or rate limited")
  }

  function OnRefund(l: Ledger, p: Packet, admitted: bool): Result<Ledger>
    requires |p.payloads| == 1
  {
    if !admitted then Err("paused or rate limited")
    else if !p.payloads[0].value.Transfer? then Err("cannot decode the packet data")
    else RefundTransfer(l, p.sourceClient, p.payloads[0].value.data)
  }

  function OnAcknowledge(l: Ledger, p: Packet, ack: bytes, admitted: bool): Result<Ledger>
    requires |p.payloads| == 1
  {
    if ack == UNIVERSAL_ERROR_ACK then OnRefund(l, p, admitted)
    else if !admitted then Err("paused")
    else if !p.payloads[0].value.Transfer? then Err("cannot decode the packet data")
    else if ParseAddress(p.payloads[0].value.data.sender).None? then Err("ICS20InvalidAddress")
    else Ok(l)
  }

  /** The router step and the application callback are one transaction: if a callback was made, its ledger counts. */
  function Commit(net: Net, x: nat, outcome: Result<World>, callback: Result<Ledger>): Result<Net>
    requires x < |net.ledgers|
  {
    match outcome
    case Err(e) => Err(e)
    case Ok(w) =>
      Ok(Net(w, if w.calls != net.world.calls && callback.Ok? then net.ledgers[x := callback.value] else net.ledgers))
  }

  function NetApply(links: Links, net: Net, step: NetStep): Result<Net> {
    var x := step.chain;
    if x >= |net.ledgers| then Err("no such chain")
    else
      var l := net.ledgers[x];
      match step
      case SendTokens(_, caller, sender, client, t, v, receiver, memo, timeout, newEscrow) =>
        (match SendTransfer(l, caller, sender, client, t, v, receiver, memo, newEscrow)
         case Err(e) => Err(e)
         case Ok((l', data)) =>
           match Apply(links, net.world, Send(x, TRANSFER_PORT, client, timeout, PayloadOf(data)))
           case Err(e) => Err(e)
           case Ok(w) => Ok(Net(w, net.ledgers[x := l'])))
      case SendOther(_, port, client, timeout, payload) =>
        if port == TRANSFER_PORT then Err("IBCUnauthorizedSender")
        else (match Apply(links, net.world, Send(x, port, client, timeout, payload))
              case Err(e) => Err(e)
              case Ok(w) => Ok(net.(world := w)))
      case Receive(_, p, height, newEscrow, newToken, admitted, other) =>
        if ToTransfer(p) then
          var callback := OnReceive(l, p, newEscrow, newToken, admitted);
          var app := if callback.Ok? then Returned(SUCCESS_ACK) else Reverted([1]);
          Commit(net, x, Apply(links, net.world, Recv(x, p, height, app)), callback)
        else Commit(net, x, Apply(links, net.world, Recv(x, p, height, other)), Ok(l))
      case Acknowledge(_, p, ack, height, admitted) =>
        if FromTransfer(p) then
          var callback := OnAcknowledge(l, p, ack, admitted);
          Commit(net, x, Apply(links, net.world, Ack(x, p, ack, height, callback.Ok?)), callback)
        else Commit(net, x, Apply(links, net.world, Ack(x, p, ack, height, admitted)), Ok(l))
      case Expire(_, p, height, admitted) =>
        if FromTransfer(p) then
          var callback := OnRefund(l, p, admitted);
          Commit(net, x, Apply(links, net.world, Timeout(x, p, height, callback.Ok?)), callback)
        else Commit(net, x, Apply(links, net.world, Timeout(x, p, height, admitted)), Ok(l))
      case NewBlock(_, time) =>
        (match Apply(links, net.world, Block(x, time))
         case Err(e) => Err(e)
         case Ok(w) => Ok(net.(world := w)))
      case Act(_, t, caller, call) =>
        (match UserCall(l, t, caller, call)
         case Err(e) => Err(e)
         case Ok(l') => Ok(net.(ledgers := net.ledgers[x := l'])))
      case Deploy(_, t) =>
        (match DeployToken(l, t)
         case Err(e) => Err(e)
         case Ok(l') => Ok(net.(ledgers := net.ledgers[x := l'])))
      case _ =>
        (match UnlinkedLedger(links, l, step)
         case Err(e) => Err(e)
         case Ok(l') => Ok(net.(ledgers := net.ledgers[x := l'])))
  }

  function NetRun(links: Links, net: Net, steps: seq<NetStep>): Net {
    if steps == [] then net
    else
      var before := NetRun(links, net, steps[..|steps| - 1]);
      match NetApply(links, before, steps[|steps| - 1])
      case Ok(after) => after
      case Err(_) => before
  }

  function NetGenesis(selves: seq<Address>): Net {
    Net(Genesis(|selves|),
        seq(|selves|, x requires 0 <= x < |selves| => Ledger(selves[x], map[], map[], map[], map[], map[])))
  }

  // Claims on an escrow

  /** A token at its home: the chain and client whose escrow holds it, and its denomination there. */
  datatype Home = Home(end: End, denom: bytes)

  /** A packet that takes a token away claims the escrow it left; one that brings a voucher back claims the escrow at
      the other end. */
  function HomeOf(links: Links, s: Sent, denom: bytes): Home
    requires Source(s) in links
  {
    if CameOver(s.packet.sourceClient, denom) then Home(links[Source(s)], Unwind(s.packet.sourceClient, denom))
    else Home(Source(s), denom)
  }

  function Claim(links: Links, s: Sent, home: Home): nat {
    if FromTransfer(s.packet) && s.packet.payloads[0].value.Transfer? && Source(s) in links &&
       HomeOf(links, s, s.packet.payloads[0].value.data.denom) == home
    then s.packet.payloads[0].value.data.amount else 0
  }

  function InFlight(links: Links, log: seq<Sent>, open: seq<bool>, home: Home): nat
    requires |log| == |open|
  {
    if log == [] then 0
    else
      var n := |log| - 1;
      InFlight(links, log[..n], open[..n], home) + if open[n] then Claim(links, log[n], home) else 0
  }

  lemma InFlightAppend(links: Links, log: seq<Sent>, open: seq<bool>, s: Sent, home: Home)
    requires |log| == |open|
    ensures InFlight(links, log + [s], open + [true], home) == InFlight(links, log, open, home) + Claim(links, s, home)
  {
    assert (log + [s])[..|log|] == log && (open + [true])[..|open|] == open;
  }

  lemma {:induction false} InFlightSettle(links: Links, log: seq<Sent>, open: seq<bool>, k: nat, home: Home)
    requires |log| == |open| && k < |open| && open[k]
    ensures InFlight(links, log, open, home) ==
      InFlight(links, log, open[k := false], home) + Claim(links, log[k], home)
  {
    var n := |log| - 1;
    if k == n {
      assert open[k := false][..n] == open[..n];
    } else {
      InFlightSettle(links, log[..n], open[..n], k, home);
      assert open[k := false][..n] == open[..n][k := false];
    }
  }

  function Escrowed(l: Ledger, client: bytes, denom: bytes): nat {
    if TokenFor(l, denom).Some? && client in l.escrows then Bal(l, TokenFor(l, denom).value, l.escrows[client]) else 0
  }

  function VoucherSupply(l: Ledger, trace: bytes): nat {
    if trace in l.contracts then Supply(l, l.contracts[trace]) else 0
  }

  // Invariants

  /** True of links between registered clients, see `RegisteredIds`. */
  ghost predicate SlashFreeIds(links: Links) {
    forall e :: e in links ==> SlashFree(e.client)
  }

  /** The token of every voucher is known at the other end of the client it came over, and did not come from here. */
  ghost predicate VouchersOk(links: Links, ledgers: seq<Ledger>) {
    forall e, denom ::
      (e in links && e.chain < |ledgers| && links[e].chain < |ledgers| &&
       Trace(e.client, denom) in ledgers[e.chain].contracts) ==>
      TokenFor(ledgers[links[e].chain], denom).Some? && !CameOver(links[e].client, denom)
  }

  ghost predicate TransferOk(ledgers: seq<Ledger>, s: Sent) {
    FromTransfer(s.packet) ==>
      && s.chain < |ledgers|
      && s.packet.payloads[0].value.Transfer?
      && var data := s.packet.payloads[0].value.data;
      && s.packet.payloads[0] == PayloadOf(data) && data.amount > 0
      && TokenFor(ledgers[s.chain], data.denom).Some?
      && s.packet.sourceClient in ledgers[s.chain].escrows
  }

  ghost predicate FundsOk(links: Links, net: Net, home: Home) {
    home.end in links && home.end.chain < |net.ledgers| && links[home.end].chain < |net.ledgers| &&
      !CameOver(home.end.client, home.denom) ==>
      Escrowed(net.ledgers[home.end.chain], home.end.client, home.denom) >=
        VoucherSupply(net.ledgers[links[home.end].chain], Trace(links[home.end].client, home.denom)) +
        InFlight(links, net.world.log, OpenFlags(links, net.world), home)
  }

  ghost predicate LedgersOk(ledgers: seq<Ledger>) {
    forall x :: 0 <= x < |ledgers| ==> LedgerOk(ledgers[x])
  }

  ghost predicate TransfersOk(ledgers: seq<Ledger>, log: seq<Sent>) {
    forall i :: 0 <= i < |log| ==> TransferOk(ledgers, log[i])
  }

  ghost predicate NetInv(links: Links, net: Net) {
    && Inv(links, net.world) && SlashFreeIds(links) && |net.ledgers| == |net.world.chains|
    && LedgersOk(net.ledgers)
    && VouchersOk(links, net.ledgers)
    && TransfersOk(net.ledgers, net.world.log)
    && forall home :: FundsOk(links, net, home)
  }

  // How one ledger's change shows in the figures

  lemma EscrowedShift(l: Ledger, l': Ledger, t: Address, e: Address, a: int, i: int, client: bytes, denom: bytes)
    requires LedgerOk(l) && LedgerOk(l') && Extends(l, l') && Shift(l, l', t, e, a, i)
    requires a < 0 ==> client in l.escrows ==> !(TokenFor(l, denom) == Some(t) && l.escrows[client] == e)
    ensures Escrowed(l', client, denom) >= Escrowed(l, client, denom)
  {
    if TokenFor(l, denom).Some? && client in l.escrows {
      TokenForExtends(l, l', denom);
      TokenNamesDenom(l, denom);
    }
  }

  lemma EscrowedOwnShift(l: Ledger, l': Ledger, t: Address, a: int, i: int, client: bytes, denom: bytes)
    requires LedgerOk(l) && LedgerOk(l') && Extends(l, l') && client in l'.escrows
    requires Shift(l, l', t, l'.escrows[client], a, i) && TokenFor(l', denom) == Some(t)
    ensures Escrowed(l', client, denom) >= Escrowed(l, client, denom) + a
  {
    TokenNamesDenom(l', denom);
    if TokenFor(l, denom).Some? {
      TokenForExtends(l, l', denom);
    }
  }

  lemma SupplyShift(l: Ledger, l': Ledger, t: Address, e: Address, a: int, i: int, trace: bytes)
    requires LedgerOk(l) && LedgerOk(l') && Extends(l, l') && Shift(l, l', t, e, a, i)
    ensures VoucherSupply(l', trace) ==
      VoucherSupply(l, trace) + (if trace in l'.contracts && l'.contracts[trace] == t then i else 0)
  {
    if trace in l'.contracts && trace !in l.contracts {
      var u := l'.contracts[trace];
      assert u !in l.tokens;
    }
  }

  function Owed(links: Links, w: World, home: Home): nat {
    InFlight(links, w.log, OpenFlags(links, w), home)
  }

  /** The operation moved `d` into or out of the escrow of home `h`. */
  ghost predicate EscrowRole(l': Ledger, x: nat, t: Address, e: Address, a: int, i: int, h: Home, d: int) {
    && i == 0 && a == d
    && h.end.chain == x && h.end.client in l'.escrows && l'.escrows[h.end.client] == e
    && TokenFor(l', h.denom) == Some(t)
  }

  /** The operation took `d` out of, or added it to, the vouchers issued for home `h`. */
  ghost predicate VoucherRole(links: Links, l': Ledger, x: nat, t: Address, a: int, i: int, h: Home, d: int) {
    && a == 0 && i == 0 - d
    && h.end in links && links[h.end].chain == x
    && var trace := Trace(links[h.end].client, h.denom);
    && trace in l'.contracts && l'.contracts[trace] == t
  }

  lemma EscrowSide(l: Ledger, l': Ledger, x: nat, t: Address, e: Address, a: int, i: int, h: Home, d: int, home: Home)
    requires LedgerOk(l) && LedgerOk(l') && Extends(l, l') && Shift(l, l', t, e, a, i)
    requires EscrowRole(l', x, t, e, a, i, h, d) || a == 0
    requires home.end.chain == x
    ensures Escrowed(l', home.end.client, home.denom) >=
      Escrowed(l, home.end.client, home.denom) + (if home == h && a != 0 then a else 0)
  {
    if home == h && a != 0 {
      EscrowedOwnShift(l, l', t, a, i, h.end.client, h.denom);
    } else {
      if a < 0 && home.end.client in l.escrows && TokenFor(l, home.denom) == Some(t) &&
        l.escrows[home.end.client] == e {
        SameHome(l, l', x, t, e, h, home);
      }
      EscrowedShift(l, l', t, e, a, i, home.end.client, home.denom);
    }
  }

  lemma SameHome(l: Ledger, l': Ledger, x: nat, t: Address, e: Address, h: Home, home: Home)
    requires LedgerOk(l) && LedgerOk(l') && Extends(l, l')
    requires h.end.chain == x == home.end.chain
    requires h.end.client in l'.escrows && l'.escrows[h.end.client] == e && TokenFor(l', h.denom) == Some(t)
    requires home.end.client in l.escrows && l.escrows[home.end.client] == e && TokenFor(l, home.denom) == Some(t)
    ensures home == h
  {
    TokenForExtends(l, l', home.denom);
    TokenNamesDenom(l', home.denom);
    TokenNamesDenom(l', h.denom);
  }

  lemma VoucherSide(
    links: Links, l: Ledger, l': Ledger, x: nat, t: Address, e: Address, a: int, i: int, h: Home, d: int, home: Home)
    requires LedgerOk(l) && LedgerOk(l') && Extends(l, l') && Shift(l, l', t, e, a, i)
    requires VoucherRole(links, l', x, t, a, i, h, d) || i == 0
    requires SlashFreeIds(links) && WellLinkedBack(links) && home.end in links && links[home.end].chain == x
    ensures var trace := Trace(links[home.end].client, home.denom);
      VoucherSupply(l', trace) == VoucherSupply(l, trace) + (if home == h then i else 0)
  {
    var trace := Trace(links[home.end].client, home.denom);
    SupplyShift(l, l', t, e, a, i, trace);
    if i != 0 && trace in l'.contracts && l'.contracts[trace] == t {
      var own := Trace(links[h.end].client, h.denom);
      SameVoucher(l', trace, own);
      TraceUnwinds(links[home.end].client, home.denom);
      TraceUnwinds(links[h.end].client, h.denom);
      TraceClientUnique(links[home.end].client, links[h.end].client, trace);
      assert links[links[home.end]] == links[links[h.end]];
    }
  }

  ghost predicate WellLinkedBack(links: Links) {
    forall e :: e in links ==> links[e] in links && links[links[e]] == e
  }

  lemma SameVoucher(l: Ledger, d1: bytes, d2: bytes)
    requires LedgerOk(l) && d1 in l.contracts && d2 in l.contracts && l.contracts[d1] == l.contracts[d2]
    ensures d1 == d2
  {
  }

  /** One balanced operation: whatever it does to the escrow or the vouchers of `h`, the claims in flight make up for;
      every other home is at least as well covered as before. */
  lemma FundsStep(
    links: Links, net: Net, net': Net, x: nat, t: Address, e: Address, a: int, i: int, h: Home, d: int, home: Home)
    requires x < |net.ledgers| == |net'.ledgers| && net'.ledgers == net.ledgers[x := net'.ledgers[x]]
    requires LedgerOk(net.ledgers[x]) && LedgerOk(net'.ledgers[x]) && Extends(net.ledgers[x], net'.ledgers[x])
    requires Shift(net.ledgers[x], net'.ledgers[x], t, e, a, i)
    requires SlashFreeIds(links) && WellLinkedBack(links)
    requires FundsOk(links, net, home)
    requires Owed(links, net'.world, home) == Owed(links, net.world, home) + (if home == h then d else 0)
    requires EscrowRole(net'.ledgers[x], x, t, e, a, i, h, d) ||
      VoucherRole(links, net'.ledgers[x], x, t, a, i, h, d) ||
      (a == 0 && i == 0 && d == 0)
    ensures FundsOk(links, net', home)
  {
    if home.end in links && home.end.chain < |net.ledgers| && links[home.end].chain < |net.ledgers| {
      hide LedgerOk, Extends, Shift, Escrowed, VoucherSupply, TokenFor, Trace, CameOver, SlashFreeIds, WellLinkedBack,
           InFlight;
      var l, l' := net.ledgers[x], net'.ledgers[x];
      if home.end.chain == x {
        EscrowSide(l, l', x, t, e, a, i, h, d, home);
      }
      if links[home.end].chain == x {
        VoucherSide(links, l, l', x, t, e, a, i, h, d, home);
      }
    }
  }

  // The rest of the invariant only ever grows

  lemma VouchersKept(links: Links, ledgers: seq<Ledger>, x: nat, l': Ledger)
    requires LedgersOk(ledgers) && x < |ledgers| && LedgerOk(l') && Extends(ledgers[x], l')
    requires VouchersOk(links, ledgers) && l'.contracts == ledgers[x].contracts
    ensures VouchersOk(links, ledgers[x := l'])
  {
    hide LedgerOk, Extends, TokenFor, Trace, CameOver;
    var ledgers' := ledgers[x := l'];
    forall e, denom | e in links && e.chain < |ledgers| && links[e].chain < |ledgers| &&
        Trace(e.client, denom) in ledgers'[e.chain].contracts
      ensures TokenFor(ledgers'[links[e].chain], denom).Some? && !CameOver(links[e].client, denom)
    {
      if links[e].chain == x {
        TokenForExtends(ledgers[x], l', denom);
      }
    }
  }

  lemma NewVoucherKept(links: Links, ledgers: seq<Ledger>, x: nat, l': Ledger, client: bytes, denom: bytes)
    requires LedgersOk(ledgers) && x < |ledgers| && LedgerOk(l') && Extends(ledgers[x], l')
    requires SlashFreeIds(links) && VouchersOk(links, ledgers)
    requires forall d :: d in l'.contracts ==> d in ledgers[x].contracts || d == Trace(client, denom)
    requires End(x, client) in links && links[End(x, client)].chain < |ledgers|
    requires TokenFor(ledgers[links[End(x, client)].chain], denom).Some? &&
      !CameOver(links[End(x, client)].client, denom)
    ensures VouchersOk(links, ledgers[x := l'])
  {
    hide LedgerOk, Extends, TokenFor, Trace, CameOver;
    var ledgers' := ledgers[x := l'];
    forall e, d | e in links && e.chain < |ledgers| && links[e].chain < |ledgers| &&
        Trace(e.client, d) in ledgers'[e.chain].contracts
      ensures TokenFor(ledgers'[links[e].chain], d).Some? && !CameOver(links[e].client, d)
    {
      if e.chain == x && Trace(e.client, d) == Trace(client, denom) {
        TraceUnwinds(e.client, d);
        TraceUnwinds(client, denom);
        TraceClientUnique(e.client, client, Trace(client, denom));
      }
      if links[e].chain == x {
        TokenForExtends(ledgers[x], l', d);
      }
    }
  }

  lemma TransfersKept(ledgers: seq<Ledger>, x: nat, l': Ledger, log: seq<Sent>)
    requires LedgersOk(ledgers) && x < |ledgers| && LedgerOk(l') && Extends(ledgers[x], l')
    requires TransfersOk(ledgers, log)
    ensures TransfersOk(ledgers[x := l'], log)
  {
    hide LedgerOk, TokenFor;
    forall i | 0 <= i < |log| ensures TransferOk(ledgers[x := l'], log[i]) {
      assert TransferOk(ledgers, log[i]);
      if FromTransfer(log[i].packet) && log[i].chain == x {
        TokenForExtends(ledgers[x], l', log[i].packet.payloads[0].value.data.denom);
      }
    }
  }

  lemma OwedSettled(links: Links, w: World, w': World, k: nat, home: Home)
    requires Settles(links, w, w', k) && w'.log == w.log
    ensures Owed(links, w', home) == Owed(links, w, home) - Claim(links, w.log[k], home)
  {
    InFlightSettle(links, w.log, OpenFlags(links, w), k, home);
  }

  lemma OwedOpened(links: Links, w: World, w': World, s: Sent, home: Home)
    requires w'.log == w.log + [s] && OpenFlags(links, w') == OpenFlags(links, w) + [true]
    ensures Owed(links, w', home) == Owed(links, w, home) + Claim(links, s, home)
  {
    InFlightAppend(links, w.log, OpenFlags(links, w), s, home);
  }

  /** A well-formed transfer has one home, where its token is known and is not itself a voucher of this client. */
  lemma TransferHome(links: Links, net: Net, s: Sent)
    requires NetInv(links, net) && s in net.world.log && FromTransfer(s.packet)
    ensures s.chain < |net.ledgers| && Source(s) in links && links[Source(s)].chain < |net.ledgers|
    ensures TransferOk(net.ledgers, s)
    ensures var data := s.packet.payloads[0].value.data;
      && HomeOf(links, s, data.denom).end in links
      && TokenFor(net.ledgers[HomeOf(links, s, data.denom).end.chain], HomeOf(links, s, data.denom).denom).Some?
      && !CameOver(HomeOf(links, s, data.denom).end.client, HomeOf(links, s, data.denom).denom)
      && forall home :: Claim(links, s, home) == if home == HomeOf(links, s, data.denom) then data.amount else 0
  {
    LoggedOk(links, net.world, s);
    var data := s.packet.payloads[0].value.data;
    if CameOver(s.packet.sourceClient, data.denom) {
      VoucherLookup(net.ledgers[s.chain], s.packet.sourceClient, data.denom);
      UnwoundTrace(s.packet.sourceClient, data.denom);
    }
  }

  // Preservation

  lemma Rebalance(links: Links, net: Net, net': Net, x: nat, t: Address, e: Address, a: int, i: int, h: Home, d: int)
    requires NetInv(links, net) && Inv(links, net'.world) && |net'.world.chains| == |net.world.chains|
    requires x < |net.ledgers| == |net'.ledgers| && net'.ledgers == net.ledgers[x := net'.ledgers[x]]
    requires LedgerOk(net'.ledgers[x]) && Extends(net.ledgers[x], net'.ledgers[x])
    requires Shift(net.ledgers[x], net'.ledgers[x], t, e, a, i)
    requires VouchersOk(links, net'.ledgers) && TransfersOk(net'.ledgers, net'.world.log)
    requires forall home ::
      Owed(links, net'.world, home) == Owed(links, net.world, home) + (if home == h then d else 0)
    requires EscrowRole(net'.ledgers[x], x, t, e, a, i, h, d) ||
      VoucherRole(links, net'.ledgers[x], x, t, a, i, h, d) ||
      (a == 0 && i == 0 && d == 0)
    ensures NetInv(links, net')
  {
    assert WellLinkedBack(links) by {
      assert WellLinked(links, |net.world.chains|);
    }
    hide LedgerOk, Extends, Shift, VouchersOk, TransfersOk, FundsOk, Inv, WellLinkedBack, EscrowRole, VoucherRole,
         Owed;
    forall home ensures FundsOk(links, net', home) {
      FundsStep(links, net, net', x, t, e, a, i, h, d, home);
    }
  }

  /** The router moved and the tokens did not: nothing is owed that was not, and nothing is owed less. */
  lemma WorldOnly(links: Links, net: Net, net': Net)
    requires NetInv(links, net) && Inv(links, net'.world) && |net'.world.chains| == |net.world.chains|
    requires net'.ledgers == net.ledgers && TransfersOk(net.ledgers, net'.world.log)
    requires forall home :: Owed(links, net'.world, home) == Owed(links, net.world, home)
    ensures NetInv(links, net')
  {
    hide LedgerOk, VouchersOk, TransfersOk, Inv, Escrowed, VoucherSupply, CameOver, Trace, InFlight;
    forall home ensures FundsOk(links, net', home) {
      assert FundsOk(links, net, home) && Owed(links, net'.world, home) == Owed(links, net.world, home);
    }
  }

  lemma SendTokensKeeps(links: Links, net: Net, step: NetStep, l': Ledger, data: TransferData, w': World)
    requires NetInv(links, net) && step.SendTokens? && step.chain < |net.ledgers|
    requires SendTransfer(net.ledgers[step.chain], step.caller, step.sender, step.client, step.token, step.amount,
                          step.receiver, step.memo, step.newEscrow) == Ok((l', data))
    requires Apply(links, net.world, Send(step.chain, TRANSFER_PORT, step.client, step.timeout, PayloadOf(data))) ==
      Ok(w')
    ensures NetInv(links, Net(w', net.ledgers[step.chain := l']))
  {
    hide SendTransfer, Apply, LedgerOk, Extends, Shift, TokenFor, CameOver, Inv, OpenFlags, FundsOk, VouchersOk,
         TransfersOk, Sends;
    var x, l, w := step.chain, net.ledgers[step.chain], net.world;
    var send := Send(x, TRANSFER_PORT, step.client, step.timeout, PayloadOf(data));
    ApplyEffect(links, w, send, w');
    StepKeeps(links, w, send, w');
    var s := w'.log[|w.log|];
    SendOpens(links, w, x, s.packet, w');
    Transfer.SendKeeps(l, step.caller, step.sender, step.client, step.token, step.amount, step.receiver, step.memo,
                       step.newEscrow, l', data);
    SentClient(links, w, send, w');
    SentTokensKeep(links, net, x, step.client, step.token, l', data, s, w');
  }

  lemma LinkBack(links: Links, w: World, e: End)
    requires Inv(links, w) && e in links
    ensures links[e] in links && links[links[e]] == e && e.chain < |w.chains| && links[e].chain < |w.chains|
  {
  }

  lemma SentClient(links: Links, w: World, send: Step, w': World)
    requires send.Send? && Apply(links, w, send) == Ok(w')
    ensures w'.log == w.log + [w'.log[|w.log|]] && w'.log[|w.log|].chain == send.chain
    ensures w'.log[|w.log|].packet.sourceClient == send.client && w'.log[|w.log|].packet.payloads == [send.payload]
    ensures End(send.chain, send.client) in links && |w'.chains| == |w.chains|
  {
  }

  lemma SentTokensKeep(
    links: Links, net: Net, x: nat, client: bytes, t: Address, l': Ledger, data: TransferData, s: Sent, w': World)
    requires NetInv(links, net) && x < |net.ledgers| && Inv(links, w') && |w'.chains| == |net.world.chains|
    requires w'.log == net.world.log + [s] && OpenFlags(links, w') == OpenFlags(links, net.world) + [true]
    requires s.chain == x && s.packet.sourceClient == client && s.packet.payloads == [PayloadOf(data)]
    requires End(x, client) in links && data.amount > 0
    requires var l := net.ledgers[x];
      && LedgerOk(l') && Extends(l, l') && l'.contracts == l.contracts && client in l'.escrows
      && TokenFor(l', data.denom) == Some(t)
      && (if CameOver(client, data.denom) then Shift(l, l', t, l'.escrows[client], 0, 0 - data.amount)
          else Shift(l, l', t, l'.escrows[client], data.amount, 0))
    ensures NetInv(links, Net(w', net.ledgers[x := l']))
  {
    hide LedgerOk, Extends, Shift, FundsOk, VouchersOk, Inv, InFlight, OpenFlags, CameOver, Trace, Unwind, TokenFor,
         Owed;
    var net' := Net(w', net.ledgers[x := l']);
    var v: uint256 := data.amount;
    var h := HomeOf(links, s, data.denom);
    LinkBack(links, net.world, End(x, client));
    VouchersKept(links, net.ledgers, x, l');
    TransfersKept(net.ledgers, x, l', net.world.log);
    assert TransferOk(net'.ledgers, s);
    assert TransfersOk(net'.ledgers, w'.log);
    forall home ensures Owed(links, w', home) == Owed(links, net.world, home) + (if home == h then v else 0) {
      OwedOpened(links, net.world, w', s, home);
    }
    if CameOver(client, data.denom) {
      VoucherLookup(l', client, data.denom);
      UnwoundTrace(client, data.denom);
      assert links[h.end] == End(x, client);
      Rebalance(links, net, net', x, t, l'.escrows[client], 0, 0 - v, h, v);
    } else {
      Rebalance(links, net, net', x, t, l'.escrows[client], v, 0, h, v);
    }
  }

  lemma SendOtherKeeps(links: Links, net: Net, step: NetStep, w': World)
    requires NetInv(links, net) && step.SendOther? && step.port != TRANSFER_PORT
    requires Apply(links, net.world, Send(step.chain, step.port, step.client, step.timeout, step.payload)) == Ok(w')
    ensures NetInv(links, net.(world := w'))
  {
    hide Apply, LedgerOk, Inv, OpenFlags, FundsOk, VouchersOk, Sends, Owed;
    var w := net.world;
    var send := Send(step.chain, step.port, step.client, step.timeout, step.payload);
    ApplyEffect(links, w, send, w');
    StepKeeps(links, w, send, w');
    SentClient(links, w, send, w');
    var s := w'.log[|w.log|];
    SendOpens(links, w, step.chain, s.packet, w');
    assert !FromTransfer(s.packet);
    forall home ensures Owed(links, w', home) == Owed(links, w, home) {
      OwedOpened(links, w, w', s, home);
    }
    WorldOnly(links, net, net.(world := w'));
  }

  /** A packet that is not a transfer carries no claim. */
  lemma NoClaim(links: Links, w: World, w': World, k: nat)
    requires Settles(links, w, w', k) && w'.log == w.log && !FromTransfer(w.log[k].packet)
    ensures forall home :: Owed(links, w', home) == Owed(links, w, home)
  {
    forall home ensures Owed(links, w', home) == Owed(links, w, home) {
      OwedSettled(links, w, w', k, home);
    }
  }

  lemma SameOwed(links: Links, w: World, w': World)
    requires OpenFlags(links, w') == OpenFlags(links, w) && w'.log == w.log
    ensures forall home :: Owed(links, w', home) == Owed(links, w, home)
  {
  }

  /** Delivering a transfer: the escrow pays what was owed, or the vouchers grow by it. */
  lemma DeliverKeeps(
    links: Links, net: Net, x: nat, p: Packet, newEscrow: Address, newToken: Address, l': Ledger, k: nat, w': World)
    requires NetInv(links, net) && x < |net.ledgers| && Inv(links, w') && |w'.chains| == |net.world.chains|
    requires Settles(links, net.world, w', k) && w'.log == net.world.log
    requires |p.payloads| == 1 && net.world.log[k].packet == p && Source(net.world.log[k]) in links
    requires links[Source(net.world.log[k])] == End(x, p.destClient)
    requires ReceiveTransfer(net.ledgers[x], p.sourceClient, p.destClient, p.payloads[0], newEscrow, newToken) == Ok(l')
    ensures NetInv(links, Net(w', net.ledgers[x := l']))
  {
    hide LedgerOk, Extends, Shift, FundsOk, VouchersOk, Inv, InFlight, OpenFlags, CameOver, Trace, Unwind, TokenFor,
         Owed;
    var s := net.world.log[k];
    assert p.payloads[0].sourcePort == TRANSFER_PORT;
    TransferHome(links, net, s);
    hide ReceiveTransfer;
    var data := p.payloads[0].value.data;
    var v: uint256 := data.amount;
    var h := HomeOf(links, s, data.denom);
    var net' := Net(w', net.ledgers[x := l']);
    LinkBack(links, net.world, Source(s));
    forall home ensures Owed(links, w', home) == Owed(links, net.world, home) + (if home == h then 0 - v else 0) {
      OwedSettled(links, net.world, w', k, home);
    }
    if CameOver(p.sourceClient, data.denom) {
      var t := TokenFor(net.ledgers[x], h.denom).value;
      LookupsAgree(net.ledgers[x], h.denom);
      ReturnKeeps(net.ledgers[x], p.sourceClient, p.destClient, p.payloads[0], newEscrow, newToken, t, l');
      TokenForExtends(net.ledgers[x], l', h.denom);
      VouchersKept(links, net.ledgers, x, l');
      TransfersKept(net.ledgers, x, l', net.world.log);
      Rebalance(links, net, net', x, t, l'.escrows[p.destClient], 0 - v, 0, h, 0 - v);
    } else {
      ArrivalKeeps(net.ledgers[x], p.sourceClient, p.destClient, p.payloads[0], newEscrow, newToken, l');
      NewVoucherKept(links, net.ledgers, x, l', p.destClient, data.denom);
      TransfersKept(net.ledgers, x, l', net.world.log);
      var trace := Trace(p.destClient, data.denom);
      Rebalance(links, net, net', x, l'.contracts[trace], l'.escrows[p.destClient], 0, v, h, 0 - v);
    }
  }

  /** Refunding a transfer: what was escrowed is paid back, or what was burned is issued again. */
  lemma GiveBackKeeps(links: Links, net: Net, x: nat, p: Packet, l': Ledger, k: nat, w': World)
    requires NetInv(links, net) && x < |net.ledgers| && Inv(links, w') && |w'.chains| == |net.world.chains|
    requires Settles(links, net.world, w', k) && w'.log == net.world.log && net.world.log[k] == Sent(x, p)
    requires FromTransfer(p) && p.payloads[0].value.Transfer?
    requires RefundTransfer(net.ledgers[x], p.sourceClient, p.payloads[0].value.data) == Ok(l')
    ensures NetInv(links, Net(w', net.ledgers[x := l']))
  {
    hide LedgerOk, Extends, Shift, FundsOk, VouchersOk, Inv, InFlight, OpenFlags, CameOver, Trace, Unwind, TokenFor,
         Owed, RefundTransfer;
    var s := net.world.log[k];
    TransferHome(links, net, s);
    var data := p.payloads[0].value.data;
    var v: uint256 := data.amount;
    var h := HomeOf(links, s, data.denom);
    var net' := Net(w', net.ledgers[x := l']);
    var t := TokenFor(net.ledgers[x], data.denom).value;
    LinkBack(links, net.world, Source(s));
    forall home ensures Owed(links, w', home) == Owed(links, net.world, home) + (if home == h then 0 - v else 0) {
      OwedSettled(links, net.world, w', k, home);
    }
    RefundsInKind(net.ledgers[x], p.sourceClient, data.denom);
    RefundKeeps(net.ledgers[x], p.sourceClient, data, t, l');
    TokenForExtends(net.ledgers[x], l', data.denom);
    VouchersKept(links, net.ledgers, x, l');
    TransfersKept(net.ledgers, x, l', net.world.log);
    if CameOver(p.sourceClient, data.denom) {
      VoucherLookup(l', p.sourceClient, data.denom);
      UnwoundTrace(p.sourceClient, data.denom);
      Rebalance(links, net, net', x, t, l'.escrows[p.sourceClient], 0, v, h, 0 - v);
    } else {
      Rebalance(links, net, net', x, t, l'.escrows[p.sourceClient], 0 - v, 0, h, 0 - v);
    }
  }

  lemma StepWorld(links: Links, w: World, step: Step, w': World)
    requires Inv(links, w) && Apply(links, w, step) == Ok(w')
    ensures Inv(links, w') && StepEffect(links, w, step, w') && |w'.chains| == |w.chains|
    ensures !step.Send? ==> w'.log == w.log
    ensures w'.calls == w.calls ==> step.Send? || step.Block? || w' == w
  {
    ApplyEffect(links, w, step, w');
    StepKeeps(links, w, step, w');
  }

  lemma ReceiveKeeps(links: Links, net: Net, step: NetStep, net': Net)
    requires NetInv(links, net) && step.Receive? && NetApply(links, net, step) == Ok(net')
    ensures NetInv(links, net')
  {
    hide Apply, LedgerOk, Inv, OpenFlags, FundsOk, VouchersOk, TransfersOk, Receives, ReceiveTransfer, Settles, Owed;
    var x, p, w, w' := step.chain, step.packet, net.world, net'.world;
    var callback := if ToTransfer(p) then OnReceive(net.ledgers[x], p, step.newEscrow, step.newToken, step.admitted)
                    else Ok(net.ledgers[x]);
    var app := if !ToTransfer(p) then step.other else if callback.Ok? then Returned(SUCCESS_ACK) else Reverted([1]);
    StepWorld(links, w, Recv(x, p, step.height, app), w');
    if w' != w {
      var ack := NewAck(w, w');
      var k := RecvSettles(links, w, x, p, step.height, ack, w');
      if ToTransfer(p) && callback.Ok? {
        assert ack == SUCCESS_ACK != UNIVERSAL_ERROR_ACK by {
          assert |SUCCESS_ACK| != |UNIVERSAL_ERROR_ACK|;
        }
        DeliverKeeps(links, net, x, p, step.newEscrow, step.newToken, callback.value, k, w');
      } else {
        if ack == UNIVERSAL_ERROR_ACK {
          SameOwed(links, w, w');
        } else {
          NotATransfer(links, net, w.log[k]);
          NoClaim(links, w, w', k);
        }
        assert net'.ledgers == net.ledgers;
        WorldOnly(links, net, net');
      }
    }
  }

  /** Transfers are only ever addressed to the transfer port. */
  lemma NotATransfer(links: Links, net: Net, s: Sent)
    requires NetInv(links, net) && s in net.world.log && !ToTransfer(s.packet)
    ensures !FromTransfer(s.packet)
  {
  }

  lemma AcknowledgeKeeps(links: Links, net: Net, step: NetStep, net': Net)
    requires NetInv(links, net) && step.Acknowledge? && NetApply(links, net, step) == Ok(net')
    ensures NetInv(links, net')
  {
    hide Apply, LedgerOk, Inv, OpenFlags, FundsOk, VouchersOk, TransfersOk, Acknowledges, RefundTransfer, Settles,
         Owed;
    var x, p, w, w' := step.chain, step.packet, net.world, net'.world;
    var callback := if FromTransfer(p) then OnAcknowledge(net.ledgers[x], p, step.ack, step.admitted)
                    else Ok(net.ledgers[x]);
    var callbackOk := if FromTransfer(p) then callback.Ok? else step.admitted;
    var ackStep := Ack(x, p, step.ack, step.height, callbackOk);
    StepWorld(links, w, ackStep, w');
    if w' != w {
      var k := AckSettles(links, w, x, p, step.ack, step.height, w');
      CalledBack(links, w, ackStep, w');
      if step.ack != UNIVERSAL_ERROR_ACK {
        SameOwed(links, w, w');
        assert net'.ledgers == net.ledgers;
        WorldOnly(links, net, net');
      } else if FromTransfer(p) {
        GiveBackKeeps(links, net, x, p, callback.value, k, w');
      } else {
        NoClaim(links, w, w', k);
        assert net'.ledgers == net.ledgers;
        WorldOnly(links, net, net');
      }
    }
  }

  /** The router reports success only if the application's callback succeeded. */
  lemma CalledBack(links: Links, w: World, step: Step, w': World)
    requires (step.Ack? || step.Timeout?) && Apply(links, w, step) == Ok(w') && w' != w
    ensures step.callbackOk && w'.calls != w.calls
  {
  }

  lemma ExpireKeeps(links: Links, net: Net, step: NetStep, net': Net)
    requires NetInv(links, net) && step.Expire? && NetApply(links, net, step) == Ok(net')
    ensures NetInv(links, net')
  {
    hide Apply, LedgerOk, Inv, OpenFlags, FundsOk, VouchersOk, TransfersOk, TimesOut, RefundTransfer, Settles, Owed;
    var x, p, w, w' := step.chain, step.packet, net.world, net'.world;
    var callback := if FromTransfer(p) then OnRefund(net.ledgers[x], p, step.admitted) else Ok(net.ledgers[x]);
    var timeout := Timeout(x, p, step.height, if FromTransfer(p) then callback.Ok? else step.admitted);
    StepWorld(links, w, timeout, w');
    if w' != w {
      var k := TimeoutSettles(links, w, x, p, step.height, w');
      CalledBack(links, w, timeout, w');
      if FromTransfer(p) {
        GiveBackKeeps(links, net, x, p, callback.value, k, w');
      } else {
        NoClaim(links, w, w', k);
        assert net'.ledgers == net.ledgers;
        WorldOnly(links, net, net');
      }
    }
  }

  /** Holders, token owners and block producers. */
  lemma OutsideKeeps(links: Links, net: Net, step: NetStep, net': Net)
    requires NetInv(links, net) && (step.NewBlock? || step.Act? || step.Deploy?) &&
      NetApply(links, net, step) == Ok(net')
    ensures NetInv(links, net')
  {
    hide Apply, LedgerOk, Extends, Shift, Inv, OpenFlags, FundsOk, VouchersOk, TransfersOk, Owed, Advances, UserCall,
         DeployToken;
    var x := step.chain;
    if step.NewBlock? {
      StepWorld(links, net.world, Block(x, step.time), net'.world);
      AdvanceSettlesNothing(links, net.world, x, step.time, net'.world);
      SameOwed(links, net.world, net'.world);
      WorldOnly(links, net, net');
    } else {
      var l, l' := net.ledgers[x], net'.ledgers[x];
      if step.Act? {
        UserCallKeeps(l, step.token, step.caller, step.call, l');
      } else {
        DeployKeeps(l, step.token, l');
      }
      VouchersKept(links, net.ledgers, x, l');
      TransfersKept(net.ledgers, x, l', net.world.log);
      Rebalance(links, net, net', x, step.token, 0, 0, 0, Home(End(0, []), []), 0);
    }
  }

  // Clients outside the links

  /** Token `t` is a voucher that came over `client`. */
  ghost predicate VoucherOver(l: Ledger, client: bytes, t: Address) {
    exists trace :: trace in l.contracts && l.contracts[trace] == t && CameOver(client, trace)
  }

  /** The escrow of an unlinked client is nobody else's. */
  lemma OtherEscrow(l: Ledger, l': Ledger, t: Address, client: bytes, a: int, i: int, other: bytes, denom: bytes)
    requires LedgerOk(l) && LedgerOk(l') && Extends(l, l') && client in l'.escrows && other != client
    requires Shift(l, l', t, l'.escrows[client], a, i)
    ensures Escrowed(l', other, denom) >= Escrowed(l, other, denom)
  {
    EscrowedShift(l, l', t, l'.escrows[client], a, i, other, denom);
  }

  /** Vouchers that came over an unlinked client have no home among the links. */
  lemma OtherVouchers(
    links: Links, l: Ledger, l': Ledger, x: nat, t: Address, client: bytes, e: Address, a: int, i: int, home: Home)
    requires LedgerOk(l) && LedgerOk(l') && Extends(l, l') && Shift(l, l', t, e, a, i)
    requires i != 0 ==> VoucherOver(l', client, t)
    requires SlashFreeIds(links) && Unlinked(links, x, client)
    requires home.end in links && links[home.end] in links && links[home.end].chain == x
    ensures var trace := Trace(links[home.end].client, home.denom); VoucherSupply(l', trace) == VoucherSupply(l, trace)
  {
    var trace := Trace(links[home.end].client, home.denom);
    SupplyShift(l, l', t, e, a, i, trace);
    if i != 0 && trace in l'.contracts && l'.contracts[trace] == t {
      var own :| own in l'.contracts && l'.contracts[own] == t && CameOver(client, own);
      SameVoucher(l', trace, own);
      TraceUnwinds(links[home.end].client, home.denom);
      TraceClientUnique(links[home.end].client, client, trace);
    }
  }

  lemma UnlinkedFunds(links: Links, net: Net, x: nat, client: bytes, t: Address, a: int, i: int, l': Ledger, home: Home)
    requires NetInv(links, net) && x < |net.ledgers| && Unlinked(links, x, client)
    requires LedgerOk(l') && Extends(net.ledgers[x], l') && client in l'.escrows
    requires Shift(net.ledgers[x], l', t, l'.escrows[client], a, i) && (i != 0 ==> VoucherOver(l', client, t))
    ensures FundsOk(links, net.(ledgers := net.ledgers[x := l']), home)
  {
    hide LedgerOk, Extends, Shift, Escrowed, VoucherSupply, TokenFor, Trace, CameOver, InFlight, VoucherOver,
         VouchersOk, TransfersOk, Inv;
    assert FundsOk(links, net, home);
    if home.end in links && home.end.chain < |net.ledgers| && links[home.end].chain < |net.ledgers| {
      LinkBack(links, net.world, home.end);
      if home.end.chain == x {
        OtherEscrow(net.ledgers[x], l', t, client, a, i, home.end.client, home.denom);
      }
      if links[home.end].chain == x {
        OtherVouchers(links, net.ledgers[x], l', x, t, client, l'.escrows[client], a, i, home);
      }
    }
  }

  lemma UnlinkedVouchers(links: Links, ledgers: seq<Ledger>, x: nat, l': Ledger, client: bytes, denom: bytes)
    requires LedgersOk(ledgers) && x < |ledgers| && LedgerOk(l') && Extends(ledgers[x], l')
    requires SlashFreeIds(links) && VouchersOk(links, ledgers) && Unlinked(links, x, client)
    requires forall d :: d in l'.contracts ==> d in ledgers[x].contracts || d == Trace(client, denom)
    ensures VouchersOk(links, ledgers[x := l'])
  {
    hide LedgerOk, Extends, TokenFor, Trace, CameOver;
    var ledgers' := ledgers[x := l'];
    forall e, d | e in links && e.chain < |ledgers| && links[e].chain < |ledgers| &&
        Trace(e.client, d) in ledgers'[e.chain].contracts
      ensures TokenFor(ledgers'[links[e].chain], d).Some? && !CameOver(links[e].client, d)
    {
      if e.chain == x && Trace(e.client, d) == Trace(client, denom) {
        TraceUnwinds(e.client, d);
        TraceUnwinds(client, denom);
        TraceClientUnique(e.client, client, Trace(client, denom));
      }
      if links[e].chain == x {
        TokenForExtends(ledgers[x], l', d);
      }
    }
  }

  lemma UnlinkedBalanced(
    links: Links, net: Net, x: nat, client: bytes, denom: bytes, t: Address, a: int, i: int, l': Ledger)
    requires NetInv(links, net) && x < |net.ledgers| && Unlinked(links, x, client)
    requires LedgerOk(l') && Extends(net.ledgers[x], l') && client in l'.escrows
    requires Shift(net.ledgers[x], l', t, l'.escrows[client], a, i) && (i != 0 ==> VoucherOver(l', client, t))
    requires forall d :: d in l'.contracts ==> d in net.ledgers[x].contracts || d == Trace(client, denom)
    ensures NetInv(links, net.(ledgers := net.ledgers[x := l']))
  {
    hide LedgerOk, Extends, Shift, VoucherOver, VouchersOk, TransfersOk, FundsOk, Inv, Trace;
    UnlinkedVouchers(links, net.ledgers, x, l', client, denom);
    TransfersKept(net.ledgers, x, l', net.world.log);
    var net' := net.(ledgers := net.ledgers[x := l']);
    forall home ensures FundsOk(links, net', home) {
      UnlinkedFunds(links, net, x, client, t, a, i, l', home);
    }
  }

  lemma UnlinkedSendKeeps(links: Links, net: Net, step: NetStep, l': Ledger)
    requires NetInv(links, net) && step.chain < |net.ledgers| && step.UnlinkedSend?
    requires UnlinkedLedger(links, net.ledgers[step.chain], step) == Ok(l')
    ensures NetInv(links, net.(ledgers := net.ledgers[step.chain := l']))
  {
    hide NetInv, LedgerOk, Extends, Shift, SendTransfer, CameOver, TokenFor;
    var x, l := step.chain, net.ledgers[step.chain];
    var v: uint256 := step.amount;
    LedgerAt(links, net, x);
    var data := SendTransfer(l, step.caller, step.sender, step.client, step.token, v, step.receiver, step.memo,
                             step.newEscrow).value.1;
    Transfer.SendKeeps(l, step.caller, step.sender, step.client, step.token, v, step.receiver, step.memo,
                       step.newEscrow, l', data);
    if CameOver(step.client, data.denom) {
      VoucherLookup(l', step.client, data.denom);
      assert VoucherOver(l', step.client, step.token);
      UnlinkedBalanced(links, net, x, step.client, [], step.token, 0, 0 - v, l');
    } else {
      UnlinkedBalanced(links, net, x, step.client, [], step.token, v, 0, l');
    }
  }

  lemma UnlinkedReceiveKeeps(links: Links, net: Net, step: NetStep, l': Ledger)
    requires NetInv(links, net) && step.chain < |net.ledgers| && step.UnlinkedReceive?
    requires UnlinkedLedger(links, net.ledgers[step.chain], step) == Ok(l')
    ensures NetInv(links, net.(ledgers := net.ledgers[step.chain := l']))
  {
    hide NetInv, LedgerOk, Extends, Shift, ReceiveTransfer, CameOver, TokenFor, Unwind, UnwoundToken;
    var x, l, client := step.chain, net.ledgers[step.chain], step.client;
    LedgerAt(links, net, x);
    ReceivedData(l, step.sourceClient, client, step.payload, step.newEscrow, step.newToken);
    var data := step.payload.value.data;
    var v: uint256 := data.amount;
    if CameOver(step.sourceClient, data.denom) {
      var t := UnwoundToken(l, Unwind(step.sourceClient, data.denom)).value;
      ReturnKeeps(l, step.sourceClient, client, step.payload, step.newEscrow, step.newToken, t, l');
      UnlinkedBalanced(links, net, x, client, [], t, 0 - v, 0, l');
    } else {
      ArrivalKeeps(l, step.sourceClient, client, step.payload, step.newEscrow, step.newToken, l');
      var trace := Trace(client, data.denom);
      TraceUnwinds(client, data.denom);
      assert VoucherOver(l', client, l'.contracts[trace]);
      UnlinkedBalanced(links, net, x, client, data.denom, l'.contracts[trace], 0, v, l');
    }
  }

  lemma ReceivedData(l: Ledger, source: bytes, dest: bytes, payload: Payload, newEscrow: Address, newToken: Address)
    requires ReceiveTransfer(l, source, dest, payload, newEscrow, newToken).Ok?
    ensures payload.value.Transfer?
    ensures CameOver(source, payload.value.data.denom) ==>
      UnwoundToken(l, Unwind(source, payload.value.data.denom)).Some?
  {
  }

  lemma UnlinkedRefundKeeps(links: Links, net: Net, step: NetStep, l': Ledger)
    requires NetInv(links, net) && step.chain < |net.ledgers| && step.UnlinkedRefund?
    requires UnlinkedLedger(links, net.ledgers[step.chain], step) == Ok(l')
    ensures NetInv(links, net.(ledgers := net.ledgers[step.chain := l']))
  {
    hide NetInv, LedgerOk, Extends, Shift, RefundTransfer, CameOver, TokenFor;
    var x, l, data := step.chain, net.ledgers[step.chain], step.data;
    var v: uint256 := data.amount;
    LedgerAt(links, net, x);
    var t := RefundedOf(l, step.client, data);
    RefundKeeps(l, step.client, data, t, l');
    if CameOver(step.client, data.denom) {
      assert VoucherOver(l', step.client, t);
      UnlinkedBalanced(links, net, x, step.client, [], t, 0, v, l');
    } else {
      UnlinkedBalanced(links, net, x, step.client, [], t, 0 - v, 0, l');
    }
  }

  lemma RefundedOf(l: Ledger, client: bytes, data: TransferData) returns (t: Address)
    requires RefundTransfer(l, client, data).Ok?
    ensures RefundedToken(l, client, data.denom) == Some(t)
  {
    t := RefundedToken(l, client, data.denom).value;
  }

  lemma NetParts(links: Links, net: Net)
    requires NetInv(links, net)
    ensures Inv(links, net.world) && SlashFreeIds(links) && |net.ledgers| == |net.world.chains|
  {
  }

  lemma LedgerAt(links: Links, net: Net, x: nat)
    requires NetInv(links, net) && x < |net.ledgers|
    ensures LedgerOk(net.ledgers[x])
  {
  }

  /** Whatever clients outside the links let through, the funds of the links stay covered. */
  lemma UnlinkedKeeps(links: Links, net: Net, step: NetStep, l': Ledger)
    requires NetInv(links, net) && step.chain < |net.ledgers|
    requires step.UnlinkedSend? || step.UnlinkedReceive? || step.UnlinkedRefund?
    requires UnlinkedLedger(links, net.ledgers[step.chain], step) == Ok(l')
    ensures NetInv(links, net.(ledgers := net.ledgers[step.chain := l']))
  {
    hide NetInv, UnlinkedLedger;
    if step.UnlinkedSend? {
      UnlinkedSendKeeps(links, net, step, l');
    } else if step.UnlinkedReceive? {
      UnlinkedReceiveKeeps(links, net, step, l');
    } else {
      UnlinkedRefundKeeps(links, net, step, l');
    }
  }

  lemma NetStepKeeps(links: Links, net: Net, step: NetStep, net': Net)
    requires NetInv(links, net) && NetApply(links, net, step) == Ok(net')
    ensures NetInv(links, net')
  {
    hide NetInv, Apply, SendTransfer, OnReceive, OnRefund, OnAcknowledge, UserCall, DeployToken, PayloadOf,
         UnlinkedLedger;
    if step.SendTokens? {
      var sent := SendTransfer(net.ledgers[step.chain], step.caller, step.sender, step.client, step.token, step.amount,
                               step.receiver, step.memo, step.newEscrow).value;
      SendTokensKeeps(links, net, step, sent.0, sent.1, net'.world);
    } else if step.SendOther? {
      SendOtherKeeps(links, net, step, net'.world);
    } else if step.Receive? {
      ReceiveKeeps(links, net, step, net');
    } else if step.Acknowledge? {
      AcknowledgeKeeps(links, net, step, net');
    } else if step.Expire? {
      ExpireKeeps(links, net, step, net');
    } else if step.UnlinkedSend? || step.UnlinkedReceive? || step.UnlinkedRefund? {
      UnlinkedKeeps(links, net, step, net'.ledgers[step.chain]);
    } else {
      OutsideKeeps(links, net, step, net');
    }
  }

  lemma GenesisOk(links: Links, selves: seq<Address>)
    requires WellLinked(links, |selves|) && SlashFreeIds(links)
    ensures NetInv(links, NetGenesis(selves))
  {
    var net := NetGenesis(selves);
    forall x | 0 <= x < |net.ledgers| ensures LedgerOk(net.ledgers[x]) {}
    forall home ensures FundsOk(links, net, home) {}
  }

  lemma {:induction false} NetRunKeeps(links: Links, selves: seq<Address>, steps: seq<NetStep>)
    requires WellLinked(links, |selves|) && SlashFreeIds(links)
    ensures NetInv(links, NetRun(links, NetGenesis(selves), steps))
  {
    hide NetInv, NetApply, SlashFreeIds, WellLinked, NetGenesis;
    if steps == [] {
      GenesisOk(links, selves);
    } else {
      NetRunKeeps(links, selves, steps[..|steps| - 1]);
      var before := NetRun(links, NetGenesis(selves), steps[..|steps| - 1]);
      var outcome := NetApply(links, before, steps[|steps| - 1]);
      if outcome.Ok? {
        NetStepKeeps(links, before, steps[|steps| - 1], outcome.value);
      }
    }
  }

  /** Links between clients that the chains' client routers registered, in whatever way, are links the theorems are
      about. */
  lemma RegisteredIds(links: Links, registered: seq<seq<Clients.Call>>)
    requires forall e :: e in links ==> e.chain < |registered| && e.client in Clients.Run(registered[e.chain]).clients
    ensures SlashFreeIds(links) && forall e :: e in links ==> e.client != []
  {
    forall e | e in links ensures SlashFree(e.client) && e.client != [] {
      Clients.IdsAreSlashFree(registered[e.chain], e.client);
    }
  }
}
