/** The ICS20 transfer application of one chain: its escrows, its voucher registry and the tokens it moves. */
module Transfer {
  import opened Bytes
  import opened Router
  import opened Denoms
  import Erc20

  type Token = Erc20.Token

  /** `homes` is the escrow each voucher was initialised with; a token with no entry is not a voucher. */
  datatype Ledger = Ledger(
    self: Address,
    escrows: map<bytes, Address>,
    contracts: map<bytes, Address>,
    denoms: map<Address, bytes>,
    homes: map<Address, Address>,
    tokens: map<Address, Token>)

  const VERSION := Ascii("ics20-1")

  const SUCCESS_ACK := Ascii("{\"result\":\"AQ==\"}")

  /** An address a new contract can be created at: nothing lives there and it never approved a spender. */
  predicate Unused(l: Ledger, a: Address) {
    && a != 0 && a != l.self && a !in l.escrows.Values && a !in l.tokens
    && forall t :: t in l.tokens ==>
         forall k :: k in l.tokens[t].allowances && k.0 == a ==> l.tokens[t].allowances[k] == 0
  }

  function EscrowFor(l: Ledger, client: bytes, created: Address): Result<(Ledger, Address)> {
    if client in l.escrows then Ok((l, l.escrows[client]))
    else if !Unused(l, created) then Err("contract creation failed")
    else Ok((l.(escrows := l.escrows[client := created]), created))
  }

  function VoucherFor(l: Ledger, denom: bytes, escrow: Address, created: Address): Result<(Ledger, Address)> {
    if denom in l.contracts then Ok((l, l.contracts[denom]))
    else if !Unused(l, created) then Err("contract creation failed")
    else
      Ok((l.(contracts := l.contracts[denom := created], denoms := l.denoms[created := denom],
             homes := l.homes[created := escrow], tokens := l.tokens[created := Erc20.EMPTY]), created))
  }

  function SetToken(l: Ledger, t: Address, outcome: Result<Token>): Result<Ledger> {
    match outcome
    case Err(e) => Err(e)
    case Ok(token) => Ok(l.(tokens := l.tokens[t := token]))
  }

  function MintAt(l: Ledger, t: Address, at: Address, v: uint256): Result<Ledger> {
    if t !in l.tokens || t !in l.homes then Err("not a voucher")
    else SetToken(l, t, Erc20.Execute(l.tokens[t], l.self, l.homes[t], l.self, Erc20.DoMint(at, v)))
  }

  function BurnAt(l: Ledger, t: Address, at: Address, v: uint256): Result<Ledger> {
    if t !in l.tokens || t !in l.homes then Err("not a voucher")
    else SetToken(l, t, Erc20.Execute(l.tokens[t], l.self, l.homes[t], l.self, Erc20.DoBurn(at, v)))
  }

  /** Escrow.send */
  function PayOut(l: Ledger, t: Address, escrow: Address, to: Address, v: uint256): Result<Ledger> {
    if t !in l.tokens then Err("no such token")
    else SetToken(l, t, Erc20.Transfer(l.tokens[t], escrow, to, v))
  }

  /** Pulls the tokens in and insists that the escrow's balance grew by exactly the amount. */
  function PullIn(l: Ledger, t: Address, from: Address, escrow: Address, v: uint256): Result<Ledger> {
    if t !in l.tokens then Err("no such token")
    else match Erc20.TransferFrom(l.tokens[t], l.self, from, escrow, v)
      case Err(e) => Err(e)
      case Ok(token) =>
        var before, after := Erc20.BalanceOf(l.tokens[t], escrow), Erc20.BalanceOf(token, escrow);
        if after > before && after == before + v then Ok(l.(tokens := l.tokens[t := token]))
        else Err("ICS20UnexpectedERC20Balance")
  }

  function DenomOf(l: Ledger, t: Address): bytes {
    if t !in l.denoms || l.denoms[t] == [] then ToHexString(t) else l.denoms[t]
  }

  function PayloadOf(data: TransferData): Payload {
    Payload(TRANSFER_PORT, TRANSFER_PORT, VERSION, SOLIDITY_ABI, AppData.Transfer(data))
  }

  /** Escrows the tokens, and burns them again if they are returning where they came from. */
  function SendTransfer(
    l: Ledger, caller: Address, sender: Address, client: bytes, t: Address, v: uint256, receiver: bytes, memo: bytes,
    created: Address): Result<(Ledger, TransferData)>
  {
    if v == 0 then Err("ICS20InvalidAmount")
    else match EscrowFor(l, client, created)
      case Err(e) => Err(e)
      case Ok((l1, escrow)) =>
        match PullIn(l1, t, caller, escrow, v)
        case Err(e) => Err(e)
        case Ok(l2) =>
          var denom := DenomOf(l2, t);
          var data := TransferData(denom, ToHexString(sender), receiver, v, memo);
          if t in l2.denoms && l2.denoms[t] != [] && CameOver(client, denom) then
            match BurnAt(l2, t, escrow, v)
            case Err(e) => Err(e)
            case Ok(l3) => Ok((l3, data))
          else Ok((l2, data))
  }

  /** The token a denomination stands for once its prefix is unwound here. */
  function UnwoundToken(l: Ledger, denom: bytes): Option<Address> {
    match ParseAddress(denom)
    case Some(a) => if a != 0 then Some(a) else MappedToken(l, denom)
    case None => MappedToken(l, denom)
  }

  function MappedToken(l: Ledger, denom: bytes): Option<Address> {
    if denom in l.contracts then Some(l.contracts[denom]) else None
  }

  function ReceiveTransfer(
    l: Ledger, sourceClient: bytes, destClient: bytes, payload: Payload,
    newEscrow: Address, newToken: Address): Result<Ledger>
  {
    if payload.version != VERSION then Err("ICS20UnexpectedVersion")
    else if payload.sourcePort != TRANSFER_PORT then Err("ICS20InvalidPort")
    else if payload.encoding != SOLIDITY_ABI then Err("ICS20UnexpectedEncoding")
    else if payload.destPort != TRANSFER_PORT then Err("ICS20InvalidPort")
    else if !payload.value.Transfer? then Err("cannot decode the packet data")
    else
      var data := payload.value.data;
      if data.amount == 0 then Err("ICS20InvalidAmount")
      else if ParseAddress(data.receiver).None? then Err("ICS20InvalidAddress")
      else
        var receiver := ParseAddress(data.receiver).value;
        match EscrowFor(l, destClient, newEscrow)
        case Err(e) => Err(e)
        case Ok((l1, escrow)) =>
          if CameOver(sourceClient, data.denom) then
            match UnwoundToken(l1, Unwind(sourceClient, data.denom))
            case None => Err("ICS20DenomNotFound")
            case Some(t) => PayOut(l1, t, escrow, receiver, data.amount)
          else
            match VoucherFor(l1, Trace(destClient, data.denom), escrow, newToken)
            case Err(e) => Err(e)
            case Ok((l2, t)) =>
              match MintAt(l2, t, escrow, data.amount)
              case Err(e) => Err(e)
              case Ok(l3) => PayOut(l3, t, escrow, receiver, data.amount)
  }

  /** Undoes a send: mints back what was burned, and pays the sender from the escrow. */
  function RefundTransfer(l: Ledger, sourceClient: bytes, data: TransferData): Result<Ledger> {
    if sourceClient !in l.escrows then Err("ICS20EscrowNotFound")
    else if ParseAddress(data.sender).None? then Err("ICS20InvalidAddress")
    else
      var escrow, refundee := l.escrows[sourceClient], ParseAddress(data.sender).value;
      if CameOver(sourceClient, data.denom) then
        match MappedToken(l, data.denom)
        case None => Err("ICS20DenomNotFound")
        case Some(t) =>
          match MintAt(l, t, escrow, data.amount)
          case Err(e) => Err(e)
          case Ok(l1) => PayOut(l1, t, escrow, refundee, data.amount)
      else if data.denom in l.contracts then
        PayOut(l, l.contracts[data.denom], escrow, refundee, data.amount)
      else match ParseAddress(data.denom)
        case None => Err("ICS20InvalidAddress")
        case Some(t) => if t == 0 then Err("ICS20DenomNotFound") else PayOut(l, t, escrow, refundee, data.amount)
  }

  /** Only payloads of this application's version, encoding and ports, for a positive amount and a usable receiver, are
      accepted. */
  lemma ReceivedIsTransfer(
    l: Ledger, source: bytes, dest: bytes, payload: Payload, newEscrow: Address, newToken: Address)
    requires ReceiveTransfer(l, source, dest, payload, newEscrow, newToken).Ok?
    ensures payload.sourcePort == payload.destPort == Ascii("transfer")
    ensures payload.version == Ascii("ics20-1") && payload.encoding == Ascii("application/x-solidity-abi")
    ensures payload.value.Transfer? && payload.value.data.amount > 0
    ensures ParseAddress(payload.value.data.receiver).Some? && ParseAddress(payload.value.data.receiver).value != 0
  {
    hide CameOver, EscrowFor, UnwoundToken, VoucherFor, MintAt, Trace, Unwind, ParseAddress, Erc20.Update;
    assert Ascii("transfer") == TRANSFER_PORT;
  }

  /** A send puts the same on its payload. */
  lemma SentIsTransfer(data: TransferData)
    ensures PayloadOf(data).sourcePort == PayloadOf(data).destPort == Ascii("transfer")
    ensures PayloadOf(data).version == Ascii("ics20-1")
    ensures PayloadOf(data).encoding == Ascii("application/x-solidity-abi")
    ensures PayloadOf(data).value == AppData.Transfer(data)
    ensures SUCCESS_ACK == Ascii("{\"result\":\"AQ==\"}")
  {
    assert Ascii("transfer") == TRANSFER_PORT;
  }

  // Everyone else

  /** What holders may do with a token. Who may create or destroy a token that is not a voucher is that token's own
      business, but no one can burn what an escrow holds. */
  function UserCall(l: Ledger, t: Address, caller: Address, call: Erc20.TokenCall): Result<Ledger> {
    if t !in l.tokens then Err("no such token")
    else if caller in l.escrows.Values || caller == l.self then Err("contracts do not act on their own")
    else if t in l.homes then SetToken(l, t, Erc20.Execute(l.tokens[t], l.self, l.homes[t], caller, call))
    else match call
      case DoMint(at, v) => SetToken(l, t, Erc20.Mint(l.tokens[t], at, v))
      case DoBurn(at, v) =>
        if at in l.escrows.Values then Err("not the holder") else SetToken(l, t, Erc20.Burn(l.tokens[t], at, v))
      case _ => SetToken(l, t, Erc20.Execute(l.tokens[t], l.self, 0, caller, call))
  }

  function DeployToken(l: Ledger, created: Address): Result<Ledger> {
    if !Unused(l, created) then Err("contract creation failed")
    else Ok(l.(tokens := l.tokens[created := Erc20.EMPTY]))
  }

  // What is always true of one chain's ledger

  function Bal(l: Ledger, t: Address, a: Address): uint256 {
    if t in l.tokens then Erc20.BalanceOf(l.tokens[t], a) else 0
  }

  function Supply(l: Ledger, t: Address): uint256 {
    if t in l.tokens then l.tokens[t].supply else 0
  }

  /** The token a canonical denomination names here: a voucher's trace, or the printed address of another token. */
  function TokenFor(l: Ledger, denom: bytes): Option<Address> {
    if denom in l.contracts then Some(l.contracts[denom])
    else match ParseAddress(denom)
      case Some(a) =>
        if a != 0 && a in l.tokens && a !in l.denoms && ToHexString(a) == denom then Some(a) else None
      case None => None
  }

  /** Traces and voucher contracts correspond one to one. */
  ghost predicate RegistryOk(contracts: map<bytes, Address>, denoms: map<Address, bytes>, deployed: set<Address>) {
    && (forall d :: d in contracts ==> contracts[d] in denoms && denoms[contracts[d]] == d && !SlashFree(d))
    && (forall t :: t in denoms ==> denoms[t] in contracts && contracts[denoms[t]] == t && t in deployed)
    && 0 !in deployed
  }

  /** A voucher is minted and burned at the escrow of the client it came over. */
  ghost predicate HomesOk(contracts: map<bytes, Address>, homes: map<Address, Address>, escrows: map<bytes, Address>) {
    && (forall d :: d in contracts ==> contracts[d] in homes)
    && (forall d, c :: d in contracts && SlashFree(c) && CameOver(c, d) ==>
          c in escrows && homes[contracts[d]] == escrows[c])
  }

  ghost predicate EscrowsOk(self: Address, escrows: map<bytes, Address>) {
    && (forall c :: c in escrows ==> escrows[c] != 0 && escrows[c] != self)
    && (forall c1, c2 :: c1 in escrows && c2 in escrows && escrows[c1] == escrows[c2] ==> c1 == c2)
  }

  ghost predicate NoAllowance(token: Token, escrows: map<bytes, Address>) {
    forall c, a: Address :: c in escrows ==> Erc20.Allowance(token, escrows[c], a) == 0
  }

  ghost predicate TokensOk(tokens: map<Address, Token>, escrows: map<bytes, Address>) {
    forall t :: t in tokens ==> Erc20.Backed(tokens[t]) && NoAllowance(tokens[t], escrows)
  }

  ghost predicate LedgerOk(l: Ledger) {
    && RegistryOk(l.contracts, l.denoms, l.tokens.Keys)
    && HomesOk(l.contracts, l.homes, l.escrows)
    && (forall t :: t in l.homes ==> t in l.denoms)
    && EscrowsOk(l.self, l.escrows)
    && TokensOk(l.tokens, l.escrows)
  }

  /** Nothing registered is ever forgotten or reassigned, and no existing token becomes a voucher. */
  ghost predicate Extends(l: Ledger, l': Ledger) {
    && l'.self == l.self
    && (forall c :: c in l.escrows ==> c in l'.escrows && l'.escrows[c] == l.escrows[c])
    && (forall d :: d in l.contracts ==> d in l'.contracts && l'.contracts[d] == l.contracts[d])
    && (forall t :: t in l.tokens ==> t in l'.tokens && (t in l'.denoms <==> t in l.denoms))
  }

  /** How one operation moves funds: at least `escrowed` more of token `t` at escrow `e` and no escrow loses anything
      else; exactly `issued` more of voucher `t` and no other voucher's supply changes. */
  ghost predicate Shift(l: Ledger, l': Ledger, t: Address, e: Address, escrowed: int, issued: int) {
    && (forall u, c :: u in l'.tokens && c in l'.escrows ==>
          Bal(l', u, l'.escrows[c]) >=
            Bal(l, u, l'.escrows[c]) + (if u == t && l'.escrows[c] == e then escrowed else 0))
    && (forall u :: u in l'.denoms ==> Supply(l', u) == Supply(l, u) + (if u == t then issued else 0))
  }

  // The building blocks

  lemma EscrowForKeeps(l: Ledger, client: bytes, created: Address, l': Ledger, e: Address)
    requires LedgerOk(l) && EscrowFor(l, client, created) == Ok((l', e))
    ensures LedgerOk(l') && Extends(l, l') && l'.tokens == l.tokens && l'.contracts == l.contracts &&
      l'.denoms == l.denoms
    ensures client in l'.escrows && l'.escrows[client] == e
  {
    if client !in l.escrows {
      forall t | t in l.tokens ensures NoAllowance(l.tokens[t], l'.escrows) {
        assert NoAllowance(l.tokens[t], l.escrows);
        forall a: Address ensures Erc20.Allowance(l.tokens[t], created, a) == 0 {
          assert (created, a) in l.tokens[t].allowances ==> l.tokens[t].allowances[(created, a)] == 0;
        }
      }
    }
  }

  lemma VoucherForKeeps(l: Ledger, client: bytes, denom: bytes, created: Address, l': Ledger, t: Address)
    requires LedgerOk(l) && SlashFree(client) && client in l.escrows
    requires VoucherFor(l, Trace(client, denom), l.escrows[client], created) == Ok((l', t))
    ensures LedgerOk(l') && Extends(l, l') && l'.escrows == l.escrows
    ensures l'.contracts == l.contracts[Trace(client, denom) := t]
    ensures Shift(l, l', t, l.escrows[client], 0, 0)
  {
    var trace := Trace(client, denom);
    if trace in l.contracts {
      assert l.contracts == l.contracts[trace := t];
    } else {
      TraceUnwinds(client, denom);
      NewHomeOk(l, client, denom, created);
      NewVoucherKeeps(l, trace, l.escrows[client], created, l');
    }
  }

  lemma NewVoucherKeeps(l: Ledger, trace: bytes, e: Address, created: Address, l': Ledger)
    requires LedgerOk(l) && trace !in l.contracts && !SlashFree(trace)
    requires VoucherFor(l, trace, e, created) == Ok((l', created))
    requires HomesOk(l'.contracts, l'.homes, l.escrows)
    ensures LedgerOk(l') && Extends(l, l') && Shift(l, l', created, e, 0, 0)
  {
    hide RegistryOk, HomesOk, EscrowsOk, Shift;
    assert Erc20.Backed(Erc20.EMPTY) && NoAllowance(Erc20.EMPTY, l.escrows);
    NewVoucherRegistered(l, trace, created, l');
    NewVoucherShift(l, trace, created, l', e);
  }

  lemma NewVoucherRegistered(l: Ledger, trace: bytes, created: Address, l': Ledger)
    requires RegistryOk(l.contracts, l.denoms, l.tokens.Keys) && created !in l.tokens && created != 0
    requires trace !in l.contracts && !SlashFree(trace)
    requires l'.contracts == l.contracts[trace := created] && l'.denoms == l.denoms[created := trace]
    requires l'.tokens == l.tokens[created := Erc20.EMPTY]
    ensures RegistryOk(l'.contracts, l'.denoms, l'.tokens.Keys)
  {
  }

  lemma NewVoucherShift(l: Ledger, trace: bytes, created: Address, l': Ledger, e: Address)
    requires created !in l.tokens && l'.tokens == l.tokens[created := Erc20.EMPTY] && l'.escrows == l.escrows
    ensures Shift(l, l', created, e, 0, 0)
  {
  }

  lemma NewHomeOk(l: Ledger, client: bytes, denom: bytes, created: Address)
    requires LedgerOk(l) && SlashFree(client) && client in l.escrows && created !in l.tokens
    ensures HomesOk(l.contracts[Trace(client, denom) := created], l.homes[created := l.escrows[client]], l.escrows)
  {
    var trace := Trace(client, denom);
    var contracts := l.contracts[trace := created];
    TraceUnwinds(client, denom);
    forall d, c | d in contracts && SlashFree(c) && CameOver(c, d)
      ensures c in l.escrows && l.homes[created := l.escrows[client]][contracts[d]] == l.escrows[c]
    {
      if d == trace {
        TraceClientUnique(c, client, d);
      } else {
        assert l.contracts[d] in l.denoms;
      }
    }
  }

  /** Replacing one token by another state of it that is backed and leaves the escrows' allowances at zero. */
  lemma SetTokenKeeps(l: Ledger, t: Address, token: Token, e: Address, a: int, i: int, l': Ledger)
    requires LedgerOk(l) && t in l.tokens && Erc20.Backed(token) && NoAllowance(token, l.escrows)
    requires l' == l.(tokens := l.tokens[t := token])
    requires forall c :: c in l.escrows ==>
      Erc20.BalanceOf(token, l.escrows[c]) >= Bal(l, t, l.escrows[c]) + (if l.escrows[c] == e then a else 0)
    requires t in l.denoms ==> token.supply == Supply(l, t) + i
    ensures LedgerOk(l') && Extends(l, l') && l'.escrows == l.escrows && l'.denoms == l.denoms &&
      l'.contracts == l.contracts
    ensures l'.tokens.Keys == l.tokens.Keys && Shift(l, l', t, e, a, i)
  {
    assert l'.tokens.Keys == l.tokens.Keys;
    SetTokenShift(l, t, token, e, a, i, l');
  }

  lemma SetTokenShift(l: Ledger, t: Address, token: Token, e: Address, a: int, i: int, l': Ledger)
    requires t in l.tokens && l' == l.(tokens := l.tokens[t := token])
    requires forall c :: c in l.escrows ==>
      Erc20.BalanceOf(token, l.escrows[c]) >= Bal(l, t, l.escrows[c]) + (if l.escrows[c] == e then a else 0)
    requires t in l.denoms ==> token.supply == Supply(l, t) + i
    ensures Shift(l, l', t, e, a, i)
  {
  }

  lemma AllowancesStayZero(l: Ledger, t: Address, token: Token)
    requires TokensOk(l.tokens, l.escrows) && t in l.tokens && token.allowances == l.tokens[t].allowances
    ensures NoAllowance(token, l.escrows)
  {
    forall c, s: Address | c in l.escrows ensures Erc20.Allowance(token, l.escrows[c], s) == 0 {
      assert Erc20.Allowance(l.tokens[t], l.escrows[c], s) == 0;
    }
  }

  lemma MintAtKeeps(l: Ledger, t: Address, e: Address, v: uint256, l': Ledger)
    requires LedgerOk(l) && MintAt(l, t, e, v) == Ok(l')
    ensures LedgerOk(l') && Extends(l, l') && l'.escrows == l.escrows && l'.denoms == l.denoms &&
      l'.contracts == l.contracts
    ensures l'.tokens.Keys == l.tokens.Keys && Shift(l, l', t, e, v, v)
  {
    var token := Erc20.Update(l.tokens[t], 0, e, v).value;
    Erc20.UpdateExact(l.tokens[t], 0, e, v);
    AllowancesStayZero(l, t, token);
    SetTokenKeeps(l, t, token, e, v, v, l');
  }

  lemma BurnAtKeeps(l: Ledger, t: Address, e: Address, v: uint256, l': Ledger)
    requires LedgerOk(l) && BurnAt(l, t, e, v) == Ok(l')
    ensures LedgerOk(l') && Extends(l, l') && l'.escrows == l.escrows && l'.denoms == l.denoms &&
      l'.contracts == l.contracts
    ensures l'.tokens.Keys == l.tokens.Keys && Shift(l, l', t, e, 0 - v, 0 - v)
  {
    var token := Erc20.Update(l.tokens[t], e, 0, v).value;
    Erc20.UpdateExact(l.tokens[t], e, 0, v);
    AllowancesStayZero(l, t, token);
    SetTokenKeeps(l, t, token, e, 0 - v, 0 - v, l');
  }

  lemma PayOutKeeps(l: Ledger, t: Address, e: Address, to: Address, v: uint256, l': Ledger)
    requires LedgerOk(l) && PayOut(l, t, e, to, v) == Ok(l')
    ensures LedgerOk(l') && Extends(l, l') && l'.escrows == l.escrows && l'.denoms == l.denoms &&
      l'.contracts == l.contracts
    ensures l'.tokens.Keys == l.tokens.Keys && Shift(l, l', t, e, 0 - v, 0)
  {
    var token := Erc20.Update(l.tokens[t], e, to, v).value;
    Erc20.UpdateExact(l.tokens[t], e, to, v);
    AllowancesStayZero(l, t, token);
    SetTokenKeeps(l, t, token, e, 0 - v, 0, l');
  }

  /** Only someone who approved the spender is debited, and no escrow ever does. */
  lemma SpendingKeepsEscrows(
    l: Ledger, t: Address, spender: Address, from: Address, to: Address, v: uint256, token: Token)
    requires LedgerOk(l) && t in l.tokens && Erc20.TransferFrom(l.tokens[t], spender, from, to, v) == Ok(token)
    ensures Erc20.Backed(token) && token.supply == l.tokens[t].supply && NoAllowance(token, l.escrows)
    ensures forall c :: c in l.escrows ==> Erc20.BalanceOf(token, l.escrows[c]) >= Bal(l, t, l.escrows[c])
  {
    hide RegistryOk, HomesOk, EscrowsOk, Erc20.TransferFrom;
    var before := l.tokens[t];
    assert NoAllowance(before, l.escrows);
    Erc20.TransferFromExact(before, spender, from, to, v);
    forall c | c in l.escrows ensures l.escrows[c] == from ==> v == 0 {
      assert Erc20.Allowance(before, l.escrows[c], spender) == 0;
    }
    forall c, s: Address | c in l.escrows ensures Erc20.Allowance(token, l.escrows[c], s) == 0 {
      assert Erc20.Allowance(before, l.escrows[c], s) == 0;
    }
    assert forall c :: c in l.escrows ==> l.escrows[c] != 0 by {
      EscrowsNonZero(l);
    }
  }

  lemma EscrowsNonZero(l: Ledger)
    requires LedgerOk(l)
    ensures forall c :: c in l.escrows ==> l.escrows[c] != 0
  {
  }

  lemma PullInKeeps(l: Ledger, t: Address, from: Address, e: Address, v: uint256, l': Ledger)
    requires LedgerOk(l) && PullIn(l, t, from, e, v) == Ok(l')
    ensures LedgerOk(l') && Extends(l, l') && l'.escrows == l.escrows && l'.denoms == l.denoms &&
      l'.contracts == l.contracts
    ensures l'.tokens.Keys == l.tokens.Keys && Shift(l, l', t, e, v, 0)
  {
    var token := Erc20.TransferFrom(l.tokens[t], l.self, from, e, v).value;
    SpendingKeepsEscrows(l, t, l.self, from, e, v, token);
    SetTokenKeeps(l, t, token, e, v, 0, l');
  }

  lemma ShiftCompose(l: Ledger, l1: Ledger, l2: Ledger, t: Address, e: Address, a1: int, i1: int, a2: int, i2: int)
    requires Shift(l, l1, t, e, a1, i1) && Shift(l1, l2, t, e, a2, i2)
    requires l1.escrows == l2.escrows && l1.denoms == l2.denoms && l1.tokens.Keys == l2.tokens.Keys
    ensures Shift(l, l2, t, e, a1 + a2, i1 + i2)
  {
    forall u, c | u in l2.tokens && c in l2.escrows
      ensures Bal(l2, u, l2.escrows[c]) >=
        Bal(l, u, l2.escrows[c]) + (if u == t && l2.escrows[c] == e then a1 + a2 else 0)
    {
      assert Bal(l1, u, l1.escrows[c]) >= Bal(l, u, l1.escrows[c]) + (if u == t && l1.escrows[c] == e then a1 else 0);
    }
  }

  // The operations

  lemma ExtendsTrans(l: Ledger, l1: Ledger, l2: Ledger)
    requires Extends(l, l1) && Extends(l1, l2)
    ensures Extends(l, l2)
  {
  }

  lemma SameTokensShift(l: Ledger, l1: Ledger, l2: Ledger, t: Address, e: Address, a: int, i: int)
    requires l.tokens == l1.tokens && Shift(l1, l2, t, e, a, i)
    ensures Shift(l, l2, t, e, a, i)
  {
  }

  lemma NoSlashNoTrace(client: bytes, denom: bytes)
    requires SlashFree(denom)
    ensures !CameOver(client, denom)
  {
    if CameOver(client, denom) {
      TraceHasSlash(client, denom);
    }
  }

  lemma TraceHasSlash(client: bytes, denom: bytes)
    requires CameOver(client, denom)
    ensures !SlashFree(denom)
  {
    assert DenomPrefix(TRANSFER_PORT, client)[|TRANSFER_PORT|] == SLASH;
    assert denom[|TRANSFER_PORT|] == SLASH;
  }

  lemma VoucherLookup(l: Ledger, client: bytes, denom: bytes)
    requires LedgerOk(l) && TokenFor(l, denom).Some? && CameOver(client, denom)
    ensures MappedToken(l, denom) == TokenFor(l, denom)
  {
    if denom !in l.contracts {
      TraceHasSlash(client, denom);
      AddressHasNoSlash(denom);
    }
  }

  /** Every deployed token has one canonical denomination, and that names the token. */
  lemma DenomNamesToken(l: Ledger, t: Address)
    requires LedgerOk(l) && t in l.tokens
    ensures TokenFor(l, DenomOf(l, t)) == Some(t)
    ensures if t in l.denoms then l.denoms[t] != [] && DenomOf(l, t) in l.contracts else SlashFree(DenomOf(l, t))
  {
    AddressRoundTrip(t);
    if t in l.denoms {
      assert !SlashFree(l.denoms[t]);
    }
  }

  lemma TokenNamesDenom(l: Ledger, denom: bytes)
    requires LedgerOk(l) && TokenFor(l, denom).Some?
    ensures TokenFor(l, denom).value in l.tokens && TokenFor(l, denom).value != 0 &&
      DenomOf(l, TokenFor(l, denom).value) == denom
  {
  }

  lemma TokenForExtends(l: Ledger, l': Ledger, denom: bytes)
    requires LedgerOk(l) && LedgerOk(l')
    requires Extends(l, l') && TokenFor(l, denom).Some?
    ensures TokenFor(l', denom) == TokenFor(l, denom)
  {
    var t := TokenFor(l, denom).value;
    TokenNamesDenom(l, denom);
    if denom !in l.contracts {
      AddressRoundTrip(t);
    }
  }

  /** Unwinding a canonical denomination finds its token, whichever of the two look-ups is used. */
  lemma LookupsAgree(l: Ledger, denom: bytes)
    requires LedgerOk(l) && TokenFor(l, denom).Some?
    ensures UnwoundToken(l, denom) == TokenFor(l, denom)
    ensures TokenFor(l, denom) == if denom in l.contracts then Some(l.contracts[denom]) else ParseAddress(denom)
  {
    if denom in l.contracts && ParseAddress(denom).Some? {
      AddressHasNoSlash(denom);
    }
  }

  /** A send escrows the amount, or takes it out of the supply when the token goes back where it came from. */
  lemma SendKeeps(
    l: Ledger, caller: Address, sender: Address, client: bytes, t: Address, v: uint256, receiver: bytes, memo: bytes,
    created: Address, l': Ledger, data: TransferData)
    requires LedgerOk(l)
    requires SendTransfer(l, caller, sender, client, t, v, receiver, memo, created) == Ok((l', data))
    ensures LedgerOk(l') && Extends(l, l') && l'.contracts == l.contracts && client in l'.escrows
    ensures TokenFor(l', data.denom) == Some(t) && data.amount == v && v > 0
    ensures if CameOver(client, data.denom) then Shift(l, l', t, l'.escrows[client], 0, 0 - v)
            else Shift(l, l', t, l'.escrows[client], v, 0)
  {
    hide *;
    var l1, escrow, l2, burned := SendStages(l, caller, sender, client, t, v, receiver, memo, created, l', data);
    EscrowForKeeps(l, client, created, l1, escrow);
    PullInKeeps(l1, t, caller, escrow, v, l2);
    ExtendsTrans(l, l1, l2);
    SameTokensShift(l, l1, l2, t, escrow, v, 0);
    DenomNamesToken(l2, t);
    if burned {
      BurnAtKeeps(l2, t, escrow, v, l');
      ExtendsTrans(l, l2, l');
      ShiftCompose(l, l2, l', t, escrow, v, 0, 0 - v, 0 - v);
      TokenForExtends(l2, l', data.denom);
    } else if t !in l2.denoms {
      NoSlashNoTrace(client, data.denom);
    }
  }

  lemma SendStages(
    l: Ledger, caller: Address, sender: Address, client: bytes, t: Address, v: uint256, receiver: bytes, memo: bytes,
    created: Address, l': Ledger, data: TransferData) returns (l1: Ledger, escrow: Address, l2: Ledger, burned: bool)
    requires SendTransfer(l, caller, sender, client, t, v, receiver, memo, created) == Ok((l', data))
    ensures EscrowFor(l, client, created) == Ok((l1, escrow)) && PullIn(l1, t, caller, escrow, v) == Ok(l2)
    ensures t in l2.tokens && data.denom == DenomOf(l2, t) && data.amount == v && v > 0
    ensures burned <==> t in l2.denoms && l2.denoms[t] != [] && CameOver(client, data.denom)
    ensures if burned then BurnAt(l2, t, escrow, v) == Ok(l') else l' == l2
  {
    l1, escrow := EscrowFor(l, client, created).value.0, EscrowFor(l, client, created).value.1;
    l2 := PullIn(l1, t, caller, escrow, v).value;
    burned := t in l2.denoms && l2.denoms[t] != [] && CameOver(client, data.denom);
  }

  /** A token that comes home is paid out of the escrow of the client it comes over, whichever token the denomination
      stands for. */
  lemma ReturnKeeps(
    l: Ledger, source: bytes, dest: bytes, payload: Payload, newEscrow: Address, newToken: Address, t: Address,
    l': Ledger)
    requires LedgerOk(l) && ReceiveTransfer(l, source, dest, payload, newEscrow, newToken) == Ok(l')
    requires CameOver(source, payload.value.data.denom)
    requires UnwoundToken(l, Unwind(source, payload.value.data.denom)) == Some(t)
    ensures LedgerOk(l') && Extends(l, l') && l'.contracts == l.contracts && dest in l'.escrows
    ensures Shift(l, l', t, l'.escrows[dest], 0 - payload.value.data.amount, 0)
  {
    hide *;
    var l1, escrow, receiver := ReturnStages(l, source, dest, payload, newEscrow, newToken, l');
    var denom := Unwind(source, payload.value.data.denom);
    var v: uint256 := payload.value.data.amount;
    EscrowForKeeps(l, dest, newEscrow, l1, escrow);
    SameUnwound(l, l1, denom);
    PayOutKeeps(l1, t, escrow, receiver, v, l');
    ExtendsTrans(l, l1, l');
    SameTokensShift(l, l1, l', t, escrow, 0 - v, 0);
  }

  lemma SameUnwound(l: Ledger, l1: Ledger, denom: bytes)
    requires l1.contracts == l.contracts
    ensures UnwoundToken(l1, denom) == UnwoundToken(l, denom)
  {
  }

  lemma ReturnStages(
    l: Ledger, source: bytes, dest: bytes, payload: Payload, newEscrow: Address, newToken: Address, l': Ledger)
    returns (l1: Ledger, escrow: Address, receiver: Address)
    requires ReceiveTransfer(l, source, dest, payload, newEscrow, newToken) == Ok(l')
    requires CameOver(source, payload.value.data.denom)
    ensures payload.value.Transfer? && EscrowFor(l, dest, newEscrow) == Ok((l1, escrow))
    ensures var token := UnwoundToken(l1, Unwind(source, payload.value.data.denom));
      token.Some? && PayOut(l1, token.value, escrow, receiver, payload.value.data.amount) == Ok(l')
  {
    l1, escrow := EscrowFor(l, dest, newEscrow).value.0, EscrowFor(l, dest, newEscrow).value.1;
    receiver := ParseAddress(payload.value.data.receiver).value;
  }

  /** A token that arrives becomes a voucher under its longer trace, newly issued. */
  lemma ArrivalKeeps(
    l: Ledger, source: bytes, dest: bytes, payload: Payload, newEscrow: Address, newToken: Address, l': Ledger)
    requires LedgerOk(l) && SlashFree(dest) && ReceiveTransfer(l, source, dest, payload, newEscrow, newToken) == Ok(l')
    requires !CameOver(source, payload.value.data.denom)
    ensures LedgerOk(l') && Extends(l, l') && dest in l'.escrows
    ensures var trace := Trace(dest, payload.value.data.denom);
      && trace in l'.contracts && l'.contracts == l.contracts[trace := l'.contracts[trace]]
      && Shift(l, l', l'.contracts[trace], l'.escrows[dest], 0, payload.value.data.amount)
  {
    hide *;
    var l1, escrow, l2, t, l3, receiver := ArrivalStages(l, source, dest, payload, newEscrow, newToken, l');
    var denom, v: uint256 := payload.value.data.denom, payload.value.data.amount;
    EscrowForKeeps(l, dest, newEscrow, l1, escrow);
    VoucherForKeeps(l1, dest, denom, newToken, l2, t);
    MintAtKeeps(l2, t, escrow, v, l3);
    PayOutKeeps(l3, t, escrow, receiver, v, l');
    ExtendsTrans(l, l1, l2);
    ExtendsTrans(l, l2, l3);
    ExtendsTrans(l, l3, l');
    SameTokensShift(l, l1, l2, t, escrow, 0, 0);
    ShiftCompose(l, l2, l3, t, escrow, 0, 0, v, v);
    ShiftCompose(l, l3, l', t, escrow, v, v, 0 - v, 0);
  }

  lemma ArrivalStages(
    l: Ledger, source: bytes, dest: bytes, payload: Payload, newEscrow: Address, newToken: Address, l': Ledger)
    returns (l1: Ledger, escrow: Address, l2: Ledger, t: Address, l3: Ledger, receiver: Address)
    requires ReceiveTransfer(l, source, dest, payload, newEscrow, newToken) == Ok(l')
    requires !CameOver(source, payload.value.data.denom)
    ensures payload.value.Transfer? && EscrowFor(l, dest, newEscrow) == Ok((l1, escrow))
    ensures VoucherFor(l1, Trace(dest, payload.value.data.denom), escrow, newToken) == Ok((l2, t))
    ensures MintAt(l2, t, escrow, payload.value.data.amount) == Ok(l3)
    ensures ParseAddress(payload.value.data.receiver) == Some(receiver)
    ensures PayOut(l3, t, escrow, receiver, payload.value.data.amount) == Ok(l')
  {
    l1, escrow := EscrowFor(l, dest, newEscrow).value.0, EscrowFor(l, dest, newEscrow).value.1;
    var voucher := VoucherFor(l1, Trace(dest, payload.value.data.denom), escrow, newToken);
    l2, t := voucher.value.0, voucher.value.1;
    l3 := MintAt(l2, t, escrow, payload.value.data.amount).value;
    receiver := ParseAddress(payload.value.data.receiver).value;
  }

  /** The token a refund over `client` pays in. */
  function RefundedToken(l: Ledger, client: bytes, denom: bytes): Option<Address> {
    if CameOver(client, denom) || denom in l.contracts then MappedToken(l, denom) else ParseAddress(denom)
  }

  /** A refund is the reverse of the send it undoes. */
  lemma RefundKeeps(l: Ledger, client: bytes, data: TransferData, t: Address, l': Ledger)
    requires LedgerOk(l) && RefundTransfer(l, client, data) == Ok(l') && RefundedToken(l, client, data.denom) == Some(t)
    ensures LedgerOk(l') && Extends(l, l') && l'.contracts == l.contracts && client in l'.escrows
    ensures if CameOver(client, data.denom) then Shift(l, l', t, l'.escrows[client], 0, data.amount)
            else Shift(l, l', t, l'.escrows[client], 0 - data.amount, 0)
  {
    hide *;
    var l1, refundee := RefundStages(l, client, data, t, l');
    var escrow, v: uint256 := l.escrows[client], data.amount;
    if CameOver(client, data.denom) {
      MintAtKeeps(l, t, escrow, v, l1);
      PayOutKeeps(l1, t, escrow, refundee, v, l');
      ExtendsTrans(l, l1, l');
      ShiftCompose(l, l1, l', t, escrow, v, v, 0 - v, 0);
    } else {
      PayOutKeeps(l, t, escrow, refundee, v, l');
    }
  }

  lemma RefundStages(
    l: Ledger, client: bytes, data: TransferData, t: Address, l': Ledger) returns (l1: Ledger, refundee: Address)
    requires RefundTransfer(l, client, data) == Ok(l') && RefundedToken(l, client, data.denom) == Some(t)
    ensures client in l.escrows
    ensures if CameOver(client, data.denom) then MintAt(l, t, l.escrows[client], data.amount) == Ok(l1) else l1 == l
    ensures PayOut(l1, t, l.escrows[client], refundee, data.amount) == Ok(l')
  {
    refundee := ParseAddress(data.sender).value;
    l1 := if CameOver(client, data.denom) then MintAt(l, t, l.escrows[client], data.amount).value else l;
  }

  /** For a denomination that names a token, the refund pays in that token. */
  lemma RefundsInKind(l: Ledger, client: bytes, denom: bytes)
    requires LedgerOk(l) && TokenFor(l, denom).Some?
    ensures RefundedToken(l, client, denom) == TokenFor(l, denom)
  {
    if CameOver(client, denom) {
      VoucherLookup(l, client, denom);
    } else {
      LookupsAgree(l, denom);
    }
  }

  lemma DeployKeeps(l: Ledger, created: Address, l': Ledger)
    requires LedgerOk(l) && DeployToken(l, created) == Ok(l')
    ensures LedgerOk(l') && Extends(l, l') && l'.contracts == l.contracts && Shift(l, l', created, 0, 0, 0)
  {
    hide HomesOk, EscrowsOk, RegistryOk, Shift;
    assert Erc20.Backed(Erc20.EMPTY) && NoAllowance(Erc20.EMPTY, l.escrows);
    NewTokenRegistered(l.contracts, l.denoms, l.tokens.Keys, created);
    assert l'.tokens.Keys == l.tokens.Keys + {created};
    NewVoucherShift(l, [], created, l', 0);
    VouchersHaveHomes(l, created);
  }

  lemma NewTokenRegistered(
    contracts: map<bytes, Address>, denoms: map<Address, bytes>, deployed: set<Address>, created: Address)
    requires RegistryOk(contracts, denoms, deployed) && created != 0
    ensures RegistryOk(contracts, denoms, deployed + {created})
  {
  }

  lemma VouchersHaveHomes(l: Ledger, t: Address)
    requires LedgerOk(l)
    ensures t in l.denoms <==> t in l.homes
    ensures t in l.denoms ==> t in l.tokens
  {
  }

  /** Nothing a holder does takes tokens from an escrow or changes the supply of a voucher. */
  lemma UserCallKeeps(l: Ledger, t: Address, caller: Address, call: Erc20.TokenCall, l': Ledger)
    requires LedgerOk(l) && UserCall(l, t, caller, call) == Ok(l')
    ensures LedgerOk(l') && Extends(l, l') && l'.contracts == l.contracts && Shift(l, l', t, 0, 0, 0)
  {
    hide LedgerOk, Extends, Shift;
    VouchersHaveHomes(l, t);
    var token := l'.tokens[t];
    match call {
    case DoTransfer(to, v) => MoveSparesEscrows(l, t, caller, to, v, token);
    case DoApprove(spender, v) => ApproveSparesEscrows(l, t, caller, spender, v, token);
    case DoTransferFrom(from, to, v) => SpendingKeepsEscrows(l, t, caller, from, to, v, token);
    case DoMint(at, v) => MoveSparesEscrows(l, t, 0, at, v, token);
    case DoBurn(at, v) => MoveSparesEscrows(l, t, at, 0, v, token);
    }
    SetTokenKeeps(l, t, token, 0, 0, 0, l');
  }

  lemma MoveSparesEscrows(l: Ledger, t: Address, from: Address, to: Address, v: uint256, token: Token)
    requires LedgerOk(l) && t in l.tokens && (from == 0 || from !in l.escrows.Values)
    requires Erc20.Update(l.tokens[t], from, to, v) == Ok(token)
    ensures Erc20.Backed(token) && NoAllowance(token, l.escrows)
    ensures token.supply == l.tokens[t].supply + (if from == 0 then v else 0) - (if to == 0 then v else 0)
    ensures forall c :: c in l.escrows ==> Erc20.BalanceOf(token, l.escrows[c]) >= Bal(l, t, l.escrows[c])
  {
    hide HomesOk, RegistryOk;
    Erc20.UpdateExact(l.tokens[t], from, to, v);
    AllowancesStayZero(l, t, token);
  }

  lemma ApproveSparesEscrows(l: Ledger, t: Address, owner: Address, spender: Address, v: uint256, token: Token)
    requires LedgerOk(l) && t in l.tokens && owner !in l.escrows.Values
    requires Erc20.Approve(l.tokens[t], owner, spender, v) == Ok(token)
    ensures Erc20.Backed(token) && NoAllowance(token, l.escrows) && token.supply == l.tokens[t].supply
    ensures forall c :: c in l.escrows ==> Erc20.BalanceOf(token, l.escrows[c]) >= Bal(l, t, l.escrows[c])
  {
    hide HomesOk, RegistryOk;
    assert NoAllowance(l.tokens[t], l.escrows);
    forall c, s: Address | c in l.escrows ensures Erc20.Allowance(token, l.escrows[c], s) == 0 {
      assert Erc20.Allowance(l.tokens[t], l.escrows[c], s) == 0;
    }
  }
}
