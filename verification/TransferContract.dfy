/** The ICS20 transfer application as the contract it is: its mappings are written one after the other, and a call that
    reverts puts everything back. Every call is proved to do what the functions of module Transfer say. */
module TransferContract {
  import opened Bytes
  import opened Router
  import opened Denoms
  import opened Transfer
  import Erc20

  class ICS20Transfer {
    const self: Address
    var escrows: map<bytes, Address>
    var ibcERC20Contracts: map<bytes, Address>
    var ibcERC20Denoms: map<Address, bytes>
    var voucherEscrows: map<Address, Address>
    var tokens: map<Address, Token>

    constructor (self: Address)
      ensures Value() == Ledger(self, map[], map[], map[], map[], map[])
    {
      this.self := self;
      escrows, ibcERC20Contracts, ibcERC20Denoms, voucherEscrows, tokens := map[], map[], map[], map[], map[];
    }

    function Value(): Ledger
      reads this
    {
      Ledger(self, escrows, ibcERC20Contracts, ibcERC20Denoms, voucherEscrows, tokens)
    }

    /** On success the state is what the specification says; a revert leaves it untouched. */
    ghost predicate Became(was: Ledger, spec: Result<Ledger>, ok: bool)
      reads this
    {
      ok == spec.Ok? && Value() == if ok then spec.value else was
    }

    method RollBack(l: Ledger)
      requires l.self == self
      modifies this
      ensures Value() == l
    {
      escrows, ibcERC20Contracts, ibcERC20Denoms := l.escrows, l.contracts, l.denoms;
      voucherEscrows, tokens := l.homes, l.tokens;
    }

    method GetOrCreateEscrow(client: bytes, created: Address) returns (escrow: Option<Address>)
      modifies this
      ensures match EscrowFor(old(Value()), client, created)
        case Ok((l, e)) => Value() == l && escrow == Some(e)
        case Err(_) => Value() == old(Value()) && escrow == None
    {
      if client in escrows { return Some(escrows[client]); }
      if !Unused(Value(), created) { return None; }
      escrows := escrows[client := created];
      return Some(created);
    }

    method GetOrCreateIBCERC20(denom: bytes, escrow: Address, created: Address) returns (token: Option<Address>)
      modifies this
      ensures match VoucherFor(old(Value()), denom, escrow, created)
        case Ok((l, t)) => Value() == l && token == Some(t)
        case Err(_) => Value() == old(Value()) && token == None
    {
      if denom in ibcERC20Contracts { return Some(ibcERC20Contracts[denom]); }
      if !Unused(Value(), created) { return None; }
      tokens := tokens[created := Erc20.EMPTY];
      voucherEscrows := voucherEscrows[created := escrow];
      ibcERC20Contracts := ibcERC20Contracts[denom := created];
      ibcERC20Denoms := ibcERC20Denoms[created := denom];
      return Some(created);
    }

    method MintVoucher(t: Address, escrow: Address, v: uint256) returns (ok: bool)
      modifies this`tokens
      ensures Became(old(Value()), Transfer.MintAt(old(Value()), t, escrow, v), ok)
    {
      if t !in tokens || t !in voucherEscrows { return false; }
      var outcome := Erc20.Execute(tokens[t], self, voucherEscrows[t], self, Erc20.DoMint(escrow, v));
      if outcome.Err? { return false; }
      tokens := tokens[t := outcome.value];
      return true;
    }

    method BurnVoucher(t: Address, escrow: Address, v: uint256) returns (ok: bool)
      modifies this`tokens
      ensures Became(old(Value()), Transfer.BurnAt(old(Value()), t, escrow, v), ok)
    {
      if t !in tokens || t !in voucherEscrows { return false; }
      var outcome := Erc20.Execute(tokens[t], self, voucherEscrows[t], self, Erc20.DoBurn(escrow, v));
      if outcome.Err? { return false; }
      tokens := tokens[t := outcome.value];
      return true;
    }

    method EscrowSend(t: Address, escrow: Address, to: Address, v: uint256) returns (ok: bool)
      modifies this`tokens
      ensures Became(old(Value()), PayOut(old(Value()), t, escrow, to, v), ok)
    {
      if t !in tokens { return false; }
      var outcome := Erc20.Transfer(tokens[t], escrow, to, v);
      if outcome.Err? { return false; }
      tokens := tokens[t := outcome.value];
      return true;
    }

    /** The balance is read before and after, since a token may not credit what it was asked to. */
    method PullTokens(from: Address, escrow: Address, t: Address, v: uint256) returns (ok: bool)
      modifies this`tokens
      ensures Became(old(Value()), PullIn(old(Value()), t, from, escrow, v), ok)
    {
      if t !in tokens { return false; }
      var starting := Erc20.BalanceOf(tokens[t], escrow);
      var outcome := Erc20.TransferFrom(tokens[t], self, from, escrow, v);
      if outcome.Err? { return false; }
      var snapshot := tokens;
      tokens := tokens[t := outcome.value];
      var ending := Erc20.BalanceOf(tokens[t], escrow);
      ok := ending > starting && ending == starting + v;
      if !ok {
        tokens := snapshot;
      }
    }

    method Send(
      caller: Address, sender: Address, client: bytes, t: Address, v: uint256, receiver: bytes, memo: bytes,
      created: Address) returns (data: Option<TransferData>)
      modifies this
      ensures match SendTransfer(old(Value()), caller, sender, client, t, v, receiver, memo, created)
        case Ok((l, d)) => Value() == l && data == Some(d)
        case Err(_) => Value() == old(Value()) && data == None
    {
      var snapshot := Value();
      if v == 0 { return None; }
      var escrow := GetOrCreateEscrow(client, created);
      if escrow.None? { return None; }
      var ok := PullTokens(caller, escrow.value, t, v);
      if ok {
        var denom := if t in ibcERC20Denoms then ibcERC20Denoms[t] else [];
        if denom == [] {
          denom := ToHexString(t);
        } else if HasPrefix(denom, DenomPrefix(TRANSFER_PORT, client)) {
          ok := BurnVoucher(t, escrow.value, v);
        }
        data := Some(TransferData(denom, ToHexString(sender), receiver, v, memo));
      }
      if !ok {
        RollBack(snapshot);
        data := None;
      }
    }

    method ReceiveReturning(escrow: Address, denom: bytes, receiver: Address, v: uint256) returns (ok: bool)
      modifies this
      ensures match UnwoundToken(old(Value()), denom)
        case Some(t) => Became(old(Value()), PayOut(old(Value()), t, escrow, receiver, v), ok)
        case None => !ok && Value() == old(Value())
    {
      var parsed := ParseAddress(denom);
      var token: Address := 0;
      if parsed.Some? {
        token := parsed.value;
      }
      if token == 0 {
        if denom !in ibcERC20Contracts { return false; }
        token := ibcERC20Contracts[denom];
      }
      ok := EscrowSend(token, escrow, receiver, v);
    }

    method ReceiveArriving(escrow: Address, trace: bytes, receiver: Address, v: uint256, created: Address)
      returns (ok: bool)
      modifies this
      ensures match VoucherFor(old(Value()), trace, escrow, created)
        case Ok((l, t)) =>
          (match Transfer.MintAt(l, t, escrow, v)
           case Ok(l1) => ok == PayOut(l1, t, escrow, receiver, v).Ok? &&
             (ok ==> Value() == PayOut(l1, t, escrow, receiver, v).value)
           case Err(_) => !ok)
        case Err(_) => !ok
    {
      var token := GetOrCreateIBCERC20(trace, escrow, created);
      if token.None? { return false; }
      ok := MintVoucher(token.value, escrow, v);
      if ok {
        ok := EscrowSend(token.value, escrow, receiver, v);
      }
    }

    method OnRecvPacket(
      sourceClient: bytes, destClient: bytes, payload: Payload, newEscrow: Address, newToken: Address)
      returns (ok: bool)
      modifies this
      ensures Became(old(Value()),
        ReceiveTransfer(old(Value()), sourceClient, destClient, payload, newEscrow, newToken), ok)
    {
      var snapshot := Value();
      if payload.version != VERSION || payload.sourcePort != TRANSFER_PORT { return false; }
      if payload.encoding != SOLIDITY_ABI || payload.destPort != TRANSFER_PORT { return false; }
      if !payload.value.Transfer? || payload.value.data.amount == 0 { return false; }
      var data := payload.value.data;
      var receiver := ParseAddress(data.receiver);
      if receiver.None? { return false; }
      var escrow := GetOrCreateEscrow(destClient, newEscrow);
      if escrow.None? { return false; }
      var prefix := DenomPrefix(payload.sourcePort, sourceClient);
      if HasPrefix(data.denom, prefix) {
        ok := ReceiveReturning(escrow.value, data.denom[|prefix|..], receiver.value, data.amount);
      } else {
        var trace := DenomPrefix(payload.destPort, destClient) + data.denom;
        ok := ReceiveArriving(escrow.value, trace, receiver.value, data.amount, newToken);
      }
      if !ok {
        RollBack(snapshot);
      }
    }

    method RefundTokens(sourceClient: bytes, data: TransferData) returns (ok: bool)
      modifies this
      ensures Became(old(Value()), RefundTransfer(old(Value()), sourceClient, data), ok)
    {
      var snapshot := Value();
      if sourceClient !in escrows { return false; }
      var escrow := escrows[sourceClient];
      var refundee := ParseAddress(data.sender);
      if refundee.None? { return false; }
      var token: Address;
      if HasPrefix(data.denom, DenomPrefix(TRANSFER_PORT, sourceClient)) {
        if data.denom !in ibcERC20Contracts { return false; }
        token := ibcERC20Contracts[data.denom];
        ok := MintVoucher(token, escrow, data.amount);
        if !ok { return false; }
      } else if data.denom in ibcERC20Contracts {
        token := ibcERC20Contracts[data.denom];
      } else {
        var parsed := ParseAddress(data.denom);
        if parsed.None? || parsed.value == 0 { return false; }
        token := parsed.value;
      }
      ok := EscrowSend(token, escrow, refundee.value, data.amount);
      if !ok {
        RollBack(snapshot);
      }
    }
  }
}
