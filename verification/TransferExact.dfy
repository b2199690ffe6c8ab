/** To the last unit: each operation of the transfer application moves its amount from one holder to another, creates
    it or destroys it, and touches no other balance of any token. */
module TransferExact {
  import opened Bytes
  import opened Router
  import opened Denoms
  import opened Transfer
  import Erc20

  /** `v` of token `t` went from `from` to `to`; the zero address stands for creation and destruction. */
  ghost predicate Moved(l: Ledger, l': Ledger, t: Address, from: Address, to: Address, v: int) {
    && (forall a: Address :: a != 0 ==>
          Bal(l', t, a) == Bal(l, t, a) - (if a == from then v else 0) + (if a == to then v else 0))
    && Supply(l', t) == Supply(l, t) + (if from == 0 then v else 0) - (if to == 0 then v else 0)
    && (forall u: Address, a: Address :: u != t ==> Bal(l', u, a) == Bal(l, u, a))
    && (forall u: Address :: u != t ==> Supply(l', u) == Supply(l, u))
  }

  lemma MovedOn(l: Ledger, l1: Ledger, l2: Ledger, t: Address, from: Address, via: Address, to: Address, v: int)
    requires Moved(l, l1, t, from, via, v) && Moved(l1, l2, t, via, to, v)
    ensures Moved(l, l2, t, from, to, v)
  {
  }

  lemma UpdateMoves(l: Ledger, t: Address, from: Address, to: Address, v: uint256, token: Token, l': Ledger)
    requires t in l.tokens && Erc20.Backed(l.tokens[t]) && Erc20.Update(l.tokens[t], from, to, v) == Ok(token)
    requires l' == l.(tokens := l.tokens[t := token])
    ensures Moved(l, l', t, from, to, v)
  {
    Erc20.UpdateExact(l.tokens[t], from, to, v);
  }

  lemma SpendMoves(
    l: Ledger, t: Address, spender: Address, from: Address, to: Address, v: uint256, token: Token, l': Ledger)
    requires t in l.tokens && Erc20.Backed(l.tokens[t])
    requires Erc20.TransferFrom(l.tokens[t], spender, from, to, v) == Ok(token)
    requires l' == l.(tokens := l.tokens[t := token])
    ensures Moved(l, l', t, from, to, v)
  {
    var before := l.tokens[t];
    var current := Erc20.Allowance(before, from, spender);
    if current == Erc20.MAX_ALLOWANCE {
      UpdateMoves(l, t, from, to, v, token, l');
    } else {
      var spent := Erc20.Approve(before, from, spender, current - v).value;
      var l1 := l.(tokens := l.tokens[t := spent]);
      assert l' == l1.(tokens := l1.tokens[t := token]);
      UpdateMoves(l1, t, from, to, v, token, l');
    }
  }

  lemma SameBalances(l: Ledger, l1: Ledger, l2: Ledger, t: Address, from: Address, to: Address, v: int)
    requires l1.tokens == l.tokens && Moved(l1, l2, t, from, to, v)
    ensures Moved(l, l2, t, from, to, v)
  {
  }

  /** Pulling tokens in takes them from a holder, never from an escrow. */
  lemma PullMoves(l: Ledger, t: Address, caller: Address, escrow: Address, v: uint256, l': Ledger)
    requires LedgerOk(l) && PullIn(l, t, caller, escrow, v) == Ok(l') && v > 0
    ensures Moved(l, l', t, caller, escrow, v)
    ensures caller != 0 && forall c :: c in l.escrows ==> l.escrows[c] != caller
  {
    hide LedgerOk, Moved;
    TokenBacked(l, t);
    SpendMoves(l, t, l.self, caller, escrow, v, l'.tokens[t], l');
    SpenderIsNoEscrow(l, t, l.self, caller, escrow, v);
  }

  /** A send takes the amount from the caller into the escrow, or out of existence if the token is going home. */
  lemma SendMoves(
    l: Ledger, caller: Address, sender: Address, client: bytes, t: Address, v: uint256, receiver: bytes, memo: bytes,
    created: Address, l': Ledger, data: TransferData)
    requires LedgerOk(l)
    requires SendTransfer(l, caller, sender, client, t, v, receiver, memo, created) == Ok((l', data))
    ensures client in l'.escrows && data.denom == DenomOf(l, t)
    ensures caller != 0 && v > 0 && forall c :: c in l'.escrows ==> l'.escrows[c] != caller
    ensures data == TransferData(DenomOf(l, t), ToHexString(sender), receiver, v, memo)
    ensures Moved(l, l', t, caller, if CameOver(client, data.denom) then 0 else l'.escrows[client], v)
  {
    hide LedgerOk, Extends, Shift, Moved, TokenFor, CameOver, ToHexString, PullIn;
    var l1, escrow, l2, burned := SendStages(l, caller, sender, client, t, v, receiver, memo, created, l', data);
    EscrowForKeeps(l, client, created, l1, escrow);
    PullInKeeps(l1, t, caller, escrow, v, l2);
    DenomNamesToken(l2, t);
    PullMoves(l1, t, caller, escrow, v, l2);
    SameBalances(l, l1, l2, t, caller, escrow, v);
    if burned {
      TokenBacked(l2, t);
      UpdateMoves(l2, t, escrow, 0, v, l'.tokens[t], l');
      MovedOn(l, l2, l', t, caller, escrow, 0, v);
    } else if t !in l2.denoms {
      NoSlashNoTrace(client, data.denom);
    }
  }

  lemma TokenBacked(l: Ledger, t: Address)
    requires LedgerOk(l) && t in l.tokens
    ensures Erc20.Backed(l.tokens[t])
  {
  }

  /** A delivery pays the receiver out of the escrow, or with newly issued vouchers. */
  lemma ReceiveMoves(
    l: Ledger, source: bytes, dest: bytes, payload: Payload, newEscrow: Address, newToken: Address, l': Ledger)
    returns (t: Address, receiver: Address)
    requires LedgerOk(l) && SlashFree(dest)
    requires ReceiveTransfer(l, source, dest, payload, newEscrow, newToken) == Ok(l')
    ensures payload.value.Transfer? && dest in l'.escrows && ParseAddress(payload.value.data.receiver) == Some(receiver)
    ensures receiver != 0
    ensures var data := payload.value.data;
      if CameOver(source, data.denom) then
        && UnwoundToken(l, Unwind(source, data.denom)) == Some(t)
        && Moved(l, l', t, l'.escrows[dest], receiver, data.amount)
      else
        && MappedToken(l', Trace(dest, data.denom)) == Some(t)
        && Moved(l, l', t, 0, receiver, data.amount)
  {
    hide LedgerOk, Extends, Shift, Moved, TokenFor, CameOver, Trace, Unwind, ParseDigits;
    var data := payload.value.data;
    var v: uint256 := data.amount;
    receiver := ParseAddress(data.receiver).value;
    if CameOver(source, data.denom) {
      var (l1, escrow) := EscrowFor(l, dest, newEscrow).value;
      EscrowForKeeps(l, dest, newEscrow, l1, escrow);
      t := UnwoundToken(l1, Unwind(source, data.denom)).value;
      TokenBacked(l1, t);
      UpdateMoves(l1, t, escrow, receiver, v, l'.tokens[t], l');
      SameBalances(l, l1, l', t, escrow, receiver, v);
    } else {
      t := ArrivalMoves(l, source, dest, payload, newEscrow, newToken, l', receiver);
    }
  }

  lemma ArrivalMoves(
    l: Ledger, source: bytes, dest: bytes, payload: Payload, newEscrow: Address, newToken: Address, l': Ledger,
    receiver: Address) returns (t: Address)
    requires LedgerOk(l) && SlashFree(dest)
    requires ReceiveTransfer(l, source, dest, payload, newEscrow, newToken) == Ok(l')
    requires !CameOver(source, payload.value.data.denom) && ParseAddress(payload.value.data.receiver) == Some(receiver)
    ensures dest in l'.escrows && MappedToken(l', Trace(dest, payload.value.data.denom)) == Some(t)
    ensures Moved(l, l', t, 0, receiver, payload.value.data.amount)
  {
    hide *;
    var l1, escrow, l2, voucher, l3, to := ArrivalStages(l, source, dest, payload, newEscrow, newToken, l');
    var denom, v: uint256 := payload.value.data.denom, payload.value.data.amount;
    t := voucher;
    EscrowForKeeps(l, dest, newEscrow, l1, escrow);
    VoucherForKeeps(l1, dest, denom, newToken, l2, t);
    NewVoucherEmpty(l1, Trace(dest, denom), escrow, newToken, l2, t);
    MintMoves(l2, t, escrow, v, l3);
    MintAtKeeps(l2, t, escrow, v, l3);
    PayOutMoves(l3, t, escrow, to, v, l');
    PayOutKeeps(l3, t, escrow, to, v, l');
    MovedOn(l2, l3, l', t, 0, escrow, to, v);
    MovedFromEmpty(l, l1, l2, l', t, to, v);
    MappedIn(l', Trace(dest, denom));
  }

  lemma MappedIn(l: Ledger, denom: bytes)
    requires denom in l.contracts
    ensures MappedToken(l, denom) == Some(l.contracts[denom])
  {
  }

  lemma MintMoves(l: Ledger, t: Address, e: Address, v: uint256, l': Ledger)
    requires LedgerOk(l) && MintAt(l, t, e, v) == Ok(l')
    ensures Moved(l, l', t, 0, e, v)
  {
    hide LedgerOk, Moved;
    TokenBacked(l, t);
    UpdateMoves(l, t, 0, e, v, l'.tokens[t], l');
  }

  lemma PayOutMoves(l: Ledger, t: Address, e: Address, to: Address, v: uint256, l': Ledger)
    requires LedgerOk(l) && PayOut(l, t, e, to, v) == Ok(l')
    ensures Moved(l, l', t, e, to, v)
  {
    hide LedgerOk, Moved;
    TokenBacked(l, t);
    UpdateMoves(l, t, e, to, v, l'.tokens[t], l');
  }

  /** A voucher that is created starts with nothing. */
  lemma NewVoucherEmpty(l: Ledger, trace: bytes, e: Address, created: Address, l': Ledger, t: Address)
    requires VoucherFor(l, trace, e, created) == Ok((l', t))
    ensures forall u: Address, a: Address :: Bal(l', u, a) == Bal(l, u, a)
    ensures forall u: Address :: Supply(l', u) == Supply(l, u)
  {
  }

  lemma MovedFromEmpty(l: Ledger, l1: Ledger, l2: Ledger, l': Ledger, t: Address, to: Address, v: int)
    requires l1.tokens == l.tokens
    requires forall u: Address, a: Address :: Bal(l2, u, a) == Bal(l1, u, a)
    requires forall u: Address :: Supply(l2, u) == Supply(l1, u)
    requires Moved(l2, l', t, 0, to, v)
    ensures Moved(l, l', t, 0, to, v)
  {
  }

  /** A refund pays the sender out of the escrow, or issues again what was burned. */
  lemma RefundMoves(l: Ledger, client: bytes, data: TransferData, t: Address, l': Ledger) returns (refundee: Address)
    requires LedgerOk(l) && RefundTransfer(l, client, data) == Ok(l') && RefundedToken(l, client, data.denom) == Some(t)
    ensures client in l.escrows && ParseAddress(data.sender) == Some(refundee) && refundee != 0
    ensures Moved(l, l', t, if CameOver(client, data.denom) then 0 else l.escrows[client], refundee, data.amount)
  {
    hide LedgerOk, Extends, Shift, Moved, TokenFor, CameOver, ParseDigits;
    var e, v: uint256 := l.escrows[client], data.amount;
    refundee := ParseAddress(data.sender).value;
    if CameOver(client, data.denom) {
      var l1 := MintAt(l, t, e, v).value;
      MintMoves(l, t, e, v, l1);
      MintAtKeeps(l, t, e, v, l1);
      PayOutMoves(l1, t, e, refundee, v, l');
      MovedOn(l, l1, l', t, 0, e, refundee, v);
    } else {
      PayOutMoves(l, t, e, refundee, v, l');
    }
  }

  /** What holders do moves exactly what they say; only non-vouchers are created and destroyed, and never out of an
      escrow. */
  lemma UserCallMoves(l: Ledger, t: Address, caller: Address, call: Erc20.TokenCall, l': Ledger)
    returns (from: Address, to: Address, v: uint256)
    requires LedgerOk(l) && UserCall(l, t, caller, call) == Ok(l')
    ensures Moved(l, l', t, from, to, v) && l'.escrows == l.escrows
    ensures from == 0 || to == 0 ==> v == 0 || t !in l.denoms
    ensures forall c :: c in l.escrows && l.escrows[c] == from ==> v == 0
    ensures match call
      case DoTransfer(payee, w) => from == caller && to == payee && v == w
      case DoTransferFrom(owner, payee, w) => from == owner && to == payee && v == w
      case DoMint(payee, w) => from == 0 && to == payee && v == w
      case DoBurn(holder, w) => from == holder && to == 0 && v == w
      case DoApprove(_, _) => v == 0
  {
    hide Extends, Shift, Moved, LedgerOk, Erc20.Backed;
    VouchersHaveHomes(l, t);
    TokenBacked(l, t);
    var token := l'.tokens[t];
    match call
    case DoTransfer(payee, w) =>
      from, to, v := caller, payee, w;
      UpdateMoves(l, t, from, to, v, token, l');
    case DoApprove(spender, w) =>
      from, to, v := 0, 0, 0;
      ApproveMovesNothing(l, t, token, l');
    case DoTransferFrom(owner, payee, w) =>
      from, to, v := owner, payee, w;
      SpendMoves(l, t, caller, from, to, v, token, l');
      SpenderIsNoEscrow(l, t, caller, from, to, v);
    case DoMint(payee, w) =>
      from, to, v := 0, payee, w;
      UpdateMoves(l, t, 0, to, v, token, l');
      EscrowsNonZero(l);
    case DoBurn(holder, w) =>
      from, to, v := holder, 0, w;
      UpdateMoves(l, t, from, 0, v, token, l');
  }

  /** Escrows approve nobody, so nothing is ever spent out of one. */
  lemma SpenderIsNoEscrow(l: Ledger, t: Address, spender: Address, from: Address, to: Address, v: uint256)
    requires LedgerOk(l) && t in l.tokens && Erc20.TransferFrom(l.tokens[t], spender, from, to, v).Ok?
    ensures forall c :: c in l.escrows && l.escrows[c] == from ==> v == 0
  {
    assert NoAllowance(l.tokens[t], l.escrows);
    forall c | c in l.escrows && l.escrows[c] == from ensures v == 0 {
      assert Erc20.Allowance(l.tokens[t], l.escrows[c], spender) == 0;
    }
  }

  lemma ApproveMovesNothing(l: Ledger, t: Address, token: Token, l': Ledger)
    requires t in l.tokens && token == l.tokens[t].(allowances := token.allowances)
    requires l' == l.(tokens := l.tokens[t := token])
    ensures Moved(l, l', t, 0, 0, 0)
  {
  }

  /** A send that is refunded to its caller leaves every balance and every supply of every token as it was. */
  lemma RefundUndoesSend(
    l: Ledger, caller: Address, client: bytes, t: Address, v: uint256, receiver: bytes, memo: bytes,
    created: Address, l1: Ledger, data: TransferData, l2: Ledger)
    requires LedgerOk(l)
    requires SendTransfer(l, caller, caller, client, t, v, receiver, memo, created) == Ok((l1, data))
    requires RefundTransfer(l1, client, data) == Ok(l2)
    ensures forall u: Address, a: Address :: a != 0 ==> Bal(l2, u, a) == Bal(l, u, a)
    ensures forall u: Address :: Supply(l2, u) == Supply(l, u)
  {
    hide LedgerOk, Extends, Shift, TokenFor, CameOver, ParseDigits, SendTransfer, RefundTransfer, ToHexString;
    SendMoves(l, caller, caller, client, t, v, receiver, memo, created, l1, data);
    SendKeeps(l, caller, caller, client, t, v, receiver, memo, created, l1, data);
    AddressRoundTrip(caller);
    RefundsInKind(l1, client, data.denom);
    var refundee := RefundMoves(l1, client, data, t, l2);
    assert refundee == caller;
  }
}
