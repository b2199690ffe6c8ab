/** The voucher token IBCERC20: an ERC20 whose supply only the ICS20 contract changes, and only at the escrow.
    Additions to balances and the subtraction from the supply are unchecked, so they are written modulo 2^256. */
module Erc20 {
  import opened Bytes

  datatype Token = Token(balances: map<Address, uint256>, allowances: map<(Address, Address), uint256>, supply: uint256)

  const EMPTY: Token := Token(map[], map[], 0)
  const MAX_ALLOWANCE: uint256 := TWO_256 - 1

  function BalanceOf(t: Token, a: Address): uint256 {
    if a in t.balances then t.balances[a] else 0
  }

  function Allowance(t: Token, owner: Address, spender: Address): uint256 {
    if (owner, spender) in t.allowances then t.allowances[(owner, spender)] else 0
  }

  function Debit(t: Token, from: Address, v: uint256): Result<Token> {
    if from == 0 then
      if t.supply + v >= TWO_256 then Err("arithmetic overflow") else Ok(t.(supply := t.supply + v))
    else if BalanceOf(t, from) < v then Err("ERC20InsufficientBalance")
    else Ok(t.(balances := t.balances[from := BalanceOf(t, from) - v]))
  }

  function Credit(t: Token, to: Address, v: uint256): Token {
    if to == 0 then t.(supply := (t.supply - v) % TWO_256)
    else t.(balances := t.balances[to := (BalanceOf(t, to) + v) % TWO_256])
  }

  /** Moves `v` tokens; the zero address stands for creation and destruction. */
  function Update(t: Token, from: Address, to: Address, v: uint256): Result<Token> {
    match Debit(t, from, v)
    case Err(e) => Err(e)
    case Ok(t1) => Ok(Credit(t1, to, v))
  }

  function Transfer(t: Token, from: Address, to: Address, v: uint256): Result<Token> {
    if from == 0 then Err("ERC20InvalidSender")
    else if to == 0 then Err("ERC20InvalidReceiver")
    else Update(t, from, to, v)
  }

  function Approve(t: Token, owner: Address, spender: Address, v: uint256): Result<Token> {
    if owner == 0 then Err("ERC20InvalidApprover")
    else if spender == 0 then Err("ERC20InvalidSpender")
    else Ok(t.(allowances := t.allowances[(owner, spender) := v]))
  }

  /** An allowance of 2^256 - 1 is never used up. */
  function TransferFrom(t: Token, spender: Address, from: Address, to: Address, v: uint256): Result<Token> {
    var current := Allowance(t, from, spender);
    if current == MAX_ALLOWANCE then Transfer(t, from, to, v)
    else if current < v then Err("ERC20InsufficientAllowance")
    else match Approve(t, from, spender, current - v)
      case Err(e) => Err(e)
      case Ok(t1) => Transfer(t1, from, to, v)
  }

  function Mint(t: Token, to: Address, v: uint256): Result<Token> {
    if to == 0 then Err("ERC20InvalidReceiver") else Update(t, 0, to, v)
  }

  function Burn(t: Token, from: Address, v: uint256): Result<Token> {
    if from == 0 then Err("ERC20InvalidSender") else Update(t, from, 0, v)
  }

  // The sum of all balances

  ghost function Total(m: map<Address, uint256>): nat {
    if m == map[] then 0 else var a :| a in m; m[a] + Total(m - {a})
  }

  lemma {:induction false} TotalSplit(m: map<Address, uint256>, a: Address)
    requires a in m
    ensures Total(m) == m[a] + Total(m - {a})
    decreases |m|
  {
    var b :| b in m && Total(m) == m[b] + Total(m - {b});
    if a != b {
      TotalSplit(m - {b}, a);
      TotalSplit(m - {a}, b);
      assert m - {a} - {b} == m - {b} - {a};
    }
  }

  lemma TotalSet(m: map<Address, uint256>, a: Address, v: uint256)
    ensures Total(m[a := v]) == Total(m) - (if a in m then m[a] else 0) + v
  {
    TotalSplit(m[a := v], a);
    if a in m {
      TotalSplit(m, a);
      assert m[a := v] - {a} == m - {a};
    } else {
      assert m[a := v] - {a} == m;
    }
  }

  /** The accounts hold the supply, no more and no less. */
  ghost predicate Backed(t: Token) {
    Total(t.balances) == t.supply
  }

  lemma DebitExact(t: Token, from: Address, v: uint256)
    requires Backed(t) && Debit(t, from, v).Ok?
    ensures var t1 := Debit(t, from, v).value;
      && Total(t1.balances) + v == t1.supply && t1.allowances == t.allowances
      && t1.supply == t.supply + (if from == 0 then v else 0)
      && forall a: Address :: a != 0 ==> BalanceOf(t1, a) == BalanceOf(t, a) - (if a == from then v else 0)
  {
    if from != 0 {
      TotalSet(t.balances, from, BalanceOf(t, from) - v);
    }
  }

  lemma ModSmall(n: nat)
    requires n < TWO_256
    ensures n % TWO_256 == n
  {
  }

  lemma CreditExact(t: Token, to: Address, v: uint256)
    requires Total(t.balances) + v == t.supply
    ensures var t1 := Credit(t, to, v);
      && Backed(t1) && t1.allowances == t.allowances
      && t1.supply == t.supply - (if to == 0 then v else 0)
      && forall a: Address :: a != 0 ==> BalanceOf(t1, a) == BalanceOf(t, a) + (if a == to then v else 0)
  {
    if to != 0 {
      if to in t.balances {
        TotalSplit(t.balances, to);
      }
      ModSmall(BalanceOf(t, to) + v);
      TotalSet(t.balances, to, BalanceOf(t, to) + v);
    } else {
      ModSmall(t.supply - v);
    }
  }

  /** No unchecked operation wraps: a move takes `v` from one account, gives exactly `v` to the other, leaves every
      third account alone, and keeps the accounts equal to the supply. */
  lemma UpdateExact(t: Token, from: Address, to: Address, v: uint256)
    requires Backed(t) && Update(t, from, to, v).Ok?
    ensures var t' := Update(t, from, to, v).value;
      && Backed(t') && t'.allowances == t.allowances
      && t'.supply == t.supply + (if from == 0 then v else 0) - (if to == 0 then v else 0)
      && forall a: Address :: a != 0 ==>
           BalanceOf(t', a) == BalanceOf(t, a) - (if a == from then v else 0) + (if a == to then v else 0)
  {
    DebitExact(t, from, v);
    CreditExact(Debit(t, from, v).value, to, v);
  }

  // Runs of the contract

  datatype TokenCall =
    | DoTransfer(to: Address, v: uint256)
    | DoApprove(spender: Address, v: uint256)
    | DoTransferFrom(from: Address, to: Address, v: uint256)
    | DoMint(at: Address, v: uint256)
    | DoBurn(at: Address, v: uint256)

  /** Who may do what: transfers and approvals are open, creation and destruction are not. */
  function Execute(t: Token, ics20: Address, escrow: Address, caller: Address, call: TokenCall): Result<Token> {
    match call
    case DoTransfer(to, v) => Transfer(t, caller, to, v)
    case DoApprove(spender, v) => Approve(t, caller, spender, v)
    case DoTransferFrom(from, to, v) => TransferFrom(t, caller, from, to, v)
    case DoMint(at, v) =>
      if caller != ics20 then Err("IBCERC20Unauthorized")
      else if at != escrow then Err("IBCERC20NotEscrow") else Mint(t, at, v)
    case DoBurn(at, v) =>
      if caller != ics20 then Err("IBCERC20Unauthorized")
      else if at != escrow then Err("IBCERC20NotEscrow") else Burn(t, at, v)
  }

  /** Which calls succeed. */
  lemma ExecuteIff(t: Token, ics20: Address, escrow: Address, caller: Address, call: TokenCall)
    ensures Execute(t, ics20, escrow, caller, call).Ok? <==>
      match call
      case DoTransfer(to, v) => caller != 0 && to != 0 && BalanceOf(t, caller) >= v
      case DoApprove(spender, v) => caller != 0 && spender != 0
      case DoTransferFrom(from, to, v) =>
        && from != 0 && to != 0 && BalanceOf(t, from) >= v && Allowance(t, from, caller) >= v
        && (caller != 0 || Allowance(t, from, caller) == TWO_256 - 1)
      case DoMint(at, v) => caller == ics20 && at == escrow && at != 0 && t.supply + v < TWO_256
      case DoBurn(at, v) => caller == ics20 && at == escrow && at != 0 && BalanceOf(t, at) >= v
  {
  }

  function RunCalls(ics20: Address, escrow: Address, calls: seq<(Address, TokenCall)>): Token {
    if calls == [] then EMPTY
    else
      var before := RunCalls(ics20, escrow, calls[..|calls| - 1]);
      var (caller, call) := calls[|calls| - 1];
      match Execute(before, ics20, escrow, caller, call)
      case Ok(after) => after
      case Err(_) => before
  }

  /** What the successful mints by the ICS20 contract created, less what its burns destroyed. */
  function Issued(ics20: Address, escrow: Address, calls: seq<(Address, TokenCall)>): int {
    if calls == [] then 0
    else
      var rest := calls[..|calls| - 1];
      var (caller, call) := calls[|calls| - 1];
      Issued(ics20, escrow, rest) +
      if caller != ics20 || Execute(RunCalls(ics20, escrow, rest), ics20, escrow, caller, call).Err? then 0
      else if call.DoMint? then call.v
      else if call.DoBurn? then 0 - call.v
      else 0
  }

  /** Spending moves exactly `v` and costs exactly `v` of one allowance, unless that is unlimited. */
  lemma TransferFromExact(t: Token, spender: Address, from: Address, to: Address, v: uint256)
    requires Backed(t) && TransferFrom(t, spender, from, to, v).Ok?
    ensures var t' := TransferFrom(t, spender, from, to, v).value;
      && Backed(t') && t'.supply == t.supply && Allowance(t, from, spender) >= v
      && (forall a: Address :: a != 0 ==>
            BalanceOf(t', a) == BalanceOf(t, a) - (if a == from then v else 0) + (if a == to then v else 0))
      && (forall o: Address, s: Address :: Allowance(t', o, s) ==
            Allowance(t, o, s) - (if (o, s) == (from, spender) && Allowance(t, o, s) != MAX_ALLOWANCE then v else 0))
  {
    hide Update, Total;
    var current := Allowance(t, from, spender);
    var spent := if current == MAX_ALLOWANCE then t else Approve(t, from, spender, current - v).value;
    UpdateExact(spent, from, to, v);
  }

  /** `v` went from one account to another, the zero address standing for creation and destruction. */
  ghost predicate Moved(t: Token, t': Token, from: Address, to: Address, v: int) {
    && t'.supply == t.supply + (if from == 0 then v else 0) - (if to == 0 then v else 0)
    && forall a: Address :: a != 0 ==>
         BalanceOf(t', a) == BalanceOf(t, a) - (if a == from then v else 0) + (if a == to then v else 0)
  }

  /** The allowance of `spender` over the tokens of `owner` is now `v`, and every other one is as it was. */
  ghost predicate Allowed(t: Token, t': Token, owner: Address, spender: Address, v: int) {
    forall o: Address, s: Address ::
      Allowance(t', o, s) == if (o, s) == (owner, spender) then v else Allowance(t, o, s)
  }

  /** What each call does to balances, allowances and supply, to the unit. */
  lemma ExecuteExact(t: Token, ics20: Address, escrow: Address, caller: Address, call: TokenCall)
    requires Backed(t) && Execute(t, ics20, escrow, caller, call).Ok?
    ensures var t' := Execute(t, ics20, escrow, caller, call).value;
      && Backed(t')
      && t'.supply == t.supply + (if call.DoMint? then call.v else 0) - (if call.DoBurn? then call.v else 0)
      && match call
         case DoTransfer(to, v) => Moved(t, t', caller, to, v) && t'.allowances == t.allowances
         case DoApprove(spender, v) => t'.balances == t.balances && Allowed(t, t', caller, spender, v)
         case DoTransferFrom(from, to, v) =>
           var current := Allowance(t, from, caller);
           Moved(t, t', from, to, v) &&
           Allowed(t, t', from, caller, if current == TWO_256 - 1 then current else current - v)
         case DoMint(at, v) => Moved(t, t', 0, at, v) && t'.allowances == t.allowances
         case DoBurn(at, v) => Moved(t, t', at, 0, v) && t'.allowances == t.allowances
  {
    hide Update, Total;
    match call
    case DoTransfer(to, v) => UpdateExact(t, caller, to, v);
    case DoApprove(_, _) =>
    case DoTransferFrom(from, to, v) => TransferFromExact(t, caller, from, to, v);
    case DoMint(at, v) => UpdateExact(t, 0, at, v);
    case DoBurn(at, v) => UpdateExact(t, at, 0, v);
  }

  /** After any calls by anyone the accounts add up to the supply, and the supply is what ICS20 issued. */
  lemma {:induction false} RunBacked(ics20: Address, escrow: Address, calls: seq<(Address, TokenCall)>)
    ensures Backed(RunCalls(ics20, escrow, calls))
    ensures RunCalls(ics20, escrow, calls).supply == Issued(ics20, escrow, calls)
  {
    if calls != [] {
      var rest := calls[..|calls| - 1];
      var (caller, call) := calls[|calls| - 1];
      RunBacked(ics20, escrow, rest);
      var before := RunCalls(ics20, escrow, rest);
      if Execute(before, ics20, escrow, caller, call).Ok? {
        ExecuteExact(before, ics20, escrow, caller, call);
      }
    }
  }

  // The contract

  class IBCERC20 {
    const ics20: Address
    const escrow: Address
    var balances: map<Address, uint256>
    var allowances: map<(Address, Address), uint256>
    var totalSupply: uint256

    constructor (ics20: Address, escrow: Address)
      ensures this.ics20 == ics20 && this.escrow == escrow && Value() == EMPTY
    {
      this.ics20, this.escrow := ics20, escrow;
      balances, allowances, totalSupply := map[], map[], 0;
    }

    function Value(): Token
      reads this
    {
      Token(balances, allowances, totalSupply)
    }

    /** On success the token is what the specification says; a revert leaves it untouched. */
    ghost predicate Became(was: Token, spec: Result<Token>, ok: bool)
      reads this
    {
      ok == spec.Ok? && Value() == if ok then spec.value else was
    }

    method MoveTokens(from: Address, to: Address, v: uint256) returns (ok: bool)
      modifies this
      ensures Became(old(Value()), Update(old(Value()), from, to, v), ok)
    {
      if from == 0 {
        if totalSupply + v >= TWO_256 { return false; }
        totalSupply := totalSupply + v;
      } else {
        var balance := if from in balances then balances[from] else 0;
        if balance < v { return false; }
        balances := balances[from := balance - v];
      }
      if to == 0 {
        totalSupply := (totalSupply - v) % TWO_256;
      } else {
        var balance := if to in balances then balances[to] else 0;
        balances := balances[to := (balance + v) % TWO_256];
      }
      return true;
    }

    method TransferTo(caller: Address, to: Address, v: uint256) returns (ok: bool)
      modifies this
      ensures Became(old(Value()), Execute(old(Value()), ics20, escrow, caller, DoTransfer(to, v)), ok)
    {
      if caller == 0 || to == 0 { return false; }
      ok := MoveTokens(caller, to, v);
    }

    method ApproveSpender(caller: Address, spender: Address, v: uint256) returns (ok: bool)
      modifies this
      ensures Became(old(Value()), Execute(old(Value()), ics20, escrow, caller, DoApprove(spender, v)), ok)
    {
      if caller == 0 || spender == 0 { return false; }
      allowances := allowances[(caller, spender) := v];
      return true;
    }

    method TransferBetween(caller: Address, from: Address, to: Address, v: uint256) returns (ok: bool)
      modifies this
      ensures Became(old(Value()), Execute(old(Value()), ics20, escrow, caller, DoTransferFrom(from, to, v)), ok)
    {
      var was := allowances;
      var current := if (from, caller) in allowances then allowances[(from, caller)] else 0;
      if current < MAX_ALLOWANCE {
        if current < v || from == 0 || caller == 0 { return false; }
        allowances := allowances[(from, caller) := current - v];
      }
      if from == 0 || to == 0 {
        allowances := was;
        return false;
      }
      ok := MoveTokens(from, to, v);
      if !ok {
        allowances := was;
      }
    }

    method MintAt(caller: Address, at: Address, v: uint256) returns (ok: bool)
      modifies this
      ensures Became(old(Value()), Execute(old(Value()), ics20, escrow, caller, DoMint(at, v)), ok)
    {
      if caller != ics20 || at != escrow || at == 0 { return false; }
      ok := MoveTokens(0, at, v);
    }

    method BurnAt(caller: Address, at: Address, v: uint256) returns (ok: bool)
      modifies this
      ensures Became(old(Value()), Execute(old(Value()), ics20, escrow, caller, DoBurn(at, v)), ok)
    {
      if caller != ics20 || at != escrow || at == 0 { return false; }
      ok := MoveTokens(at, 0, v);
    }
  }
}
