/** The client router: client identifiers are generated, or chosen and validated. */
module Clients {
  import opened Bytes
  import opened Denoms

  /** "client-" */
  const CLIENT_PREFIX: bytes := [0x63, 0x6c, 0x69, 0x65, 0x6e, 0x74, 0x2d]

  /** "channel-" */
  const CHANNEL_PREFIX: bytes := [0x63, 0x68, 0x61, 0x6e, 0x6e, 0x65, 0x6c, 0x2d]

  /** Letters, digits and . _ + - # [ ] < > */
  predicate Allowed(c: byte) {
    || 0x61 <= c <= 0x7a || 0x30 <= c <= 0x39 || 0x41 <= c <= 0x5a
    || c in [0x2e, 0x5f, 0x2b, 0x2d] || c in [0x23, 0x5b, 0x5d, 0x3c, 0x3e]
  }

  predicate ValidCustom(id: bytes) {
    && 4 <= |id| <= 128 && !HasPrefix(id, CHANNEL_PREFIX) && !HasPrefix(id, CLIENT_PREFIX)
    && forall i :: 0 <= i < |id| ==> Allowed(id[i])
  }

  method ValidateCustomIBCIdentifier(id: bytes) returns (ok: bool)
    ensures ok == ValidCustom(id)
  {
    if |id| < 4 || |id| > 128 { return false; }
    if HasPrefix(id, CHANNEL_PREFIX) || HasPrefix(id, CLIENT_PREFIX) { return false; }
    for i := 0 to |id|
      invariant forall j :: 0 <= j < i ==> Allowed(id[j])
    {
      if !Allowed(id[i]) {
        return false;
      }
    }
    return true;
  }

  function Decimal(n: nat): (s: bytes)
    ensures s != [] && forall i :: 0 <= i < |s| ==> 0x30 <= s[i] <= 0x39
  {
    if n < 10 then [0x30 + n] else Decimal(n / 10) + [0x30 + n % 10]
  }

  /** What a string of decimal digits denotes. */
  function FromDecimal(s: bytes): int {
    if s == [] then 0 else 10 * FromDecimal(s[..|s| - 1]) + s[|s| - 1] - 0x30
  }

  /** Decimal notation, without leading zeros. */
  lemma {:induction false} DecimalReadsBack(n: nat)
    ensures FromDecimal(Decimal(n)) == n
    ensures n > 0 ==> Decimal(n)[0] != 0x30
  {
    var s := Decimal(n);
    if n >= 10 {
      DecimalReadsBack(n / 10);
      assert s[..|s| - 1] == Decimal(n / 10);
    } else {
      assert s[..0] == [] && FromDecimal([]) == 0;
    }
  }

  function Generated(n: nat): bytes {
    CLIENT_PREFIX + Decimal(n)
  }

  /** `None` in the source's mapping is the zero address. */
  datatype Registry = Registry(nextSeq: uint256, clients: map<bytes, Address>, counterparties: map<bytes, bytes>)

  function ClientAt(r: Registry, id: bytes): Address {
    if id in r.clients then r.clients[id] else 0
  }

  function Add(r: Registry, id: bytes, counterparty: bytes, client: Address): Result<Registry> {
    if ClientAt(r, id) != 0 then Err("IBCClientAlreadyExists")
    else Ok(r.(clients := r.clients[id := client], counterparties := r.counterparties[id := counterparty]))
  }

  datatype Call =
    | AddGenerated(counterparty: bytes, client: Address)
    | AddCustom(authorized: bool, id: bytes, counterparty: bytes, client: Address)
    | Migrate(authorized: bool, id: bytes, counterparty: bytes, client: Address)

  function Execute(r: Registry, call: Call): Result<Registry> {
    match call
    case AddGenerated(counterparty, client) =>
      if r.nextSeq + 1 >= TWO_256 then Err("arithmetic overflow")
      else Add(r.(nextSeq := r.nextSeq + 1), Generated(r.nextSeq), counterparty, client)
    case AddCustom(authorized, id, counterparty, client) =>
      if !authorized then Err("AccessManagedUnauthorized")
      else if id == [] || !ValidCustom(id) then Err("IBCInvalidClientId")
      else Add(r, id, counterparty, client)
    case Migrate(authorized, id, counterparty, client) =>
      if !authorized then Err("AccessManagedUnauthorized")
      else if ClientAt(r, id) == 0 then Err("IBCClientNotFound")
      else Ok(r.(clients := r.clients[id := client], counterparties := r.counterparties[id := counterparty]))
  }

  /** Client and counterparty under `id` are these, and everything under other identifiers is as it was. */
  ghost predicate Registered(r: Registry, r': Registry, id: bytes, counterparty: bytes, client: Address) {
    && ClientAt(r', id) == client && id in r'.counterparties && r'.counterparties[id] == counterparty
    && (forall other :: other != id ==> ClientAt(r', other) == ClientAt(r, other))
    && (forall other :: other != id ==> (other in r'.counterparties <==> other in r.counterparties))
    && (forall other :: other != id && other in r.counterparties ==>
          r'.counterparties[other] == r.counterparties[other])
  }

  /** Which calls succeed, and what they leave behind. */
  lemma ExecuteIff(r: Registry, call: Call)
    ensures Execute(r, call).Ok? <==>
      match call
      case AddGenerated(_, _) => r.nextSeq < TWO_256 - 1 && ClientAt(r, Ascii("client-") + Decimal(r.nextSeq)) == 0
      case AddCustom(authorized, id, _, _) => authorized && ValidCustom(id) && ClientAt(r, id) == 0
      case Migrate(authorized, id, _, _) => authorized && ClientAt(r, id) != 0
    ensures Execute(r, call).Ok? ==>
      var r' := Execute(r, call).value;
      match call
      case AddGenerated(counterparty, client) =>
        r'.nextSeq == r.nextSeq + 1 && Registered(r, r', Ascii("client-") + Decimal(r.nextSeq), counterparty, client)
      case AddCustom(_, id, counterparty, client) =>
        r'.nextSeq == r.nextSeq && Registered(r, r', id, counterparty, client)
      case Migrate(_, id, counterparty, client) =>
        r'.nextSeq == r.nextSeq && Registered(r, r', id, counterparty, client)
  {
    assert Ascii("client-") == CLIENT_PREFIX;
  }

  /** Which identifiers may be chosen. */
  lemma CustomIsSpelled(id: bytes)
    ensures ValidCustom(id) <==>
      && 4 <= |id| <= 128 && !(Ascii("channel-") <= id) && !(Ascii("client-") <= id)
      && forall i :: 0 <= i < |id| ==>
           || Ascii("a")[0] <= id[i] <= Ascii("z")[0] || Ascii("A")[0] <= id[i] <= Ascii("Z")[0]
           || Ascii("0")[0] <= id[i] <= Ascii("9")[0] || id[i] in Ascii("._+-#[]<>")
  {
    assert Ascii("channel-") == CHANNEL_PREFIX && Ascii("client-") == CLIENT_PREFIX;
    assert Ascii("._+-#[]<>") == [0x2e, 0x5f, 0x2b, 0x2d, 0x23, 0x5b, 0x5d, 0x3c, 0x3e];
    assert Ascii("channel-") <= id <==> HasPrefix(id, CHANNEL_PREFIX);
    assert Ascii("client-") <= id <==> HasPrefix(id, CLIENT_PREFIX);
  }

  function Run(calls: seq<Call>): Registry {
    if calls == [] then Registry(0, map[], map[])
    else
      var before := Run(calls[..|calls| - 1]);
      match Execute(before, calls[|calls| - 1])
      case Ok(after) => after
      case Err(_) => before
  }

  /** Every identifier was generated earlier or is a valid chosen one. */
  ghost predicate KnownId(r: Registry, id: bytes) {
    ValidCustom(id) || exists k: nat :: k < r.nextSeq && id == Generated(k)
  }

  ghost predicate IdsOk(r: Registry) {
    && (forall id :: id in r.clients ==> KnownId(r, id))
    && r.counterparties.Keys == r.clients.Keys
  }

  lemma KnownStays(r: Registry, r': Registry, id: bytes)
    requires KnownId(r, id) && r.nextSeq <= r'.nextSeq
    ensures KnownId(r', id)
  {
  }

  lemma ExecuteKeeps(r: Registry, call: Call)
    requires IdsOk(r) && Execute(r, call).Ok?
    ensures IdsOk(Execute(r, call).value)
  {
    var r' := Execute(r, call).value;
    forall id | id in r'.clients ensures KnownId(r', id) {
      if id in r.clients {
        KnownStays(r, r', id);
      }
    }
  }

  lemma {:induction false} RunKeeps(calls: seq<Call>)
    ensures IdsOk(Run(calls))
  {
    if calls != [] {
      RunKeeps(calls[..|calls| - 1]);
      var before, last := Run(calls[..|calls| - 1]), calls[|calls| - 1];
      if Execute(before, last).Ok? {
        ExecuteKeeps(before, last);
      }
    }
  }

  /** No chosen identifier is ever in the way of a generated one: anyone can add a client at any time, under an
      identifier no client had before. */
  lemma GeneratedIsNew(calls: seq<Call>, counterparty: bytes, client: Address)
    requires Run(calls).nextSeq + 1 < TWO_256
    ensures var r := Run(calls);
      && Execute(r, AddGenerated(counterparty, client)).Ok? && Generated(r.nextSeq) !in r.clients
      && Registered(r, Execute(r, AddGenerated(counterparty, client)).value, Generated(r.nextSeq), counterparty, client)
  {
    var r := Run(calls);
    var id := Generated(r.nextSeq);
    RunKeeps(calls);
    assert id[..|CLIENT_PREFIX|] == CLIENT_PREFIX;
    if id in r.clients {
      var k: nat :| k < r.nextSeq && id == Generated(k);
      SplitAtHead(CLIENT_PREFIX, Decimal(r.nextSeq), CLIENT_PREFIX, Decimal(k));
      DecimalReadsBack(r.nextSeq);
      DecimalReadsBack(k);
    }
  }

  /** Every identifier that ever has a client is non-empty and has no slash in it, so it can stand in a trace. */
  lemma IdsAreSlashFree(calls: seq<Call>, id: bytes)
    requires id in Run(calls).clients
    ensures id != [] && SlashFree(id)
  {
    RunKeeps(calls);
    if !ValidCustom(id) {
      var k: nat :| id == Generated(k);
    }
  }

  /** The router's client storage. */
  class ICS02Client {
    var nextClientSeq: uint256
    var clients: map<bytes, Address>
    var counterpartyInfos: map<bytes, bytes>

    constructor ()
      ensures Value() == Run([])
    {
      nextClientSeq, clients, counterpartyInfos := 0, map[], map[];
    }

    function Value(): Registry
      reads this
    {
      Registry(nextClientSeq, clients, counterpartyInfos)
    }

    method Insert(id: bytes, counterparty: bytes, client: Address) returns (ok: bool)
      modifies this`clients, this`counterpartyInfos
      ensures ok == Add(old(Value()), id, counterparty, client).Ok?
      ensures Value() == if ok then Add(old(Value()), id, counterparty, client).value else old(Value())
    {
      if id in clients && clients[id] != 0 { return false; }
      clients := clients[id := client];
      counterpartyInfos := counterpartyInfos[id := counterparty];
      return true;
    }

    method AddClient(counterparty: bytes, client: Address) returns (id: Option<bytes>)
      modifies this
      ensures match Execute(old(Value()), AddGenerated(counterparty, client))
        case Ok(r) => Value() == r && id == Some(Generated(old(nextClientSeq)))
        case Err(_) => Value() == old(Value()) && id == None
    {
      if nextClientSeq + 1 >= TWO_256 { return None; }
      var generated := CLIENT_PREFIX + Decimal(nextClientSeq);
      nextClientSeq := nextClientSeq + 1;
      var ok := Insert(generated, counterparty, client);
      if !ok {
        nextClientSeq := nextClientSeq - 1;
        return None;
      }
      return Some(generated);
    }

    method AddCustomClient(authorized: bool, id: bytes, counterparty: bytes, client: Address) returns (ok: bool)
      modifies this
      ensures var spec := Execute(old(Value()), AddCustom(authorized, id, counterparty, client));
        ok == spec.Ok? && Value() == if ok then spec.value else old(Value())
    {
      if !authorized || id == [] { return false; }
      var valid := ValidateCustomIBCIdentifier(id);
      if !valid { return false; }
      ok := Insert(id, counterparty, client);
    }

    method MigrateClient(authorized: bool, id: bytes, counterparty: bytes, client: Address) returns (ok: bool)
      modifies this
      ensures var spec := Execute(old(Value()), Migrate(authorized, id, counterparty, client));
        ok == spec.Ok? && Value() == if ok then spec.value else old(Value())
    {
      if !authorized || id !in clients || clients[id] == 0 { return false; }
      counterpartyInfos := counterpartyInfos[id := counterparty];
      clients := clients[id := client];
      return true;
    }
  }
}
