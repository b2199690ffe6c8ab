/** The ICS27 account registry: one account contract per (client, sender, salt), created at its CREATE2 address. */
module Accounts {
  import opened Bytes
  import opened Denoms
  import Clients
  import Router

  datatype AccountId = AccountId(clientId: bytes, sender: bytes, salt: bytes)

  /** The CREATE2 address of an identifier; the hash of the encoded identifier is the salt, the init code is fixed. */
  type Create2 = AccountId -> Address

  /** `accounts` is keyed by the hash of the encoded identifier, represented by the identifier. */
  datatype Registry = Registry(accounts: map<AccountId, Address>, accountIds: map<Address, AccountId>)

  /** CREATE2 fails at an address that already holds a contract, at the zero address, and when `deploys` is false. */
  function GetOrCreate(create2: Create2, r: Registry, id: AccountId, deploys: bool): Result<(Registry, Address)> {
    if id in r.accounts && r.accounts[id] != 0 then Ok((r, r.accounts[id]))
    else
      var a := create2(id);
      if !deploys || a == 0 || a in r.accountIds then Err("Create2FailedDeployment")
      else Ok((Registry(r.accounts[id := a], r.accountIds[a := id]), a))
  }

  function GetOrCompute(create2: Create2, r: Registry, id: AccountId): Address {
    if id in r.accounts && r.accounts[id] != 0 then r.accounts[id] else create2(id)
  }

  function GetIdentifier(r: Registry, account: Address): Result<AccountId> {
    if account !in r.accountIds || r.accountIds[account].clientId == [] then Err("ICS27AccountNotFound")
    else Ok(r.accountIds[account])
  }

  const VERSION := Ascii("ics27-2")

  const PORT := Ascii("gmpport")

  datatype PacketData = PacketData(sender: bytes, receiver: bytes, salt: bytes, payload: bytes)

  /** A packet's payload and client; `data` is `None` if it does not decode, `callOk` is the outcome of the call the
      account makes. */
  datatype Receive = Receive(
    destClient: bytes, version: bytes, sourcePort: bytes, encoding: bytes, destPort: bytes, data: Option<PacketData>,
    deploys: bool, callOk: bool)

  predicate Admissible(p: Receive) {
    && p.version == VERSION && p.sourcePort == PORT && p.encoding == Router.SOLIDITY_ABI && p.destPort == PORT
    && p.data.Some? && p.data.value.payload != []
  }

  function IdOf(p: Receive): AccountId
    requires p.data.Some?
  {
    AccountId(p.destClient, p.data.value.sender, p.data.value.salt)
  }

  /** The call that is made: by which account, to whom, with which data. */
  datatype Made = Made(account: Address, target: Address, payload: bytes)

  /** Nothing remains of a packet unless everything succeeds, the account's call included. */
  function OnReceive(create2: Create2, r: Registry, p: Receive): Result<(Registry, Made)> {
    if !Admissible(p) then Err("ICS27 payload rejected")
    else match GetOrCreate(create2, r, IdOf(p), p.deploys)
      case Err(e) => Err(e)
      case Ok((after, account)) =>
        if ParseAddress(p.data.value.receiver).None? then Err("ICS27InvalidReceiver")
        else if !p.callOk then Err("the call reverted")
        else Ok((after, Made(account, ParseAddress(p.data.value.receiver).value, p.data.value.payload)))
  }

  function Run(create2: Create2, r: Registry, packets: seq<Receive>): Registry {
    if packets == [] then r
    else
      var before := Run(create2, r, packets[..|packets| - 1]);
      match OnReceive(create2, before, packets[|packets| - 1])
      case Ok((after, _)) => after
      case Err(_) => before
  }

  const EMPTY := Registry(map[], map[])

  /** The two maps are inverse to each other and follow CREATE2. */
  ghost predicate RegistryOk(create2: Create2, r: Registry) {
    && (forall id :: id in r.accounts ==> (&& r.accounts[id] == create2(id) != 0
                                           && create2(id) in r.accountIds && r.accountIds[create2(id)] == id))
    && (forall a :: a in r.accountIds ==> r.accountIds[a] in r.accounts && r.accounts[r.accountIds[a]] == a)
  }

  lemma {:induction false} RunKeeps(create2: Create2, packets: seq<Receive>)
    ensures RegistryOk(create2, Run(create2, EMPTY, packets))
  {
    if packets != [] {
      RunKeeps(create2, packets[..|packets| - 1]);
    }
  }

  /** At every moment of every run, before and after it is created, an account has one address. Two identifiers whose
      addresses coincide cannot both have an account. */
  lemma AddressNeverChanges(create2: Create2, first: seq<Receive>, second: seq<Receive>, id: AccountId)
    ensures GetOrCompute(create2, Run(create2, EMPTY, first), id) ==
      GetOrCompute(create2, Run(create2, EMPTY, second), id) == create2(id)
    ensures var r := Run(create2, EMPTY, first);
      forall other :: id in r.accounts && other in r.accounts && r.accounts[id] == r.accounts[other] ==> other == id
  {
    RunKeeps(create2, first);
    RunKeeps(create2, second);
  }

  /** A new account is found under its identifier, and its identifier under its address exactly if the client id is not
      empty; every older account is found as before. */
  lemma CreatedIsFound(create2: Create2, packets: seq<Receive>, id: AccountId)
    requires GetOrCreate(create2, Run(create2, EMPTY, packets), id, true).Ok?
    ensures var r := Run(create2, EMPTY, packets);
      var (r', a) := GetOrCreate(create2, r, id, true).value;
      && a == GetOrCompute(create2, r, id) == GetOrCompute(create2, r', id)
      && GetIdentifier(r', a) == (if id.clientId != [] then Ok(id) else Err("ICS27AccountNotFound"))
      && (forall b :: b in r.accountIds ==> GetIdentifier(r', b) == GetIdentifier(r, b))
  {
    RunKeeps(create2, packets);
  }

  /** In every run a packet acts through the account of its own client, sender and salt, and calls its receiver with its
      payload; it is accepted exactly with the right version, encoding and ports, a payload, a receiver that parses, and
      a call that succeeds, unless the account cannot be created. No other account is touched. */
  lemma PacketActsForItsSender(create2: Create2, packets: seq<Receive>, p: Receive)
    ensures var r := Run(create2, EMPTY, packets);
      OnReceive(create2, r, p).Ok? <==>
        && p.version == Ascii("ics27-2") && p.encoding == Ascii("application/x-solidity-abi")
        && p.sourcePort == p.destPort == Ascii("gmpport")
        && p.data.Some? && p.data.value.payload != [] && ParseAddress(p.data.value.receiver).Some? && p.callOk
        && var id := AccountId(p.destClient, p.data.value.sender, p.data.value.salt);
        && (id in r.accounts || (p.deploys && create2(id) != 0 && create2(id) !in r.accountIds))
    ensures var r := Run(create2, EMPTY, packets);
      OnReceive(create2, r, p).Ok? ==>
        var (r', made) := OnReceive(create2, r, p).value;
        var id := AccountId(p.destClient, p.data.value.sender, p.data.value.salt);
        && made == Made(create2(id), ParseAddress(p.data.value.receiver).value, p.data.value.payload)
        && r'.accounts == r.accounts[id := create2(id)] && r'.accountIds == r.accountIds[create2(id) := id]
  {
    RunKeeps(create2, packets);
    var r := Run(create2, EMPTY, packets);
    if p.data.Some? {
      var id := AccountId(p.destClient, p.data.value.sender, p.data.value.salt);
      assert id in r.accounts ==> r.accounts[id := create2(id)] == r.accounts;
      assert id in r.accounts ==> r.accountIds[create2(id) := id] == r.accountIds;
    }
  }

  /** Every account is that of the client, sender and salt of a packet that was delivered. */
  lemma {:induction false} AccountsFromPackets(create2: Create2, packets: seq<Receive>, id: AccountId)
    requires id in Run(create2, EMPTY, packets).accounts
    ensures exists k :: 0 <= k < |packets| && IsFor(packets[k], id)
  {
    var last := |packets| - 1;
    if id in Run(create2, EMPTY, packets[..last]).accounts {
      AccountsFromPackets(create2, packets[..last], id);
      var k :| 0 <= k < last && IsFor(packets[..last][k], id);
      assert packets[k] == packets[..last][k];
    } else {
      PacketActsForItsSender(create2, packets[..last], packets[last]);
      assert IsFor(packets[last], id);
    }
  }

  predicate IsFor(p: Receive, id: AccountId) {
    && p.data.Some?
    && p.destClient == id.clientId && p.data.value.sender == id.sender && p.data.value.salt == id.salt
  }

  /** Over any run of packets that came through registered clients, every account that was ever created can be looked up
      both ways: by identifier and by address. */
  lemma AccountsAreFound(create2: Create2, registered: seq<Clients.Call>, packets: seq<Receive>, id: AccountId)
    requires forall k :: 0 <= k < |packets| ==> packets[k].destClient in Clients.Run(registered).clients
    requires id in Run(create2, EMPTY, packets).accounts
    ensures var r := Run(create2, EMPTY, packets);
      GetOrCompute(create2, r, id) == r.accounts[id] && GetIdentifier(r, r.accounts[id]) == Ok(id)
  {
    RunKeeps(create2, packets);
    AccountsFromPackets(create2, packets, id);
    var k :| 0 <= k < |packets| && IsFor(packets[k], id);
    Clients.IdsAreSlashFree(registered, packets[k].destClient);
  }

  /** The registry contract. */
  class ICS27GMP {
    const create2: Create2
    var accounts: map<AccountId, Address>
    var accountIds: map<Address, AccountId>

    constructor (create2: Create2)
      ensures Value() == EMPTY && this.create2 == create2
    {
      this.create2, accounts, accountIds := create2, map[], map[];
    }

    function Value(): Registry
      reads this
    {
      Registry(accounts, accountIds)
    }

    method GetOrCreateAccount(id: AccountId, deploys: bool) returns (account: Option<Address>)
      modifies this
      ensures match GetOrCreate(create2, old(Value()), id, deploys)
        case Ok((r, a)) => Value() == r && account == Some(a)
        case Err(_) => Value() == old(Value()) && account == None
    {
      if id in accounts && accounts[id] != 0 { return Some(accounts[id]); }
      var a := create2(id);
      if !deploys || a == 0 || a in accountIds { return None; }
      accounts := accounts[id := a];
      accountIds := accountIds[a := id];
      return Some(a);
    }

    method OnRecvPacket(p: Receive) returns (made: Option<Made>)
      modifies this
      ensures match OnReceive(create2, old(Value()), p)
        case Ok((r, m)) => Value() == r && made == Some(m)
        case Err(_) => Value() == old(Value()) && made == None
    {
      if p.version != VERSION || p.sourcePort != PORT { return None; }
      if p.encoding != Router.SOLIDITY_ABI || p.destPort != PORT { return None; }
      if p.data.None? || p.data.value.payload == [] { return None; }
      var snapshot := Value();
      var id := AccountId(p.destClient, p.data.value.sender, p.data.value.salt);
      var account := GetOrCreateAccount(id, p.deploys);
      if account.None? { return None; }
      var receiver := ParseAddress(p.data.value.receiver);
      if receiver.None? || !p.callOk {
        accounts, accountIds := snapshot.accounts, snapshot.accountIds;
        return None;
      }
      return Some(Made(account.value, receiver.value, p.data.value.payload));
    }
  }
}
