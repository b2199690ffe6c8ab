/** The seeds of the ICS26 router's program-derived addresses on Solana. The runtime hashes them concatenated. */
module Seeds {
  import opened Bytes

  /** Sequences are passed as eight little-endian bytes. */
  datatype Seed =
    | AccessManager
    | Client(client: bytes)
    | IbcApp(port: bytes)
    | PacketAck(client: bytes, sequence: uint64)
    | PacketCommitment(client: bytes, sequence: uint64)
    | PacketReceipt(client: bytes, sequence: uint64)
    | RouterState

  function Word(s: Seed): string {
    match s
    case AccessManager => "access_manager"
    case Client(_) => "client"
    case IbcApp(_) => "ibc_app"
    case PacketAck(_, _) => "packet_ack"
    case PacketCommitment(_, _) => "packet_commitment"
    case PacketReceipt(_, _) => "packet_receipt"
    case RouterState => "router_state"
  }

  function Name(s: Seed): bytes {
    Ascii(Word(s))
  }

  function Arguments(s: Seed): bytes {
    match s
    case AccessManager => []
    case Client(client) => client
    case IbcApp(port) => port
    case PacketAck(client, sequence) => client + LittleEndian(sequence, 8)
    case PacketCommitment(client, sequence) => client + LittleEndian(sequence, 8)
    case PacketReceipt(client, sequence) => client + LittleEndian(sequence, 8)
    case RouterState => []
  }

  function Preimage(s: Seed): bytes {
    Name(s) + Arguments(s)
  }

  /** How the seeds are laid out: the word, then the client or port, then the sequence in eight bytes. */
  lemma PreimageLayout(s: Seed)
    ensures Preimage(s) ==
      match s
      case AccessManager => Ascii("access_manager")
      case Client(client) => Ascii("client") + client
      case IbcApp(port) => Ascii("ibc_app") + port
      case PacketAck(client, sequence) => Ascii("packet_ack") + client + LittleEndian(sequence, 8)
      case PacketCommitment(client, sequence) => Ascii("packet_commitment") + client + LittleEndian(sequence, 8)
      case PacketReceipt(client, sequence) => Ascii("packet_receipt") + client + LittleEndian(sequence, 8)
      case RouterState => Ascii("router_state")
  {
    hide LittleEndian, Ascii;
  }

  function Family(s: Seed): nat {
    match s
    case AccessManager => 0
    case Client(_) => 1
    case IbcApp(_) => 2
    case PacketAck(_, _) => 3
    case PacketCommitment(_, _) => 4
    case PacketReceipt(_, _) => 5
    case RouterState => 6
  }

  /** The first letter tells the families apart, or the eighth for the three kinds of packet record. */
  lemma SameFamily(s: Seed, t: Seed)
    requires Preimage(s) == Preimage(t)
    ensures Family(s) == Family(t) && Word(s) == Word(t)
  {
    Letters(s);
    Letters(t);
  }

  lemma Letters(s: Seed)
    ensures |Preimage(s)| >= |Word(s)| >= 6 && Preimage(s)[0] == Word(s)[0] as int
    ensures |Word(s)| > 7 ==> Preimage(s)[7] == Word(s)[7] as int
  {
  }

  lemma SequencedInjective(c: bytes, n: uint64, d: bytes, m: uint64)
    requires c + LittleEndian(n, 8) == d + LittleEndian(m, 8)
    ensures c == d && n == m
  {
    SplitAtTail(c, LittleEndian(n, 8), d, LittleEndian(m, 8));
    WordWidths();
    LittleEndianRoundTrip(n, 8);
    LittleEndianRoundTrip(m, 8);
  }

  /** No two records of the router, of any families, share their seeds. */
  lemma PreimageInjective(s: Seed, t: Seed)
    requires Preimage(s) == Preimage(t)
    ensures s == t
  {
    hide Preimage, Word;
    SameFamily(s, t);
    ArgumentsSame(s, t);
    match s
    case PacketAck(c, n) => SequencedInjective(c, n, t.client, t.sequence);
    case PacketCommitment(c, n) => SequencedInjective(c, n, t.client, t.sequence);
    case PacketReceipt(c, n) => SequencedInjective(c, n, t.client, t.sequence);
    case _ =>
  }

  lemma ArgumentsSame(s: Seed, t: Seed)
    requires Preimage(s) == Preimage(t) && Word(s) == Word(t)
    ensures Arguments(s) == Arguments(t)
  {
    SplitAtHead(Name(s), Arguments(s), Name(t), Arguments(t));
  }

  /** The seed of the account that records how a GMP call ended. */
  const GMP_RESULT: bytes := Ascii("gmp_result")

  function CallResultPreimage(client: bytes, sequence: uint64): bytes {
    GMP_RESULT + client + LittleEndian(sequence, 8)
  }

  lemma CallResultInjective(c: bytes, n: uint64, d: bytes, m: uint64)
    requires CallResultPreimage(c, n) == CallResultPreimage(d, m)
    ensures c == d && n == m
    ensures CallResultPreimage(c, n) == Ascii("gmp_result") + c + LittleEndian(n, 8)
  {
    SequencedInjective(GMP_RESULT + c, n, GMP_RESULT + d, m);
    SplitAtHead(GMP_RESULT, c, GMP_RESULT, d);
  }
}
