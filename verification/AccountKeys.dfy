/** The two byte strings from which GMP account addresses are hashed: Borsh with 32-bit little-endian lengths on Solana,
    and 64-bit big-endian lengths on Cosmos chains. */
module AccountKeys {
  import opened Bytes

  /** A Go conversion to `uint32` keeps the low bits of the length. */
  function Framed32(s: bytes): bytes {
    LittleEndian(|s| % TWO_32, 4) + s
  }

  function Framed64(s: bytes): bytes {
    BigEndian(|s| % TWO_64, 8) + s
  }

  function SolanaKey(client: bytes, sender: bytes, salt: bytes): bytes {
    Framed32(client) + Framed32(sender) + Framed32(salt)
  }

  function CosmosKey(client: bytes, sender: bytes, salt: bytes): bytes {
    Framed64(client) + Framed64(sender) + Framed64(salt)
  }

  /** `part` lies at `offset` of the key, after its length. */
  ghost predicate LiesAt(key: bytes, offset: nat, length: bytes, part: bytes) {
    && offset + |length| + |part| <= |key|
    && key[offset..offset + |length|] == length && key[offset + |length|..offset + |length| + |part|] == part
  }

  /** Client first, then sender, then salt, each after its length, and nothing else. */
  lemma SolanaKeyLayout(client: bytes, sender: bytes, salt: bytes)
    ensures var key := SolanaKey(client, sender, salt);
      && |key| == 12 + |client| + |sender| + |salt|
      && LiesAt(key, 0, LittleEndian(|client| % TWO_32, 4), client)
      && LiesAt(key, 4 + |client|, LittleEndian(|sender| % TWO_32, 4), sender)
      && LiesAt(key, 8 + |client| + |sender|, LittleEndian(|salt| % TWO_32, 4), salt)
  {
    hide LittleEndian;
    var key := SolanaKey(client, sender, salt);
    Parts(LittleEndian(|client| % TWO_32, 4), client, LittleEndian(|sender| % TWO_32, 4), sender,
          LittleEndian(|salt| % TWO_32, 4), salt, key);
  }

  lemma CosmosKeyLayout(client: bytes, sender: bytes, salt: bytes)
    ensures var key := CosmosKey(client, sender, salt);
      && |key| == 24 + |client| + |sender| + |salt|
      && LiesAt(key, 0, BigEndian(|client| % TWO_64, 8), client)
      && LiesAt(key, 8 + |client|, BigEndian(|sender| % TWO_64, 8), sender)
      && LiesAt(key, 16 + |client| + |sender|, BigEndian(|salt| % TWO_64, 8), salt)
  {
    hide BigEndian;
    var key := CosmosKey(client, sender, salt);
    Parts(BigEndian(|client| % TWO_64, 8), client, BigEndian(|sender| % TWO_64, 8), sender,
          BigEndian(|salt| % TWO_64, 8), salt, key);
  }

  lemma Parts(n: bytes, a: bytes, m: bytes, b: bytes, k: bytes, c: bytes, key: bytes)
    requires key == n + a + (m + b) + (k + c)
    ensures LiesAt(key, 0, n, a) && LiesAt(key, |n| + |a|, m, b) && LiesAt(key, |n| + |a| + |m| + |b|, k, c)
  {
  }

  /** Writes a 32-bit length over the buffer, which is used again for the next one. */
  method PutUint32(buffer: array<byte>, n: nat)
    requires buffer.Length == 4 && n < TWO_32
    modifies buffer
    ensures buffer[..] == LittleEndian(n, 4)
  {
    buffer[0] := n % 256;
    buffer[1] := n / 256 % 256;
    buffer[2] := n / 256 / 256 % 256;
    buffer[3] := n / 256 / 256 / 256 % 256;
    var m := n / 256 / 256;
    assert LittleEndian(m, 2) == [m % 256, m / 256 % 256];
    assert LittleEndian(n, 4) == [n % 256, n / 256 % 256] + LittleEndian(m, 2);
  }

  method GmpAccountKey(client: bytes, sender: bytes, salt: bytes) returns (data: bytes)
    ensures data == SolanaKey(client, sender, salt)
  {
    hide LittleEndian, Pow256;
    data := [];
    var lenBuf := new byte[4];
    PutUint32(lenBuf, |client| % TWO_32);
    data := data + lenBuf[..];
    data := data + client;
    PutUint32(lenBuf, |sender| % TWO_32);
    data := data + lenBuf[..];
    data := data + sender;
    assert data == Framed32(client) + Framed32(sender);
    PutUint32(lenBuf, |salt| % TWO_32);
    data := data + lenBuf[..];
    data := data + salt;
    assert data == Framed32(client) + Framed32(sender) + Framed32(salt);
  }

  method AppendLengthPrefixed(dst: bytes, data: bytes) returns (r: bytes)
    ensures r == dst + Framed64(data)
  {
    var lenBuf := BigEndian(|data| % TWO_64, 8);
    r := dst + lenBuf;
    r := r + data;
    assert r == dst + (lenBuf + data);
  }

  /** The capacity reserved up front is exactly the length of the key. */
  method BuildKey(client: bytes, sender: bytes, salt: bytes) returns (key: bytes, size: nat)
    ensures key == CosmosKey(client, sender, salt) && |key| == size
  {
    size := 8 + |client| + 8 + |sender| + 8 + |salt|;
    key := AppendLengthPrefixed([], client);
    key := AppendLengthPrefixed(key, sender);
    key := AppendLengthPrefixed(key, salt);
  }

  /** A prefix that fixes the length makes the data after it readable. */
  lemma PrefixedUnique(n: bytes, a: bytes, rest: bytes, m: bytes, b: bytes, rest': bytes)
    requires n + a + rest == m + b + rest' && |n| == |m| && (n == m ==> |a| == |b|)
    ensures a == b && rest == rest'
  {
    assert n + (a + rest) == n + a + rest && m + (b + rest') == m + b + rest';
    SplitAtHead(n, a + rest, m, b + rest');
    SplitAtHead(a, rest, b, rest');
  }

  lemma Framed32Unique(a: bytes, rest: bytes, b: bytes, rest': bytes)
    requires |a| < TWO_32 && |b| < TWO_32 && Framed32(a) + rest == Framed32(b) + rest'
    ensures a == b && rest == rest'
  {
    hide LittleEndian, FromLittleEndian, Pow256;
    WordWidths();
    LittleEndianRoundTrip(|a|, 4);
    LittleEndianRoundTrip(|b|, 4);
    PrefixedUnique(LittleEndian(|a|, 4), a, rest, LittleEndian(|b|, 4), b, rest');
  }

  lemma Framed64Unique(a: bytes, rest: bytes, b: bytes, rest': bytes)
    requires |a| < TWO_64 && |b| < TWO_64 && Framed64(a) + rest == Framed64(b) + rest'
    ensures a == b && rest == rest'
  {
    hide BigEndian, FromBigEndian, Pow256;
    WordWidths();
    BigEndianRoundTrip(|a|, 8);
    BigEndianRoundTrip(|b|, 8);
    PrefixedUnique(BigEndian(|a|, 8), a, rest, BigEndian(|b|, 8), b, rest');
  }

  /** Different identifiers never give the same preimage, as long as every length fits its prefix. */
  lemma SolanaKeyInjective(c: bytes, s: bytes, t: bytes, c': bytes, s': bytes, t': bytes)
    requires |c| < TWO_32 && |s| < TWO_32 && |t| < TWO_32 && |c'| < TWO_32 && |s'| < TWO_32 && |t'| < TWO_32
    requires SolanaKey(c, s, t) == SolanaKey(c', s', t')
    ensures c == c' && s == s' && t == t'
  {
    hide Framed32;
    var left, right := Framed32(s) + Framed32(t), Framed32(s') + Framed32(t');
    assert Framed32(c) + left == SolanaKey(c, s, t) && Framed32(c') + right == SolanaKey(c', s', t');
    Framed32Unique(c, left, c', right);
    Framed32Unique(s, Framed32(t), s', Framed32(t'));
    assert Framed32(t) + [] == Framed32(t) && Framed32(t') + [] == Framed32(t');
    Framed32Unique(t, [], t', []);
  }

  lemma CosmosKeyInjective(c: bytes, s: bytes, t: bytes, c': bytes, s': bytes, t': bytes)
    requires |c| < TWO_64 && |s| < TWO_64 && |t| < TWO_64 && |c'| < TWO_64 && |s'| < TWO_64 && |t'| < TWO_64
    requires CosmosKey(c, s, t) == CosmosKey(c', s', t')
    ensures c == c' && s == s' && t == t'
  {
    hide Framed64;
    var left, right := Framed64(s) + Framed64(t), Framed64(s') + Framed64(t');
    assert Framed64(c) + left == CosmosKey(c, s, t) && Framed64(c') + right == CosmosKey(c', s', t');
    Framed64Unique(c, left, c', right);
    Framed64Unique(s, Framed64(t), s', Framed64(t'));
    assert Framed64(t) + [] == Framed64(t) && Framed64(t') + [] == Framed64(t');
    Framed64Unique(t, [], t', []);
  }

  function Zeros(n: nat): bytes {
    seq(n, _ => 0)
  }

  lemma ZerosJoin(n: nat, m: nat)
    ensures Zeros(n) + Zeros(m) == Zeros(n + m)
  {
  }

  lemma ZeroLength(n: nat)
    requires n % TWO_32 == 0
    ensures Framed32(Zeros(n)) == Zeros(n + 4)
  {
    assert LittleEndian(0, 2) == [0, 0];
    assert LittleEndian(0, 4) == [0, 0] + LittleEndian(0, 2);
    assert LittleEndian(0, 4) == Zeros(4);
    ZerosJoin(4, n);
  }

  /** The bound is needed: with 2^32 zero bytes the truncated length reads zero, and moving them from the client to the
      sender does not change the preimage. */
  lemma LongKeysCollide()
    ensures SolanaKey(Zeros(TWO_32), Zeros(0), Zeros(0)) == SolanaKey(Zeros(0), Zeros(TWO_32), Zeros(0))
  {
    hide Framed32, Zeros;
    ZeroLength(0);
    ZeroLength(TWO_32);
    ZerosJoin(TWO_32 + 4, 4);
    ZerosJoin(4, TWO_32 + 4);
  }

  ghost predicate InjectiveBelow(bound: nat) {
    forall c, s, t, c', s', t' ::
      (&& |c| < bound && |s| < bound && |t| < bound && |c'| < bound && |s'| < bound && |t'| < bound
       && SolanaKey(c, s, t) == SolanaKey(c', s', t')) ==>
      c == c' && s == s' && t == t'
  }

  /** The preimage identifies its parts exactly as long as their lengths fit the 32-bit prefix. */
  lemma InjectiveIffLengthsFit(bound: nat)
    ensures InjectiveBelow(bound) <==> bound <= TWO_32
  {
    if bound <= TWO_32 {
      forall c, s, t, c', s', t' |
        && |c| < bound && |s| < bound && |t| < bound && |c'| < bound && |s'| < bound && |t'| < bound
        && SolanaKey(c, s, t) == SolanaKey(c', s', t')
        ensures c == c' && s == s' && t == t'
      {
        SolanaKeyInjective(c, s, t, c', s', t');
      }
    } else {
      LongKeysCollide();
      assert |Zeros(TWO_32)| == TWO_32 && |Zeros(0)| == 0;
    }
  }
}
