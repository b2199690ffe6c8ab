/** The hand-written Borsh decoder for the account that records how a GMP call ended. */
module CallResult {
  import opened Bytes

  type int64 = n: int | -0x8000_0000_0000_0000 <= n < 0x8000_0000_0000_0000

  datatype Account = Account(
    version: byte, sender: bytes, sequence: uint64, sourceClient: bytes, destClient: bytes, status: byte,
    ackCommitment: bytes, resultTimestamp: int64, bump: byte)

  const ACKNOWLEDGED: byte := 0
  const NO_COMMITMENT: bytes := LittleEndian(0, 32)

  /** Values the account layout can hold: the commitment is stored only for an acknowledgement, of whatever status
      byte. */
  predicate WellFormed(a: Account) {
    && |a.sender| == 32 && |a.sourceClient| < TWO_32 && |a.destClient| < TWO_32 && |a.ackCommitment| == 32
    && (a.status != ACKNOWLEDGED ==> a.ackCommitment == NO_COMMITMENT)
  }

  function Unsigned(i: int64): uint64 {
    if i < 0 then i + TWO_64 else i
  }

  function Signed(u: uint64): int64 {
    if u >= 0x8000_0000_0000_0000 then u - TWO_64 else u
  }

  function HeadOf(version: byte, sender: bytes, sequence: uint64): bytes {
    [version] + sender + LittleEndian(sequence, 8)
  }

  function Str(s: bytes): bytes {
    LittleEndian(|s|, 4) + s
  }

  function StatusOf(status: byte, ackCommitment: bytes): bytes {
    [status] + (if status == ACKNOWLEDGED then ackCommitment else [])
  }

  function TailOf(status: byte, ackCommitment: bytes, resultTimestamp: int64, bump: byte): bytes {
    StatusOf(status, ackCommitment) + LittleEndian(Unsigned(resultTimestamp), 8) + [bump]
  }

  function Head(a: Account): bytes {
    HeadOf(a.version, a.sender, a.sequence)
  }

  function Tail(a: Account): bytes {
    TailOf(a.status, a.ackCommitment, a.resultTimestamp, a.bump)
  }

  /** The Borsh layout, after the discriminator. */
  function Encode(a: Account): bytes {
    Head(a) + (Str(a.sourceClient) + (Str(a.destClient) + Tail(a)))
  }

  /** The order and width of the fields: each client after its length, the commitment only with an acknowledgement. */
  lemma EncodeLayout(a: Account)
    ensures Encode(a) ==
      [a.version] + a.sender + LittleEndian(a.sequence, 8)
      + LittleEndian(|a.sourceClient|, 4) + a.sourceClient + LittleEndian(|a.destClient|, 4) + a.destClient
      + [a.status] + (if a.status == 0 then a.ackCommitment else [])
      + LittleEndian(a.resultTimestamp % TWO_64, 8) + [a.bump]
  {
    hide LittleEndian;
    SignedIs(a.resultTimestamp, 0);
    var outcome := if a.status == 0 then a.ackCommitment else [];
    var stamp := LittleEndian(a.resultTimestamp % TWO_64, 8);
    assert Tail(a) == [a.status] + outcome + stamp + [a.bump];
    Flat(Head(a), LittleEndian(|a.sourceClient|, 4), a.sourceClient, LittleEndian(|a.destClient|, 4), a.destClient,
         [a.status], outcome, stamp, [a.bump]);
  }

  lemma Flat(h: bytes, n: bytes, a: bytes, m: bytes, b: bytes, s: bytes, o: bytes, t: bytes, u: bytes)
    ensures h + ((n + a) + ((m + b) + (s + o + t + u))) == h + n + a + m + b + s + o + t + u
  {
  }

  /** Two's complement. */
  lemma SignedIs(i: int64, u: uint64)
    ensures Signed(Unsigned(i)) == i && Unsigned(i) == i % TWO_64
    ensures Unsigned(Signed(u)) == u
  {
  }

  // The decoder, as the loop-free code it is

  /** Reads a length-prefixed string at `offset`; `next` is where it ends. */
  method ReadString(data: bytes, offset: nat) returns (s: Option<bytes>, next: nat)
    requires offset <= |data|
    ensures s.Some? ==> |s.value| < TWO_32 && next <= |data| && data[offset..] == Str(s.value) + data[next..]
    ensures s.None? ==> forall t, rest :: |t| < TWO_32 ==> data[offset..] != Str(t) + rest
  {
    hide LittleEndian, FromLittleEndian, Pow256;
    WordWidths();
    next := offset;
    if offset + 4 > |data| { return None, next; }
    var strLen := FromLittleEndian(data[offset..offset + 4]);
    next := offset + 4;
    if next + strLen > |data| {
      forall t, rest | |t| < TWO_32 ensures data[offset..] != Str(t) + rest {
        PrefixFixesLength(data[offset..], t, rest);
        assert data[offset..][..4] == data[offset..offset + 4];
      }
      return None, next;
    }
    s := Some(data[next..next + strLen]);
    FromLittleEndianRoundTrip(data[offset..offset + 4]);
    assert data[offset..] == data[offset..offset + 4] + data[next..next + strLen] + data[next + strLen..];
    next := next + strLen;
  }

  lemma PrefixFixesLength(s: bytes, t: bytes, rest: bytes)
    requires |t| < TWO_32
    ensures s == Str(t) + rest ==> |s| >= 4 + |t| && FromLittleEndian(s[..4]) == |t|
  {
    WordWidths();
    LittleEndianRoundTrip(|t|, 4);
    if s == Str(t) + rest {
      assert s[..4] == LittleEndian(|t|, 4);
    }
  }

  method ReadHead(data: bytes, offset: nat) returns (head: Option<(byte, bytes, uint64)>, next: nat)
    requires offset <= |data|
    ensures head.Some? <==> offset + 41 <= |data|
    ensures head.Some? ==>
      && next == offset + 41 && |head.value.1| == 32
      && data[offset..] == HeadOf(head.value.0, head.value.1, head.value.2) + data[next..]
  {
    hide LittleEndian, FromLittleEndian, Pow256;
    next := offset;
    if next >= |data| { return None, next; }
    var version := data[next];
    next := next + 1;
    if next + 32 > |data| { return None, next; }
    var sender := data[next..next + 32];
    next := next + 32;
    if next + 8 > |data| { return None, next; }
    WordWidths();
    var sequence: uint64 := FromLittleEndian(data[next..next + 8]);
    FromLittleEndianRoundTrip(data[next..next + 8]);
    assert data[offset..] == [version] + sender + data[next..next + 8] + data[next + 8..];
    head, next := Some((version, sender, sequence)), next + 8;
  }

  predicate TailFits(s: bytes) {
    s != [] && (if s[0] == ACKNOWLEDGED then 42 else 10) <= |s|
  }

  method ReadTail(data: bytes, offset: nat) returns (tail: Option<(byte, bytes, int64, byte)>, ghost next: nat)
    requires offset <= |data|
    ensures tail.Some? <==> TailFits(data[offset..])
    ensures tail.Some? ==>
      && next <= |data| && |tail.value.1| == 32 && (tail.value.0 != ACKNOWLEDGED ==> tail.value.1 == NO_COMMITMENT)
      && data[offset..] == TailOf(tail.value.0, tail.value.1, tail.value.2, tail.value.3) + data[next..]
  {
    hide LittleEndian, FromLittleEndian, Pow256, TailOf, Signed;
    var at := offset;
    if at >= |data| { return None, at; }
    var status, commitment := data[at], NO_COMMITMENT;
    at := at + 1;
    if status == ACKNOWLEDGED {
      if at + 32 > |data| { return None, at; }
      commitment := data[at..at + 32];
      at := at + 32;
    }
    if at + 8 > |data| { return None, at; }
    WordWidths();
    var timestamp: uint64 := FromLittleEndian(data[at..at + 8]);
    at := at + 8;
    if at >= |data| { return None, at; }
    var bump := data[at];
    assert data[offset..][at - 8 - offset..at - offset] == data[at - 8..at];
    assert status == ACKNOWLEDGED ==> data[offset..][1..33] == data[offset + 1..offset + 33];
    TailRead(data[offset..], status, commitment, timestamp, bump);
    assert data[offset..][at + 1 - offset..] == data[at + 1..];
    return Some((status, commitment, Signed(timestamp), bump)), at + 1;
  }

  lemma TailRead(s: bytes, status: byte, commitment: bytes, timestamp: uint64, bump: byte)
    requires TailFits(s) && s[0] == status && |commitment| == 32
    requires status == ACKNOWLEDGED ==> commitment == s[1..33]
    requires var k := if status == ACKNOWLEDGED then 33 else 1;
      FromLittleEndian(s[k..k + 8]) == timestamp && s[k + 8] == bump
    ensures var k := if status == ACKNOWLEDGED then 42 else 10;
      s == TailOf(status, commitment, Signed(timestamp), bump) + s[k..]
  {
    hide LittleEndian, FromLittleEndian, Pow256;
    var k := if status == ACKNOWLEDGED then 33 else 1;
    FromLittleEndianRoundTrip(s[k..k + 8]);
    assert s[..k] == StatusOf(status, commitment);
    assert s == s[..k] + s[k..k + 8] + [s[k + 8]] + s[k + 9..];
  }

  lemma StrUnique(t: bytes, rest: bytes, t': bytes, rest': bytes)
    requires |t| < TWO_32 && |t'| < TWO_32 && Str(t) + rest == Str(t') + rest'
    ensures t == t' && rest == rest'
  {
    var s := Str(t) + rest;
    PrefixFixesLength(s, t, rest);
    PrefixFixesLength(s, t', rest');
    SplitAtHead(Str(t), rest, Str(t'), rest');
    assert t == Str(t)[4..] && t' == Str(t')[4..];
  }

  /** The four parts of an encoding, each where the one before ends. */
  ghost predicate Parts(a: Account, s: bytes, s1: bytes, s2: bytes, s3: bytes, s4: bytes) {
    s == Head(a) + s1 && s1 == Str(a.sourceClient) + s2 && s2 == Str(a.destClient) + s3 && s3 == Tail(a) + s4
  }

  lemma EncodingParts(a: Account, s: bytes) returns (s1: bytes, s2: bytes, s3: bytes, s4: bytes)
    requires Encode(a) <= s
    ensures Parts(a, s, s1, s2, s3, s4)
  {
    s4 := s[|Encode(a)|..];
    s3 := Tail(a) + s4;
    s2 := Str(a.destClient) + s3;
    s1 := Str(a.sourceClient) + s2;
    assert s == Encode(a) + s4;
  }

  lemma PartsEncode(a: Account, s: bytes, s1: bytes, s2: bytes, s3: bytes, s4: bytes)
    requires Parts(a, s, s1, s2, s3, s4)
    ensures Encode(a) <= s && s == Encode(a) + s4
  {
    assert s == Encode(a) + s4;
  }

  lemma HeadUnique(a: Account, b: Account, s1: bytes, t1: bytes)
    requires |a.sender| == |b.sender| == 32 && Head(a) + s1 == Head(b) + t1
    ensures a.version == b.version && a.sender == b.sender && a.sequence == b.sequence && s1 == t1
  {
    WordWidths();
    SplitAtHead(Head(a), s1, Head(b), t1);
    SplitAtTail([a.version] + a.sender, LittleEndian(a.sequence, 8), [b.version] + b.sender,
      LittleEndian(b.sequence, 8));
    SplitAtHead([a.version], a.sender, [b.version], b.sender);
    LittleEndianRoundTrip(a.sequence, 8);
    LittleEndianRoundTrip(b.sequence, 8);
  }

  lemma TailUnique(a: Account, b: Account, s4: bytes, t4: bytes)
    requires WellFormed(a) && WellFormed(b) && Tail(a) + s4 == Tail(b) + t4
    ensures a.status == b.status && a.ackCommitment == b.ackCommitment
    ensures a.resultTimestamp == b.resultTimestamp && a.bump == b.bump
  {
    var status, status' := StatusOf(a.status, a.ackCommitment), StatusOf(b.status, b.ackCommitment);
    var stamp, stamp' := LittleEndian(Unsigned(a.resultTimestamp), 8), LittleEndian(Unsigned(b.resultTimestamp), 8);
    assert Tail(a) + s4 == status + (stamp + ([a.bump] + s4));
    assert Tail(b) + t4 == status' + (stamp' + ([b.bump] + t4));
    StatusUnique(a, b, stamp + ([a.bump] + s4), stamp' + ([b.bump] + t4));
    SplitAtHead(stamp, [a.bump] + s4, stamp', [b.bump] + t4);
    SplitAtHead([a.bump], s4, [b.bump], t4);
    WordWidths();
    LittleEndianRoundTrip(Unsigned(a.resultTimestamp), 8);
    LittleEndianRoundTrip(Unsigned(b.resultTimestamp), 8);
  }

  lemma StatusUnique(a: Account, b: Account, rest: bytes, rest': bytes)
    requires WellFormed(a) && WellFormed(b)
    requires StatusOf(a.status, a.ackCommitment) + rest == StatusOf(b.status, b.ackCommitment) + rest'
    ensures a.status == b.status && a.ackCommitment == b.ackCommitment && rest == rest'
  {
    var status, status' := StatusOf(a.status, a.ackCommitment), StatusOf(b.status, b.ackCommitment);
    assert (status + rest)[0] == a.status && (status' + rest')[0] == b.status;
    SplitAtHead(status, rest, status', rest');
    if a.status == ACKNOWLEDGED {
      SplitAtHead([a.status], a.ackCommitment, [b.status], b.ackCommitment);
    }
  }

  /** No data begins with the encodings of two accounts; in particular the encoding is injective. */
  lemma EncodeUnique(a: Account, b: Account, s: bytes)
    requires WellFormed(a) && WellFormed(b) && Encode(a) <= s && Encode(b) <= s
    ensures a == b
  {
    hide Encode, Head, Str, Tail;
    var s1, s2, s3, s4 := EncodingParts(a, s);
    var t1, t2, t3, t4 := EncodingParts(b, s);
    HeadUnique(a, b, s1, t1);
    StrUnique(a.sourceClient, s2, b.sourceClient, t2);
    StrUnique(a.destClient, s3, b.destClient, t3);
    TailUnique(a, b, s4, t4);
  }

  lemma TailFitted(a: Account, rest: bytes)
    requires WellFormed(a)
    ensures TailFits(Tail(a) + rest)
  {
  }

  /** What an encoding at the start of `s` forces on a reader that has come as far as `at1`, `at2`, `at3`. */
  lemma ReaderAgrees(b: Account, s: bytes)
    requires WellFormed(b) && Encode(b) <= s
    ensures |s| >= 41
    ensures exists rest :: s[41..] == Str(b.sourceClient) + rest
    ensures forall t, rest :: |t| < TWO_32 && s[41..] == Str(t) + rest ==> exists u :: rest == Str(b.destClient) + u
    ensures forall t, u, v, rest :: |t| < TWO_32 && |u| < TWO_32 && s[41..] == Str(t) + v && v == Str(u) + rest ==>
      TailFits(rest)
  {
    hide Encode, Str, Tail;
    var s1, s2, s3, s4 := EncodingParts(b, s);
    assert s[41..] == s1;
    forall t, rest | |t| < TWO_32 && s[41..] == Str(t) + rest ensures rest == s2 == Str(b.destClient) + s3 {
      StrUnique(t, rest, b.sourceClient, s2);
    }
    forall t, u, v, rest | |t| < TWO_32 && |u| < TWO_32 && s[41..] == Str(t) + v && v == Str(u) + rest
      ensures TailFits(rest)
    {
      StrUnique(t, v, b.sourceClient, s2);
      StrUnique(u, rest, b.destClient, s3);
      TailFitted(b, s4);
    }
  }

  /** Succeeds exactly on data that begins, after the eight-byte discriminator, with the encoding of an account, and
      returns that account. */
  method Decode(data: bytes) returns (r: Result<Account>)
    ensures r.Ok? ==> |data| >= 8 && WellFormed(r.value) && Encode(r.value) <= data[8..]
    ensures forall a :: |data| >= 8 && WellFormed(a) && Encode(a) <= data[8..] ==> r == Ok(a)
  {
    hide Encode, HeadOf, Str, TailOf, TailFits;
    if |data| < 8 { return Err("data too short"); }
    var head, at1 := ReadHead(data, 8);
    forall b | WellFormed(b) && Encode(b) <= data[8..] ensures |data| >= 49 {
      ReaderAgrees(b, data[8..]);
    }
    if head.None? { return Err("not enough data for header"); }
    assert data[8..][41..] == data[at1..];
    var source, at2 := ReadString(data, at1);
    forall b | WellFormed(b) && Encode(b) <= data[8..] ensures source.Some? {
      ReaderAgrees(b, data[8..]);
    }
    if source.None? { return Err("reading source_client"); }
    var dest, at3 := ReadString(data, at2);
    forall b | WellFormed(b) && Encode(b) <= data[8..] ensures dest.Some? {
      ReaderAgrees(b, data[8..]);
    }
    if dest.None? { return Err("reading dest_client"); }
    var tail, at4 := ReadTail(data, at3);
    forall b | WellFormed(b) && Encode(b) <= data[8..] ensures tail.Some? {
      ReaderAgrees(b, data[8..]);
    }
    if tail.None? { return Err("not enough data for status"); }
    var a := Account(
      head.value.0, head.value.1, head.value.2, source.value, dest.value, tail.value.0, tail.value.1, tail.value.2,
      tail.value.3);
    PartsEncode(a, data[8..], data[at1..], data[at2..], data[at3..], data[at4..]);
    forall b | WellFormed(b) && Encode(b) <= data[8..] ensures b == a {
      EncodeUnique(a, b, data[8..]);
    }
    return Ok(a);
  }
}
