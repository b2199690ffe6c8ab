/** Byte strings and the fixed-width integer encodings shared by the codecs, the commitment paths and the
    account-key preimages. */
module Bytes {

  type byte = n: int | 0 <= n < 256

  type bytes = seq<byte>

  const TWO_32: nat := 0x1_0000_0000
  const TWO_64: nat := 0x1_0000_0000_0000_0000
  const TWO_160: nat := 0x1_0000_0000_0000_0000_0000_0000_0000_0000_0000_0000
  const TWO_256: nat := 0x1_0000_0000_0000_0000_0000_0000_0000_0000_0000_0000_0000_0000_0000_0000_0000_0000

  type uint64 = n: nat | n < TWO_64

  type uint256 = n: nat | n < TWO_256

  type Address = n: nat | n < TWO_160

  datatype Option<+T> = None | Some(value: T)

  /** The outcome of a call: `Err` stands for a revert or an error return, after which no state has changed. */
  datatype Result<+T> = Ok(value: T) | Err(reason: string)

  /** The bytes of a string of ASCII characters. */
  function Ascii(s: string): bytes {
    seq(|s|, i requires 0 <= i < |s| => s[i] as int % 256)
  }

  function Pow256(width: nat): (p: nat)
    ensures p > 0
  {
    if width == 0 then 1 else 256 * Pow256(width - 1)
  }

  /** The low `width` bytes of `n`, most significant first. */
  function BigEndian(n: nat, width: nat): (b: bytes)
    ensures |b| == width
  {
    if width == 0 then [] else BigEndian(n / 256, width - 1) + [n % 256]
  }

  function FromBigEndian(b: bytes): (n: nat)
    ensures n < Pow256(|b|)
  {
    if b == [] then 0 else 256 * FromBigEndian(b[..|b| - 1]) + b[|b| - 1]
  }

  /** The low `width` bytes of `n`, least significant first. */
  function LittleEndian(n: nat, width: nat): (b: bytes)
    ensures |b| == width
  {
    if width == 0 then [] else [n % 256] + LittleEndian(n / 256, width - 1)
  }

  function FromLittleEndian(b: bytes): (n: nat)
    ensures n < Pow256(|b|)
  {
    if b == [] then 0 else b[0] + 256 * FromLittleEndian(b[1..])
  }

  lemma {:induction false} BigEndianRoundTrip(n: nat, width: nat)
    requires n < Pow256(width)
    ensures FromBigEndian(BigEndian(n, width)) == n
  {
    if width > 0 {
      BigEndianRoundTrip(n / 256, width - 1);
      assert BigEndian(n, width)[..width - 1] == BigEndian(n / 256, width - 1);
    }
  }

  lemma {:induction false} LittleEndianRoundTrip(n: nat, width: nat)
    requires n < Pow256(width)
    ensures FromLittleEndian(LittleEndian(n, width)) == n
  {
    if width > 0 {
      LittleEndianRoundTrip(n / 256, width - 1);
      assert LittleEndian(n, width)[1..] == LittleEndian(n / 256, width - 1);
    }
  }

  lemma {:induction false} FromLittleEndianRoundTrip(b: bytes)
    ensures LittleEndian(FromLittleEndian(b), |b|) == b
  {
    if b != [] {
      FromLittleEndianRoundTrip(b[1..]);
      assert FromLittleEndian(b) / 256 == FromLittleEndian(b[1..]);
      assert FromLittleEndian(b) % 256 == b[0];
      assert b == [b[0]] + b[1..];
    }
  }

  lemma WordWidths()
    ensures Pow256(4) == TWO_32 && Pow256(8) == TWO_64
  {
    assert Pow256(2) == 0x1_0000;
    assert Pow256(4) == 256 * (256 * Pow256(2));
    assert Pow256(6) == 256 * (256 * Pow256(4));
    assert Pow256(8) == 256 * (256 * Pow256(6));
  }

  /** The digit of weight 256^k. */
  function Digit256(n: nat, k: nat): byte {
    if k == 0 then n % 256 else Digit256(n / 256, k - 1)
  }

  /** Which end comes first, at every width. */
  lemma {:induction false} ByteOrder(n: nat, width: nat, i: nat)
    requires i < width
    ensures BigEndian(n, width)[i] == Digit256(n, width - 1 - i)
    ensures LittleEndian(n, width)[i] == Digit256(n, i)
  {
    if i < width - 1 {
      ByteOrder(n / 256, width - 1, i);
    }
    if i > 0 {
      ByteOrder(n / 256, width - 1, i - 1);
    }
  }

  /** Two concatenations whose tails have the same length split at the same place. */
  lemma SplitAtTail(a1: bytes, t1: bytes, a2: bytes, t2: bytes)
    requires a1 + t1 == a2 + t2 && |t1| == |t2|
    ensures a1 == a2 && t1 == t2
  {
    assert a1 == (a1 + t1)[..|a1|] && a2 == (a2 + t2)[..|a2|];
    assert t1 == (a1 + t1)[|a1|..] && t2 == (a2 + t2)[|a2|..];
  }

  /** Two concatenations whose heads have the same length split at the same place. */
  lemma SplitAtHead(h1: bytes, t1: bytes, h2: bytes, t2: bytes)
    requires h1 + t1 == h2 + t2 && |h1| == |h2|
    ensures h1 == h2 && t1 == t2
  {
    assert |t1| == |t2|;
    SplitAtTail(h1, t1, h2, t2);
  }
}
