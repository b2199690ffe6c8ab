/** Denomination traces: hexadecimal token addresses and the port/client prefixes put in front of them. */
module Denoms {
  import opened Bytes

  const SLASH: byte := 0x2f

  /** "transfer" */
  const TRANSFER_PORT: bytes := [0x74, 0x72, 0x61, 0x6e, 0x73, 0x66, 0x65, 0x72]

  predicate SlashFree(b: bytes) {
    SLASH !in b
  }

  // Addresses as strings

  function Pow16(width: nat): (p: nat)
    ensures p > 0
  {
    if width == 0 then 1 else 16 * Pow16(width - 1)
  }

  function HexChar(d: nat): byte
    requires d < 16
  {
    if d < 10 then 0x30 + d else 0x57 + d
  }

  function HexDigits(n: nat, width: nat): (b: bytes)
    ensures |b| == width
  {
    if width == 0 then [] else HexDigits(n / 16, width - 1) + [HexChar(n % 16)]
  }

  /** Lower-case hexadecimal with the prefix "0x", always 40 digits. */
  function ToHexString(a: Address): bytes {
    [0x30, 0x78] + HexDigits(a, 40)
  }

  /** Digits and both cases of letters. */
  function ParseChar(c: byte): Option<nat> {
    if 0x30 <= c <= 0x39 then Some(c - 0x30)
    else if 0x61 <= c <= 0x66 then Some(c - 0x57)
    else if 0x41 <= c <= 0x46 then Some(c - 0x37)
    else None
  }

  function ParseDigits(b: bytes): (n: Option<nat>)
    ensures n.Some? ==> n.value < Pow16(|b|)
  {
    if b == [] then Some(0)
    else match (ParseDigits(b[..|b| - 1]), ParseChar(b[|b| - 1]))
      case (Some(high), Some(low)) => Some(16 * high + low)
      case _ => None
  }

  lemma Pow16Step(k: nat)
    ensures Pow16(k + 4) == 0x1_0000 * Pow16(k)
  {
    assert Pow16(k + 4) == 16 * (16 * Pow16(k + 2));
    assert Pow16(k + 2) == 16 * (16 * Pow16(k));
  }

  lemma AddressWidth()
    ensures Pow16(40) == TWO_160
  {
    Pow16Step(0); Pow16Step(4); Pow16Step(8); Pow16Step(12); Pow16Step(16);
    Pow16Step(20); Pow16Step(24); Pow16Step(28); Pow16Step(32); Pow16Step(36);
  }

  /** Accepts 40 digits, with or without the prefix "0x". */
  function ParseAddress(b: bytes): Option<Address> {
    var prefixed := |b| >= 2 && b[0] == 0x30 && b[1] == 0x78;
    if |b| != (if prefixed then 42 else 40) then None
    else
      AddressWidth();
      ParseDigits(if prefixed then b[2..] else b)
  }

  predicate IsHexDigit(c: byte) {
    0x30 <= c <= 0x39 || 0x61 <= c <= 0x66 || 0x41 <= c <= 0x46
  }

  predicate IsLowerHexDigit(c: byte) {
    0x30 <= c <= 0x39 || 0x61 <= c <= 0x66
  }

  lemma {:induction false} DigitsAreLowerCase(n: nat, width: nat)
    ensures forall i :: 0 <= i < width ==> IsLowerHexDigit(HexDigits(n, width)[i])
  {
    if width > 0 {
      DigitsAreLowerCase(n / 16, width - 1);
    }
  }

  /** An address is printed as "0x" and forty digits, letters in lower case. */
  lemma PrintedAddress(a: Address)
    ensures |ToHexString(a)| == 42 && ToHexString(a)[..2] == Ascii("0x")
    ensures forall i :: 2 <= i < 42 ==> IsLowerHexDigit(ToHexString(a)[i])
  {
    DigitsAreLowerCase(a, 40);
    var s := ToHexString(a);
    assert forall i :: 2 <= i < 42 ==> s[i] == HexDigits(a, 40)[i - 2];
    assert s[..2] == [0x30, 0x78];
  }

  lemma {:induction false} DigitsParseIff(b: bytes)
    ensures ParseDigits(b).Some? <==> forall i :: 0 <= i < |b| ==> IsHexDigit(b[i])
  {
    if b != [] {
      DigitsParseIff(b[..|b| - 1]);
    }
  }

  /** An address is read from forty digits of either case, with or without "0x" in front of them. */
  lemma ParsedAddress(b: bytes)
    ensures ParseAddress(b).Some? <==>
      || (|b| == 42 && b[..2] == Ascii("0x") && forall i :: 2 <= i < 42 ==> IsHexDigit(b[i]))
      || (|b| == 40 && forall i :: 0 <= i < 40 ==> IsHexDigit(b[i]))
  {
    DigitsParseIff(b);
    if |b| >= 2 {
      DigitsParseIff(b[2..]);
      assert Ascii("0x") == [0x30, 0x78];
      assert b[..2] == [b[0], b[1]];
      assert forall i :: 2 <= i < |b| ==> b[i] == b[2..][i - 2];
      assert forall i :: 0 <= i < |b| - 2 ==> b[2..][i] == b[i + 2];
    }
  }

  lemma HexCharParses(d: nat)
    requires d < 16
    ensures ParseChar(HexChar(d)) == Some(d) && HexChar(d) != SLASH
    ensures d >= 10 ==> ParseChar(HexChar(d) - 32) == Some(d)
  {
  }

  lemma {:induction false} DigitsParse(n: nat, width: nat)
    requires n < Pow16(width)
    ensures ParseDigits(HexDigits(n, width)) == Some(n)
    ensures SlashFree(HexDigits(n, width))
  {
    hide HexChar, ParseChar;
    if width > 0 {
      DigitsParse(n / 16, width - 1);
      HexCharParses(n % 16);
      var digits := HexDigits(n, width);
      assert digits[..width - 1] == HexDigits(n / 16, width - 1) && digits[width - 1] == HexChar(n % 16);
    }
  }

  /** Printing an address and parsing it gives the address back, and prints no separator. */
  lemma AddressRoundTrip(a: Address)
    ensures ParseAddress(ToHexString(a)) == Some(a)
    ensures SlashFree(ToHexString(a))
  {
    AddressWidth();
    DigitsParse(a, 40);
    assert ToHexString(a)[2..] == HexDigits(a, 40);
  }

  lemma {:induction false} ParsedHasNoSlash(b: bytes)
    requires ParseDigits(b).Some?
    ensures SlashFree(b)
  {
    if b != [] {
      ParsedHasNoSlash(b[..|b| - 1]);
      assert b == b[..|b| - 1] + [b[|b| - 1]];
    }
  }

  /** A trace is never mistaken for an address. */
  lemma AddressHasNoSlash(b: bytes)
    requires ParseAddress(b).Some?
    ensures SlashFree(b)
  {
    if |b| == 42 {
      ParsedHasNoSlash(b[2..]);
      assert b == [0x30, 0x78] + b[2..];
    } else {
      ParsedHasNoSlash(b);
    }
  }

  // Prefixes

  function DenomPrefix(port: bytes, client: bytes): bytes {
    port + [SLASH] + client + [SLASH]
  }

  predicate HasPrefix(b: bytes, prefix: bytes) {
    |b| >= |prefix| && b[..|prefix|] == prefix
  }

  /** The trace a token gets when it arrives over `client`. */
  function Trace(client: bytes, denom: bytes): bytes {
    DenomPrefix(TRANSFER_PORT, client) + denom
  }

  /** How a trace is spelled. */
  lemma TraceIsSpelled(client: bytes, denom: bytes)
    ensures Trace(client, denom) == Ascii("transfer/") + client + Ascii("/") + denom
  {
    assert Ascii("transfer/") == TRANSFER_PORT + [SLASH] && Ascii("/") == [SLASH];
  }

  predicate CameOver(client: bytes, denom: bytes) {
    HasPrefix(denom, DenomPrefix(TRANSFER_PORT, client))
  }

  function Unwind(client: bytes, denom: bytes): bytes
    requires CameOver(client, denom)
  {
    denom[|DenomPrefix(TRANSFER_PORT, client)|..]
  }

  lemma TraceUnwinds(client: bytes, denom: bytes)
    ensures CameOver(client, Trace(client, denom)) && Unwind(client, Trace(client, denom)) == denom
    ensures !SlashFree(Trace(client, denom)) && ParseAddress(Trace(client, denom)).None?
  {
    var prefix := DenomPrefix(TRANSFER_PORT, client);
    assert Trace(client, denom)[..|prefix|] == prefix;
    assert Trace(client, denom)[|TRANSFER_PORT|] == SLASH;
    if ParseAddress(Trace(client, denom)).Some? {
      AddressHasNoSlash(Trace(client, denom));
    }
  }

  lemma UnwoundTrace(client: bytes, denom: bytes)
    requires CameOver(client, denom)
    ensures Trace(client, Unwind(client, denom)) == denom
  {
  }

  /** The client of a trace can be read off it, because client ids contain no separator. */
  lemma TraceClientUnique(c1: bytes, c2: bytes, denom: bytes)
    requires SlashFree(c1) && SlashFree(c2)
    requires CameOver(c1, denom) && CameOver(c2, denom)
    ensures c1 == c2
  {
    var rest := denom[|TRANSFER_PORT| + 1..];
    assert rest[..|c1| + 1] == c1 + [SLASH] by {
      assert DenomPrefix(TRANSFER_PORT, c1)[|TRANSFER_PORT| + 1..] == c1 + [SLASH];
    }
    assert rest[..|c2| + 1] == c2 + [SLASH] by {
      assert DenomPrefix(TRANSFER_PORT, c2)[|TRANSFER_PORT| + 1..] == c2 + [SLASH];
    }
    assert rest[..|c1| + 1][|c1|] == SLASH && rest[..|c2| + 1][|c2|] == SLASH;
    assert c1 == (c1 + [SLASH])[..|c1|] && c2 == (c2 + [SLASH])[..|c2|];
  }
}
