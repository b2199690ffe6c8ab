/** The operator's key-path argument: each path is two byte strings in base64 (section 4 of RFC 4648) joined by a
    backslash, and paths are joined by commas. */
module KeyPaths {
  import opened Bytes

  const BACKSLASH: byte := 0x5c
  const COMMA: byte := 0x2c
  const PAD: byte := 0x3d

  type sextet = n: int | 0 <= n < 64

  /** A-Z, a-z, 0-9, + and / */
  function Letter(d: sextet): byte {
    if d < 26 then 0x41 + d
    else if d < 52 then 0x61 + (d - 26)
    else if d < 62 then 0x30 + (d - 52)
    else if d == 62 then 0x2b
    else 0x2f
  }

  function Digit(c: byte): Option<sextet> {
    if 0x41 <= c < 0x5b then Some(c - 0x41)
    else if 0x61 <= c < 0x7b then Some(c - 0x61 + 26)
    else if 0x30 <= c < 0x3a then Some(c - 0x30 + 52)
    else if c == 0x2b then Some(62)
    else if c == 0x2f then Some(63)
    else None
  }

  lemma LetterReadsBack(d: sextet)
    ensures Digit(Letter(d)) == Some(d)
    ensures Letter(d) != BACKSLASH && Letter(d) != COMMA && Letter(d) != PAD
  {
  }

  /** The alphabet of table 1 in section 4 of RFC 4648. */
  lemma Alphabet(d: sextet)
    ensures 0 <= d < 26 ==> Letter(d) == 'A' as int + d
    ensures 26 <= d < 52 ==> Letter(d) == 'a' as int + (d - 26)
    ensures 52 <= d < 62 ==> Letter(d) == '0' as int + (d - 52)
    ensures Letter(62) == '+' as int && Letter(63) == '/' as int && PAD == '=' as int
  {
  }

  /** Four letters for every three bytes, the last group padded. */
  function Base64(b: bytes): bytes {
    if |b| == 0 then []
    else if |b| == 1 then [Letter(b[0] / 4), Letter(b[0] % 4 * 16), PAD, PAD]
    else if |b| == 2 then
      [Letter(b[0] / 4), Letter(b[0] % 4 * 16 + b[1] / 16), Letter(b[1] % 16 * 4), PAD]
    else
      [Letter(b[0] / 4), Letter(b[0] % 4 * 16 + b[1] / 16), Letter(b[1] % 16 * 4 + b[2] / 64), Letter(b[2] % 64)]
      + Base64(b[3..])
  }

  /** The letters of a group are the base-64 digits of its bytes as one number, most significant first; the next group
      follows. */
  lemma GroupValue(b: bytes) returns (d0: sextet, d1: sextet, d2: sextet, d3: sextet)
    requires |b| >= 3
    ensures Base64(b) == [Letter(d0), Letter(d1), Letter(d2), Letter(d3)] + Base64(b[3..])
    ensures 262144 * d0 as int + 4096 * d1 as int + 64 * d2 as int + d3 as int ==
      65536 * b[0] as int + 256 * b[1] as int + b[2] as int
  {
    hide Letter;
    d0, d1 := b[0] / 4, b[0] % 4 * 16 + b[1] / 16;
    d2, d3 := b[1] % 16 * 4 + b[2] / 64, b[2] % 64;
  }

  /** A last group of one byte or two is written as if zeros followed, with padding in place of the letters that hold
      nothing. */
  lemma LastGroup(b0: byte, b1: byte)
    ensures Base64([b0]) == Base64([b0, 0, 0])[..2] + [PAD, PAD]
    ensures Base64([b0, b1]) == Base64([b0, b1, 0])[..3] + [PAD]
    ensures Base64([]) == []
  {
    hide Letter;
    assert [b0, b1, 0][3..] == [] && [b0, 0, 0][3..] == [];
  }

  function Byte0(d0: sextet, d1: sextet): byte {
    d0 * 4 + d1 / 16
  }

  function Byte1(d1: sextet, d2: sextet): byte {
    d1 % 16 * 16 + d2 / 4
  }

  function Byte2(d2: sextet, d3: sextet): byte {
    d2 % 4 * 64 + d3
  }

  /** The bytes of a group of four letters, of which the last one or two may be padding. */
  function FromGroup(c0: byte, c1: byte, c2: byte, c3: byte): Option<bytes> {
    match (Digit(c0), Digit(c1), Digit(c2), Digit(c3))
    case (Some(d0), Some(d1), Some(d2), Some(d3)) => Some([Byte0(d0, d1), Byte1(d1, d2), Byte2(d2, d3)])
    case (Some(d0), Some(d1), Some(d2), None) => if c3 == PAD then Some([Byte0(d0, d1), Byte1(d1, d2)]) else None
    case (Some(d0), Some(d1), None, None) => if c2 == c3 == PAD then Some([Byte0(d0, d1)]) else None
    case _ => None
  }

  /** Only the last group may be padded. */
  function FromBase64(s: bytes): Option<bytes> {
    if s == [] then Some([])
    else if |s| < 4 then None
    else match FromGroup(s[0], s[1], s[2], s[3])
      case None => None
      case Some(group) =>
        if |s| == 4 then Some(group)
        else if |group| < 3 then None
        else match FromBase64(s[4..])
          case None => None
          case Some(rest) => Some(group + rest)
  }

  lemma GroupReadsBack(b0: byte, b1: byte, b2: byte)
    ensures FromGroup(Letter(b0 / 4), Letter(b0 % 4 * 16), PAD, PAD) == Some([b0])
    ensures FromGroup(Letter(b0 / 4), Letter(b0 % 4 * 16 + b1 / 16), Letter(b1 % 16 * 4), PAD) == Some([b0, b1])
    ensures FromGroup(Letter(b0 / 4), Letter(b0 % 4 * 16 + b1 / 16), Letter(b1 % 16 * 4 + b2 / 64), Letter(b2 % 64))
      == Some([b0, b1, b2])
  {
    hide Letter, Digit;
    PadIsNoDigit();
    LetterReadsBack(b0 / 4);
    LetterReadsBack(b0 % 4 * 16);
    LetterReadsBack(b0 % 4 * 16 + b1 / 16);
    LetterReadsBack(b1 % 16 * 4);
    LetterReadsBack(b1 % 16 * 4 + b2 / 64);
    LetterReadsBack(b2 % 64);
  }

  lemma PadIsNoDigit()
    ensures Digit(PAD) == None
  {
  }

  lemma {:induction false} Base64RoundTrip(b: bytes)
    ensures FromBase64(Base64(b)) == Some(b)
  {
    hide Letter, FromGroup;
    if |b| >= 3 {
      Base64RoundTrip(b[3..]);
      GroupReadsBack(b[0], b[1], b[2]);
      var s := Base64(b);
      assert FromGroup(s[0], s[1], s[2], s[3]) == Some([b[0], b[1], b[2]]);
      assert s[4..] == Base64(b[3..]);
      assert FromBase64(s[4..]) == Some(b[3..]);
      assert b == [b[0], b[1], b[2]] + b[3..];
      if |s| == 4 {
        assert b[3..] == [];
        assert b == [b[0], b[1], b[2]];
      }
    } else if |b| == 2 {
      GroupReadsBack(b[0], b[1], 0);
      assert b == [b[0], b[1]];
    } else if |b| == 1 {
      GroupReadsBack(b[0], 0, 0);
      assert b == [b[0]];
    } else {
      assert b == [] && FromBase64([]) == Some([]);
    }
  }

  lemma {:induction false} Base64HasNoSeparator(b: bytes)
    ensures BACKSLASH !in Base64(b) && COMMA !in Base64(b)
  {
    if |b| >= 3 {
      Base64HasNoSeparator(b[3..]);
    }
  }

  type Path = seq<bytes>

  function PrintPath(p: Path): bytes
    requires |p| == 2
  {
    Base64(p[0]) + [BACKSLASH] + Base64(p[1])
  }

  function Join(parts: seq<bytes>): bytes {
    if parts == [] then []
    else if |parts| == 1 then parts[0]
    else parts[0] + [COMMA] + Join(parts[1..])
  }

  /** A backslash stands between the two parts of a path. */
  lemma PathIsSpelled(p: Path)
    requires |p| == 2
    ensures PrintPath(p) == Base64(p[0]) + ['\\' as int] + Base64(p[1])
  {
    hide Base64;
  }

  /** Commas stand between paths, and nothing before the first or after the last. */
  lemma JoinIsSpelled(parts: seq<bytes>)
    ensures Join([]) == []
    ensures |parts| == 1 ==> Join(parts) == parts[0]
    ensures |parts| >= 2 ==> Join(parts) == parts[0] + [',' as int] + Join(parts[1..])
  {
  }

  function Printed(paths: seq<Path>): (parts: seq<bytes>)
    requires forall i :: 0 <= i < |paths| ==> |paths[i]| == 2
    ensures |parts| == |paths| && forall i :: 0 <= i < |paths| ==> parts[i] == PrintPath(paths[i])
  {
    if paths == [] then [] else Printed(paths[..|paths| - 1]) + [PrintPath(paths[|paths| - 1])]
  }

  /** `None` where the source panics: some path does not have two elements. */
  method ToBase64KeyPaths(paths: seq<Path>) returns (s: Option<bytes>)
    ensures s.Some? <==> forall i :: 0 <= i < |paths| ==> |paths[i]| == 2
    ensures s.Some? ==> s.value == Join(Printed(paths))
  {
    var keyPaths: seq<bytes> := [];
    for i := 0 to |paths|
      invariant forall j :: 0 <= j < i ==> |paths[j]| == 2
      invariant keyPaths == Printed(paths[..i])
    {
      var path := paths[i];
      if |path| != 2 {
        return None;
      }
      assert paths[..i + 1][..i] == paths[..i];
      keyPaths := keyPaths + [Base64(path[0]) + [BACKSLASH] + Base64(path[1])];
    }
    assert paths[..|paths|] == paths;
    return Some(Join(keyPaths));
  }

  // Reading it back

  function FirstIndex(s: bytes, c: byte): (i: nat)
    ensures i <= |s|
    ensures forall j :: 0 <= j < i ==> s[j] != c
    ensures i < |s| ==> s[i] == c
  {
    if s == [] || s[0] == c then 0 else 1 + FirstIndex(s[1..], c)
  }

  lemma FirstSeparator(a: bytes, c: byte, b: bytes)
    requires c !in a
    ensures FirstIndex(a + [c] + b, c) == |a|
  {
    var s := a + [c] + b;
    assert forall j :: 0 <= j < |a| ==> s[j] == a[j];
    assert s[|a|] == c;
  }

  lemma NoSeparator(a: bytes, c: byte)
    requires c !in a
    ensures FirstIndex(a, c) == |a|
  {
  }

  function ParsePath(s: bytes): Option<Path> {
    var i := FirstIndex(s, BACKSLASH);
    if i == |s| then None
    else match (FromBase64(s[..i]), FromBase64(s[i + 1..]))
      case (Some(a), Some(b)) => Some([a, b])
      case _ => None
  }

  /** Splits at commas; the empty string is the empty list. */
  function ParsePaths(s: bytes): Option<seq<Path>>
    decreases |s|
  {
    if s == [] then Some([])
    else
      var i := FirstIndex(s, COMMA);
      match ParsePath(s[..i])
      case None => None
      case Some(p) =>
        if i == |s| then Some([p])
        else match (if i + 1 == |s| then None else ParsePaths(s[i + 1..]))
          case None => None
          case Some(rest) => Some([p] + rest)
  }

  lemma PathRoundTrip(p: Path)
    requires |p| == 2
    ensures ParsePath(PrintPath(p)) == Some(p) && COMMA !in PrintPath(p) && PrintPath(p) != []
  {
    var a, b, s := Base64(p[0]), Base64(p[1]), PrintPath(p);
    Base64HasNoSeparator(p[0]);
    Base64HasNoSeparator(p[1]);
    FirstSeparator(a, BACKSLASH, b);
    assert s[..|a|] == a && s[|a| + 1..] == b;
    Base64RoundTrip(p[0]);
    Base64RoundTrip(p[1]);
    assert p == [p[0], p[1]];
  }

  lemma JoinStep(paths: seq<Path>)
    requires |paths| >= 2 && forall i :: 0 <= i < |paths| ==> |paths[i]| == 2
    ensures Join(Printed(paths)) == PrintPath(paths[0]) + [COMMA] + Join(Printed(paths[1..]))
    ensures Join(Printed(paths[1..])) != []
  {
    hide PrintPath, ParsePath;
    assert Printed(paths)[1..] == Printed(paths[1..]);
    PathRoundTrip(paths[1]);
    assert Printed(paths[1..])[0] == PrintPath(paths[1]);
  }

  /** Printing loses nothing: every list of two-element paths is read back from its print, so prints are distinct. */
  lemma {:induction false} PathsRoundTrip(paths: seq<Path>)
    requires forall i :: 0 <= i < |paths| ==> |paths[i]| == 2
    ensures ParsePaths(Join(Printed(paths))) == Some(paths)
  {
    hide ParsePath, PrintPath, Printed, ParsePaths;
    if |paths| == 0 {
      PrintedNone(paths);
    } else if |paths| == 1 {
      PrintedOne(paths);
      PathRoundTrip(paths[0]);
      ParseOne(PrintPath(paths[0]), paths[0]);
      assert paths == [paths[0]];
    } else {
      PathRoundTrip(paths[0]);
      JoinStep(paths);
      PathsRoundTrip(paths[1..]);
      ParseMore(PrintPath(paths[0]), paths[0], Join(Printed(paths[1..])), paths[1..]);
      assert paths == [paths[0]] + paths[1..];
    }
  }

  lemma ParseOne(first: bytes, p: Path)
    requires ParsePath(first) == Some(p) && COMMA !in first && first != []
    ensures ParsePaths(first) == Some([p])
  {
    NoSeparator(first, COMMA);
    assert first[..|first|] == first;
  }

  lemma ParseMore(first: bytes, p: Path, rest: bytes, ps: seq<Path>)
    requires ParsePath(first) == Some(p) && COMMA !in first && rest != [] && ParsePaths(rest) == Some(ps)
    ensures ParsePaths(first + [COMMA] + rest) == Some([p] + ps)
  {
    var s := first + [COMMA] + rest;
    FirstSeparator(first, COMMA, rest);
    assert s[..|first|] == first && s[|first| + 1..] == rest;
  }

  lemma PrintedNone(paths: seq<Path>)
    requires paths == []
    ensures Printed(paths) == [] && ParsePaths([]) == Some(paths)
  {
  }

  lemma PrintedOne(paths: seq<Path>)
    requires |paths| == 1 && |paths[0]| == 2
    ensures Printed(paths) == [PrintPath(paths[0])]
  {
  }

  lemma PrintingIsInjective(p: seq<Path>, q: seq<Path>)
    requires forall i :: 0 <= i < |p| ==> |p[i]| == 2
    requires forall i :: 0 <= i < |q| ==> |q[i]| == 2
    requires Join(Printed(p)) == Join(Printed(q))
    ensures p == q
  {
    PathsRoundTrip(p);
    PathsRoundTrip(q);
  }
}
