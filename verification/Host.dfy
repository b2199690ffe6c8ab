/** ICS-24 commitment paths. */
module Host {
  import opened Bytes

  const PACKET_KIND: byte := 1
  const RECEIPT_KIND: byte := 2
  const ACK_KIND: byte := 3

  /** The store path of one packet record: client id, kind byte, big-endian sequence. */
  function Path(client: bytes, kind: byte, sequence: uint64): (path: bytes)
    ensures |path| == |client| + 9
  {
    client + [kind] + BigEndian(sequence, 8)
  }

  function PathClient(path: bytes): bytes {
    if |path| < 9 then [] else path[..|path| - 9]
  }

  function PathKind(path: bytes): byte {
    if |path| < 9 then 0 else path[|path| - 9]
  }

  function PathSequence(path: bytes): nat {
    if |path| < 9 then 0 else FromBigEndian(path[|path| - 8..])
  }

  /** A path can be read back, so packet, receipt and acknowledgement records of all clients share one store
      without ever sharing a path. */
  lemma PathReadsBack(client: bytes, kind: byte, sequence: uint64)
    ensures PathClient(Path(client, kind, sequence)) == client
    ensures PathKind(Path(client, kind, sequence)) == kind
    ensures PathSequence(Path(client, kind, sequence)) == sequence
  {
    var path := Path(client, kind, sequence);
    assert path[|path| - 8..] == BigEndian(sequence, 8);
    WordWidths();
    BigEndianRoundTrip(sequence, 8);
  }

  lemma PathsReadBack()
    ensures forall client: bytes, kind: byte, sequence: uint64 {:trigger Path(client, kind, sequence)} ::
      && PathClient(Path(client, kind, sequence)) == client
      && PathKind(Path(client, kind, sequence)) == kind
      && PathSequence(Path(client, kind, sequence)) == sequence
  {
    forall client: bytes, kind: byte, sequence: uint64
      ensures && PathClient(Path(client, kind, sequence)) == client
              && PathKind(Path(client, kind, sequence)) == kind
              && PathSequence(Path(client, kind, sequence)) == sequence
    {
      PathReadsBack(client, kind, sequence);
    }
  }
}
