/** Which sent packets are still open: committed at their source and not yet delivered with a success. Each step
    opens one packet, settles one open packet, or leaves all of them as they are. */
module Settlement {
  import opened Bytes
  import opened Router
  import opened PacketSafety

  predicate Delivered(links: Links, w: World, s: Sent) {
    && Source(s) in links && links[Source(s)].chain < |w.chains|
    && var store := w.chains[links[Source(s)].chain].router.store;
    && AckPath(s.packet) in store && store[AckPath(s.packet)] != AckCommit([UNIVERSAL_ERROR_ACK])
  }

  predicate Open(links: Links, w: World, s: Sent) {
    s.chain < |w.chains| && Committed(w, s) && !Delivered(links, w, s)
  }

  function OpenFlags(links: Links, w: World): seq<bool> {
    seq(|w.log|, i requires 0 <= i < |w.log| => Open(links, w, w.log[i]))
  }

  /** Sending opens the new packet and touches no other. */
  lemma SendOpens(links: Links, w: World, x: nat, p: Packet, w': World)
    requires Inv(links, w) && Sends(links, w, x, p, w')
    ensures OpenFlags(links, w') == OpenFlags(links, w) + [true]
  {
    var n := |w.log|;
    forall i | 0 <= i < n ensures Open(links, w', w'.log[i]) == Open(links, w, w.log[i]) {
      LoggedOk(links, w, w.log[i]);
      PathsOf(p, w.log[i].packet);
    }
    NotDeliveredYet(links, w, x, p, w');
  }

  lemma NotDeliveredYet(links: Links, w: World, x: nat, p: Packet, w': World)
    requires Inv(links, w) && Sends(links, w, x, p, w')
    ensures Open(links, w', Sent(x, p))
  {
    var e := links[End(x, p.sourceClient)];
    PathsOf(p, p);
    if AckPath(p) in w.chains[e.chain].router.store {
      assert ChainOk(links, w.log, e.chain, w.chains[e.chain]);
      assert ReceiptPath(p) in w.chains[e.chain].router.store;
      LoggedOk(links, w, Sent(x, w.chains[e.chain].router.store[ReceiptPath(p)].packet));
    }
  }

  /** `w'` settles log entry `k` and leaves every other entry as it was. */
  ghost predicate Settles(links: Links, w: World, w': World, k: nat) {
    && k < |w.log| == |w'.log|
    && OpenFlags(links, w)[k] && OpenFlags(links, w') == OpenFlags(links, w)[k := false]
  }

  lemma SettlesBy(links: Links, w: World, w': World, k: nat)
    requires k < |w.log| && w'.log == w.log
    requires Open(links, w, w.log[k]) && !Open(links, w', w.log[k])
    requires forall i :: 0 <= i < |w.log| && i != k ==> Open(links, w', w.log[i]) == Open(links, w, w.log[i])
    ensures Settles(links, w, w', k)
  {
  }

  lemma EntriesDiffer(links: Links, w: World, i: nat, k: nat)
    requires LogOk(links, w) && i < |w.log| && k < |w.log| && i != k
    ensures !SameKey(w.log[i], w.log[k])
  {
    assert i < k ==> !SameKey(w.log[i], w.log[k]);
    assert k < i ==> !SameKey(w.log[k], w.log[i]);
  }

  /** A success settles the packet; an error acknowledgement leaves it open, to be refunded. */
  lemma RecvSettles(links: Links, w: World, x: nat, p: Packet, height: nat, ack: bytes, w': World) returns (k: nat)
    requires Inv(links, w) && Receives(links, w, x, p, height, ack, w')
    ensures k < |w.log| && w.log[k].packet == p && Source(w.log[k]) in links
    ensures links[Source(w.log[k])] == End(x, p.destClient)
    ensures if ack == UNIVERSAL_ERROR_ACK then OpenFlags(links, w') == OpenFlags(links, w)
            else Settles(links, w, w', k)
  {
    RecvFacts(links, w, x, p, height, ack, w');
    var s := Sent(links[End(x, p.destClient)].chain, p);
    k :| 0 <= k < |w.log| && w.log[k] == s;
    assert ChainOk(links, w.log, x, w.chains[x]);
    OwnOnReceive(links, w, x, p, ack, w', s);
    forall i | 0 <= i < |w.log| && i != k ensures Open(links, w', w.log[i]) == Open(links, w, w.log[i]) {
      EntriesDiffer(links, w, i, k);
      OtherKeptOnReceive(links, w, x, p, ack, w', s, w.log[i]);
    }
    if ack == UNIVERSAL_ERROR_ACK {
      assert OpenFlags(links, w') == OpenFlags(links, w);
    } else {
      SettlesBy(links, w, w', k);
    }
  }

  ghost predicate StoresReceipt(w: World, x: nat, p: Packet, ack: bytes, w': World) {
    && x < |w.chains|
    && var store := w.chains[x].router.store;
    && w' == SetStore(w, x, store[ReceiptPath(p) := ReceiptCommit(p)][AckPath(p) := AckCommit([ack])])
             .(calls := w'.calls)
  }

  lemma OwnOnReceive(links: Links, w: World, x: nat, p: Packet, ack: bytes, w': World, s: Sent)
    requires StoresReceipt(w, x, p, ack, w') && ReceiptsLogged(links, w.log, x, w.chains[x].router.store)
    requires s.packet == p && Source(s) in links && links[Source(s)] == End(x, p.destClient)
    requires s.chain < |w.chains| && Committed(w, s) && !Received(links, w, s)
    ensures Open(links, w, s) && (Open(links, w', s) <==> ack == UNIVERSAL_ERROR_ACK)
  {
    assert AckPath(p) !in w.chains[x].router.store;
    PathsOf(p, p);
  }

  lemma OtherKeptOnReceive(links: Links, w: World, x: nat, p: Packet, ack: bytes, w': World, s: Sent, t: Sent)
    requires Inv(links, w) && s in w.log && t in w.log && !SameKey(t, s)
    requires s.packet == p && Source(s) in links && links[Source(s)] == End(x, p.destClient)
    requires StoresReceipt(w, x, p, ack, w')
    ensures Open(links, w', t) == Open(links, w, t)
  {
    LoggedOk(links, w, t);
    PathsOf(t.packet, p);
    assert links[Source(t)] == links[Source(s)] ==> Source(t) == links[links[Source(s)]] == Source(s);
  }

  /** An acknowledgement settles the packet exactly if it is the error acknowledgement; otherwise the packet was
      settled when it was received. */
  lemma AckSettles(links: Links, w: World, x: nat, p: Packet, ack: bytes, height: nat, w': World) returns (k: nat)
    requires Inv(links, w) && Acknowledges(links, w, x, p, ack, height, w')
    ensures k < |w.log| && w.log[k] == Sent(x, p)
    ensures if ack == UNIVERSAL_ERROR_ACK then Settles(links, w, w', k)
            else OpenFlags(links, w') == OpenFlags(links, w)
  {
    AckFacts(links, w, x, p, ack, height, w');
    k := CloseSettles(links, w, x, p, w', OnAck(x, p, ack));
    assert Delivered(links, w, w.log[k]) <==> ack != UNIVERSAL_ERROR_ACK;
    if ack != UNIVERSAL_ERROR_ACK {
      assert OpenFlags(links, w') == OpenFlags(links, w);
    } else {
      SettlesBy(links, w, w', k);
    }
  }

  lemma TimeoutSettles(links: Links, w: World, x: nat, p: Packet, height: nat, w': World) returns (k: nat)
    requires Inv(links, w) && TimesOut(links, w, x, p, height, w')
    ensures k < |w.log| && w.log[k] == Sent(x, p) && Settles(links, w, w', k)
  {
    TimeoutFacts(links, w, x, p, height, w');
    k := CloseSettles(links, w, x, p, w', OnTimeout(x, p));
    var y := links[Source(w.log[k])].chain;
    assert ChainOk(links, w.log, y, w.chains[y]);
    SettlesBy(links, w, w', k);
  }

  lemma CloseSettles(links: Links, w: World, x: nat, p: Packet, w': World, call: Call) returns (k: nat)
    requires Inv(links, w) && Closes(links, w, x, p, w', call) && Sent(x, p) in w.log
    ensures k < |w.log| && w.log[k] == Sent(x, p) && w'.log == w.log && !Open(links, w', w.log[k])
    ensures forall i :: 0 <= i < |w.log| && i != k ==> Open(links, w', w.log[i]) == Open(links, w, w.log[i])
  {
    k :| 0 <= k < |w.log| && w.log[k] == Sent(x, p);
    forall i | 0 <= i < |w.log| && i != k ensures Open(links, w', w.log[i]) == Open(links, w, w.log[i]) {
      var t := w.log[i];
      LoggedOk(links, w, t);
      PathsOf(p, t.packet);
      EntriesDiffer(links, w, i, k);
    }
  }

  lemma AdvanceSettlesNothing(links: Links, w: World, x: nat, time: nat, w': World)
    requires Advances(w, x, time, w')
    ensures OpenFlags(links, w') == OpenFlags(links, w)
  {
    forall i | 0 <= i < |w.log| ensures Open(links, w', w.log[i]) == Open(links, w, w.log[i]) {}
  }
}
