/** A connection that is closed by packets was closed by both sides. */
module CloseSafety {
  import opened Tcp
  import opened Connection
  import opened Splice
  import opened Machine
  import opened JointStates

  // ---------- what packet `n` of a life is ----------

  predicate ClientFin(life: Life, n: nat) {
    n < |life.log| && life.log[n].FromClient? &&
    ClientBranchOf(life.At(n), life.log[n].p) in {FinAnswer, FinCrossing, FinEarly, FinFirst}
  }

  /** A client FIN the proxy answers itself, because the server side is not established. */
  predicate EarlyFin(life: Life, n: nat) {
    n < |life.log| && life.log[n].FromClient? && ClientBranchOf(life.At(n), life.log[n].p) == FinEarly
  }

  predicate ServerFin(life: Life, n: nat) {
    n < |life.log| && life.log[n].FromServer? &&
    ServerBranchOf(life.At(n), life.log[n].p) in {ServerFinAnswer, ServerFinCrossing, ServerFinFirst}
  }

  /** A server packet that acknowledges the client's FIN as the proxy recorded it. */
  predicate ServerAcks(life: Life, n: nat) {
    n < |life.log| && life.log[n].FromServer? && life.log[n].p.ack &&
    life.log[n].p.ackn == WrapAdd(life.At(n).q.seqnFinP2s, 1)
  }

  /** A client packet that acknowledges the FIN the proxy last recorded towards the client. */
  predicate ClientAcks(life: Life, n: nat) {
    n < |life.log| && life.log[n].FromClient? && life.log[n].p.ack && life.log[n].p.ackn == life.At(n).q.word
  }

  ghost predicate ClientClosing(life: Life, n: nat) {
    exists i :: 0 <= i < n && ClientFin(life, i)
  }

  ghost predicate ServerClosing(life: Life, n: nat) {
    exists i :: 0 <= i < n && ServerFin(life, i)
  }

  ghost predicate ClosedEarly(life: Life, n: nat) {
    exists i :: 0 <= i < n && EarlyFin(life, i)
  }

  /** The client's FIN was answered by a later acknowledgement from the server. */
  ghost predicate ClientFinAcked(life: Life, n: nat) {
    exists i, j :: 0 <= i < j < n && ClientFin(life, i) && ServerAcks(life, j)
  }

  ghost predicate ServerFinAcked(life: Life, n: nat) {
    exists i, j :: 0 <= i < j < n && ServerFin(life, i) && ClientAcks(life, j)
  }

  /** The proxy's own FIN was answered by a later acknowledgement from the client. */
  ghost predicate ProxyFinAcked(life: Life, n: nat) {
    exists i, j :: 0 <= i < j < n && EarlyFin(life, i) && ClientAcks(life, j)
  }

  // ---------- what each joint state proves about the past ----------

  predicate NeedsClientFin(j: Pair) {
    j.0 in {LastAck, FinWait1, Closing, FinWait2, Closed} || j.1 in {Closing, LastAck, Closed}
  }

  predicate NeedsClientFinAcked(j: Pair) {
    || j.1 == LastAck || j.0 in {FinWait2, Closed}
    || (j.0 in {SynSent, Established} && j.1 == Closing) || j == (CloseWait, Closed)
  }

  predicate NeedsServerFin(j: Pair) {
    j.1 in {FinWait1, FinWait2, Closing, Closed, LastAck}
  }

  predicate NeedsServerFinAcked(j: Pair) {
    j.0 in {LastAck, CloseWait} || j.1 in {Closed, FinWait2}
  }

  ghost predicate Justified(life: Life, n: nat)
    requires n <= |life.log|
  {
    var j := life.At(n).Pair();
    if j == (Closed, Listen) then true
    else if ClosedEarly(life, n) then
      NeedsServerFinAcked(j) ==> ProxyFinAcked(life, n)
    else
      && (NeedsClientFin(j) ==> ClientClosing(life, n))
      && (NeedsClientFinAcked(j) ==> ClientFinAcked(life, n))
      && (NeedsServerFin(j) ==> ServerClosing(life, n))
      && (NeedsServerFinAcked(j) ==> ServerFinAcked(life, n))
  }

  /** Which claims about the past a client packet can add. */
  lemma ClientNeeds(q: Words, j: Pair, p: Packet)
    requires Listed(j) || (j == (Closed, Listen) && p.syn)
    ensures j == (Closed, Listen) ==> ClassifyClient(q, j, p) == OpenSyn
    ensures var b := ClassifyClient(q, j, p);
      var k := ClientPair(b, j);
      b != Reset && b != FinEarly && j != (Closed, Listen) ==>
        && (NeedsClientFin(k) ==> NeedsClientFin(j) || b in {FinAnswer, FinCrossing, FinFirst})
        && (NeedsClientFinAcked(k) ==> NeedsClientFinAcked(j))
        && (NeedsServerFin(k) ==> NeedsServerFin(j))
        && (NeedsServerFinAcked(k) ==> NeedsServerFinAcked(j) || (p.ack && p.ackn == q.word && NeedsServerFin(j)))
  {
  }

  lemma ServerNeeds(q: Words, j: Pair, p: Packet)
    requires Listed(j)
    ensures var b := ClassifyServer(q, j, p);
      var k := ServerPair(b, j);
      && (NeedsClientFin(k) ==> NeedsClientFin(j))
      && (NeedsClientFinAcked(k) ==>
            NeedsClientFinAcked(j) || (p.ack && p.ackn == WrapAdd(q.seqnFinP2s, 1) && NeedsClientFin(j)))
      && (NeedsServerFin(k) ==> NeedsServerFin(j) || b in {ServerFinAnswer, ServerFinCrossing, ServerFinFirst})
      && (NeedsServerFinAcked(k) ==> NeedsServerFinAcked(j))
  {
  }

  /** What the past gains with packet `n`. */
  lemma PastGrows(life: Life, n: nat)
    ensures ClosedEarly(life, n + 1) <==> ClosedEarly(life, n) || EarlyFin(life, n)
    ensures ClientClosing(life, n) || ClientFin(life, n) ==> ClientClosing(life, n + 1)
    ensures ServerClosing(life, n) || ServerFin(life, n) ==> ServerClosing(life, n + 1)
    ensures ClientFinAcked(life, n) || (ClientClosing(life, n) && ServerAcks(life, n)) ==> ClientFinAcked(life, n + 1)
    ensures ServerFinAcked(life, n) || (ServerClosing(life, n) && ClientAcks(life, n)) ==> ServerFinAcked(life, n + 1)
    ensures ProxyFinAcked(life, n) || (ClosedEarly(life, n) && ClientAcks(life, n)) ==> ProxyFinAcked(life, n + 1)
  {
    hide ClientFin, EarlyFin, ServerFin, ServerAcks, ClientAcks;
  }

  lemma JustifiedStep(life: Life, n: nat)
    requires n < |life.log| && Justified(life, n)
    requires Listed(life.At(n).Pair()) || (life.At(n).Pair() == (Closed, Listen) && !ClosedEarly(life, n))
    requires Routed(life.At(n), life.log[n])
    requires !(life.log[n].FromClient? && ClientBranchOf(life.At(n), life.log[n].p) == Reset)
    ensures Justified(life, n + 1)
  {
    hide ClientWords, ClientRecord, ServerRecord, AfterToServer, AfterToClient, AfterSynAck, ClassifyClient, ClassifyServer,
         ClosedEarly, ClientClosing, ServerClosing, ClientFinAcked, ServerFinAcked, ProxyFinAcked;
    var c := life.At(n);
    PastGrows(life, n);
    match life.log[n]
    case FromClient(p, _) => ClientNeeds(c.q, c.Pair(), p);
    case FromServer(p) => ServerNeeds(c.q, c.Pair(), p);
  }

  lemma {:induction false} AlwaysJustified(life: Life, n: nat)
    requires life.Valid() && n <= |life.log|
    requires n > 0 ==> !(life.log[n - 1].FromClient? && ClientBranchOf(life.At(n - 1), life.log[n - 1].p) == Reset)
    ensures Justified(life, n)
    decreases n
  {
    if n > 0 {
      assert n > 1 ==> !life.Out(n - 2).release;
      AlwaysJustified(life, n - 1);
      if n > 1 {
        OnlyListed(life, n - 1);
      }
      JustifiedStep(life, n - 1);
    }
  }

  /** Whatever packets arrive in whatever order: a connection released otherwise than by a client RST (or a timeout,
      which is no packet) had its client FIN acknowledged by the server and the server's FIN acknowledged by the
      client; if the client closed before the server side was up, the proxy's own FIN was acknowledged instead. */
  lemma CloseIsMutual(life: Life)
    requires life.Valid() && life.log != []
    requires life.Out(|life.log| - 1).release
    requires !(life.log[|life.log| - 1].FromClient? &&
               ClientBranchOf(life.At(|life.log| - 1), life.log[|life.log| - 1].p) == Reset)
    ensures var n := |life.log|;
      || (ClientFinAcked(life, n) && ServerFinAcked(life, n) && !ClosedEarly(life, n))
      || (ClosedEarly(life, n) && ProxyFinAcked(life, n))
  {
    AlwaysJustified(life, |life.log|);
    assert life.At(|life.log|).Pair() == (Closed, Closed);
  }

  /** Such lives do exist. */
  lemma CloseOccurs(cfg: Config, sock: Sock, port: U16) returns (life: Life)
    requires port != 0
    ensures life.Valid() && life.log != [] && life.cfg == cfg && life.c0.InUse()
    ensures life.Out(|life.log| - 1).release
    ensures !(life.log[|life.log| - 1].FromClient? &&
              ClientBranchOf(life.At(|life.log| - 1), life.log[|life.log| - 1].p) == Reset)
  {
    var open := EachOccurs(cfg, sock, port, false, (FinWait2, LastAck));
    LastProbe(cfg, open.Now());
    hide Next, Output, Routed, ProbeEv, ClassifyClient, Fresh;
    var e := ProbeEv(cfg, open.Now(), CAck, NoEnv);
    open.ThenValid(e);
    open.ThenAt(e, |open.log|);
    life := open.Then(e);
  }

  lemma LastProbe(cfg: Config, c: Con)
    requires c.Pair() == (FinWait2, LastAck)
    ensures var e := ProbeEv(cfg, c, CAck, NoEnv);
      e.FromClient? && Routed(c, e) && Output(cfg, c, e).release && ClientBranchOf(c, e.p) == FinalAck
  {
    hide Next, Output;
    ProbeTakesArm(cfg, c, CAck, NoEnv);
  }
}
