/** What the FIN words of a connection mean whenever the proxy compares an acknowledgement with them. */
module WordDiscipline {
  import opened Tcp
  import opened Connection
  import opened Splice
  import opened Machine
  import opened JointStates
  import opened CloseSafety

  /** The acknowledgement that the latest FIN put on the wire to the client asks for, seen from the outside:
      a forwarded server FIN counts with its payload, the proxy's own FIN without. */
  function FinToClient(life: Life, n: nat): Option<U32>
    requires n <= |life.log|
  {
    if n == 0 then None
    else
      var e, out := life.log[n - 1], life.Out(n - 1).pkt;
      if e.FromServer? && out.fin && ForwardsServer(life.At(n - 1).Pair()) then Some(FinEnd(out.seqn, out.payload))
      else if EarlyFin(life, n - 1) then Some(WrapAdd(out.seqn, 1))
      else FinToClient(life, n - 1)
  }

  /** The sequence number of the latest FIN put on the wire to the server. */
  function FinToServer(life: Life, n: nat): Option<U32>
    requires n <= |life.log|
  {
    if n == 0 then None
    else
      var e, out := life.log[n - 1], life.Out(n - 1).pkt;
      if e.FromClient? && out.fin && ForwardsClient(life.At(n - 1).Pair()) then Some(out.seqn)
      else FinToServer(life, n - 1)
  }

  /** Every server FIN among the first `n` packets came once the server side was established. */
  ghost predicate ServerFinsTimely(life: Life, n: nat)
    requires n <= |life.log|
  {
    forall i :: 0 <= i < n && ServerFin(life, i) ==> AtLeast(life.At(i).sState, Established)
  }

  predicate ServerClosed(s: TcpState) {
    s in {LastAck, FinWait1, Closing, FinWait2, Closed}
  }

  /** The joint states in which the client's FIN has gone to the server. */
  predicate ClientFinSent(j: Pair) {
    NeedsClientFin(j) || j == (SynSent, FinWait1)
  }

  /** The words agree with the wire. */
  ghost predicate Disciplined(life: Life, n: nat)
    requires n <= |life.log|
  {
    var c := life.At(n);
    && (FinToClient(life, n).Some? ==>
          c.q.word == FinToClient(life, n).value && c.q.wordUse == AckForFin && AtLeast(c.sState, Established))
    && (FinToServer(life, n).Some? ==> c.q.seqnFinP2s == FinToServer(life, n).value)
    && (c.Pair() != (Closed, Listen) && ServerClosed(c.sState) ==> FinToClient(life, n).Some?)
    && (c.Pair() != (Closed, Listen) && ClientFinSent(c.Pair()) && !ClosedEarly(life, n) ==> FinToServer(life, n).Some?)
  }

  // ---------- one step on the joint states ----------

  lemma ClientSends(q: Words, j: Pair, p: Packet)
    requires Listed(j) || (j == (Closed, Listen) && p.syn)
    ensures var b := ClassifyClient(q, j, p);
      var k := ClientPair(b, j);
      && (j == (Closed, Listen) ==> b == OpenSyn && !ClientFinSent(k) && !ServerClosed(k.1))
      && (b != FinEarly && ServerClosed(k.1) ==> ServerClosed(j.1))
      && (b == FinEarly || b == FirstPayload ==> !AtLeast(j.1, Established))
      && (b !in {FinEarly, OpenSyn, FirstPayload, Reset} && ClientFinSent(k) ==>
            ClientFinSent(j) || (p.fin && ForwardsClient(j)))
      && (b == OpenSyn && j != (Closed, Listen) ==> ClientFinSent(j))
      && (AtLeast(j.1, Established) ==> AtLeast(k.1, Established))
      && (b == FirstPayload ==> !ClientFinSent(k))
      && (b == FinEarly ==> AtLeast(k.1, Established))
  {
  }

  lemma ServerSends(q: Words, j: Pair, p: Packet)
    requires Listed(j)
    ensures var b := ClassifyServer(q, j, p);
      var k := ServerPair(b, j);
      && (ServerClosed(k.1) ==> ServerClosed(j.1) || b in {ServerFinAnswer, ServerFinCrossing, ServerFinFirst})
      && (b in {ServerFinAnswer, ServerFinCrossing, ServerFinFirst} ==>
            p.fin && (AtLeast(j.1, Established) && !ServerClosed(j.1) ==> ForwardsServer(j)))
      && (ClientFinSent(k) ==> ClientFinSent(j) || (b == ServerFinFirst && !AtLeast(j.1, Established)))
      && (AtLeast(j.1, Established) || ForwardsServer(j) ==> AtLeast(j.1, Established) && AtLeast(k.1, Established))
      && (b == SynAckAccepted ==> !AtLeast(j.1, Established) && !ForwardsServer(j))
  {
  }

  // ---------- one step on the words ----------

  lemma ClientStepWords(cfg: Config, c: Con, p: Packet, env: Env)
    ensures var b, c1, out := ClientBranchOf(c, p), ClientNext(cfg, c, p, env), ClientOut(cfg, c, p, env).pkt;
      && out.fin == p.fin
      && (b == FinEarly ==> c1.q.word == WrapAdd(out.seqn, 1) && c1.q.wordUse == AckForFin && !ForwardsClient(c.Pair()))
      && (b != FinEarly && b != FirstPayload ==> c1.q.word == c.q.word && c1.q.wordUse == c.q.wordUse)
      && c1.q.seqnFinP2s == (if out.fin && ForwardsClient(c.Pair()) then out.seqn else c.q.seqnFinP2s)
  {
    hide ClientRecord, ClientPair, ClientGroup, ClientCountC, ClientCountS;
  }

  lemma ServerStepWords(cfg: Config, c: Con, p: Packet)
    requires ServerBranchOf(c, p) == SynAckAccepted ==> !ForwardsServer(c.Pair())
    ensures var b, c1, out := ServerBranchOf(c, p), ServerNext(c, p), ServerOut(cfg, c, p).pkt;
      && c1.q.seqnFinP2s == c.q.seqnFinP2s
      && (ForwardsServer(c.Pair()) ==> out.fin == p.fin)
      && (out.fin && ForwardsServer(c.Pair()) ==>
            c1.q.word == FinEnd(out.seqn, out.payload) && c1.q.wordUse == AckForFin)
      && (b != SynAckAccepted && !(out.fin && ForwardsServer(c.Pair())) ==>
            c1.q.word == c.q.word && c1.q.wordUse == c.q.wordUse)
  {
    hide ServerRecord, ServerPair, ServerCountC, ServerCountS;
  }

  lemma DisciplinedClientStep(life: Life, n: nat)
    requires n < |life.log| && life.log[n].FromClient? && Disciplined(life, n)
    requires Listed(life.At(n).Pair()) || (life.At(n).Pair() == (Closed, Listen) && life.log[n].p.syn)
    requires ClientBranchOf(life.At(n), life.log[n].p) != Reset
    ensures Disciplined(life, n + 1)
  {
    hide ClientNext, ClientOut, ServerNext, ServerOut, ClientPair, ClassifyClient, ClosedEarly, ClientFinSent, ServerClosed,
         ForwardsClient, Listed, Rank;
    var c, p, env := life.At(n), life.log[n].p, life.log[n].env;
    PastGrows(life, n);
    ClientSends(c.q, c.Pair(), p);
    ClientStepWords(life.cfg, c, p, env);
    NextPair(life, n);
  }

  /** The FINs on the wire after a server packet. */
  lemma ServerFinsGrow(life: Life, n: nat)
    requires n < |life.log| && life.log[n].FromServer?
    ensures FinToServer(life, n + 1) == FinToServer(life, n)
    ensures var out := life.Out(n).pkt;
      FinToClient(life, n + 1) ==
      if out.fin && ForwardsServer(life.At(n).Pair()) then Some(FinEnd(out.seqn, out.payload)) else FinToClient(life, n)
  {
    hide Next, Output;
  }

  lemma DisciplinedServerStep(life: Life, n: nat)
    requires n < |life.log| && life.log[n].FromServer? && Disciplined(life, n) && ServerFinsTimely(life, n + 1)
    requires Listed(life.At(n).Pair())
    ensures Disciplined(life, n + 1)
  {
    assert life.At(n).Pair() != (Closed, Listen);
    hide ClientNext, ClientOut, ServerNext, ServerOut, ServerPair, ClassifyServer, ClosedEarly, ClientFinSent, ServerClosed,
         ForwardsServer, Listed, Rank, FinToClient, FinToServer, FinEnd;
    ServerFinsGrow(life, n);
    var c, p := life.At(n), life.log[n].p;
    PastGrows(life, n);
    ServerSends(c.q, c.Pair(), p);
    ServerStepWords(life.cfg, c, p);
    NextPair(life, n);
    assert ServerFin(life, n) ==> AtLeast(c.sState, Established);
  }

  lemma {:induction false} AlwaysDisciplined(life: Life, n: nat)
    requires life.Valid() && n <= |life.log| && ServerFinsTimely(life, n)
    requires n > 0 ==> !(life.log[n - 1].FromClient? && ClientBranchOf(life.At(n - 1), life.log[n - 1].p) == Reset)
    ensures Disciplined(life, n)
    decreases n
  {
    hide Next, Output, Listed, ClientBranchOf;
    if n > 0 {
      assert n > 1 ==> !life.Out(n - 2).release;
      assert Routed(life.At(n - 1), life.log[n - 1]);
      if n > 1 {
        NoResetBefore(life, n - 1);
        OnlyListed(life, n - 1);
      }
      AlwaysDisciplined(life, n - 1);
      if life.log[n - 1].FromClient? {
        DisciplinedClientStep(life, n - 1);
      } else {
        DisciplinedServerStep(life, n - 1);
      }
    }
  }

  /** Where acknowledgements matter, the other side's FIN is out. */
  lemma Compares(q: Words, j: Pair, p: Packet)
    ensures ClassifyClient(q, j, p) in {FinAnswer, FinCrossing, AckOfFin, FinalAck} ==> ServerClosed(j.1)
    ensures Listed(j) && ClassifyServer(q, j, p) in {ServerFinAnswer, ServerFinCrossing, ServerAckOfFin} ==>
      ClientFinSent(j)
  {
  }

  /** If server FINs come only once the server side is established, every comparison with the shared word that can
      change a state sees the end of the latest FIN sent to the client, never a leftover forward sequence number;
      and without an early close every comparison on the server side sees the latest FIN sent to the server. */
  lemma ComparisonsSeeTheFin(life: Life, n: nat)
    requires life.Valid() && n < |life.log| && ServerFinsTimely(life, n)
    ensures life.log[n].FromClient? &&
            ClientBranchOf(life.At(n), life.log[n].p) in {FinAnswer, FinCrossing, AckOfFin, FinalAck} ==>
      FinToClient(life, n) == Some(life.At(n).q.word) && life.At(n).q.wordUse == AckForFin
    ensures life.log[n].FromServer? && !ClosedEarly(life, n) &&
            ServerBranchOf(life.At(n), life.log[n].p) in {ServerFinAnswer, ServerFinCrossing, ServerAckOfFin} ==>
      FinToServer(life, n) == Some(life.At(n).q.seqnFinP2s)
  {
    var c := life.At(n);
    Compares(c.q, c.Pair(), life.log[n].p);
    hide Next, Output, Listed, ClassifyClient, ClassifyServer, ClientFinSent, FinToClient, FinToServer, ClosedEarly;
    if n > 0 {
      StillOpen(life, n);
    }
    assert Routed(c, life.log[n]);
    AlwaysDisciplined(life, n);
  }

  // ---------- close safety on the wire ----------

  /** The server acknowledged the latest FIN that had been sent to it. */
  predicate ServerAckOnWire(life: Life, n: nat) {
    n < |life.log| && life.log[n].FromServer? && life.log[n].p.ack &&
    FinToServer(life, n).Some? && life.log[n].p.ackn == WrapAdd(FinToServer(life, n).value, 1)
  }

  /** The client acknowledged the latest FIN that had been sent to it. */
  predicate ClientAckOnWire(life: Life, n: nat) {
    n < |life.log| && life.log[n].FromClient? && life.log[n].p.ack && FinToClient(life, n) == Some(life.log[n].p.ackn)
  }

  lemma {:induction false} FinsStay(life: Life, i: nat, n: nat)
    requires i <= n <= |life.log|
    ensures FinToClient(life, i).Some? ==> FinToClient(life, n).Some?
    ensures FinToServer(life, i).Some? ==> FinToServer(life, n).Some?
    decreases n
  {
    hide Output, EarlyFin, ForwardsClient, ForwardsServer, Next;
    if i < n {
      FinsStay(life, i, n - 1);
    }
  }

  lemma ClientFinArm(q: Words, j: Pair, p: Packet)
    ensures ClassifyClient(q, j, p) in {FinAnswer, FinCrossing, FinFirst} ==>
      ClientFinSent(ClientPair(ClassifyClient(q, j, p), j))
    ensures ClassifyServer(q, j, p) in {ServerFinAnswer, ServerFinCrossing, ServerFinFirst} ==>
      ServerClosed(ServerPair(ClassifyServer(q, j, p), j).1)
  {
  }

  /** After a FIN of either side, that FIN or an earlier one of the same side is out. */
  lemma FinIsOut(life: Life, i: nat)
    requires life.Valid() && i + 1 < |life.log| && ServerFinsTimely(life, i + 1) && !ClosedEarly(life, i + 1)
    ensures ClientFin(life, i) ==> FinToServer(life, i + 1).Some?
    ensures ServerFin(life, i) ==> FinToClient(life, i + 1).Some?
  {
    hide ClientPair, ServerPair, ClientFinSent, ServerClosed, ClassifyClient, ClassifyServer, Next, Output,
         FinToClient, FinToServer, ClosedEarly, Listed, ServerFinsTimely, Routed, Fresh;
    PastGrows(life, i);
    NextPair(life, i);
    ClientFinArm(life.At(i).q, life.At(i).Pair(), life.log[i].p);
    StillOpen(life, i + 1);
    AlwaysDisciplined(life, i + 1);
  }

  /** Close safety on the wire: if server FINs are timely and the client does not close early, a connection released
      otherwise than by a client RST had the FIN sent to the server acknowledged by the server
      and the FIN sent to the client acknowledged by the client. */
  lemma CloseIsMutualOnWire(life: Life)
    requires life.Valid() && life.log != [] && life.Out(|life.log| - 1).release
    requires !(life.log[|life.log| - 1].FromClient? &&
               ClientBranchOf(life.At(|life.log| - 1), life.log[|life.log| - 1].p) == Reset)
    requires ServerFinsTimely(life, |life.log|) && !ClosedEarly(life, |life.log|)
    ensures exists j :: 0 <= j < |life.log| && ServerAckOnWire(life, j)
    ensures exists j :: 0 <= j < |life.log| && ClientAckOnWire(life, j)
  {
    hide Next, Output, ClientFin, ServerFin, EarlyFin, FinToClient, FinToServer, ClassifyClient;
    CloseIsMutual(life);
    var n := |life.log|;
    var i, j :| 0 <= i < j < n && ClientFin(life, i) && ServerAcks(life, j);
    AckSeesFin(life, i, j);
    assert ServerAckOnWire(life, j);
    var k, l :| 0 <= k < l < n && ServerFin(life, k) && ClientAcks(life, l);
    AckSeesFin(life, k, l);
    assert ClientAckOnWire(life, l);
  }

  lemma AckSeesFin(life: Life, i: nat, j: nat)
    requires life.Valid() && i < j < |life.log|
    requires ServerFinsTimely(life, |life.log|) && !ClosedEarly(life, |life.log|)
    ensures ClientFin(life, i) ==> FinToServer(life, j) == Some(life.At(j).q.seqnFinP2s)
    ensures ServerFin(life, i) ==> FinToClient(life, j) == Some(life.At(j).q.word)
  {
    hide Next, Output, ClientFin, ServerFin, EarlyFin, FinToClient, FinToServer, ClassifyClient, ClientFinSent, ServerClosed;
    FinIsOut(life, i);
    FinsStay(life, i + 1, j);
    StillOpen(life, j);
    AlwaysDisciplined(life, j);
  }
}
