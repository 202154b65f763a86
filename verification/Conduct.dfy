/** What the proxy does with each packet, told from the packet, the pair of states and the numbers on the wire. */
module Conduct {
  import opened Tcp
  import opened Connection
  import opened Splice
  import opened Machine
  import opened JointStates
  import opened SpliceRuns
  import opened Wire
  import opened CloseSafety
  import opened History

  /** Packet `n` comes from the client. */
  predicate ByClient(life: Life, n: nat) {
    n < |life.log| && life.log[n].FromClient?
  }

  predicate ByServer(life: Life, n: nat) {
    n < |life.log| && life.log[n].FromServer?
  }

  /** The client acknowledges the FIN it got last, or answers it. */
  predicate AcksIt(w: Numbers, p: Packet) {
    p.ack && p.ackn == w.awaited
  }

  predicate ServerAcksIt(w: Numbers, p: Packet) {
    p.ack && p.ackn == Plus(w.finToServer, 1)
  }

  /** The client packet changes no state. */
  predicate Idle(j: Pair, w: Numbers, p: Packet) {
    !Opens(j, p) && !Shakes(j, w, p) && !Fins(j, w, p) && !IsReset(j, w, p) && !AcksServerFin(j, w, p) && !Pays(j, w, p)
  }

  predicate ServerIdle(j: Pair, w: Numbers, p: Packet) {
    !Accepts(j, p) && !ServerCloses(p) && !AcksClientFin(j, w, p)
  }

  // ---------- what a client packet does ----------

  /** From pair `j` to pair `k` with client packet `p`. */
  predicate ClientMoves(j: Pair, w: Numbers, p: Packet, k: Pair) {
    && (Opens(j, p) ==> k == (SynSent, j.1)) && (Shakes(j, w, p) ==> k == (Established, j.1))
    && (Pays(j, w, p) ==> k == (Established, SynReceived)) && (IsReset(j, w, p) ==> k == (Closed, j.1))
    && (FinsEarly(j, w, p) ==> k == (FinWait1, LastAck))
    && (Fins(j, w, p) && j.1 in {Established, LastAck} ==> k == (FinWait1, j.1))
    && (FinsLate(j, w, p) && AcksIt(w, p) ==> k == (LastAck, j.1))
    && (FinsLate(j, w, p) && !AcksIt(w, p) ==>
          k == (Closing, if j.1 == FinWait1 then Closing else if j.1 == FinWait2 then Closed else j.1))
    && (AcksServerFin(j, w, p) ==>
          k == if j.1 == LastAck then (Closed, Closed)
               else (if j.0 == Established then CloseWait else j.0,
                     if j.1 == FinWait1 then FinWait2 else if j.1 == Closing then Closed else j.1))
    && (Idle(j, w, p) ==> k == j)
  }

  /** The statistics of both sides. */
  predicate ClientCounts(j: Pair, w: Numbers, p: Packet, c: Counter, s: Counter) {
    && (Opens(j, p) ==> (c, s) == (multiset{RecvSyn, SentSynAck}, multiset{}))
    && (Shakes(j, w, p) ==> (c, s) == (multiset{RecvSynAck2}, multiset{}))
    && (Pays(j, w, p) ==> (c, s) == (multiset{RecvPayload}, multiset{SentSyn}))
    && (FinsEarly(j, w, p) ==> (c, s) == (multiset{RecvFin, SentFinPssv, SentAck4Fin}, multiset{}))
    && (FinsLate(j, w, p) && AcksIt(w, p) ==>
          (c, s) == (multiset{RecvFinPssv, RecvAck4Fin}, multiset{SentFinPssv, SentAck4Fin}))
    && (Fins(j, w, p) && !FinsEarly(j, w, p) && !(FinsLate(j, w, p) && AcksIt(w, p)) ==>
          (c, s) == (multiset{RecvFin}, multiset{SentFin}))
    && (IsReset(j, w, p) ==> (c, s) == (multiset{RecvRst}, multiset{}))
    && (AcksServerFin(j, w, p) ==> (c, s) == (multiset{RecvAck4Fin}, multiset{SentAck4Fin}))
    && (Idle(j, w, p) ==> (c, s) == (if Strays(j, w, p) then multiset{Unexpected} else multiset{}, multiset{}))
  }

  function If(b: bool, s: TcpState): seq<TcpState> {
    if b then [s] else []
  }

  /** The histories and release causes: from record `r` to record `r1`. */
  predicate ClientWrites(j: Pair, w: Numbers, p: Packet, k: Pair, r: Record, r1: Record) {
    && r1.cStates == r.cStates +
         If(Opens(j, p) || Shakes(j, w, p) || Fins(j, w, p) || IsReset(j, w, p) ||
            (AcksServerFin(j, w, p) && (j.1 == LastAck || j.0 == Established)), k.0)
    && r1.sStates ==
         (if Pays(j, w, p) then [] else r.sStates) +
         If(Pays(j, w, p) || FinsEarly(j, w, p) || (AcksServerFin(j, w, p) && j.1 in {LastAck, FinWait1, Closing}) ||
            (FinsLate(j, w, p) && !AcksIt(w, p) && j.1 in {FinWait1, FinWait2}), k.1)
    && r1.cCause == (if FinsLate(j, w, p) && AcksIt(w, p) then PassiveClose
                     else if Fins(j, w, p) then ActiveClose
                     else if IsReset(j, w, p) then ActiveRst else r.cCause)
    && r1.sCause == (if FinsEarly(j, w, p) then PassiveClose else r.sCause)
  }

  // ---------- what a server packet does ----------

  predicate ServerMoves(j: Pair, w: Numbers, p: Packet, k: Pair) {
    && (Accepts(j, p) ==> k == (j.0, Established))
    && (ServerCloses(p) && !ServerClosesLate(j, p) ==> k == (j.0, FinWait1))
    && (ServerClosesLate(j, p) && ServerAcksIt(w, p) ==> k == (j.0, LastAck))
    && (ServerClosesLate(j, p) && !ServerAcksIt(w, p) ==>
          k == (if j.0 == FinWait1 then Closing else if j.0 == FinWait2 then Closed else j.0, Closing))
    && (AcksClientFin(j, w, p) ==>
          k == if j.0 == LastAck then (Closed, Closed)
               else (if j.0 == FinWait1 then FinWait2 else if j.0 == Closing then Closed else j.0, j.1))
    && (ServerIdle(j, w, p) ==> k == j)
  }

  predicate ServerCounts(j: Pair, w: Numbers, p: Packet, c: Counter, s: Counter) {
    && (Accepts(j, p) ==> (c, s) == (multiset{}, multiset{RecvSynAck, SentSynAck2, SentPayload}))
    && (ServerClosesLate(j, p) && ServerAcksIt(w, p) ==>
          (c, s) == (multiset{SentFinPssv, SentAck4Fin}, multiset{RecvFinPssv, RecvAck4Fin}))
    && (ServerCloses(p) && !(ServerClosesLate(j, p) && ServerAcksIt(w, p)) ==>
          (c, s) == (multiset{SentFin}, multiset{RecvFin}))
    && (AcksClientFin(j, w, p) ==> (c, s) == (multiset{SentAck4Fin}, multiset{RecvAck4Fin}))
    && (ServerIdle(j, w, p) ==> (c, s) == (multiset{}, if p.syn && p.ack then multiset{RecvSynAck} else multiset{}))
  }

  predicate ServerWrites(j: Pair, w: Numbers, p: Packet, k: Pair, r: Record, r1: Record) {
    && r1.cStates == r.cStates +
         If((AcksClientFin(j, w, p) && j.0 in {LastAck, FinWait1, Closing}) ||
            (ServerCloses(p) && !ServerAcksIt(w, p) && j.0 in {FinWait1, FinWait2}), k.0)
    && r1.sStates == r.sStates +
         If(Accepts(j, p) || ServerCloses(p) || (AcksClientFin(j, w, p) && j.0 == LastAck), k.1)
    && r1.cCause == r.cCause
    && r1.sCause == (if ServerClosesLate(j, p) && ServerAcksIt(w, p) then PassiveClose
                     else if ServerCloses(p) then ActiveClose else r.sCause)
  }

  // ---------- the arms do it ----------

  lemma ClientArmMoves(q: Words, j: Pair, w: Numbers, p: Packet)
    requires Listed(j) || (j == (Closed, Listen) && p.syn)
    requires Knows(q, w)
    ensures var b := ClassifyClient(q, j, p);
      ClientMoves(j, w, p, ClientPair(b, j)) && (b.Reset? <==> IsReset(j, w, p)) && (b.OpenSyn? <==> Opens(j, p))
  {
    hide ClassifyClient, Heard;
    ClientArmOf(q, j, w, p);
  }

  lemma ClientArmCounts(q: Words, j: Pair, w: Numbers, p: Packet)
    requires Listed(j) || (j == (Closed, Listen) && p.syn)
    requires Knows(q, w)
    ensures var b := ClassifyClient(q, j, p); ClientCounts(j, w, p, ClientCountC(b), ClientCountS(b))
  {
    hide ClassifyClient, Heard;
    ClientArmOf(q, j, w, p);
  }

  lemma ClientArmWrites(q: Words, j: Pair, w: Numbers, p: Packet, r: Record)
    requires Listed(j) || (j == (Closed, Listen) && p.syn)
    requires Knows(q, w)
    ensures var b := ClassifyClient(q, j, p);
      var r1 := ClientRecord(b, j, Some(r)); r1.Some? && ClientWrites(j, w, p, ClientPair(b, j), r, r1.value)
  {
    hide ClassifyClient, Heard;
    ClientArmOf(q, j, w, p);
  }

  lemma ServerArmMoves(q: Words, j: Pair, w: Numbers, p: Packet)
    requires Listed(j) && Knows(q, w)
    ensures ServerMoves(j, w, p, ServerPair(ClassifyServer(q, j, p), j))
  {
    hide ClassifyServer, Plus;
    ServerArmOf(q, j, w, p);
  }

  lemma ServerArmCounts(q: Words, j: Pair, w: Numbers, p: Packet)
    requires Listed(j) && Knows(q, w)
    ensures var b := ClassifyServer(q, j, p); ServerCounts(j, w, p, ServerCountC(b), ServerCountS(b))
  {
    hide ClassifyServer, Plus;
    ServerArmOf(q, j, w, p);
  }

  lemma ServerArmWrites(q: Words, j: Pair, w: Numbers, p: Packet, r: Record)
    requires Listed(j) && Knows(q, w)
    ensures var b := ClassifyServer(q, j, p);
      var r1 := ServerRecord(b, j, Some(r)); r1.Some? && ServerWrites(j, w, p, ServerPair(b, j), r, r1.value)
  {
    hide ClassifyServer, Plus;
    ServerArmOf(q, j, w, p);
  }

  // ---------- packets of a life ----------

  lemma ArmOutputs(cfg: Config, c: Con, e: Ev)
    ensures var o, k := Output(cfg, c, e), Next(cfg, c, e).Pair();
      match e
      case FromClient(p, env) =>
        var b := ClientBranchOf(c, p);
        && o.cInc == ClientCountC(b) && o.sInc == ClientCountS(b) && o.queued == []
        && (o.release <==> b.Reset? || k == (Closed, Closed)) && (o.armed <==> b.OpenSyn?)
      case FromServer(p) =>
        var b := ServerBranchOf(c, p);
        && o.cInc == ServerCountC(b) && o.sInc == ServerCountS(b) && (o.release <==> k == (Closed, Closed)) && !o.armed
  {
    hide ClassifyClient, ClassifyServer, ClientPair, ServerPair, ClientRecord, ServerRecord, ClientWords, ClientPacket,
         ClientCountC, ClientCountS, ServerCountC, ServerCountS, ClientGroup;
  }

  /** Client packet `n` of a life: the states after it, the statistics, the histories, whether it ends the connection and
      whether it starts its timer, all by the packet, the states before it and the numbers on the wire. */
  lemma ClientConduct(life: Life, n: nat)
    requires life.Valid() && ByClient(life, n)
    ensures var c, c1, o, w, p := life.At(n), life.At(n + 1), life.Out(n), NumbersAt(life, n), life.log[n].p;
      var j, k := c.Pair(), c1.Pair();
      && ClientMoves(j, w, p, k) && ClientCounts(j, w, p, o.cInc, o.sInc)
      && (c.record.Some? ==> c1.record.Some? && ClientWrites(j, w, p, k, c.record.value, c1.record.value))
      && (o.release <==> IsReset(j, w, p) || k == (Closed, Closed)) && (o.armed <==> Opens(j, p))
  {
    hide Next, Output, ClassifyClient, ClientPair, ClientRecord, Listed, Knows, NumbersAt, ClientMoves, ClientCounts,
         ClientWrites,
         IsReset, Routed, Fresh, ClientCountC, ClientCountS;
    var c, w, p := life.At(n), NumbersAt(life, n), life.log[n].p;
    WordsAreOnTheWire(life, n);
    NewOrOpen(life, n);
    NextRecord(life.cfg, c, life.log[n]);
    ArmOutputs(life.cfg, c, life.log[n]);
    ClientArmMoves(c.q, c.Pair(), w, p);
    ClientArmCounts(c.q, c.Pair(), w, p);
    if c.record.Some? {
      ClientArmWrites(c.q, c.Pair(), w, p, c.record.value);
    }
  }

  lemma ServerConduct(life: Life, n: nat)
    requires life.Valid() && ByServer(life, n)
    ensures var c, c1, o, w, p := life.At(n), life.At(n + 1), life.Out(n), NumbersAt(life, n), life.log[n].p;
      var j, k := c.Pair(), c1.Pair();
      && ServerMoves(j, w, p, k) && ServerCounts(j, w, p, o.cInc, o.sInc)
      && (c.record.Some? ==> c1.record.Some? && ServerWrites(j, w, p, k, c.record.value, c1.record.value))
      && (o.release <==> k == (Closed, Closed)) && !o.armed
  {
    hide Next, Output, ClassifyServer, ServerPair, ServerRecord, Listed, Knows, NumbersAt, ServerMoves, ServerCounts,
         ServerWrites,
         Routed, Fresh, ServerCountC, ServerCountS;
    var c, w, p := life.At(n), NumbersAt(life, n), life.log[n].p;
    WordsAreOnTheWire(life, n);
    NewOrOpen(life, n);
    NextRecord(life.cfg, c, life.log[n]);
    ArmOutputs(life.cfg, c, life.log[n]);
    ServerArmMoves(c.q, c.Pair(), w, p);
    ServerArmCounts(c.q, c.Pair(), w, p);
    if c.record.Some? {
      ServerArmWrites(c.q, c.Pair(), w, p, c.record.value);
    }
  }

  /** The packets that close a connection, and those that reset it, told from packet, states and numbers. */
  lemma ClosePackets(life: Life, n: nat)
    requires life.Valid() && n < |life.log|
    ensures var j, w, e := life.At(n).Pair(), NumbersAt(life, n), life.log[n];
      && (ClientFin(life, n) <==> e.FromClient? && Fins(j, w, e.p))
      && (EarlyFin(life, n) <==> e.FromClient? && FinsEarly(j, w, e.p))
      && (ResetAt(life, n) <==> e.FromClient? && IsReset(j, w, e.p))
      && (ClientAcks(life, n) <==> e.FromClient? && AcksIt(w, e.p))
      && (ServerFin(life, n) <==> e.FromServer? && ServerCloses(e.p))
      && (ServerAcks(life, n) <==> e.FromServer? && ServerAcksIt(w, e.p))
  {
    hide Next, Output, Listed, ClassifyClient, ClassifyServer, NumbersAt, Routed, Fresh, Heard, Plus;
    WordsAreOnTheWire(life, n);
    NewOrOpen(life, n);
    var c, w, p := life.At(n), NumbersAt(life, n), life.log[n].p;
    NextNumbers(c.q.seqnFinP2s);
    if life.log[n].FromClient? {
      ClientArmOf(c.q, c.Pair(), w, p);
    } else {
      ServerArmOf(c.q, c.Pair(), w, p);
    }
  }
}
