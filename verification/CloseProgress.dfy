/** From an established connection on, the proxy releases the port exactly when both FINs are acknowledged. */
module CloseProgress {
  import opened Tcp
  import opened Connection
  import opened Splice
  import opened Machine
  import opened Wire

  /** What an observer of the two wires knows about the close, without looking into the proxy:
      the acknowledgement each delivered FIN asks for, and whether it was given. */
  datatype Seen = Seen(clientFin: Option<U32>, serverAcked: bool, serverFin: Option<U32>, clientAcked: bool)
  {
    predicate Complete() {
      clientFin.Some? && serverAcked && serverFin.Some? && clientAcked
    }
  }

  /** Packet `e` comes in and `out` goes out on the other side. */
  function Observe(o: Seen, e: Ev, out: Packet): Seen {
    match e
    case FromClient(p, _) =>
      o.(clientFin := if p.fin then Some(FinEnd(out.seqn, out.payload)) else o.clientFin,
         clientAcked := o.clientAcked || (p.ack && o.serverFin == Some(p.ackn)))
    case FromServer(p) =>
      o.(serverFin := if p.fin then Some(FinEnd(out.seqn, out.payload)) else o.serverFin,
         serverAcked := o.serverAcked || (p.ack && o.clientFin == Some(p.ackn)))
  }

  /** What is seen of packets `m` up to, and not including, `n`. */
  function SeenAt(life: Life, m: nat, n: nat): Seen
    requires m <= n <= |life.log|
  {
    if n == m then Seen(None, false, None, false)
    else Observe(SeenAt(life, m, n - 1), life.log[n - 1], life.Out(n - 1).pkt)
  }

  /** A packet of a close: no SYN, no client RST, one FIN from each side, the client's without payload.
      Data and acknowledgements may come in any number and order, re-sent client data too. */
  predicate Plain(o: Seen, e: Ev) {
    match e
    case FromClient(p, _) => !p.syn && !p.rst && (p.fin ==> o.clientFin.None? && p.payload == [])
    case FromServer(p) => !p.syn && (p.fin ==> o.serverFin.None?)
  }

  /** A client packet below `toClient`, the acknowledgement the client got last, is ignored by the proxy while the client
      side is open; yet it brings something new about the close: the client's FIN, or the first acknowledgement of the
      server's FIN. */
  predicate Unheard(client: TcpState, toClient: U32, o: Seen, e: Ev) {
    e.FromClient? && client != Closed && e.p.seqn < toClient &&
    (e.p.fin || (e.p.ack && o.serverFin == Some(e.p.ackn) && !o.clientAcked))
  }

  /** A packet of an orderly close. */
  predicate Legal(client: TcpState, toClient: U32, o: Seen, e: Ev) {
    Plain(o, e) && !Unheard(client, toClient, o, e)
  }

  /** Packet `n` against the wire: `m` is where the observation begins. */
  predicate LegalAt(life: Life, m: nat, n: nat)
    requires m <= n < |life.log|
  {
    Legal(life.At(n).cState, NumbersAt(life, n).toClient, SeenAt(life, m, n), life.log[n])
  }

  /** From packet `m`, which finds the connection established on both sides, to packet `n` all packets are legal. */
  ghost predicate Orderly(life: Life, m: nat, n: nat)
    requires m <= n <= |life.log|
  {
    && life.Valid() && life.At(m).Pair() == (Established, Established)
    && (forall i :: m <= i < n ==> LegalAt(life, m, i))
  }

  // ---------- the joint states record what was seen ----------

  predicate CloseStates(j: Pair) {
    j in {(Established, Established), (Established, FinWait1), (CloseWait, FinWait2),
          (FinWait1, Established), (FinWait2, Established), (FinWait1, LastAck), (FinWait2, LastAck),
          (Closing, Closing), (Closed, Closing), (Closing, Closed), (LastAck, FinWait1), (LastAck, FinWait2),
          (Closed, Closed)}
  }

  predicate ClientFinSeen(j: Pair) {
    j.0 !in {Established, CloseWait}
  }

  predicate ServerFinSeen(j: Pair) {
    j.1 != Established
  }

  predicate ServerAckSeen(j: Pair) {
    j.0 in {FinWait2, Closed} || j.1 == LastAck
  }

  predicate ClientAckSeen(j: Pair) {
    j.0 in {CloseWait, LastAck} || j.1 == Closed
  }

  /** A legal client packet, by the joint state. */
  predicate LegalFromClient(q: Words, j: Pair, p: Packet) {
    && !p.syn && !p.rst && (p.fin ==> !ClientFinSeen(j))
    && (j.0 != Closed && p.seqn < q.ackP2c ==>
          !p.fin && !(ServerFinSeen(j) && p.ack && p.ackn == q.word && !ClientAckSeen(j)))
  }

  lemma ClientProgress(q: Words, j: Pair, p: Packet)
    requires CloseStates(j) && j != (Closed, Closed)
    requires LegalFromClient(q, j, p)
    ensures var b := ClassifyClient(q, j, p);
      var k := ClientPair(b, j);
      && CloseStates(k) && b !in {Reset, FinEarly, OpenSyn, FirstPayload}
      && (ClientFinSeen(k) <==> ClientFinSeen(j) || p.fin)
      && (ClientAckSeen(k) <==> ClientAckSeen(j) || (ServerFinSeen(j) && p.ack && p.ackn == q.word))
      && (ServerFinSeen(k) <==> ServerFinSeen(j)) && (ServerAckSeen(k) <==> ServerAckSeen(j))
      && (p.fin ==> ForwardsClient(j))
  {
  }

  lemma ServerProgress(q: Words, j: Pair, p: Packet)
    requires CloseStates(j) && j != (Closed, Closed)
    requires !p.syn && (p.fin ==> !ServerFinSeen(j))
    ensures var b := ClassifyServer(q, j, p);
      var k := ServerPair(b, j);
      && CloseStates(k) && b != SynAckAccepted
      && (ServerFinSeen(k) <==> ServerFinSeen(j) || p.fin)
      && (ServerAckSeen(k) <==> ServerAckSeen(j) || (ClientFinSeen(j) && p.ack && p.ackn == WrapAdd(q.seqnFinP2s, 1)))
      && (ClientFinSeen(k) <==> ClientFinSeen(j)) && (ClientAckSeen(k) <==> ClientAckSeen(j))
      && (p.fin ==> ForwardsServer(j))
  {
  }

  lemma AllSeenIffClosed(j: Pair)
    requires CloseStates(j)
    ensures ClientFinSeen(j) && ServerFinSeen(j) && ServerAckSeen(j) && ClientAckSeen(j) <==> j == (Closed, Closed)
  {
  }

  /** The proxy's state against the observer's knowledge. */
  predicate Agrees(c: Con, o: Seen) {
    var j := c.Pair();
    && CloseStates(j)
    && (ClientFinSeen(j) <==> o.clientFin.Some?) && (ServerFinSeen(j) <==> o.serverFin.Some?)
    && (ServerAckSeen(j) <==> o.serverAcked) && (ClientAckSeen(j) <==> o.clientAcked)
    && (o.clientFin.Some? ==> o.clientFin.value == WrapAdd(c.q.seqnFinP2s, 1))
    && (o.serverFin.Some? ==> o.serverFin.value == c.q.word)
  }

  lemma ClientFinWords(cfg: Config, c: Con, p: Packet, env: Env)
    requires ClientBranchOf(c, p) !in {FinEarly, FirstPayload, OpenSyn}
    ensures var c1, out := ClientNext(cfg, c, p, env), ClientOut(cfg, c, p, env).pkt;
      && c1.Pair() == ClientPair(ClientBranchOf(c, p), c.Pair())
      && c1.q.word == c.q.word
      && (!p.fin ==> c1.q.seqnFinP2s == c.q.seqnFinP2s)
      && (p.fin && p.payload == [] && ForwardsClient(c.Pair()) ==>
            FinEnd(out.seqn, out.payload) == WrapAdd(c1.q.seqnFinP2s, 1))
  {
    hide ClientRecord, ClientPair, ClassifyClient, ClientGroup, ClientCountC, ClientCountS;
  }

  lemma ServerFinWords(cfg: Config, c: Con, p: Packet)
    requires ServerBranchOf(c, p) != SynAckAccepted
    ensures var c1, out := ServerNext(c, p), ServerOut(cfg, c, p).pkt;
      && c1.Pair() == ServerPair(ServerBranchOf(c, p), c.Pair())
      && c1.q.seqnFinP2s == c.q.seqnFinP2s
      && (!p.fin ==> c1.q.word == c.q.word)
      && (p.fin && ForwardsServer(c.Pair()) ==> FinEnd(out.seqn, out.payload) == c1.q.word)
  {
    hide ServerRecord, ServerPair, ClassifyServer, ServerCountC, ServerCountS;
  }

  lemma AgreesStep(cfg: Config, c: Con, o: Seen, e: Ev)
    requires Agrees(c, o) && Legal(c.cState, c.q.ackP2c, o, e) && c.Pair() != (Closed, Closed)
    ensures Agrees(Next(cfg, c, e), Observe(o, e, Output(cfg, c, e).pkt))
    ensures Output(cfg, c, e).release <==> Next(cfg, c, e).Pair() == (Closed, Closed)
  {
    hide ClassifyClient, ClassifyServer, ClientPair, ServerPair, ClientRecord, ServerRecord, ClientFinSeen, ServerFinSeen,
         ClientAckSeen, ServerAckSeen, CloseStates, ForwardsClient, ForwardsServer, FinEnd;
    match e
    case FromClient(p, env) =>
      ClientProgress(c.q, c.Pair(), p);
      ClientFinWords(cfg, c, p, env);
      assert Next(cfg, c, e) == ClientNext(cfg, c, p, env);
    case FromServer(p) =>
      ServerProgress(c.q, c.Pair(), p);
      ServerFinWords(cfg, c, p);
      assert Next(cfg, c, e) == ServerNext(c, p);
  }

  lemma HeardStep(cfg: Config, c: Con, o: Seen, e: Ev)
    requires Agrees(c, o) && Plain(o, e) && c.Pair() != (Closed, Closed)
    ensures Agrees(Next(cfg, c, e), Observe(o, e, Output(cfg, c, e).pkt)) <==> !Unheard(c.cState, c.q.ackP2c, o, e)
  {
    if Unheard(c.cState, c.q.ackP2c, o, e) {
      hide ClientWords, ClientRecord, ClientFinSeen, ServerFinSeen, ClientAckSeen, ServerAckSeen, CloseStates, FinEnd;
      assert ClientBranchOf(c, e.p) == Resent;
    } else {
      hide Next, Output, Agrees;
      AgreesStep(cfg, c, o, e);
    }
  }

  /** At the established connection nothing has been seen. */
  lemma Start(life: Life, m: nat)
    requires m <= |life.log| && life.At(m).Pair() == (Established, Established)
    ensures Agrees(life.At(m), SeenAt(life, m, m)) && life.At(m).Pair() != (Closed, Closed)
  {
    hide Next;
  }

  lemma {:induction false} AlwaysAgrees(life: Life, m: nat, n: nat)
    requires m <= n <= |life.log| && Orderly(life, m, n)
    ensures Agrees(life.At(n), SeenAt(life, m, n))
    ensures n > m ==> (life.Out(n - 1).release <==> life.At(n).Pair() == (Closed, Closed))
    decreases n
  {
    hide Next, Output, Observe, Legal, Agrees, Routed, Fresh, NumbersAt;
    Start(life, m);
    if n > m {
      AlwaysAgrees(life, m, n - 1);
      assert LegalAt(life, m, n - 1);
      WordsAreOnTheWire(life, n - 1);
      assert n - 1 > m ==> !life.Out(n - 2).release;
      AgreesStep(life.cfg, life.At(n - 1), SeenAt(life, m, n - 1), life.log[n - 1]);
    }
  }

  /** The proxy loses track of an orderly close with a packet if and only if it ignores the packet as re-sent although it
      brings something new. */
  lemma AgreesIffHeard(life: Life, m: nat, n: nat)
    requires m <= n < |life.log| && Orderly(life, m, n) && Plain(SeenAt(life, m, n), life.log[n])
    ensures Agrees(life.At(n), SeenAt(life, m, n))
    ensures Agrees(life.At(n + 1), SeenAt(life, m, n + 1)) <==>
      !Unheard(life.At(n).cState, NumbersAt(life, n).toClient, SeenAt(life, m, n), life.log[n])
  {
    hide Next, Output, Observe, Plain, Unheard, Agrees, Routed, Fresh, NumbersAt, LegalAt;
    Start(life, m);
    AlwaysAgrees(life, m, n);
    WordsAreOnTheWire(life, n);
    assert n > m ==> !life.Out(n - 1).release;
    HeardStep(life.cfg, life.At(n), SeenAt(life, m, n), life.log[n]);
  }

  /** Client-active, server-active and simultaneous close, FIN and ACK together or apart, with data in between: whenever
      the packets of a life are orderly from an established connection on, the packet that releases the connection is
      exactly the first one after which both FINs have been delivered and acknowledged. */
  lemma ReleaseIffBothAcked(life: Life, m: nat, n: nat)
    requires m < n <= |life.log| && Orderly(life, m, n)
    ensures life.Out(n - 1).release <==> SeenAt(life, m, n).Complete()
    ensures life.Out(n - 1).release <==> life.At(n).Pair() == (Closed, Closed)
    ensures !SeenAt(life, m, n - 1).Complete()
  {
    hide Next, Output, Observe, LegalAt, ClientFinSeen, ServerFinSeen, ClientAckSeen, ServerAckSeen, CloseStates, Routed, Fresh;
    AlwaysAgrees(life, m, n);
    AllSeenIffClosed(life.At(n).Pair());
    AlwaysAgrees(life, m, n - 1);
    AllSeenIffClosed(life.At(n - 1).Pair());
    Start(life, m);
    assert n - 1 > m ==> !life.Out(n - 2).release;
  }
}
