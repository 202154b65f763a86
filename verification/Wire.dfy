/** What each packet is to its connection, told from the packet, the pair of states and the numbers seen on the wire. */
module Wire {
  import opened Tcp
  import opened Connection
  import opened Splice
  import opened Machine
  import opened JointStates
  import opened SpliceRuns

  /** Numbers an observer of the wires knows: the acknowledgements that last went to the client and to the server, the
      number of the last FIN to the server, and the number the client's acknowledgements are compared with. */
  datatype Numbers = Numbers(toClient: U32, toServer: U32, finToServer: U32, awaited: U32)

  // ---------- client packets ----------

  /** The client's number is not below what was acknowledged to it, or the client side is closed. */
  predicate Heard(j: Pair, w: Numbers, p: Packet) {
    j.0 == Closed || p.seqn >= w.toClient
  }

  predicate Opens(j: Pair, p: Packet) {
    p.syn && j.0 == Closed
  }

  predicate Shakes(j: Pair, w: Numbers, p: Packet) {
    Heard(j, w, p) && !p.syn && p.ack && j.0 == SynSent
  }

  /** A packet that is no part of the client's handshake. */
  predicate Past(j: Pair, w: Numbers, p: Packet) {
    Heard(j, w, p) && !p.syn && !(p.ack && j.0 == SynSent)
  }

  predicate Fins(j: Pair, w: Numbers, p: Packet) {
    Past(j, w, p) && p.fin
  }

  /** A FIN before the server side is up. */
  predicate FinsEarly(j: Pair, w: Numbers, p: Packet) {
    Fins(j, w, p) && j.1 in {Listen, SynReceived}
  }

  /** A FIN after one of the server, with or without its acknowledgement. */
  predicate FinsLate(j: Pair, w: Numbers, p: Packet) {
    Fins(j, w, p) && j.1 in {FinWait1, Closing, FinWait2, Closed}
  }

  predicate IsReset(j: Pair, w: Numbers, p: Packet) {
    Past(j, w, p) && !p.fin && p.rst
  }

  predicate AcksServerFin(j: Pair, w: Numbers, p: Packet) {
    Past(j, w, p) && !p.fin && !p.rst && p.ack && p.ackn == w.awaited && j.1 in {LastAck, FinWait1, Closing, FinWait2, Closed}
  }

  /** The first packet after the client's handshake. */
  predicate Pays(j: Pair, w: Numbers, p: Packet) {
    Past(j, w, p) && !p.fin && !p.rst && j == (Established, Listen)
  }

  predicate Strays(j: Pair, w: Numbers, p: Packet) {
    Past(j, w, p) && !p.fin && !p.rst && j.0 == SynSent
  }

  // ---------- server packets ----------

  predicate Accepts(j: Pair, p: Packet) {
    p.syn && p.ack && j.1 == SynReceived
  }

  predicate ServerCloses(p: Packet) {
    p.fin && !(p.syn && p.ack)
  }

  /** The client has sent its FIN or answered one. */
  predicate ClientLeaves(j: Pair) {
    j.0 in {LastAck, FinWait1, Closing, FinWait2, Closed}
  }

  /** A FIN after one of the client, with or without its acknowledgement. */
  predicate ServerClosesLate(j: Pair, p: Packet) {
    ServerCloses(p) && j.0 in {FinWait1, Closing, FinWait2, Closed}
  }

  predicate AcksClientFin(j: Pair, w: Numbers, p: Packet) {
    p.ack && !p.syn && !p.fin && p.ackn == Plus(w.finToServer, 1) && ClientLeaves(j)
  }

  predicate ServerStrays(j: Pair, p: Packet) {
    !p.fin && !(p.ack && (p.syn || ClientLeaves(j)))
  }

  // ---------- which packets go on to the other side ----------

  predicate PassesToServer(j: Pair) {
    && j.0 in {Established, CloseWait, LastAck, FinWait1, Closing, FinWait2, Closed}
    && j.1 in {Established, CloseWait, LastAck, FinWait1, Closing, FinWait2}
  }

  predicate PassesToClient(j: Pair) {
    && j.0 in {Established, CloseWait, LastAck, FinWait1, Closing, FinWait2}
    && j.1 in {Established, CloseWait, LastAck, FinWait1, Closing, FinWait2, Closed}
  }

  lemma Passing(j: Pair)
    ensures ForwardsClient(j) <==> PassesToServer(j)
    ensures ForwardsServer(j) <==> PassesToClient(j)
  {
  }

  // ---------- the branch arms, told apart by packet, pair and numbers ----------

  lemma ClientArmOf(q: Words, j: Pair, w: Numbers, p: Packet)
    requires Listed(j) || (j == (Closed, Listen) && p.syn)
    requires w.toClient == q.ackP2c && w.awaited == q.word
    ensures var b := ClassifyClient(q, j, p);
      && (b.Resent? <==> !Heard(j, w, p)) && (b.OpenSyn? <==> Opens(j, p))
      && (b.StraySyn? <==> Heard(j, w, p) && p.syn && j.0 != Closed) && (b.HandshakeAck? <==> Shakes(j, w, p))
      && (b.FinEarly? || b.FinFirst? || b.FinAnswer? || b.FinCrossing? <==> Fins(j, w, p))
      && (b.FinEarly? <==> FinsEarly(j, w, p)) && (b.FinFirst? <==> Fins(j, w, p) && j.1 in {Established, LastAck})
      && (b.FinAnswer? <==> FinsLate(j, w, p) && p.ack && p.ackn == w.awaited)
      && (b.FinCrossing? <==> FinsLate(j, w, p) && !(p.ack && p.ackn == w.awaited))
      && (b.Reset? <==> IsReset(j, w, p)) && (b.FirstPayload? <==> Pays(j, w, p)) && (b.Stray? <==> Strays(j, w, p))
      && (b.FinalAck? <==> AcksServerFin(j, w, p) && j.1 == LastAck)
      && (b.AckOfFin? <==> AcksServerFin(j, w, p) && j.1 != LastAck)
  {
  }

  lemma NextNumbers(x: U32)
    ensures WrapAdd(x, 1) == Plus(x, 1) && WrapAdd(WrapAdd(x, 1), 1) == Plus(x, 2) && WrapSub(x, 1) == Plus(x, -1)
    ensures Plus(Plus(x, -1), 1) == x && Plus(x, 0) == x
  {
  }

  lemma ServerArmOf(q: Words, j: Pair, w: Numbers, p: Packet)
    requires w.finToServer == q.seqnFinP2s
    ensures var b := ClassifyServer(q, j, p);
      && (b.SynAckAccepted? <==> Accepts(j, p)) && (b.SynAckStray? <==> p.syn && p.ack && j.1 != SynReceived)
      && (b.ServerFinFirst? <==> ServerCloses(p) && !ServerClosesLate(j, p))
      && (b.ServerFinAnswer? <==>
            ServerClosesLate(j, p) && p.ack && p.ackn == Plus(w.finToServer, 1))
      && (b.ServerFinCrossing? <==>
            ServerClosesLate(j, p) && !(p.ack && p.ackn == Plus(w.finToServer, 1)))
      && (b.ServerAckOfFin? <==> AcksClientFin(j, w, p)) && (b.Other? <==> ServerStrays(j, p))
  {
    NextNumbers(q.seqnFinP2s);
  }

  // ---------- the numbers over a life ----------

  /** The numbers after client packet `p` was answered with, or sent on as, `out`. */
  function AfterClient(j: Pair, w: Numbers, p: Packet, out: Packet): Numbers {
    var toServer := PassesToServer(j);
    Numbers(
      if Opens(j, p) then Plus(p.seqn, 1) else w.toClient,
      if toServer then out.ackn else w.toServer,
      if toServer && out.fin then out.seqn else w.finToServer,
      if FinsEarly(j, w, p) then Plus(out.seqn, 1) else if Pays(j, w, p) then out.seqn else w.awaited)
  }

  /** The numbers after server packet `p`, which went on as `out` or caused `queued` to be sent to the server. */
  function AfterServer(j: Pair, w: Numbers, p: Packet, out: Packet, queued: seq<Packet>): Numbers {
    var toClient := PassesToClient(j);
    Numbers(
      if toClient then out.ackn else w.toClient,
      if queued != [] then queued[0].ackn else w.toServer,
      w.finToServer,
      if queued != [] then queued[0].seqn
      else if toClient && out.fin then Plus(out.seqn, |out.payload| + 1)
      else w.awaited)
  }

  function NumbersAt(life: Life, n: nat): Numbers
    requires n <= |life.log|
  {
    if n == 0 then Numbers(0, 0, 0, 0)
    else
      AfterEvent(life.At(n - 1).Pair(), NumbersAt(life, n - 1), life.log[n - 1], life.Out(n - 1))
  }

  function AfterEvent(j: Pair, w: Numbers, e: Ev, o: Out): Numbers {
    match e
    case FromClient(p, _) => AfterClient(j, w, p, o.pkt)
    case FromServer(p) => AfterServer(j, w, p, o.pkt, o.queued)
  }

  /** The words of a connection are these numbers. */
  predicate Knows(q: Words, w: Numbers) {
    q.ackP2c == w.toClient && q.ackP2s == w.toServer && q.seqnFinP2s == w.finToServer && q.word == w.awaited
  }

  lemma ClientNumbers(cfg: Config, c: Con, w: Numbers, p: Packet, env: Env)
    requires Listed(c.Pair()) || (c.Pair() == (Closed, Listen) && p.syn)
    requires Knows(c.q, w)
    ensures Knows(ClientNext(cfg, c, p, env).q, AfterClient(c.Pair(), w, p, ClientOut(cfg, c, p, env).pkt))
  {
    hide ClientPair, ClientRecord, ClassifyClient, ClientGroup, ClientCountC, ClientCountS, ForwardsClient, PassesToServer,
         Listed, Plus, Shift, WrapSub, WrapAdd, Opens, FinsEarly, Pays;
    AnsweringArms(c.q, c.Pair(), w, p);
    Passing(c.Pair());
    NextNumbers(p.seqn);
    NextNumbers(WrapAdd(c.q.cSeqn, 1));
  }

  /** The arms that make a packet of their own. */
  lemma AnsweringArms(q: Words, j: Pair, w: Numbers, p: Packet)
    requires Listed(j) || (j == (Closed, Listen) && p.syn)
    requires w.toClient == q.ackP2c && w.awaited == q.word
    ensures var b := ClassifyClient(q, j, p);
      (b.OpenSyn? <==> Opens(j, p)) && (b.FinEarly? <==> FinsEarly(j, w, p)) && (b.FirstPayload? <==> Pays(j, w, p))
    ensures PassesToServer(j) ==> !FinsEarly(j, w, p) && !Pays(j, w, p)
  {
    hide ClassifyClient, Heard;
    ClientArmOf(q, j, w, p);
  }

  lemma AcceptsApart(j: Pair, p: Packet)
    ensures Accepts(j, p) ==> !PassesToClient(j)
  {
  }

  lemma ServerNumbers(cfg: Config, c: Con, w: Numbers, p: Packet)
    requires Listed(c.Pair()) && Knows(c.q, w) && (c.sState == SynReceived ==> c.held.Some?)
    ensures Knows(ServerNext(c, p).q, AfterServer(c.Pair(), w, p, ServerOut(cfg, c, p).pkt, ServerOut(cfg, c, p).queued))
  {
    hide ServerPair, ServerRecord, ClassifyServer, ServerCountC, ServerCountS, ForwardsServer, PassesToClient, Plus, Shift,
         WrapSub, WrapAdd, FinEnd;
    ServerArmOf(c.q, c.Pair(), w, p);
    Passing(c.Pair());
    AcceptsApart(c.Pair(), p);
    EndOfFin(WrapAdd(p.seqn, c.q.cSeqn), p.payload);
  }

  lemma NumbersStep(cfg: Config, c: Con, w: Numbers, e: Ev)
    requires Listed(c.Pair()) || (c.Pair() == (Closed, Listen) && e.FromClient? && e.p.syn)
    requires Knows(c.q, w) && (c.sState == SynReceived ==> c.held.Some?)
    ensures Knows(Next(cfg, c, e).q, AfterEvent(c.Pair(), w, e, Output(cfg, c, e)))
  {
    hide ClientNext, ClientOut, ServerNext, ServerOut, Knows, AfterClient, AfterServer, Listed;
    match e
    case FromClient(p, env) => ClientNumbers(cfg, c, w, p, env);
    case FromServer(p) => ServerNumbers(cfg, c, w, p);
  }

  /** A FIN takes one number behind its payload. */
  lemma EndOfFin(seqn: U32, payload: Payload)
    ensures FinEnd(seqn, payload) == Plus(seqn, |payload| + 1)
  {
  }

  /** At every point of every life all words of the connection but the splice itself are numbers that went over the wires:
      the acknowledgements last sent to client and server, the last FIN sent to the server, and in the shared word the
      end of the last FIN sent to the client, or before that the proxy's own number towards the server. */
  lemma {:induction false} WordsAreOnTheWire(life: Life, n: nat)
    requires life.Valid() && n <= |life.log|
    ensures Knows(life.At(n).q, NumbersAt(life, n))
    decreases n
  {
    hide Next, Output, Listed, Knows, AfterEvent, Routed, Fresh;
    if n == 0 {
      KnowsAtStart(life);
    } else {
      WordsAreOnTheWire(life, n - 1);
      NewOrOpen(life, n - 1);
      HeldWhileOpening(life, n - 1);
      NumbersStep(life.cfg, life.At(n - 1), NumbersAt(life, n - 1), life.log[n - 1]);
    }
  }

  lemma KnowsAtStart(life: Life)
    requires life.Valid()
    ensures Knows(life.At(0).q, NumbersAt(life, 0))
  {
  }

  lemma HeldWhileOpening(life: Life, n: nat)
    requires life.Valid() && n <= |life.log|
    ensures life.At(n).sState == SynReceived ==> life.At(n).held.Some?
  {
    hide Next, Output;
    AlwaysFits(life, n);
  }
}
