/** Where packets go, and what is in them, told from the packet, the pair of states and the numbers on the wire. */
module Destinations {
  import opened Tcp
  import opened Connection
  import opened Splice
  import opened Machine
  import opened JointStates
  import opened SpliceRuns
  import opened Wire
  import opened Conduct

  /** `r` goes back to where `p` came from, acknowledges one number after that of `p`, and is like `p` otherwise. */
  predicate Answers(r: Packet, p: Packet) {
    && r.src == p.dst && r.dst == p.src && r.ack && r.ackn == Plus(p.seqn, 1)
    && (r.syn, r.fin, r.rst, r.psh) == (p.syn, p.fin, p.rst, p.psh) && r.payload == p.payload
  }

  /** `r` is a bare SYN from `from` to `to`, one number before the packet `p` whose bytes will follow it. */
  predicate OpensServer(r: Packet, p: Packet, from: Sock, to: Sock) {
    && r.src == from && r.dst == to && r.syn && !r.ack && !r.psh && r.payload == []
    && r.ackn == 0 && r.seqn == Plus(p.seqn, -1) && r.fin == p.fin && r.rst == p.rst
  }

  /** The packets that set a connection up, told from packet, states and numbers. */
  lemma SetupPackets(life: Life, n: nat)
    requires life.Valid() && n < |life.log|
    ensures var j, w, e := life.At(n).Pair(), NumbersAt(life, n), life.log[n];
      && (IsOpen(life, n) <==> e.FromClient? && Opens(j, e.p))
      && (IsFirstPayload(life, n) <==> e.FromClient? && Pays(j, w, e.p))
      && (IsSynAck(life, n) <==> e.FromServer? && Accepts(j, e.p))
  {
    hide Next, Output, Listed, ClassifyClient, ClassifyServer, NumbersAt, Routed, Fresh, Heard;
    WordsAreOnTheWire(life, n);
    NewOrOpen(life, n);
    var c, w, p := life.At(n), NumbersAt(life, n), life.log[n].p;
    if life.log[n].FromClient? {
      ClientArmOf(c.q, c.Pair(), w, p);
    } else {
      ServerArmOf(c.q, c.Pair(), w, p);
    }
  }

  // ---------- client packets ----------

  /** The arms that send something. */
  lemma SendingArms(q: Words, j: Pair, w: Numbers, p: Packet)
    requires Listed(j) || (j == (Closed, Listen) && p.syn)
    requires Knows(q, w)
    ensures var b := ClassifyClient(q, j, p);
      && (b.OpenSyn? <==> Opens(j, p)) && (b.FinEarly? <==> FinsEarly(j, w, p)) && (b.FirstPayload? <==> Pays(j, w, p))
      && (b.FinFirst? || b.FinAnswer? || b.FinCrossing? <==> Fins(j, w, p) && !FinsEarly(j, w, p))
      && (b.Stray? <==> Strays(j, w, p)) && (FinsEarly(j, w, p) ==> Fins(j, w, p))
  {
    hide ClassifyClient, Heard, Listed;
    ClientArmOf(q, j, w, p);
  }

  lemma ClientAnswers(cfg: Config, c: Con, w: Numbers, p: Packet, env: Env)
    requires Listed(c.Pair()) || (c.Pair() == (Closed, Listen) && p.syn)
    requires Knows(c.q, w) && !PassesToServer(c.Pair())
    ensures var j, o := c.Pair(), ClientOut(cfg, c, p, env);
      && (Opens(j, p) ==> o.group == TO_WIRE && Answers(o.pkt, p) && o.pkt.seqn == env.isn)
      && (FinsEarly(j, w, p) ==> o.group == TO_WIRE && Answers(o.pkt, p) && o.pkt.seqn == Plus(c.q.cSeqn, 1))
      && (Pays(j, w, p) ==>
            o.group == TO_WIRE && OpensServer(o.pkt, p, Sock(cfg.ipS, c.port), cfg.servers(env.sel.server)))
      && (Fins(j, w, p) && !FinsEarly(j, w, p) ==> o.group == TO_WIRE && o.pkt == p)
      && (Strays(j, w, p) ==> o.group == TO_KERNEL && o.pkt == p)
      && (!Opens(j, p) && !Fins(j, w, p) && !Pays(j, w, p) && !Strays(j, w, p) ==> o.group == DUMP && o.pkt == p)
  {
    hide ClassifyClient, ClientPair, ClientRecord, ClientCountC, ClientCountS, ForwardsClient, PassesToServer, Listed, Plus,
         WrapAdd, WrapSub, Knows, Opens, Fins, FinsEarly, Pays, Strays;
    SendingArms(c.q, c.Pair(), w, p);
    Passing(c.Pair());
    NextNumbers(p.seqn);
    NextNumbers(c.q.cSeqn);
  }

  lemma ClientPasses(cfg: Config, c: Con, p: Packet, env: Env)
    requires PassesToServer(c.Pair())
    ensures var o := ClientOut(cfg, c, p, env);
      o.group == TO_WIRE && o.pkt.src == Sock(cfg.ipS, c.port) && o.pkt.dst == cfg.servers(c.serverIndex)
  {
    assert ClientBranchOf(c, p) == FirstPayload ==> c.sState == Listen;
    Passing(c.Pair());
    hide ClassifyClient, ClientPair, ClientRecord, ClientCountC, ClientCountS, ForwardsClient, ClientWords, ClientPacket,
         ClientGroup;
  }

  /** Client packet `n` while the two connections are not joined: the proxy answers a SYN and an early FIN itself, opens the
      server side with the first payload, leaves packets out of place to the kernel and drops the rest. */
  lemma ClientGoes(life: Life, n: nat)
    requires life.Valid() && n < |life.log| && life.log[n].FromClient? && !PassesToServer(life.At(n).Pair())
    ensures var j, w, p, env, o := life.At(n).Pair(), NumbersAt(life, n), life.log[n].p, life.log[n].env, life.Out(n);
      && (Opens(j, p) ==> o.group == TO_WIRE && Answers(o.pkt, p) && o.pkt.seqn == env.isn)
      && (FinsEarly(j, w, p) ==>
            o.group == TO_WIRE && Answers(o.pkt, p) && o.pkt.seqn == Plus(SetupAt(life, n).proxyIsn, 1))
      && (Pays(j, w, p) ==>
            o.group == TO_WIRE &&
            OpensServer(o.pkt, p, Sock(life.cfg.ipS, life.c0.port), life.cfg.servers(env.sel.server)))
      && (Fins(j, w, p) && !FinsEarly(j, w, p) ==> o.group == TO_WIRE && o.pkt == p)
      && (Strays(j, w, p) ==> o.group == TO_KERNEL && o.pkt == p)
      && (!Opens(j, p) && !Fins(j, w, p) && !Pays(j, w, p) && !Strays(j, w, p) ==> o.group == DUMP && o.pkt == p)
  {
    hide Next, ClientOut, ServerOut, Listed, Knows, NumbersAt, Opens, Fins, FinsEarly, Pays, Strays, Answers, OpensServer,
         PassesToServer,
         SetupAt, Routed, Fresh, Plus;
    WordsAreOnTheWire(life, n);
    NewOrOpen(life, n);
    AlwaysFits(life, n);
    SameOwner(life, n);
    EarlyIsPlain(life.At(n).Pair(), NumbersAt(life, n), life.log[n].p);
    ClientAnswers(life.cfg, life.At(n), NumbersAt(life, n), life.log[n].p, life.log[n].env);
  }

  lemma EarlyIsPlain(j: Pair, w: Numbers, p: Packet)
    ensures FinsEarly(j, w, p) ==> !p.syn && j.1 in {Listen, SynReceived}
  {
  }

  /** Client packet `n` while they are joined goes on to the server. */
  lemma ClientGoesOn(life: Life, n: nat)
    requires life.Valid() && n < |life.log| && life.log[n].FromClient? && PassesToServer(life.At(n).Pair())
    ensures var o := life.Out(n);
      o.group == TO_WIRE && o.pkt.src == Sock(life.cfg.ipS, life.c0.port) &&
      o.pkt.dst == life.cfg.servers(life.At(n).serverIndex)
  {
    hide ClientNext, ClientOut, ServerOut, PassesToServer, Routed, Fresh;
    SameOwner(life, n);
    ClientPasses(life.cfg, life.At(n), life.log[n].p, life.log[n].env);
  }

  lemma JoinedPairs(j: Pair)
    requires Listed(j) && AtLeast(j.1, Established) && j.0 != SynSent
    ensures PassesToServer(j) <==> j.1 != Closed
    ensures j.1 == Closed ==> j.0 != Closed
  {
  }

  lemma SelectedServer(cfg: Config, c: Con, u: Setup)
    requires Fits(cfg, c, u) && u.serverIsn.Some?
    ensures AtLeast(c.sState, Established) && c.cState != SynSent && u.first.Some? && c.serverIndex == u.first.value.sel.server
    ensures c.Pair() != (Closed, Listen)
  {
  }

  /** Once the server has accepted, every client packet goes to the wire until the server side is closed, from the
      connection's own port to the server that was selected; after that only a FIN does. */
  lemma ClientIsForwarded(life: Life, n: nat)
    requires life.Valid() && n < |life.log| && life.log[n].FromClient? && SetupAt(life, n).serverIsn.Some?
    ensures var c, o, p, w := life.At(n), life.Out(n), life.log[n].p, NumbersAt(life, n);
      && (o.group == TO_WIRE <==> c.sState != Closed || Fins(c.Pair(), w, p))
      && (c.sState != Closed ==>
            && o.pkt.src == Sock(life.cfg.ipS, life.c0.port) && SetupAt(life, n).first.Some?
            && o.pkt.dst == life.cfg.servers(SetupAt(life, n).first.value.sel.server))
  {
    hide Next, Output, SetupAt, Routed, Fresh, Fins, FinsEarly, Pays, Strays, Answers, OpensServer, NumbersAt, Listed,
         PassesToServer, Fits;
    var c, p := life.At(n), life.log[n].p;
    AlwaysFits(life, n);
    SelectedServer(life.cfg, c, SetupAt(life, n));
    NewOrOpen(life, n);
    JoinedPairs(c.Pair());
    PayingIsNew(c.Pair(), NumbersAt(life, n), p);
    if c.sState != Closed {
      ClientGoesOn(life, n);
    } else {
      ClientGoes(life, n);
    }
  }

  lemma PayingIsNew(j: Pair, w: Numbers, p: Packet)
    ensures Pays(j, w, p) ==> j.1 == Listen
  {
  }

  // ---------- opening the client side ----------

  /** A new client is answered: its SYN comes back as a SYN-ACK with the proxy's own number, one above the client's. */
  lemma NewClientIsAnswered(life: Life, n: nat)
    requires life.Valid() && n < |life.log| && life.At(n).Pair() == (Closed, Listen)
    ensures life.log[n].FromClient? && life.log[n].p.syn
    ensures var p, o := life.log[n].p, life.Out(n);
      && o.group == TO_WIRE && o.pkt.syn && o.pkt.ack && o.pkt.src == p.dst && o.pkt.dst == p.src
      && o.pkt.ackn == Plus(p.seqn, 1) && o.pkt.seqn == life.log[n].env.isn && o.queued == [] && !o.release
      && life.At(n + 1).Pair() == (SynSent, Listen)
  {
    hide Next, Output, SetupAt, Routed, Fresh, NumbersAt, Listed, Idle, Fins, Pays, Strays, FinsEarly, FinsLate, AcksServerFin,
         IsReset, Shakes, OpensServer, ClientCounts, ClientWrites, Plus;
    NewOrOpen(life, n);
    ClientGoes(life, n);
    ClientConduct(life, n);
    ArmOutputs(life.cfg, life.At(n), life.log[n]);
  }

  /** The next client packet establishes the connection if and only if it is an acknowledgement, and no SYN, whose number is
      at least the one the SYN-ACK asked for. */
  lemma HandshakeCompletesIff(life: Life, n: nat)
    requires life.Valid() && n + 1 < |life.log| && life.At(n).Pair() == (Closed, Listen) && life.log[n + 1].FromClient?
    ensures var p := life.log[n + 1].p;
      life.At(n + 2).cState == Established <==> p.ack && !p.syn && p.seqn >= Plus(life.log[n].p.seqn, 1)
  {
    hide Next, Output, SetupAt, Routed, Fresh, Listed, OpensServer, ClientCounts, ClientWrites, Plus;
    NewClientIsAnswered(life, n);
    ClientConduct(life, n + 1);
    ShakingOnly(NumbersAt(life, n + 1), life.log[n + 1].p, life.At(n + 2).Pair());
  }

  lemma ShakingOnly(w: Numbers, p: Packet, k: Pair)
    requires ClientMoves((SynSent, Listen), w, p, k)
    ensures k.0 == Established <==> Shakes((SynSent, Listen), w, p)
  {
  }

  // ---------- server packets ----------

  lemma ServerAnswers(cfg: Config, c: Con, p: Packet)
    ensures var j, o := c.Pair(), ServerOut(cfg, c, p);
      && (PassesToClient(j) ==> o.group == TO_WIRE)
      && (PassesToClient(j) && !Accepts(j, p) ==> o.pkt.src == cfg.me && o.pkt.dst == c.sock)
      && (!PassesToClient(j) ==> o.group == if ServerStrays(j, p) then TO_KERNEL else DUMP)
      && (!PassesToClient(j) && !Accepts(j, p) ==> o.pkt == p)
      && (Accepts(j, p) ==> !PassesToClient(j))
  {
    hide ClassifyServer, ServerPair, ServerRecord, ServerCountC, ServerCountS, ForwardsServer, SynAckQueue;
    ServerArmOf(c.q, c.Pair(), Numbers(0, 0, c.q.seqnFinP2s, 0), p);
    Passing(c.Pair());
  }

  lemma OpenPairs(j: Pair)
    requires Listed(j)
    ensures PassesToClient(j) <==> j.0 !in {SynSent, Closed} && j.1 !in {Listen, SynReceived}
  {
  }

  /** Exactly the server packets that come while the client side is open and the server side is up go to the wire, from
      the proxy's own socket to the client of the connection; of the others those out of place go to the kernel, and
      the rest is dropped, all as they came. */
  lemma ServerGoes(life: Life, n: nat)
    requires life.Valid() && n < |life.log| && life.log[n].FromServer?
    ensures var j, o, p := life.At(n).Pair(), life.Out(n), life.log[n].p;
      && (o.group == TO_WIRE <==> j.0 !in {SynSent, Closed} && j.1 !in {Listen, SynReceived})
      && (o.group == TO_WIRE ==> o.pkt.src == life.cfg.me && o.pkt.dst == life.c0.sock)
      && (o.group != TO_WIRE ==> o.group == if ServerStrays(j, p) then TO_KERNEL else DUMP)
      && (o.group != TO_WIRE && !Accepts(j, p) ==> o.pkt == p)
  {
    hide Next, ServerOut, Routed, Fresh, Accepts, ServerStrays, PassesToClient, Listed;
    NewOrOpen(life, n);
    OpenPairs(life.At(n).Pair());
    SameOwner(life, n);
    ServerAnswers(life.cfg, life.At(n), life.log[n].p);
  }
}
