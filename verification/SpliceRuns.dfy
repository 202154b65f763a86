/** The sequence-number splice over the whole life of a connection. */
module SpliceRuns {
  import opened Tcp
  import opened Connection
  import opened Splice
  import opened Machine
  import opened JointStates

  /** How the two connections were set up, as the wire shows it: the client's and the proxy's initial sequence
      numbers, the client's first payload packet with what the callback left of it, the server's initial number. */
  datatype Setup = Setup(clientIsn: U32, proxyIsn: U32, first: Option<First>, serverIsn: Option<U32>)
  datatype First = First(p: Packet, sel: Selection)
  {
    /** Bytes the first payload grew by. */
    function Growth(): Delta {
      |sel.payload| - |p.payload|
    }
  }

  predicate IsOpen(life: Life, n: nat) {
    n < |life.log| && life.log[n].FromClient? && ClientBranchOf(life.At(n), life.log[n].p) == OpenSyn
  }

  predicate IsFirstPayload(life: Life, n: nat) {
    n < |life.log| && life.log[n].FromClient? && ClientBranchOf(life.At(n), life.log[n].p) == FirstPayload
  }

  predicate IsSynAck(life: Life, n: nat) {
    n < |life.log| && life.log[n].FromServer? && ServerBranchOf(life.At(n), life.log[n].p) == SynAckAccepted
  }

  function SetupAt(life: Life, n: nat): Setup
    requires n <= |life.log|
  {
    if n == 0 then Setup(0, 0, None, None)
    else
      var u, e := SetupAt(life, n - 1), life.log[n - 1];
      if IsOpen(life, n - 1) then Setup(e.p.seqn, life.Out(n - 1).pkt.seqn, None, None)
      else if IsFirstPayload(life, n - 1) then u.(first := Some(First(e.p, e.env.sel)))
      else if IsSynAck(life, n - 1) then u.(serverIsn := Some(e.p.seqn))
      else u
  }

  /** The connection against its setup. */
  predicate Fits(cfg: Config, c: Con, u: Setup) {
    && (c.sState == Listen ==> c.held.None?)
    && (c.Pair() != (Closed, Listen) && c.sState == Listen ==> c.q.cSeqn == u.proxyIsn && u.serverIsn.None?)
    && (c.sState == SynReceived ==>
          && c.q.cSeqn == u.proxyIsn && u.first.Some? && u.serverIsn.None?
          && c.q.inserted == u.first.value.Growth() && c.q.word == WrapSub(u.first.value.p.seqn, 1)
          && c.serverIndex == u.first.value.sel.server
          && c.held == Some(HeldPacket(u.first.value.p, Sock(cfg.ipS, c.port), cfg.servers(c.serverIndex),
                                       u.first.value.sel.payload)))
    && (c.sState == Established ==> c.held.None?)
    && (u.serverIsn.Some? ==>
          && AtLeast(c.sState, Established) && c.cState != SynSent && u.first.Some?
          && c.q.inserted == u.first.value.Growth() && c.q.cSeqn == WrapSub(u.proxyIsn, u.serverIsn.value)
          && c.serverIndex == u.first.value.sel.server)
  }

  // ---------- one step ----------

  lemma ClientArms(q: Words, j: Pair, p: Packet)
    requires Listed(j) || (j == (Closed, Listen) && p.syn)
    ensures var b := ClassifyClient(q, j, p);
      var k := ClientPair(b, j);
      && (b == OpenSyn ==> j == (Closed, Listen) || AtLeast(j.1, Established))
      && (b == FirstPayload ==> j == (Established, Listen) && k.1 == SynReceived)
      && (b == FinEarly ==> !AtLeast(j.1, Established) && k.1 == LastAck)
      && (b !in {FirstPayload, FinEarly} ==>
            (k.1 == Listen <==> j.1 == Listen) && (k.1 == SynReceived <==> j.1 == SynReceived) &&
            (k.1 == Established <==> j.1 == Established))
      && (AtLeast(j.1, Established) <==> AtLeast(k.1, Established) && b != FinEarly)
      && (ForwardsClient(j) ==> AtLeast(j.1, Established))
      && (j == (Closed, Listen) ==> b == OpenSyn) && (k.0 == SynSent ==> j.0 == SynSent || b == OpenSyn)
  {
  }

  lemma ServerArms(q: Words, j: Pair, p: Packet)
    requires Listed(j)
    ensures var b := ClassifyServer(q, j, p);
      var k := ServerPair(b, j);
      && (b == SynAckAccepted <==> p.ack && p.syn && j.1 == SynReceived)
      && (b == SynAckAccepted ==> k.1 == Established && j.0 != SynSent && !ForwardsServer(j))
      && (k.0 == SynSent ==> j.0 == SynSent)
      && (b != SynAckAccepted ==> (k.1 == Listen ==> j.1 == Listen) && (k.1 == SynReceived ==> j.1 == SynReceived) &&
                                  (k.1 == Established ==> j.1 == Established))
      && (AtLeast(j.1, Established) ==> AtLeast(k.1, Established))
      && (ForwardsServer(j) ==> AtLeast(j.1, Established))
  {
  }

  lemma ClientFields(cfg: Config, c: Con, p: Packet, env: Env)
    ensures var b, c1, out := ClientBranchOf(c, p), ClientNext(cfg, c, p, env), ClientOut(cfg, c, p, env).pkt;
      && c1.Pair() == ClientPair(b, c.Pair()) && c1.port == c.port
      && c1.held == (if b == FirstPayload then
                       Some(HeldPacket(p, Sock(cfg.ipS, c.port), cfg.servers(env.sel.server), env.sel.payload))
                     else c.held)
      && c1.serverIndex == (if b == FirstPayload then env.sel.server else c.serverIndex)
      && c1.q.inserted == (if b == FirstPayload then |env.sel.payload| - |p.payload| else c.q.inserted)
      && (b == OpenSyn && !ForwardsClient(c.Pair()) ==> out.seqn == c1.q.cSeqn)
      && (b != OpenSyn && b != FinEarly ==> c1.q.cSeqn == c.q.cSeqn)
      && (b == FirstPayload ==> c1.q.word == WrapSub(p.seqn, 1))
      && (b !in {FirstPayload, FinEarly} ==> c1.q.word == c.q.word)
  {
    hide ClientRecord, ClientPair, ClassifyClient, ClientGroup, ClientCountC, ClientCountS;
  }

  lemma ServerFields(c: Con, p: Packet)
    ensures var b, c1 := ServerBranchOf(c, p), ServerNext(c, p);
      && c1.Pair() == ServerPair(b, c.Pair()) && c1.port == c.port && c1.serverIndex == c.serverIndex
      && c1.held == (if b == SynAckAccepted then None else c.held)
      && c1.q.inserted == c.q.inserted
      && c1.q.cSeqn == (if b == SynAckAccepted then WrapSub(c.q.cSeqn, p.seqn) else c.q.cSeqn)
      && (b != SynAckAccepted && !ForwardsServer(c.Pair()) ==> c1.q.word == c.q.word)
  {
    hide ServerRecord, ServerPair, ClassifyServer;
  }

  lemma FitsClientStep(life: Life, n: nat)
    requires n < |life.log| && life.log[n].FromClient? && Fits(life.cfg, life.At(n), SetupAt(life, n))
    requires Listed(life.At(n).Pair()) || (life.At(n).Pair() == (Closed, Listen) && life.log[n].p.syn)
    ensures Fits(life.cfg, life.At(n + 1), SetupAt(life, n + 1))
  {
    hide ClientNext, ClientOut, ServerNext, ServerOut, ClientPair, ClassifyClient, Listed, ForwardsClient, HeldPacket;
    var c, p, env := life.At(n), life.log[n].p, life.log[n].env;
    ClientArms(c.q, c.Pair(), p);
    ClientFields(life.cfg, c, p, env);
    assert life.At(n + 1) == ClientNext(life.cfg, c, p, env);
  }

  lemma FitsServerStep(life: Life, n: nat)
    requires n < |life.log| && life.log[n].FromServer? && Fits(life.cfg, life.At(n), SetupAt(life, n))
    requires Listed(life.At(n).Pair())
    ensures Fits(life.cfg, life.At(n + 1), SetupAt(life, n + 1))
  {
    var c, p := life.At(n), life.log[n].p;
    assert c.Pair() != (Closed, Listen);
    hide ClientNext, ClientOut, ServerNext, ServerOut, ServerPair, ClassifyServer, Listed, ForwardsServer, HeldPacket;
    ServerArms(c.q, c.Pair(), p);
    ServerFields(c, p);
    assert life.At(n + 1) == ServerNext(c, p);
  }

  lemma {:induction false} AlwaysFits(life: Life, n: nat)
    requires life.Valid() && n <= |life.log|
    ensures Fits(life.cfg, life.At(n), SetupAt(life, n))
    decreases n
  {
    hide Next, Output, Listed, SetupAt, Fits, Routed, Fresh;
    if n == 0 {
      FitsAtStart(life);
    } else {
      AlwaysFits(life, n - 1);
      NewOrOpen(life, n - 1);
      if life.log[n - 1].FromClient? {
        FitsClientStep(life, n - 1);
      } else {
        FitsServerStep(life, n - 1);
      }
    }
  }

  lemma FitsAtStart(life: Life)
    requires life.Valid()
    ensures Fits(life.cfg, life.At(0), SetupAt(life, 0))
  {
  }

  // ---------- transparency ----------

  /** Sequence number `k` bytes after `base`; `k` may be negative. */
  function Plus(base: U32, k: int): U32 {
    (base + k) % MOD32
  }

  lemma ShiftPlus(x: U32, base: U32, k: int, d: Delta)
    ensures x == Plus(base, k) <==> Shift(x, d) == Plus(base, k + d)
  {
    WrapIsModular(0, 0, 0);
  }

  lemma DeltaPlus(x: U32, from: U32, to: U32, k: int)
    ensures x == Plus(to, k) <==> WrapAdd(x, WrapSub(from, to)) == Plus(from, k)
    ensures x == Plus(from, k) <==> WrapSub(x, WrapSub(from, to)) == Plus(to, k)
  {
  }

  /** The first packet meets a new connection, every later one an open connection. */
  lemma NewOrOpen(life: Life, n: nat)
    requires life.Valid() && n < |life.log|
    ensures n == 0 ==> life.At(0).Pair() == (Closed, Listen)
    ensures n > 0 ==> Listed(life.At(n).Pair()) && life.At(n).Pair() != (Closed, Listen)
    ensures life.At(n).Pair() == (Closed, Listen) ==> life.log[n].FromClient? && life.log[n].p.syn
  {
    hide Next, Output, Listed;
    assert Routed(life.At(n), life.log[n]);
    if n > 0 {
      StillOpen(life, n);
    }
  }

  lemma ClientRewrite(cfg: Config, c: Con, p: Packet, env: Env)
    requires ForwardsClient(c.Pair()) && ClientBranchOf(c, p) !in {OpenSyn, FinEarly, FirstPayload}
    ensures ClientOut(cfg, c, p, env).pkt == ToServer(c.q, p, Sock(cfg.ipS, c.port), cfg.servers(c.serverIndex), env.processed)
  {
    hide ClassifyClient, ClientPair, ClientRecord, ClientCountC, ClientCountS, ClientGroup, ToServer;
  }

  lemma ServerRewrite(cfg: Config, c: Con, p: Packet)
    ensures ServerOut(cfg, c, p).queued == if ServerBranchOf(c, p) == SynAckAccepted then SynAckQueue(c.q, c.held, p) else []
    ensures ForwardsServer(c.Pair()) && ServerBranchOf(c, p) != SynAckAccepted ==>
      ServerOut(cfg, c, p).pkt == ToClient(c.q, p, cfg.me, c.sock)
  {
    hide ClassifyServer, ServerPair, ServerCountC, ServerCountS, ToClient, SynAckQueue;
  }

  /** Once the server handshake is over, a client segment that starts `i` bytes after the first payload goes to the
      server `i` plus the growth of the first payload after it, and an acknowledgement of `k` server bytes stays one,
      modulo 2^32 and for every `i` and `k`, whatever packets came in between; it goes to the selected server. */
  lemma ClientToServerTransparent(life: Life, n: nat, i: int, k: int)
    requires life.Valid() && n < |life.log| && life.log[n].FromClient?
    requires ForwardsClient(life.At(n).Pair()) && !IsOpen(life, n) && SetupAt(life, n).serverIsn.Some?
    ensures var u, p, out := SetupAt(life, n), life.log[n].p, life.Out(n).pkt;
      && u.first.Some?
      && (p.seqn == Plus(u.first.value.p.seqn, i) <==> out.seqn == Plus(u.first.value.p.seqn, i + u.first.value.Growth()))
      && (p.ackn == Plus(u.proxyIsn, 1 + k) <==> out.ackn == Plus(u.serverIsn.value, 1 + k))
      && out.payload == (if p.payload == [] then [] else life.log[n].env.processed)
      && out.dst == life.cfg.servers(u.first.value.sel.server)
      && (out.syn, out.ack, out.fin, out.rst, out.psh) == (p.syn, p.ack, p.fin, p.rst, p.psh)
  {
    hide ClientNext, ClientOut, ServerNext, ServerOut, ClassifyClient, ToServer, Plus, SetupAt, Fits, ForwardsClient, Routed,
         Fresh;
    var c, p := life.At(n), life.log[n].p;
    AlwaysFits(life, n);
    Settled(life, n);
    ClientRewrite(life.cfg, c, p, life.log[n].env);
    ToServerMaps(life.cfg, c, SetupAt(life, n), p, life.log[n].env.processed, i, k);
  }

  /** After the server handshake only a re-opening SYN is answered by the proxy itself. */
  lemma Settled(life: Life, n: nat)
    requires life.Valid() && n < |life.log| && life.log[n].FromClient? && SetupAt(life, n).serverIsn.Some?
    ensures ClientBranchOf(life.At(n), life.log[n].p) !in {FinEarly, FirstPayload}
  {
    hide Next, Output, ClassifyClient, ClientPair, Listed, SetupAt, Routed, Fresh;
    NewOrOpen(life, n);
    AlwaysFits(life, n);
    ClientArms(life.At(n).q, life.At(n).Pair(), life.log[n].p);
  }

  lemma ToServerMaps(cfg: Config, c: Con, u: Setup, p: Packet, processed: Payload, i: int, k: int)
    requires Fits(cfg, c, u) && u.serverIsn.Some?
    ensures u.first.Some?
    ensures var out := ToServer(c.q, p, Sock(cfg.ipS, c.port), cfg.servers(c.serverIndex), processed);
      && (p.seqn == Plus(u.first.value.p.seqn, i) <==> out.seqn == Plus(u.first.value.p.seqn, i + u.first.value.Growth()))
      && (p.ackn == Plus(u.proxyIsn, 1 + k) <==> out.ackn == Plus(u.serverIsn.value, 1 + k))
      && out.payload == (if p.payload == [] then [] else processed) && out.dst == cfg.servers(u.first.value.sel.server)
      && (out.syn, out.ack, out.fin, out.rst, out.psh) == (p.syn, p.ack, p.fin, p.rst, p.psh)
  {
    hide Plus, Shift, WrapSub;
    ShiftPlus(p.seqn, u.first.value.p.seqn, i, u.first.value.Growth());
    DeltaPlus(p.ackn, u.proxyIsn, u.serverIsn.value, 1 + k);
  }

  /** The other direction: server byte `k` reaches the client `k` bytes after the proxy's own initial number, and a
      server acknowledgement up to `j` bytes after the first payload's start loses the growth again. */
  lemma ServerToClientTransparent(life: Life, n: nat, j: int, k: int)
    requires life.Valid() && n < |life.log| && life.log[n].FromServer?
    requires ForwardsServer(life.At(n).Pair()) && SetupAt(life, n).serverIsn.Some?
    ensures var u, p, out := SetupAt(life, n), life.log[n].p, life.Out(n).pkt;
      && u.first.Some?
      && (p.seqn == Plus(u.serverIsn.value, 1 + k) <==> out.seqn == Plus(u.proxyIsn, 1 + k))
      && (p.ackn == Plus(u.first.value.p.seqn, j) <==> out.ackn == Plus(u.first.value.p.seqn, j - u.first.value.Growth()))
      && out.payload == p.payload
      && (out.syn, out.ack, out.fin, out.rst, out.psh) == (p.syn, p.ack, p.fin, p.rst, p.psh)
  {
    hide ClientNext, ClientOut, ServerNext, ServerOut, ClassifyServer, ServerPair, ToClient, Plus, Listed, SetupAt,
         ForwardsServer, Routed, Fresh;
    var c, p := life.At(n), life.log[n].p;
    AlwaysFits(life, n);
    NewOrOpen(life, n);
    ServerArms(c.q, c.Pair(), p);
    ServerRewrite(life.cfg, c, p);
    ToClientMaps(life.cfg, c, SetupAt(life, n), p, j, k);
  }

  lemma ToClientMaps(cfg: Config, c: Con, u: Setup, p: Packet, j: int, k: int)
    requires Fits(cfg, c, u) && u.serverIsn.Some?
    ensures u.first.Some?
    ensures var out := ToClient(c.q, p, cfg.me, c.sock);
      && (p.seqn == Plus(u.serverIsn.value, 1 + k) <==> out.seqn == Plus(u.proxyIsn, 1 + k))
      && (p.ackn == Plus(u.first.value.p.seqn, j) <==> out.ackn == Plus(u.first.value.p.seqn, j - u.first.value.Growth()))
      && out.payload == p.payload
      && (out.syn, out.ack, out.fin, out.rst, out.psh) == (p.syn, p.ack, p.fin, p.rst, p.psh)
  {
    hide Plus, Shift, WrapSub, WrapAdd;
    ShiftPlus(p.ackn, u.first.value.p.seqn, j, -u.first.value.Growth());
    DeltaPlus(p.seqn, u.proxyIsn, u.serverIsn.value, 1 + k);
  }

  /** What one direction does to sequence numbers the other direction undoes on acknowledgements. */
  lemma DirectionsInvert(q: Words, x: U32)
    ensures WrapSub(WrapAdd(x, q.cSeqn), q.cSeqn) == x && WrapAdd(WrapSub(x, q.cSeqn), q.cSeqn) == x
    ensures Shift(Shift(x, q.inserted), -q.inserted) == x && Shift(Shift(x, -q.inserted), q.inserted) == x
  {
  }

  // ---------- opening the server side, once ----------

  /** What packet `n` does to the server side. */
  lemma ServerSideStep(life: Life, n: nat)
    requires life.Valid() && n < |life.log|
    ensures n > 0 && AtLeast(life.At(n).sState, Established) ==> AtLeast(life.At(n + 1).sState, Established)
    ensures n > 0 && life.At(n).sState != Listen ==> life.At(n + 1).sState != Listen
    ensures IsSynAck(life, n) ==> life.At(n).sState == SynReceived && life.At(n + 1).sState == Established
    ensures IsFirstPayload(life, n) ==> life.At(n).sState == Listen && life.At(n + 1).sState == SynReceived
  {
    hide Next, Output, Listed, ClassifyClient, ClassifyServer, ClientPair, ServerPair;
    NewOrOpen(life, n);
    NextPair(life, n);
    var c, p := life.At(n), life.log[n].p;
    if life.log[n].FromClient? {
      ClientArms(c.q, c.Pair(), p);
    } else {
      ServerArms(c.q, c.Pair(), p);
    }
  }

  /** The server side never goes back. */
  lemma {:induction false} ServerSideStays(life: Life, i: nat, n: nat)
    requires life.Valid() && 0 < i <= n <= |life.log|
    ensures AtLeast(life.At(i).sState, Established) ==> AtLeast(life.At(n).sState, Established)
    ensures life.At(i).sState != Listen ==> life.At(n).sState != Listen
    decreases n
  {
    hide Next, Output, AtLeast, IsSynAck, IsFirstPayload, Routed, Fresh;
    if i < n {
      ServerSideStays(life, i, n - 1);
      ServerSideStep(life, n - 1);
    }
  }

  lemma {:induction false} FirstComesFrom(life: Life, n: nat) returns (f: nat)
    requires n <= |life.log| && SetupAt(life, n).first.Some?
    ensures f < n && IsFirstPayload(life, f) && SetupAt(life, n).first.value == First(life.log[f].p, life.log[f].env.sel)
    decreases n
  {
    hide Next, Output, ClassifyClient, ClassifyServer;
    if IsFirstPayload(life, n - 1) && !IsOpen(life, n - 1) {
      f := n - 1;
    } else {
      f := FirstComesFrom(life, n - 1);
    }
  }

  /** The two packets the accepting SYN-ACK sends. */
  lemma QueueOf(cfg: Config, c: Con, p: Packet, first: First)
    requires c.q.word == WrapSub(first.p.seqn, 1)
    requires c.held == Some(HeldPacket(first.p, Sock(cfg.ipS, c.port), cfg.servers(first.sel.server), first.sel.payload))
    ensures |SynAckQueue(c.q, c.held, p)| == 2
    ensures var ack, data := SynAckQueue(c.q, c.held, p)[0], SynAckQueue(c.q, c.held, p)[1];
      && ack.seqn == data.seqn == first.p.seqn && ack.ackn == data.ackn == Plus(p.seqn, 1)
      && ack.ack && !ack.syn && data.ack && !data.syn && data.psh && data.payload == first.sel.payload
      && ack.src == p.dst && data.src == Sock(cfg.ipS, p.dst.port)
      && ack.dst == p.src && data.dst == Sock(cfg.servers(first.sel.server).ip, p.src.port)
      && ack.payload == p.payload && (ack.fin, ack.rst, ack.psh) == (p.fin, p.rst, p.psh) == (data.fin, data.rst, ack.psh)
  {
  }

  lemma SynOut(cfg: Config, c: Con, p: Packet, env: Env)
    requires ClientBranchOf(c, p) == FirstPayload && !ForwardsClient(c.Pair())
    ensures ClientOut(cfg, c, p, env).pkt.seqn == WrapSub(p.seqn, 1)
  {
    hide ClassifyClient, ClientPair, ClientRecord, ClientCountC, ClientCountS, ClientGroup, ForwardsClient, WrapSub;
  }

  lemma OneOn(x: U32)
    ensures Plus(WrapSub(x, 1), 1) == x
  {
  }

  /** The SYN to the server goes out one number before the first payload. */
  lemma SynNumber(life: Life, f: nat)
    requires life.Valid() && IsFirstPayload(life, f)
    ensures Plus(life.Out(f).pkt.seqn, 1) == life.log[f].p.seqn
  {
    hide Next, ClientOut, ClassifyClient, Listed, Routed, Fresh, Plus, WrapSub;
    var c, p := life.At(f), life.log[f].p;
    NewOrOpen(life, f);
    ClientArms(c.q, c.Pair(), p);
    SynOut(life.cfg, c, p, life.log[f].env);
    OneOn(p.seqn);
  }

  /** The last ACK of the server handshake and then the held payload go out with the accepting SYN-ACK and never else:
      both from the connection's own port, both one number after the SYN that went to the server, which is the number of the
      client's first payload packet, and both acknowledging the server's SYN, the payload as the callback left it. */
  lemma PayloadFollowsHandshake(life: Life, a: nat) returns (f: nat)
    requires life.Valid() && a < |life.log|
    ensures life.Out(a).queued != [] <==> IsSynAck(life, a)
    ensures IsSynAck(life, a) ==>
      && f < a && IsFirstPayload(life, f) && |life.Out(a).queued| == 2
      && var first, ack, data := life.log[f], life.Out(a).queued[0], life.Out(a).queued[1];
         && ack.seqn == data.seqn == first.p.seqn == Plus(life.Out(f).pkt.seqn, 1)
         && ack.ackn == data.ackn == Plus(life.log[a].p.seqn, 1)
         && ack.ack && !ack.syn && data.ack && !data.syn && data.psh
         && data.payload == first.env.sel.payload
         && data.src == Sock(life.cfg.ipS, life.c0.port) && ack.src == Sock(life.log[a].p.dst.ip, life.c0.port)
         && data.dst == Sock(life.cfg.servers(first.env.sel.server).ip, life.log[a].p.src.port)
         && ack.dst == life.log[a].p.src && ack.payload == life.log[a].p.payload && ack.psh == life.log[a].p.psh
         && (ack.fin, ack.rst) == (data.fin, data.rst) == (life.log[a].p.fin, life.log[a].p.rst)
  {
    hide ClientNext, ServerNext, ServerOut, ClassifyClient, ClassifyServer, ClientPair, ServerPair, Listed, IsFirstPayload,
         SetupAt, SynAckQueue, Plus, HeldPacket, ClientCountC, ClientCountS, ClientPacket;
    var c, p := life.At(a), life.log[a].p;
    NewOrOpen(life, a);
    f := 0;
    if life.log[a].FromServer? {
      ServerRewrite(life.cfg, c, p);
      if IsSynAck(life, a) {
        ServerArms(c.q, c.Pair(), p);
        AlwaysFits(life, a);
        f := FirstComesFrom(life, a);
        SynNumber(life, f);
        QueueOf(life.cfg, c, p, SetupAt(life, a).first.value);
        SameOwner(life, a);
        assert Routed(c, life.log[a]);
      }
    }
  }

  /** Until the server side is established the client's initial number is that of the very first packet. */
  lemma {:induction false} FirstSyn(life: Life, n: nat)
    requires life.Valid() && 0 < n <= |life.log| && !AtLeast(life.At(n).sState, Established)
    ensures SetupAt(life, n).clientIsn == life.log[0].p.seqn
    decreases n
  {
    hide Next, Output, ClassifyClient, ClassifyServer, ClientPair, ServerPair, Listed, AtLeast, Routed, Fresh;
    NewOrOpen(life, n - 1);
    ClientArms(life.At(n - 1).q, life.At(n - 1).Pair(), life.log[n - 1].p);
    if n > 1 {
      ServerSideStep(life, n - 1);
      FirstSyn(life, n - 1);
    }
  }

  /** If the client's first payload directly follows its handshake with initial number Sc, the handshake ACK and the
      payload that the server gets both carry Sc + 1. */
  lemma PayloadAtClientIsn(life: Life, a: nat) returns (f: nat)
    requires life.Valid() && a < |life.log| && IsSynAck(life, a)
    ensures SetupAt(life, a).clientIsn == life.log[0].p.seqn
    ensures f < a && IsFirstPayload(life, f) && |life.Out(a).queued| == 2
    ensures forall i | 0 <= i < 2 ::
      life.Out(a).queued[i].seqn == Plus(life.log[0].p.seqn, 1) <==> life.log[f].p.seqn == Plus(SetupAt(life, a).clientIsn, 1)
  {
    hide Next, Output, ClassifyClient, ClassifyServer, IsFirstPayload, Plus, SetupAt;
    f := PayloadFollowsHandshake(life, a);
    ServerSideStep(life, a);
    FirstSyn(life, a);
  }

  /** One allocation sends at most one SYN to a server and accepts at most one SYN-ACK. */
  lemma ServerOpensOnce(life: Life, a: nat, b: nat)
    requires life.Valid() && a < b < |life.log|
    ensures !(IsSynAck(life, a) && IsSynAck(life, b))
    ensures !(IsFirstPayload(life, a) && IsFirstPayload(life, b))
  {
    hide Next, Output, IsSynAck, IsFirstPayload, Routed, Fresh;
    ServerSideStep(life, a);
    ServerSideStep(life, b);
    ServerSideStays(life, a + 1, b);
    assert AtLeast(Established, Established) && !AtLeast(SynReceived, Established);
  }
}
