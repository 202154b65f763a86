/** Which packets go where, and how connections end, in whole runs. */
module Routing {
  import opened Tcp
  import opened Connection
  import opened Splice
  import opened Machine
  import opened JointStates
  import opened CloseSafety
  import opened CloseProgress
  import opened PortTable
  import opened PipelineState
  import opened Runs
  import opened SpliceRuns
  import opened Wire
  import opened Destinations
  import opened Events

  lemma ForwardedByClient(cfg: Config, c: Con, p: Packet, env: Env)
    requires ForwardsClient(c.Pair())
    ensures ClientOut(cfg, c, p, env).pkt.src == Sock(cfg.ipS, c.port) && ClientOut(cfg, c, p, env).group == TO_WIRE
  {
    hide ClassifyClient, ClientPair, ClientRecord, ClientWords, ClientPacket, ClientCountC, ClientCountS, ClientGroup;
  }

  lemma ForwardedByServer(cfg: Config, c: Con, p: Packet)
    requires ForwardsServer(c.Pair())
    ensures ServerOut(cfg, c, p).pkt.dst == c.sock && ServerOut(cfg, c, p).pkt.src == cfg.me
    ensures ServerOut(cfg, c, p).group == TO_WIRE
  {
    hide ServerPair, ServerRecord, ServerCountC, ServerCountS;
  }

  /** A packet that is given to connection `x` and forwarded: from the client it leaves with source port `x`,
      from the server it goes to the client socket of `x`. */
  lemma ForwardedPacket(cfg: Config, w: World, e: Event, x: U16)
    requires Given(cfg, w, e, x)
    ensures e.p.dst.port == cfg.me.port && ForwardsClient(Before(w, e, x).Pair()) ==>
      Answer(cfg, w, e).pkt.src == Sock(cfg.ipS, x) && e.p.src == Before(w, e, x).sock
    ensures e.p.dst.port != cfg.me.port && ForwardsServer(Before(w, e, x).Pair()) ==>
      Answer(cfg, w, e).pkt.dst == Before(w, e, x).sock && Answer(cfg, w, e).pkt.src == cfg.me
  {
    hide TableOk, WheelOk, ClientOut, ServerOut, ForwardsClient, ForwardsServer, Step;
    ArriveAt(cfg, w, e, x);
    FindKeeps(cfg, w.t, e.p);
    if e.p.dst.port == cfg.me.port {
      if ForwardsClient(Before(w, e, x).Pair()) {
        ForwardedByClient(cfg, Before(w, e, x), e.p, EvOf(cfg, w.w, e).env);
      }
    } else if ForwardsServer(Before(w, e, x).Pair()) {
      ForwardedByServer(cfg, Before(w, e, x), e.p);
    }
  }

  lemma OwnerStaysOneStep(cfg: Config, w: World, e: Event, x: U16)
    requires WorldOk(w) && EventOk(cfg, w, e) && w.t.Owns(x)
    requires Step(cfg, w, e).t.Owns(x) && Step(cfg, w, e).t.Con(x).InUse()
    ensures w.t.Con(x).InUse() ==> Step(cfg, w, e).t.Con(x).sock == w.t.Con(x).sock
    ensures e.Arrive? && Target(cfg, w, e) == Some(x) ==> Step(cfg, w, e).t.Con(x).sock == Before(w, e, x).sock
  {
    hide TableOk, WheelOk, Next, Output, Step, Find;
    if e.Timer? {
      TimerAt(cfg, w, e, x);
    } else {
      ArriveAt(cfg, w, e, x);
      SameIdentity(cfg, Before(w, e, x), EvOf(cfg, w.w, e));
    }
  }

  /** While a connection is in use, its port belongs to one client socket. */
  lemma {:induction false} OwnerStays(cfg: Config, ws: seq<World>, es: seq<Event>, i: nat, j: nat, x: U16)
    requires Run(cfg, ws, es) && i <= j <= |es|
    requires forall k :: i <= k <= j ==> ws[k].t.Owns(x) && ws[k].t.Con(x).InUse()
    ensures ws[j].t.Con(x).sock == ws[i].t.Con(x).sock
    decreases j
  {
    hide Step, WorldOk, EventOk, Follows, Initial;
    if i < j {
      OwnerStays(cfg, ws, es, i, j - 1, x);
      RunKeeps(cfg, ws, es, j - 1);
      OwnerStaysOneStep(cfg, ws[j - 1], es[j - 1], x);
    }
  }

  /** Routing never crosses connections: if a client packet is forwarded with source port `x`, then for as long as that
      connection stays in use every client packet from the same socket that is given to a connection is given to `x`,
      every server packet to `x` that is forwarded goes back to that socket, and no other client socket is served
      through `x`. */
  lemma RoutingNeverCrosses(cfg: Config, ws: seq<World>, es: seq<Event>, i: nat, j: nat, x: U16)
    requires Run(cfg, ws, es) && i < j < |es|
    requires forall k :: i < k <= j ==> ws[k].t.Owns(x) && ws[k].t.Con(x).InUse()
    requires Given(cfg, ws[i], es[i], x) && es[i].p.dst.port == cfg.me.port && ForwardsClient(Before(ws[i], es[i], x).Pair())
    ensures Answer(cfg, ws[i], es[i]).pkt.src == Sock(cfg.ipS, x)
    ensures Given(cfg, ws[j], es[j], x) && es[j].p.dst.port != cfg.me.port && ForwardsServer(Before(ws[j], es[j], x).Pair()) ==>
      Answer(cfg, ws[j], es[j]).pkt.dst == es[i].p.src
    ensures Given(cfg, ws[j], es[j], x) && es[j].p.dst.port == cfg.me.port ==> es[j].p.src == es[i].p.src
    ensures WorldOk(ws[j]) && (es[j].Arrive? && es[j].p.dst.port == cfg.me.port && es[j].p.src == es[i].p.src ==>
      Target(cfg, ws[j], es[j]) == if ForUs(cfg, ws[j].t, es[j].p) then Some(x) else None)
    ensures forall y: U16 :: ws[j].t.Owns(y) && ws[j].t.Con(y).InUse() && ws[j].t.Con(y).sock == es[i].p.src ==> y == x
  {
    hide Step, EventOk, Follows, Initial, Find, Answer, ForwardsClient, ForwardsServer, Next, Output;
    ForwardedPacket(cfg, ws[i], es[i], x);
    RunKeeps(cfg, ws, es, i);
    OwnerStaysOneStep(cfg, ws[i], es[i], x);
    OwnerStays(cfg, ws, es, i + 1, j, x);
    RunKeeps(cfg, ws, es, j);
    if Given(cfg, ws[j], es[j], x) {
      ForwardedPacket(cfg, ws[j], es[j], x);
      ArriveAt(cfg, ws[j], es[j], x);
    }
    if es[j].Arrive? && es[j].p.dst.port == cfg.me.port && es[j].p.src == es[i].p.src {
      KnownSocket(cfg, ws[j], es[j], x);
    }
  }

  /** A client packet from the socket of a connection in use is given to that connection. */
  lemma KnownSocket(cfg: Config, w: World, e: Event, x: U16)
    requires WorldOk(w) && e.Arrive? && w.t.Owns(x) && w.t.Con(x).InUse()
    requires e.p.dst.port == cfg.me.port && e.p.src == w.t.Con(x).sock
    ensures Target(cfg, w, e) == if ForUs(cfg, w.t, e.p) then Some(x) else None
  {
  }

  // ---------- how a connection begins ----------

  /** In every run a SYN from a new socket that finds a free port is answered on the wire: a SYN-ACK goes back to where the
      SYN came from, with the proxy's number for it and one above the client's, and the first free port serves the socket. */
  lemma RunAnswersSyn(cfg: Config, ws: seq<World>, es: seq<Event>, n: nat)
    requires Run(cfg, ws, es) && n < |es| && es[n].Arrive? && Addressed(cfg, ws[n].t, es[n].p)
    requires es[n].p.dst.port == cfg.me.port && es[n].p.syn && es[n].p.src !in ws[n].t.s2p && ws[n].t.free != []
    ensures WorldOk(ws[n]) && EventOk(cfg, ws[n], es[n])
    ensures var p, a := es[n].p, Answer(cfg, ws[n], es[n]);
      && a.group == TO_WIRE && a.pkt.syn && a.pkt.ack && a.pkt.src == p.dst && a.pkt.dst == p.src
      && a.pkt.ackn == Plus(p.seqn, 1) && a.pkt.seqn == es[n].isn && a.queued == []
    ensures var t, x := ws[n + 1].t, ws[n].t.free[0];
      t.Owns(x) && t.Con(x).InUse() && t.Con(x).sock == es[n].p.src && t.Con(x).Pair() == (SynSent, Listen)
  {
    hide Step, Follows, Initial, Next, Output, Find, Answer, PacketsOf, TableOk, WheelOk, Plus, ForUs;
    RunKeeps(cfg, ws, es, n);
    var w, e := ws[n], es[n];
    PacketIsGiven(cfg, w, e);
    PacketAsGiven(cfg, w, e);
    var x := w.t.free[0];
    FirstIsUnused(w.t);
    assert Given(cfg, w, e, x);
    var life := PacketInLife(cfg, ws, es, n, x);
    NewClientIsAnswered(life, |life.log| - 1);
    SameOwner(life, |life.log|);
  }

  // ---------- how a connection ends ----------

  /** The packet resets connection `x`. */
  predicate Resets(cfg: Config, w: World, e: Event, x: U16)
    requires e.Arrive? && w.t.Owns(x)
  {
    e.p.dst.port == cfg.me.port && ClientBranchOf(Before(w, e, x), e.p) == Reset
  }

  /** A connection that a packet ends gives its port to the queue, once, and its socket is forgotten. */
  lemma EndFreesPort(cfg: Config, w: World, e: Event, x: U16)
    requires WorldOk(w) && EventOk(cfg, w, e) && e.Arrive? && w.t.Owns(x) && w.t.Con(x).InUse()
    requires Step(cfg, w, e).t.Owns(x) && !Step(cfg, w, e).t.Con(x).InUse()
    ensures Step(cfg, w, e).t.free == w.t.free + [x] && x !in w.t.free
    ensures Step(cfg, w, e).t.s2p == w.t.s2p - {w.t.Con(x).sock} && w.t.Con(x).sock in w.t.s2p
  {
    hide WheelOk, Next, Output;
    ArriveAt(cfg, w, e, x);
    FindKeeps(cfg, w.t, e.p);
    SameIdentity(cfg, w.t.Con(x), EvOf(cfg, w.w, e));
  }

  /** In every run, a connection that is in use before a packet and not after it, the packet being no client RST, was
      closed by both sides with the packets it was given: the client's FIN was acknowledged by the server and the
      server's by the client, or the client closed early and acknowledged the proxy's FIN. */
  lemma RunCloseIsMutual(cfg: Config, ws: seq<World>, es: seq<Event>, n: nat, x: U16) returns (life: Life)
    requires Run(cfg, ws, es) && n < |es| && es[n].Arrive?
    requires ws[n].t.Owns(x) && ws[n].t.Con(x).InUse() && ws[n + 1].t.Owns(x) && !ws[n + 1].t.Con(x).InUse()
    requires !Resets(cfg, ws[n], es[n], x)
    ensures life == LifeWith(cfg, ws[n].t.Con(x), PacketsOf(cfg, ws, es, n + 1, x))
    ensures life.Valid() && life.log != [] && life.At(|life.log| - 1) == ws[n].t.Con(x)
    ensures life.log[|life.log| - 1].p == es[n].p
    ensures
      || (ClientFinAcked(life, |life.log|) && ServerFinAcked(life, |life.log|) && !ClosedEarly(life, |life.log|))
      || (ClosedEarly(life, |life.log|) && ProxyFinAcked(life, |life.log|))
  {
    hide Step, Follows, Initial, Next, Output, ClassifyClient, Answer, PacketsOf;
    RunKeeps(cfg, ws, es, n);
    TargetEnds(cfg, ws[n], es[n], x);
    life := PacketInLife(cfg, ws, es, n, x);
    CloseIsMutual(life);
  }

  /** Close progress in every run: whenever the packets that connection `x` was given are orderly from its established
      state on, the packet that ends it is exactly the first one after which both FINs have been delivered and
      acknowledged, and this packet gives the port back once and lets the client socket be forgotten. */
  lemma RunCloseProgress(cfg: Config, ws: seq<World>, es: seq<Event>, n: nat, x: U16, m: nat) returns (life: Life)
    requires Run(cfg, ws, es) && n < |es| && Given(cfg, ws[n], es[n], x)
    ensures life == LifeWith(cfg, Before(ws[n], es[n], x), PacketsOf(cfg, ws, es, n + 1, x))
    ensures life.Valid() && life.log != [] && ws[n + 1].t.Owns(x)
    ensures var k := |life.log|;
      m < k && Orderly(life, m, k) ==>
        && (!ws[n + 1].t.Con(x).InUse() <==> SeenAt(life, m, k).Complete())
        && !SeenAt(life, m, k - 1).Complete()
        && (SeenAt(life, m, k).Complete() ==>
              && ws[n + 1].t.free == ws[n].t.free + [x] && x !in ws[n].t.free
              && ws[n + 1].t.s2p == ws[n].t.s2p - {ws[n].t.Con(x).sock})
  {
    hide Step, Follows, Initial, Next, Output, Answer, PacketsOf, Find, Routed, TableOk, WheelOk, EventOk, SeenAt, Legal,
         Target;
    RunKeeps(cfg, ws, es, n);
    life := PacketInLife(cfg, ws, es, n, x);
    var k := |life.log|;
    if m < k && Orderly(life, m, k) {
      ReleaseIffBothAcked(life, m, k);
      assert ws[n].t.Con(x).InUse();
      if SeenAt(life, m, k).Complete() {
        EndFreesPort(cfg, ws[n], es[n], x);
      }
    }
  }

  /** Only the connection a packet is given to can end with it. */
  lemma TargetEnds(cfg: Config, w: World, e: Event, x: U16)
    requires WorldOk(w) && EventOk(cfg, w, e) && e.Arrive? && w.t.Owns(x) && w.t.Con(x).InUse()
    requires Step(cfg, w, e).t.Owns(x) && !Step(cfg, w, e).t.Con(x).InUse()
    ensures Given(cfg, w, e, x)
  {
    hide Step, Next, Output, Find;
    ArriveAt(cfg, w, e, x);
  }
}
