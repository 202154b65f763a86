/** Runs that exist: each listed pair of states, and a completed close, reached by packets addressed to the proxy. */
module Scenarios {
  import opened Tcp
  import opened Connection
  import opened Splice
  import opened Machine
  import opened JointStates
  import opened PortTable
  import opened PipelineState
  import opened Runs
  import opened CloseProgress
  import opened Wire
  import opened Routing

  /** A pipeline that can serve a client: a free port that is not the proxy's own one, and a slot for its timer. */
  ghost predicate CanServe(cfg: Config, w: World, sock: Sock) {
    Initial(w) && w.w != [] && w.t.free != [] && w.t.free[0] != cfg.me.port && sock.ip != 0
  }

  /** A packet for connection `c`, with the simplest inputs from outside. */
  function ProbeEvent(cfg: Config, c: Con, k: Probe): Event {
    Arrive(ProbePacket(cfg, c, k), 0, 0, Selection(0, []), [])
  }

  function SlotEnv(w: Wheel): Env
    requires w != []
  {
    Env(0, (0, |w[0]|), Selection(0, []), [])
  }

  /** One more event. */
  lemma RunOn(cfg: Config, ws: seq<World>, es: seq<Event>, e: Event)
    requires Run(cfg, ws, es) && WorldOk(ws[|es|]) && EventOk(cfg, ws[|es|], e)
    ensures Run(cfg, ws + [Step(cfg, ws[|es|], e)], es + [e])
  {
    hide Step, WorldOk, EventOk, Initial;
    var w1 := Step(cfg, ws[|es|], e);
    forall i | 0 <= i < |es + [e]| ensures Follows(cfg, (ws + [w1])[i], (es + [e])[i], (ws + [w1])[i + 1]) {
      assert i < |es| ==> Follows(cfg, ws[i], es[i], ws[i + 1]);
    }
  }

  /** The pipeline gives a probe to the connection it is made for. */
  lemma ProbeIsGiven(cfg: Config, w: World, x: U16, k: Probe)
    requires WorldOk(w) && w.w != [] && w.t.Owns(x) && w.t.Con(x).InUse() && x != cfg.me.port
    ensures var e := ProbeEvent(cfg, w.t.Con(x), k);
      EventOk(cfg, w, e) && Given(cfg, w, e, x) && EvOf(cfg, w.w, e) == ProbeEv(cfg, w.t.Con(x), k, SlotEnv(w.w))
  {
    hide WheelOk;
  }

  /** Connection `x` of a run in joint state `j`. */
  ghost predicate InPair(cfg: Config, ws: seq<World>, es: seq<Event>, x: U16, j: Pair) {
    Run(cfg, ws, es) && ws[|es|].t.Owns(x) && ws[|es|].t.Con(x).InUse() && ws[|es|].t.Con(x).Pair() == j
  }

  /** A run goes on with a probe. */
  lemma Probed(cfg: Config, ws: seq<World>, es: seq<Event>, x: U16, j: Pair, k: Probe)
      returns (ws1: seq<World>, es1: seq<Event>)
    requires InPair(cfg, ws, es, x, j) && ws[|es|].w != [] && x != cfg.me.port && Fitting(k, j)
    ensures Run(cfg, ws1, es1) && |es1| == |es| + 1 && es1[..|es|] == es && ws1[..|ws|] == ws
    ensures ws1[|es1|].w != [] && ws1[|es1|].t.Owns(x)
    ensures es1[|es|] == ProbeEvent(cfg, ws[|es|].t.Con(x), k) && Given(cfg, ws[|es|], es1[|es|], x)
    ensures ProbePair(k, j) != (Closed, Closed) ==>
      InPair(cfg, ws1, es1, x, ProbePair(k, j)) && ws1[|es1|].t.Con(x).sock == ws[|es|].t.Con(x).sock
    ensures ProbePair(k, j) == (Closed, Closed) ==> !ws1[|es1|].t.Con(x).InUse()
  {
    hide Step, TableOk, WheelOk, Initial, Next, Output, Find, ProbePair, ProbeEv, Fitting, Routed, Given, EventOk, Follows;
    RunKeeps(cfg, ws, es, |es|);
    var w := ws[|es|];
    var c, e := w.t.Con(x), ProbeEvent(cfg, w.t.Con(x), k);
    ProbeIsGiven(cfg, w, x, k);
    GivenTo(cfg, w, e, x);
    ProbeTakesArm(cfg, c, k, SlotEnv(w.w));
    SameIdentity(cfg, c, EvOf(cfg, w.w, e));
    StepKeeps(cfg, w, e);
    RunOn(cfg, ws, es, e);
    ws1, es1 := ws + [Step(cfg, w, e)], es + [e];
  }

  lemma GivenTo(cfg: Config, w: World, e: Event, x: U16)
    requires Given(cfg, w, e, x) && w.t.Con(x).InUse()
    ensures var c, ev := w.t.Con(x), EvOf(cfg, w.w, e);
      Step(cfg, w, e).t.Owns(x) &&
      Step(cfg, w, e).t.Con(x) == if Output(cfg, c, ev).release then Next(cfg, c, ev).Released() else Next(cfg, c, ev)
  {
    hide Step, TableOk, WheelOk, Next, Output, Find;
    ArriveAt(cfg, w, e, x);
  }

  /** The first SYN of a client. */
  lemma Opened(cfg: Config, w: World, sock: Sock) returns (ws: seq<World>, es: seq<Event>)
    requires CanServe(cfg, w, sock)
    ensures |ws| == 2 && |es| == 1 && ws[0] == w && w.t.Owns(w.t.free[0]) && es[0].Arrive?
    ensures InPair(cfg, ws, es, w.t.free[0], (SynSent, Listen)) && ws[1].t.Con(w.t.free[0]).sock == sock && ws[1].w != []
  {
    hide Step, TableOk, WheelOk, Next, Output, Find;
    InitialOk(w);
    var c := Fresh(sock, w.t.free[0], w.t.detailed);
    var e := ProbeEvent(cfg, c, CSyn);
    FirstIsGiven(cfg, w, sock);
    var x := w.t.free[0];
    ArriveAt(cfg, w, e, x);
    ProbeTakesArm(cfg, c, CSyn, SlotEnv(w.w));
    FirstProbe();
    ProbeLeadsOn((SynSent, Listen));
    SameIdentity(cfg, c, EvOf(cfg, w.w, e));
    StepKeeps(cfg, w, e);
    RunOn(cfg, [w], [], e);
    ws, es := [w] + [Step(cfg, w, e)], [] + [e];
  }

  lemma FirstIsGiven(cfg: Config, w: World, sock: Sock)
    requires CanServe(cfg, w, sock)
    ensures WorldOk(w) && w.t.Owns(w.t.free[0])
    ensures var x := w.t.free[0];
      var c := Fresh(sock, x, w.t.detailed);
      var e := ProbeEvent(cfg, c, CSyn);
      && EventOk(cfg, w, e) && Given(cfg, w, e, x) && Before(w, e, x) == c
      && EvOf(cfg, w.w, e) == ProbeEv(cfg, c, CSyn, SlotEnv(w.w))
  {
    assert w.t.free[0] in w.t.free;
    NoSockets(w);
  }

  lemma NoSockets(w: World)
    requires Initial(w)
    ensures w.t.s2p == map[]
  {
    assert forall s :: s !in w.t.s2p;
  }

  /** Every listed pair occurs in a run of every pipeline that can serve a client. */
  lemma {:induction false} EachOccursInRun(cfg: Config, w: World, sock: Sock, j: Pair) returns (ws: seq<World>, es: seq<Event>)
    requires CanServe(cfg, w, sock) && Listed(j)
    ensures Run(cfg, ws, es) && ws[0] == w && w.t.Owns(w.t.free[0])
    ensures InPair(cfg, ws, es, w.t.free[0], j) && ws[|es|].t.Con(w.t.free[0]).sock == sock && ws[|es|].w != []
    decreases Depth(j)
  {
    hide Step, Initial, Next, Output, Find, ProbePair, Predecessor, Fitting, Follows;
    if j == (SynSent, Listen) {
      ws, es := Opened(cfg, w, sock);
    } else {
      PredecessorIsListed(j);
      ws, es := EachOccursInRun(cfg, w, sock, Predecessor(j).0);
      ProbeLeadsOn(j);
      OpenPair(j);
      ws, es := Probed(cfg, ws, es, w.t.free[0], Predecessor(j).0, Predecessor(j).1);
    }
  }

  lemma OpenPair(j: Pair)
    requires Listed(j)
    ensures j != (Closed, Closed)
  {
  }

  /** Exactly the listed pairs are reachable for connections of runs. */
  lemma RunReachableIffListed(cfg: Config, w: World, sock: Sock, j: Pair)
    requires CanServe(cfg, w, sock)
    ensures Listed(j) <==> exists ws, es, x :: InPair(cfg, ws, es, x, j) && ws[0] == w
  {
    hide Step, Initial, Listed, Follows;
    if Listed(j) {
      var ws, es := EachOccursInRun(cfg, w, sock, j);
    }
    forall ws, es, x | InPair(cfg, ws, es, x, j) ensures Listed(j) {
      RunPairsListed(cfg, ws, es, |es|, x);
    }
  }

  /** A connection that a packet closes, the packet being no reset, occurs in a run of every such pipeline. */
  lemma CloseOccursInRun(cfg: Config, w: World, sock: Sock) returns (ws: seq<World>, es: seq<Event>)
    requires CanServe(cfg, w, sock)
    ensures Run(cfg, ws, es) && ws[0] == w && es != [] && es[|es| - 1].Arrive?
    ensures var x, n := w.t.free[0], |es| - 1;
      && ws[n].t.Owns(x) && ws[n].t.Con(x).InUse() && ws[n + 1].t.Owns(x) && !ws[n + 1].t.Con(x).InUse()
      && !Resets(cfg, ws[n], es[n], x)
  {
    hide Step, Initial, Next, Output, Find, Follows, Given;
    var x := w.t.free[0];
    ws, es := EachOccursInRun(cfg, w, sock, (FinWait2, LastAck));
    ProbeTakesArm(cfg, ws[|es|].t.Con(x), CAck, NoEnv);
    ws, es := Probed(cfg, ws, es, x, (FinWait2, LastAck), CAck);
  }

  // ---------- orderly closes exist ----------

  lemma {:induction false} SeenStays(life: Life, e: Ev, m: nat, n: nat)
    requires m <= n <= |life.log|
    ensures SeenAt(life.Then(e), m, n) == SeenAt(life, m, n)
    decreases n
  {
    hide Next, Output, Observe;
    if m < n {
      SeenStays(life, e, m, n - 1);
      life.ThenBefore(e, n - 1);
    }
  }

  /** A probe that is no SYN, and no second FIN of its side, is a legal packet. */
  lemma LegalProbe(cfg: Config, c: Con, o: Seen, k: Probe)
    requires Agrees(c, o) && k !in {CSyn, SSynAck}
    requires (k in {CFin, CFinAlone} ==> !ClientFinSeen(c.Pair())) && (k in {SFin, SFinAck} ==> !ServerFinSeen(c.Pair()))
    ensures Legal(c.cState, c.q.ackP2c, o, ProbeEv(cfg, c, k, NoEnv))
  {
    hide ClientFinSeen, ServerFinSeen, ClientAckSeen, ServerAckSeen, CloseStates;
  }

  lemma OrderlyOn(life: Life, m: nat, k: Probe) returns (next: Life)
    requires m <= |life.log| && Orderly(life, m, |life.log|) && life.Live()
    requires k !in {CSyn, SSynAck} && Fitting(k, life.Now().Pair())
    requires k in {CFin, CFinAlone} ==> !ClientFinSeen(life.Now().Pair())
    requires k in {SFin, SFinAck} ==> !ServerFinSeen(life.Now().Pair())
    ensures |next.log| == |life.log| + 1 && Orderly(next, m, |next.log|) && next.Now().Pair() == ProbePair(k, life.Now().Pair())
    ensures next.Live() <==> next.Now().Pair() != (Closed, Closed)
  {
    hide Next, Output, Routed, Fresh, ProbeEv, ProbePair, Fitting, Legal, Agrees, ClientFinSeen, ServerFinSeen, NumbersAt;
    var n, e := |life.log|, ProbeEv(life.cfg, life.Now(), k, NoEnv);
    AlwaysAgrees(life, m, n);
    LegalProbe(life.cfg, life.Now(), SeenAt(life, m, n), k);
    Send(life, k);
    next := life.Then(e);
    life.ThenAt(e, m);
    forall i | m <= i <= n ensures LegalAt(next, m, i) {
      SeenStays(life, e, m, i);
      life.ThenAt(e, i);
      WordsAreOnTheWire(life, i);
      WordsAreOnTheWire(next, i);
      assert i < n ==> LegalAt(life, m, i);
    }
  }

  lemma NothingYet(life: Life, m: nat)
    requires life.Valid() && m == |life.log| && life.At(m).Pair() == (Established, Established)
    ensures Orderly(life, m, m)
  {
  }

  /** The pairs of a close that the client begins and the server answers with FIN and acknowledgement at once. */
  lemma ClosePath()
    ensures Listed((Established, Established)) && Fitting(CFin, (Established, Established))
    ensures ProbePair(CFin, (Established, Established)) == (FinWait1, Established) && !ClientFinSeen((Established, Established))
    ensures Fitting(SFinAck, (FinWait1, Established)) && !ServerFinSeen((FinWait1, Established))
    ensures ProbePair(SFinAck, (FinWait1, Established)) == (FinWait1, LastAck)
    ensures Fitting(CAck, (FinWait1, LastAck)) && ProbePair(CAck, (FinWait1, LastAck)) == (Closed, Closed)
  {
  }

  /** An orderly close from the established state on that is completed with its last packet. */
  lemma OrderlyCloseOccurs(cfg: Config, sock: Sock, port: U16) returns (life: Life, m: nat)
    requires port != 0
    ensures m < |life.log| && Orderly(life, m, |life.log|) && life.Out(|life.log| - 1).release
    ensures SeenAt(life, m, |life.log|).Complete()
  {
    hide Next, Output, Orderly, SeenAt, Listed, Routed, Fresh, Fitting, ProbePair, ClientFinSeen, ServerFinSeen;
    ClosePath();
    life := EachOccurs(cfg, sock, port, true, (Established, Established));
    m := |life.log|;
    NothingYet(life, m);
    life := OrderlyOn(life, m, CFin);
    life := OrderlyOn(life, m, SFinAck);
    life := OrderlyOn(life, m, CAck);
    ReleaseIffBothAcked(life, m, |life.log|);
  }
}
