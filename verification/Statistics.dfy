/** What the connection statistics of a run add up to. */
module Statistics {
  import opened Tcp
  import opened Connection
  import opened Splice
  import opened Machine
  import opened Counters
  import opened JointStates
  import opened PortTable
  import opened PipelineState
  import opened Runs

  /** The waiting rooms of the connection setup: for the client's handshake ACK, for its first payload, and for the
      server's SYN-ACK. */
  datatype Stage = AwaitAck | AwaitPayload | AwaitSynAck

  predicate PairInStage(j: Pair, k: Stage) {
    match k
    case AwaitAck => j.0 == SynSent
    case AwaitPayload => j == (Established, Listen)
    case AwaitSynAck => j.1 == SynReceived
  }

  predicate InStage(c: Con, k: Stage) {
    c.InUse() && PairInStage(c.Pair(), k)
  }

  /** Times a stage was entered, and left in the regular way. */
  function Entered(c: Counter, s: Counter, k: Stage): nat {
    match k
    case AwaitAck => c[RecvSyn]
    case AwaitPayload => c[RecvSynAck2]
    case AwaitSynAck => s[SentSyn]
  }

  function Passed(c: Counter, s: Counter, k: Stage): nat {
    match k
    case AwaitAck => c[RecvSynAck2]
    case AwaitPayload => s[SentSyn]
    case AwaitSynAck => s[SentSynAck2]
  }

  /** A client packet takes the connection past stage `k` in another way: by a FIN or an RST, or, for the payload stage,
      as a handshake ACK that finds the server side closing already. */
  predicate ClientAbandons(b: ClientBranch, j: Pair, k: Stage) {
    match k
    case AwaitAck => j.0 == SynSent && b in {FinAnswer, FinCrossing, FinEarly, FinFirst, Reset}
    case AwaitPayload => (j == (Established, Listen) && b in {FinEarly, Reset}) || (b == HandshakeAck && j.1 != Listen)
    case AwaitSynAck => j.1 == SynReceived && b in {FinEarly, Reset}
  }

  /** A server FIN comes before the stage is over. */
  predicate ServerAbandons(b: ServerBranch, j: Pair, k: Stage) {
    b == ServerFinFirst && k != AwaitAck && PairInStage(j, k)
  }

  predicate Abandons(c: Con, e: Ev, k: Stage) {
    match e
    case FromClient(p, _) => ClientAbandons(ClientBranchOf(c, p), c.Pair(), k)
    case FromServer(p) => ServerAbandons(ServerBranchOf(c, p), c.Pair(), k)
  }

  // ---------- one packet ----------

  lemma ClientBalance(q: Words, j: Pair, p: Packet, k: Stage)
    requires Listed(j) || (j == (Closed, Listen) && p.syn)
    ensures var b := ClassifyClient(q, j, p);
      Entered(ClientCountC(b), ClientCountS(b), k) + One(PairInStage(j, k)) ==
      Passed(ClientCountC(b), ClientCountS(b), k) + One(b != Reset && PairInStage(ClientPair(b, j), k)) +
      One(ClientAbandons(b, j, k))
  {
    ClientCountsC(ClassifyClient(q, j, p));
    ClientCountsS(ClassifyClient(q, j, p));
    hide ClientCountC, ClientCountS;
  }

  lemma ServerBalance(q: Words, j: Pair, p: Packet, k: Stage)
    requires Listed(j)
    ensures var b := ClassifyServer(q, j, p);
      Entered(ServerCountC(b), ServerCountS(b), k) + One(PairInStage(j, k)) ==
      Passed(ServerCountC(b), ServerCountS(b), k) + One(PairInStage(ServerPair(b, j), k)) + One(ServerAbandons(b, j, k))
  {
    ServerCountsC(ClassifyServer(q, j, p));
    ServerCountsS(ClassifyServer(q, j, p));
    hide ServerCountC, ServerCountS;
  }

  /** What a packet adds to the statistics balances what it does to its connection. */
  lemma PacketBalance(cfg: Config, c: Con, e: Ev, k: Stage)
    requires c.InUse() && Routed(c, e) && (Listed(c.Pair()) || c.Pair() == (Closed, Listen))
    ensures var o, c1 := Output(cfg, c, e), Next(cfg, c, e);
      Entered(o.cInc, o.sInc, k) + One(InStage(c, k)) ==
      Passed(o.cInc, o.sInc, k) + One(!o.release && InStage(c1, k)) + One(Abandons(c, e, k))
  {
    hide ClassifyClient, ClassifyServer, ClientPair, ServerPair, ClientCountC, ClientCountS, ServerCountC, ServerCountS,
         ClientAbandons, ServerAbandons, Listed, ClientRecord, ServerRecord, ClientWords;
    match e
    case FromClient(p, env) =>
      ClientBalance(c.q, c.Pair(), p, k);
      assert ClientNext(cfg, c, p, env).Pair() == ClientPair(ClientBranchOf(c, p), c.Pair());
    case FromServer(p) =>
      ServerBalance(c.q, c.Pair(), p, k);
      assert ServerNext(c, p).Pair() == ServerPair(ServerBranchOf(c, p), c.Pair());
  }

  // ---------- the whole table ----------

  /** Connections with property `f`. */
  function Count(cons: seq<Con>, f: Con -> bool): nat {
    if cons == [] then 0 else One(f(cons[0])) + Count(cons[1..], f)
  }

  function StageTest(k: Stage): Con -> bool {
    c => InStage(c, k)
  }

  /** Connections in stage `k`. */
  function Waiting(cons: seq<Con>, k: Stage): nat {
    Count(cons, StageTest(k))
  }

  /** Connections with property `f` that are no longer in use later. */
  function Ended(cons: seq<Con>, later: seq<Con>, f: Con -> bool): nat
    requires |cons| == |later|
  {
    if cons == [] then 0
    else One(f(cons[0]) && !later[0].InUse()) + Ended(cons[1..], later[1..], f)
  }

  lemma {:induction false} CountUpdate(cons: seq<Con>, i: nat, c: Con, f: Con -> bool)
    requires i < |cons|
    ensures Count(cons[i := c], f) + One(f(cons[i])) == Count(cons, f) + One(f(c))
  {
    if i == 0 {
      assert cons[i := c][1..] == cons[1..];
    } else {
      CountUpdate(cons[1..], i - 1, c, f);
      assert cons[i := c][1..] == cons[1..][i - 1 := c];
    }
  }

  lemma {:induction false} CountAfterTimeouts(cons: seq<Con>, later: seq<Con>, f: Con -> bool)
    requires |cons| == |later| && forall c :: f(c) ==> c.InUse()
    requires forall i :: 0 <= i < |cons| ==> later[i] == cons[i] || !later[i].InUse()
    ensures Count(cons, f) == Count(later, f) + Ended(cons, later, f)
  {
    if cons != [] {
      CountAfterTimeouts(cons[1..], later[1..], f);
    }
  }

  lemma {:induction false} CountNone(cons: seq<Con>, f: Con -> bool)
    requires forall i :: 0 <= i < |cons| ==> !f(cons[i])
    ensures Count(cons, f) == 0
  {
    if cons != [] {
      CountNone(cons[1..], f);
    }
  }

  // ---------- one event ----------

  /** Connections an event takes past stage `k` without the regular next packet. */
  ghost function Lost(cfg: Config, w: World, e: Event, k: Stage): nat
    requires WorldOk(w) && EventOk(cfg, w, e)
  {
    StepKeeps(cfg, w, e);
    match e
    case Timer(_) => Ended(w.t.cons, Step(cfg, w, e).t.cons, StageTest(k))
    case Arrive(_, _, _, _, _) =>
      if Target(cfg, w, e).Some? && w.t.Owns(Target(cfg, w, e).value) then
        One(Abandons(Before(w, e, Target(cfg, w, e).value), EvOf(cfg, w.w, e), k))
      else 0
  }

  /** Everything that entered stage `k` passed it, waits in it, or was lost. */
  ghost predicate Balanced(w: World, k: Stage, lost: nat) {
    Entered(w.counterC, w.counterS, k) == Passed(w.counterC, w.counterS, k) + Waiting(w.t.cons, k) + lost
  }

  lemma ArriveCounters(cfg: Config, w: World, e: Event)
    requires WorldOk(w) && EventOk(cfg, w, e) && e.Arrive?
    ensures Target(cfg, w, e).None? ==> Step(cfg, w, e) == w
    ensures Target(cfg, w, e).Some? ==>
      var x := Target(cfg, w, e).value;
      && w.t.Owns(x)
      && var o := Output(cfg, Before(w, e, x), EvOf(cfg, w.w, e));
         Step(cfg, w, e).counterC == w.counterC + o.cInc && Step(cfg, w, e).counterS == w.counterS + o.sInc
  {
    hide TableOk, WheelOk, Next, Output;
    FindKeeps(cfg, w.t, e.p);
  }

  lemma FreshWaitsForNothing(sock: Sock, x: U16, detailed: bool, k: Stage)
    ensures !InStage(Fresh(sock, x, detailed), k)
  {
  }

  lemma ArriveBalance(cfg: Config, w: World, e: Event, x: U16, k: Stage, lost: nat)
    requires Given(cfg, w, e, x) && AllLive(cfg, w.t) && Balanced(w, k, lost)
    ensures Balanced(Step(cfg, w, e), k, lost + Lost(cfg, w, e, k))
  {
    hide TableOk, WheelOk, Next, Output, Step, Find, PairInStage, Abandons, Count, Listed, Routed, LivedBy;
    var ev, c, w1 := EvOf(cfg, w.w, e), Before(w, e, x), Step(cfg, w, e);
    ArriveAt(cfg, w, e, x);
    ArriveCounters(cfg, w, e);
    ArriveCons(cfg, w, e, x);
    var log := SomePast(cfg, w, x);
    LifeBefore(cfg, w, e, x, log);
    PacketBalance(cfg, c, ev, k);
    FreshWaitsForNothing(e.p.src, x, w.t.detailed, k);
    CountUpdate(w.t.cons, x - w.t.base, w1.t.Con(x), StageTest(k));
  }

  lemma TimerBalance(cfg: Config, w: World, e: Event, k: Stage, lost: nat)
    requires WorldOk(w) && EventOk(cfg, w, e) && e.Timer? && Balanced(w, k, lost)
    ensures Balanced(Step(cfg, w, e), k, lost + Lost(cfg, w, e, k))
  {
    hide TableOk, WheelOk, ReleaseTimeouts, Count;
    TimerCons(cfg, w, e);
    CountAfterTimeouts(w.t.cons, Step(cfg, w, e).t.cons, StageTest(k));
  }

  // ---------- runs ----------

  ghost function LostInRun(cfg: Config, ws: seq<World>, es: seq<Event>, n: nat, k: Stage): nat
    requires Run(cfg, ws, es) && n <= |es|
    decreases n
  {
    if n == 0 then 0 else LostInRun(cfg, ws, es, n - 1, k) + LostAt(cfg, ws, es, n - 1, k)
  }

  ghost function LostAt(cfg: Config, ws: seq<World>, es: seq<Event>, n: nat, k: Stage): nat
    requires Run(cfg, ws, es) && n < |es|
  {
    hide Step, WorldOk, EventOk, Follows, Initial, Lost;
    RunKeeps(cfg, ws, es, n);
    Lost(cfg, ws[n], es[n], k)
  }

  /** Conservation, for each stage of the setup, over every run: what entered it is what passed it regularly, plus the
      connections of the table that wait in it now, plus those that FINs, resets and timeouts took out of it. */
  lemma {:induction false} SetupIsConserved(cfg: Config, ws: seq<World>, es: seq<Event>, n: nat, k: Stage)
    requires Run(cfg, ws, es) && n <= |es|
    ensures Balanced(ws[n], k, LostInRun(cfg, ws, es, n, k))
    decreases n
  {
    hide Step, WorldOk, EventOk, Follows, AllLive, Balanced, Lost;
    if n == 0 {
      BalancedAtStart(ws[0], k);
    } else {
      SetupIsConserved(cfg, ws, es, n - 1, k);
      RunKeeps(cfg, ws, es, n - 1);
      RunAllLive(cfg, ws, es, n - 1);
      EventBalance(cfg, ws[n - 1], es[n - 1], k, LostInRun(cfg, ws, es, n - 1, k));
    }
  }

  lemma EventBalance(cfg: Config, w: World, e: Event, k: Stage, lost: nat)
    requires WorldOk(w) && EventOk(cfg, w, e) && AllLive(cfg, w.t) && Balanced(w, k, lost)
    ensures Balanced(Step(cfg, w, e), k, lost + Lost(cfg, w, e, k))
  {
    hide Step, WorldOk, EventOk, AllLive, Balanced, Target, Waiting;
    if e.Timer? {
      TimerBalance(cfg, w, e, k, lost);
    } else {
      ArriveCounters(cfg, w, e);
      if Target(cfg, w, e).Some? {
        ArriveBalance(cfg, w, e, Target(cfg, w, e).value, k, lost);
      }
    }
  }

  lemma BalancedAtStart(w: World, k: Stage)
    requires Initial(w)
    ensures Balanced(w, k, 0)
  {
    forall i | 0 <= i < |w.t.cons| ensures !w.t.cons[i].InUse() {
      var x: U16 := w.t.base + i;
      assert w.t.Owns(x) && w.t.Con(x) == w.t.cons[i];
    }
    CountNone(w.t.cons, StageTest(k));
  }

  /** So in every run the setup counters only fall from stage to stage. */
  lemma SetupCountersOrdered(cfg: Config, ws: seq<World>, es: seq<Event>, n: nat)
    requires Run(cfg, ws, es) && n <= |es|
    ensures ws[n].counterS[SentSynAck2] <= ws[n].counterS[SentSyn] <= ws[n].counterC[RecvSynAck2] <= ws[n].counterC[RecvSyn]
  {
    hide Run, Waiting, LostInRun;
    SetupIsConserved(cfg, ws, es, n, AwaitAck);
    SetupIsConserved(cfg, ws, es, n, AwaitPayload);
    SetupIsConserved(cfg, ws, es, n, AwaitSynAck);
  }

  // ---------- the two sides of one statistic ----------

  lemma PacketPaired(cfg: Config, c: Con, e: Ev)
    ensures Paired(Output(cfg, c, e).cInc, Output(cfg, c, e).sInc)
  {
    match e
    case FromClient(p, _) => ClientPaired(ClientBranchOf(c, p));
    case FromServer(p) => ServerPaired(ServerBranchOf(c, p));
  }

  /** In every run what one side received and the other side sent is counted alike; the FINs the proxy answered itself
      are the only difference, and they are the same in all three places where they show. */
  lemma {:induction false} StatisticsPaired(cfg: Config, ws: seq<World>, es: seq<Event>, n: nat)
    requires Run(cfg, ws, es) && n <= |es|
    ensures Paired(ws[n].counterC, ws[n].counterS)
    decreases n
  {
    hide Step, WorldOk, EventOk, Follows, Paired, Target;
    if n == 0 {
      assert Paired(multiset{}, multiset{}) by {
        ClientPaired(Quiet);
      }
    } else {
      StatisticsPaired(cfg, ws, es, n - 1);
      RunKeeps(cfg, ws, es, n - 1);
      EventPaired(cfg, ws[n - 1], es[n - 1]);
    }
  }

  lemma EventPaired(cfg: Config, w: World, e: Event)
    requires WorldOk(w) && EventOk(cfg, w, e) && Paired(w.counterC, w.counterS)
    ensures Paired(Step(cfg, w, e).counterC, Step(cfg, w, e).counterS)
  {
    hide Next, Output, TableOk, WheelOk, Paired, Deliver, ReleaseTimeouts;
    if e.Arrive? {
      ArriveCounters(cfg, w, e);
      if Target(cfg, w, e).Some? {
        var c, ev := Before(w, e, Target(cfg, w, e).value), EvOf(cfg, w.w, e);
        PacketPaired(cfg, c, ev);
        PairedSum(w.counterC, w.counterS, Output(cfg, c, ev).cInc, Output(cfg, c, ev).sInc);
      }
    }
  }
}
