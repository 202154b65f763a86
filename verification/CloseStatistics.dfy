/** What the FIN statistics of a run add up to when its connections close in an orderly way. */
module CloseStatistics {
  import opened Tcp
  import opened Connection
  import opened Splice
  import opened Machine
  import opened Counters
  import opened Wire
  import opened PortTable
  import opened PipelineState
  import opened Runs
  import opened CloseProgress
  import opened Statistics

  // ---------- orderly runs ----------

  /** The connection is being set up, and no FIN has come. */
  predicate SettingUp(j: Pair) {
    j in {(SynSent, Listen), (Established, Listen), (Established, SynReceived), (Established, Established)}
  }

  ghost predicate SetUp(life: Life, m: nat) {
    m <= |life.log| && forall i :: 0 < i <= m ==> SettingUp(life.At(i).Pair())
  }

  /** A connection is set up, and once it is established only packets of an orderly close follow. */
  ghost predicate OrderlyLife(life: Life) {
    SetUp(life, |life.log|) || exists m :: 0 <= m < |life.log| && SetUp(life, m) && Orderly(life, m, |life.log|)
  }

  /** Every packet so far belongs to an orderly life, and no connection timed out while it was closing. */
  ghost predicate OrderlyRun(cfg: Config, ws: seq<World>, es: seq<Event>, n: nat)
    requires Run(cfg, ws, es) && n <= |es|
  {
    && (forall i, x: U16 :: 0 <= i < n && Given(cfg, ws[i], es[i], x) ==>
          OrderlyLife(LifeWith(cfg, Before(ws[i], es[i], x), PacketsOf(cfg, ws, es, i + 1, x))))
    && (forall i :: 0 <= i < n && es[i].Timer? ==> OnlySetUpEnds(ws[i], ws[i + 1]))
  }

  ghost predicate OnlySetUpEnds(w: World, w1: World) {
    forall x: U16 :: w.t.Owns(x) && w.t.Con(x).InUse() && w1.t.Owns(x) && !w1.t.Con(x).InUse() ==>
      SettingUp(w.t.Con(x).Pair())
  }

  // ---------- one packet ----------

  /** What the joint state says about the close, as `CloseProgress.Agrees` relates it to the wire. */
  datatype Mark = FinOfClient | FinOfServer | AckOfServer | AckOfClient

  predicate Marked(j: Pair, k: Mark) {
    CloseStates(j) &&
    match k
    case FinOfClient => ClientFinSeen(j)
    case FinOfServer => ServerFinSeen(j)
    case AckOfServer => ServerAckSeen(j)
    case AckOfClient => ClientAckSeen(j)
  }

  function FinsIn(c: Counter): nat {
    c[RecvFin] + c[RecvFinPssv]
  }

  function FinsOut(c: Counter): nat {
    c[SentFin] + c[SentFinPssv]
  }

  /** The statistics of one packet against the marks of the connection before and after it. */
  predicate Posted(c: Counter, s: Counter, j: Pair, k: Pair) {
    && FinsIn(c) == FinsOut(s) && FinsIn(c) + One(Marked(j, FinOfClient)) == One(Marked(k, FinOfClient))
    && FinsIn(s) == FinsOut(c) && FinsIn(s) + One(Marked(j, FinOfServer)) == One(Marked(k, FinOfServer))
    && s[RecvAck4Fin] + One(Marked(j, AckOfServer)) >= One(Marked(k, AckOfServer))
    && c[RecvAck4Fin] + One(Marked(j, AckOfClient)) >= One(Marked(k, AckOfClient))
  }

  predicate ClientFinArm(b: ClientBranch) {
    b in {FinAnswer, FinCrossing, FinFirst}
  }

  predicate ServerFinArm(b: ServerBranch) {
    b in {ServerFinAnswer, ServerFinCrossing, ServerFinFirst}
  }

  lemma ClientFinCounts(b: ClientBranch)
    requires b != FinEarly
    ensures FinsIn(ClientCountC(b)) == FinsOut(ClientCountS(b)) == One(ClientFinArm(b))
    ensures FinsIn(ClientCountS(b)) == FinsOut(ClientCountC(b)) == 0
    ensures ClientCountC(b)[RecvAck4Fin] == One(b in {FinAnswer, AckOfFin, FinalAck}) && ClientCountS(b)[RecvAck4Fin] == 0
  {
    ClientClosingC(b);
    ClientClosingS(b);
    hide ClientCountC, ClientCountS;
  }

  lemma ServerFinCounts(b: ServerBranch)
    ensures FinsIn(ServerCountS(b)) == FinsOut(ServerCountC(b)) == One(ServerFinArm(b))
    ensures FinsIn(ServerCountC(b)) == FinsOut(ServerCountS(b)) == 0
    ensures ServerCountS(b)[RecvAck4Fin] == One(b in {ServerFinAnswer, ServerAckOfFin}) && ServerCountC(b)[RecvAck4Fin] == 0
  {
    ServerClosingS(b);
    ServerClosingC(b);
    hide ServerCountC, ServerCountS;
  }

  lemma ClientSetUpPosts(q: Words, j: Pair, p: Packet)
    requires SettingUp(j) || (j == (Closed, Listen) && p.syn)
    requires SettingUp(ClientPair(ClassifyClient(q, j, p), j))
    ensures var b := ClassifyClient(q, j, p);
      b != Reset && Posted(ClientCountC(b), ClientCountS(b), j, ClientPair(b, j))
  {
    var b := ClassifyClient(q, j, p);
    SetUpUnmarked(j);
    SetUpUnmarked(ClientPair(b, j));
    assert b !in {FinEarly, FinAnswer, FinCrossing, FinFirst};
    hide ClientCountC, ClientCountS, Marked;
    ClientFinCounts(b);
  }

  lemma ServerSetUpPosts(q: Words, j: Pair, p: Packet)
    requires SettingUp(j) && SettingUp(ServerPair(ClassifyServer(q, j, p), j))
    ensures var b := ClassifyServer(q, j, p); Posted(ServerCountC(b), ServerCountS(b), j, ServerPair(b, j))
  {
    var b := ClassifyServer(q, j, p);
    SetUpUnmarked(j);
    SetUpUnmarked(ServerPair(b, j));
    assert !ServerFinArm(b);
    hide ServerCountC, ServerCountS, Marked;
    ServerFinCounts(b);
  }

  lemma SetUpUnmarked(j: Pair)
    requires SettingUp(j) || j == (Closed, Listen)
    ensures forall k: Mark :: !Marked(j, k)
  {
  }

  lemma ClientCloseArm(q: Words, j: Pair, p: Packet)
    requires CloseStates(j) && j != (Closed, Closed) && LegalFromClient(q, j, p)
    ensures var b := ClassifyClient(q, j, p);
      && b != FinEarly && (ClientFinArm(b) <==> p.fin)
      && (!ClientAckSeen(j) && ServerFinSeen(j) && p.ack && p.ackn == q.word ==> b in {FinAnswer, AckOfFin, FinalAck})
  {
  }

  lemma ServerCloseArm(q: Words, j: Pair, p: Packet)
    requires CloseStates(j) && j != (Closed, Closed) && !p.syn && (p.fin ==> !ServerFinSeen(j))
    ensures var b := ClassifyServer(q, j, p);
      && (ServerFinArm(b) <==> p.fin)
      && (ClientFinSeen(j) && p.ack && p.ackn == WrapAdd(q.seqnFinP2s, 1) ==> b in {ServerFinAnswer, ServerAckOfFin})
  {
  }

  lemma ClientClosePosts(q: Words, j: Pair, p: Packet)
    requires CloseStates(j) && j != (Closed, Closed) && LegalFromClient(q, j, p)
    ensures var b := ClassifyClient(q, j, p);
      b !in {Reset, FinEarly, OpenSyn, FirstPayload} && Posted(ClientCountC(b), ClientCountS(b), j, ClientPair(b, j))
  {
    hide ClassifyClient, ClientPair, ClientFinSeen, ServerFinSeen, ClientAckSeen, ServerAckSeen, CloseStates,
         ClientCountC, ClientCountS, FinsIn, FinsOut, ClientFinArm;
    ClientProgress(q, j, p);
    ClientCloseArm(q, j, p);
    ClientFinCounts(ClassifyClient(q, j, p));
  }

  lemma ServerClosePosts(q: Words, j: Pair, p: Packet)
    requires CloseStates(j) && j != (Closed, Closed) && !p.syn && (p.fin ==> !ServerFinSeen(j))
    ensures var b := ClassifyServer(q, j, p);
      b != SynAckAccepted && Posted(ServerCountC(b), ServerCountS(b), j, ServerPair(b, j))
  {
    hide ClassifyServer, ServerPair, ClientFinSeen, ServerFinSeen, ClientAckSeen, ServerAckSeen, CloseStates,
         ServerCountC, ServerCountS, FinsIn, FinsOut, ServerFinArm;
    ServerProgress(q, j, p);
    ServerCloseArm(q, j, p);
    ServerFinCounts(ClassifyServer(q, j, p));
  }

  /** A legal packet of a close posts exactly what it adds to the joint state. */
  lemma ClosePosts(cfg: Config, c: Con, o: Seen, e: Ev)
    requires Agrees(c, o) && Legal(c.cState, c.q.ackP2c, o, e) && c.Pair() != (Closed, Closed)
    ensures var out, c1 := Output(cfg, c, e), Next(cfg, c, e);
      Posted(out.cInc, out.sInc, c.Pair(), c1.Pair()) && (out.release <==> c1.Pair() == (Closed, Closed))
  {
    hide ClassifyClient, ClassifyServer, ClientPair, ServerPair, ClientRecord, ServerRecord, ClientFinSeen, ServerFinSeen,
         ClientAckSeen, ServerAckSeen, CloseStates, ForwardsClient, ForwardsServer, FinEnd, ClientCountC, ClientCountS,
         ServerCountC, ServerCountS, Posted, ClientWords, ClientPacket, ClientGroup, ToServer, AfterToServer, ToClient,
         AfterToClient;
    match e
    case FromClient(p, env) => ClientClosePosts(c.q, c.Pair(), p);
    case FromServer(p) => ServerClosePosts(c.q, c.Pair(), p);
  }

  lemma SetUpPosts(cfg: Config, c: Con, e: Ev)
    requires SettingUp(c.Pair()) || (c.Pair() == (Closed, Listen) && e.FromClient? && e.p.syn)
    requires SettingUp(Next(cfg, c, e).Pair())
    ensures var out, c1 := Output(cfg, c, e), Next(cfg, c, e);
      Posted(out.cInc, out.sInc, c.Pair(), c1.Pair()) && !out.release
  {
    hide ClassifyClient, ClassifyServer, ClientPair, ServerPair, ClientRecord, ServerRecord, Posted, ClientCountC, ClientCountS,
         ServerCountC, ServerCountS, ClientWords, ClientPacket, ClientGroup;
    match e
    case FromClient(p, env) => ClientSetUpPosts(c.q, c.Pair(), p);
    case FromServer(p) => ServerSetUpPosts(c.q, c.Pair(), p);
  }

  /** The last packet of an orderly life. */
  lemma LastPosts(life: Life)
    requires life.Valid() && life.log != [] && OrderlyLife(life)
    ensures var k := |life.log|;
      && Posted(life.Out(k - 1).cInc, life.Out(k - 1).sInc, life.At(k - 1).Pair(), life.Now().Pair())
      && (life.Out(k - 1).release <==> life.Now().Pair() == (Closed, Closed))
  {
    hide Next, Output, Posted, Legal, Agrees, SettingUp, NumbersAt;
    var k := |life.log|;
    if SetUp(life, k) {
      assert SettingUp(life.At(k).Pair());
      assert k > 1 ==> SettingUp(life.At(k - 1).Pair());
      assert Routed(life.At(k - 1), life.log[k - 1]);
      SetUpPosts(life.cfg, life.At(k - 1), life.log[k - 1]);
      SetUpIsOpen(life.Now().Pair());
    } else {
      var m :| 0 <= m < k && SetUp(life, m) && Orderly(life, m, k);
      AlwaysAgrees(life, m, k - 1);
      Start(life, m);
      assert LegalAt(life, m, k - 1);
      WordsAreOnTheWire(life, k - 1);
      assert k - 1 > m ==> !life.Out(k - 2).release;
      ClosePosts(life.cfg, life.At(k - 1), SeenAt(life, m, k - 1), life.log[k - 1]);
    }
  }

  lemma SetUpIsOpen(j: Pair)
    requires SettingUp(j)
    ensures j != (Closed, Closed)
  {
  }

  // ---------- whole runs ----------

  function MarkTest(k: Mark): Con -> bool {
    (c: Con) => c.InUse() && Marked(c.Pair(), k)
  }

  /** Connections of the table with mark `k`. */
  function Marks(t: Table, k: Mark): nat {
    Count(t.cons, MarkTest(k))
  }

  /** The FIN statistics are the completed closes and what the connections in use have contributed so far. */
  predicate Ledger(w: World, closes: nat) {
    && FinsIn(w.counterC) == FinsOut(w.counterS) == closes + Marks(w.t, FinOfClient)
    && FinsIn(w.counterS) == FinsOut(w.counterC) == closes + Marks(w.t, FinOfServer)
    && w.counterS[RecvAck4Fin] >= closes + Marks(w.t, AckOfServer)
    && w.counterC[RecvAck4Fin] >= closes + Marks(w.t, AckOfClient)
  }

  /** The event is a packet that ends a connection. */
  ghost predicate Closes(w: World, e: Event, w1: World) {
    e.Arrive? && exists x: U16 :: w.t.Owns(x) && w.t.Con(x).InUse() && w1.t.Owns(x) && !w1.t.Con(x).InUse()
  }

  ghost function ClosesIn(ws: seq<World>, es: seq<Event>, n: nat): nat
    requires |ws| == |es| + 1 && n <= |es|
  {
    if n == 0 then 0 else ClosesIn(ws, es, n - 1) + One(Closes(ws[n - 1], es[n - 1], ws[n]))
  }

  lemma LedgerAtStart(w: World)
    requires Initial(w)
    ensures Ledger(w, 0)
  {
    forall i | 0 <= i < |w.t.cons| ensures !w.t.cons[i].InUse() {
      CountsFit(w);
      var x: U16 := w.t.base + i;
      assert w.t.Owns(x) && w.t.Con(x) == w.t.cons[i];
    }
    CountNone(w.t.cons, MarkTest(FinOfClient));
    CountNone(w.t.cons, MarkTest(FinOfServer));
    CountNone(w.t.cons, MarkTest(AckOfServer));
    CountNone(w.t.cons, MarkTest(AckOfClient));
  }

  /** A packet moves the marks of its connection; a connection it ends carries all marks and takes them along. */
  lemma ArriveMarks(cfg: Config, w: World, e: Event, x: U16, k: Mark)
    requires Given(cfg, w, e, x)
    ensures var c1, w1 := Next(cfg, Before(w, e, x), EvOf(cfg, w.w, e)), Step(cfg, w, e);
      var released := Output(cfg, Before(w, e, x), EvOf(cfg, w.w, e)).release;
      Marks(w1.t, k) + One(Marked(Before(w, e, x).Pair(), k)) == Marks(w.t, k) + One(!released && Marked(c1.Pair(), k))
  {
    hide TableOk, WheelOk, Next, Output, Step, Find, Marked, Count;
    ArriveAt(cfg, w, e, x);
    ArriveCons(cfg, w, e, x);
    SameIdentity(cfg, Before(w, e, x), EvOf(cfg, w.w, e));
    SetUpUnmarked((Closed, Listen));
    CountUpdate(w.t.cons, x - w.t.base, Step(cfg, w, e).t.Con(x), MarkTest(k));
  }

  lemma ArriveCloses(cfg: Config, w: World, e: Event, x: U16)
    requires Given(cfg, w, e, x)
    ensures Closes(w, e, Step(cfg, w, e)) <==> Output(cfg, Before(w, e, x), EvOf(cfg, w.w, e)).release
  {
    hide TableOk, WheelOk, Next, Output, Step, Find;
    ArriveAt(cfg, w, e, x);
    SameIdentity(cfg, Before(w, e, x), EvOf(cfg, w.w, e));
    if !w.t.Con(x).InUse() {
      FirstSynStays(cfg, Before(w, e, x), EvOf(cfg, w.w, e));
    }
    forall y: U16 | w.t.Owns(y) && y != x ensures Step(cfg, w, e).t.Owns(y) && Step(cfg, w, e).t.Con(y) == w.t.Con(y) {
      ArriveAt(cfg, w, e, y);
    }
  }

  lemma FirstSynStays(cfg: Config, c: Con, e: Ev)
    requires c.Pair() == (Closed, Listen) && e.FromClient? && e.p.syn
    ensures !Output(cfg, c, e).release
  {
    assert ClientBranchOf(c, e.p) == OpenSyn;
  }

  lemma ArriveLedger(cfg: Config, w: World, e: Event, x: U16, closes: nat)
    requires Given(cfg, w, e, x) && Ledger(w, closes)
    requires var c, ev := Before(w, e, x), EvOf(cfg, w.w, e);
      var o, c1 := Output(cfg, c, ev), Next(cfg, c, ev);
      Posted(o.cInc, o.sInc, c.Pair(), c1.Pair()) && (o.release <==> c1.Pair() == (Closed, Closed))
    ensures Ledger(Step(cfg, w, e), closes + One(Closes(w, e, Step(cfg, w, e))))
  {
    hide TableOk, WheelOk, Next, Output, Step, Find, Marked, Marks, Closes;
    AllMarked();
    ArriveCounters(cfg, w, e);
    ArriveCloses(cfg, w, e, x);
    ArriveMarks(cfg, w, e, x, FinOfClient);
    ArriveMarks(cfg, w, e, x, FinOfServer);
    ArriveMarks(cfg, w, e, x, AckOfServer);
    ArriveMarks(cfg, w, e, x, AckOfClient);
  }

  lemma AllMarked()
    ensures forall k: Mark :: Marked((Closed, Closed), k)
  {
  }

  /** Connections that time out before any FIN take no marks along. */
  lemma TimerLedger(cfg: Config, w: World, e: Event, closes: nat)
    requires WorldOk(w) && EventOk(cfg, w, e) && e.Timer? && Ledger(w, closes) && OnlySetUpEnds(w, Step(cfg, w, e))
    ensures Ledger(Step(cfg, w, e), closes)
  {
    hide TableOk, WheelOk, ReleaseTimeouts, Marks;
    TimerMarks(cfg, w, e, FinOfClient);
    TimerMarks(cfg, w, e, FinOfServer);
    TimerMarks(cfg, w, e, AckOfServer);
    TimerMarks(cfg, w, e, AckOfClient);
  }

  lemma TimerMarks(cfg: Config, w: World, e: Event, k: Mark)
    requires WorldOk(w) && EventOk(cfg, w, e) && e.Timer? && OnlySetUpEnds(w, Step(cfg, w, e))
    ensures Marks(Step(cfg, w, e).t, k) == Marks(w.t, k)
  {
    hide TableOk, WheelOk, Step, Count, SettingUp, Marked;
    TimerCons(cfg, w, e);
    var w1 := Step(cfg, w, e);
    forall i | 0 <= i < |w.t.cons| ensures MarkTest(k)(w.t.cons[i]) == MarkTest(k)(w1.t.cons[i]) {
      if w1.t.cons[i] != w.t.cons[i] {
        CountsFit(w);
        var x: U16 := w.t.base + i;
        assert w.t.Con(x) == w.t.cons[i] && w1.t.Con(x) == w1.t.cons[i];
        SetUpUnmarked(w.t.cons[i].Pair());
      }
    }
    CountSame(w.t.cons, w1.t.cons, MarkTest(k));
  }

  lemma {:induction false} CountSame(cons: seq<Con>, later: seq<Con>, f: Con -> bool)
    requires |cons| == |later| && forall i :: 0 <= i < |cons| ==> f(cons[i]) == f(later[i])
    ensures Count(cons, f) == Count(later, f)
  {
    if cons != [] {
      CountSame(cons[1..], later[1..], f);
    }
  }

  /** In every run in which connections close in an orderly way the FIN statistics of both sides are, at every moment, the
      completed closes and the FINs and acknowledgements of the closes under way. */
  lemma {:induction false} FinLedger(cfg: Config, ws: seq<World>, es: seq<Event>, n: nat)
    requires Run(cfg, ws, es) && n <= |es| && OrderlyRun(cfg, ws, es, n)
    ensures Ledger(ws[n], ClosesIn(ws, es, n))
    decreases n
  {
    hide Step, WorldOk, EventOk, Follows, Ledger, Given, OrderlyLife, OnlySetUpEnds, Initial, PacketsOf;
    if n == 0 {
      LedgerAtStart(ws[0]);
    } else {
      assert OrderlyRun(cfg, ws, es, n - 1);
      FinLedger(cfg, ws, es, n - 1);
      RunKeeps(cfg, ws, es, n - 1);
      LedgerStep(cfg, ws, es, n - 1);
    }
  }

  lemma LedgerStep(cfg: Config, ws: seq<World>, es: seq<Event>, n: nat)
    requires Run(cfg, ws, es) && n < |es| && OrderlyRun(cfg, ws, es, n + 1) && Ledger(ws[n], ClosesIn(ws, es, n))
    ensures Ledger(ws[n + 1], ClosesIn(ws, es, n + 1))
  {
    hide Step, TableOk, WheelOk, EventOk, Follows, Ledger, OrderlyLife, OnlySetUpEnds, Initial, PacketsOf, Posted, Next, Output,
         Find, Closes, Answer;
    RunKeeps(cfg, ws, es, n);
    var w, e := ws[n], es[n];
    if e.Timer? {
      TimerLedger(cfg, w, e, ClosesIn(ws, es, n));
      TimerClosesNone(w, e, ws[n + 1]);
    } else {
      ArriveCounters(cfg, w, e);
      if Target(cfg, w, e).Some? {
        var x := Target(cfg, w, e).value;
        assert Given(cfg, w, e, x);
        var life := PacketInLife(cfg, ws, es, n, x);
        LastPosts(life);
        ArriveLedger(cfg, w, e, x, ClosesIn(ws, es, n));
      } else {
        UntouchedCloses(w, e);
      }
    }
  }

  lemma TimerClosesNone(w: World, e: Event, w1: World)
    requires e.Timer?
    ensures !Closes(w, e, w1)
  {
  }

  lemma UntouchedCloses(w: World, e: Event)
    ensures !Closes(w, e, w)
  {
  }

  /** So once all closes are completed, what both sides received and sent agrees: every FIN came in and went out once
      for each completed close, and was acknowledged at least that often. */
  lemma FinStatistics(cfg: Config, ws: seq<World>, es: seq<Event>, n: nat)
    requires Run(cfg, ws, es) && n <= |es| && OrderlyRun(cfg, ws, es, n)
    requires forall x: U16 :: ws[n].t.Owns(x) && ws[n].t.Con(x).InUse() ==> SettingUp(ws[n].t.Con(x).Pair())
    ensures var c, s := ws[n].counterC, ws[n].counterS;
      && s[RecvFin] + s[RecvFinPssv] == c[RecvFin] + c[RecvFinPssv] == ClosesIn(ws, es, n)
      && c[SentFin] + c[SentFinPssv] == s[SentFin] + s[SentFinPssv] == ClosesIn(ws, es, n)
      && c[SentFin] + c[SentFinPssv] <= c[RecvAck4Fin] && s[SentFin] + s[SentFinPssv] <= s[RecvAck4Fin]
  {
    hide Step, WorldOk, EventOk, Follows, OrderlyLife, OnlySetUpEnds, Initial, PacketsOf, Marked, SettingUp, Count;
    FinLedger(cfg, ws, es, n);
    RunKeeps(cfg, ws, es, n);
    var t := ws[n].t;
    forall i, k | 0 <= i < |t.cons| ensures !MarkTest(k)(t.cons[i]) {
      CountsFit(ws[n]);
      var x: U16 := t.base + i;
      assert t.Con(x) == t.cons[i];
      if t.cons[i].InUse() {
        SetUpUnmarked(t.cons[i].Pair());
      }
    }
    CountNone(t.cons, MarkTest(FinOfClient));
    CountNone(t.cons, MarkTest(FinOfServer));
    CountNone(t.cons, MarkTest(AckOfServer));
    CountNone(t.cons, MarkTest(AckOfClient));
  }
}
