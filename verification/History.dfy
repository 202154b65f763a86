/** The state histories of a connection with detailed records. */
module History {
  import opened Tcp
  import opened Connection
  import opened Splice
  import opened Machine
  import opened JointStates
  import opened CloseSafety

  /** The record shows last what the fast copies of the states hold. */
  predicate RecordFits(r: Option<Record>, j: Pair) {
    r.Some? ==> Last(r.value.cStates, Closed) == j.0 && Last(r.value.sStates, Listen) == j.1
  }

  lemma ClientRecordFitsC(b: ClientBranch, j: Pair, r: Record)
    requires Last(r.cStates, Closed) == j.0
    ensures var r1 := ClientRecord(b, j, Some(r)); r1.Some? && Last(r1.value.cStates, Closed) == ClientPair(b, j).0
  {
  }

  lemma ClientRecordFitsS(b: ClientBranch, j: Pair, r: Record)
    requires Last(r.sStates, Listen) == j.1
    ensures var r1 := ClientRecord(b, j, Some(r)); r1.Some? && Last(r1.value.sStates, Listen) == ClientPair(b, j).1
  {
  }

  lemma ClientRecordFits(b: ClientBranch, j: Pair, r: Option<Record>)
    requires RecordFits(r, j)
    ensures RecordFits(ClientRecord(b, j, r), ClientPair(b, j))
  {
    ClientRecordEntries(b, j, r);
    hide ClientRecord, ClientPair, Last;
    if r.Some? {
      ClientRecordFitsC(b, j, r.value);
      ClientRecordFitsS(b, j, r.value);
    }
  }

  lemma ServerRecordFits(b: ServerBranch, j: Pair, r: Option<Record>)
    requires RecordFits(r, j)
    ensures RecordFits(ServerRecord(b, j, r), ServerPair(b, j))
  {
  }

  lemma NextRecord(cfg: Config, c: Con, e: Ev)
    ensures e.FromClient? ==>
      Next(cfg, c, e).record == ClientRecord(ClientBranchOf(c, e.p), c.Pair(), c.record) &&
      Next(cfg, c, e).Pair() == ClientPair(ClientBranchOf(c, e.p), c.Pair())
    ensures e.FromServer? ==>
      Next(cfg, c, e).record == ServerRecord(ServerBranchOf(c, e.p), c.Pair(), c.record) &&
      Next(cfg, c, e).Pair() == ServerPair(ServerBranchOf(c, e.p), c.Pair())
  {
    hide ClientRecord, ServerRecord, ClientPair, ServerPair, ClassifyClient, ClassifyServer, ClientWords;
  }

  /** At every point of a life the states kept for speed are the last ones of the record. */
  lemma {:induction false} CopyMatchesRecord(life: Life, n: nat)
    requires life.Valid() && n <= |life.log|
    ensures RecordFits(life.At(n).record, life.At(n).Pair())
    decreases n
  {
    hide Next, Output, ClientRecord, ServerRecord, ClientPair, ServerPair, ClassifyClient, ClassifyServer;
    if n > 0 {
      CopyMatchesRecord(life, n - 1);
      var c, e := life.At(n - 1), life.log[n - 1];
      NextRecord(life.cfg, c, e);
      if e.FromClient? {
        ClientRecordFits(ClientBranchOf(c, e.p), c.Pair(), c.record);
      } else {
        ServerRecordFits(ServerBranchOf(c, e.p), c.Pair(), c.record);
      }
    }
  }

  // ---------- how long the server history can get ----------

  function ClientFins(life: Life, n: nat): nat
    requires n <= |life.log|
  {
    if n == 0 then 0 else ClientFins(life, n - 1) + if ClientFin(life, n - 1) then 1 else 0
  }

  function ServerFins(life: Life, n: nat): nat
    requires n <= |life.log|
  {
    if n == 0 then 0 else ServerFins(life, n - 1) + if ServerFin(life, n - 1) then 1 else 0
  }

  /** Entries a joint state can still add to the server history without another FIN. */
  function Slack(j: Pair): nat {
    match j
    case (_, Listen) => 2
    case (_, SynReceived) => 1
    case (LastAck, Closing) => 2
    case (LastAck, FinWait1) => 2
    case (LastAck, _) => 1
    case (Closed, Closed) => 0
    case (_, LastAck) => 1
    case (_, Closing) => 1
    case (_, FinWait1) => 1
    case _ => 0
  }

  function Entries(r: Option<Record>): nat {
    if r.Some? then |r.value.sStates| else 0
  }

  /** Entries of the server history after an arm of either side; the first payload starts it anew. */
  function EntriesByClient(b: ClientBranch, j: Pair, entries: nat): nat {
    match b
    case FirstPayload => 1
    case FinCrossing => if j.1 in {FinWait1, FinWait2} then entries + 1 else entries
    case FinEarly => entries + 1
    case AckOfFin => if j.1 in {FinWait1, Closing} then entries + 1 else entries
    case FinalAck => entries + 1
    case _ => entries
  }

  function EntriesByServer(b: ServerBranch, j: Pair, entries: nat): nat {
    match b
    case SynAckAccepted => entries + 1
    case ServerFinAnswer => entries + 1
    case ServerFinCrossing => entries + 1
    case ServerFinFirst => entries + 1
    case ServerAckOfFin => if j.0 == LastAck then entries + 1 else entries
    case _ => entries
  }

  lemma ClientRecordEntries(b: ClientBranch, j: Pair, r: Option<Record>)
    ensures ClientRecord(b, j, r).Some? == r.Some?
    ensures Entries(ClientRecord(b, j, r)) == if r.Some? then EntriesByClient(b, j, Entries(r)) else 0
  {
  }

  lemma ServerRecordEntries(b: ServerBranch, j: Pair, r: Option<Record>)
    ensures ServerRecord(b, j, r).Some? == r.Some?
    ensures Entries(ServerRecord(b, j, r)) == if r.Some? then EntriesByServer(b, j, Entries(r)) else 0
  {
  }

  lemma ClientEntries(q: Words, j: Pair, p: Packet, r: Option<Record>)
    requires Listed(j) || (j == (Closed, Listen) && p.syn)
    requires j.1 == Listen ==> Entries(r) == 0
    ensures var b := ClassifyClient(q, j, p);
      Entries(ClientRecord(b, j, r)) + Slack(ClientPair(b, j)) <=
      Entries(r) + Slack(j) + (if b in {FinAnswer, FinCrossing, FinEarly, FinFirst} then 1 else 0)
  {
    hide ClientRecord, Entries;
    ClientRecordEntries(ClassifyClient(q, j, p), j, r);
  }

  lemma ServerEntries(q: Words, j: Pair, p: Packet, r: Option<Record>)
    requires Listed(j)
    ensures var b := ClassifyServer(q, j, p);
      Entries(ServerRecord(b, j, r)) + Slack(ServerPair(b, j)) <=
      Entries(r) + Slack(j) + (if b in {ServerFinAnswer, ServerFinCrossing, ServerFinFirst} then 2 else 0)
  {
    hide ServerRecord, Entries;
    ServerRecordEntries(ClassifyServer(q, j, p), j, r);
  }

  /** In every run the server history stays within 2 + 2 * (server FINs) + (client FINs) entries. */
  lemma {:induction false} HistoryLength(life: Life, n: nat)
    requires life.Valid() && n <= |life.log|
    ensures Entries(life.At(n).record) + Slack(life.At(n).Pair()) <= 2 + 2 * ServerFins(life, n) + ClientFins(life, n)
    decreases n
  {
    hide Next, Output, ClientRecord, ServerRecord, ClientPair, ServerPair, ClassifyClient, ClassifyServer, Listed, Slack,
         Entries;
    if n == 0 {
      EmptyAtStart(life);
    } else {
      var c, e := life.At(n - 1), life.log[n - 1];
      assert Routed(c, e);
      if n > 1 {
        StillOpen(life, n - 1);
      }
      HistoryLength(life, n - 1);
      if c.sState == Listen {
        ListenIsEmpty(life, n - 1);
      }
      NextRecord(life.cfg, c, e);
      if e.FromClient? {
        ClientEntries(c.q, c.Pair(), e.p, c.record);
      } else {
        ServerEntries(c.q, c.Pair(), e.p, c.record);
      }
    }
  }

  lemma EmptyAtStart(life: Life)
    requires life.Valid()
    ensures life.At(0).Pair() == (Closed, Listen) && Entries(life.At(0).record) == 0 && Slack(life.At(0).Pair()) == 2
  {
  }

  lemma ListenSteps(cfg: Config, c: Con, e: Ev)
    requires Listed(c.Pair()) || c.Pair() == (Closed, Listen)
    requires Next(cfg, c, e).sState == Listen
    ensures c.sState == Listen && Entries(Next(cfg, c, e).record) == Entries(c.record)
  {
    NextRecord(cfg, c, e);
    hide Next;
  }

  lemma {:induction false} ListenIsEmpty(life: Life, n: nat)
    requires life.Valid() && n < |life.log| && life.At(n).sState == Listen
    ensures Entries(life.At(n).record) == 0
    decreases n
  {
    hide Next, Output, Listed, Entries;
    if n == 0 {
      EmptyAtStart(life);
    } else {
      if n > 1 {
        StillOpen(life, n - 1);
      } else {
        EmptyAtStart(life);
      }
      ListenSteps(life.cfg, life.At(n - 1), life.log[n - 1]);
      ListenIsEmpty(life, n - 1);
    }
  }

  // ---------- when seven slots are enough ----------

  /** The most entries a joint state can stand for after at most one server FIN; `fin` says whether there was one. */
  predicate Within(j: Pair, fin: bool, entries: nat) {
    && (!fin ==> j.1 in {Listen, SynReceived, Established, LastAck} || j == (Closed, Closed))
    && entries <= match j.1
                  case Listen => 0
                  case SynReceived => 1
                  case Established => 2
                  case LastAck => if fin then 3 else 2
                  case FinWait1 => 3
                  case Closed => if j.0 != Closed then 5 else if fin then 6 else 3
                  case _ => 4
  }

  lemma ClientWithin(q: Words, j: Pair, p: Packet, r: Option<Record>, fin: bool)
    requires Listed(j) || (j == (Closed, Listen) && p.syn)
    requires Within(j, fin, Entries(r))
    ensures var b := ClassifyClient(q, j, p); b == Reset || Within(ClientPair(b, j), fin, Entries(ClientRecord(b, j, r)))
    ensures var b := ClassifyClient(q, j, p); Entries(ClientRecord(b, j, r)) <= HISTORY_SLOTS
  {
    hide ClientRecord, Entries;
    ClientRecordEntries(ClassifyClient(q, j, p), j, r);
  }

  lemma ServerWithin(q: Words, j: Pair, p: Packet, r: Option<Record>, fin: bool)
    requires Listed(j) && Within(j, fin, Entries(r))
    ensures var b := ClassifyServer(q, j, p);
      !(fin && b in {ServerFinAnswer, ServerFinCrossing, ServerFinFirst}) ==>
        Within(ServerPair(b, j), fin || b in {ServerFinAnswer, ServerFinCrossing, ServerFinFirst},
               Entries(ServerRecord(b, j, r)))
  {
    hide ServerRecord, Entries;
    ServerRecordEntries(ClassifyServer(q, j, p), j, r);
  }

  lemma WithinSlots(j: Pair, fin: bool, entries: nat)
    requires Within(j, fin, entries)
    ensures entries <= HISTORY_SLOTS
  {
  }

  lemma WithinAtStart(life: Life)
    requires life.Valid()
    ensures Within(life.At(0).Pair(), false, Entries(life.At(0).record))
  {
  }

  predicate ResetAt(life: Life, n: nat) {
    n < |life.log| && life.log[n].FromClient? && ClientBranchOf(life.At(n), life.log[n].p) == Reset
  }

  /** A life with at most one server FIN stays within the seven slots, however often the client sends its FIN. */
  lemma {:induction false} OneFinWithin(life: Life, n: nat)
    requires life.Valid() && n <= |life.log| && ServerFins(life, n) <= 1
    ensures (n > 0 && ResetAt(life, n - 1)) || Within(life.At(n).Pair(), ServerFins(life, n) == 1, Entries(life.At(n).record))
    ensures Entries(life.At(n).record) <= HISTORY_SLOTS
    decreases n
  {
    hide Next, Output, ClientRecord, ServerRecord, ClientPair, ServerPair, ClassifyClient, ClassifyServer, Listed,
         Entries, Within, Routed, Fresh;
    if n == 0 {
      WithinAtStart(life);
      WithinSlots(life.At(0).Pair(), false, Entries(life.At(0).record));
    } else {
      OneFinWithin(life, n - 1);
      OneFinStep(life, n - 1);
    }
  }

  lemma OneFinStep(life: Life, n: nat)
    requires life.Valid() && n < |life.log| && ServerFins(life, n + 1) <= 1
    requires (n > 0 && ResetAt(life, n - 1)) || Within(life.At(n).Pair(), ServerFins(life, n) == 1, Entries(life.At(n).record))
    ensures ResetAt(life, n) || Within(life.At(n + 1).Pair(), ServerFins(life, n + 1) == 1, Entries(life.At(n + 1).record))
    ensures Entries(life.At(n + 1).record) <= HISTORY_SLOTS
  {
    hide Next, Output, ClientRecord, ServerRecord, ClientPair, ServerPair, ClassifyClient, ClassifyServer, Listed,
         Entries, Within, Fresh;
    var c, e := life.At(n), life.log[n];
    assert Routed(c, e);
    if n > 0 {
      StillOpen(life, n);
    } else {
      EmptyAtStart(life);
    }
    NextRecord(life.cfg, c, e);
    var fin := ServerFins(life, n) == 1;
    if e.FromClient? {
      ClientWithin(c.q, c.Pair(), e.p, c.record, fin);
    } else {
      ServerWithin(c.q, c.Pair(), e.p, c.record, fin);
      WithinSlots(life.At(n + 1).Pair(), ServerFins(life, n + 1) == 1, Entries(life.At(n + 1).record));
    }
  }

  // ---------- probes that fill the history ----------

  /** Entries of the server history after a probe. */
  function ProbeEntries(k: Probe, i: Pair, entries: nat): nat {
    if k.ByClient() then EntriesByClient(ProbeClientArm(k, i), i, entries)
    else EntriesByServer(ProbeServerArm(k, i), i, entries)
  }

  predicate ClientFinProbe(k: Probe, i: Pair) {
    k.ByClient() && ProbeClientArm(k, i) in {FinAnswer, FinCrossing, FinEarly, FinFirst}
  }

  predicate ServerFinProbe(k: Probe, i: Pair) {
    !k.ByClient() && ProbeServerArm(k, i) in {ServerFinAnswer, ServerFinCrossing, ServerFinFirst}
  }

  lemma {:induction false} FinsStayCounted(life: Life, e: Ev, n: nat)
    requires n <= |life.log|
    ensures ClientFins(life.Then(e), n) == ClientFins(life, n) && ServerFins(life.Then(e), n) == ServerFins(life, n)
    decreases n
  {
    hide Next, Output, ClientBranchOf, ServerBranchOf;
    if n > 0 {
      FinsStayCounted(life, e, n - 1);
      life.ThenBefore(e, n - 1);
    }
  }

  /** What is known about a life that probes build up: its joint state, its history and its FINs. */
  ghost predicate Built(life: Life, j: Pair, entries: nat, clientFins: nat, serverFins: nat) {
    var n := |life.log|;
    && life.Valid() && (n == 0 || (life.Live() <==> j != (Closed, Closed))) && life.Now().Pair() == j
    && life.Now().record.Some? && Entries(life.Now().record) == entries
    && ClientFins(life, n) == clientFins && ServerFins(life, n) == serverFins
  }

  /** The FIN a probe adds. */
  lemma AddFins(life: Life, k: Probe)
    requires Fitting(k, life.Now().Pair())
    ensures var n, next, j := |life.log|, life.Then(ProbeEv(life.cfg, life.Now(), k, NoEnv)), life.Now().Pair();
      && ClientFins(next, n + 1) == ClientFins(life, n) + (if ClientFinProbe(k, j) then 1 else 0)
      && ServerFins(next, n + 1) == ServerFins(life, n) + (if ServerFinProbe(k, j) then 1 else 0)
  {
    hide Next, Output, Routed, ProbePair, Fitting, ProbeClientArm, ProbeServerArm, ProbePacket, ClassifyClient, ClassifyServer;
    var n, j, e := |life.log|, life.Now().Pair(), ProbeEv(life.cfg, life.Now(), k, NoEnv);
    ProbeTakesArm(life.cfg, life.Now(), k, NoEnv);
    life.ThenAt(e, n);
    FinsStayCounted(life, e, n);
    var next := life.Then(e);
    assert ClientFin(next, n) == ClientFinProbe(k, j) && ServerFin(next, n) == ServerFinProbe(k, j);
  }

  lemma Add(life: Life, k: Probe, j: Pair, entries: nat, clientFins: nat, serverFins: nat) returns (next: Life)
    requires Built(life, j, entries, clientFins, serverFins) && j != (Closed, Closed) && Fitting(k, j)
    ensures Built(next, ProbePair(k, j), ProbeEntries(k, j, entries), clientFins + (if ClientFinProbe(k, j) then 1 else 0),
                  serverFins + (if ServerFinProbe(k, j) then 1 else 0))
  {
    hide Next, Output, Routed, Fresh, ProbePair, EntriesByClient, EntriesByServer, Fitting, ProbeClientArm, ProbeServerArm,
         ClientRecord, ServerRecord, Entries, ProbePacket, ClassifyClient, ClassifyServer, ClientFins, ServerFins;
    var c, e := life.Now(), ProbeEv(life.cfg, life.Now(), k, NoEnv);
    Send(life, k);
    AddFins(life, k);
    ProbeTakesArm(life.cfg, c, k, NoEnv);
    life.ThenAt(e, |life.log|);
    NextRecord(life.cfg, c, e);
    if k.ByClient() {
      ClientRecordEntries(ProbeClientArm(k, j), j, c.record);
    } else {
      ServerRecordEntries(ProbeServerArm(k, j), j, c.record);
    }
    next := life.Then(e);
    assert next.Now() == Next(life.cfg, c, e);
  }

  /** A new connection up to the established state: two entries, no FIN. */
  lemma BuildEstablished() returns (life: Life)
    ensures Built(life, (Established, Established), 2, 0, 0)
  {
    hide Next, Output, Built;
    life := Life(Config(Sock(0, 0), 0, _ => Sock(0, 0), 1), Fresh(Sock(1, 1), 1, true), []);
    BuiltAtStart(life);
    life := Add(life, CSyn, (Closed, Listen), 0, 0, 0);
    life := Add(life, CAck, (SynSent, Listen), 0, 0, 0);
    life := Add(life, CAck, (Established, Listen), 0, 0, 0);
    life := Add(life, SSynAck, (Established, SynReceived), 1, 0, 0);
  }

  lemma BuiltAtStart(life: Life)
    requires life.log == [] && life.c0.InUse() && life.c0 == Fresh(life.c0.sock, life.c0.port, true)
    ensures Built(life, (Closed, Listen), 0, 0, 0)
  {
  }

  /** The server sends its FIN twice, the client acknowledges the first one: five entries. */
  lemma BuildTwoFins() returns (life: Life)
    ensures Built(life, (CloseWait, FinWait1), 5, 0, 2)
  {
    hide Built;
    life := BuildEstablished();
    life := Add(life, SFin, (Established, Established), 2, 0, 0);
    life := Add(life, CAck, (Established, FinWait1), 3, 0, 1);
    life := Add(life, SFin, (CloseWait, FinWait2), 4, 0, 1);
  }

  /** Two FINs from each side can take eight slots. */
  lemma BuildCrossed() returns (life: Life)
    ensures Built(life, (Closed, Closed), 8, 2, 2)
  {
    hide Built;
    life := BuildTwoFins();
    life := Add(life, CFinAlone, (CloseWait, FinWait1), 5, 0, 2);
    life := Add(life, CAck, (Closing, Closing), 6, 1, 2);
    life := Add(life, CFin, (Closing, Closed), 7, 1, 2);
    life := Add(life, SAck, (LastAck, Closed), 7, 2, 2);
  }

  /** A server that sends its FIN three times, each acknowledged by the client, fills them too. */
  lemma BuildRepeated() returns (life: Life)
    ensures Built(life, (CloseWait, FinWait2), 8, 0, 3)
  {
    hide Built;
    life := BuildTwoFins();
    life := Add(life, CAck, (CloseWait, FinWait1), 5, 0, 2);
    life := Add(life, SFin, (CloseWait, FinWait2), 6, 0, 2);
    life := Add(life, CAck, (CloseWait, FinWait1), 7, 0, 3);
  }

  /** All lives with at most so many server and client FINs stay within the slots of the history. */
  ghost predicate SlotsSuffice(serverFins: nat, clientFins: nat) {
    forall life: Life, n: nat ::
      life.Valid() && n <= |life.log| && ServerFins(life, n) <= serverFins && ClientFins(life, n) <= clientFins ==>
        Entries(life.At(n).record) <= HISTORY_SLOTS
  }

  /** Exactly when no push can run past the seven slots: at most one server FIN, with any number of client FINs, or two
      server FINs with at most one client FIN. So one FIN from each side is always fine. */
  lemma SlotsSufficeIff(serverFins: nat, clientFins: nat)
    ensures SlotsSuffice(serverFins, clientFins) <==> serverFins <= 1 || (serverFins == 2 && clientFins <= 1)
  {
    hide Next, Output, Entries, Slack, Routed, Fresh;
    if serverFins <= 1 || (serverFins == 2 && clientFins <= 1) {
      forall life: Life, n: nat |
        life.Valid() && n <= |life.log| && ServerFins(life, n) <= serverFins && ClientFins(life, n) <= clientFins
        ensures Entries(life.At(n).record) <= HISTORY_SLOTS
      {
        if ServerFins(life, n) <= 1 {
          OneFinWithin(life, n);
        } else {
          HistoryLength(life, n);
        }
      }
    } else {
      var life;
      if serverFins == 2 {
        life := BuildCrossed();
      } else {
        life := BuildRepeated();
      }
      assert Entries(life.At(|life.log|).record) == 8;
    }
  }

  lemma {:induction false} RecordStays(life: Life, n: nat)
    requires n <= |life.log|
    ensures life.At(n).record.Some? == life.c0.record.Some?
    decreases n
  {
    hide Next, ClientPair, ServerPair, ClassifyClient, ClassifyServer;
    if n > 0 {
      RecordStays(life, n - 1);
      NextRecord(life.cfg, life.At(n - 1), life.log[n - 1]);
    }
  }

  lemma OneMoreFin(cfg: Config, c: Con)
    requires c.Pair() == (Established, FinWait1) && c.record.Some?
    ensures var e := ProbeEv(cfg, c, SFin, NoEnv);
      && Routed(c, e) && !Output(cfg, c, e).release && Next(cfg, c, e).Pair() == c.Pair()
      && Entries(Next(cfg, c, e).record) == Entries(c.record) + 1
  {
    hide Next, Output, Routed;
    var e := ProbeEv(cfg, c, SFin, NoEnv);
    assert ServerBranchOf(c, e.p) == ServerFinFirst;
    ProbeTakesArm(cfg, c, SFin, NoEnv);
    NextRecord(cfg, c, e);
  }

  /** Without a bound on FINs the claim fails: a server that keeps repeating its FIN to a client that does not
      acknowledge it grows the history beyond any number of slots. */
  lemma {:induction false} RepeatedFinsOverrun(cfg: Config, sock: Sock, port: U16, k: nat) returns (life: Life)
    requires port != 0
    ensures life.Valid() && life.Live() && life.Now().Pair() == (Established, FinWait1)
    ensures life.c0.record.Some? && Entries(life.Now().record) >= k
  {
    hide Next, Output, Entries, ProbeEv, Routed;
    if k == 0 {
      life := EachOccurs(cfg, sock, port, true, (Established, FinWait1));
    } else {
      life := RepeatedFinsOverrun(cfg, sock, port, k - 1);
      RecordStays(life, |life.log|);
      var e := ProbeEv(life.cfg, life.Now(), SFin, NoEnv);
      OneMoreFin(life.cfg, life.Now());
      life.ThenValid(e);
      life := life.Then(e);
    }
  }
}
