/** The pairs of client and server states a connection can be in between two packets. */
module JointStates {
  import opened Tcp
  import opened Connection
  import opened Splice
  import opened Machine

  /** The 26 pairs, listed by client state. */
  predicate Listed(j: Pair) {
    match j.0
    case SynSent => j.1 in {Listen, LastAck, FinWait1, Closing}
    case Established => j.1 in {Listen, SynReceived, Established, LastAck, FinWait1, Closing}
    case CloseWait => j.1 in {FinWait1, FinWait2, Closed}
    case LastAck => j.1 in {FinWait1, Closing, FinWait2, Closed}
    case FinWait1 => j.1 in {Established, LastAck}
    case Closing => j.1 in {LastAck, Closing, Closed}
    case FinWait2 => j.1 in {Established, LastAck}
    case Closed => j.1 in {LastAck, Closing}
    case _ => false
  }

  lemma ClientKeepsListed(q: Words, j: Pair, p: Packet)
    requires Listed(j) || (j == (Closed, Listen) && p.syn)
    ensures var b := ClassifyClient(q, j, p);
            var k := ClientPair(b, j);
            b == Reset || k == (Closed, Closed) || Listed(k)
  {
  }

  lemma ServerKeepsListed(q: Words, j: Pair, p: Packet)
    requires Listed(j)
    ensures var k := ServerPair(ClassifyServer(q, j, p), j);
            k == (Closed, Closed) || Listed(k)
  {
  }

  /** Between two packets no connection in use is in any other pair, whatever packets it saw. */
  lemma {:induction false} OnlyListed(life: Life, n: nat)
    requires life.Valid() && 0 < n <= |life.log|
    ensures life.Out(n - 1).release || Listed(life.At(n).Pair())
  {
    var c := life.At(n - 1);
    if n > 1 {
      OnlyListed(life, n - 1);
      assert !life.Out(n - 2).release;
    }
    assert Routed(c, life.log[n - 1]);
    match life.log[n - 1]
    case FromClient(p, env) => ClientKeepsListed(c.q, c.Pair(), p);
    case FromServer(p) => ServerKeepsListed(c.q, c.Pair(), p);
  }

  /** Socket and port of a connection stay. */
  lemma {:induction false} SameOwner(life: Life, n: nat)
    requires n <= |life.log|
    ensures life.At(n).sock == life.c0.sock && life.At(n).port == life.c0.port
    decreases n
  {
    hide Next;
    if n > 0 {
      SameOwner(life, n - 1);
      OwnerKept(life.cfg, life.At(n - 1), life.log[n - 1]);
    }
  }

  lemma OwnerKept(cfg: Config, c: Con, e: Ev)
    ensures Next(cfg, c, e).sock == c.sock && Next(cfg, c, e).port == c.port
  {
  }

  /** The joint state after a packet. */
  lemma NextPair(life: Life, n: nat)
    requires n < |life.log|
    ensures life.log[n].FromClient? ==>
      life.At(n + 1).Pair() == ClientPair(ClientBranchOf(life.At(n), life.log[n].p), life.At(n).Pair())
    ensures life.log[n].FromServer? ==>
      life.At(n + 1).Pair() == ServerPair(ServerBranchOf(life.At(n), life.log[n].p), life.At(n).Pair())
  {
    hide ClientPair, ServerPair, ClassifyClient, ClassifyServer, ClientWords, ClientRecord, ServerRecord;
  }

  /** A packet that did not release the connection was no reset. */
  lemma NoResetBefore(life: Life, n: nat)
    requires 0 < n <= |life.log| && !life.Out(n - 1).release
    ensures !(life.log[n - 1].FromClient? && ClientBranchOf(life.At(n - 1), life.log[n - 1].p) == Reset)
  {
    hide ClassifyClient, ClientRecord, ClientWords, ClientPacket, ClientPair;
  }

  /** Before a packet that is not the first one the connection is open. */
  lemma StillOpen(life: Life, n: nat)
    requires life.Valid() && 0 < n < |life.log|
    ensures !(life.log[n - 1].FromClient? && ClientBranchOf(life.At(n - 1), life.log[n - 1].p) == Reset)
    ensures Listed(life.At(n).Pair()) && life.At(n).Pair() != (Closed, Listen)
  {
    hide Next, Output, ClassifyClient;
    assert !life.Out(n - 1).release;
    NoResetBefore(life, n);
    OnlyListed(life, n);
  }

  // ---------- each of the pairs does occur ----------

  datatype Probe = CSyn | CAck | CFin | CFinAlone | SSynAck | SFinAck | SFin | SAck
  {
    predicate ByClient() {
      this in {CSyn, CAck, CFin, CFinAlone}
    }
  }

  const Blank := Packet(Sock(0, 0), Sock(0, 0), false, false, false, false, false, 0, 0, [])

  const NoEnv := Env(0, (0, 0), Selection(0, []), [])

  /** A packet made for connection `c`: acknowledgements carry the number the proxy compares with. */
  function ProbePacket(cfg: Config, c: Con, k: Probe): Packet {
    var client := Blank.(src := c.sock, dst := cfg.me, seqn := c.q.ackP2c, ackn := c.q.word);
    var server := Blank.(dst := Sock(cfg.ipS, c.port), ackn := WrapAdd(c.q.seqnFinP2s, 1));
    match k
    case CSyn => client.(syn := true)
    case CAck => client.(ack := true)
    case CFin => client.(fin := true, ack := true)
    case CFinAlone => client.(fin := true)
    case SSynAck => server.(syn := true, ack := true)
    case SFinAck => server.(fin := true, ack := true)
    case SFin => server.(fin := true)
    case SAck => server.(ack := true)
  }

  function ProbeEv(cfg: Config, c: Con, k: Probe, env: Env): Ev {
    if k.ByClient() then FromClient(ProbePacket(cfg, c, k), env) else FromServer(ProbePacket(cfg, c, k))
  }

  /** The pair before `j` on a shortest way to it, and the packet that leads on. */
  function Predecessor(j: Pair): (Pair, Probe) {
    match j
    case (SynSent, LastAck) => ((Closed, LastAck), CSyn)
    case (SynSent, FinWait1) => ((SynSent, Listen), SFin)
    case (SynSent, Closing) => ((Closed, Closing), CSyn)
    case (Established, Listen) => ((SynSent, Listen), CAck)
    case (Established, SynReceived) => ((Established, Listen), CAck)
    case (Established, Established) => ((Established, SynReceived), SSynAck)
    case (Established, LastAck) => ((SynSent, LastAck), CAck)
    case (Established, FinWait1) => ((Established, Established), SFin)
    case (Established, Closing) => ((SynSent, Closing), CAck)
    case (CloseWait, FinWait1) => ((CloseWait, FinWait2), SFin)
    case (CloseWait, FinWait2) => ((Established, FinWait1), CAck)
    case (CloseWait, Closed) => ((Established, Closing), CAck)
    case (LastAck, FinWait1) => ((Established, FinWait1), CFin)
    case (LastAck, Closing) => ((Closing, Closing), CFin)
    case (LastAck, FinWait2) => ((LastAck, FinWait1), CAck)
    case (LastAck, Closed) => ((Closing, Closed), CFin)
    case (FinWait1, Established) => ((Established, Established), CFin)
    case (FinWait1, LastAck) => ((FinWait1, Established), SFinAck)
    case (Closing, LastAck) => ((Closing, Closing), SFinAck)
    case (Closing, Closing) => ((FinWait1, Established), SFin)
    case (Closing, Closed) => ((Closing, Closing), CAck)
    case (FinWait2, Established) => ((FinWait1, Established), SAck)
    case (FinWait2, LastAck) => ((FinWait2, Established), SFinAck)
    case (Closed, LastAck) => ((Closed, Closing), SFinAck)
    case (Closed, Closing) => ((FinWait2, Established), SFin)
    case _ => ((Closed, Listen), CSyn)
  }

  function Depth(j: Pair): nat {
    match j
    case (SynSent, Listen) => 1
    case (SynSent, FinWait1) => 2
    case (SynSent, _) => 9
    case (Established, Listen) => 2
    case (Established, SynReceived) => 3
    case (Established, Established) => 4
    case (Established, FinWait1) => 5
    case (Established, _) => 10
    case (CloseWait, FinWait2) => 6
    case (CloseWait, FinWait1) => 7
    case (CloseWait, _) => 11
    case (FinWait1, Established) => 5
    case (FinWait1, _) => 6
    case (FinWait2, Established) => 6
    case (FinWait2, _) => 7
    case (Closing, Closing) => 6
    case (Closing, _) => 7
    case (LastAck, FinWait1) => 6
    case (LastAck, Closing) => 7
    case (LastAck, _) => 8
    case (Closed, Closing) => 7
    case (Closed, LastAck) => 8
    case _ => 0
  }

  lemma PredecessorIsListed(j: Pair)
    requires Listed(j) && j != (SynSent, Listen)
    ensures Listed(Predecessor(j).0) && Depth(Predecessor(j).0) < Depth(j)
  {
  }

  /** The arms the probes take, by the joint state alone. */
  function ProbeClientArm(k: Probe, i: Pair): ClientBranch
    requires k.ByClient()
  {
    match k
    case CSyn => if i.0 == Closed then OpenSyn else StraySyn
    case CAck =>
      if i.0 == SynSent then HandshakeAck
      else if AtLeast(i.1, FinWait1) then AckOfFin
      else if i.1 == LastAck then FinalAck
      else if i == (Established, Listen) then FirstPayload
      else if !AtLeast(i.1, SynReceived) || !AtLeast(i.0, Established) then Stray
      else Quiet
    case CFin =>
      if i.0 == SynSent then HandshakeAck
      else if AtLeast(i.1, FinWait1) then FinAnswer
      else if AtLeast(i.1, Established) then FinFirst
      else FinEarly
    case CFinAlone =>
      if AtLeast(i.1, FinWait1) then FinCrossing
      else if AtLeast(i.1, Established) then FinFirst
      else FinEarly
  }

  function ProbeServerArm(k: Probe, i: Pair): ServerBranch
    requires !k.ByClient()
  {
    match k
    case SSynAck => if i.1 == SynReceived then SynAckAccepted else SynAckStray
    case SFinAck => if AtLeast(i.0, FinWait1) then ServerFinAnswer else ServerFinFirst
    case SFin => if AtLeast(i.0, FinWait1) then ServerFinCrossing else ServerFinFirst
    case SAck => if AtLeast(i.0, LastAck) then ServerAckOfFin else Other
  }

  function ProbePair(k: Probe, i: Pair): Pair {
    if k.ByClient() then ClientPair(ProbeClientArm(k, i), i) else ServerPair(ProbeServerArm(k, i), i)
  }

  /** A connection that is not open yet takes a SYN, and an acknowledgement needs an open client or a closing server. */
  predicate Fitting(k: Probe, i: Pair) {
    (i == (Closed, Listen) ==> k == CSyn) && (k == CAck ==> i.0 != Closed || i.1 == LastAck)
  }

  lemma ProbeArm(q: Words, i: Pair, p: Packet, k: Probe)
    requires Fitting(k, i)
    requires !p.rst && p.syn == (k in {CSyn, SSynAck}) && p.fin == (k in {CFin, CFinAlone, SFin, SFinAck})
    requires p.ack == (k !in {CSyn, CFinAlone, SFin})
    requires if k.ByClient() then p.seqn == q.ackP2c && p.ackn == q.word else p.ackn == WrapAdd(q.seqnFinP2s, 1)
    ensures k.ByClient() ==> ClassifyClient(q, i, p) == ProbeClientArm(k, i)
    ensures !k.ByClient() ==> ClassifyServer(q, i, p) == ProbeServerArm(k, i)
  {
  }

  lemma ProbeTakesArm(cfg: Config, c: Con, k: Probe, env: Env)
    requires Fitting(k, c.Pair())
    ensures var e := ProbeEv(cfg, c, k, env);
      && Routed(c, e) && Next(cfg, c, e).Pair() == ProbePair(k, c.Pair())
      && (k.ByClient() ==> ClientBranchOf(c, e.p) == ProbeClientArm(k, c.Pair()))
      && (!k.ByClient() ==> ServerBranchOf(c, e.p) == ProbeServerArm(k, c.Pair()))
      && Output(cfg, c, e).release == (ProbePair(k, c.Pair()) == (Closed, Closed))
  {
    hide ClientRecord, ClientWords, ClientPacket, ClientCountC, ClientCountS, AfterToServer, ToServer, ClientGroup,
         ServerRecord, ServerCountC, ServerCountS, AfterToClient, AfterSynAck, ToClient, SynAckQueue,
         ServerPair, ClientPair, ClassifyClient, ClassifyServer;
    ProbeArm(c.q, c.Pair(), ProbePacket(cfg, c, k), k);
  }

  lemma ProbeLeadsOn(j: Pair)
    requires Listed(j)
    ensures var (i, k) := Predecessor(j); ProbePair(k, i) == j && Fitting(k, i)
  {
  }

  /** A probe goes on with a life. */
  lemma Send(life: Life, k: Probe)
    requires life.Valid() && (life.Live() || life.log == []) && Fitting(k, life.Now().Pair())
    ensures var next := life.Then(ProbeEv(life.cfg, life.Now(), k, NoEnv));
      && next.Valid() && next.Now().Pair() == ProbePair(k, life.Now().Pair())
      && (next.Live() <==> next.Now().Pair() != (Closed, Closed))
  {
    hide Next, Output, Routed, ProbeEv, ProbePair, Fitting, Fresh;
    ProbeTakesArm(life.cfg, life.Now(), k, NoEnv);
    life.ThenValid(ProbeEv(life.cfg, life.Now(), k, NoEnv));
  }

  lemma {:induction false} EachOccurs(cfg: Config, sock: Sock, port: U16, detailed: bool, j: Pair) returns (life: Life)
    requires Listed(j) && port != 0
    ensures life.Valid() && life.Live() && life.Now().Pair() == j && life.c0 == Fresh(sock, port, detailed) && life.cfg == cfg
    decreases Depth(j)
  {
    hide Next, Output, Routed, ProbeEv, ProbePair, Predecessor, Fitting;
    if j == (SynSent, Listen) {
      life := Life(cfg, Fresh(sock, port, detailed), []);
      NewLife(life);
      FirstProbe();
    } else {
      PredecessorIsListed(j);
      life := EachOccurs(cfg, sock, port, detailed, Predecessor(j).0);
    }
    ProbeLeadsOn(j);
    Send(life, Predecessor(j).1);
    life := life.Then(ProbeEv(cfg, life.Now(), Predecessor(j).1, NoEnv));
  }

  lemma NewLife(life: Life)
    requires life.log == [] && life.c0.InUse() && life.c0 == Fresh(life.c0.sock, life.c0.port, life.c0.record.Some?)
    ensures life.Valid() && life.Now().Pair() == (Closed, Listen)
  {
  }

  lemma FirstProbe()
    ensures Predecessor((SynSent, Listen)) == ((Closed, Listen), CSyn)
  {
  }

  /** Exactly the listed pairs are reachable. */
  lemma ReachableIffListed(j: Pair)
    ensures Listed(j) <==> exists life: Life :: life.Valid() && life.Live() && life.Now().Pair() == j
  {
    hide Next, Output, Listed;
    if Listed(j) {
      var life := EachOccurs(Config(Sock(0, 0), 0, _ => Sock(0, 0), 1), Sock(1, 1), 1, false, j);
    }
    forall life: Life | life.Valid() && life.Live() && life.Now().Pair() == j ensures Listed(j) {
      OnlyListed(life, |life.log|);
    }
  }
}
