/** The packet-processing closure of a pipeline, as it changes the state it captured. */
module Closure {
  import opened Tcp
  import opened Connection
  import opened Splice
  import opened Machine
  import opened PortTable
  import opened Manager
  import opened PipelineState

  /** The arms of the lower part of the client chain. */
  predicate InTail(b: ClientBranch) {
    b.Reset? || b.AckOfFin? || b.FinalAck? || b.FirstPayload? || b.Stray? || b.Quiet?
  }

  /** The arms of the upper part. */
  lemma ChainArm(q: Words, j: Pair, p: Packet)
    ensures var b := ClassifyClient(q, j, p);
      if j.0 != Closed && p.seqn < q.ackP2c then b.Resent?
      else if p.syn then (if j.0 == Closed then b.OpenSyn? else b.StraySyn?)
      else if p.ack && j.0 == SynSent then b.HandshakeAck?
      else if p.fin then
        (if AtLeast(j.1, FinWait1) then b.FinAnswer? || b.FinCrossing?
         else if AtLeast(j.1, Established) then b.FinFirst? else b.FinEarly?)
      else InTail(b)
  {
  }

  lemma TailArm(q: Words, j: Pair, p: Packet)
    requires InTail(ClassifyClient(q, j, p))
    ensures ClassifyClient(q, j, p) ==
      if p.rst then Reset
      else if p.ack && p.ackn == q.word && AtLeast(j.1, FinWait1) then AckOfFin
      else if j.1 == LastAck && p.ack && p.ackn == q.word then FinalAck
      else if j == (Established, Listen) then FirstPayload
      else if !AtLeast(j.1, SynReceived) || !AtLeast(j.0, Established) then Stray
      else Quiet
  {
  }

  /** A server step, by its arm. */
  lemma ServerShape(cfg: Config, c: Con, p: Packet)
    ensures var b, o := ServerBranchOf(c, p), ServerOut(cfg, c, p);
      var arm, forwards := ServerArm(b, c, p), ForwardsServer(c.Pair());
      && ServerNext(c, p) == arm.(q := if forwards then AfterToClient(arm.q, p) else arm.q)
      && (forwards ==> b != SynAckAccepted && arm.q == c.q && arm.sock == c.sock && o.pkt == ToClient(c.q, p, cfg.me, c.sock))
      && (!forwards ==> o.pkt == if b == SynAckAccepted then HandshakeAckToServer(c.q, p) else p)
      && o.group == (if forwards then TO_WIRE else if b == Other then TO_KERNEL else DUMP)
      && o.queued == (if b == SynAckAccepted then SynAckQueue(c.q, c.held, p) else [])
      && (o.release <==> arm.Pair() == (Closed, Closed)) && !o.armed
      && o.cInc == ServerCountC(b) && o.sInc == ServerCountS(b)
  {
    hide ServerPair, ServerRecord, ToClient, AfterToClient, SynAckQueue, HandshakeAckToServer, AfterSynAck, ServerCountC,
         ServerCountS;
  }

  class Pipeline {
    const cfg: Config
    const cm: ConnectionManager
    const wheel: TimerWheel
    var counterC: Counter
    var counterS: Counter
    var ticks: nat

    ghost predicate Valid()
      reads this, cm, cm.port2con, cm.port2con[..], wheel
    {
      cm.Valid() && wheel.Valid() && wheel.due == [] && WheelOk(cm.table, wheel.slots)
    }

    ghost function View(): World
      reads this, cm, wheel
    {
      World(cm.table, wheel.slots, counterC, counterS, ticks)
    }

    constructor (cfg: Config, cm: ConnectionManager, wheel: TimerWheel)
      requires cm.Valid() && wheel.Valid() && wheel.due == []
      requires forall p: U16 :: cm.table.Owns(p) ==> !cm.table.Con(p).InUse()
      requires forall k :: 0 <= k < |wheel.slots| ==> wheel.slots[k] == []
      ensures Valid() && Initial(View())
      ensures this.cm == cm && this.wheel == wheel && this.cfg == cfg
    {
      this.cfg, this.cm, this.wheel := cfg, cm, wheel;
      counterC, counterS, ticks := multiset{}, multiset{}, 0;
    }

    /** Advances statistics of both sides. */
    method Count(c: Counter, s: Counter)
      modifies this`counterC, this`counterS
      ensures counterC == old(counterC) + c && counterS == old(counterS) + s
    {
      counterC, counterS := counterC + c, counterS + s;
    }

    /** What every group of client-side arms achieves: the connection, the packet and the statistics of arm `b`. */
    twostate predicate ClientArmDone(b: ClientBranch, p: Packet, env: Env, c: ProxyConnection, pkt: Packet)
      reads this, c
    {
      && c.View() == ClientArm(cfg, b, old(c.View()), p, env)
      && pkt == ClientPacket(cfg, b, old(c.View()), p, env)
      && counterC == old(counterC) + ClientCountC(b) && counterS == old(counterS) + ClientCountS(b)
    }

    /** A client FIN while the server is closing. */
    method ClientFinAfterServer(p: Packet, ghost env: Env, c: ProxyConnection)
      requires ClientBranchOf(c.View(), p).FinAnswer? || ClientBranchOf(c.View(), p).FinCrossing?
      modifies this`counterC, this`counterS, c
      ensures ClientArmDone(ClientBranchOf(old(c.View()), p), p, env, c, p)
    {
      hide ClientArm, ClientPacket, ClientCountC, ClientCountS;
      if p.ack && p.ackn == c.word {
        ClientFinAnswers(p, env, c);
      } else {
        ClientFinCrosses(p, env, c);
      }
    }

    /** It acknowledges the server's FIN. */
    method ClientFinAnswers(p: Packet, ghost env: Env, c: ProxyConnection)
      requires ClientBranchOf(c.View(), p) == FinAnswer
      modifies this`counterC, this`counterS, c
      ensures ClientArmDone(FinAnswer, p, env, c, p)
    {
      hide AfterSelect, AfterSyn, SynToServer, SynReply, HeldPacket, ClassifyClient;
      Count(multiset{RecvFinPssv, RecvAck4Fin}, multiset{SentFinPssv, SentAck4Fin});
      c.SetReleaseCause(PassiveClose);
      c.CPushState(LastAck);
    }

    /** It crosses the server's FIN. */
    method ClientFinCrosses(p: Packet, ghost env: Env, c: ProxyConnection)
      requires ClientBranchOf(c.View(), p) == FinCrossing
      modifies this`counterC, this`counterS, c
      ensures ClientArmDone(FinCrossing, p, env, c, p)
    {
      hide AfterSelect, AfterSyn, SynToServer, SynReply, HeldPacket, ClassifyClient;
      var oldS := c.sState;
      Count(multiset{RecvFin}, multiset{SentFin});
      c.SetReleaseCause(ActiveClose);
      c.CPushState(Closing);
      if oldS == FinWait1 {
        c.SPushState(Closing);
      } else if oldS == FinWait2 {
        c.SPushState(Closed);
      }
    }

    /** A client FIN before the server side is established: the proxy answers for the server. */
    method ClientFinEarly(p: Packet, ghost env: Env, c: ProxyConnection) returns (pkt: Packet)
      requires ClientBranchOf(c.View(), p) == FinEarly
      modifies this`counterC, this`counterS, c
      ensures ClientArmDone(FinEarly, p, env, c, pkt)
    {
      hide AfterSelect, AfterSyn, SynToServer, SynReply, HeldPacket, ClassifyClient, WrapAdd;
      c.SetReleaseCause(ActiveClose);
      Count(multiset{RecvFin, SentFinPssv, SentAck4Fin}, multiset{});
      c.CPushState(FinWait1);
      pkt := MakeReply(p);
      c.cSeqn := WrapAdd(c.cSeqn, 1);
      pkt := pkt.(seqn := c.cSeqn);
      c.SPushState(LastAck);
      c.SSetReleaseCause(PassiveClose);
      c.word, c.wordUse := WrapAdd(c.cSeqn, 1), AckForFin;
    }

    method ClientFinFirst(p: Packet, ghost env: Env, c: ProxyConnection)
      requires ClientBranchOf(c.View(), p) == FinFirst
      modifies this`counterC, this`counterS, c
      ensures ClientArmDone(FinFirst, p, env, c, p)
    {
      hide AfterSelect, AfterSyn, SynToServer, SynReply, HeldPacket, ClassifyClient;
      c.SetReleaseCause(ActiveClose);
      Count(multiset{RecvFin}, multiset{SentFin});
      c.CPushState(FinWait1);
    }

    /** The client acknowledges the server's FIN. */
    method ClientAckOfFin(p: Packet, ghost env: Env, c: ProxyConnection)
      requires ClientBranchOf(c.View(), p) == AckOfFin
      modifies this`counterC, this`counterS, c
      ensures ClientArmDone(AckOfFin, p, env, c, p)
    {
      hide AfterSelect, AfterSyn, SynToServer, SynReply, HeldPacket, ClassifyClient;
      Count(multiset{RecvAck4Fin}, multiset{SentAck4Fin});
      var oldC := c.cState;
      ServerFinAcked(c);
      match oldC {
        case Established => c.CPushState(CloseWait);
        case FinWait1 => c.CPushState(Closing);
        case FinWait2 => c.CPushState(Closed);
        case _ =>
      }
    }

    /** The server side of that acknowledgement. */
    method ServerFinAcked(c: ProxyConnection)
      modifies c
      ensures var s := old(c.sState);
        c.View() == old(c.View()).(
          sState := match s case FinWait1 => FinWait2 case Closing => Closed case _ => s,
          record := match s
                    case FinWait1 => PushS(old(c.record), FinWait2)
                    case Closing => PushS(old(c.record), Closed)
                    case _ => old(c.record))
    {
      match c.sState {
        case FinWait1 => c.SPushState(FinWait2);
        case Closing => c.SPushState(Closed);
        case _ =>
      }
    }

    /** The arms that open a connection on either side. */
    method ClientOpen(p: Packet, isn: U32, slot: nat, ghost env: Env, c: ProxyConnection) returns (pkt: Packet)
      requires slot < |wheel.slots| && env.isn == isn && env.pos == (slot, |wheel.slots[slot]|)
      requires ClientBranchOf(c.View(), p) == OpenSyn
      modifies this`counterC, this`counterS, c, wheel`slots
      ensures ClientArmDone(OpenSyn, p, env, c, pkt)
      ensures wheel.slots == Arm(old(wheel.slots), slot, old(c.proxyPort), true)
    {
      pkt := ClientSynReceived(p, c, isn);
      c.CPushState(SynSent);
      Count(multiset{RecvSyn, SentSynAck}, multiset{});
      c.wheelPos := wheel.Schedule(slot, c.proxyPort);
    }

    method ClientFirstPayload(p: Packet, sel: Selection, ghost env: Env, c: ProxyConnection) returns (pkt: Packet)
      requires env.sel == sel
      requires ClientBranchOf(c.View(), p) == FirstPayload
      modifies this`counterC, this`counterS, c
      ensures ClientArmDone(FirstPayload, p, env, c, pkt)
    {
      pkt := SelectServer(cfg, p, c, sel);
      c.SInit();
      c.SPushState(SynReceived);
      Count(multiset{RecvPayload}, multiset{SentSyn});
    }

    method ClientReset(p: Packet, ghost env: Env, c: ProxyConnection)
      requires ClientBranchOf(c.View(), p) == Reset
      modifies this`counterC, this`counterS, c
      ensures ClientArmDone(Reset, p, env, c, p)
    {
      hide AfterSelect, AfterSyn, SynToServer, SynReply, HeldPacket, ClassifyClient;
      Count(multiset{RecvRst}, multiset{});
      c.CPushState(Closed);
      c.SetReleaseCause(ActiveRst);
    }

    method ClientFinalAck(p: Packet, ghost env: Env, c: ProxyConnection)
      requires ClientBranchOf(c.View(), p) == FinalAck
      modifies this`counterC, this`counterS, c
      ensures ClientArmDone(FinalAck, p, env, c, p)
    {
      hide AfterSelect, AfterSyn, SynToServer, SynReply, HeldPacket, ClassifyClient;
      c.SPushState(Closed);
      c.CPushState(Closed);
      Count(multiset{RecvAck4Fin}, multiset{SentAck4Fin});
    }

    /** What is left at the end of the chain: a packet out of place, or one that changes nothing here. */
    method ClientRest(p: Packet, ghost env: Env, c: ProxyConnection) returns (group: nat)
      requires ClientBranchOf(c.View(), p).Stray? || ClientBranchOf(c.View(), p).Quiet?
      modifies this`counterC, this`counterS, c
      ensures ClientArmDone(ClientBranchOf(old(c.View()), p), p, env, c, p)
      ensures group == ClientGroup(ClientBranchOf(old(c.View()), p))
    {
      TailArm(c.WordsView(), c.View().Pair(), p);
      hide AfterSelect, AfterSyn, SynToServer, SynReply, HeldPacket, ClassifyClient, WrapAdd;
      group := DUMP;
      if !AtLeast(c.sState, SynReceived) || !AtLeast(c.cState, Established) {
        Count(multiset{Unexpected}, multiset{});
        group := TO_KERNEL;
      }
    }

    /** The lower part of the client-side branch chain: no SYN, no FIN, and the client handshake is over. */
    method ClientTail(p: Packet, sel: Selection, ghost env: Env, c: ProxyConnection)
        returns (group: nat, pkt: Packet, release: bool)
      requires env.sel == sel
      requires InTail(ClientBranchOf(c.View(), p))
      modifies this`counterC, this`counterS, c
      ensures var b := ClientBranchOf(old(c.View()), p);
        && ClientArmDone(b, p, env, c, pkt)
        && group == ClientGroup(b) && release == (b == Reset)
    {
      TailArm(c.WordsView(), c.View().Pair(), p);
      hide ClassifyClient, ClientArmDone, AtLeast;
      group, pkt, release := DUMP, p, false;
      var oldS, oldC := c.sState, c.cState;
      if p.rst {
        ClientReset(p, env, c);
        release := true;
      } else if p.ack && p.ackn == c.word && AtLeast(oldS, FinWait1) {
        ClientAckOfFin(p, env, c);
      } else if oldS == LastAck && p.ack && p.ackn == c.word {
        ClientFinalAck(p, env, c);
      } else if oldC == Established && oldS == Listen {
        pkt := ClientFirstPayload(p, sel, env, c);
        group := TO_WIRE;
      } else {
        group := ClientRest(p, env, c);
      }
    }

    /** A re-sent packet and a second SYN change nothing. */
    ghost method ClientIgnores(b: ClientBranch, p: Packet, env: Env, c: ProxyConnection)
      requires b.Resent? || b.StraySyn?
      ensures ClientArmDone(b, p, env, c, p)
    {
    }

    /** The client completes its handshake. */
    method ClientShakes(p: Packet, ghost env: Env, c: ProxyConnection)
      requires ClientBranchOf(c.View(), p) == HandshakeAck
      modifies this`counterC, this`counterS, c
      ensures ClientArmDone(HandshakeAck, p, env, c, p)
    {
      hide AfterSelect, AfterSyn, SynToServer, SynReply, HeldPacket, ClassifyClient;
      c.CPushState(Established);
      Count(multiset{RecvSynAck2}, multiset{});
    }

    /** The client-side branch chain. */
    method ClientChain(p: Packet, isn: U32, slot: nat, sel: Selection, ghost env: Env, c: ProxyConnection)
        returns (group: nat, pkt: Packet, release: bool)
      requires slot < |wheel.slots|
      requires env.isn == isn && env.pos == (slot, |wheel.slots[slot]|) && env.sel == sel
      modifies this`counterC, this`counterS, c, wheel`slots
      ensures var b := ClientBranchOf(old(c.View()), p);
        && ClientArmDone(b, p, env, c, pkt)
        && group == ClientGroup(b) && release == (b == Reset)
        && wheel.slots == Arm(old(wheel.slots), slot, old(c.proxyPort), b == OpenSyn)
    {
      hide ClassifyClient, ClientArmDone, AtLeast;
      ghost var b := ClientBranchOf(c.View(), p);
      ChainArm(c.WordsView(), c.View().Pair(), p);
      group, pkt, release := DUMP, p, false;
      var oldS, oldC := c.sState, c.cState;
      if oldC != Closed && p.seqn < c.ackP2c {
        ClientIgnores(b, p, env, c);
      } else if p.syn {
        if oldC == Closed {
          pkt := ClientOpen(p, isn, slot, env, c);
          group := TO_WIRE;
        } else {
          ClientIgnores(b, p, env, c);
        }
      } else if p.ack && oldC == SynSent {
        ClientShakes(p, env, c);
      } else if p.fin {
        if AtLeast(oldS, FinWait1) {
          ClientFinAfterServer(p, env, c);
        } else if AtLeast(oldS, Established) {
          ClientFinFirst(p, env, c);
        } else {
          pkt := ClientFinEarly(p, env, c);
        }
        group := TO_WIRE;
      } else {
        group, pkt, release := ClientTail(p, sel, env, c);
      }
    }

    /** A packet from the client of connection `c`. */
    method OnClientPacket(p: Packet, isn: U32, slot: nat, sel: Selection, processed: Payload, ghost env: Env,
                          c: ProxyConnection)
        returns (group: nat, pkt: Packet, release: bool)
      requires slot < |wheel.slots|
      requires env == Env(isn, (slot, |wheel.slots[slot]|), sel, processed)
      modifies this`counterC, this`counterS, c, wheel`slots
      ensures c.View() == ClientNext(cfg, old(c.View()), p, env)
      ensures var o := ClientOut(cfg, old(c.View()), p, env);
        && group == o.group && pkt == o.pkt && release == o.release && o.queued == []
        && counterC == old(counterC) + o.cInc && counterS == old(counterS) + o.sInc
        && wheel.slots == Arm(old(wheel.slots), slot, old(c.proxyPort), o.armed)
    {
      var oldS, oldC := c.sState, c.cState;
      group, pkt, release := ClientChain(p, isn, slot, sel, env, c);
      if c.cState == Closed && c.sState == Closed {
        release := true;
      }
      if AtLeast(oldS, Established) && !AtLeast(oldS, Closed) && AtLeast(oldC, Established) {
        pkt := ClientToServer(cfg, pkt, c, processed);
        group := TO_WIRE;
      }
    }

    /** The server-side branch chain. */
    method ServerChain(p: Packet, c: ProxyConnection)
        returns (unexpected: bool, pkt: Packet, queued: seq<Packet>)
      modifies this`counterC, this`counterS, c
      ensures var b := ServerBranchOf(old(c.View()), p);
        && c.View() == ServerArm(b, old(c.View()), p)
        && counterC == old(counterC) + ServerCountC(b) && counterS == old(counterS) + ServerCountS(b)
        && unexpected == (b == Other)
        && pkt == (if b == SynAckAccepted then HandshakeAckToServer(old(c.WordsView()), p) else p)
        && queued == (if b == SynAckAccepted then SynAckQueue(old(c.WordsView()), old(c.payloadPacket), p) else [])
    {
      unexpected, pkt, queued := false, p, [];
      var oldS, oldC := c.sState, c.cState;
      if p.ack && p.syn {
        if oldS == SynReceived {
          c.SPushState(Established);
          pkt, queued := ServerSynAckReceived(p, c);
          Count(multiset{}, multiset{RecvSynAck, SentSynAck2, SentPayload});
        } else {
          Count(multiset{}, multiset{RecvSynAck});
        }
      } else if p.fin {
        ServerFin(p, c);
      } else if AtLeast(oldC, LastAck) && p.ack {
        if p.ackn == WrapAdd(c.seqnFinP2s, 1) {
          ServerAck(p, c);
        }
      } else {
        unexpected := true;
      }
    }

    method ServerFin(p: Packet, c: ProxyConnection)
      requires ServerBranchOf(c.View(), p) in {ServerFinAnswer, ServerFinCrossing, ServerFinFirst}
      modifies this`counterC, this`counterS, c
      ensures var b := ServerBranchOf(old(c.View()), p);
        && c.View() == ServerArm(b, old(c.View()), p)
        && counterC == old(counterC) + ServerCountC(b) && counterS == old(counterS) + ServerCountS(b)
    {
      hide ServerArm, ServerCountC, ServerCountS;
      if AtLeast(c.cState, FinWait1) {
        if p.ack && p.ackn == WrapAdd(c.seqnFinP2s, 1) {
          ServerFinAnswers(p, c);
        } else {
          ServerFinCrosses(p, c);
        }
      } else {
        ServerFinIsFirst(p, c);
      }
    }

    /** The server's FIN acknowledges the client's. */
    method ServerFinAnswers(p: Packet, c: ProxyConnection)
      modifies this`counterC, this`counterS, c
      ensures c.View() == ServerArm(ServerFinAnswer, old(c.View()), p)
      ensures counterC == old(counterC) + ServerCountC(ServerFinAnswer)
      ensures counterS == old(counterS) + ServerCountS(ServerFinAnswer)
    {
      Count(multiset{SentFinPssv, SentAck4Fin}, multiset{RecvFinPssv, RecvAck4Fin});
      c.SSetReleaseCause(PassiveClose);
      c.SPushState(LastAck);
    }

    /** The server's FIN crosses the client's. */
    method ServerFinCrosses(p: Packet, c: ProxyConnection)
      modifies this`counterC, this`counterS, c
      ensures c.View() == ServerArm(ServerFinCrossing, old(c.View()), p)
      ensures counterC == old(counterC) + ServerCountC(ServerFinCrossing)
      ensures counterS == old(counterS) + ServerCountS(ServerFinCrossing)
    {
      var oldC := c.cState;
      Count(multiset{SentFin}, multiset{RecvFin});
      c.SSetReleaseCause(ActiveClose);
      c.SPushState(Closing);
      if oldC == FinWait1 {
        c.CPushState(Closing);
      } else if oldC == FinWait2 {
        c.CPushState(Closed);
      }
    }

    method ServerFinIsFirst(p: Packet, c: ProxyConnection)
      modifies this`counterC, this`counterS, c
      ensures c.View() == ServerArm(ServerFinFirst, old(c.View()), p)
      ensures counterC == old(counterC) + ServerCountC(ServerFinFirst)
      ensures counterS == old(counterS) + ServerCountS(ServerFinFirst)
    {
      c.SPushState(FinWait1);
      c.SSetReleaseCause(ActiveClose);
      Count(multiset{SentFin}, multiset{RecvFin});
    }

    /** The server acknowledges the client's FIN. */
    method ServerAck(p: Packet, c: ProxyConnection)
      requires ServerBranchOf(c.View(), p) == ServerAckOfFin
      modifies this`counterC, this`counterS, c
      ensures c.View() == ServerArm(ServerAckOfFin, old(c.View()), p)
      ensures counterC == old(counterC) + ServerCountC(ServerAckOfFin)
      ensures counterS == old(counterS) + ServerCountS(ServerAckOfFin)
    {
      match c.cState {
        case LastAck =>
          c.CPushState(Closed);
          c.SPushState(Closed);
        case FinWait1 => c.CPushState(FinWait2);
        case Closing => c.CPushState(Closed);
        case _ =>
      }
      Count(multiset{SentAck4Fin}, multiset{RecvAck4Fin});
    }

    /** A packet from the server of connection `c`. */
    method OnServerPacket(p: Packet, c: ProxyConnection)
        returns (group: nat, pkt: Packet, queued: seq<Packet>, release: bool)
      modifies this`counterC, this`counterS, c
      ensures c.View() == ServerNext(old(c.View()), p)
      ensures var o := ServerOut(cfg, old(c.View()), p);
        && group == o.group && pkt == o.pkt && queued == o.queued && release == o.release && !o.armed
        && counterC == old(counterC) + o.cInc && counterS == old(counterS) + o.sInc
    {
      ServerShape(cfg, c.View(), p);
      hide ServerNext, ServerOut, ServerArm, ClassifyServer, ToClient, AfterToClient, SynAckQueue, HandshakeAckToServer,
           ServerCountC, ServerCountS;
      var oldS, oldC := c.sState, c.cState;
      var unexpected;
      unexpected, pkt, queued := ServerChain(p, c);
      group := DUMP;
      release := c.cState == Closed && c.sState == Closed;
      if AtLeast(oldS, Established) && AtLeast(oldC, Established) && !AtLeast(oldC, Closed) {
        pkt := ServerToClient(cfg, pkt, c);
        group := TO_WIRE;
        unexpected := false;
      }
      if unexpected {
        group := TO_KERNEL;
      }
    }

    /** Hands a packet to the connection at `port`. */
    method Dispatch(p: Packet, isn: U32, slot: nat, sel: Selection, processed: Payload, port: U16, c: ProxyConnection)
        returns (reply: Reply, release: bool)
      requires cm.Tied() && slot < |wheel.slots|
      requires cm.table.Owns(port) && c == cm.port2con[port - cm.tcpPortBase] && c.proxyPort == port
      modifies this`counterC, this`counterS, cm`table, c, wheel`slots
      ensures cm.Tied()
      ensures var e := Arrive(p, isn, slot, sel, processed);
        var ev := EvOf(cfg, old(wheel.slots), e);
        var o := Output(cfg, old(c.View()), ev);
        && reply == Reply(o.group, o.pkt, o.queued) && release == o.release
        && cm.table == old(cm.table).With(port, Next(cfg, old(c.View()), ev))
        && wheel.slots == Arm(old(wheel.slots), slot, port, o.armed)
        && counterC == old(counterC) + o.cInc && counterS == old(counterS) + o.sInc
    {
      hide ClientNext, ClientOut, ServerNext, ServerOut;
      var group, pkt;
      var queued := [];
      if p.dst.port == cfg.me.port {
        ghost var env := Env(isn, (slot, |wheel.slots[slot]|), sel, processed);
        group, pkt, release := OnClientPacket(p, isn, slot, sel, processed, env, c);
      } else {
        group, pkt, queued, release := OnServerPacket(p, c);
      }
      cm.Note(port);
      reply := Reply(group, pkt, queued);
    }

    /** Hands a packet to the connection at `port`, and releases the connection if the packet ended it. */
    method Serve(p: Packet, isn: U32, slot: nat, sel: Selection, processed: Payload, port: U16, c: ProxyConnection)
        returns (reply: Reply)
      requires cm.Tied() && wheel.due == [] && slot < |wheel.slots|
      requires cm.table.Owns(port) && c == cm.port2con[port - cm.tcpPortBase] && c.proxyPort == port
      requires ReleaseReady(port, Arrive(p, isn, slot, sel, processed))
      modifies this, cm, cm.port2con[..], wheel`slots
      ensures Valid()
      ensures View() == Deliver(cfg, old(View()), port, Arrive(p, isn, slot, sel, processed))
      ensures var o := Output(cfg, old(cm.table).Con(port), EvOf(cfg, old(wheel.slots), Arrive(p, isn, slot, sel, processed)));
        reply == Reply(o.group, o.pkt, o.queued)
    {
      hide Next, Output, EvOf, Arm, PortTable.ReleasePort, TableOk, WheelOk;
      var release;
      reply, release := Dispatch(p, isn, slot, sel, processed, port, c);
      if release {
        cm.ReleasePort(port, wheel);
      }
    }

    /** Before a release the table and the wheel agree, so no assertion of the manager fails. */
    ghost predicate ReleaseReady(port: U16, e: Event)
      requires e.Arrive? && cm.table.Owns(port) && e.slot < |wheel.slots|
      reads this, cm, wheel
    {
      BeforeRelease(cfg, cm.table, wheel.slots, port, e)
    }

    /** Looks the connection of a packet up; a client SYN may create it. */
    method Locate(p: Packet) returns (opt: Option<ProxyConnection>, ghost port: U16)
      requires cm.Valid() && (p.dst.port == cfg.me.port ==> p.src.ip != 0)
      modifies cm, cm.port2con[..]
      ensures cm.Valid()
      ensures old(cm.table).free != [] ==> old(cm.table).Owns(old(cm.table).free[0])
      ensures cm.table == Find(cfg, old(cm.table), p).0
      ensures Find(cfg, old(cm.table), p).1 == if opt.Some? then Some(port) else None
      ensures opt.Some? ==>
        cm.table.Owns(port) && opt.value == cm.port2con[port - cm.tcpPortBase] && opt.value.proxyPort == port
    {
      hide TableOk, Insert;
      FindKeeps(cfg, cm.table, p);
      port := p.dst.port;
      if p.dst.port == cfg.me.port {
        opt, port := LocateClient(p);
      } else {
        opt := cm.GetMutByPort(p.dst.port);
      }
    }

    method LocateClient(p: Packet) returns (opt: Option<ProxyConnection>, ghost port: U16)
      requires cm.Valid() && p.dst.port == cfg.me.port && p.src.ip != 0
      modifies cm, cm.port2con[..]
      ensures cm.Valid()
      ensures old(cm.table).free != [] ==> old(cm.table).Owns(old(cm.table).free[0])
      ensures cm.table == Find(cfg, old(cm.table), p).0
      ensures Find(cfg, old(cm.table), p).1 == if opt.Some? then Some(port) else None
      ensures opt.Some? ==>
        cm.table.Owns(port) && opt.value == cm.port2con[port - cm.tcpPortBase] && opt.value.proxyPort == port
    {
      hide TableOk, Insert;
      FindKeeps(cfg, cm.table, p);
      InsertKeeps(cm.table, p.src);
      port := 0;
      if p.syn {
        opt := cm.GetMutOrInsert(p.src);
      } else {
        opt := cm.GetMutBySock(p.src);
      }
      if opt.Some? {
        port := cm.sock2port[p.src];
      }
    }

    /** A packet that is addressed to the proxy. */
    method Handle(p: Packet, isn: U32, slot: nat, sel: Selection, processed: Payload) returns (reply: Reply)
      requires Valid() && EventOk(cfg, View(), Arrive(p, isn, slot, sel, processed)) && ForUs(cfg, cm.table, p)
      modifies this, cm, cm.port2con[..], wheel`slots
      ensures Valid()
      ensures View() == Step(cfg, old(View()), Arrive(p, isn, slot, sel, processed))
      ensures reply == Answer(cfg, old(View()), Arrive(p, isn, slot, sel, processed))
    {
      hide Next, Output, BeforeRelease, Deliver, Find, TableOk, WheelOk, EvOf, Arm, Step, Answer, ForUs;
      ghost var e := Arrive(p, isn, slot, sel, processed);
      StepOfPacket(cfg, View(), e);
      ServeReady(cfg, View(), e);
      var opt;
      ghost var port;
      opt, port := Locate(p);
      match opt {
        case None =>
          reply := Reply(if p.dst.port == cfg.me.port then DUMP else TO_KERNEL, p, []);
        case Some(c) =>
          reply := Serve(p, isn, slot, sel, processed, c.proxyPort, c);
      }
    }

    /** The closure on a TCP packet. */
    method OnPacket(p: Packet, isn: U32, slot: nat, sel: Selection, processed: Payload) returns (reply: Reply)
      requires Valid() && EventOk(cfg, View(), Arrive(p, isn, slot, sel, processed))
      modifies this, cm, cm.port2con[..], wheel`slots
      ensures Valid()
      ensures View() == Step(cfg, old(View()), Arrive(p, isn, slot, sel, processed))
      ensures reply == Answer(cfg, old(View()), Arrive(p, isn, slot, sel, processed))
    {
      hide Next, Output, Deliver, Find, TableOk, WheelOk, EvOf, Step, Answer;
      if (p.dst.ip != cfg.ipS && p.dst.ip != cfg.me.ip) || (p.dst.port != cfg.me.port && p.dst.port < cm.tcpPortBase) {
        NotForUs(cfg, View(), Arrive(p, isn, slot, sel, processed));
        return Reply(TO_KERNEL, p, []);
      }
      reply := Handle(p, isn, slot, sel, processed);
    }

    /** The closure on a tick of the timer. */
    method OnTimer(due: seq<nat>)
      requires Valid() && EventOk(cfg, View(), Timer(due))
      modifies this, cm, cm.port2con[..], wheel
      ensures Valid()
      ensures View() == Step(cfg, old(View()), Timer(due))
    {
      ticks := ticks + 1;
      if ticks % cfg.tickFactor == 0 {
        wheel.due := due;
        cm.ReleaseTimeouts(wheel);
      }
    }
  }
}
