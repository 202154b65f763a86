/** Where the proxy stops following the connections, and exactly when. */
module Limits {
  import opened Tcp
  import opened Connection
  import opened Splice
  import opened Machine
  import opened JointStates
  import opened SpliceRuns
  import opened Wire
  import opened Conduct
  import opened Destinations

  /** A server that acknowledges everything up to and including the client's FIN, and nothing else. */
  predicate AcksAll(a: Packet, delivered: Packet) {
    a.ack && !a.syn && !a.fin && a.ackn == FinEnd(delivered.seqn, delivered.payload)
  }

  lemma FinSent(cfg: Config, c: Con, p: Packet, env: Env)
    requires c.Pair() == (Established, Established)
    requires p.fin && !p.syn && p.seqn >= c.q.ackP2c && |env.processed| == |p.payload|
    ensures var c1, out := ClientNext(cfg, c, p, env), ClientOut(cfg, c, p, env).pkt;
      c1.Pair() == (FinWait1, Established) && c1.q.seqnFinP2s == out.seqn && |out.payload| == |p.payload|
  {
    hide ClientRecord, ClientGroup, ClientCountC, ClientCountS;
  }

  /** The proxy recognises the server's acknowledgement of a client FIN if and only if the FIN carried no payload,
      because it keeps the sequence number of the segment and not of the FIN in it. */
  lemma FinAckRecognisedIff(cfg: Config, c: Con, p: Packet, env: Env, a: Packet)
    requires c.Pair() == (Established, Established)
    requires p.fin && !p.syn && p.seqn >= c.q.ackP2c && |env.processed| == |p.payload|
    requires AcksAll(a, ClientOut(cfg, c, p, env).pkt)
    ensures ServerNext(ClientNext(cfg, c, p, env), a).cState == FinWait2 <==> p.payload == []
    ensures p.payload != [] ==> ServerNext(ClientNext(cfg, c, p, env), a).cState == FinWait1
  {
    FinSent(cfg, c, p, env);
    hide ClientNext, ClientOut, ServerRecord, AfterToClient;
  }

  lemma AnswerSent(cfg: Config, c: Con, p: Packet, env: Env)
    requires ForwardsClient(c.Pair()) && ClientBranchOf(c, p) == FinAnswer && |env.processed| == |p.payload|
    ensures var c1, out := ClientNext(cfg, c, p, env), ClientOut(cfg, c, p, env).pkt;
      c1.Pair() == (LastAck, c.sState) && c1.q.seqnFinP2s == out.seqn && |out.payload| == |p.payload|
  {
    hide ClientRecord, ClientGroup, ClientCountC, ClientCountS;
  }

  /** The same holds for the client's FIN that answers the server's: the server's acknowledgement of everything closes
      the connection if and only if that FIN carried no payload. */
  lemma PassiveFinAckRecognisedIff(cfg: Config, c: Con, p: Packet, env: Env, a: Packet)
    requires ForwardsClient(c.Pair()) && ClientBranchOf(c, p) == FinAnswer && |env.processed| == |p.payload|
    requires AcksAll(a, ClientOut(cfg, c, p, env).pkt)
    ensures var c2 := ServerNext(ClientNext(cfg, c, p, env), a);
      c2.Pair() == if p.payload == [] then (Closed, Closed) else (LastAck, c.sState)
  {
    AnswerSent(cfg, c, p, env);
    hide ClientNext, ClientOut, ServerRecord, AfterToClient, ClassifyClient;
  }

  /** A client segment less than half the sequence space ahead of what was acknowledged to the client last is taken for a
      re-sent one, and changes nothing, if and only if its sequence number has wrapped past it, because the numbers are
      compared as plain words. */
  lemma FreshSegmentRefusedIff(life: Life, n: nat, k: int)
    requires life.Valid() && n < |life.log| && life.log[n].FromClient? && life.At(n).cState != Closed
    requires 0 <= k < 0x8000_0000 && life.log[n].p.seqn == Plus(NumbersAt(life, n).toClient, k)
    ensures ClientBranchOf(life.At(n), life.log[n].p) == Resent <==> NumbersAt(life, n).toClient + k >= MOD32
    ensures NumbersAt(life, n).toClient + k >= MOD32 ==>
      life.At(n + 1).Pair() == life.At(n).Pair() && life.Out(n).cInc == life.Out(n).sInc == multiset{} && !life.Out(n).release
  {
    hide Next, Output, NumbersAt, Routed, Fresh;
    WordsAreOnTheWire(life, n);
    NewOrOpen(life, n);
    var j, w, p := life.At(n).Pair(), NumbersAt(life, n), life.log[n].p;
    ClientArmOf(life.At(n).q, j, w, p);
    ClientConduct(life, n);
  }

  /** A SYN is answered to its client if and only if the connection is new: the answer to a SYN that re-opens a connection
      whose server side is still closing is sent on to the server. */
  lemma SynAckReachesClientIff(life: Life, n: nat)
    requires life.Valid() && n < |life.log| && life.log[n].FromClient? && Opens(life.At(n).Pair(), life.log[n].p)
    ensures life.Out(n).group == TO_WIRE
    ensures life.At(n).Pair() == (Closed, Listen) ==>
      life.Out(n).pkt.src == life.log[n].p.dst && life.Out(n).pkt.dst == life.log[n].p.src
    ensures life.At(n).Pair() != (Closed, Listen) ==>
      life.Out(n).pkt.src == Sock(life.cfg.ipS, life.c0.port) &&
      life.Out(n).pkt.dst == life.cfg.servers(life.At(n).serverIndex)
  {
    hide Next, Output, Routed, Fresh;
    NewOrOpen(life, n);
    if life.At(n).Pair() == (Closed, Listen) {
      NewClientIsAnswered(life, n);
    } else {
      ClientGoesOn(life, n);
    }
  }
}
