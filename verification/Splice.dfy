/** The packet rewrites that join the client connection and the server connection. */
module Splice {
  import opened Tcp
  import opened Connection

  /** The proxy's own addresses, the configured servers as the selection callback indexes them,
      and the number of timer ticks per turn of the wheel. */
  datatype Config = Config(me: Sock, ipS: U32, servers: nat -> Sock, tickFactor: nat)

  /** What the server-selection callback decides: a server, and the payload it leaves in the held packet. */
  datatype Selection = Selection(server: nat, payload: Payload)

  // ---------- what each rewrite does to the words and to the packet ----------

  function SynReply(p: Packet, isn: U32): Packet {
    MakeReply(p).(seqn := isn)
  }

  function AfterSyn(q: Words, p: Packet, isn: U32): Words {
    q.(cSeqn := isn, ackP2c := WrapAdd(p.seqn, 1))
  }

  function ToServer(q: Words, p: Packet, from: Sock, server: Sock, processed: Payload): Packet {
    p.(src := from, dst := server, seqn := Shift(p.seqn, q.inserted), ackn := WrapSub(p.ackn, q.cSeqn),
       payload := if |p.payload| > 0 then processed else p.payload)
  }

  function AfterToServer(q: Words, p: Packet): Words {
    q.(ackP2s := WrapSub(p.ackn, q.cSeqn), seqnFinP2s := if p.fin then Shift(p.seqn, q.inserted) else q.seqnFinP2s)
  }

  function ToClient(q: Words, p: Packet, from: Sock, client: Sock): Packet {
    p.(src := from, dst := client, seqn := WrapAdd(p.seqn, q.cSeqn), ackn := Shift(p.ackn, -q.inserted))
  }

  function AfterToClient(q: Words, p: Packet): Words {
    var ackn := Shift(p.ackn, -q.inserted);
    if p.fin then
      q.(ackP2c := ackn, word := FinEnd(WrapAdd(p.seqn, q.cSeqn), p.payload), wordUse := AckForFin)
    else
      q.(ackP2c := ackn)
  }

  /** The client's first payload packet as it is kept for the server: readdressed, with the callback's payload. */
  function HeldPacket(p: Packet, from: Sock, server: Sock, payload: Payload): Packet {
    p.(src := from, dst := server, payload := payload)
  }

  function SynToServer(p: Packet, from: Sock, server: Sock): Packet {
    p.(src := from, dst := server, payload := [], seqn := WrapSub(p.seqn, 1),
       syn := true, ack := false, ackn := 0, psh := false)
  }

  function AfterSelect(q: Words, p: Packet, payload: Payload): Words {
    q.(inserted := |payload| - |p.payload|, word := WrapSub(p.seqn, 1), wordUse := ForwardSeqn)
  }

  /** The last ACK of the handshake with the server. */
  function HandshakeAckToServer(q: Words, p: Packet): Packet {
    MakeReply(p).(syn := false, seqn := WrapAdd(q.word, 1))
  }

  /** The held packet under the TCP header of the handshake's last ACK. */
  function DelayedPayload(held: Packet, header: Packet): Packet {
    header.(src := header.src.(ip := held.src.ip), dst := header.dst.(ip := held.dst.ip),
            psh := true, payload := held.payload)
  }

  function SynAckQueue(q: Words, held: Option<Packet>, p: Packet): seq<Packet> {
    var reply := HandshakeAckToServer(q, p);
    if held.Some? then [reply, DelayedPayload(held.value, reply)] else [reply]
  }

  function AfterSynAck(q: Words, held: Option<Packet>, p: Packet): Words {
    q.(cSeqn := WrapSub(q.cSeqn, p.seqn), word := WrapAdd(q.word, 1), wordUse := ForwardSeqn,
       ackP2s := if held.Some? then WrapAdd(p.seqn, 1) else q.ackP2s)
  }

  // ---------- the rewrites as they update a connection in place ----------

  lemma NoShift(x: U32)
    ensures Shift(x, 0) == x && WrapSub(x, 0) == x
  {
  }

  method ClientSynReceived(p: Packet, c: ProxyConnection, isn: U32) returns (r: Packet)
    modifies c
    ensures r == SynReply(p, isn)
    ensures c.View() == old(c.View()).(q := AfterSyn(old(c.WordsView()), p, isn))
  {
    r := MakeReply(p);
    c.cSeqn := isn;
    r := r.(seqn := c.cSeqn);
    c.ackP2c := r.ackn;
  }

  method ClientToServer(cfg: Config, p: Packet, c: ProxyConnection, processed: Payload) returns (r: Packet)
    modifies c
    ensures r == ToServer(old(c.WordsView()), p, Sock(cfg.ipS, old(c.proxyPort)), cfg.servers(old(c.serverIndex)), processed)
    ensures c.View() == old(c.View()).(q := AfterToServer(old(c.WordsView()), p))
  {
    NoShift(p.seqn);
    hide WrapAdd, WrapSub;
    r := p;
    if |p.payload| > 0 {
      r := r.(payload := processed);
    }
    r := r.(src := Sock(cfg.ipS, c.proxyPort), dst := cfg.servers(c.serverIndex));
    var newackn := WrapSub(p.ackn, c.cSeqn);
    var newseqn := if c.inserted >= 0 then WrapAdd(p.seqn, c.inserted) else WrapSub(p.seqn, -c.inserted);
    assert newseqn == Shift(p.seqn, c.inserted);
    hide Shift;
    if c.inserted != 0 {
      r := r.(seqn := newseqn);
    }
    r := r.(ackn := newackn);
    assert r.seqn == newseqn;
    c.ackP2s := newackn;
    if r.fin {
      c.seqnFinP2s := newseqn;
    }
  }

  method ServerToClient(cfg: Config, p: Packet, c: ProxyConnection) returns (r: Packet)
    modifies c
    ensures r == ToClient(old(c.WordsView()), p, cfg.me, old(c.clientSock))
    ensures c.View() == old(c.View()).(q := AfterToClient(old(c.WordsView()), p))
  {
    NoShift(p.ackn);
    hide WrapAdd, WrapSub, FinEnd;
    r := p.(dst := c.clientSock, src := cfg.me);
    var newseqn := WrapAdd(p.seqn, c.cSeqn);
    var newackn := if c.inserted >= 0 then WrapSub(p.ackn, c.inserted) else WrapAdd(p.ackn, -c.inserted);
    if c.inserted != 0 {
      r := r.(ackn := newackn);
    }
    r := r.(seqn := newseqn);
    c.ackP2c := newackn;
    if r.fin {
      c.word, c.wordUse := FinEnd(newseqn, p.payload), AckForFin;
    }
  }

  method SelectServer(cfg: Config, p: Packet, c: ProxyConnection, sel: Selection) returns (syn: Packet)
    modifies c
    ensures var from, server := Sock(cfg.ipS, old(c.proxyPort)), cfg.servers(sel.server);
            syn == SynToServer(p, from, server) &&
            c.View() == old(c.View()).(held := Some(HeldPacket(p, from, server, sel.payload)), serverIndex := sel.server,
                                       q := AfterSelect(old(c.WordsView()), p, sel.payload))
  {
    c.serverIndex := sel.server;
    c.inserted := |sel.payload| - |p.payload|;
    syn := p.(src := Sock(cfg.ipS, c.proxyPort), dst := cfg.servers(c.serverIndex));
    c.payloadPacket := Some(syn.(payload := sel.payload));
    syn := syn.(payload := []);
    c.word, c.wordUse := WrapSub(syn.seqn, 1), ForwardSeqn;
    syn := syn.(seqn := c.word);
    syn := syn.(syn := true, ackn := 0, ack := false, psh := false);
  }

  method ServerSynAckReceived(p: Packet, c: ProxyConnection) returns (r: Packet, queued: seq<Packet>)
    modifies c
    ensures r == HandshakeAckToServer(old(c.WordsView()), p)
    ensures queued == SynAckQueue(old(c.WordsView()), old(c.payloadPacket), p)
    ensures c.View() == old(c.View()).(held := None, q := AfterSynAck(old(c.WordsView()), old(c.payloadPacket), p))
  {
    c.cSeqn := WrapSub(c.cSeqn, p.seqn);
    r := MakeReply(p).(syn := false);
    c.word, c.wordUse := WrapAdd(c.word, 1), ForwardSeqn;
    r := r.(seqn := c.word);
    queued := [r];
    if c.payloadPacket.Some? {
      var held := c.payloadPacket.value;
      c.payloadPacket := None;
      c.ackP2s := r.ackn;
      queued := [r, DelayedPayload(held, r)];
    }
  }
}
