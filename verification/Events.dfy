/** What one event does to a pipeline, told from the packet or the tick and the tables before it. */
module Events {
  import opened Tcp
  import opened Connection
  import opened Splice
  import opened Machine
  import opened PortTable
  import opened PipelineState
  import opened Runs

  // ---------- packets ----------

  /** The packet is sent to one of the proxy's addresses, and to its own port or to one at or above its range. */
  predicate Addressed(cfg: Config, t: Table, p: Packet) {
    p.dst.ip in {cfg.ipS, cfg.me.ip} && (p.dst.port == cfg.me.port || t.base <= p.dst.port)
  }

  /** Whose packet it is: a client packet belongs to the connection of its socket, a SYN from a new socket to the first free
      port, a server packet to the connection in use at its port; a packet that belongs to none changes nothing and goes
      to the kernel, but for client packets, which are dropped. */
  lemma PacketIsGiven(cfg: Config, w: World, e: Event)
    requires WorldOk(w) && EventOk(cfg, w, e) && e.Arrive?
    ensures var p, x := e.p, Target(cfg, w, e);
      && (!Addressed(cfg, w.t, p) ==> x == None)
      && (Addressed(cfg, w.t, p) && p.dst.port == cfg.me.port ==>
            x == if p.src in w.t.s2p then Some(w.t.s2p[p.src]) else if p.syn && w.t.free != [] then Some(w.t.free[0]) else None)
      && (Addressed(cfg, w.t, p) && p.dst.port != cfg.me.port ==>
            x == if w.t.Owns(p.dst.port) && w.t.Con(p.dst.port).InUse() then Some(p.dst.port) else None)
      && (x == None ==> Step(cfg, w, e) == w)
      && (x == None ==>
            Answer(cfg, w, e) ==
            Reply(if Addressed(cfg, w.t, p) && p.dst.port == cfg.me.port then DUMP else TO_KERNEL, p, []))
  {
    hide TableOk, WheelOk, Step, Answer, Deliver, Output, Next;
    FindKeeps(cfg, w.t, e.p);
    if ForUs(cfg, w.t, e.p) {
      StepOfPacket(cfg, w, e);
    } else {
      NotForUs(cfg, w, e);
    }
  }

  /** The connection gets the packet as a client's or a server's by its destination port, with all inputs it came with. */
  lemma PacketAsGiven(cfg: Config, w: World, e: Event)
    requires EventOk(cfg, w, e) && e.Arrive?
    ensures var ev := EvOf(cfg, w.w, e);
      && ev.p == e.p && (ev.FromClient? <==> e.p.dst.port == cfg.me.port)
      && (ev.FromClient? ==>
            ev.env.isn == e.isn && ev.env.sel == e.sel && ev.env.processed == e.processed &&
            ev.env.pos == (e.slot, |w.w[e.slot]|))
  {
  }

  // ---------- ticks ----------

  /** The port is in a slot that is due. */
  ghost predicate IsDue(w: Wheel, due: seq<nat>, x: U16)
    requires forall k :: 0 <= k < |due| ==> due[k] < |w|
  {
    exists k :: 0 <= k < |due| && x in w[due[k]]
  }

  /** Timed out: the client side closed, port and record given up, all else as it was. */
  function Ended(c: Con): Con {
    c.(cState := Closed, port := 0, record := None)
  }

  lemma {:induction false} DueConnections(t: Table, w: Wheel, due: seq<nat>, x: U16)
    requires TableOk(t) && t.Owns(x) && t.Con(x).InUse() && forall k :: 0 <= k < |due| ==> due[k] < |w|
    ensures var t1 := ReleaseTimeouts(t, w, due).0;
      t1.Owns(x) && t1.Con(x) == if IsDue(w, due, x) then Ended(t.Con(x)) else t.Con(x)
    decreases due
  {
    hide TableOk, TimeOutAll;
    if due != [] {
      var t1, w1 := TimeOutAll(t, w[due[0]]), w[due[0] := []];
      TimeOutAllAt(t, w[due[0]], x);
      TimeOutAllKeeps(t, w[due[0]]);
      if x in w[due[0]] {
        EndedStays(t1, w1, due[1..], x);
      } else {
        DueConnections(t1, w1, due[1..], x);
        DueLater(w, due, x);
      }
    }
  }

  lemma {:induction false} EndedStays(t: Table, w: Wheel, due: seq<nat>, x: U16)
    requires TableOk(t) && t.Owns(x) && !t.Con(x).InUse() && forall k :: 0 <= k < |due| ==> due[k] < |w|
    ensures var t1 := ReleaseTimeouts(t, w, due).0; t1.Owns(x) && t1.Con(x) == t.Con(x)
  {
    hide TableOk, ReleaseTimeouts;
    ReleaseTimeoutsAt(t, w, due, x);
  }

  /** A port that is not in the first slot that is due is due if and only if it is in a later one. */
  lemma DueLater(w: Wheel, due: seq<nat>, x: U16)
    requires (forall k :: 0 <= k < |due| ==> due[k] < |w|) && due != [] && x !in w[due[0]]
    requires forall k :: 0 <= k < |due| - 1 ==> due[1..][k] < |w[due[0] := []]|
    ensures IsDue(w[due[0] := []], due[1..], x) <==> IsDue(w, due, x)
  {
    var w1 := w[due[0] := []];
    if IsDue(w, due, x) {
      var k :| 0 <= k < |due| && x in w[due[k]];
      assert due[1..][k - 1] == due[k] && w1[due[k]] == w[due[k]];
    }
    if IsDue(w1, due[1..], x) {
      var k :| 0 <= k < |due[1..]| && x in w1[due[1..][k]];
      assert due[k + 1] == due[1..][k];
    }
  }

  lemma {:induction false} DueSlots(t: Table, w: Wheel, due: seq<nat>)
    requires forall k :: 0 <= k < |due| ==> due[k] < |w|
    ensures var w1 := ReleaseTimeouts(t, w, due).1;
      |w1| == |w| && forall k :: 0 <= k < |w| ==> w1[k] == if k in due then [] else w[k]
    decreases due
  {
    hide TimeOutAll;
    if due != [] {
      DueSlots(TimeOutAll(t, w[due[0]]), w[due[0] := []], due[1..]);
      assert due == [due[0]] + due[1..];
    }
  }

  /** A tick counts; when the count is a multiple of the reduction factor, and only then, the slots that are due are emptied
      and the connections in use with a port in them end, while all others stay as they were. */
  lemma TickEnds(cfg: Config, w: World, e: Event)
    requires WorldOk(w) && EventOk(cfg, w, e) && e.Timer?
    ensures var w1 := Step(cfg, w, e);
      var fires := w1.ticks % cfg.tickFactor == 0;
      && w1.ticks == w.ticks + 1 && w1.counterC == w.counterC && w1.counterS == w.counterS && |w1.w| == |w.w|
      && (forall k :: 0 <= k < |w.w| ==> w1.w[k] == if fires && k in e.due then [] else w.w[k])
      && (forall x: U16 :: w.t.Owns(x) && w.t.Con(x).InUse() ==>
            w1.t.Owns(x) && w1.t.Con(x) == if fires && IsDue(w.w, e.due, x) then Ended(w.t.Con(x)) else w.t.Con(x))
  {
    hide TableOk, WheelOk, ReleaseTimeouts, IsDue;
    DueSlots(w.t, w.w, e.due);
    forall x: U16 | w.t.Owns(x) && w.t.Con(x).InUse()
      ensures var t1 := ReleaseTimeouts(w.t, w.w, e.due).0;
        t1.Owns(x) && t1.Con(x) == if IsDue(w.w, e.due, x) then Ended(w.t.Con(x)) else w.t.Con(x)
    {
      DueConnections(w.t, w.w, e.due, x);
    }
  }
}
