/** One pipeline as a whole: connection table, timer wheel and statistics, and what an event does to them. */
module PipelineState {
  import opened Tcp
  import opened Connection
  import opened Splice
  import opened Machine
  import opened PortTable

  datatype World = World(t: Table, w: Wheel, counterC: Counter, counterS: Counter, ticks: nat)

  /** A packet with the inputs of the callbacks, the clock and the wheel, or a timer tick with the slots now due. */
  datatype Event =
    | Arrive(p: Packet, isn: U32, slot: nat, sel: Selection, processed: Payload)
    | Timer(due: seq<nat>)

  /** Where a packet goes, and what goes out over the extra queue. */
  datatype Reply = Reply(group: nat, pkt: Packet, queued: seq<Packet>)

  /** Invariant of a pipeline between two events. */
  ghost predicate WorldOk(w: World) {
    TableOk(w.t) && WheelOk(w.t, w.w)
  }

  /** A pipeline before its first event. */
  ghost predicate Initial(w: World) {
    && TableOk(w.t) && (forall x: U16 :: w.t.Owns(x) ==> !w.t.Con(x).InUse())
    && (forall k :: 0 <= k < |w.w| ==> w.w[k] == [])
    && w.counterC == multiset{} && w.counterS == multiset{} && w.ticks == 0
  }

  /** Client addresses are not 0, and slots exist. */
  predicate EventOk(cfg: Config, w: World, e: Event) {
    match e
    case Arrive(p, _, slot, _, _) => slot < |w.w| && (p.dst.port == cfg.me.port ==> p.src.ip != 0)
    case Timer(due) => cfg.tickFactor > 0 && forall k :: 0 <= k < |due| ==> due[k] < |w.w|
  }

  /** Packets to other addresses or to ports below every range go to the kernel. */
  predicate ForUs(cfg: Config, t: Table, p: Packet) {
    && (p.dst.ip == cfg.ipS || p.dst.ip == cfg.me.ip)
    && (p.dst.port == cfg.me.port || p.dst.port >= t.base)
  }

  /** The per-connection form of a packet that arrives at wheel `w`. */
  function EvOf(cfg: Config, w: Wheel, e: Event): Ev
    requires e.Arrive? && e.slot < |w|
  {
    if e.p.dst.port == cfg.me.port then
      FromClient(e.p, Env(e.isn, (e.slot, |w[e.slot]|), e.sel, e.processed))
    else
      FromServer(e.p)
  }

  /** The connection a packet is given to, after a client SYN may have created it. */
  function Find(cfg: Config, t: Table, p: Packet): (Table, Option<U16>)
    requires t.free != [] ==> t.Owns(t.free[0])
  {
    if p.dst.port != cfg.me.port then (t, ByPort(t, p.dst.port))
    else if p.syn then Insert(t, p.src)
    else (t, BySock(t, p.src))
  }

  /** The wheel after a step of the connection at `port`. */
  function Arm(w: Wheel, slot: nat, port: U16, armed: bool): Wheel
    requires slot < |w|
  {
    if armed then w[slot := w[slot] + [port]] else w
  }

  /** Gives a packet to the connection at `port`. */
  function Deliver(cfg: Config, w: World, port: U16, e: Event): World
    requires e.Arrive? && e.slot < |w.w| && w.t.Owns(port)
  {
    var ev := EvOf(cfg, w.w, e);
    var o := Output(cfg, w.t.Con(port), ev);
    var t1 := w.t.With(port, Next(cfg, w.t.Con(port), ev));
    var w1 := Arm(w.w, e.slot, port, o.armed);
    var (t2, w2) := if o.release then ReleasePort(t1, w1, port) else (t1, w1);
    World(t2, w2, w.counterC + o.cInc, w.counterS + o.sInc, w.ticks)
  }

  ghost function Step(cfg: Config, w: World, e: Event): World
    requires WorldOk(w) && EventOk(cfg, w, e)
  {
    match e
    case Timer(due) =>
      var w1 := w.(ticks := w.ticks + 1);
      if w1.ticks % cfg.tickFactor == 0 then
        var (t2, w2) := ReleaseTimeouts(w.t, w.w, due);
        w1.(t := t2, w := w2)
      else w1
    case Arrive(p, _, _, _, _) =>
      if !ForUs(cfg, w.t, p) then w
      else
        var (t1, port) := Find(cfg, w.t, p);
        FindKeeps(cfg, w.t, p);
        if port.None? then w.(t := t1) else Deliver(cfg, w.(t := t1), port.value, e)
  }

  ghost function Answer(cfg: Config, w: World, e: Event): Reply
    requires WorldOk(w) && EventOk(cfg, w, e) && e.Arrive?
  {
    if !ForUs(cfg, w.t, e.p) then Reply(TO_KERNEL, e.p, [])
    else
      var (t1, port) := Find(cfg, w.t, e.p);
      FindKeeps(cfg, w.t, e.p);
      if port.None? then Reply(if e.p.dst.port == cfg.me.port then DUMP else TO_KERNEL, e.p, [])
      else
        var o := Output(cfg, t1.Con(port.value), EvOf(cfg, w.w, e));
        Reply(o.group, o.pkt, o.queued)
  }

  /** A client SYN from a new socket put `port` to use. */
  predicate Created(cfg: Config, t: Table, t1: Table, p: Packet, port: U16) {
    && p.syn && p.dst.port == cfg.me.port && t.Owns(port) && t1.Owns(port)
    && !t.Con(port).InUse() && t1.Con(port) == Fresh(p.src, port, t.detailed)
  }

  // ---------- the invariant over one event ----------

  lemma FindKeeps(cfg: Config, t: Table, p: Packet)
    requires TableOk(t) && (p.dst.port == cfg.me.port ==> p.src.ip != 0)
    ensures t.free != [] ==> t.Owns(t.free[0])
    ensures var (t1, port) := Find(cfg, t, p);
      && TableOk(t1) && t1.base == t.base && |t1.cons| == |t.cons| && t1.detailed == t.detailed
      && (port.Some? ==> Usable(t1, port.value) && t1.Con(port.value).InUse() && t1.Con(port.value).port == port.value)
      && (port.Some? && p.dst.port == cfg.me.port ==> t1.Con(port.value).sock == p.src)
      && (forall x: U16 :: t.Owns(x) && port != Some(x) ==> t1.Con(x) == t.Con(x))
      && (port.Some? && t1 != t ==> Created(cfg, t, t1, p, port.value))
      && (port.None? ==> t1 == t)
  {
    hide TableOk, Insert;
    if t.free != [] {
      FirstIsUnused(t);
    }
    if p.dst.port == cfg.me.port && p.syn {
      InsertKeeps(t, p.src);
      InsertAt(t, p.src);
    } else if p.dst.port == cfg.me.port && p.src in t.s2p {
      SockInUse(t, p.src);
    }
    var (t1, port) := Find(cfg, t, p);
    if port.Some? {
      PortInUse(t1, port.value);
    }
  }

  /** A step of a connection keeps its owner. */
  lemma NextKeepsIdentity(cfg: Config, c: Con, e: Ev)
    ensures Next(cfg, c, e).sock == c.sock && Next(cfg, c, e).port == c.port
    ensures Next(cfg, c, e).wheel == if Output(cfg, c, e).armed then e.env.pos else c.wheel
    ensures Output(cfg, c, e).armed ==> e.FromClient? && !Output(cfg, c, e).release
  {
  }

  /** Table and wheel agree after the packet, before a release: no assertion of the manager can fail. */
  ghost predicate BeforeRelease(cfg: Config, t: Table, w: Wheel, port: U16, e: Event)
    requires e.Arrive? && e.slot < |w| && t.Owns(port)
  {
    var ev := EvOf(cfg, w, e);
    var t1 := t.With(port, Next(cfg, t.Con(port), ev));
    TableOk(t1) && WheelOk(t1, Arm(w, e.slot, port, Output(cfg, t.Con(port), ev).armed))
  }

  lemma StillAgrees(cfg: Config, t: Table, w: Wheel, port: U16, e: Event)
    requires e.Arrive? && e.slot < |w| && TableOk(t) && t.Owns(port) && t.Con(port).InUse()
    requires forall x: U16 :: t.Owns(x) && t.Con(x).InUse() && x != port ==> Armed(t, w, x)
    requires Armed(t, w, port) || Output(cfg, t.Con(port), EvOf(cfg, w, e)).armed
    ensures BeforeRelease(cfg, t, w, port, e)
  {
    hide Next, Output;
    var ev := EvOf(cfg, w, e);
    var c1 := Next(cfg, t.Con(port), ev);
    NextKeepsIdentity(cfg, t.Con(port), ev);
    UpdateKeeps(t, port, c1);
    if Output(cfg, t.Con(port), ev).armed {
      ArmKeeps(t, w, port, e.slot, c1);
    } else {
      forall x: U16 | t.Owns(x) && t.With(port, c1).Con(x).InUse() ensures Armed(t.With(port, c1), w, x) {
        assert Armed(t, w, x);
      }
    }
  }

  lemma DeliverKeeps(cfg: Config, w: World, port: U16, e: Event)
    requires e.Arrive? && e.slot < |w.w| && w.t.Owns(port)
    requires BeforeRelease(cfg, w.t, w.w, port, e)
    ensures WorldOk(Deliver(cfg, w, port, e)) && |Deliver(cfg, w, port, e).w| == |w.w|
  {
    var ev := EvOf(cfg, w.w, e);
    ReleaseKeeps(w.t.With(port, Next(cfg, w.t.Con(port), ev)),
                 Arm(w.w, e.slot, port, Output(cfg, w.t.Con(port), ev).armed), port);
  }

  /** Every event keeps table, wheel and their agreement. */
  lemma StepKeeps(cfg: Config, w: World, e: Event)
    requires WorldOk(w) && EventOk(cfg, w, e)
    ensures WorldOk(Step(cfg, w, e)) && |Step(cfg, w, e).w| == |w.w|
    ensures Step(cfg, w, e).t.base == w.t.base && |Step(cfg, w, e).t.cons| == |w.t.cons|
    ensures Step(cfg, w, e).t.detailed == w.t.detailed
  {
    hide Next, Output, BeforeRelease, Find, TableOk, WheelOk, ReleaseTimeouts;
    match e
    case Timer(due) => ReleaseTimeoutsKeeps(w.t, w.w, due);
    case Arrive(p, _, _, _, _) =>
      if ForUs(cfg, w.t, p) {
        FindKeeps(cfg, w.t, p);
        var (t1, port) := Find(cfg, w.t, p);
        if port.Some? {
          ServeReady(cfg, w, e);
          DeliverKeeps(cfg, w.(t := t1), port.value, e);
        }
      }
  }

  /** After the lookup only a connection created by this packet has no timer, and this packet arms it. */
  lemma ServeReady(cfg: Config, w: World, e: Event)
    requires WorldOk(w) && EventOk(cfg, w, e) && e.Arrive?
    ensures w.t.free != [] ==> w.t.Owns(w.t.free[0])
    ensures var (t1, port) := Find(cfg, w.t, e.p);
      port.Some? ==> t1.Owns(port.value) && BeforeRelease(cfg, t1, w.w, port.value, e)
  {
    FindKeeps(cfg, w.t, e.p);
    var (t1, port) := Find(cfg, w.t, e.p);
    if port.Some? {
      forall x: U16 | t1.Owns(x) && t1.Con(x).InUse() && x != port.value ensures Armed(t1, w.w, x) {
        assert Armed(w.t, w.w, x);
      }
      if t1 != w.t {
        assert ClientBranchOf(t1.Con(port.value), e.p) == OpenSyn;
      } else {
        assert Armed(w.t, w.w, port.value);
      }
      StillAgrees(cfg, t1, w.w, port.value, e);
    }
  }

  // ---------- what an event is made of ----------

  lemma NotForUs(cfg: Config, w: World, e: Event)
    requires WorldOk(w) && EventOk(cfg, w, e) && e.Arrive? && !ForUs(cfg, w.t, e.p)
    ensures Step(cfg, w, e) == w && Answer(cfg, w, e) == Reply(TO_KERNEL, e.p, [])
  {
  }

  /** A packet for the proxy is delivered to the connection it is looked up for, if there is one. */
  lemma StepOfPacket(cfg: Config, w: World, e: Event)
    requires WorldOk(w) && EventOk(cfg, w, e) && e.Arrive? && ForUs(cfg, w.t, e.p)
    ensures w.t.free != [] ==> w.t.Owns(w.t.free[0])
    ensures var (t1, port) := Find(cfg, w.t, e.p);
      if port.None? then
        t1 == w.t && Step(cfg, w, e) == w &&
        Answer(cfg, w, e) == Reply(if e.p.dst.port == cfg.me.port then DUMP else TO_KERNEL, e.p, [])
      else
        t1.Owns(port.value) && Step(cfg, w, e) == Deliver(cfg, w.(t := t1), port.value, e) &&
        var o := Output(cfg, t1.Con(port.value), EvOf(cfg, w.w, e)); Answer(cfg, w, e) == Reply(o.group, o.pkt, o.queued)
  {
    hide Next, Output, Deliver, TableOk, WheelOk;
    FindKeeps(cfg, w.t, e.p);
  }

  /** What a delivery does to the connections of the table. */
  lemma DeliverAt(cfg: Config, w: World, port: U16, e: Event, x: U16)
    requires e.Arrive? && e.slot < |w.w| && w.t.Owns(port) && w.t.Owns(x)
    ensures var c := w.t.Con(port);
      var c1, ends := Next(cfg, c, EvOf(cfg, w.w, e)), Output(cfg, c, EvOf(cfg, w.w, e)).release;
      var t2 := Deliver(cfg, w, port, e).t;
      t2.Owns(x) && t2.Con(x) == if x != port then w.t.Con(x) else if ends && c1.InUse() then c1.Released() else c1
  {
    hide Next, Output, EvOf, Replace;
  }
}
