/** The free ports over whole runs: conservation, first-in first-out reuse, and timers. */
module PortQueue {
  import opened Tcp
  import opened Connection
  import opened Splice
  import opened Machine
  import opened PortTable
  import opened PipelineState
  import opened Runs

  // ---------- conservation ----------

  ghost function Elements(s: seq<U16>): set<int> {
    set p: int | p in s
  }

  ghost function Range(lo: int, hi: int): (r: set<int>)
    requires lo <= hi
    ensures forall p :: p in r <==> lo <= p < hi
    ensures |r| == hi - lo
    decreases hi - lo
  {
    if lo < hi then Range(lo, hi - 1) + {hi - 1} else {}
  }

  /** Port 0 is not usable. */
  ghost function UsablePorts(t: Table): set<int> {
    Range(if t.base == 0 && t.cons != [] then 1 else t.base as int, t.base + |t.cons|)
  }

  ghost function PortsInUse(t: Table): set<int> {
    var owned := Range(t.base, t.base + |t.cons|);
    set p | p in owned && t.cons[p - t.base].InUse()
  }

  lemma {:induction false} DistinctCount(s: seq<U16>)
    requires Distinct(s)
    ensures |Elements(s)| == |s|
  {
    if s != [] {
      DistinctCount(s[1..]);
      assert s == [s[0]] + s[1..];
      assert Elements(s) == {s[0] as int} + Elements(s[1..]);
      assert s[0] !in s[1..];
    }
  }

  /** An injective map has as many keys as values. */
  lemma {:induction false} ValuesCount(m: map<Sock, int>)
    requires forall a, b :: a in m && b in m && m[a] == m[b] ==> a == b
    ensures |m.Values| == |m|
    decreases |m|
  {
    if |m| == 0 {
      assert m.Values == {};
    } else {
      var k :| k in m;
      var rest := m - {k};
      ValuesCount(rest);
      forall v ensures v in m.Values <==> v in rest.Values || v == m[k] {
        if v in m.Values {
          var a :| a in m && m[a] == v;
          assert a == k || rest[a] == v;
        }
      }
      assert m.Values == rest.Values + {m[k]};
    }
  }

  /** Free and in-use ports always make up the usable ports, and the socket map has one entry per port in use. */
  lemma Census(t: Table)
    requires TableOk(t)
    ensures |t.free| + |PortsInUse(t)| == |t.cons| - (if t.base == 0 then 1 else 0)
    ensures |t.s2p| == |PortsInUse(t)|
  {
    hide MapOk;
    DistinctCount(t.free);
    var free, used := Elements(t.free), PortsInUse(t);
    forall p: int ensures p in free + used <==> p in UsablePorts(t) {
      FreeOrUsed(t, p);
    }
    assert free + used == UsablePorts(t);
    forall p: int | p in free ensures p !in used {
      FreeOrUsed(t, p);
    }
    assert |free + used| == |free| + |used|;
    MapCount(t);
  }

  lemma FreeOrUsed(t: Table, p: int)
    requires TableOk(t)
    ensures p in Elements(t.free) || p in PortsInUse(t) <==> p in UsablePorts(t)
    ensures !(p in Elements(t.free) && p in PortsInUse(t))
  {
    if 0 <= p < 0x1_0000 {
      var x: U16 := p;
      assert t.Owns(x) ==> t.Con(x) == t.cons[p - t.base];
      assert x in t.free <==> Usable(t, x) && !t.Con(x).InUse();
    }
  }

  lemma MapCount(t: Table)
    requires TableOk(t)
    ensures |t.s2p| == |PortsInUse(t)|
  {
    var m: map<Sock, int> := map s | s in t.s2p :: t.s2p[s] as int;
    assert m.Keys == t.s2p.Keys;
    assert |m| == |m.Keys| == |t.s2p.Keys| == |t.s2p|;
    InjectiveMap(t, m);
    ValuesCount(m);
    forall p: int ensures p in m.Values <==> p in PortsInUse(t) {
      ValueIsInUse(t, m, p);
    }
    assert m.Values == PortsInUse(t);
  }

  lemma InjectiveMap(t: Table, m: map<Sock, int>)
    requires TableOk(t) && m == map s | s in t.s2p :: t.s2p[s] as int
    ensures forall a, b :: a in m && b in m && m[a] == m[b] ==> a == b
  {
    forall a, b | a in m && b in m && m[a] == m[b] ensures a == b {
      assert t.Con(t.s2p[a]).sock == a && t.Con(t.s2p[b]).sock == b;
    }
  }

  lemma ValueIsInUse(t: Table, m: map<Sock, int>, p: int)
    requires TableOk(t) && m == map s | s in t.s2p :: t.s2p[s] as int
    ensures p in m.Values <==> p in PortsInUse(t)
  {
    if p in m.Values {
      var s :| s in m && m[s] == p;
      assert t.Con(t.s2p[s]) == t.cons[p - t.base];
    }
    if p in PortsInUse(t) {
      var x: U16 := p;
      var s := t.Con(x).sock;
      assert t.Con(x) == t.cons[p - t.base];
      assert s in m && m[s] == p;
    }
  }

  /** The pool of ports is conserved over every run. */
  lemma PoolIsConserved(cfg: Config, ws: seq<World>, es: seq<Event>, n: nat)
    requires Run(cfg, ws, es) && n <= |es|
    ensures |ws[n].t.free| + |ws[n].t.s2p| == |ws[0].t.free|
  {
    hide Step, EventOk, Follows;
    RunKeeps(cfg, ws, es, n);
    Census(ws[n].t);
    Census(ws[0].t);
    NoneInUse(ws[0]);
  }

  lemma NoneInUse(w: World)
    requires Initial(w)
    ensures PortsInUse(w.t) == {}
  {
    hide TableOk, WheelOk;
    InitialOk(w);
    CountsFit(w);
    var owned := Range(w.t.base, w.t.base + |w.t.cons|);
    forall p | p in owned ensures !w.t.cons[p - w.t.base].InUse() {
      var x: U16 := p;
      assert w.t.Owns(x);
    }
  }

  // ---------- first in, first out ----------

  /** Ports an event hands out. */
  ghost function Taken(cfg: Config, w: World, e: Event): seq<U16> {
    if e.Arrive? && ForUs(cfg, w.t, e.p) && e.p.dst.port == cfg.me.port && e.p.syn && e.p.src !in w.t.s2p && w.t.free != []
    then [w.t.free[0]] else []
  }

  /** Ports freed by the slots that are due. */
  function FreedAll(t: Table, w: Wheel, due: seq<nat>): seq<U16>
    requires forall k :: 0 <= k < |due| ==> due[k] < |w|
    decreases due
  {
    if due == [] then []
    else Freed(t, w[due[0]]) + FreedAll(TimeOutAll(t, w[due[0]]), w[due[0] := []], due[1..])
  }

  /** Ports an event gives back, in order. */
  ghost function Returned(cfg: Config, w: World, e: Event): seq<U16>
    requires WorldOk(w) && EventOk(cfg, w, e)
  {
    match e
    case Timer(due) => if (w.ticks + 1) % cfg.tickFactor == 0 then FreedAll(w.t, w.w, due) else []
    case Arrive(_, _, _, _, _) =>
      if Target(cfg, w, e).Some? && Step(cfg, w, e).t.Owns(Target(cfg, w, e).value) &&
         !Step(cfg, w, e).t.Con(Target(cfg, w, e).value).InUse()
      then [Target(cfg, w, e).value] else []
  }

  lemma {:induction false} TimeoutsQueue(t: Table, w: Wheel, due: seq<nat>)
    requires TableOk(t) && forall k :: 0 <= k < |due| ==> due[k] < |w|
    ensures ReleaseTimeouts(t, w, due).0.free == t.free + FreedAll(t, w, due)
    decreases due
  {
    hide TableOk, TimeOutAll, Freed;
    if due != [] {
      FreedOnce(t, w[due[0]]);
      TimeOutAllKeeps(t, w[due[0]]);
      TimeoutsQueue(TimeOutAll(t, w[due[0]]), w[due[0] := []], due[1..]);
    }
  }

  lemma DeliverQueue(cfg: Config, w: World, x: U16, e: Event)
    requires e.Arrive? && e.slot < |w.w| && w.t.Owns(x)
    ensures var c := w.t.Con(x);
      Deliver(cfg, w, x, e).t.free ==
      w.t.free + if Output(cfg, c, EvOf(cfg, w.w, e)).release && Next(cfg, c, EvOf(cfg, w.w, e)).InUse() then [x] else []
  {
    hide Next, Output, EvOf, Replace;
  }

  lemma TimerQueue(cfg: Config, w: World, e: Event)
    requires WorldOk(w) && EventOk(cfg, w, e) && e.Timer?
    ensures Step(cfg, w, e).t.free == w.t.free + Returned(cfg, w, e)
  {
    hide TableOk, WheelOk, ReleaseTimeouts, FreedAll;
    TimeoutsQueue(w.t, w.w, e.due);
  }

  /** One event takes from the front and gives back at the end. */
  lemma QueueStep(cfg: Config, w: World, e: Event)
    requires WorldOk(w) && EventOk(cfg, w, e)
    ensures Taken(cfg, w, e) + Step(cfg, w, e).t.free == w.t.free + Returned(cfg, w, e)
  {
    hide TableOk, WheelOk, Next, Output, Step, Deliver, EvOf, ForUs, ByPort;
    if e.Timer? {
      TimerQueue(cfg, w, e);
    } else if !ForUs(cfg, w.t, e.p) {
      NotForUs(cfg, w, e);
    } else {
      StepOfPacket(cfg, w, e);
      FindKeeps(cfg, w.t, e.p);
      var (t1, port) := Find(cfg, w.t, e.p);
      if port.Some? {
        var x := port.value;
        NextKeepsIdentity(cfg, t1.Con(x), EvOf(cfg, w.w, e));
        DeliverQueue(cfg, w.(t := t1), x, e);
        DeliverAt(cfg, w.(t := t1), x, e, x);
        if t1 != w.t {
          FreshIsArmed(cfg, w.t, t1, w.w, x, e);
        }
        assert w.t.free != [] ==> [w.t.free[0]] + w.t.free[1..] == w.t.free;
      }
    }
  }

  lemma FreshIsArmed(cfg: Config, t: Table, t1: Table, w: Wheel, x: U16, e: Event)
    requires e.Arrive? && e.slot < |w| && Created(cfg, t, t1, e.p, x)
    ensures !Output(cfg, t1.Con(x), EvOf(cfg, w, e)).release
  {
    assert ClientBranchOf(t1.Con(x), e.p) == OpenSyn;
  }

  /** Ports handed out, and given back, between events `a` and `b`. */
  ghost function TakenBetween(cfg: Config, ws: seq<World>, es: seq<Event>, a: nat, b: nat): seq<U16>
    requires Run(cfg, ws, es) && a <= b <= |es|
    decreases b
  {
    if a == b then [] else TakenBetween(cfg, ws, es, a, b - 1) + Taken(cfg, ws[b - 1], es[b - 1])
  }

  ghost function ReturnedBetween(cfg: Config, ws: seq<World>, es: seq<Event>, a: nat, b: nat): seq<U16>
    requires Run(cfg, ws, es) && a <= b <= |es|
    decreases b
  {
    if a == b then []
    else
      hide Step, WorldOk, EventOk, Follows, Initial;
      RunKeeps(cfg, ws, es, b - 1);
      ReturnedBetween(cfg, ws, es, a, b - 1) + Returned(cfg, ws[b - 1], es[b - 1])
  }

  /** Over any stretch of any run, what is handed out and what is then still free is, in order, what was free at first
      and what was given back. */
  lemma {:induction false} QueueLaw(cfg: Config, ws: seq<World>, es: seq<Event>, a: nat, b: nat)
    requires Run(cfg, ws, es) && a <= b <= |es|
    ensures TakenBetween(cfg, ws, es, a, b) + ws[b].t.free == ws[a].t.free + ReturnedBetween(cfg, ws, es, a, b)
    decreases b
  {
    hide Step, WorldOk, EventOk, Taken, Returned, Follows, Initial;
    if a < b {
      QueueLaw(cfg, ws, es, a, b - 1);
      RunKeeps(cfg, ws, es, b - 1);
      QueueStep(cfg, ws[b - 1], es[b - 1]);
      var t, r := TakenBetween(cfg, ws, es, a, b - 1), ReturnedBetween(cfg, ws, es, a, b - 1);
      calc {
        (t + Taken(cfg, ws[b - 1], es[b - 1])) + ws[b].t.free;
        t + (Taken(cfg, ws[b - 1], es[b - 1]) + ws[b].t.free);
        t + (ws[b - 1].t.free + Returned(cfg, ws[b - 1], es[b - 1]));
        (t + ws[b - 1].t.free) + Returned(cfg, ws[b - 1], es[b - 1]);
        (ws[a].t.free + r) + Returned(cfg, ws[b - 1], es[b - 1]);
        ws[a].t.free + (r + Returned(cfg, ws[b - 1], es[b - 1]));
      }
    } else {
      assert [] + ws[a].t.free == ws[a].t.free + [];
    }
  }

  /** Quarantine: a port with `k` ports before it in the queue (as many as were free when it was released) is next to be
      handed out, for the first time since, only after exactly those `k` ports, in their order, whatever else
      was released or timed out in between. */
  lemma Quarantine(cfg: Config, ws: seq<World>, es: seq<Event>, a: nat, b: nat, k: nat)
    requires Run(cfg, ws, es) && a <= b <= |es| && k < |ws[a].t.free|
    requires ws[b].t.free != [] && ws[b].t.free[0] == ws[a].t.free[k]
    requires ws[a].t.free[k] !in TakenBetween(cfg, ws, es, a, b)
    ensures TakenBetween(cfg, ws, es, a, b) == ws[a].t.free[..k]
  {
    hide Step, EventOk, Follows, Initial, TakenBetween, ReturnedBetween;
    QueueLaw(cfg, ws, es, a, b);
    RunKeeps(cfg, ws, es, a);
    var taken, free := TakenBetween(cfg, ws, es, a, b), ws[a].t.free;
    var all := taken + ws[b].t.free;
    assert all == free + ReturnedBetween(cfg, ws, es, a, b);
    assert all[|taken|] == free[k] && all[k] == free[k];
    assert forall i :: 0 <= i < |free| ==> all[i] == free[i];
    assert forall i :: 0 <= i < |taken| ==> all[i] in taken;
    assert |taken| == k;
    assert all[..k] == free[..k];
  }

  // ---------- timers ----------

  /** A SYN from a client socket that is known already and whose connection has a closed client side. */
  predicate Reopens(cfg: Config, w: World, e: Event) {
    && e.Arrive? && ForUs(cfg, w.t, e.p) && e.p.dst.port == cfg.me.port && e.p.syn && e.p.src in w.t.s2p
    && w.t.Owns(w.t.s2p[e.p.src]) && w.t.Con(w.t.s2p[e.p.src]).cState == Closed
  }

  /** Such a packet, and no other, arms the timer of a connection that is in use already. */
  lemma ReopensIffArms(cfg: Config, w: World, e: Event, x: U16)
    requires Given(cfg, w, e, x) && w.t.Con(x).InUse()
    ensures Output(cfg, w.t.Con(x), EvOf(cfg, w.w, e)).armed <==> Reopens(cfg, w, e)
  {
    hide ClientNext, ServerNext, WheelOk;
  }

  lemma ReopenedIsGiven(cfg: Config, w: World, e: Event) returns (x: U16)
    requires WorldOk(w) && EventOk(cfg, w, e) && Reopens(cfg, w, e)
    ensures Given(cfg, w, e, x) && w.t.Con(x).InUse()
  {
    x := w.t.s2p[e.p.src];
  }

  /** Without stale cells, draining slot `k` ends exactly the connections whose own timer is in slot `k`. */
  lemma DrainEndsOwn(t: Table, w: Wheel, k: nat, x: U16)
    requires TableOk(t) && WheelOk(t, w) && NoStale(t, w) && k < |w| && t.Owns(x) && t.Con(x).InUse()
    ensures TimeOutAll(t, w[k]).Owns(x)
    ensures !TimeOutAll(t, w[k]).Con(x).InUse() <==> t.Con(x).wheel.0 == k
  {
    TimeOutAllAt(t, w[k], x);
    assert Armed(t, w, x);
    if x in w[k] {
      var i :| 0 <= i < |w[k]| && w[k][i] == x;
      assert t.Con(w[k][i]).wheel == (k, i);
    }
  }

  lemma DeliverKeepsNoStale(cfg: Config, w: World, x: U16, e: Event)
    requires e.Arrive? && e.slot < |w.w| && w.t.Owns(x) && w.t.Con(x).InUse() && x != 0
    requires BeforeRelease(cfg, w.t, w.w, x, e) && TableOk(w.t)
    requires NoStale(w.t, w.w)
    requires Output(cfg, w.t.Con(x), EvOf(cfg, w.w, e)).armed ==>
      forall j, i :: 0 <= j < |w.w| && 0 <= i < |w.w[j]| ==> w.w[j][i] != x
    ensures NoStale(Deliver(cfg, w, x, e).t, Deliver(cfg, w, x, e).w)
  {
    var ev := EvOf(cfg, w.w, e);
    var c := w.t.Con(x);
    hide Next, Output, TableOk;
    NextKeepsIdentity(cfg, c, ev);
    var t1 := w.t.With(x, Next(cfg, c, ev));
    var w1 := Arm(w.w, e.slot, x, Output(cfg, c, ev).armed);
    if Output(cfg, c, ev).armed {
      ArmKeepsNoStale(w.t, w.w, x, e.slot, Next(cfg, c, ev));
    } else {
      assert NoStale(t1, w1);
      ReleaseKeepsNoStale(t1, w1, x);
    }
  }

  lemma NoCellOfUnused(t: Table, w: Wheel, x: U16)
    requires NoStale(t, w) && t.Owns(x) && x != 0 && !t.Con(x).InUse()
    ensures forall j, i :: 0 <= j < |w| && 0 <= i < |w[j]| ==> w[j][i] != x
    ensures forall c: Con :: NoStale(t.With(x, c), w)
  {
    forall c: Con ensures NoStale(t.With(x, c), w) {
      forall j, i | 0 <= j < |w| && 0 <= i < |w[j]| && w[j][i] != 0
        ensures t.With(x, c).Owns(w[j][i]) && t.With(x, c).Con(w[j][i]).InUse() && t.With(x, c).Con(w[j][i]).wheel == (j, i)
      {
        assert w[j][i] != x;
      }
    }
  }

  lemma NoStaleStep(cfg: Config, w: World, e: Event)
    requires WorldOk(w) && EventOk(cfg, w, e) && NoStale(w.t, w.w) && !Reopens(cfg, w, e)
    ensures NoStale(Step(cfg, w, e).t, Step(cfg, w, e).w)
  {
    hide Next, Output, BeforeRelease, Deliver, TableOk, WheelOk, NoStale, ReleaseTimeouts;
    match e
    case Timer(due) => ReleaseTimeoutsKeeps(w.t, w.w, due);
    case Arrive(p, _, _, _, _) =>
      FindKeeps(cfg, w.t, p);
      var (t1, port) := Find(cfg, w.t, p);
      if ForUs(cfg, w.t, p) && port.Some? {
        ServeReady(cfg, w, e);
        var x := port.value;
        if t1 == w.t {
          ReopensIffArms(cfg, w, e, x);
        } else {
          NoCellOfUnused(w.t, w.w, x);
          InsertOnlyTouches(cfg, w.t, p, x);
        }
        DeliverKeepsNoStale(cfg, w.(t := t1), x, e);
      }
  }

  lemma InsertOnlyTouches(cfg: Config, t: Table, p: Packet, x: U16)
    requires t.free != [] ==> t.Owns(t.free[0])
    requires Find(cfg, t, p).1 == Some(x) && Find(cfg, t, p).0 != t && t.Owns(x)
    ensures forall w: Wheel :: NoStale(Find(cfg, t, p).0, w) <==> NoStale(t.With(x, Find(cfg, t, p).0.Con(x)), w)
  {
    assert Find(cfg, t, p).0.cons == t.With(x, Find(cfg, t, p).0.Con(x)).cons;
    forall w: Wheel ensures NoStale(Find(cfg, t, p).0, w) <==> NoStale(t.With(x, Find(cfg, t, p).0.Con(x)), w) {
      SameCons(Find(cfg, t, p).0, t.With(x, Find(cfg, t, p).0.Con(x)), w);
    }
  }

  lemma SameCons(t: Table, t1: Table, w: Wheel)
    requires t.cons == t1.cons && t.base == t1.base
    ensures NoStale(t, w) <==> NoStale(t1, w)
  {
    assert forall x: U16 :: t.Owns(x) == t1.Owns(x) && (t.Owns(x) ==> t.Con(x) == t1.Con(x));
  }

  /** A re-opening SYN gives its connection a second timer cell and leaves the first one behind. */
  lemma ReopenLeavesStale(cfg: Config, w: World, e: Event)
    requires WorldOk(w) && EventOk(cfg, w, e) && Reopens(cfg, w, e)
    ensures !NoStale(Step(cfg, w, e).t, Step(cfg, w, e).w)
  {
    hide Next, Output, TableOk, Find, Given, Reopens;
    var x := ReopenedIsGiven(cfg, w, e);
    ReopensIffArms(cfg, w, e, x);
    var c, ev, w1 := w.t.Con(x), EvOf(cfg, w.w, e), Step(cfg, w, e);
    ArriveAt(cfg, w, e, x);
    FindKeeps(cfg, w.t, e.p);
    NextKeepsIdentity(cfg, c, ev);
    assert Armed(w.t, w.w, x);
    var (k, i) := c.wheel;
    assert w1.w == Arm(w.w, e.slot, x, true);
    assert w1.w[k][i] == x && w1.t.Con(x).wheel != (k, i);
  }

  /** So one event keeps the wheel exact if and only if it is no re-opening SYN. */
  lemma ExactIffNoReopen(cfg: Config, w: World, e: Event)
    requires WorldOk(w) && EventOk(cfg, w, e) && NoStale(w.t, w.w)
    ensures NoStale(Step(cfg, w, e).t, Step(cfg, w, e).w) <==> !Reopens(cfg, w, e)
  {
    hide Step, NoStale, Reopens, WorldOk, EventOk;
    if Reopens(cfg, w, e) {
      ReopenLeavesStale(cfg, w, e);
    } else {
      NoStaleStep(cfg, w, e);
    }
  }

  /** In a run without re-opening SYNs the non-zero wheel entries are exactly the ports in use, each in the one cell its
      connection points at; so only a connection's own timer can time it out. */
  lemma {:induction false} WheelIsExact(cfg: Config, ws: seq<World>, es: seq<Event>, n: nat)
    requires Run(cfg, ws, es) && n <= |es|
    requires forall i :: 0 <= i < n ==> !Reopens(cfg, ws[i], es[i])
    ensures NoStale(ws[n].t, ws[n].w) && WheelOk(ws[n].t, ws[n].w)
    decreases n
  {
    hide Step, TableOk, WheelOk, EventOk, Follows, Reopens;
    RunKeeps(cfg, ws, es, n);
    if n > 0 {
      WheelIsExact(cfg, ws, es, n - 1);
      RunKeeps(cfg, ws, es, n - 1);
      NoStaleStep(cfg, ws[n - 1], es[n - 1]);
    }
  }
}
