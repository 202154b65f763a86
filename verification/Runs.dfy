/** Whole runs of a pipeline: any packets and timer ticks, in any order. */
module Runs {
  import opened Tcp
  import opened Connection
  import opened Splice
  import opened Machine
  import opened JointStates
  import opened PortTable
  import opened PipelineState

  // ---------- the effect of one event on one connection ----------

  /** The connection a packet is given to, and its value at that moment. */
  ghost function Target(cfg: Config, w: World, e: Event): Option<U16>
    requires WorldOk(w) && e.Arrive?
  {
    if ForUs(cfg, w.t, e.p) then Find(cfg, w.t, e.p).1 else None
  }

  /** Event `e` is a packet for connection `x`. */
  ghost predicate Given(cfg: Config, w: World, e: Event, x: U16) {
    WorldOk(w) && EventOk(cfg, w, e) && e.Arrive? && w.t.Owns(x) && Target(cfg, w, e) == Some(x)
  }

  function Before(w: World, e: Event, x: U16): Con
    requires e.Arrive? && w.t.Owns(x)
  {
    if w.t.Con(x).InUse() then w.t.Con(x) else Fresh(e.p.src, x, w.t.detailed)
  }

  lemma ArriveAt(cfg: Config, w: World, e: Event, x: U16)
    requires WorldOk(w) && EventOk(cfg, w, e) && e.Arrive? && w.t.Owns(x)
    ensures Step(cfg, w, e).t.Owns(x)
    ensures Target(cfg, w, e) != Some(x) ==> Step(cfg, w, e).t.Con(x) == w.t.Con(x)
    ensures Target(cfg, w, e) == Some(x) ==>
      var c, ev := Before(w, e, x), EvOf(cfg, w.w, e);
      && Usable(w.t, x) && c.port == x
      && (ev.FromClient? ==> e.p.src == c.sock)
      && (ev.FromServer? ==> e.p.dst.port == x && w.t.Con(x).InUse())
      && (!w.t.Con(x).InUse() ==> ev.FromClient? && e.p.syn && e.p.src !in w.t.s2p)
      && Step(cfg, w, e).t.Con(x) == if Output(cfg, c, ev).release then Next(cfg, c, ev).Released() else Next(cfg, c, ev)
  {
    hide Next, Output, TableOk, WheelOk, Find, Step, Deliver, ForUs, EvOf;
    FindKeeps(cfg, w.t, e.p);
    StepKeeps(cfg, w, e);
    if !ForUs(cfg, w.t, e.p) {
      NotForUs(cfg, w, e);
    } else {
      StepOfPacket(cfg, w, e);
      var (t1, port) := Find(cfg, w.t, e.p);
      if port.Some? {
        DeliverAt(cfg, w.(t := t1), port.value, e, x);
      }
      if port == Some(x) {
        Found(cfg, w, e, x);
        SameIdentity(cfg, Before(w, e, x), EvOf(cfg, w.w, e));
      }
    }
  }

  /** Whose packet it is. */
  lemma Found(cfg: Config, w: World, e: Event, x: U16)
    requires WorldOk(w) && EventOk(cfg, w, e) && e.Arrive? && w.t.Owns(x)
    requires Target(cfg, w, e) == Some(x)
    ensures var c, ev := Before(w, e, x), EvOf(cfg, w.w, e);
      && Find(cfg, w.t, e.p).0.Owns(x) && Find(cfg, w.t, e.p).0.Con(x) == c
      && Usable(w.t, x) && c.port == x
      && (ev.FromClient? ==> e.p.src == c.sock)
      && (ev.FromServer? ==> e.p.dst.port == x && w.t.Con(x).InUse())
      && (!w.t.Con(x).InUse() ==> ev.FromClient? && e.p.syn && e.p.src !in w.t.s2p)
  {
    hide TableOk, WheelOk;
    FindKeeps(cfg, w.t, e.p);
  }

  lemma SameIdentity(cfg: Config, c: Con, e: Ev)
    ensures Next(cfg, c, e).sock == c.sock && Next(cfg, c, e).port == c.port
  {
  }

  /** Draining slots leaves a connection alone or times it out. */
  lemma {:induction false} ReleaseTimeoutsAt(t: Table, w: Wheel, due: seq<nat>, x: U16)
    requires TableOk(t) && t.Owns(x) && forall k :: 0 <= k < |due| ==> due[k] < |w|
    ensures var t1 := ReleaseTimeouts(t, w, due).0;
      t1.Owns(x) && (t1.Con(x) == t.Con(x) || (t.Con(x).InUse() && t1.Con(x) == TimedOut(t.Con(x)).Released()))
    decreases due
  {
    hide TableOk, TimeOutAll;
    if due != [] {
      TimeOutAllAt(t, w[due[0]], x);
      TimeOutAllKeeps(t, w[due[0]]);
      ReleaseTimeoutsAt(TimeOutAll(t, w[due[0]]), w[due[0] := []], due[1..], x);
    }
  }

  lemma TimerAt(cfg: Config, w: World, e: Event, x: U16)
    requires WorldOk(w) && EventOk(cfg, w, e) && e.Timer? && w.t.Owns(x)
    ensures var w1 := Step(cfg, w, e);
      w1.t.Owns(x) && (w1.t.Con(x) == w.t.Con(x) || (w.t.Con(x).InUse() && w1.t.Con(x) == TimedOut(w.t.Con(x)).Released()))
  {
    hide TableOk, WheelOk, ReleaseTimeouts;
    ReleaseTimeoutsAt(w.t, w.w, e.due, x);
  }

  /** Only the target's entry of the table changes. */
  lemma ArriveCons(cfg: Config, w: World, e: Event, x: U16)
    requires Given(cfg, w, e, x)
    ensures Step(cfg, w, e).t.Owns(x)
    ensures Step(cfg, w, e).t.cons == w.t.cons[x - w.t.base := Step(cfg, w, e).t.Con(x)]
  {
    hide TableOk, WheelOk, Next, Output, Step, Find;
    StepKeeps(cfg, w, e);
    var w1 := Step(cfg, w, e);
    ArriveAt(cfg, w, e, x);
    forall i | 0 <= i < |w.t.cons| && i != x - w.t.base ensures w1.t.cons[i] == w.t.cons[i] {
      CountsFit(w);
      var y: U16 := w.t.base + i;
      ArriveAt(cfg, w, e, y);
      assert w1.t.Con(y) == w.t.Con(y);
    }
  }

  lemma CountsFit(w: World)
    requires WorldOk(w)
    ensures w.t.base + |w.t.cons| <= 0x1_0000
  {
  }

  /** A timer event leaves connections alone or ends them. */
  lemma TimerCons(cfg: Config, w: World, e: Event)
    requires WorldOk(w) && EventOk(cfg, w, e) && e.Timer?
    ensures var w1 := Step(cfg, w, e);
      && |w1.t.cons| == |w.t.cons| && w1.t.base == w.t.base
      && forall i :: 0 <= i < |w.t.cons| ==> w1.t.cons[i] == w.t.cons[i] || (w.t.cons[i].InUse() && !w1.t.cons[i].InUse())
  {
    hide TableOk, WheelOk, Step;
    StepKeeps(cfg, w, e);
    var w1 := Step(cfg, w, e);
    forall i | 0 <= i < |w.t.cons|
      ensures w1.t.cons[i] == w.t.cons[i] || (w.t.cons[i].InUse() && !w1.t.cons[i].InUse())
    {
      CountsFit(w);
      var y: U16 := w.t.base + i;
      TimerAt(cfg, w, e, y);
      assert w1.t.Con(y) == w1.t.cons[i] && w.t.Con(y) == w.t.cons[i];
    }
  }

  // ---------- runs ----------

  ghost predicate Follows(cfg: Config, w: World, e: Event, w1: World) {
    EventOk(cfg, w, e) && (WorldOk(w) ==> w1 == Step(cfg, w, e))
  }

  ghost predicate Run(cfg: Config, ws: seq<World>, es: seq<Event>) {
    |ws| == |es| + 1 && Initial(ws[0]) && forall i :: 0 <= i < |es| ==> Follows(cfg, ws[i], es[i], ws[i + 1])
  }

  /** In every run socket map, free queue, connections and wheel agree after every event: the table is an injective
      map between the sockets in use and their ports, the queue holds exactly the other usable ports once, and every
      connection in use has a timer, so no assertion of the manager can fail. */
  lemma {:induction false} RunKeeps(cfg: Config, ws: seq<World>, es: seq<Event>, n: nat)
    requires Run(cfg, ws, es) && n <= |es|
    ensures WorldOk(ws[n]) && ws[n].t.base == ws[0].t.base && |ws[n].t.cons| == |ws[0].t.cons|
    ensures n < |es| ==> EventOk(cfg, ws[n], es[n]) && ws[n + 1] == Step(cfg, ws[n], es[n])
    decreases n
  {
    hide Step, TableOk, WheelOk, EventOk;
    assert n < |es| ==> Follows(cfg, ws[n], es[n], ws[n + 1]);
    if n == 0 {
      InitialOk(ws[0]);
    } else {
      RunKeeps(cfg, ws, es, n - 1);
      StepKeeps(cfg, ws[n - 1], es[n - 1]);
    }
  }

  lemma InitialOk(w: World)
    requires Initial(w)
    ensures WorldOk(w)
  {
  }

  // ---------- every connection in use is the result of its own packets ----------

  /** The packets given to connection `x` since its port was last handed out, among the first `n` events. */
  ghost function PacketsOf(cfg: Config, ws: seq<World>, es: seq<Event>, n: nat, x: U16): seq<Ev>
    requires Run(cfg, ws, es) && n <= |es|
    decreases n, 0
  {
    if n == 0 then []
    else
      var earlier := PacketsBefore(cfg, ws, es, n - 1, x);
      if Given(cfg, ws[n - 1], es[n - 1], x) then earlier + [EvOf(cfg, ws[n - 1].w, es[n - 1])] else earlier
  }

  /** The packets `x` had before event `n`: none, if its port is not in use. */
  ghost function PacketsBefore(cfg: Config, ws: seq<World>, es: seq<Event>, n: nat, x: U16): seq<Ev>
    requires Run(cfg, ws, es) && n < |es|
    decreases n, 1
  {
    if ws[n].t.Owns(x) && ws[n].t.Con(x).InUse() then PacketsOf(cfg, ws, es, n, x) else []
  }

  /** A connection with the identity of `c`, fresh, and then these packets. */
  function LifeWith(cfg: Config, c: Con, log: seq<Ev>): Life {
    Life(cfg, Fresh(c.sock, c.port, c.record.Some?), log)
  }

  /** `c` is what the packets `log` made of a fresh connection for its socket and port. */
  ghost predicate LivedBy(cfg: Config, c: Con, log: seq<Ev>) {
    var life := LifeWith(cfg, c, log);
    life.Valid() && life.Live() && life.Now() == c
  }

  /** Every connection in use has a life. */
  ghost predicate AllLive(cfg: Config, t: Table) {
    forall x: U16 :: t.Owns(x) && t.Con(x).InUse() ==> exists log :: LivedBy(cfg, t.Con(x), log)
  }

  /** `log` is what connection `x` has seen before event `e` gives it a packet. */
  ghost predicate SeenBefore(cfg: Config, w: World, x: U16, log: seq<Ev>)
    requires w.t.Owns(x)
  {
    if w.t.Con(x).InUse() then LivedBy(cfg, w.t.Con(x), log) else log == []
  }

  lemma SomePast(cfg: Config, w: World, x: U16) returns (log: seq<Ev>)
    requires AllLive(cfg, w.t) && w.t.Owns(x)
    ensures SeenBefore(cfg, w, x, log)
  {
    hide LivedBy;
    if w.t.Con(x).InUse() {
      log :| LivedBy(cfg, w.t.Con(x), log);
    } else {
      log := [];
    }
  }

  /** The life of a connection up to, and not including, the packet that is given to it now. */
  lemma LifeBefore(cfg: Config, w: World, e: Event, x: U16, log: seq<Ev>)
    requires Given(cfg, w, e, x) && SeenBefore(cfg, w, x, log)
    ensures var c := Before(w, e, x);
      var life := LifeWith(cfg, c, log);
      && life.Valid() && (life.Live() || life.log == []) && life.Now() == c
      && Routed(c, EvOf(cfg, w.w, e)) && (log != [] ==> Listed(c.Pair())) && (log == [] ==> c.Pair() == (Closed, Listen))
  {
    hide Next, Output, TableOk, WheelOk, Step, Find, Listed;
    ArriveAt(cfg, w, e, x);
    if w.t.Con(x).InUse() {
      LivingIsListed(LifeWith(cfg, w.t.Con(x), log));
    }
  }

  lemma LivingIsListed(life: Life)
    requires life.Valid() && life.Live()
    ensures Listed(life.Now().Pair()) && life.Now().Pair() != (Closed, Listen)
  {
    hide Next, Output, Routed, Fresh;
    OnlyListed(life, |life.log|);
  }

  /** The packet goes on with that life. */
  lemma LifeAfter(cfg: Config, w: World, e: Event, x: U16, log: seq<Ev>)
    requires Given(cfg, w, e, x) && SeenBefore(cfg, w, x, log)
    ensures var c, ev := Before(w, e, x), EvOf(cfg, w.w, e);
      var life := LifeWith(cfg, c, log + [ev]);
      && life.Valid() && life.At(|log|) == c && life.Now() == Next(cfg, c, ev) && life.Out(|log|) == Output(cfg, c, ev)
      && (!Output(cfg, c, ev).release ==> LivedBy(cfg, Next(cfg, c, ev), log + [ev]))
  {
    hide Next, Output, Routed, Fresh, TableOk, WheelOk, Listed;
    LifeBefore(cfg, w, e, x, log);
    var c, ev := Before(w, e, x), EvOf(cfg, w.w, e);
    var life := LifeWith(cfg, c, log);
    life.ThenValid(ev);
    life.ThenAt(ev, |log|);
    assert life.Then(ev) == LifeWith(cfg, c, log + [ev]);
    SameIdentity(cfg, c, ev);
    RecordKept(cfg, c, ev);
  }

  lemma RecordKept(cfg: Config, c: Con, e: Ev)
    ensures Next(cfg, c, e).record.Some? == c.record.Some?
  {
    hide ClientPair, ServerPair, ClassifyClient, ClassifyServer, ClientWords, AfterToServer, AfterToClient, AfterSynAck;
  }

  /** One event in the life of connection `x`. */
  lemma LivesGoOn(cfg: Config, w: World, e: Event, x: U16, log: seq<Ev>)
    requires WorldOk(w) && EventOk(cfg, w, e) && w.t.Owns(x) && SeenBefore(cfg, w, x, log)
    requires Step(cfg, w, e).t.Owns(x) && Step(cfg, w, e).t.Con(x).InUse()
    ensures LivedBy(cfg, Step(cfg, w, e).t.Con(x), if Given(cfg, w, e, x) then log + [EvOf(cfg, w.w, e)] else log)
  {
    hide Next, Output, TableOk, WheelOk, Step, Find, LivedBy;
    if e.Timer? {
      TimerAt(cfg, w, e, x);
    } else {
      ArriveAt(cfg, w, e, x);
      if Target(cfg, w, e) == Some(x) {
        LifeAfter(cfg, w, e, x, log);
      }
    }
  }

  /** In every run every connection in use is exactly what the packets given to it since its allocation, in their order,
      made of it: no packet of another connection, and nothing from an earlier use of its port, has any effect on it.
      So all that holds of every life holds of every connection of every run. */
  lemma {:induction false} RunLives(cfg: Config, ws: seq<World>, es: seq<Event>, n: nat, x: U16)
    requires Run(cfg, ws, es) && n <= |es| && ws[n].t.Owns(x) && ws[n].t.Con(x).InUse()
    ensures LivedBy(cfg, ws[n].t.Con(x), PacketsOf(cfg, ws, es, n, x))
    decreases n
  {
    hide Step, WorldOk, EventOk, LivedBy, Follows, Given;
    if n > 0 {
      RunKeeps(cfg, ws, es, n - 1);
      RunKeeps(cfg, ws, es, n);
      if ws[n - 1].t.Con(x).InUse() {
        RunLives(cfg, ws, es, n - 1, x);
      }
      LivesGoOn(cfg, ws[n - 1], es[n - 1], x, PacketsBefore(cfg, ws, es, n - 1, x));
    }
  }

  lemma RunAllLive(cfg: Config, ws: seq<World>, es: seq<Event>, n: nat)
    requires Run(cfg, ws, es) && n <= |es|
    ensures AllLive(cfg, ws[n].t)
  {
    hide Step, WorldOk, EventOk, LivedBy, Follows, PacketsOf;
    forall x: U16 | ws[n].t.Owns(x) && ws[n].t.Con(x).InUse() ensures exists log :: LivedBy(cfg, ws[n].t.Con(x), log) {
      RunLives(cfg, ws, es, n, x);
    }
  }

  /** No connection of any run is ever in a pair of states that is not listed. */
  lemma RunPairsListed(cfg: Config, ws: seq<World>, es: seq<Event>, n: nat, x: U16)
    requires Run(cfg, ws, es) && n <= |es| && ws[n].t.Owns(x) && ws[n].t.Con(x).InUse()
    ensures Listed(ws[n].t.Con(x).Pair())
  {
    hide Next, Output, Follows, Initial, Listed, PacketsOf;
    RunLives(cfg, ws, es, n, x);
    LivingIsListed(LifeWith(cfg, ws[n].t.Con(x), PacketsOf(cfg, ws, es, n, x)));
  }

  /** What the pipeline does with a packet is what the life of its connection says, the life being the packets of the
      run that were given to this connection: results about lives carry over to the packets of every run. */
  lemma PacketInLife(cfg: Config, ws: seq<World>, es: seq<Event>, n: nat, x: U16) returns (life: Life)
    requires Run(cfg, ws, es) && n < |es| && Given(cfg, ws[n], es[n], x)
    ensures life == LifeWith(cfg, Before(ws[n], es[n], x), PacketsOf(cfg, ws, es, n + 1, x))
    ensures life.Valid() && life.log != [] && (|life.log| == 1 || ws[n].t.Con(x).InUse())
    ensures life.At(|life.log| - 1) == Before(ws[n], es[n], x) && life.log[|life.log| - 1] == EvOf(cfg, ws[n].w, es[n])
    ensures var o := life.Out(|life.log| - 1);
      && Answer(cfg, ws[n], es[n]) == Reply(o.group, o.pkt, o.queued)
      && ws[n + 1].t.Owns(x) && (o.release <==> !ws[n + 1].t.Con(x).InUse())
      && (!o.release ==> ws[n + 1].t.Con(x) == life.Now())
  {
    hide Step, WorldOk, Follows, Initial, Find, Next, Output, Routed, Answer, LivedBy;
    RunKeeps(cfg, ws, es, n);
    ArriveAt(cfg, ws[n], es[n], x);
    if ws[n].t.Con(x).InUse() {
      RunLives(cfg, ws, es, n, x);
    }
    var log, ev := PacketsBefore(cfg, ws, es, n, x), EvOf(cfg, ws[n].w, es[n]);
    LifeAfter(cfg, ws[n], es[n], x, log);
    life := LifeWith(cfg, Before(ws[n], es[n], x), log + [ev]);
    SameIdentity(cfg, Before(ws[n], es[n], x), ev);
    AnswerOf(cfg, ws[n], es[n], x);
  }

  lemma AnswerOf(cfg: Config, w: World, e: Event, x: U16)
    requires Given(cfg, w, e, x)
    ensures var o := Output(cfg, Before(w, e, x), EvOf(cfg, w.w, e)); Answer(cfg, w, e) == Reply(o.group, o.pkt, o.queued)
  {
    FindKeeps(cfg, w.t, e.p);
    hide TableOk, WheelOk, Next, Output;
  }
}
