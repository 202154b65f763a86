/** The store that keeps the history records of all connections, over whole runs. */
module RecordStore {
  import opened Tcp
  import opened Connection
  import opened Splice
  import opened Machine
  import opened PortTable
  import opened PipelineState
  import opened Runs
  import opened History

  /** The records handed out so far, and the slot of the record each connection holds, by port. */
  datatype Store = Store(recs: seq<Record>, held: map<U16, nat>)
  {
    /** Hands out the next slot of the store. */
    function Enrol(x: U16): Store {
      Store(recs + [FreshRecord], held[x := |recs|])
    }

    function Read(x: U16): Option<Record> {
      if x in held && held[x] < |recs| then Some(recs[held[x]]) else None
    }

    /** Writes the record that `x` holds, through its slot. */
    function Write(x: U16, r: Option<Record>): Store {
      if x in held && held[x] < |recs| && r.Some? then this.(recs := recs[held[x] := r.value]) else this
    }

    /** Gives up the slot of `x`; the record stays in the store. */
    function Drop(x: U16): Store {
      this.(held := held - {x})
    }
  }

  // ---------- what events do to the store ----------

  /** What the pushes of a packet make of a record; they depend on the fast copies of the states alone. */
  function RecordAfter(c: Con, e: Ev, r: Option<Record>): Option<Record> {
    match e
    case FromClient(p, _) => ClientRecord(ClientBranchOf(c, p), c.Pair(), r)
    case FromServer(p) => ServerRecord(ServerBranchOf(c, p), c.Pair(), r)
  }

  ghost function StorePacket(cfg: Config, w: World, e: Event, x: U16, s: Store): Store
    requires Given(cfg, w, e, x)
  {
    var c, ev := Before(w, e, x), EvOf(cfg, w.w, e);
    var s1 := if w.t.detailed && !w.t.Con(x).InUse() then s.Enrol(x) else s;
    var s2 := s1.Write(x, RecordAfter(c, ev, s1.Read(x)));
    if Output(cfg, c, ev).release then s2.Drop(x) else s2
  }

  function StoreTimeOutHead(t: Table, s: Store, drained: seq<U16>): Store
    requires drained != []
  {
    var p := drained[0];
    if p != 0 && ByPort(t, p).Some? then s.Write(p, TimeOutRecord(s.Read(p))).Drop(p) else s
  }

  function StoreTimeOutAll(t: Table, s: Store, drained: seq<U16>): Store
    decreases drained
  {
    if drained == [] then s
    else StoreTimeOutAll(TimeOutHead(t, drained), StoreTimeOutHead(t, s, drained), drained[1..])
  }

  function StoreTimeouts(t: Table, w: Wheel, s: Store, due: seq<nat>): Store
    requires forall k :: 0 <= k < |due| ==> due[k] < |w|
    decreases due
  {
    if due == [] then s
    else StoreTimeouts(TimeOutAll(t, w[due[0]]), w[due[0] := []], StoreTimeOutAll(t, s, w[due[0]]), due[1..])
  }

  ghost function StoreStep(cfg: Config, w: World, e: Event, s: Store): Store
    requires WorldOk(w) && EventOk(cfg, w, e)
  {
    match e
    case Timer(due) => if (w.ticks + 1) % cfg.tickFactor == 0 then StoreTimeouts(w.t, w.w, s, due) else s
    case Arrive(_, _, _, _, _) =>
      if Target(cfg, w, e).Some? && w.t.Owns(Target(cfg, w, e).value) then StorePacket(cfg, w, e, Target(cfg, w, e).value, s)
      else s
  }

  /** The store after `n` events. */
  ghost function StoreAt(cfg: Config, ws: seq<World>, es: seq<Event>, n: nat): Store
    requires Run(cfg, ws, es) && n <= |es|
    decreases n
  {
    if n == 0 then Store([], map[])
    else
      hide Step, WorldOk, EventOk, Follows, Initial;
      RunKeeps(cfg, ws, es, n - 1);
      StoreStep(cfg, ws[n - 1], es[n - 1], StoreAt(cfg, ws, es, n - 1))
  }

  // ---------- store and table ----------

  /** Exactly the connections in use hold a slot, each its own one. */
  predicate Separate(t: Table, s: Store) {
    && (forall x: U16 :: x in s.held <==> t.detailed && t.Owns(x) && t.Con(x).InUse())
    && (forall x: U16 :: x in s.held ==> s.held[x] < |s.recs|)
    && (forall x: U16, y: U16 :: x in s.held && y in s.held && s.held[x] == s.held[y] ==> x == y)
  }

  /** A record of a connection in use, against the connection. */
  predicate Mirrors(r: Record, c: Con) {
    c.record == Some(r) && RecordFits(Some(r), c.Pair()) && r.cStates != []
  }

  /** A record whose connection has ended: the client is closed, and so is the server if packets closed both. */
  predicate ShowsEnd(r: Record) {
    && r.cStates != [] && Last(r.cStates, Closed) == Closed
    && (r.cCause !in {ActiveRst, Timeout} ==> Last(r.sStates, Listen) == Closed)
  }

  /** Slots that no connection holds. */
  predicate Past(s: Store, i: int) {
    0 <= i < |s.recs| && forall x: U16 :: x in s.held ==> s.held[x] != i
  }

  ghost predicate Matches(t: Table, s: Store) {
    && Separate(t, s)
    && (forall x: U16 :: x in s.held ==> Mirrors(s.recs[s.held[x]], t.Con(x)))
    && (forall i :: Past(s, i) ==> ShowsEnd(s.recs[i]))
  }

  /** From one store to a later one: records of the past stay, and stay in the past. */
  ghost predicate KeepsPast(s: Store, s1: Store) {
    |s.recs| <= |s1.recs| && forall i :: Past(s, i) ==> Past(s1, i) && s1.recs[i] == s.recs[i]
  }

  /** One connection changes: it gets a slot if it had none, its record changes, and it may give the slot up. */
  function Changed(s: Store, x: U16, r: Record, ends: bool): Store {
    var s1 := if x in s.held then s else s.Enrol(x);
    var s2 := s1.Write(x, Some(r));
    if ends then s2.Drop(x) else s2
  }

  function SlotFor(s: Store, x: U16): nat {
    if x in s.held then s.held[x] else |s.recs|
  }

  /** Each slot has one holder at most. */
  predicate OneHolder(s: Store) {
    && (forall x: U16 :: x in s.held ==> s.held[x] < |s.recs|)
    && (forall x: U16, y: U16 :: x in s.held && y in s.held && s.held[x] == s.held[y] ==> x == y)
  }

  lemma ChangedHolders(s: Store, x: U16, r: Record, ends: bool)
    requires OneHolder(s)
    ensures var s1, i := Changed(s, x, r, ends), SlotFor(s, x);
      && (forall y: U16 :: y in s1.held <==> if y == x then !ends else y in s.held)
      && (forall y: U16 :: y in s1.held ==> s1.held[y] == if y == x then i else s.held[y])
      && (forall y: U16 :: y in s.held && y != x ==> s.held[y] != i)
  {
  }

  lemma ChangedRecords(s: Store, x: U16, r: Record, ends: bool)
    requires OneHolder(s)
    ensures var s1, i := Changed(s, x, r, ends), SlotFor(s, x);
      && |s1.recs| == (if x in s.held then |s.recs| else |s.recs| + 1) && i < |s1.recs| && s1.recs[i] == r
      && (forall k :: 0 <= k < |s.recs| && k != i ==> s1.recs[k] == s.recs[k])
  {
  }

  lemma ChangedSeparate(t: Table, s: Store, x: U16, c: Con, r: Record, ends: bool)
    requires Separate(t, s) && t.detailed && t.Owns(x) && c.InUse()
    ensures Separate(t.With(x, if ends then c.Released() else c), Changed(s, x, r, ends))
  {
    hide Changed, Table.With;
    ChangedHolders(s, x, r, ends);
    ChangedRecords(s, x, r, ends);
    WithAt(t, x, if ends then c.Released() else c);
  }

  lemma WithAt(t: Table, x: U16, c: Con)
    requires t.Owns(x)
    ensures var t1 := t.With(x, c);
      && t1.detailed == t.detailed
      && forall y: U16 :: t1.Owns(y) == t.Owns(y) && (t.Owns(y) ==> t1.Con(y) == if y == x then c else t.Con(y))
  {
  }

  lemma ChangedPast(s: Store, x: U16, r: Record, ends: bool)
    requires OneHolder(s) && (forall i :: Past(s, i) ==> ShowsEnd(s.recs[i])) && (ends ==> ShowsEnd(r))
    ensures var s1 := Changed(s, x, r, ends); KeepsPast(s, s1) && forall i :: Past(s1, i) ==> ShowsEnd(s1.recs[i])
  {
    hide ShowsEnd, Changed;
    ChangedHolders(s, x, r, ends);
    ChangedRecords(s, x, r, ends);
    PastChanges(s, Changed(s, x, r, ends), x, SlotFor(s, x), ends);
    assert forall i :: Past(s, i) ==> 0 <= i < |s.recs|;
    assert forall i :: Past(Changed(s, x, r, ends), i) ==> 0 <= i < |Changed(s, x, r, ends).recs|;
    hide SlotFor, Past;
  }

  /** The change keeps every slot to one connection, and touches no record of another one. */
  lemma ChangedMatches(t: Table, s: Store, x: U16, c: Con, r: Record, ends: bool)
    requires Matches(t, s) && t.detailed && t.Owns(x) && c.InUse()
    requires if ends then ShowsEnd(r) else Mirrors(r, c)
    ensures Matches(t.With(x, if ends then c.Released() else c), Changed(s, x, r, ends))
    ensures KeepsPast(s, Changed(s, x, r, ends))
  {
    hide Mirrors, ShowsEnd, Changed, Table.With, Past, KeepsPast;
    ChangedHolders(s, x, r, ends);
    ChangedRecords(s, x, r, ends);
    ChangedPast(s, x, r, ends);
    ChangedSeparate(t, s, x, c, r, ends);
    WithAt(t, x, if ends then c.Released() else c);
  }

  /** The slots of the past are those from before, and the slot the connection gives up. */
  lemma PastChanges(s: Store, s1: Store, x: U16, i: nat, ends: bool)
    requires forall y: U16 :: y in s1.held <==> if y == x then !ends else y in s.held
    requires forall y: U16 :: y in s1.held ==> s1.held[y] == if y == x then i else s.held[y]
    requires forall y: U16 :: y in s.held && y != x ==> s.held[y] != i
    requires OneHolder(s) && i == SlotFor(s, x) && |s1.recs| == (if x in s.held then |s.recs| else |s.recs| + 1)
    ensures forall k :: Past(s1, k) <==> Past(s, k) || (ends && k == i)
    ensures !Past(s, i)
  {
    forall k ensures Past(s1, k) <==> Past(s, k) || (ends && k == i) {
      assert forall y: U16 :: y in s.held && y != x ==> y in s1.held && s1.held[y] == s.held[y];
      if k == i && !ends {
        assert x in s1.held;
      }
    }
  }

  // ---------- one packet ----------

  lemma ClientRecordGrows(b: ClientBranch, j: Pair, r: Record)
    ensures var r1 := ClientRecord(b, j, Some(r));
      && r1.Some? && |r1.value.cStates| >= |r.cStates| && (b == OpenSyn ==> r1.value.cStates != [])
      && (b == Reset ==> r1.value.cCause == ActiveRst && r1.value.cStates != [] && Last(r1.value.cStates, Closed) == Closed)
    ensures ClientRecord(b, j, None) == None
  {
  }

  lemma ServerRecordGrows(b: ServerBranch, j: Pair, r: Record)
    ensures var r1 := ServerRecord(b, j, Some(r)); r1.Some? && |r1.value.cStates| >= |r.cStates|
    ensures ServerRecord(b, j, None) == None
  {
  }

  lemma ReleaseEnds(cfg: Config, c: Con, e: Ev)
    ensures Output(cfg, c, e).release ==>
      (e.FromClient? && ClientBranchOf(c, e.p) == Reset) || Next(cfg, c, e).Pair() == (Closed, Closed)
  {
    hide ClassifyClient, ClassifyServer, ClientPair, ServerPair, ClientRecord, ServerRecord, ClientWords, ClientPacket;
  }

  /** A record that mirrors its connection does so after the packet, and shows the end if the packet ends it. */
  lemma RecordStep(cfg: Config, c: Con, e: Ev, r: Record)
    requires c.record == Some(r) && RecordFits(Some(r), c.Pair())
    requires r.cStates != [] || (c.Pair() == (Closed, Listen) && e.FromClient? && e.p.syn)
    ensures var r1 := RecordAfter(c, e, Some(r));
      && r1.Some? && Mirrors(r1.value, Next(cfg, c, e)) && (Output(cfg, c, e).release ==> ShowsEnd(r1.value))
  {
    assert c.Pair() == (Closed, Listen) && e.FromClient? && e.p.syn ==> ClientBranchOf(c, e.p) == OpenSyn;
    hide Next, Output, ClientRecord, ServerRecord, ClientPair, ServerPair, ClassifyClient, ClassifyServer;
    NextRecord(cfg, c, e);
    ReleaseEnds(cfg, c, e);
    if e.FromClient? {
      ClientRecordGrows(ClientBranchOf(c, e.p), c.Pair(), r);
      ClientRecordFits(ClientBranchOf(c, e.p), c.Pair(), Some(r));
    } else {
      ServerRecordGrows(ServerBranchOf(c, e.p), c.Pair(), r);
      ServerRecordFits(ServerBranchOf(c, e.p), c.Pair(), Some(r));
    }
  }

  lemma RecordOfNone(c: Con, e: Ev)
    ensures RecordAfter(c, e, None) == None
  {
    hide ClientRecord, ServerRecord, ClassifyClient, ClassifyServer;
    if e.FromClient? {
      ClientRecordGrows(ClientBranchOf(c, e.p), c.Pair(), FreshRecord);
    } else {
      ServerRecordGrows(ServerBranchOf(c, e.p), c.Pair(), FreshRecord);
    }
  }

  /** A packet changes the record of its own connection. */
  lemma StorePacketChanges(cfg: Config, w: World, e: Event, x: U16, s: Store)
    requires Given(cfg, w, e, x) && Matches(w.t, s)
    ensures !w.t.detailed ==> StorePacket(cfg, w, e, x, s) == s
    ensures var c, ev := Before(w, e, x), EvOf(cfg, w.w, e);
      w.t.detailed ==>
        c.record.Some? && var r1 := RecordAfter(c, ev, c.record);
        && r1.Some? && StorePacket(cfg, w, e, x, s) == Changed(s, x, r1.value, Output(cfg, c, ev).release)
        && Mirrors(r1.value, Next(cfg, c, ev)) && (Output(cfg, c, ev).release ==> ShowsEnd(r1.value))
  {
    hide TableOk, WheelOk, Next, Output, Step, Find, RecordAfter, ShowsEnd, KeepsPast, Past;
    var c, ev := Before(w, e, x), EvOf(cfg, w.w, e);
    ArriveAt(cfg, w, e, x);
    if w.t.detailed {
      assert !w.t.Con(x).InUse() ==> c.record == Some(FreshRecord) && c.Pair() == (Closed, Listen);
      assert RecordFits(c.record, c.Pair());
      RecordStep(cfg, c, ev, c.record.value);
    } else {
      assert s.held == map[];
      RecordOfNone(c, ev);
      assert s.held - {x} == s.held;
    }
  }

  lemma SameConsMatch(t: Table, t1: Table, s: Store)
    requires t.cons == t1.cons && t.base == t1.base && t.detailed == t1.detailed
    ensures Matches(t, s) <==> Matches(t1, s)
  {
    hide ShowsEnd, Past, Mirrors;
    assert forall x: U16 :: t.Owns(x) == t1.Owns(x) && (t.Owns(x) ==> t.Con(x) == t1.Con(x));
  }

  lemma StorePacketMatches(cfg: Config, w: World, e: Event, x: U16, s: Store)
    requires Given(cfg, w, e, x) && Matches(w.t, s)
    ensures Matches(Step(cfg, w, e).t, StorePacket(cfg, w, e, x, s)) && KeepsPast(s, StorePacket(cfg, w, e, x, s))
  {
    hide TableOk, WheelOk, Next, Output, Step, Find, RecordAfter, StorePacket, Matches, Changed, KeepsPast, Mirrors, ShowsEnd;
    var c, ev, w1 := Before(w, e, x), EvOf(cfg, w.w, e), Step(cfg, w, e);
    var c1, ends := Next(cfg, c, ev), Output(cfg, c, ev).release;
    ArriveAt(cfg, w, e, x);
    ArriveCons(cfg, w, e, x);
    StepKeeps(cfg, w, e);
    SameIdentity(cfg, c, ev);
    StorePacketChanges(cfg, w, e, x, s);
    if w.t.detailed {
      ChangedMatches(w.t, s, x, c1, RecordAfter(c, ev, c.record).value, ends);
      SameConsMatch(w.t.With(x, if ends then c1.Released() else c1), w1.t, StorePacket(cfg, w, e, x, s));
    } else {
      NotDetailed(w.t, w1.t, s);
    }
  }

  /** Without detailed records the store is empty but for the past. */
  lemma NotDetailed(t: Table, t1: Table, s: Store)
    requires Matches(t, s) && !t.detailed && !t1.detailed
    ensures Matches(t1, s) && KeepsPast(s, s)
  {
    hide ShowsEnd, Mirrors;
  }

  /** A packet writes no record but that of its own connection. */
  lemma OthersKeepRecords(cfg: Config, w: World, e: Event, x: U16, y: U16, s: Store)
    requires Given(cfg, w, e, x) && Matches(w.t, s) && y != x && y in s.held
    ensures var s1 := StorePacket(cfg, w, e, x, s);
      y in s1.held && s1.held[y] == s.held[y] && s1.Read(y) == s.Read(y)
  {
    hide TableOk, WheelOk, Next, Output, Step, Find, RecordAfter, StorePacket, Changed, Mirrors, ShowsEnd, Past;
    StorePacketChanges(cfg, w, e, x, s);
    if w.t.detailed {
      var c, ev := Before(w, e, x), EvOf(cfg, w.w, e);
      ChangedHolders(s, x, RecordAfter(c, ev, c.record).value, Output(cfg, c, ev).release);
      ChangedRecords(s, x, RecordAfter(c, ev, c.record).value, Output(cfg, c, ev).release);
    }
  }

  // ---------- timeouts ----------

  lemma KeepsPastOn(s: Store, s1: Store, s2: Store)
    requires KeepsPast(s, s1) && KeepsPast(s1, s2)
    ensures KeepsPast(s, s2)
  {
    hide Past;
  }

  lemma KeepsPastSelf(s: Store)
    ensures KeepsPast(s, s)
  {
    hide Past;
  }

  /** The record of a connection that times out gains the closed state and the cause. */
  lemma TimeOutShowsEnd(r: Record)
    ensures var r1 := TimeOutRecord(Some(r));
      r1 == Some(r.(cStates := r.cStates + [Closed], cCause := Timeout)) && ShowsEnd(r1.value)
  {
  }

  lemma TimeOutHeadMatches(t: Table, s: Store, drained: seq<U16>)
    requires TableOk(t) && Matches(t, s) && drained != []
    ensures Matches(TimeOutHead(t, drained), StoreTimeOutHead(t, s, drained)) && KeepsPast(s, StoreTimeOutHead(t, s, drained))
  {
    hide TableOk, ShowsEnd, Past, KeepsPast, TimeOutRecord;
    var p := drained[0];
    TimeOutHeadKeeps(t, drained);
    KeepsPastSelf(s);
    if p != 0 && ByPort(t, p).Some? {
      var c := TimedOut(t.Con(p));
      var t1 := t.With(p, c.Released());
      if t.detailed {
        TimeOutShowsEnd(s.recs[s.held[p]]);
        var r1 := TimeOutRecord(s.Read(p)).value;
        ChangedMatches(t, s, p, c, r1, true);
        assert StoreTimeOutHead(t, s, drained) == Changed(s, p, r1, true);
        SameConsMatch(t1, TimeOutHead(t, drained), Changed(s, p, r1, true));
      } else {
        assert s.held == map[];
        NotDetailed(t, TimeOutHead(t, drained), s);
      }
    }
  }

  lemma {:induction false} TimeOutAllMatches(t: Table, s: Store, drained: seq<U16>)
    requires TableOk(t) && Matches(t, s)
    ensures Matches(TimeOutAll(t, drained), StoreTimeOutAll(t, s, drained)) && KeepsPast(s, StoreTimeOutAll(t, s, drained))
    decreases drained
  {
    hide TableOk, Matches, KeepsPast, TimeOutHead, StoreTimeOutHead;
    KeepsPastSelf(s);
    if drained != [] {
      TimeOutHeadMatches(t, s, drained);
      TimeOutHeadKeeps(t, drained);
      TimeOutAllMatches(TimeOutHead(t, drained), StoreTimeOutHead(t, s, drained), drained[1..]);
      KeepsPastOn(s, StoreTimeOutHead(t, s, drained), StoreTimeOutAll(t, s, drained));
    }
  }

  lemma {:induction false} TimeoutsMatch(t: Table, w: Wheel, s: Store, due: seq<nat>)
    requires TableOk(t) && Matches(t, s) && forall k :: 0 <= k < |due| ==> due[k] < |w|
    ensures Matches(ReleaseTimeouts(t, w, due).0, StoreTimeouts(t, w, s, due)) && KeepsPast(s, StoreTimeouts(t, w, s, due))
    decreases due
  {
    hide TableOk, Matches, KeepsPast, TimeOutAll, StoreTimeOutAll;
    KeepsPastSelf(s);
    if due != [] {
      TimeOutAllMatches(t, s, w[due[0]]);
      TimeOutAllKeeps(t, w[due[0]]);
      TimeoutsMatch(TimeOutAll(t, w[due[0]]), w[due[0] := []], StoreTimeOutAll(t, s, w[due[0]]), due[1..]);
      KeepsPastOn(s, StoreTimeOutAll(t, s, w[due[0]]), StoreTimeouts(t, w, s, due));
    }
  }

  // ---------- runs ----------

  lemma StoreStepMatches(cfg: Config, w: World, e: Event, s: Store)
    requires WorldOk(w) && EventOk(cfg, w, e) && Matches(w.t, s)
    ensures Matches(Step(cfg, w, e).t, StoreStep(cfg, w, e, s)) && KeepsPast(s, StoreStep(cfg, w, e, s))
  {
    hide TableOk, WheelOk, Matches, KeepsPast, ReleaseTimeouts, StoreTimeouts, Find, Deliver, StorePacket, Insert;
    KeepsPastSelf(s);
    match e
    case Timer(due) => TimeoutsMatch(w.t, w.w, s, due);
    case Arrive(p, _, _, _, _) =>
      FindKeeps(cfg, w.t, p);
      if Target(cfg, w, e).Some? {
        StorePacketMatches(cfg, w, e, Target(cfg, w, e).value, s);
      }
  }

  lemma EmptyMatches(w: World)
    requires Initial(w)
    ensures Matches(w.t, Store([], map[]))
  {
    hide Mirrors, ShowsEnd;
  }

  /** In every run: exactly the connections in use hold a slot of the store, no two the same one; the record in the slot
      shows last what the fast copies of the states hold; and every record that no connection holds any more shows how
      its connection ended. */
  lemma {:induction false} RunRecords(cfg: Config, ws: seq<World>, es: seq<Event>, n: nat)
    requires Run(cfg, ws, es) && n <= |es|
    ensures Matches(ws[n].t, StoreAt(cfg, ws, es, n))
    decreases n
  {
    hide Step, WorldOk, EventOk, Follows, Matches, StoreStep, Initial;
    if n == 0 {
      EmptyMatches(ws[0]);
    } else {
      RunRecords(cfg, ws, es, n - 1);
      RunKeeps(cfg, ws, es, n - 1);
      StoreStepMatches(cfg, ws[n - 1], es[n - 1], StoreAt(cfg, ws, es, n - 1));
    }
  }

  /** A record that no connection holds is never written and never handed out again. */
  lemma {:induction false} PastRecordsStay(cfg: Config, ws: seq<World>, es: seq<Event>, a: nat, b: nat)
    requires Run(cfg, ws, es) && a <= b <= |es|
    ensures KeepsPast(StoreAt(cfg, ws, es, a), StoreAt(cfg, ws, es, b))
    decreases b
  {
    hide Step, WorldOk, EventOk, Follows, Matches, StoreStep, Initial, KeepsPast;
    KeepsPastSelf(StoreAt(cfg, ws, es, a));
    if a < b {
      PastRecordsStay(cfg, ws, es, a, b - 1);
      RunKeeps(cfg, ws, es, b - 1);
      RunRecords(cfg, ws, es, b - 1);
      StoreStepMatches(cfg, ws[b - 1], es[b - 1], StoreAt(cfg, ws, es, b - 1));
      KeepsPastOn(StoreAt(cfg, ws, es, a), StoreAt(cfg, ws, es, b - 1), StoreAt(cfg, ws, es, b));
    }
  }

  /** Two connections in use never share a record, and through its own slot each finds the states it keeps a copy of. */
  lemma NeverShared(cfg: Config, ws: seq<World>, es: seq<Event>, n: nat, x: U16, y: U16)
    requires Run(cfg, ws, es) && n <= |es| && ws[n].t.detailed && x != y
    requires ws[n].t.Owns(x) && ws[n].t.Con(x).InUse() && ws[n].t.Owns(y) && ws[n].t.Con(y).InUse()
    ensures var s, c := StoreAt(cfg, ws, es, n), ws[n].t.Con(x);
      && x in s.held && y in s.held && s.held[x] != s.held[y]
      && s.Read(x).Some? && Last(s.Read(x).value.cStates, Closed) == c.cState
      && Last(s.Read(x).value.sStates, Listen) == c.sState
  {
    hide Step, WorldOk, EventOk, Follows, StoreStep, Initial, StoreAt, ShowsEnd, Past;
    RunRecords(cfg, ws, es, n);
  }
}
