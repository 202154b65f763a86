/** The connection table and the timer wheel as values, and the invariants they keep. */
module PortTable {
  import opened Tcp
  import opened Connection

  /** Slots of ports; 0 marks a removed entry. */
  type Wheel = seq<seq<U16>>

  /** Socket map, queue of free ports, and the connections by `port - base`. */
  datatype Table = Table(s2p: map<Sock, U16>, free: seq<U16>, cons: seq<Con>, base: U16, detailed: bool)
  {
    predicate Owns(p: U16) {
      base <= p < base + |cons|
    }

    function Con(p: U16): Con
      requires Owns(p)
    {
      cons[p - base]
    }

    function With(p: U16, c: Con): Table
      requires Owns(p)
    {
      this.(cons := cons[p - base := c])
    }
  }

  // ---------- operations ----------

  /** The connection a port leads to, if it is in use. */
  function ByPort(t: Table, p: U16): Option<U16> {
    if t.Owns(p) && t.Con(p).InUse() then Some(p) else None
  }

  function BySock(t: Table, s: Sock): Option<U16> {
    if s in t.s2p then Some(t.s2p[s]) else None
  }

  /** The known connection of a socket, or a new one on the port at the head of the queue. */
  function Insert(t: Table, s: Sock): (Table, Option<U16>)
    requires t.free != [] ==> t.Owns(t.free[0])
  {
    if s in t.s2p then (t, Some(t.s2p[s]))
    else if t.free == [] then (t, None)
    else
      var p := t.free[0];
      (t.(s2p := t.s2p[s := p], free := t.free[1..]).With(p, Fresh(s, p, t.detailed)), Some(p))
  }

  /** Gives the port of `c` back; the socket entry goes unless the socket address is absent. */
  function Give(t: Table, p: U16, c: Con): Table
    requires t.Owns(p)
  {
    t.(s2p := if c.sock.ip != 0 then t.s2p - {c.sock} else t.s2p, free := t.free + [p]).With(p, c.Released())
  }

  predicate IsCell(w: Wheel, pos: WheelPos) {
    pos.0 < |w| && pos.1 < |w[pos.0]|
  }

  function Replace(w: Wheel, pos: WheelPos, p: U16): Wheel {
    if IsCell(w, pos) then
      var slot: seq<U16> := w[pos.0];
      w[pos.0 := slot[pos.1 := p]]
    else w
  }

  function ReleasePort(t: Table, w: Wheel, p: U16): (Table, Wheel)
    requires t.Owns(p)
  {
    var c := t.Con(p);
    if c.InUse() then (Give(t, p, c), Replace(w, c.wheel, 0)) else (t, w)
  }

  function TimeOutRecord(r: Option<Record>): Option<Record> {
    PushC(CauseC(r, Timeout), Closed)
  }

  function TimedOut(c: Con): Con {
    c.(cState := Closed, record := TimeOutRecord(c.record))
  }

  function TimeOut(t: Table, p: U16): Table {
    if ByPort(t, p).Some? then Give(t, p, TimedOut(t.Con(p))) else t
  }

  /** The table after the first entry of a drained slot. */
  function TimeOutHead(t: Table, drained: seq<U16>): Table
    requires drained != []
  {
    if drained[0] != 0 then TimeOut(t, drained[0]) else t
  }

  /** Every entry drained from a slot is timed out, except the zeros. */
  function TimeOutAll(t: Table, drained: seq<U16>): Table
    decreases drained
  {
    if drained == [] then t
    else TimeOutAll(TimeOutHead(t, drained), drained[1..])
  }

  function ReleaseTimeouts(t: Table, w: Wheel, due: seq<nat>): (Table, Wheel)
    requires forall k :: 0 <= k < |due| ==> due[k] < |w|
    decreases due
  {
    if due == [] then (t, w)
    else ReleaseTimeouts(TimeOutAll(t, w[due[0]]), w[due[0] := []], due[1..])
  }

  // ---------- the table invariant ----------

  /** Port 0 is reserved. */
  predicate Usable(t: Table, p: U16) {
    p != 0 && t.Owns(p)
  }

  predicate Distinct<T(==)>(s: seq<T>) {
    forall i, j :: 0 <= i < j < |s| ==> s[i] != s[j]
  }

  /** Connections in use are exactly the sockets of the map. */
  ghost predicate MapOk(t: Table) {
    && (forall p: U16 :: t.Owns(p) && t.Con(p).InUse() ==>
          t.Con(p).port == p && t.Con(p).sock.ip != 0 && t.Con(p).sock in t.s2p && t.s2p[t.Con(p).sock] == p)
    && (forall s :: s in t.s2p ==> t.Owns(t.s2p[s]) && t.Con(t.s2p[s]).InUse() && t.Con(t.s2p[s]).sock == s)
  }

  /** The queue holds exactly the other usable ports, once. */
  ghost predicate QueueOk(t: Table) {
    && Distinct(t.free)
    && (forall i :: 0 <= i < |t.free| ==> Usable(t, t.free[i]) && !t.Con(t.free[i]).InUse())
    && (forall p: U16 :: Usable(t, p) && !t.Con(p).InUse() ==> p in t.free)
  }

  ghost predicate TableOk(t: Table) {
    0 < |t.cons| <= 0x1_0000 - t.base && MapOk(t) && QueueOk(t)
  }

  /** A manager that has no connection yet. */
  function Unused(base: U16, size: nat, free: seq<U16>, detailed: bool): Table {
    Table(map[], free, seq(size, _ => Vacant), base, detailed)
  }

  lemma UnusedOk(base: U16, size: nat, shuffled: seq<U16>, detailed: bool)
    requires 0 < size <= 0x1_0000 - base && base + size > 1
    requires Distinct(shuffled)
    requires forall p: U16 :: p in shuffled <==> (if base == 0 then 1 else base) <= p < base + size - 1
    ensures TableOk(Unused(base, size, shuffled + [base + size - 1], detailed))
  {
    var last: U16 := base + size - 1;
    var free := shuffled + [last];
    forall i | 0 <= i < |shuffled| ensures free[i] in shuffled && free[i] != last {
      assert free[i] == shuffled[i];
    }
    forall p: U16 | p != 0 && base <= p < base + size ensures p in free {
      if p == last {
        assert free[|shuffled|] == last;
      } else {
        assert p in shuffled;
      }
    }
  }

  lemma SockInUse(t: Table, s: Sock)
    requires TableOk(t) && s in t.s2p
    ensures t.Owns(t.s2p[s]) && t.Con(t.s2p[s]).InUse() && t.Con(t.s2p[s]).sock == s
  {
  }

  lemma PortInUse(t: Table, p: U16)
    requires TableOk(t) && t.Owns(p) && t.Con(p).InUse()
    ensures Usable(t, p) && t.Con(p).port == p
  {
  }

  lemma FirstIsUnused(t: Table)
    requires TableOk(t) && t.free != []
    ensures Usable(t, t.free[0]) && !t.Con(t.free[0]).InUse()
  {
  }

  lemma InsertKeepsQueue(t: Table, s: Sock)
    requires QueueOk(t) && s !in t.s2p && t.free != []
    ensures t.Owns(t.free[0]) && QueueOk(Insert(t, s).0)
  {
    assert t.free[0] in t.free;
    var t1, p := Insert(t, s).0, t.free[0];
    forall x: U16 ensures x in t1.free <==> Usable(t1, x) && !t1.Con(x).InUse() {
      assert x in t.free <==> x == p || x in t.free[1..];
      assert p !in t.free[1..];
    }
  }

  lemma InsertKeepsMap(t: Table, s: Sock)
    requires MapOk(t) && s !in t.s2p && t.free != [] && s.ip != 0
    requires Usable(t, t.free[0]) && !t.Con(t.free[0]).InUse()
    ensures MapOk(Insert(t, s).0)
  {
    var t1, p := Insert(t, s).0, t.free[0];
    forall x: U16 | t1.Owns(x) && t1.Con(x).InUse()
      ensures t1.Con(x).port == x && t1.Con(x).sock.ip != 0 && t1.Con(x).sock in t1.s2p && t1.s2p[t1.Con(x).sock] == x
    {
      assert x != p ==> t1.Con(x) == t.Con(x);
    }
  }

  lemma InsertKeeps(t: Table, s: Sock)
    requires TableOk(t) && s.ip != 0
    ensures t.free != [] ==> t.free[0] in t.free && t.Owns(t.free[0])
    ensures var (t1, r) := Insert(t, s); TableOk(t1) && (r.Some? ==> BySock(t1, s) == r && Usable(t1, r.value))
    ensures var (t1, r) := Insert(t, s); (r.None? <==> s !in t.s2p && t.free == [])
  {
    hide MapOk, QueueOk;
    if t.free != [] {
      FirstIsUnused(t);
    }
    if s in t.s2p {
      SockInUse(t, s);
      PortInUse(t, t.s2p[s]);
    } else if t.free != [] {
      InsertKeepsQueue(t, s);
      InsertKeepsMap(t, s);
    }
  }

  /** What an insertion does to the connections of the table. */
  lemma InsertAt(t: Table, s: Sock)
    requires TableOk(t) && s.ip != 0
    ensures t.free != [] ==> t.Owns(t.free[0])
    ensures var (t1, r) := Insert(t, s);
      && t1.base == t.base && |t1.cons| == |t.cons| && t1.detailed == t.detailed
      && (r.Some? ==> t1.Owns(r.value) && t1.Con(r.value).InUse() && t1.Con(r.value).sock == s)
      && (forall x: U16 :: t.Owns(x) && r != Some(x) ==> t1.Con(x) == t.Con(x))
      && (r.Some? && t1 != t ==> !t.Con(r.value).InUse() && t1.Con(r.value) == Fresh(s, r.value, t.detailed))
      && (r.None? ==> t1 == t)
  {
    hide TableOk;
    if s in t.s2p {
      SockInUse(t, s);
    }
    if t.free != [] {
      FirstIsUnused(t);
    }
  }

  /** A packet may change a connection, but not whose it is. */
  lemma UpdateKeeps(t: Table, p: U16, c: Con)
    requires TableOk(t) && t.Owns(p)
    requires c.port == t.Con(p).port && c.sock == t.Con(p).sock
    ensures TableOk(t.With(p, c))
  {
    assert forall x: U16 :: t.Owns(x) ==> t.With(p, c).Con(x).InUse() == t.Con(x).InUse();
  }

  lemma GiveKeepsMap(t: Table, p: U16, c: Con)
    requires MapOk(t) && t.Owns(p) && t.Con(p).InUse() && c.sock == t.Con(p).sock
    ensures MapOk(Give(t, p, c))
  {
    var t1 := Give(t, p, c);
    forall x: U16 | t1.Owns(x) && t1.Con(x).InUse()
      ensures t1.Con(x).port == x && t1.Con(x).sock.ip != 0 && t1.Con(x).sock in t1.s2p && t1.s2p[t1.Con(x).sock] == x
    {
      assert x != p && t1.Con(x) == t.Con(x);
    }
  }

  lemma GiveKeepsQueue(t: Table, p: U16, c: Con)
    requires QueueOk(t) && Usable(t, p) && t.Con(p).InUse()
    ensures QueueOk(Give(t, p, c))
  {
    assert forall x :: x in Give(t, p, c).free <==> x in t.free || x == p;
  }

  lemma GiveKeeps(t: Table, p: U16, c: Con)
    requires TableOk(t) && t.Owns(p) && t.Con(p).InUse() && c.sock == t.Con(p).sock
    ensures TableOk(Give(t, p, c)) && !Give(t, p, c).Con(p).InUse()
  {
    hide MapOk, QueueOk;
    PortInUse(t, p);
    GiveKeepsMap(t, p, c);
    GiveKeepsQueue(t, p, c);
  }

  // ---------- what a drained slot does ----------

  /** The ports a drained slot frees, in the order in which they go back to the queue. */
  function Freed(t: Table, drained: seq<U16>): seq<U16>
    decreases drained
  {
    if drained == [] then []
    else if drained[0] != 0 && ByPort(t, drained[0]).Some? then
      [drained[0]] + Freed(TimeOutHead(t, drained), drained[1..])
    else Freed(TimeOutHead(t, drained), drained[1..])
  }

  lemma TimeOutHeadKeeps(t: Table, drained: seq<U16>)
    requires TableOk(t) && drained != []
    ensures var t1 := TimeOutHead(t, drained);
      TableOk(t1) && t1.base == t.base && |t1.cons| == |t.cons| && t1.detailed == t.detailed
  {
    if drained[0] != 0 && ByPort(t, drained[0]).Some? {
      GiveKeeps(t, drained[0], TimedOut(t.Con(drained[0])));
    }
  }

  /** The table is consistent after every entry of a drained slot, so also after the last one. */
  lemma {:induction false} TimeOutAllKeeps(t: Table, drained: seq<U16>)
    requires TableOk(t)
    ensures var t1 := TimeOutAll(t, drained);
      TableOk(t1) && t1.base == t.base && |t1.cons| == |t.cons| && t1.detailed == t.detailed
    decreases drained
  {
    if drained != [] {
      TimeOutHeadKeeps(t, drained);
      TimeOutAllKeeps(TimeOutHead(t, drained), drained[1..]);
    }
  }

  /** Whatever a slot held (zeros, duplicates, stale and foreign ports), draining it ends exactly
      the connections in use that it named and leaves the others as they were. */
  lemma {:induction false} TimeOutAllAt(t: Table, drained: seq<U16>, p: U16)
    requires TableOk(t) && t.Owns(p)
    ensures TimeOutAll(t, drained).base == t.base && |TimeOutAll(t, drained).cons| == |t.cons|
    ensures TimeOutAll(t, drained).Con(p) ==
      if p in drained && t.Con(p).InUse() then TimedOut(t.Con(p)).Released() else t.Con(p)
    decreases drained
  {
    if drained != [] {
      assert p in drained <==> p == drained[0] || p in drained[1..];
      TimeOutHeadKeeps(t, drained);
      TimeOutAllAt(TimeOutHead(t, drained), drained[1..], p);
    }
  }

  lemma {:induction false} FreedIff(t: Table, drained: seq<U16>, p: U16)
    requires TableOk(t)
    ensures p in Freed(t, drained) <==> p in drained && t.Owns(p) && t.Con(p).InUse()
    decreases drained
  {
    if drained != [] {
      assert p in drained <==> p == drained[0] || p in drained[1..];
      TimeOutHeadKeeps(t, drained);
      FreedIff(TimeOutHead(t, drained), drained[1..], p);
    }
  }

  /** Each freed port is queued once, in the order of the drained entries. */
  lemma {:induction false} FreedOnce(t: Table, drained: seq<U16>)
    requires TableOk(t)
    ensures TimeOutAll(t, drained).free == t.free + Freed(t, drained) && Distinct(Freed(t, drained))
    decreases drained
  {
    if drained != [] {
      TimeOutHeadKeeps(t, drained);
      FreedOnce(TimeOutHead(t, drained), drained[1..]);
      if drained[0] != 0 && ByPort(t, drained[0]).Some? {
        FreedIff(TimeOut(t, drained[0]), drained[1..], drained[0]);
      }
    }
  }

  // ---------- agreement of the wheel and the table ----------

  /** The wheel cell of connection `p` holds its own port. */
  predicate Armed(t: Table, w: Wheel, p: U16)
    requires t.Owns(p)
  {
    var pos := t.Con(p).wheel;
    IsCell(w, pos) && w[pos.0][pos.1] == p
  }

  ghost predicate WheelOk(t: Table, w: Wheel) {
    forall p: U16 :: t.Owns(p) && t.Con(p).InUse() ==> Armed(t, w, p)
  }

  /** Every entry of the wheel belongs to the connection in use that points at it. */
  ghost predicate NoStale(t: Table, w: Wheel) {
    forall k, i :: 0 <= k < |w| && 0 <= i < |w[k]| && w[k][i] != 0 ==>
      t.Owns(w[k][i]) && t.Con(w[k][i]).InUse() && t.Con(w[k][i]).wheel == (k, i)
  }

  lemma ReleaseKeeps(t: Table, w: Wheel, p: U16)
    requires TableOk(t) && WheelOk(t, w) && t.Owns(p)
    ensures var (t1, w1) := ReleasePort(t, w, p); TableOk(t1) && WheelOk(t1, w1) && !t1.Con(p).InUse()
  {
    if t.Con(p).InUse() {
      GiveKeeps(t, p, t.Con(p));
      var (t1, w1) := ReleasePort(t, w, p);
      forall x: U16 | t1.Owns(x) && t1.Con(x).InUse() ensures Armed(t1, w1, x) {
        assert x != p && t1.Con(x) == t.Con(x) && Armed(t, w, x) && Armed(t, w, p);
      }
    }
  }

  lemma ReleaseKeepsNoStale(t: Table, w: Wheel, p: U16)
    requires WheelOk(t, w) && NoStale(t, w) && t.Owns(p)
    ensures var (t1, w1) := ReleasePort(t, w, p); NoStale(t1, w1)
  {
    if t.Con(p).InUse() {
      var (t1, w1) := ReleasePort(t, w, p);
      assert Armed(t, w, p);
      forall k, i | 0 <= k < |w1| && 0 <= i < |w1[k]| && w1[k][i] != 0
        ensures t1.Owns(w1[k][i]) && t1.Con(w1[k][i]).InUse() && t1.Con(w1[k][i]).wheel == (k, i)
      {
        assert w1[k][i] == w[k][i] != p;
      }
    }
  }

  /** No connection survives the drain of the slot that holds its timer. */
  lemma DrainKeeps(t: Table, w: Wheel, k: nat, p: U16)
    requires TableOk(t) && WheelOk(t, w) && k < |w|
    requires t.Owns(p)
    ensures var t1 := TimeOutAll(t, w[k]);
      && t1.Owns(p)
      && (t1.Con(p).InUse() ==> t1.Con(p) == t.Con(p) && t.Con(p).wheel.0 != k && Armed(t1, w[k := []], p))
      && (NoStale(t, w) && t.Con(p).InUse() && t.Con(p).wheel.0 != k ==> t1.Con(p) == t.Con(p))
  {
    TimeOutAllAt(t, w[k], p);
    if t.Con(p).InUse() {
      assert Armed(t, w, p);
    }
  }

  lemma DrainKeepsAll(t: Table, w: Wheel, k: nat)
    requires TableOk(t) && WheelOk(t, w) && k < |w|
    ensures WheelOk(TimeOutAll(t, w[k]), w[k := []])
    ensures NoStale(t, w) ==> NoStale(TimeOutAll(t, w[k]), w[k := []])
  {
    TimeOutAllKeeps(t, w[k]);
    forall p: U16 | t.Owns(p)
      ensures var t1 := TimeOutAll(t, w[k]);
        && (t1.Con(p).InUse() ==> Armed(t1, w[k := []], p))
        && (NoStale(t, w) && t.Con(p).InUse() && t.Con(p).wheel.0 != k ==> t1.Con(p) == t.Con(p))
    {
      DrainKeeps(t, w, k, p);
    }
  }

  lemma {:induction false} ReleaseTimeoutsKeeps(t: Table, w: Wheel, due: seq<nat>)
    requires TableOk(t) && WheelOk(t, w)
    requires forall k :: 0 <= k < |due| ==> due[k] < |w|
    ensures var (t1, w1) := ReleaseTimeouts(t, w, due);
      && TableOk(t1) && WheelOk(t1, w1) && |w1| == |w| && (NoStale(t, w) ==> NoStale(t1, w1))
      && t1.base == t.base && |t1.cons| == |t.cons| && t1.detailed == t.detailed
    decreases due
  {
    if due != [] {
      DrainKeepsAll(t, w, due[0]);
      TimeOutAllKeeps(t, w[due[0]]);
      ReleaseTimeoutsKeeps(TimeOutAll(t, w[due[0]]), w[due[0] := []], due[1..]);
    }
  }

  /** Arming a connection appends its port to a slot. */
  lemma ArmKeeps(t: Table, w: Wheel, p: U16, k: nat, c: Con)
    requires TableOk(t) && Usable(t, p) && k < |w|
    requires forall x: U16 :: t.Owns(x) && t.Con(x).InUse() && x != p ==> Armed(t, w, x)
    requires c.wheel == (k, |w[k]|)
    ensures WheelOk(t.With(p, c), w[k := w[k] + [p]])
  {
    var t1, w1 := t.With(p, c), w[k := w[k] + [p]];
    forall x: U16 | t1.Owns(x) && t1.Con(x).InUse() ensures Armed(t1, w1, x) {
      assert x != p ==> t1.Con(x) == t.Con(x) && Armed(t, w, x);
    }
  }

  /** It leaves no stale entry if the wheel had none and no entry for this port. */
  lemma ArmKeepsNoStale(t: Table, w: Wheel, p: U16, k: nat, c: Con)
    requires t.Owns(p) && k < |w| && c.InUse() && c.wheel == (k, |w[k]|)
    requires NoStale(t, w) && forall j, i :: 0 <= j < |w| && 0 <= i < |w[j]| ==> w[j][i] != p
    ensures NoStale(t.With(p, c), w[k := w[k] + [p]])
  {
    var t1, w1 := t.With(p, c), w[k := w[k] + [p]];
    forall j, i | 0 <= j < |w1| && 0 <= i < |w1[j]| && w1[j][i] != 0
      ensures t1.Owns(w1[j][i]) && t1.Con(w1[j][i]).InUse() && t1.Con(w1[j][i]).wheel == (j, i)
    {
      if j != k || i < |w[k]| {
        assert w1[j][i] == w[j][i] != p;
      }
    }
  }
}
