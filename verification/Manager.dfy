/** The connection manager and its timer wheel, as they change in place. */
module Manager {
  import opened Tcp
  import opened Connection
  import opened PortMask
  import opened PortTable

  class TimerWheel {
    var slots: Wheel
    /** The slots whose time has come, oldest first; set by the clock. */
    var due: seq<nat>

    ghost predicate Valid()
      reads this
    {
      forall k :: 0 <= k < |due| ==> due[k] < |slots|
    }

    constructor (n: nat)
      ensures Valid() && slots == seq(n, _ => []) && due == []
    {
      slots, due := seq(n, _ => []), [];
    }

    method Schedule(slot: nat, port: U16) returns (pos: WheelPos)
      requires slot < |slots|
      modifies this`slots
      ensures pos == (slot, |old(slots)[slot]|)
      ensures slots == old(slots)[slot := old(slots)[slot] + [port]]
    {
      pos := (slot, |slots[slot]|);
      slots := slots[slot := slots[slot] + [port]];
    }

    /** Overwrites a cell and returns what it held. */
    method Replace(pos: WheelPos, port: U16) returns (was: Option<U16>)
      modifies this`slots
      ensures slots == PortTable.Replace(old(slots), pos, port)
      ensures was == if IsCell(old(slots), pos) then Some(old(slots)[pos.0][pos.1]) else None
    {
      was := None;
      if pos.0 < |slots| && pos.1 < |slots[pos.0]| {
        var slot: seq<U16> := slots[pos.0];
        was := Some(slot[pos.1]);
        slots := slots[pos.0 := slot[pos.1 := port]];
      }
    }

    /** Empties the next due slot, if there is one, and says whether more are due. */
    method Tick() returns (drain: Option<seq<U16>>, more: bool)
      requires Valid()
      modifies this
      ensures Valid()
      ensures old(due) == [] ==> drain == None && !more && slots == old(slots) && due == []
      ensures old(due) != [] ==>
        && due == old(due)[1..] && (more <==> due != [])
        && slots == old(slots)[old(due)[0] := []]
        && drain == Some(old(slots)[old(due)[0]])
    {
      drain, more := None, false;
      if due != [] {
        var slot: seq<U16> := slots[due[0]];
        drain := Some(slot);
        slots := slots[due[0] := []];
        due := due[1..];
        more := due != [];
      }
    }
  }

  class ConnectionManager {
    var sock2port: map<Sock, U16>
    var freePorts: seq<U16>
    const port2con: array<ProxyConnection>
    const tcpPortBase: U16
    const mask: U16
    const detailedRecords: bool

    /** The table this manager stands for. */
    ghost var table: Table

    /** The connections are separate objects, and the vector covers exactly the ports the mask assigns. */
    ghost predicate Shape()
      reads port2con
    {
      && (forall i, j :: 0 <= i < j < port2con.Length ==> port2con[i] != port2con[j])
      && HighBits(mask) && Aligned(tcpPortBase, mask) && port2con.Length == Not(mask) + 1
    }

    /** `table` is what the fields and the connection objects hold. */
    ghost predicate Tied()
      reads this, port2con, port2con[..]
    {
      && Shape()
      && sock2port == table.s2p && freePorts == table.free
      && tcpPortBase == table.base && detailedRecords == table.detailed
      && |table.cons| == port2con.Length
      && (forall i :: 0 <= i < port2con.Length ==> port2con[i].View() == table.cons[i])
    }

    ghost predicate Valid()
      reads this, port2con, port2con[..]
    {
      Tied() && TableOk(table)
    }

    /** `shuffled` is the library's permutation of all usable ports but the last one, which is queued at the end. */
    constructor (base: U16, mask: U16, detailed: bool, shuffled: seq<U16>)
      requires HighBits(mask) && Aligned(base, mask) && base + Not(mask) > 0
      requires Distinct(shuffled)
      requires forall p: U16 :: p in shuffled <==> (if base == 0 then 1 else base) <= p < base + Not(mask)
      ensures Valid() && fresh(port2con) && fresh(port2con[..])
      ensures this.mask == mask
      ensures base + Not(mask) <= 0xFFFF
      ensures table == Unused(base, Not(mask) + 1, shuffled + [base + Not(mask)], detailed)
    {
      hide TableOk, And, HighBits, Distinct;
      NoOverflow(base, mask);
      UnusedOk(base, Not(mask) + 1, shuffled, detailed);
      var max: U16 := base + Not(mask);
      sock2port := map[];
      freePorts := shuffled + [max];
      var cons := NewConnections(Not(mask) + 1);
      port2con := cons;
      tcpPortBase, this.mask, detailedRecords := base, mask, detailed;
      table := Unused(base, Not(mask) + 1, shuffled + [max], detailed);
    }

    /** A vector of separate connections, none of them ever used. */
    static method NewConnections(n: nat) returns (cons: array<ProxyConnection>)
      requires n > 0
      ensures fresh(cons) && fresh(cons[..]) && cons.Length == n
      ensures forall i :: 0 <= i < n ==> cons[i].View() == Vacant
      ensures forall i, j :: 0 <= i < j < n ==> cons[i] != cons[j]
    {
      var first := new ProxyConnection();
      cons := new ProxyConnection[n](_ => first);
      var i := 1;
      while i < n
        invariant 1 <= i <= n
        invariant fresh(cons) && fresh(cons[..])
        invariant forall j :: 0 <= j < n ==> cons[j].View() == Vacant
        invariant forall j, k :: 0 <= j < k < i ==> cons[j] != cons[k]
        modifies cons
      {
        cons[i] := new ProxyConnection();
        i := i + 1;
      }
    }

    method GetMutByPort(port: U16) returns (c: Option<ProxyConnection>)
      requires Valid()
      ensures c.Some? <==> ByPort(table, port).Some?
      ensures c.Some? ==> table.Owns(port) && c.value == port2con[port - tcpPortBase]
    {
      OwnsIffInRange(port, tcpPortBase, mask);
      c := None;
      if And(port, mask) == tcpPortBase {
        var con := port2con[port - tcpPortBase];
        if con.proxyPort != 0 {
          c := Some(con);
        }
      }
    }

    method GetMutBySock(sock: Sock) returns (c: Option<ProxyConnection>)
      requires Valid()
      ensures c.Some? <==> BySock(table, sock).Some?
      ensures c.Some? ==>
        sock in sock2port && table.Owns(sock2port[sock]) && c.value == port2con[sock2port[sock] - tcpPortBase]
    {
      c := None;
      if sock in sock2port {
        c := Some(port2con[sock2port[sock] - tcpPortBase]);
      }
    }

    method GetMutOrInsert(sock: Sock) returns (c: Option<ProxyConnection>)
      requires Valid() && sock.ip != 0
      modifies this, port2con[..]
      ensures Valid()
      ensures table == Insert(old(table), sock).0
      ensures c.Some? <==> Insert(old(table), sock).1.Some?
      ensures c.Some? ==>
        sock in sock2port && table.Owns(sock2port[sock]) && c.value == port2con[sock2port[sock] - tcpPortBase]
    {
      hide TableOk;
      InsertKeeps(table, sock);
      c := None;
      if sock in sock2port {
        SockInUse(table, sock);
        var con := port2con[sock2port[sock] - tcpPortBase];
        assert con.View().InUse();
        c := Some(con);
      } else if freePorts != [] {
        var cc := Allocate(sock);
        c := Some(cc);
      }
    }

    /** Takes over in the abstract table what the caller did to a connection through its reference. */
    ghost method Note(port: U16)
      requires Shape() && table.Owns(port) && |table.cons| == port2con.Length && table.base == tcpPortBase
      requires sock2port == table.s2p && freePorts == table.free && detailedRecords == table.detailed
      requires forall i :: 0 <= i < port2con.Length && i != port - tcpPortBase ==> port2con[i].View() == table.cons[i]
      modifies this`table
      ensures Tied() && table == old(table).With(port, port2con[port - tcpPortBase].View())
    {
      table := table.With(port, port2con[port - tcpPortBase].View());
    }

    /** Puts the first free port to use for a new socket. */
    method Allocate(sock: Sock) returns (cc: ProxyConnection)
      requires Valid() && sock !in sock2port && freePorts != []
      modifies this, port2con[..]
      ensures Tied() && table == Insert(old(table), sock).0
      ensures sock in sock2port && table.Owns(sock2port[sock]) && cc == port2con[sock2port[sock] - tcpPortBase]
    {
      hide TableOk;
      FirstIsUnused(table);
      var port := freePorts[0];
      freePorts := freePorts[1..];
      cc := port2con[port - tcpPortBase];
      assert !cc.View().InUse();
      cc.Initialize(sock, port, detailedRecords);
      sock2port := sock2port[sock := port];
      table := Insert(table, sock).0;
    }

    /** Releases a port that a packet closed: only if it is in use, i.e. has not been released already. */
    method ReleasePort(port: U16, wheel: TimerWheel)
      requires Valid() && WheelOk(table, wheel.slots) && table.Owns(port)
      modifies this, port2con[..], wheel`slots
      ensures Valid() && WheelOk(table, wheel.slots)
      ensures (table, wheel.slots) == PortTable.ReleasePort(old(table), old(wheel.slots), port)
    {
      ReleaseKeeps(table, wheel.slots, port);
      var c := port2con[port - tcpPortBase];
      if c.proxyPort != 0 {
        assert port == c.proxyPort;
        var was := wheel.Replace(c.wheelPos, 0);
        if was.Some? {
          assert was.value == port;
        }
        assert c.clientSock in sock2port ==> sock2port[c.clientSock] == c.proxyPort;
        GiveBack(port, c);
      }
    }

    /** Queues the port of `c`, forgets its socket and ends `c`. */
    method GiveBack(port: U16, c: ProxyConnection)
      requires Tied() && table.Owns(port) && c == port2con[port - tcpPortBase]
      modifies this, c
      ensures Tied() && table == Give(old(table), port, old(c.View()))
    {
      freePorts := freePorts + [port];
      if c.clientSock.ip != 0 {
        sock2port := sock2port - {c.clientSock};
      }
      table := Give(table, port, c.View());
      c.Release();
    }

    method TimeOut(port: U16)
      requires Valid()
      modifies this, port2con[..]
      ensures Valid()
      ensures table == PortTable.TimeOut(old(table), port)
    {
      hide TableOk;
      var opt := GetMutByPort(port);
      if opt.Some? {
        var c := opt.value;
        ghost var t, c0 := table, c.View();
        GiveKeeps(t, port, TimedOut(c0));
        RecordTimeOut(port, c);
        GiveBack(port, c);
        assert table == Give(t, port, TimedOut(c0));
      }
    }

    /** Notes cause and state of a connection that times out. */
    method RecordTimeOut(port: U16, c: ProxyConnection)
      requires Tied() && table.Owns(port) && c == port2con[port - tcpPortBase]
      modifies this`table, c
      ensures Tied() && c.View() == TimedOut(old(c.View()))
      ensures table == old(table).With(port, TimedOut(old(c.View())))
    {
      c.SetReleaseCause(Timeout);
      c.CPushState(Closed);
      table := table.With(port, c.View());
    }

    method ReleaseTimeouts(wheel: TimerWheel)
      requires Valid() && wheel.Valid() && WheelOk(table, wheel.slots)
      modifies this, port2con[..], wheel
      ensures Valid() && wheel.Valid() && WheelOk(table, wheel.slots) && wheel.due == []
      ensures (table, wheel.slots) == PortTable.ReleaseTimeouts(old(table), old(wheel.slots), old(wheel.due))
    {
      ghost var t0, w0, d0 := table, wheel.slots, wheel.due;
      while true
        invariant Valid() && wheel.Valid() && WheelOk(table, wheel.slots)
        invariant PortTable.ReleaseTimeouts(table, wheel.slots, wheel.due) == PortTable.ReleaseTimeouts(t0, w0, d0)
        decreases |wheel.due|
      {
        ghost var t, w, d := table, wheel.slots, wheel.due;
        var drain, more := wheel.Tick();
        match drain {
          case Some(ports) =>
            DrainKeepsAll(t, w, d[0]);
            TimeOutDrained(ports);
            if !more {
              break;
            }
          case None =>
            if !more {
              break;
            }
        }
      }
    }

    /** Times out every port drained from a slot, except the removed ones. */
    method TimeOutDrained(ports: seq<U16>)
      requires Valid()
      modifies this, port2con[..]
      ensures Valid()
      ensures table == TimeOutAll(old(table), ports)
    {
      ghost var t0 := table;
      var i := 0;
      while i < |ports|
        invariant 0 <= i <= |ports|
        invariant Valid()
        invariant TimeOutAll(table, ports[i..]) == TimeOutAll(t0, ports)
      {
        var p := ports[i];
        if p != 0 {
          TimeOut(p);
        }
        assert ports[i..][1..] == ports[i + 1..];
        i := i + 1;
      }
    }
  }
}
