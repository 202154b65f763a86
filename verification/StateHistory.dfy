/** The server-side history record as the fixed array it is kept in. */
module StateHistory {
  import opened Tcp
  import opened Connection

  class Extension {
    const sState: array<TcpState>
    var sStateCount: nat
    var sReleaseCause: Cause

    ghost predicate Valid()
      reads this
    {
      sState.Length == HISTORY_SLOTS && sStateCount <= HISTORY_SLOTS
    }

    /** The states pushed since the last start, oldest first. */
    ghost function Pushed(): seq<TcpState>
      requires Valid()
      reads this, sState
    {
      sState[..sStateCount]
    }

    /** The array is the server-side half of the value record. */
    ghost predicate Holds(r: Record)
      reads this, sState
    {
      Valid() && Pushed() == r.sStates && sReleaseCause == r.sCause
    }

    constructor ()
      ensures Valid() && fresh(sState) && Pushed() == [] && sReleaseCause == Unknown
      ensures Holds(FreshRecord)
    {
      sState := new TcpState[HISTORY_SLOTS](_ => Listen);
      sStateCount := 0;
      sReleaseCause := Unknown;
    }

    method Init()
      requires Valid()
      modifies this`sStateCount
      ensures Valid() && Pushed() == []
      ensures forall r: Record :: old(Holds(r)) ==> Holds(InitS(Some(r)).value)
    {
      sStateCount := 0;
    }

    /** An eighth push would run past the array. */
    method PushState(state: TcpState)
      requires Valid() && sStateCount < HISTORY_SLOTS
      modifies this`sStateCount, sState
      ensures Valid() && Pushed() == old(Pushed()) + [state]
      ensures forall r: Record :: old(Holds(r)) ==> Holds(PushS(Some(r), state).value)
    {
      sState[sStateCount] := state;
      sStateCount := sStateCount + 1;
    }

    method SetReleaseCause(cause: Cause)
      modifies this`sReleaseCause
      ensures sReleaseCause == cause
      ensures forall r: Record :: old(Holds(r)) ==> Holds(CauseS(Some(r), cause).value)
    {
      sReleaseCause := cause;
    }

    method LastState() returns (s: TcpState)
      requires Valid()
      ensures s == Last(Pushed(), Listen)
    {
      if sStateCount == 0 {
        s := Listen;
      } else {
        s := sState[sStateCount - 1];
      }
    }

    /** The history as the reports show it, with the initial state in front. */
    method States() returns (result: array<TcpState>)
      requires Valid()
      ensures fresh(result) && result[..] == [Listen] + Pushed()
    {
      result := new TcpState[sStateCount + 1](_ => Listen);
      var i := 0;
      while i < sStateCount
        invariant 0 <= i <= sStateCount && result[0] == Listen
        invariant result[1..i + 1] == sState[..i]
      {
        result[i + 1] := sState[i];
        i := i + 1;
      }
      assert result[..] == [result[0]] + result[1..];
    }
  }
}
