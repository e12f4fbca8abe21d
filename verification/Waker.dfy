/**
 The bus's wake policy: which delivered messages start a turn. Messages between agents wake within a
 budget of six per thirty seconds; the window of recent grants is filtered in place.
 */
module Waker {

  datatype ToKind = ToAgent | ToRole | ToBroadcast | ToTeam | ToFacilitator

  const SENDER_HUMAN := "human"
  const SENDER_FACILITATOR := "facilitator"

  const BUDGET: nat := 6
  const WINDOW: int := 30_000_000_000 // nanoseconds

  /** The times strictly after cut, in order. */
  function After(times: seq<int>, cut: int): seq<int> {
    if |times| == 0 then []
    else (if times[0] > cut then [times[0]] else []) + After(times[1..], cut)
  }

  /** How many of the times lie in the thirty seconds that end at (and include) end; in nanoseconds. */
  function InWindow(times: seq<int>, end: int): nat {
    if |times| == 0 then 0
    else (if end - 30_000_000_000 < times[0] <= end then 1 else 0) + InWindow(times[1..], end)
  }

  ghost predicate Sorted(times: seq<int>) {
    forall i, j :: 0 <= i <= j < |times| ==> times[i] <= times[j]
  }

  lemma {:induction false} AfterLast(times: seq<int>, t: int, cut: int)
    ensures After(times + [t], cut) == After(times, cut) + (if t > cut then [t] else [])
  {
    if |times| == 0 {
      assert [t][1..] == [];
    } else {
      assert (times + [t])[1..] == times[1..] + [t];
      AfterLast(times[1..], t, cut);
    }
  }

  lemma {:induction false} AfterTwice(times: seq<int>, early: int, late: int)
    requires early <= late
    ensures After(After(times, early), late) == After(times, late)
  {
    if |times| > 0 {
      AfterTwice(times[1..], early, late);
      if times[0] > early {
        assert After(times, early)[1..] == After(times[1..], early);
      } else {
        assert After(times, early) == After(times[1..], early);
        assert After(times, late) == After(times[1..], late);
      }
    }
  }

  /** With no time beyond now, the window that ends now holds exactly the times after its cut. */
  lemma {:induction false} WindowIsAfter(times: seq<int>, now: int)
    requires forall i :: 0 <= i < |times| ==> times[i] <= now
    ensures InWindow(times, now) == |After(times, now - WINDOW)|
  {
    if |times| > 0 {
      WindowIsAfter(times[1..], now);
    }
  }

  lemma {:induction false} InWindowLast(times: seq<int>, t: int, end: int)
    ensures InWindow(times + [t], end) == InWindow(times, end) + (if end - 30_000_000_000 < t <= end then 1 else 0)
  {
    if |times| == 0 {
      assert [t][1..] == [];
    } else {
      assert (times + [t])[1..] == times[1..] + [t];
      InWindowLast(times[1..], t, end);
    }
  }

  /** Sliding a window forward past the newest time only loses times. */
  lemma {:induction false} LaterWindowHoldsFewer(times: seq<int>, now: int, end: int)
    requires now <= end && forall i :: 0 <= i < |times| ==> times[i] <= now
    ensures InWindow(times, end) <= InWindow(times, now)
  {
    if |times| > 0 {
      LaterWindowHoldsFewer(times[1..], now, end);
    }
  }

  // ---------------------------------------------------------------- whole runs

  /** A budgeted message is granted exactly when fewer than six grants lie in the last thirty seconds. */
  function GrantsAfter(times: seq<int>): seq<int> {
    if |times| == 0 then []
    else
      var before, now := GrantsAfter(times[..|times| - 1]), times[|times| - 1];
      if InWindow(before, now) < 6 then before + [now] else before
  }

  lemma {:induction false} GrantsAreTimes(times: seq<int>)
    requires Sorted(times)
    ensures Sorted(GrantsAfter(times))
    ensures forall i :: 0 <= i < |GrantsAfter(times)| ==> GrantsAfter(times)[i] <= times[|times| - 1]
    ensures times == [] ==> GrantsAfter(times) == []
  {
    if |times| > 0 {
      var before := times[..|times| - 1];
      GrantsAreTimes(before);
    }
  }

  /**
   Over any run with a monotone clock, every half-open window of thirty seconds, wherever it ends,
   holds at most six granted wakes.
   */
  lemma {:induction false} NoWindowExceedsBudget(times: seq<int>, end: int)
    requires Sorted(times)
    ensures InWindow(GrantsAfter(times), end) <= 6
  {
    if |times| > 0 {
      var before, now := times[..|times| - 1], times[|times| - 1];
      var granted := GrantsAfter(before);
      NoWindowExceedsBudget(before, end);
      GrantsAreTimes(before);
      InWindowLast(granted, now, end);
      if now <= end {
        LaterWindowHoldsFewer(granted, now, end);
      }
    }
  }

  /** The grants still inside the window of the latest budgeted message. */
  function RecentGrants(times: seq<int>): seq<int>
    requires times != []
  {
    After(GrantsAfter(times), times[|times| - 1] - WINDOW)
  }

  /** Filtering the grants recent at the last message gives the grants recent now. */
  lemma KeptAreRecent(before: seq<int>, now: int)
    requires before != [] ==> before[|before| - 1] <= now
    ensures After(if before == [] then [] else RecentGrants(before), now - WINDOW)
         == After(GrantsAfter(before), now - WINDOW)
  {
    if before != [] {
      AfterTwice(GrantsAfter(before), before[|before| - 1] - WINDOW, now - WINDOW);
    }
  }

  lemma GrantsOfOneMore(before: seq<int>, now: int)
    ensures GrantsAfter(before + [now])
         == GrantsAfter(before) + (if InWindow(GrantsAfter(before), now) < 6 then [now] else [])
  {
  }

  /** One budgeted message: what the kept grants say, and what they become. */
  lemma WakeStep(before: seq<int>, now: int)
    requires Sorted(before) && (before != [] ==> before[|before| - 1] <= now)
    ensures
      var kept := After(GrantsAfter(before), now - WINDOW);
      && |kept| == InWindow(GrantsAfter(before), now)
      && RecentGrants(before + [now]) == (if |kept| < BUDGET then kept + [now] else kept)
  {
    var granted := GrantsAfter(before);
    GrantsAreTimes(before);
    WindowIsAfter(granted, now);
    GrantsOfOneMore(before, now);
    if InWindow(granted, now) < BUDGET {
      AfterLast(granted, now, now - WINDOW);
    } else {
      assert granted + [] == granted;
    }
  }

  // ---------------------------------------------------------------- the object

  class Waker {
    const recent: array<int>    // the slice's backing array
    var len: nat                // how much of it the slice covers
    ghost var asked: seq<int>   // the times of all budgeted messages so far

    ghost predicate Valid()
      reads this, recent
    {
      && recent.Length == BUDGET && len <= BUDGET
      && Sorted(asked)
      && recent[..len] == if asked == [] then [] else RecentGrants(asked)
    }

    /** The clock never runs behind the latest budgeted message. */
    ghost predicate OnTime(now: int)
      reads this
    {
      asked != [] ==> asked[|asked| - 1] <= now
    }

    constructor ()
      ensures Valid() && fresh(recent) && asked == []
    {
      recent := new int[BUDGET];
      len, asked := 0, [];
    }

    /** Keep the entries after cut, compacting the slice in place. */
    method Filter(cut: int)
      requires len <= recent.Length
      modifies this`len, recent
      ensures len <= recent.Length
      ensures recent[..len] == After(old(recent[..len]), cut)
    {
      var n := len;
      ghost var was := recent[..n];
      var k := 0;
      for i := 0 to n
        invariant len == n && 0 <= k <= i
        invariant recent[i..n] == was[i..]
        invariant recent[..k] == After(was[..i], cut)
      {
        var t := recent[i];
        assert t == recent[i..n][0] == was[i];
        assert was[..i + 1] == was[..i] + [t];
        AfterLast(was[..i], t, cut);
        if t > cut {
          recent[k] := t;
          k := k + 1;
        }
        assert recent[i + 1..n] == was[i..][1..];
      }
      assert was[..n] == was;
      len := k;
    }

    /** Whether a message should wake its recipient now. */
    method Wake(from: string, kind: ToKind, interrupt: bool, now: int) returns (wakes: bool)
      requires Valid()
      requires !interrupt && from != "human" && from != "facilitator" && kind in {ToAgent, ToTeam} ==> OnTime(now)
      modifies this, recent
      ensures Valid()
      // the human, the facilitator and interrupts always wake and cost nothing
      ensures interrupt || from == "human" || from == "facilitator" ==> wakes && asked == old(asked)
      // from anybody else, what is addressed to no single agent and not to the team never wakes
      ensures !interrupt && from != "human" && from != "facilitator"
              && kind in {ToRole, ToBroadcast, ToFacilitator} ==>
        !wakes && asked == old(asked)
      // and the rest is refused exactly when six grants lie in the preceding thirty seconds
      ensures !interrupt && from != "human" && from != "facilitator" && kind in {ToAgent, ToTeam} ==>
        && asked == old(asked) + [now]
        && (wakes <==> InWindow(GrantsAfter(old(asked)), now) < 6)
      ensures forall end :: InWindow(GrantsAfter(asked), end) <= 6
    {
      NoWindowEver(asked);
      if interrupt || from == SENDER_HUMAN || from == SENDER_FACILITATOR {
        return true;
      }
      if kind != ToAgent && kind != ToTeam {
        return false; // context
      }
      wakes := Spend(now);
      NoWindowEver(asked);
    }

    /** Draw on the budget, if it is not exhausted. */
    method Spend(now: int) returns (wakes: bool)
      requires Valid() && OnTime(now)
      modifies this, recent
      ensures Valid()
      ensures asked == old(asked) + [now]
      ensures wakes <==> InWindow(GrantsAfter(old(asked)), now) < 6
    {
      hide InWindow, GrantsAfter, RecentGrants, After;
      ghost var before := asked;
      Filter(now - WINDOW);
      KeptAreRecent(before, now);
      WakeStep(before, now);
      asked := before + [now];
      if len >= BUDGET {
        return false; // six grants in the window
      }
      recent[len] := now;
      len := len + 1;
      assert recent[..len] == recent[..len - 1] + [now];
      return true;
    }
  }

  lemma NoWindowEver(times: seq<int>)
    requires Sorted(times)
    ensures forall end :: InWindow(GrantsAfter(times), end) <= 6
  {
    forall end ensures InWindow(GrantsAfter(times), end) <= 6 {
      NoWindowExceedsBudget(times, end);
    }
  }
}
