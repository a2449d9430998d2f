/**
  The clock contract exercised on concrete runs: each method below replays
  one of the test cases of test_clock.py on fresh clocks, with the process ids
  as parameters (clock.py draws them at random), and states as its
  postcondition what the test asserts.
 */
module ClockScenarios {
  import opened ClockBase
  import Lamport
  import Vector

  /** Two successive Lamport ticks are ordered. */
  method LamportTicksIncrease(pid: PID) returns (t1: Lamport.Timestamp, t2: Lamport.Timestamp)
    ensures Lamport.Less(t1, t2)
  {
    var c := new Lamport.LamportClock(pid);
    t1 := c.GetTime();
    t2 := c.GetTime();
  }

  /** Two successive vector ticks are ordered. */
  method VectorTicksIncrease(pid: PID) returns (t1: Vector.Timestamp, t2: Vector.Timestamp)
    ensures Vector.Less(t1, t2)
  {
    var c := new Vector.VectorClock(pid);
    t1 := c.GetTime();
    t2 := c.GetTime();
  }

  /** Two Lamport clocks exchange their first timestamps; afterwards each
      clock's next tick exceeds both earlier timestamps. */
  method LamportCommunication(p1: PID, p2: PID)
    returns (t1Before: Lamport.Timestamp, t2Before: Lamport.Timestamp,
             t1After: Lamport.Timestamp, t2After: Lamport.Timestamp)
    ensures Lamport.Less(t1Before, t1After) && Lamport.Less(t2Before, t1After)
    ensures Lamport.Less(t1Before, t2After) && Lamport.Less(t2Before, t2After)
  {
    var c1 := new Lamport.LamportClock(p1);
    var c2 := new Lamport.LamportClock(p2);
    t1Before := c1.GetTime();
    t2Before := c2.GetTime();
    c2.SeenTime(t1Before);
    c1.SeenTime(t2Before);
    t1After := c1.GetTime();
    t2After := c2.GetTime();
  }

  /** Two vector clocks exchange their first timestamps; afterwards each
      clock's next tick exceeds both earlier timestamps. */
  method VectorCommunication(p1: PID, p2: PID)
    returns (t1Before: Vector.Timestamp, t2Before: Vector.Timestamp,
             t1After: Vector.Timestamp, t2After: Vector.Timestamp)
    ensures Vector.Less(t1Before, t1After) && Vector.Less(t2Before, t1After)
    ensures Vector.Less(t1Before, t2After) && Vector.Less(t2Before, t2After)
  {
    var c1 := new Vector.VectorClock(p1);
    var c2 := new Vector.VectorClock(p2);
    t1Before := c1.GetTime();
    t2Before := c2.GetTime();
    c2.SeenTime(t1Before);
    c1.SeenTime(t2Before);
    t1After := c1.GetTime();
    t2After := c2.GetTime();
  }

  /** The first ticks of two fresh Lamport clocks with distinct ids are
      always ordered one way, never equal. */
  method LamportFreshClocksOrdered(p1: PID, p2: PID) returns (t1: Lamport.Timestamp, t2: Lamport.Timestamp)
    requires p1 != p2
    ensures Lamport.Less(t1, t2) || Lamport.Less(t2, t1)
    ensures t1 != t2
  {
    var c1 := new Lamport.LamportClock(p1);
    t1 := c1.GetTime();
    var c2 := new Lamport.LamportClock(p2);
    t2 := c2.GetTime();
  }

  /** The first ticks of two fresh vector clocks with distinct ids are
      incomparable and unequal. */
  method VectorFreshClocksConcurrent(p1: PID, p2: PID) returns (t1: Vector.Timestamp, t2: Vector.Timestamp)
    requires p1 != p2
    ensures !Vector.Less(t1, t2) && !Vector.Less(t2, t1)
    ensures t1 != t2
  {
    var c1 := new Vector.VectorClock(p1);
    t1 := c1.GetTime();
    var c2 := new Vector.VectorClock(p2);
    t2 := c2.GetTime();
    assert p1 in t1.entries && p1 !in t2.entries;
    assert p2 in t2.entries && p2 !in t1.entries;
  }

  /** A Lamport clock that ticked eleven times is restored from an export;
      the restored clock keeps the identity and its first tick exceeds the
      last timestamp read before the export. */
  method LamportRestore(pid: PID) returns (restoredPid: PID, ts: Lamport.Timestamp, next: Lamport.Timestamp)
    ensures restoredPid == pid
    ensures Lamport.Less(ts, next)
  {
    var c1 := new Lamport.LamportClock(pid);
    for i := 0 to 10
      invariant c1.Valid()
    {
      var _ := c1.GetTime();
    }
    ts := c1.GetTime();
    var bundle := c1.Export();
    var c2 := Lamport.LamportClock.CreateFromExport(bundle);
    restoredPid := c2.pid;
    next := c2.GetTime();
  }

  /** A vector clock that ticked eleven times is restored from an export;
      the restored clock keeps the identity and its first tick exceeds the
      last timestamp read before the export. */
  method VectorRestore(pid: PID) returns (restoredPid: PID, ts: Vector.Timestamp, next: Vector.Timestamp)
    ensures restoredPid == pid
    ensures Vector.Less(ts, next)
  {
    var c1 := new Vector.VectorClock(pid);
    for i := 0 to 10
      invariant c1.Valid()
    {
      var _ := c1.GetTime();
    }
    ts := c1.GetTime();
    var bundle := c1.Export();
    var c2 := Vector.VectorClock.CreateFromExport(bundle);
    restoredPid := c2.pid;
    next := c2.GetTime();
    Vector.LessTransitive(ts, bundle.ts, next);
  }

  /** Process `a` ticks twice, `b` once; `a` observes `b`'s timestamp and
      ticks again. `b`'s timestamp has a subset of the keys and no larger
      entry, so it is below `a`'s last one, and not the other way round. */
  method VectorSubsetScenario(a: PID, b: PID) returns (ta: Vector.Timestamp, tb: Vector.Timestamp)
    requires a != b
    ensures ta.entries == map[a := 3, b := 1] && tb.entries == map[b := 1]
    ensures Vector.Less(tb, ta) && !Vector.Less(ta, tb)
  {
    var ca := new Vector.VectorClock(a);
    var cb := new Vector.VectorClock(b);
    var _ := ca.GetTime();
    var _ := ca.GetTime();
    assert ca.clocks == map[a := 2];
    tb := cb.GetTime();
    assert tb.entries == map[b := 1];
    ca.SeenTime(tb);
    MergeDisjointSingletons(a, b);
    assert Vector.Get(ca.clocks, a) == 2;
    ta := ca.GetTime();
    assert ta.entries == map[a := 3, b := 1];
    assert a !in tb.entries;
  }

  /** The merge step of `VectorSubsetScenario`: `{a: 2}` observing `{b: 1}`
      becomes `{a: 2, b: 1}`. */
  lemma MergeDisjointSingletons(a: PID, b: PID)
    requires a != b
    ensures Vector.Merge(map[a := 2], map[b := 1]) == map[a := 2, b := 1]
  {
    var r := Vector.Merge(map[a := 2], map[b := 1]);
    assert r.Keys == {a, b};
    assert r[a] == 2 && r[b] == 1;
  }
}
