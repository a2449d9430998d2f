/**
  Vector logical time: every clock keeps a finite map from process identity
  to the highest counter it knows of that process. Timestamps are snapshots
  of that map and are only partially ordered.
 */
module Vector {
  import opened ClockBase

  /** `_VectorTimeStamp`: a snapshot of the per-process counters. A key that
      is absent is not the same as a key mapped to 0: the order looks at the
      key sets. */
  datatype Timestamp = Timestamp(entries: map<PID, int>)

  /** `_VectorExport`: the owner's identity and a fresh timestamp. */
  datatype ExportBundle = ExportBundle(pid: PID, ts: Timestamp)

  /** `b` knows every process that `a` knows, each with a count at least as
      large. */
  predicate Dominated(a: map<PID, int>, b: map<PID, int>)
  {
    a.Keys <= b.Keys && forall p :: p in a ==> a[p] <= b[p]
  }

  /** `_VectorTimeStamp.__lt__`: key subset, pointwise at most, and not
      equal. */
  predicate Less(a: Timestamp, b: Timestamp)
  {
    Dominated(a.entries, b.entries) && a != b
  }

  /** Two maps that dominate each other are the same map. */
  lemma DominatedAntisymmetric(a: map<PID, int>, b: map<PID, int>)
    requires Dominated(a, b) && Dominated(b, a)
    ensures a == b
  {
    assert a.Keys == b.Keys;
    forall p | p in a
      ensures a[p] == b[p]
    {
    }
  }

  /** Domination is transitive. */
  lemma DominatedTransitive(a: map<PID, int>, b: map<PID, int>, c: map<PID, int>)
    requires Dominated(a, b) && Dominated(b, c)
    ensures Dominated(a, c)
  {
  }

  /** `<` on vector timestamps is irreflexive and asymmetric. */
  lemma LessIrreflexiveAsymmetric(a: Timestamp, b: Timestamp)
    ensures !Less(a, a)
    ensures Less(a, b) ==> !Less(b, a)
  {
    if Less(a, b) && Less(b, a) {
      DominatedAntisymmetric(a.entries, b.entries);
    }
  }

  /** `<` on vector timestamps is transitive, so together with
      `LessIrreflexiveAsymmetric` it is a strict partial order. */
  lemma LessTransitive(a: Timestamp, b: Timestamp, c: Timestamp)
    requires Less(a, b) && Less(b, c)
    ensures Less(a, c)
  {
    DominatedTransitive(a.entries, b.entries, c.entries);
    if a == c {
      DominatedAntisymmetric(a.entries, b.entries);
    }
  }

  /** A non-empty set of process ids has a member to pick; the loops of
      `CompareLess` and `VectorClock.SeenTime` walk over the keys of a map
      by picking them one at a time. */
  lemma NonEmptyHasMember(s: set<PID>)
    requires s != {}
    ensures exists p :: p in s
  {
    if forall p :: p !in s {
      assert false;
    }
  }

  /** `__lt__` as clock.py computes it: the key-subset test first, then a
      read-only pass over the entries of `a` that stops at the first one
      exceeding `b`'s, then the inequality test. */
  method CompareLess(a: Timestamp, b: Timestamp) returns (r: bool)
    ensures r == Less(a, b)
  {
    if !(a.entries.Keys <= b.entries.Keys) {
      return false;
    }
    var todo := a.entries.Keys;
    while todo != {}
      invariant todo <= a.entries.Keys <= b.entries.Keys
      invariant forall p :: p in a.entries && p !in todo ==> a.entries[p] <= b.entries[p]
      decreases todo
    {
      NonEmptyHasMember(todo);
      var p :| p in todo;
      if a.entries[p] > b.entries[p] {
        return false;
      }
      todo := todo - {p};
    }
    return a.entries != b.entries;
  }

  /** Reading a `defaultdict(int)`: an absent key reads as 0. */
  function Get(m: map<PID, nat>, p: PID): (v: nat)
  {
    if p in m then m[p] else 0
  }

  /** The frontier after `seen_time`: the union of the key sets, each entry
      the larger of the clock's (0 when absent) and the observed one. */
  function Merge(m: map<PID, nat>, t: map<PID, int>): (r: map<PID, nat>)
    ensures r.Keys == m.Keys + t.Keys
    ensures Dominated(m, r) && Dominated(t, r)
  {
    map p | p in m.Keys + t.Keys :: if p in t then Max(Get(m, p), t[p]) else m[p]
  }

  /** A merge changes only the entries the observed timestamp carries; in
      particular it does not bump the clock's own entry unless the observed
      timestamp has a larger one. */
  lemma MergeLeavesOtherEntries(m: map<PID, nat>, t: map<PID, int>, p: PID)
    requires p !in t
    ensures p in Merge(m, t) <==> p in m
    ensures Get(Merge(m, t), p) == Get(m, p)
  {
  }

  /** One step of the entry-by-entry merge loop: merging one more key `p`
      updates just that key of the frontier. */
  lemma MergeStep(m: map<PID, nat>, done: map<PID, int>, p: PID, v: int)
    requires p !in done
    ensures Merge(m, done[p := v]) == Merge(m, done)[p := Max(Get(Merge(m, done), p), v)]
  {
  }

  /** The merged frontier is the least upper bound: any frontier that
      dominates both the clock's and the observed one dominates the merge. */
  lemma MergeIsLeastUpperBound(m: map<PID, nat>, t: map<PID, int>, c: map<PID, nat>)
    requires Dominated(m, c) && Dominated(t, c)
    ensures Dominated(Merge(m, t), c)
  {
  }

  /** Observing the same timestamp twice is the same as observing it once. */
  lemma MergeIdempotent(m: map<PID, nat>, t: map<PID, int>)
    ensures Merge(Merge(m, t), t) == Merge(m, t)
  {
  }

  /** Observing two timestamps in either order gives the same frontier. */
  lemma MergeCommutes(m: map<PID, nat>, a: map<PID, int>, b: map<PID, int>)
    ensures Merge(Merge(m, a), b) == Merge(Merge(m, b), a)
  {
  }

  /** The tick of `get_time`: the own entry goes up by one (from 0 when
      absent). The result is strictly greater than every timestamp the
      frontier dominated before the tick. */
  lemma TickIsStrictlyGreater(m: map<PID, nat>, pid: PID, t: Timestamp)
    requires Dominated(t.entries, m)
    ensures Less(t, Timestamp(m[pid := Get(m, pid) + 1]))
  {
  }

  /** `VectorClock`. The ghost sets `issued` and `observed` record every
      timestamp this clock has returned and every timestamp it has been
      shown; `Valid` says the frontier dominates all of them, which is what
      makes the next tick exceed them all. */
  class VectorClock {
    const pid: PID
    var clocks: map<PID, nat>
    ghost var issued: set<Timestamp>
    ghost var observed: set<Timestamp>

    ghost predicate Valid()
      reads this
    {
      && (forall t :: t in issued ==> Dominated(t.entries, clocks))
      && (forall t :: t in observed ==> Dominated(t.entries, clocks))
    }

    /** A new clock with the given identity and an empty frontier. */
    constructor (pid: PID)
      ensures Valid()
      ensures this.pid == pid && clocks == map[]
      ensures issued == {} && observed == {}
    {
      this.pid := pid;
      clocks := map[];
      issued := {};
      observed := {};
    }

    /** `get_time`: bump only the own entry (inserting 1 when absent) and
        return a snapshot of the whole frontier. The result is strictly
        greater than every timestamp returned or observed before. */
    method GetTime() returns (r: Timestamp)
      requires Valid()
      modifies this
      ensures Valid()
      ensures clocks == old(clocks)[pid := Get(old(clocks), pid) + 1]
      ensures r == Timestamp(clocks)
      ensures forall t :: t in old(issued) || t in old(observed) ==> Less(t, r)
      ensures issued == old(issued) + {r} && observed == old(observed)
    {
      ghost var before := clocks;
      clocks := clocks[pid := Get(clocks, pid) + 1];
      r := Timestamp(clocks);
      forall t | t in issued || t in observed
        ensures Less(t, r)
      {
        TickIsStrictlyGreater(before, pid, t);
      }
      forall t | t in issued + {r}
        ensures Dominated(t.entries, clocks)
      {
        if t != r {
          DominatedTransitive(t.entries, before, clocks);
        }
      }
      forall t | t in observed
        ensures Dominated(t.entries, clocks)
      {
        DominatedTransitive(t.entries, before, clocks);
      }
      issued := issued + {r};
    }

    /** `seen_time`: merge the observed entries into the frontier one key at
        a time, each the larger of the two. The own entry is not bumped. */
    method SeenTime(ts: Timestamp)
      requires Valid()
      modifies this
      ensures Valid()
      ensures clocks == Merge(old(clocks), ts.entries)
      ensures issued == old(issued) && observed == old(observed) + {ts}
    {
      ghost var before := clocks;
      ghost var done: map<PID, int> := map[];
      var todo := ts.entries.Keys;
      while todo != {}
        invariant todo <= ts.entries.Keys
        invariant done.Keys == ts.entries.Keys - todo
        invariant forall q :: q in done ==> done[q] == ts.entries[q]
        invariant clocks == Merge(before, done)
        invariant issued == old(issued) && observed == old(observed)
        decreases todo
      {
        NonEmptyHasMember(todo);
        var p :| p in todo;
        MergeStep(before, done, p, ts.entries[p]);
        clocks := clocks[p := Max(Get(clocks, p), ts.entries[p])];
        done := done[p := ts.entries[p]];
        todo := todo - {p};
      }
      assert done == ts.entries;
      forall t | t in issued + observed
        ensures Dominated(t.entries, clocks)
      {
        DominatedTransitive(t.entries, before, clocks);
      }
      observed := observed + {ts};
    }

    /** `export`: tick once and bundle the snapshot with the pid. */
    method Export() returns (bundle: ExportBundle)
      requires Valid()
      modifies this
      ensures Valid()
      ensures clocks == old(clocks)[pid := Get(old(clocks), pid) + 1]
      ensures bundle == ExportBundle(pid, Timestamp(clocks))
      ensures forall t :: t in old(issued) || t in old(observed) ==> Less(t, bundle.ts)
      ensures issued == old(issued) + {bundle.ts} && observed == old(observed)
    {
      var t := GetTime();
      bundle := ExportBundle(pid, t);
    }

    /** `create_from_export`: a new clock with the bundle's pid whose
        frontier is the bundle's timestamp merged into an empty one, so its
        first tick exceeds that timestamp. */
    static method CreateFromExport(bundle: ExportBundle) returns (c: VectorClock)
      ensures fresh(c) && c.Valid()
      ensures c.pid == bundle.pid && c.clocks == Merge(map[], bundle.ts.entries)
      ensures c.issued == {} && c.observed == {bundle.ts}
    {
      c := new VectorClock(bundle.pid);
      c.SeenTime(bundle.ts);
    }
  }

}
