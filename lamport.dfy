/**
  Lamport (scalar) logical time: one counter per process, tagged with the
  process identity so that timestamps of different processes are still
  totally ordered.
 */
module Lamport {
  import opened ClockBase

  /** `_LamportTimeStamp`. The counter comes first and the process id second,
      which is what makes the derived order compare counters first. */
  datatype Timestamp = Timestamp(counter: int, pid: PID)

  /** `_LamportExport`: the owner's identity and a fresh timestamp. */
  datatype ExportBundle = ExportBundle(pid: PID, ts: Timestamp)

  /** The `<` that an ordered dataclass derives: tuple order on
      (counter, pid), that is, counters first, process ids as tie-break. */
  predicate Less(a: Timestamp, b: Timestamp)
  {
    a.counter < b.counter || (a.counter == b.counter && a.pid < b.pid)
  }

  /** The derived order is a strict total order: any two distinct timestamps,
      in particular any two with different process ids, are comparable one
      way and only one way. */
  lemma LessIsStrictTotalOrder(a: Timestamp, b: Timestamp, c: Timestamp)
    ensures !Less(a, a)
    ensures Less(a, b) ==> !Less(b, a)
    ensures Less(a, b) && Less(b, c) ==> Less(a, c)
    ensures a != b <==> Less(a, b) || Less(b, a)
    ensures a.pid != b.pid ==> a != b && (Less(a, b) || Less(b, a))
  {
  }

  /** The order refines the counters: a smaller timestamp never has a larger
      counter, and a larger counter always means a larger timestamp. */
  lemma LessFollowsCounters(a: Timestamp, b: Timestamp)
    ensures Less(a, b) ==> a.counter <= b.counter
    ensures a.counter < b.counter ==> Less(a, b)
  {
  }

  /** Observing is idempotent and order-insensitive: `seen_time` sets the
      counter to `Max(counter, ts.counter)` (see `LamportClock.SeenTime`), so
      seeing the same timestamp twice leaves the counter where seeing it once
      did, and seeing two timestamps in either order gives the same counter. */
  lemma ObserveIdempotentCommutes(counter: int, a: Timestamp, b: Timestamp)
    ensures Max(Max(counter, a.counter), a.counter) == Max(counter, a.counter)
    ensures Max(Max(counter, a.counter), b.counter) == Max(Max(counter, b.counter), a.counter)
  {
  }

  /** `LamportClock`. Besides the two fields of the Python class, the ghost
      sets `issued` and `observed` record every timestamp this clock has
      returned and every timestamp it has been shown; `Valid` says the counter has
      caught up with all of them, which is what makes the next tick exceed
      them all. */
  class LamportClock {
    const pid: PID
    var counter: nat
    ghost var issued: set<Timestamp>
    ghost var observed: set<Timestamp>

    ghost predicate Valid()
      reads this
    {
      && (forall t :: t in issued ==> t.counter <= counter)
      && (forall t :: t in observed ==> t.counter <= counter)
    }

    /** A new clock with the given identity; the counter starts at 0. */
    constructor (pid: PID)
      ensures Valid()
      ensures this.pid == pid && counter == 0
      ensures issued == {} && observed == {}
    {
      this.pid := pid;
      counter := 0;
      issued := {};
      observed := {};
    }

    /** `get_time`: advance the counter by one and return it with the pid.
        The result is strictly greater than every timestamp returned or
        observed before. */
    method GetTime() returns (r: Timestamp)
      requires Valid()
      modifies this
      ensures Valid()
      ensures counter == old(counter) + 1
      ensures r == Timestamp(counter, pid)
      ensures forall t :: t in old(issued) || t in old(observed) ==> Less(t, r)
      ensures issued == old(issued) + {r} && observed == old(observed)
    {
      counter := counter + 1;
      r := Timestamp(counter, pid);
      issued := issued + {r};
    }

    /** `seen_time`: catch the counter up with the observed timestamp. The
        pid is untouched and no tick happens. */
    method SeenTime(ts: Timestamp)
      requires Valid()
      modifies this
      ensures Valid()
      ensures counter == Max(old(counter), ts.counter)
      ensures issued == old(issued) && observed == old(observed) + {ts}
    {
      counter := Max(counter, ts.counter);
      observed := observed + {ts};
    }

    /** `export`: tick once and bundle the fresh timestamp with the pid. */
    method Export() returns (bundle: ExportBundle)
      requires Valid()
      modifies this
      ensures Valid()
      ensures counter == old(counter) + 1
      ensures bundle == ExportBundle(pid, Timestamp(counter, pid))
      ensures forall t :: t in old(issued) || t in old(observed) ==> Less(t, bundle.ts)
      ensures issued == old(issued) + {bundle.ts} && observed == old(observed)
    {
      var t := GetTime();
      bundle := ExportBundle(pid, t);
    }

    /** `create_from_export`: a new clock with the bundle's pid that has
        observed the bundle's timestamp, so its first tick exceeds it. */
    static method CreateFromExport(bundle: ExportBundle) returns (c: LamportClock)
      ensures fresh(c) && c.Valid()
      ensures c.pid == bundle.pid && c.counter == Max(0, bundle.ts.counter)
      ensures c.issued == {} && c.observed == {bundle.ts}
    {
      c := new LamportClock(bundle.pid);
      c.SeenTime(bundle.ts);
    }
  }
}
