/** The bridge's pacer: the next release is due one interval after the last one actually happened. */
module BridgePacing {
  /** k + 1 consecutive releases span at least k intervals. */
  ghost predicate Spaced(releases: seq<int>, interval: nat) {
    forall i, j :: 0 <= i < j < |releases| ==> releases[j] - releases[i] >= (j - i) * interval
  }

  /** The stored deadline is exactly one interval after the last release. */
  ghost predicate PaceOk(releases: seq<int>, nextAt: int, interval: nat) {
    && Spaced(releases, interval)
    && (releases != [] ==> nextAt == releases[|releases| - 1] + interval)
  }

  lemma {:induction false} ReleaseKeeps(releases: seq<int>, nextAt: int, interval: nat, now: int)
    requires PaceOk(releases, nextAt, interval) && now >= nextAt
    ensures PaceOk(releases + [now],
                   if nextAt + interval > now + interval then nextAt + interval else now + interval, interval)
  {
    var n, more := |releases|, releases + [now];
    forall i, j | 0 <= i < j < |more| ensures more[j] - more[i] >= (j - i) * interval {
      if j == n {
        assert i < n - 1 ==> releases[n - 1] - releases[i] >= (n - 1 - i) * interval;
        assert (n - 1 - i) * interval + interval == (n - i) * interval;
      }
    }
  }

  function IntervalOf(packetMillis: nat): (interval: nat)
    ensures interval >= 1000 * packetMillis && interval >= 5000
    ensures interval == 1000 * packetMillis || interval == 5000
  {
    if packetMillis < 5 then 5000 else 1000 * packetMillis
  }

  /** Releases an interval apart are a packet length apart. */
  lemma {:induction false} SpacedByPackets(releases: seq<int>, packetMillis: nat)
    requires Spaced(releases, IntervalOf(packetMillis))
    ensures forall i, j :: 0 <= i < j < |releases| ==> releases[j] - releases[i] >= (j - i) * (1000 * packetMillis)
  {
    forall i, j | 0 <= i < j < |releases| ensures releases[j] - releases[i] >= (j - i) * (1000 * packetMillis) {
      MoreOften(j - i, 1000 * packetMillis, IntervalOf(packetMillis));
    }
  }

  lemma PacedByPackets(releases: seq<int>, nextAt: int, packetMillis: nat)
    requires PaceOk(releases, nextAt, IntervalOf(packetMillis))
    ensures forall i, j :: 0 <= i < j < |releases| ==> releases[j] - releases[i] >= (j - i) * (1000 * packetMillis)
  {
    SpacedByPackets(releases, packetMillis);
  }

  lemma MoreOften(k: nat, less: nat, more: nat)
    requires less <= more
    ensures k * less <= k * more
  {
  }

  class Pacer {
    const interval: nat
    var clock: int
    var nextAt: int
    var sleeps: nat
    ghost var releases: seq<int>   // since the last reset

    ghost predicate Valid()
      reads this`releases, this`nextAt
    {
      PaceOk(releases, nextAt, interval)
    }

    /**
     One release per packet length, but never more often than every five milliseconds.  The deadline starts at 0, so the
     first release is held back only by a clock still before it.
     */
    constructor (now: int, packetMillis: nat)
      ensures Valid() && clock == now && nextAt == 0 && releases == []
      ensures interval == IntervalOf(packetMillis)
    {
      interval := if 1000 * packetMillis > 5000 then 1000 * packetMillis else 5000;
      clock, nextAt, sleeps, releases := now, 0, 0, [];
    }

    /** A monotonic clock reading. */
    method Monotonic() returns (now: int)
      modifies this`clock
      ensures now == clock >= old(clock)
    {
      now := clock;
    }

    /** Sleeping until `due` never ends early. */
    method SleepUntil(due: int) returns (woke: int)
      modifies this`clock
      ensures woke == clock >= due && clock >= old(clock)
    {
      clock := if due > clock then due else clock;
      woke := clock;
    }

    method Reset()
      modifies this
      ensures Valid() && releases == [] && nextAt == clock >= old(clock) && sleeps == old(sleeps)
    {
      nextAt := Monotonic();
      releases := [];
    }

    /** Never early: a release waits for its deadline, and sets the next one an interval later. */
    method PaceInterval()
      requires Valid()
      modifies this
      ensures Valid() && clock >= old(clock)
      ensures releases == old(releases) + [clock] && clock >= old(nextAt) && nextAt == clock + interval
      ensures sleeps >= old(sleeps)
    {
      var now := Monotonic();
      var due := nextAt;
      if due > now {
        now := SleepUntil(due);
        sleeps := sleeps + 1;
      }
      ReleaseKeeps(releases, due, interval, now);
      nextAt := if due + interval > now + interval then due + interval else now + interval;
      releases := releases + [now];
    }
  }
}
