/**
 The audio buffer that grows when the device keeps running dry and shrinks again after a quiet time.
 Each level doubles the period. The device's own period is taken as fixed, times are milliseconds.
 */
module AdaptiveBuffer {
  import opened Basics

  const MAX_PERIOD: nat := 1024
  const XRUN_WINDOW: nat := 30_000
  const STARTUP_GRACE: nat := 60_000
  const SHIFT_GRACE: nat := 10_000
  const QUIET: nat := 30_000
  const BUSY_QUIET: nat := 60_000
  const RETRY_WINDOW: nat := 600_000
  const BACKOFF: seq<nat> := [0, 300_000, 600_000, 900_000]
  const XRUNS: nat := 5

  function Most(a: nat, b: nat): nat {
    if a > b then a else b
  }

  // ------------------------------------------------------------------------------------------
  // Periods.

  function Power(n: nat): (r: nat)
    ensures r > 0
  {
    if n == 0 then 1 else 2 * Power(n - 1)
  }

  /** The period at a level. */
  function Period(base: nat, level: nat): nat {
    Least(1024, base * Power(level))
  }

  /** How often the period has to be doubled until it is the longest. */
  function Doublings(frames: nat): nat
    requires frames > 0
    decreases MAX_PERIOD - frames
  {
    if frames >= MAX_PERIOD then 0 else 1 + Doublings(2 * frames)
  }

  function MaxLevelOf(base: nat): nat {
    if base == 0 then 0 else Doublings(base)
  }

  lemma {:induction false} TwiceTheBase(base: nat, level: nat)
    ensures base * Power(level + 1) == (2 * base) * Power(level) == 2 * (base * Power(level))
  {
    var p := Power(level);
    assert base * (2 * p) == (2 * base) * p == 2 * (base * p);
  }

  /** Up to the top level each level has a longer period than the one before, and at the top it is the longest. */
  lemma {:induction false} LevelsGrow(base: nat, level: nat)
    requires base > 0
    ensures level >= MaxLevelOf(base) <==> Period(base, level) == 1024
    ensures level < MaxLevelOf(base) ==> Period(base, level) < Period(base, level + 1)
    decreases level
  {
    TwiceTheBase(base, level);
    if level == 0 {
    } else if base < MAX_PERIOD {
      TwiceTheBase(base, level - 1);
      LevelsGrow(2 * base, level - 1);
    } else {
      AtLeast(base, Power(level));
    }
  }

  lemma AtLeast(a: nat, b: nat)
    requires b > 0
    ensures a * b >= a
  {
    assert a * b == a * (b - 1) + a;
  }

  method TargetPeriodFrames(base: nat, level: nat) returns (frames: nat)
    ensures frames == Period(base, level)
  {
    frames := base;
    var i := 0;
    while i < level && frames < MAX_PERIOD
      invariant i <= level
      invariant if frames < MAX_PERIOD then frames == base * Power(i) else base * Power(i) >= MAX_PERIOD
      decreases level - i
    {
      TwiceTheBase(base, i);
      frames := if frames > MAX_PERIOD / 2 then MAX_PERIOD else frames * 2;
      i := i + 1;
    }
    PowerGrows(base, i, level);
    frames := if frames > MAX_PERIOD then MAX_PERIOD else frames;
  }

  lemma {:induction false} PowerGrows(base: nat, i: nat, level: nat)
    requires i <= level
    ensures base * Power(i) <= base * Power(level)
    decreases level
  {
    if i < level {
      TwiceTheBase(base, level - 1);
      PowerGrows(base, i, level - 1);
    }
  }

  method MaxLevel(base: nat) returns (count: nat)
    ensures count == MaxLevelOf(base)
  {
    if base == 0 || base >= MAX_PERIOD {
      return 0;
    }
    var frames := base;
    count := 0;
    while frames < MAX_PERIOD
      invariant 0 < frames && Doublings(base) == count + Doublings(frames)
      decreases MAX_PERIOD - frames
    {
      frames := if frames > MAX_PERIOD / 2 then MAX_PERIOD else frames * 2;
      count := count + 1;
    }
  }

  // ------------------------------------------------------------------------------------------
  // The controller.

  /** A change of the level: when, and what it is afterwards. */
  datatype Change = Change(time: nat, level: nat)

  /** One change after another: by one level, 10 seconds apart, and 30 seconds before a step down. */
  predicate Follows(earlier: Change, later: Change) {
    || (later.level == earlier.level + 1 && later.time >= earlier.time + 10_000)
    || (later.level == earlier.level - 1 && later.time >= earlier.time + 30_000)
  }

  /** However many changes there are, they are 10 seconds apart each, and the level is never off by more than their number. */
  lemma {:induction false} ChangesApart(changes: seq<Change>, i: nat, j: nat)
    requires i <= j < |changes| && forall k :: 0 <= k < |changes| - 1 ==> Follows(changes[k], changes[k + 1])
    ensures changes[j].time >= changes[i].time + (j - i) * 10_000
    ensures changes[i].level - (j - i) <= changes[j].level <= changes[i].level + (j - i)
    decreases j - i
  {
    if i < j {
      ChangesApart(changes, i, j - 1);
    }
  }

  predicate InWindow(time: nat, now: nat) {
    time != 0 && time <= now && now - time <= XRUN_WINDOW
  }

  /** The last five of these times are within the last half minute. */
  predicate FiveRecent(times: seq<nat>, now: nat) {
    |times| >= 5 && forall k :: |times| - 5 <= k < |times| ==> 0 < times[k] <= now && now - times[k] <= 30_000
  }

  /** How long it has to be quiet before a step down: longer after a burst, and after steps down that did not last. */
  function QuietNeeded(failures: nat, busy: bool): nat
  {
    if failures > 0 then 300_000 * failures else if busy then 60_000 else 30_000
  }

  lemma QuietIs(failures: nat, busy: bool)
    requires failures < |BACKOFF|
    ensures Most(if busy then BUSY_QUIET else QUIET, BACKOFF[failures]) == QuietNeeded(failures, busy)
  {
  }

  /** Among five in a row, one goes to each place. */
  lemma Slot(first: nat, j: nat) returns (k: nat)
    requires j < XRUNS
    ensures first <= k < first + XRUNS && k % XRUNS == j
  {
    var q, r := first / XRUNS, first % XRUNS;
    k := if r <= j then XRUNS * q + j else XRUNS * (q + 1) + j;
  }

  /** A ring of five that holds the last five of some times is full of recent ones when they are recent. */
  lemma RingIsRecent(since: seq<nat>, times: seq<nat>, now: nat)
    requires |times| == XRUNS
    requires forall k :: 0 <= k < |since| && |since| - XRUNS <= k ==> times[k % XRUNS] == since[k]
    requires forall k :: |since| <= k < XRUNS ==> times[k] == 0
    ensures FiveRecent(since, now) <==> forall j :: 0 <= j < XRUNS ==> InWindow(times[j], now)
  {
    var n := |since|;
    if n >= XRUNS {
      if FiveRecent(since, now) {
        forall j | 0 <= j < XRUNS
          ensures InWindow(times[j], now)
        {
          var k := Slot(n - XRUNS, j);
          assert times[k % XRUNS] == since[k];
        }
      }
    } else {
      assert times[n] == 0;
    }
  }

  lemma OtherSlot(a: nat, b: nat)
    requires a < b < a + XRUNS
    ensures a % XRUNS != b % XRUNS
  {
  }

  class Controller {
    const base: nat
    const started: nat
    const times: array<nat>
    var graceUntil: nat
    var level: nat
    var index: nat
    var pendingFrom: nat
    var burst: nat
    var failures: nat
    var lastXrunAt: nat
    var lastDownAt: nat
    var hasXrun: bool

    /** The underruns that have been counted since the buffer was last set up, and all changes of the level. */
    ghost var since: seq<nat>
    ghost var changes: seq<Change>

    /** The latest time at which anything has been called; the clock is monotonic. */
    ghost var clock: nat

    /** The array holds the last five of them. */
    ghost predicate Rings()
      reads this, times
    {
      && times.Length == XRUNS && index == |since|
      && (forall k :: 0 <= k < |since| ==> since[k] > 0)
      && (forall k :: 0 <= k < |since| && |since| - XRUNS <= k ==> times[k % XRUNS] == since[k])
      && (forall k :: |since| <= k < XRUNS ==> times[k] == 0)
    }

    /** The level stays within its bounds and all changes so far have followed each other as they should. */
    ghost predicate Changed()
      reads this, times
    {
      && Rings()
      && 0 <= level <= MaxLevelOf(base) && failures < |BACKOFF| && graceUntil >= started + STARTUP_GRACE
      && changes != [] && changes[0] == Change(started, 0)
      && changes[|changes| - 1].level == level && clock >= changes[|changes| - 1].time
      && forall k :: 0 <= k < |changes| - 1 ==> Follows(changes[k], changes[k + 1])
    }

    ghost predicate Valid()
      reads this, times
    {
      && Changed()
      && graceUntil >= changes[|changes| - 1].time + SHIFT_GRACE
      && (hasXrun ==> lastXrunAt >= changes[|changes| - 1].time)
    }

    constructor (base: nat, started: nat)
      ensures Valid() && fresh(times) && level == 0 && graceUntil == started + 60_000 && changes == [Change(started, 0)] && this.base == base
    {
      this.base, this.started := base, started;
      times := new nat[XRUNS](_ => 0);
      graceUntil, level, index, pendingFrom := started + STARTUP_GRACE, 0, 0, 0;
      burst, failures, lastXrunAt, lastDownAt, hasXrun := 0, 0, 0, 0, false;
      since, changes, clock := [], [Change(started, 0)], started;
    }

    /** The device has been set up anew: no change for a while, and the counting starts over. */
    method BufferChanged(now: nat)
      requires Changed() && now >= clock
      modifies this`graceUntil, this`lastXrunAt, this`index, this`since, this`clock, times
      ensures Valid() && since == [] && clock == now
      ensures graceUntil == Most(old(graceUntil), now + 10_000) && lastXrunAt == now
    {
      graceUntil := Most(graceUntil, now + SHIFT_GRACE);
      lastXrunAt := now;
      clock := now;
      index := 0;
      for i := 0 to times.Length
        modifies times
        invariant forall k :: 0 <= k < i ==> times[k] == 0
      {
        times[i] := 0;
      }
      since := [];
    }

    /** How many of the last five underruns are recent. */
    method CountRecent(now: nat) returns (recent: nat)
      requires Rings()
      ensures recent <= XRUNS && (recent == XRUNS <==> FiveRecent(since, now))
    {
      recent := 0;
      for i := 0 to times.Length
        invariant recent <= i && (recent == i <==> forall k :: 0 <= k < i ==> InWindow(times[k], now))
      {
        if InWindow(times[i], now) {
          recent := recent + 1;
        }
      }
      RingIsRecent(since, times[..], now);
    }

    /** Takes an underrun into the ring. */
    method Count(now: nat) returns (recent: nat)
      requires Valid() && now >= clock && now >= graceUntil
      modifies this`lastXrunAt, this`hasXrun, this`index, this`since, this`burst, this`clock, times
      ensures Valid() && clock == now && since == old(since) + [now] && hasXrun && lastXrunAt == now
      ensures recent == burst <= XRUNS && (burst == XRUNS <==> FiveRecent(since, now))
    {
      lastXrunAt, hasXrun, clock := now, true, now;
      ghost var before := since;
      times[index % XRUNS] := now;
      index, since := index + 1, since + [now];
      forall k | 0 <= k < |since| && |since| - XRUNS <= k
        ensures times[k % XRUNS] == since[k]
      {
        if k < |before| {
          OtherSlot(k, |before|);
        }
      }
      forall k | |since| <= k < XRUNS
        ensures times[k] == 0
      {
        OtherSlot(|before|, k);
      }
      recent := CountRecent(now);
      burst := recent;
    }

    /** One level up. */
    method Raise(now: nat)
      requires Valid() && now >= clock && now >= graceUntil && level < MaxLevelOf(base)
      modifies this`level, this`changes, this`pendingFrom, this`failures, this`graceUntil, this`lastXrunAt, this`index, this`since, this`clock, times
      ensures Valid() && clock == now && since == [] && pendingFrom == 0 && lastXrunAt == now && graceUntil == now + 10_000
      ensures level == old(level) + 1 && changes == old(changes) + [Change(now, level)]
      ensures failures == if old(pendingFrom) == level && now >= lastDownAt && now - lastDownAt <= 600_000
                          then Least(old(failures) + 1, 3) else old(failures)
    {
      hide FiveRecent;
      clock := now;
      level := level + 1;
      changes := changes + [Change(now, level)];
      if pendingFrom == level && now >= lastDownAt && now - lastDownAt <= RETRY_WINDOW {
        if failures < 3 {
          failures := failures + 1;
        }
      }
      pendingFrom := 0;
      BufferChanged(now);
    }

    /**
     An underrun of the device. During a grace time it is ignored. Otherwise it counts, and the level
     rises exactly when it is the fifth within half a minute and there is a level to rise to; a rise
     back to the level that was given up less than ten minutes ago makes the next step down wait longer.
     */
    method RecordXrun(now: nat) returns (raised: bool)
      requires Valid() && now >= clock
      modifies this, times
      ensures Valid() && clock == now && unchanged(`lastDownAt)
      ensures raised <==> now >= old(graceUntil) && FiveRecent(old(since) + [now], now) && old(level) < MaxLevelOf(base)
      ensures raised ==> level == old(level) + 1 && changes == old(changes) + [Change(now, level)]
      ensures raised ==> since == [] && pendingFrom == 0 && graceUntil == now + 10_000
      ensures raised ==> failures == if old(pendingFrom) == level && now >= lastDownAt && now - lastDownAt <= 600_000
                                     then Least(old(failures) + 1, 3) else old(failures)
      ensures !raised ==> level == old(level) && changes == old(changes) && unchanged(`pendingFrom, `failures, `graceUntil)
      ensures !raised ==> since == old(since) + if now >= old(graceUntil) then [now] else []
      ensures now >= old(graceUntil) ==> hasXrun && lastXrunAt == now && (burst >= 5 <==> FiveRecent(old(since) + [now], now))
      ensures now < old(graceUntil) ==> unchanged(`hasXrun, `lastXrunAt, `burst)
    {
      hide FiveRecent, MaxLevelOf, Follows;
      raised := false;
      clock := now;
      if now < graceUntil {
        return;
      }
      var recent := Count(now);
      if recent < XRUNS || level >= MaxLevelOf(base) {
        return;
      }
      Raise(now);
      raised := true;
    }

    /** One level down. */
    method Lower(now: nat)
      requires Valid() && now >= clock && level > 0 && hasXrun && now >= graceUntil && now >= lastXrunAt + QUIET
      modifies this`level, this`changes, this`pendingFrom, this`burst, this`lastDownAt, this`graceUntil, this`lastXrunAt, this`index, this`since, this`clock, times
      ensures Valid() && clock == now && since == [] && burst == 0 && lastDownAt == lastXrunAt == now && graceUntil == now + 10_000
      ensures level == old(level) - 1 && changes == old(changes) + [Change(now, level)] && pendingFrom == old(level)
    {
      hide FiveRecent, MaxLevelOf;
      clock := now;
      level := level - 1;
      changes := changes + [Change(now, level)];
      pendingFrom := level + 1;
      lastDownAt, lastXrunAt, burst := now, now, 0;
      BufferChanged(now);
    }

    /** Time goes by. The level falls exactly when it has been quiet for long enough. */
    method Tick(now: nat) returns (lowered: bool)
      requires Valid() && now >= clock
      modifies this, times
      ensures Valid() && clock == now && unchanged(`failures, `hasXrun)
      ensures lowered <==> old(level) > 0 && hasXrun && now >= old(graceUntil) && now >= old(lastXrunAt)
                           && now - old(lastXrunAt) >= QuietNeeded(failures, old(burst) >= 5)
      ensures lowered ==> level == old(level) - 1 && changes == old(changes) + [Change(now, level)]
      ensures lowered ==> since == [] && burst == 0 && pendingFrom == old(level) && lastDownAt == lastXrunAt == now
      ensures lowered ==> graceUntil == now + 10_000
      ensures !lowered ==> level == old(level) && changes == old(changes) && since == old(since)
      ensures !lowered ==> unchanged(`graceUntil, `burst, `pendingFrom, `lastXrunAt, `lastDownAt)
    {
      hide FiveRecent, MaxLevelOf, Follows;
      lowered := false;
      clock := now;
      if level == 0 || !hasXrun || now < graceUntil || now < lastXrunAt {
        return;
      }
      var quiet := if burst >= XRUNS then BUSY_QUIET else QUIET;
      QuietIs(failures, burst >= XRUNS);
      if now - lastXrunAt < Most(quiet, BACKOFF[failures]) {
        return;
      }
      Lower(now);
      lowered := true;
    }
  }
}
