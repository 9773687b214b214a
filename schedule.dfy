/** What the two calculations produce, as values: for each cycle count a
    candidate instant, the count and the recommended flag. The imperative
    calculations in module App are proved to build exactly these lists. */
module Schedule {
  import opened Config
  import opened Clock

  /** One candidate as a value: its instant in minutes on the local clock. */
  datatype Slot = Slot(time: int, cycles: int, recommended: bool)

  /** The recommended window is fixed at five or six cycles; no setting
      moves it. */
  predicate IsRecommended(cycles: int) {
    5 <= cycles <= 6
  }

  /** Minutes between lying down and waking after `cycles` cycles. */
  function Offset(s: Settings, cycles: int): int {
    cycles * s.cycleLength + s.sleepLatency
  }

  function Max0(n: int): nat {
    if n < 0 then 0 else n
  }

  /** Bedtimes for the cycle counts `top`, `top - 1`, ..., 1, in that order. */
  function BedtimesFrom(wake: int, s: Settings, top: int): (r: seq<Slot>)
    ensures |r| == Max0(top)
    ensures forall i :: 0 <= i < |r| ==> r[i].cycles == top - i
    decreases top
  {
    if top < 1 then []
    else [Slot(wake - Offset(s, top), top, IsRecommended(top))] + BedtimesFrom(wake, s, top - 1)
  }

  /** `calculateBedtimes` for wake-up instant `wake`. */
  function Bedtimes(wake: int, s: Settings): seq<Slot> {
    BedtimesFrom(wake, s, s.numOptions)
  }

  /** Wake times for the cycle counts 1, 2, ..., `top`, in that order. */
  function WakeTimesUpTo(bed: int, s: Settings, top: int): (r: seq<Slot>)
    ensures |r| == Max0(top)
    ensures forall i :: 0 <= i < |r| ==> r[i].cycles == i + 1
    decreases top
  {
    if top < 1 then []
    else WakeTimesUpTo(bed, s, top - 1) + [Slot(bed + Offset(s, top), top, IsRecommended(top))]
  }

  /** `calculateWakeTimes` for bedtime instant `bed`. */
  function WakeTimes(bed: int, s: Settings): seq<Slot> {
    WakeTimesUpTo(bed, s, s.numOptions)
  }

  lemma {:induction false} BedtimesFromAt(wake: int, s: Settings, top: int, i: int)
    requires 0 <= i < Max0(top)
    ensures BedtimesFrom(wake, s, top)[i]
         == Slot(wake - Offset(s, top - i), top - i, IsRecommended(top - i))
    decreases top
  {
    if i > 0 {
      BedtimesFromAt(wake, s, top - 1, i - 1);
    }
  }

  lemma {:induction false} WakeTimesUpToAt(bed: int, s: Settings, top: int, i: int)
    requires 0 <= i < Max0(top)
    ensures WakeTimesUpTo(bed, s, top)[i]
         == Slot(bed + Offset(s, i + 1), i + 1, IsRecommended(i + 1))
    decreases top
  {
    if i < top - 1 {
      WakeTimesUpToAt(bed, s, top - 1, i);
    }
  }

  /** `calculateBedtimes` yields one candidate per cycle count from
      `numOptions` down to 1 (none when `numOptions` is below 1); the
      candidate for `c` cycles lies `c * cycleLength + sleepLatency` minutes
      before the wake-up time and is recommended exactly for 5 or 6 cycles. */
  lemma BedtimesShape(wake: int, s: Settings)
    ensures |Bedtimes(wake, s)| == Max0(s.numOptions)
    ensures forall i :: 0 <= i < |Bedtimes(wake, s)| ==>
      var c := s.numOptions - i;
      Bedtimes(wake, s)[i] == Slot(wake - (c * s.cycleLength + s.sleepLatency), c, 5 <= c <= 6)
  {
    forall i | 0 <= i < |Bedtimes(wake, s)|
      ensures var c := s.numOptions - i;
        Bedtimes(wake, s)[i] == Slot(wake - (c * s.cycleLength + s.sleepLatency), c, 5 <= c <= 6)
    {
      BedtimesFromAt(wake, s, s.numOptions, i);
    }
  }

  /** `calculateWakeTimes` yields one candidate per cycle count from 1 up to
      `numOptions`; the candidate for `c` cycles lies
      `c * cycleLength + sleepLatency` minutes after the bedtime. */
  lemma WakeTimesShape(bed: int, s: Settings)
    ensures |WakeTimes(bed, s)| == Max0(s.numOptions)
    ensures forall i :: 0 <= i < |WakeTimes(bed, s)| ==>
      var c := i + 1;
      WakeTimes(bed, s)[i] == Slot(bed + (c * s.cycleLength + s.sleepLatency), c, 5 <= c <= 6)
  {
    forall i | 0 <= i < |WakeTimes(bed, s)|
      ensures var c := i + 1;
        WakeTimes(bed, s)[i] == Slot(bed + (c * s.cycleLength + s.sleepLatency), c, 5 <= c <= 6)
    {
      WakeTimesUpToAt(bed, s, s.numOptions, i);
    }
  }

  /** Both directions list the same cycle counts in opposite orders, with
      the same recommended flags. */
  lemma MirroredCycles(wake: int, bed: int, s: Settings, i: int)
    requires 0 <= i < Max0(s.numOptions)
    ensures Bedtimes(wake, s)[i].cycles == WakeTimes(bed, s)[s.numOptions - 1 - i].cycles
    ensures Bedtimes(wake, s)[i].recommended == WakeTimes(bed, s)[s.numOptions - 1 - i].recommended
  {
    BedtimesFromAt(wake, s, s.numOptions, i);
    WakeTimesUpToAt(bed, s, s.numOptions, s.numOptions - 1 - i);
  }

  /** Candidates further along either list are `cycleLength` minutes apart
      per step: later in the list means later on the clock when cycles are
      positive, and the reverse when `cycleLength` is negative. */
  lemma {:induction false} CandidateSpacing(wake: int, bed: int, s: Settings, i: int, j: int)
    requires 0 <= i <= j < Max0(s.numOptions)
    ensures Bedtimes(wake, s)[j].time - Bedtimes(wake, s)[i].time == (j - i) * s.cycleLength
    ensures WakeTimes(bed, s)[j].time - WakeTimes(bed, s)[i].time == (j - i) * s.cycleLength
  {
    var n, L := s.numOptions, s.cycleLength;
    BedtimesFromAt(wake, s, n, i);
    BedtimesFromAt(wake, s, n, j);
    WakeTimesUpToAt(bed, s, n, i);
    WakeTimesUpToAt(bed, s, n, j);
    assert (n - i) * L - (n - j) * L == (j - i) * L;
    assert (j + 1) * L - (i + 1) * L == (j - i) * L;
  }

  /** With positive cycles both lists run from the earliest instant to the
      latest: for bedtimes the earliest bedtime comes first, for wake times
      the earliest wake time. */
  lemma StrictlyIncreasing(wake: int, bed: int, s: Settings, i: int, j: int)
    requires s.cycleLength > 0
    requires 0 <= i < j < Max0(s.numOptions)
    ensures Bedtimes(wake, s)[i].time < Bedtimes(wake, s)[j].time
    ensures WakeTimes(bed, s)[i].time < WakeTimes(bed, s)[j].time
  {
    CandidateSpacing(wake, bed, s, i, j);
    PositiveSteps(j - i, s.cycleLength);
  }

  lemma PositiveSteps(steps: int, length: int)
    requires steps >= 1 && length > 0
    ensures steps * length > 0
  {
  }

  /** Feeding the bedtime suggested for `c` cycles back as a bedtime gives,
      at `c` cycles, exactly the original wake-up time. */
  lemma BedtimeThenWakeTime(wake: int, s: Settings, i: int)
    requires 0 <= i < Max0(s.numOptions)
    ensures var b := Bedtimes(wake, s)[i];
      1 <= b.cycles <= s.numOptions &&
      WakeTimes(b.time, s)[b.cycles - 1] == Slot(wake, b.cycles, b.recommended)
  {
    var b := Bedtimes(wake, s)[i];
    BedtimesFromAt(wake, s, s.numOptions, i);
    WakeTimesUpToAt(b.time, s, s.numOptions, b.cycles - 1);
  }

  /** And the other way: the wake time suggested for `c` cycles, fed back as
      a wake-up time, gives the original bedtime at `c` cycles. */
  lemma WakeTimeThenBedtime(bed: int, s: Settings, i: int)
    requires 0 <= i < Max0(s.numOptions)
    ensures var w := WakeTimes(bed, s)[i];
      1 <= w.cycles <= s.numOptions &&
      Bedtimes(w.time, s)[s.numOptions - w.cycles] == Slot(bed, w.cycles, w.recommended)
  {
    var w := WakeTimes(bed, s)[i];
    WakeTimesUpToAt(bed, s, s.numOptions, i);
    BedtimesFromAt(w.time, s, s.numOptions, s.numOptions - w.cycles);
  }

  /** How many candidates of a list carry the recommended flag. */
  function CountRecommended(slots: seq<Slot>): nat {
    if slots == [] then 0
    else CountRecommended(slots[..|slots| - 1]) + (if slots[|slots| - 1].recommended then 1 else 0)
  }

  lemma {:induction false} CountRecommendedAppend(a: seq<Slot>, b: seq<Slot>)
    ensures CountRecommended(a + b) == CountRecommended(a) + CountRecommended(b)
    decreases |b|
  {
    if b != [] {
      var b' := b[..|b| - 1];
      assert (a + b)[..|a + b| - 1] == a + b';
      assert (a + b)[|a + b| - 1] == b[|b| - 1];
      CountRecommendedAppend(a, b');
    } else {
      assert a + b == a;
    }
  }

  /** The number of cycle counts among 1..top in the window 5..6. */
  function WindowHits(top: int): nat {
    if top >= 6 then 2 else if top == 5 then 1 else 0
  }

  lemma {:induction false} BedtimesFromCount(wake: int, s: Settings, top: int)
    ensures CountRecommended(BedtimesFrom(wake, s, top)) == WindowHits(top)
    decreases top
  {
    if top >= 1 {
      var head := [Slot(wake - Offset(s, top), top, IsRecommended(top))];
      BedtimesFromCount(wake, s, top - 1);
      CountRecommendedAppend(head, BedtimesFrom(wake, s, top - 1));
      assert head[..0] == [];
    }
  }

  lemma {:induction false} WakeTimesUpToCount(bed: int, s: Settings, top: int)
    ensures CountRecommended(WakeTimesUpTo(bed, s, top)) == WindowHits(top)
    decreases top
  {
    if top >= 1 {
      var r := WakeTimesUpTo(bed, s, top);
      assert r[..|r| - 1] == WakeTimesUpTo(bed, s, top - 1);
      WakeTimesUpToCount(bed, s, top - 1);
    }
  }

  /** Whatever the cycle length, latency or anchor, each list recommends two
      candidates when there are at least six options, one when there are
      exactly five, and none below five. */
  lemma RecommendedCount(wake: int, bed: int, s: Settings)
    ensures CountRecommended(Bedtimes(wake, s)) == WindowHits(s.numOptions)
    ensures CountRecommended(WakeTimes(bed, s)) == WindowHits(s.numOptions)
  {
    BedtimesFromCount(wake, s, s.numOptions);
    WakeTimesUpToCount(bed, s, s.numOptions);
  }

  /** Below five options no candidate is recommended in either direction. */
  lemma NoneRecommendedBelowFive(wake: int, bed: int, s: Settings)
    requires s.numOptions < 5
    ensures forall i :: 0 <= i < |Bedtimes(wake, s)| ==> !Bedtimes(wake, s)[i].recommended
    ensures forall i :: 0 <= i < |WakeTimes(bed, s)| ==> !WakeTimes(bed, s)[i].recommended
  {
    BedtimesShape(wake, s);
    WakeTimesShape(bed, s);
  }

  /** Waking at 07:00 with three options of 90-minute cycles and 15 minutes
      to fall asleep: bedtimes 285, 195 and 105 minutes earlier (02:15, 03:45
      and 05:15), none recommended. */
  lemma WakeAtSevenThreeOptions()
    ensures var r := Bedtimes(7 * MinutesPerHour, Defaults().(numOptions := 3));
      r == [Slot(2 * MinutesPerHour + 15, 3, false), Slot(3 * MinutesPerHour + 45, 2, false),
            Slot(5 * MinutesPerHour + 15, 1, false)] &&
      CountRecommended(r) == 0
  {
    BedtimesShape(7 * MinutesPerHour, Defaults().(numOptions := 3));
    BedtimesFromCount(7 * MinutesPerHour, Defaults().(numOptions := 3), 3);
  }

  /** With the default settings the two recommended bedtimes for a 07:00
      wake-up fall on the previous evening, at 21:45 and 23:15. */
  lemma WakeAtSevenDefaults()
    ensures var r := Bedtimes(7 * MinutesPerHour, Defaults());
      |r| == 10 &&
      r[4].cycles == 6 && r[4].recommended && r[4].time == -MinutesPerDay + 21 * MinutesPerHour + 45 &&
      r[5].cycles == 5 && r[5].recommended && r[5].time == -MinutesPerDay + 23 * MinutesPerHour + 15
  {
    BedtimesShape(7 * MinutesPerHour, Defaults());
  }
}
