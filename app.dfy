/** The `RimrodApp` object: its settings, its mode, the record it saves, and
    the two loops that build the candidate lists from a copied anchor. */
module App {
  import opened Clock
  import opened Config
  import opened Schedule

  /** `'wake'`: the anchor is a wake-up time and bedtimes are computed;
      `'sleep'`: the anchor is a bedtime and wake times are computed. */
  datatype Mode = Wake | Sleep

  /** One entry of a result list: its own `Date`, the cycle count and the
      recommended flag. */
  datatype Candidate = Candidate(time: Date, cycles: int, recommended: bool)

  /** Candidate `c` shows the value `slot`. */
  predicate Shows(c: Candidate, slot: Slot)
    reads c.time
  {
    c.time.minutes == slot.time && c.cycles == slot.cycles && c.recommended == slot.recommended
  }

  class RimrodApp {
    var mode: Mode
    var settings: Settings
    /** The parsed record under the storage key `rimrodSettings`. */
    var storage: map<string, JsValue>

    /** Starting up: wake mode and the settings loaded from what was saved. */
    constructor(saved: map<string, JsValue>)
      ensures mode == Wake && storage == saved && settings == LoadSettings(saved)
    {
      mode := Wake;
      settings := LoadSettings(saved);
      storage := saved;
    }

    /** `saveSettings(next)`: merge the update and write the whole record. */
    method SaveSettings(next: Patch)
      modifies this
      ensures settings == Merge(old(settings), next)
      ensures storage == Stored(settings)
      ensures mode == old(mode)
      ensures LoadSettings(storage)
           == if Truthy(Serialized(settings.theme)) then settings else settings.(theme := Str("system"))
    {
      settings := Merge(settings, next);
      storage := Stored(settings);
      LoadStored(settings);
    }

    /** The state change of `switchMode`. */
    method SwitchMode(m: Mode)
      modifies this
      ensures mode == m && settings == old(settings) && storage == old(storage)
    {
      mode := m;
    }

    /** `calculateBedtimes(wakeTime)`: for `numOptions` down to 1 cycles, a
        new `Date` copied from the wake-up time and moved back by the cycles
        and the latency. The anchor is only read: the method may modify
        nothing that existed before the call. */
    method CalculateBedtimes(wakeTime: Date) returns (results: seq<Candidate>)
      ensures unchanged(wakeTime)
      ensures |results| == |Bedtimes(wakeTime.minutes, settings)|
      ensures forall i :: 0 <= i < |results| ==> Shows(results[i], Bedtimes(wakeTime.minutes, settings)[i])
      ensures forall i :: 0 <= i < |results| ==> fresh(results[i].time)
      ensures forall i, j :: 0 <= i < j < |results| ==> results[i].time != results[j].time
    {
      results := [];
      var cycleMinutes := settings.cycleLength;
      var fallAsleepMinutes := settings.sleepLatency;
      var numOptions := settings.numOptions;
      var cycles := numOptions;
      while cycles >= 1
        invariant (if numOptions < 0 then numOptions else 0) <= cycles <= numOptions
        invariant |results| == numOptions - cycles
        invariant forall i :: 0 <= i < |results| ==>
          Shows(results[i], Slot(wakeTime.minutes - Offset(settings, numOptions - i), numOptions - i,
                                 IsRecommended(numOptions - i)))
        invariant forall i :: 0 <= i < |results| ==> fresh(results[i].time)
        invariant forall i, j :: 0 <= i < j < |results| ==> results[i].time != results[j].time
      {
        var bedtime := new Date.Copy(wakeTime);
        var totalMinutes := cycles * cycleMinutes + fallAsleepMinutes;
        bedtime.SetMinutes(bedtime.GetMinutes() - totalMinutes);
        results := results + [Candidate(bedtime, cycles, 5 <= cycles && cycles <= 6)];
        cycles := cycles - 1;
      }
      BedtimesShape(wakeTime.minutes, settings);
    }

    /** `calculateWakeTimes(bedtime)`: for 1 up to `numOptions` cycles, a new
        `Date` copied from the bedtime and moved forward by the cycles and
        the latency. */
    method CalculateWakeTimes(bedtime: Date) returns (results: seq<Candidate>)
      ensures unchanged(bedtime)
      ensures |results| == |WakeTimes(bedtime.minutes, settings)|
      ensures forall i :: 0 <= i < |results| ==> Shows(results[i], WakeTimes(bedtime.minutes, settings)[i])
      ensures forall i :: 0 <= i < |results| ==> fresh(results[i].time)
      ensures forall i, j :: 0 <= i < j < |results| ==> results[i].time != results[j].time
    {
      results := [];
      var cycleMinutes := settings.cycleLength;
      var fallAsleepMinutes := settings.sleepLatency;
      var numOptions := settings.numOptions;
      var cycles := 1;
      while cycles <= numOptions
        invariant 1 <= cycles <= Max0(numOptions) + 1
        invariant |results| == cycles - 1
        invariant forall i :: 0 <= i < |results| ==>
          Shows(results[i], Slot(bedtime.minutes + Offset(settings, i + 1), i + 1, IsRecommended(i + 1)))
        invariant forall i :: 0 <= i < |results| ==> fresh(results[i].time)
        invariant forall i, j :: 0 <= i < j < |results| ==> results[i].time != results[j].time
      {
        var wakeTime := new Date.Copy(bedtime);
        var totalMinutes := cycles * cycleMinutes + fallAsleepMinutes;
        wakeTime.SetMinutes(wakeTime.GetMinutes() + totalMinutes);
        results := results + [Candidate(wakeTime, cycles, 5 <= cycles && cycles <= 6)];
        cycles := cycles + 1;
      }
      WakeTimesShape(bedtime.minutes, settings);
    }

    /** The dispatch of `calculate` once the entered time has become the
        anchor: bedtimes in wake mode, wake times in sleep mode. */
    method Calculate(anchor: Date) returns (results: seq<Candidate>)
      ensures var expected := if mode == Wake then Bedtimes(anchor.minutes, settings)
                              else WakeTimes(anchor.minutes, settings);
        |results| == |expected| &&
        forall i :: 0 <= i < |results| ==> Shows(results[i], expected[i])
      ensures forall i :: 0 <= i < |results| ==> fresh(results[i].time)
      ensures unchanged(anchor)
    {
      if mode == Wake {
        results := CalculateBedtimes(anchor);
      } else {
        results := CalculateWakeTimes(anchor);
      }
    }
  }
}
