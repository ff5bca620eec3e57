/**
 The rule alarms' guards: an atomic compare-and-set on the last alarm state, and a counter
 that lets an alarm through only after enough consecutive ticks. Both live in expiring keys.
 */
module AlarmDedupe {
  import opened Wrappers

  // ---------------------------------------------------------------------------
  // State transitions
  // ---------------------------------------------------------------------------

  datatype Slot = Slot(state: string, until: int)

  predicate Holds(slot: Option<Slot>, state: string, now: int) {
    slot.Some? && now < slot.value.until && slot.value.state == state
  }

  /** The key afterwards, and whether the alarm may fire. An unchanged state keeps its old expiry. */
  function Transition(slot: Option<Slot>, state: string, now: int, ttl: int): (Option<Slot>, bool) {
    if Holds(slot, state, now) then (slot, false) else (Some(Slot(state, now + ttl)), true)
  }

  datatype Step = Try(state: string, at: int) | Clear

  function After(steps: seq<Step>, ttl: int): Option<Slot> {
    if steps == [] then None
    else
      match steps[|steps| - 1]
      case Try(state, at) => Transition(After(steps[..|steps| - 1], ttl), state, at, ttl).0
      case Clear => None
  }

  predicate Fires(steps: seq<Step>, k: nat, ttl: int)
    requires k < |steps|
  {
    steps[k].Try? && Transition(After(steps[..k], ttl), steps[k].state, steps[k].at, ttl).1
  }

  /** Step `i` fired, and no step between it and `k` fired or cleared. */
  ghost predicate LastWrite(steps: seq<Step>, i: nat, k: nat, ttl: int)
    requires k <= |steps|
  {
    i < k && Fires(steps, i, ttl) && forall j | i < j < k :: steps[j].Try? && !Fires(steps, j, ttl)
  }

  function Writer(steps: seq<Step>, k: nat, ttl: int): Option<nat>
    requires k <= |steps|
  {
    if k == 0 || steps[k - 1].Clear? then None
    else if Fires(steps, k - 1, ttl) then Some(k - 1)
    else Writer(steps, k - 1, ttl)
  }

  lemma {:induction false} WriterIsLastWrite(steps: seq<Step>, i: nat, k: nat, ttl: int)
    requires k <= |steps|
    ensures LastWrite(steps, i, k, ttl) <==> Writer(steps, k, ttl) == Some(i)
  {
    if k > 0 {
      WriterIsLastWrite(steps, i, k - 1, ttl);
      assert i < k - 1 ==>
          (LastWrite(steps, i, k, ttl) <==>
           LastWrite(steps, i, k - 1, ttl) && steps[k - 1].Try? && !Fires(steps, k - 1, ttl));
    }
  }

  /** The key holds what the last firing wrote, unless it was cleared since. */
  lemma {:induction false} SlotIsLastWrite(steps: seq<Step>, k: nat, ttl: int)
    requires k <= |steps|
    ensures var i := Writer(steps, k, ttl);
            if i.None? then After(steps[..k], ttl) == None
            else i.value < k && steps[i.value].Try?
                 && After(steps[..k], ttl) == Some(Slot(steps[i.value].state, steps[i.value].at + ttl))
  {
    if k > 0 {
      SlotIsLastWrite(steps, k - 1, ttl);
      assert steps[..k][..k - 1] == steps[..k - 1];
    }
  }

  /** An attempt fires unless the last firing, with no clear since, was of the same state less than a TTL ago. */
  lemma FiresUnlessRepeated(steps: seq<Step>, k: nat, ttl: int)
    requires k < |steps| && steps[k].Try?
    ensures Fires(steps, k, ttl) <==>
            forall i: nat | LastWrite(steps, i, k, ttl) ::
              steps[i].state != steps[k].state || steps[i].at + ttl <= steps[k].at
  {
    SlotIsLastWrite(steps, k, ttl);
    forall i: nat ensures LastWrite(steps, i, k, ttl) <==> Writer(steps, k, ttl) == Some(i) {
      WriterIsLastWrite(steps, i, k, ttl);
    }
  }

  function CountFired(slot: Option<Slot>, state: string, times: seq<int>, ttl: int): nat
    decreases |times|
  {
    if times == [] then 0
    else
      var (next, fired) := Transition(slot, state, times[0], ttl);
      (if fired then 1 else 0) + CountFired(next, state, times[1..], ttl)
  }

  /** Of any number of attempts at one state within a TTL exactly one fires. */
  lemma {:induction false} BurstFiresOnce(slot: Option<Slot>, state: string, times: seq<int>, ttl: int)
    requires times != [] && !Holds(slot, state, times[0])
    requires forall t <- times :: times[0] <= t < times[0] + ttl
    ensures CountFired(slot, state, times, ttl) == 1
  {
    assert forall t <- times[1..] :: t in times;
    NoneFires(Slot(state, times[0] + ttl), times[1..], ttl);
  }

  lemma {:induction false} NoneFires(slot: Slot, times: seq<int>, ttl: int)
    requires forall t <- times :: t < slot.until
    ensures CountFired(Some(slot), slot.state, times, ttl) == 0
  {
    if times != [] {
      assert times[0] in times && forall t <- times[1..] :: t in times;
      NoneFires(slot, times[1..], ttl);
    }
  }

  // ---------------------------------------------------------------------------
  // Consecutive ticks
  // ---------------------------------------------------------------------------

  datatype Counter = Counter(count: nat, until: int)

  /** The counter after one more tick; each tick renews the expiry. */
  function Counted(counter: Option<Counter>, now: int, ttl: int): Counter {
    Counter((if counter.Some? && now < counter.value.until then counter.value.count else 0) + 1, now + ttl)
  }

  datatype Beat = Tick(at: int) | Reset

  function CounterAfter(beats: seq<Beat>, ttl: int): Option<Counter> {
    if beats == [] then None
    else
      match beats[|beats| - 1]
      case Tick(at) => Some(Counted(CounterAfter(beats[..|beats| - 1], ttl), at, ttl))
      case Reset => None
  }

  /** The last `n` beats are ticks, each less than a TTL after the one before. */
  ghost predicate Streak(beats: seq<Beat>, n: nat, ttl: int) {
    && n <= |beats|
    && (forall k | |beats| - n <= k < |beats| :: beats[k].Tick?)
    && (forall k | |beats| - n < k < |beats| :: beats[k].at < beats[k - 1].at + ttl)
  }

  /** The counter counts the longest streak. */
  lemma {:induction false} CounterCountsStreak(beats: seq<Beat>, n: nat, ttl: int)
    requires n > 0
    ensures var counter := CounterAfter(beats, ttl);
            && (Streak(beats, n, ttl) <==> counter.Some? && n <= counter.value.count)
            && (counter.Some? ==> beats != [] && beats[|beats| - 1].Tick?
                                  && counter.value.until == beats[|beats| - 1].at + ttl)
  {
    if beats != [] && beats[|beats| - 1].Tick? {
      var init := beats[..|beats| - 1];
      if n > 1 {
        CounterCountsStreak(init, n - 1, ttl);
        assert Streak(beats, n, ttl) <==>
               Streak(init, n - 1, ttl) && beats[|beats| - 1].at < init[|init| - 1].at + ttl by {
          StreakGrows(beats, n, ttl);
        }
      }
    }
  }

  lemma StreakGrows(beats: seq<Beat>, n: nat, ttl: int)
    requires n > 1 && beats != [] && beats[|beats| - 1].Tick?
    ensures var init := beats[..|beats| - 1];
            Streak(beats, n, ttl) <==> Streak(init, n - 1, ttl) && beats[|beats| - 1].at < init[|init| - 1].at + ttl
  {
  }

  // ---------------------------------------------------------------------------
  // The guards as they run
  // ---------------------------------------------------------------------------

  class AlarmGuards {
    var states: map<string, Slot>
    var counters: map<string, Counter>

    constructor ()
      ensures states == map[] && counters == map[]
    {
      states, counters := map[], map[];
    }

    function SlotOf(key: string): Option<Slot>
      reads this
    {
      if key in states then Some(states[key]) else None
    }

    function CounterOf(key: string): Option<Counter>
      reads this
    {
      if key in counters then Some(counters[key]) else None
    }

    method TryTransition(key: string, state: string, now: int, ttl: int) returns (fired: bool)
      modifies this`states
      ensures (SlotOf(key), fired) == Transition(old(SlotOf(key)), state, now, ttl)
      ensures states - {key} == old(states) - {key}
    {
      if key in states && now < states[key].until && states[key].state == state {
        return false;
      }
      states := states[key := Slot(state, now + ttl)];
      return true;
    }

    method ClearState(key: string)
      modifies this`states
      ensures SlotOf(key) == None && states - {key} == old(states) - {key}
    {
      states := states - {key};
    }

    /** True once the streak is `threshold` long; at once when `threshold` is 1 or less. */
    method ConfirmConsecutive(key: string, threshold: int, now: int, ttl: int) returns (confirmed: bool)
      modifies this`counters
      ensures CounterOf(key) == Some(Counted(old(CounterOf(key)), now, ttl))
      ensures confirmed <==> Counted(old(CounterOf(key)), now, ttl).count >= threshold
      ensures counters - {key} == old(counters) - {key}
    {
      var count := 0;
      if key in counters && now < counters[key].until {
        count := counters[key].count;
      }
      count := count + 1;
      counters := counters[key := Counter(count, now + ttl)];
      return count >= threshold;
    }
  }
}
