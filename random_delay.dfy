/** Response pacing (utils/random_delay.py) and the random draws the bots
    make. A draw is a parameter: `randint(lo, hi)` is `RandInt(lo, hi, raw)`
    for an arbitrary `raw`, and `random()` is a `UnitDraw`. The sleeps are
    recorded rather than performed, and the clock readings are parameters. */
module RandomDelay {
  import opened Wrappers

  /** A value of `random.random()`. */
  type UnitDraw = r: real | 0.0 <= r < 1.0

  /** `random.randint(lo, hi)` for the raw draw `raw`; an empty range raises. */
  function RandInt(lo: int, hi: int, raw: nat): (r: Result<int>)
    ensures r.Ok? <==> lo <= hi
    ensures r.Ok? ==> lo <= r.value <= hi
  {
    if lo > hi then Err("ValueError: empty range for randrange()")
    else Ok(lo + raw % (hi - lo + 1))
  }

  /** Every value of the range is drawn for some raw draw. */
  lemma RandIntReachesEveryValue(lo: int, hi: int, v: int)
    requires lo <= v <= hi
    ensures RandInt(lo, hi, (v - lo) as nat) == Ok(v)
  {
  }

  /** `random.uniform(a, b)`: `a + (b - a) * random()`. */
  function Uniform(a: real, b: real, u: UnitDraw): (r: real)
    ensures a <= b ==> a <= r && (a < b ==> r < b)
  {
    var width := b - a;
    var offset := width * u;
    if a <= b then FractionBounds(width, u); a + offset else a + offset
  }

  lemma FractionBounds(x: real, u: UnitDraw)
    requires x >= 0.0
    ensures 0.0 <= x * u <= x
    ensures x > 0.0 ==> x * u < x
  {
    if x > 0.0 {
      assert x * (1.0 - u) > 0.0;
    }
  }

  /** `delay_response`: the whole number of seconds slept, between the bounds
      (5 and 15 by default). */
  function DelaySeconds(minSeconds: int, maxSeconds: int, raw: nat): (r: Result<int>)
    ensures r.Ok? <==> minSeconds <= maxSeconds
    ensures r.Ok? ==> minSeconds <= r.value <= maxSeconds
  {
    RandInt(minSeconds, maxSeconds, raw)
  }

  const DefaultSpeedRange: (int, int) := (400, 800)

  /** `get_typing_duration`: a speed in characters per minute is drawn from
      the range, the base duration is the length over the speed per second,
      and it is scaled by a factor drawn from [0.8, 1.2). A drawn speed of 0
      divides by zero. */
  function TypingDuration(messageLength: int, speedRange: (int, int), rawSpeed: nat, u: UnitDraw)
    : (r: Result<(real, int)>)
    ensures r.Ok? ==> speedRange.0 <= r.value.1 <= speedRange.1 && r.value.1 != 0
    ensures r.Ok? && messageLength >= 0 && r.value.1 > 0 ==>
              && 0.8 * (60.0 * messageLength as real / r.value.1 as real) <= r.value.0
              && r.value.0 <= 1.2 * (60.0 * messageLength as real / r.value.1 as real)
    ensures speedRange.0 <= speedRange.1 && (speedRange.0 > 0 || speedRange.1 < 0) ==> r.Ok?
  {
    var speed :- RandInt(speedRange.0, speedRange.1, rawSpeed);
    if speed == 0 then Err("ZeroDivisionError: float division by zero")
    else
      var perSecond := speed as real / 60.0;
      var base := messageLength as real / perSecond;
      var randomness := Uniform(0.8, 1.2, u);
      ScaledBounds(messageLength, speed, randomness);
      Ok((base * randomness, speed))
  }

  lemma ScaledBounds(messageLength: int, speed: int, randomness: real)
    requires speed != 0 && 0.8 <= randomness <= 1.2
    ensures var base := messageLength as real / (speed as real / 60.0);
            && base == 60.0 * messageLength as real / speed as real
            && (messageLength >= 0 && speed > 0 ==>
                  0.8 * base <= base * randomness <= 1.2 * base)
  {
    var base := messageLength as real / (speed as real / 60.0);
    assert base * (speed as real / 60.0) == messageLength as real;
    assert base == 60.0 * messageLength as real / speed as real;
    if messageLength >= 0 && speed > 0 {
      assert base >= 0.0;
    }
  }

  /** The longest single wait: Discord's typing indicator lasts ten seconds. */
  const ChunkSeconds: real := 9.5

  /** How many waits the typing loop makes for `d` seconds. */
  function Chunks(d: real): nat
    decreases if d <= 0.0 then 0 else d.Floor + 1
  {
    if d <= 0.0 then 0 else 1 + Chunks(d - ChunkSeconds)
  }

  /** The number of waits is the ceiling of `d / 9.5` for positive `d`. */
  lemma {:induction false} ChunksIsCeiling(d: real)
    requires d > 0.0
    ensures Chunks(d) >= 1
    ensures ChunkSeconds * (Chunks(d) - 1) as real < d <= ChunkSeconds * Chunks(d) as real
    decreases d.Floor + 1
  {
    if d - ChunkSeconds > 0.0 {
      ChunksIsCeiling(d - ChunkSeconds);
    }
  }

  function Sum(xs: seq<real>): real {
    if xs == [] then 0.0 else Sum(xs[..|xs| - 1]) + xs[|xs| - 1]
  }

  /** `simulate_typing`: the draws give the expected duration, the loop waits
      at most 9.5 seconds at a time and renews the typing indicator while time
      remains. `startTime` and `endTime` are the event-loop clock readings
      around the loop. The result is the measured duration and the drawn
      speed, with the waits made and the number of renewals. */
  method SimulateTyping(messageLength: int, speedRange: (int, int), rawSpeed: nat, u: UnitDraw,
                        startTime: real, endTime: real)
    returns (r: Result<(real, int)>, sleeps: seq<real>, renewals: nat)
    ensures TypingDuration(messageLength, speedRange, rawSpeed, u).Err? ==>
              r == TypingDuration(messageLength, speedRange, rawSpeed, u) && sleeps == [] && renewals == 0
    ensures TypingDuration(messageLength, speedRange, rawSpeed, u).Ok? ==>
              var (duration, speed) := TypingDuration(messageLength, speedRange, rawSpeed, u).value;
              && r == Ok((endTime - startTime, speed))
              && |sleeps| == Chunks(duration)
              && (duration > 0.0 ==> Sum(sleeps) == duration)
              && (duration <= 0.0 ==> sleeps == [])
              && (forall i | 0 <= i < |sleeps| :: 0.0 < sleeps[i] <= ChunkSeconds)
              && renewals == (if sleeps == [] then 0 else |sleeps| - 1)
  {
    var typing := TypingDuration(messageLength, speedRange, rawSpeed, u);
    if typing.Err? {
      return Err(typing.error), [], 0;
    }
    var (duration, speed) := typing.value;
    sleeps := [];
    renewals := 0;
    var remaining := duration;
    while remaining > 0.0
      invariant remaining > 0.0 ==> Sum(sleeps) + remaining == duration
      invariant remaining <= 0.0 ==> Sum(sleeps) == (if duration > 0.0 then duration else 0.0)
      invariant |sleeps| + Chunks(remaining) == Chunks(duration)
      invariant forall i | 0 <= i < |sleeps| :: 0.0 < sleeps[i] <= ChunkSeconds
      invariant remaining > 0.0 ==> renewals == |sleeps|
      invariant remaining <= 0.0 ==> renewals == (if sleeps == [] then 0 else |sleeps| - 1)
      invariant sleeps == [] ==> remaining == duration
      decreases if remaining <= 0.0 then 0 else remaining.Floor + 1
    {
      var wait := if remaining < ChunkSeconds then remaining else ChunkSeconds;
      assert Sum(sleeps + [wait]) == Sum(sleeps) + wait by {
        assert (sleeps + [wait])[..|sleeps|] == sleeps;
      }
      sleeps := sleeps + [wait];
      remaining := remaining - ChunkSeconds;
      if remaining > 0.0 {
        renewals := renewals + 1;
      }
    }
    r := Ok((endTime - startTime, speed));
  }
}
