/** The timing rules of the realtime supervisor (`iteration`): the bounded
    retry of the IMU read and the sleep that aligns the cycle to its period.
    Time is explicit: the outcome of each read attempt is given, and a sleep
    advances the clock by exactly its duration. */
module Supervisor {
  import opened Wrappers
  import opened Readings

  /** How many times one cycle tries to read the IMU. */
  const MaxImuTries: nat := 14

  /** The outcome of read attempt `i`; attempts beyond the given ones fail. */
  function Attempt(outcomes: seq<Option<ImuRead>>, i: nat): Option<ImuRead> {
    if i < |outcomes| then outcomes[i] else None
  }

  /** Number of failed attempts before `data` was obtained in `attempts` tries. */
  function Failures(data: Option<ImuRead>, attempts: nat): nat {
    if data.Some? && attempts > 0 then attempts - 1 else attempts
  }

  /** The time the supervisor waits after failed reads: a tenth of the
      period for each failure. */
  function RetrySlack(failures: nat, period: real): (slack: real)
    ensures period >= 0.0 ==> 0.0 <= slack
    ensures period >= 0.0 && failures <= MaxImuTries ==> slack <= (MaxImuTries as real) * period / 10.0
  {
    (failures as real) * (period / 10.0)
  }

  /** Read the IMU at most 14 times, stopping at the first success; each failure
      is followed by a pause of a tenth of the period, accumulated in `slack`. */
  method ReadImu(outcomes: seq<Option<ImuRead>>, period: real)
    returns (data: Option<ImuRead>, attempts: nat, slack: real)
    ensures 1 <= attempts <= MaxImuTries
    ensures data == Attempt(outcomes, attempts - 1)
    ensures forall i :: 0 <= i < attempts - 1 ==> Attempt(outcomes, i).None?
    ensures data.None? ==> attempts == MaxImuTries
    ensures slack == RetrySlack(Failures(data, attempts), period)
    ensures period >= 0.0 ==> 0.0 <= slack <= (MaxImuTries as real) * period / 10.0
  {
    attempts, slack, data := 0, 0.0, None;
    while attempts < MaxImuTries
      invariant 0 <= attempts <= MaxImuTries
      invariant forall i :: 0 <= i < attempts ==> Attempt(outcomes, i).None?
      invariant data.None? && attempts > 0 ==> data == Attempt(outcomes, attempts - 1)
      invariant data.None?
      invariant slack == RetrySlack(attempts, period)
    {
      data := Attempt(outcomes, attempts);
      attempts := attempts + 1;
      if data.Some? {
        return;
      }
      slack := slack + period / 10.0;
    }
  }

  /** The pause the sleep loop takes at time `now` of a cycle that began at
      `t0`: the rest of the period plus the retry slack, or none when that is
      not strictly between zero and one period. */
  function PauseAt(period: real, t0: real, now: real, slack: real): (p: Option<real>)
    ensures p.Some? ==> 0.0 < p.value < period
    ensures p.Some? ==> now + p.value == t0 + period + slack
    ensures p.None? <==> !(now < t0 + period + slack < now + period)
  {
    var dt := period - (now - t0) + slack;
    if dt >= period || dt <= 0.0 then None else Some(dt)
  }

  /** Sleep out the remainder of the period, starting at time `start`. Every
      pause lies strictly between zero and one period; at most one is taken,
      and after one the clock stands at `t0 + period + slack`. */
  method SleepRemainder(period: real, t0: real, start: real, slack: real)
    returns (pauses: seq<real>, finish: real)
    ensures forall i :: 0 <= i < |pauses| ==> 0.0 < pauses[i] < period
    ensures |pauses| <= 1
    ensures pauses == [] <==> PauseAt(period, t0, start, slack).None?
    ensures pauses == [] ==> finish == start
    ensures pauses != [] ==> finish == t0 + period + slack
    ensures pauses != [] ==> pauses == [PauseAt(period, t0, start, slack).value] && finish == start + pauses[0]
  {
    pauses, finish := [], start;
    while true
      invariant |pauses| <= 1
      invariant forall i :: 0 <= i < |pauses| ==> 0.0 < pauses[i] < period
      invariant pauses == [] ==> finish == start
      invariant pauses != [] ==> finish == t0 + period + slack && PauseAt(period, t0, start, slack).Some?
      invariant pauses != [] ==> pauses == [PauseAt(period, t0, start, slack).value] && finish == start + pauses[0]
      decreases 1 - |pauses|
    {
      var dt := period - (finish - t0) + slack;
      if dt >= period || dt <= 0.0 {
        break;
      }
      pauses := pauses + [dt];
      finish := finish + dt;
    }
  }
}
