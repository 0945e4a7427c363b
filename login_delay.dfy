/**
 * The anti-bruteforce delay: a function of the process-wide count of failed
 * logins, drawn at random from a window that widens with the count and is
 * capped at 42 seconds.
 */
module LoginDelay {

  /** The largest delay, in seconds, ever scheduled. */
  const Ceiling: nat := 42

  /** The number of failures below which no delay is scheduled. */
  const Threshold: nat := 5

  function Min(a: int, b: int): int
  {
    if a < b then a else b
  }

  /**
   * The value `utility.randint(lo, hi)` returns: an integer of the closed
   * interval [lo, hi]. The random source is the parameter `pick`, so every
   * value of the interval is some pick's answer (RandintCoversRange).
   */
  function Randint(lo: int, hi: int, pick: nat): (r: int)
    requires lo <= hi
    ensures lo <= r <= hi
  {
    lo + pick % (hi - lo + 1)
  }

  lemma RandintCoversRange(lo: int, hi: int, v: int)
    requires lo <= v <= hi
    ensures Randint(lo, hi, v - lo) == v
  {
  }

  /** The lower end of the window: the count itself, at most 42. */
  function MinSleep(failedAttempts: nat): nat
  {
    if failedAttempts < Ceiling then failedAttempts else Ceiling
  }

  /** The upper end of the window: the square of the count, at most 42. */
  function MaxSleep(failedAttempts: nat): nat
  {
    var n := failedAttempts * failedAttempts;
    if n < Ceiling then n else Ceiling
  }

  /** Once the threshold is reached the window is never inverted and never passes 42. */
  lemma WindowNotInverted(failedAttempts: nat)
    requires failedAttempts >= Threshold
    ensures MinSleep(failedAttempts) <= MaxSleep(failedAttempts) <= Ceiling
  {
    var f := failedAttempts;
    assert f * f >= 5 * f by {
      assert f * f - 5 * f == f * (f - 5);
    }
  }

  /** random_login_delay, with `pick` standing for randint's random source. */
  function RandomLoginDelay(failedAttempts: nat, pick: nat): (delay: nat)
    ensures failedAttempts < Threshold ==> delay == 0
    ensures failedAttempts >= Threshold ==>
              Min(failedAttempts, Ceiling) <= delay <= Min(failedAttempts * failedAttempts, Ceiling)
    ensures delay <= Ceiling
  {
    if failedAttempts >= Threshold then
      WindowNotInverted(failedAttempts);
      Randint(MinSleep(failedAttempts), MaxSleep(failedAttempts), pick)
    else
      0
  }

  /** The table of the source's doc comment, row by row. */
  lemma DelayTable(failedAttempts: nat, pick: nat)
    ensures var d := RandomLoginDelay(failedAttempts, pick);
            && (failedAttempts == 5 ==> 5 <= d <= 25)
            && (failedAttempts == 6 ==> 6 <= d <= 36)
            && (failedAttempts == 7 ==> 7 <= d <= 42)
            && (8 <= failedAttempts <= 42 ==> failedAttempts <= d <= 42)
            && (failedAttempts > 42 ==> d == 42)
  {
  }

  /** Every value of the window is a possible delay: the model does not narrow randint. */
  lemma DelayCoversWindow(failedAttempts: nat, d: nat)
    requires failedAttempts >= Threshold
    requires MinSleep(failedAttempts) <= d <= MaxSleep(failedAttempts)
    ensures RandomLoginDelay(failedAttempts, d - MinSleep(failedAttempts)) == d
  {
    WindowNotInverted(failedAttempts);
    RandintCoversRange(MinSleep(failedAttempts), MaxSleep(failedAttempts), d);
  }
}
