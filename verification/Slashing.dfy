/** work/health_check_worker/worker.go, lines 352-440: the slashing threshold and the alert ladders.
    Decimals are the Cosmos SDK's: integers counting units of 10^-18. Percentages, floats in the
    source, are exact ratios compared by cross-multiplication. */
module Slashing {
  import opened GoRuntime

  const ONE: int := 1_000_000_000_000_000_000

  /** Dropping 18 digits with banker's rounding, for what is not negative. */
  function ChopPrecisionAndRound(x: nat): nat {
    var quo, rem := x / ONE, x % ONE;
    if rem < ONE / 2 then quo
    else if rem > ONE / 2 then quo + 1
    else if quo % 2 == 0 then quo
    else quo + 1
  }

  function NewDec(n: nat): nat {
    n * ONE
  }

  function Mul(a: nat, b: nat): nat {
    ChopPrecisionAndRound(a * b)
  }

  function Ceil(x: nat): nat {
    if x % ONE == 0 then NewDec(x / ONE) else NewDec(x / ONE + 1)
  }

  function RoundInt64(x: nat): nat {
    ChopPrecisionAndRound(x)
  }

  /** `downtimeSlashingWhenMissedExcess` for a minimum signed share and a window of blocks. */
  function MissedExcess(minSigned: nat, window: nat): int {
    if minSigned == ONE then 0 else window - RoundInt64(Ceil(Mul(minSigned, NewDec(window))))
  }

  /** The blocks signed in the window make up the required share. */
  predicate SignsEnough(missed: int, minSigned: nat, window: nat) {
    (window - missed) * 1_000_000_000_000_000_000 >= minSigned * window
  }

  lemma ChopExact(n: nat)
    ensures ChopPrecisionAndRound(n * ONE) == n
  {
  }

  /** No step of the formula rounds anything but the ceiling itself. */
  lemma MissedExcessExact(minSigned: nat, window: nat)
    ensures RoundInt64(Ceil(Mul(minSigned, NewDec(window)))) * ONE >= minSigned * window
    ensures (RoundInt64(Ceil(Mul(minSigned, NewDec(window)))) - 1) * ONE < minSigned * window
  {
    var product := minSigned * window;
    assert minSigned * NewDec(window) == product * ONE;
    ChopExact(product);
    ChopExact(product / ONE);
    ChopExact(product / ONE + 1);
  }

  /** A share of the window is at most the window exactly when it is at most one. */
  lemma ShareOfWindow(minSigned: nat, window: nat)
    requires window > 0
    ensures minSigned * window <= ONE * window <==> minSigned <= ONE
  {
  }

  /** MAIN. Missing at most the threshold is the same as signing the required share, whatever
      the window; the threshold stays below the window, is negative exactly for a share above
      one, and the special case for a share of one changes nothing. */
  lemma MissedExcessMeaning(minSigned: nat, window: nat)
    requires minSigned > 0 && window > 0
    ensures forall missed: int :: SignsEnough(missed, minSigned, window) <==> missed <= MissedExcess(minSigned, window)
    ensures MissedExcess(minSigned, window) < window
    ensures MissedExcess(minSigned, window) >= 0 <==> minSigned <= ONE
    ensures MissedExcess(minSigned, window) == window - RoundInt64(Ceil(Mul(minSigned, NewDec(window))))
  {
    MissedExcessExact(minSigned, window);
    ShareOfWindow(minSigned, window);
    var required := RoundInt64(Ceil(Mul(minSigned, NewDec(window))));
    assert minSigned * window > 0;
    assert (required - 1) * ONE < minSigned * window <= required * ONE;
    if minSigned == ONE {
      assert required == window;
    }
    assert MissedExcess(minSigned, window) == window - required;
    forall missed: int ensures SignsEnough(missed, minSigned, window) <==> missed <= window - required {
      assert window - missed >= required ==> (window - missed) * ONE >= required * ONE;
      assert window - missed <= required - 1 ==> (window - missed) * ONE <= (required - 1) * ONE;
    }
    assert minSigned * window <= ONE * window <==> window >= required;
  }

  // ----- alerts

  datatype Alert = Quiet | Alert(cooldown: Duration, fatal: bool)

  /** `RatioOfInt64(num, den) > percent`; a division by zero is an infinity of the sign of `num`. */
  predicate RatioOver(num: int, den: int, percent: nat) {
    if den > 0 then 100 * num > percent * den
    else if den == 0 then num > 0
    else 100 * num < percent * den
  }

  function MissedBlocksAlert(missed: int, threshold: int): Alert {
    if RatioOver(missed, threshold, 50) then Alert(15 * MINUTE, true)
    else if RatioOver(missed, threshold, 10) then Alert(2 * HOUR, false)
    else Quiet
  }

  /** `100.0 - RatioOfInt64(missed, window) <= percent`. */
  predicate UptimeAtMost(missed: int, window: nat, percent: nat)
    requires window > 0
  {
    100 * window - 100 * missed <= percent * window
  }

  function UptimeAlert(missed: int, window: nat): Alert
    requires window > 0
  {
    if !UptimeAtMost(missed, window, 90) then Quiet
    else
      Alert(if UptimeAtMost(missed, window, 65) then 15 * MINUTE
            else if UptimeAtMost(missed, window, 75) then 30 * MINUTE
            else HOUR,
            UptimeAtMost(missed, window, 70))
  }

  /** The guards around both alerts: something missed, and parameters that make sense. */
  function Alerts(missed: int, minSigned: int, window: int): (Alert, Alert) {
    if missed > 0 && minSigned > 0 && window > 0 then
      (MissedBlocksAlert(missed, MissedExcess(minSigned, window)), UptimeAlert(missed, window))
    else
      (Quiet, Quiet)
  }

  /** `a` disturbs at least as often as `b`, and is fatal if `b` is. */
  predicate AtLeastAsSevere(a: Alert, b: Alert) {
    b.Quiet? || (a.Alert? && a.cooldown <= b.cooldown && (b.fatal ==> a.fatal))
  }

  lemma UptimeAtMostMonotone(missed: int, more: int, window: nat, percent: nat)
    requires missed <= more && window > 0
    ensures UptimeAtMost(missed, window, percent) ==> UptimeAtMost(more, window, percent)
  {
  }

  /** The tiers in blocks. On missed blocks, unless the threshold is negative: fatal over half of
      it, else an alert over a tenth. On uptime: an alert when at most nine tenths of the window
      are signed, fatal at seven tenths, and repeated sooner at three quarters and at thirteen
      twentieths. */
  lemma AlertTiers(missed: int, minSigned: int, window: int)
    requires missed > 0 && minSigned > 0 && window > 0
    ensures var (a, threshold) := (Alerts(missed, minSigned, window).0, MissedExcess(minSigned, window));
            && (a == Alert(15 * MINUTE, true) <==> 2 * missed > threshold >= 0)
            && (a == Alert(2 * HOUR, false) <==> 2 * missed <= threshold < 10 * missed)
            && (a == Quiet <==> threshold < 0 || 10 * missed <= threshold)
    ensures var (a, signed) := (Alerts(missed, minSigned, window).1, window - missed);
            && (a.Quiet? <==> 10 * signed > 9 * window)
            && (a.Alert? ==> (a.fatal <==> 10 * signed <= 7 * window))
            && (a.Alert? ==> (a.cooldown == 15 * MINUTE <==> 20 * signed <= 13 * window))
            && (a.Alert? ==> (a.cooldown == HOUR <==> 4 * signed > 3 * window))
            && (a.Alert? ==> a.cooldown == 15 * MINUTE || a.cooldown == 30 * MINUTE || a.cooldown == HOUR)
  {
    MissedTiers(missed, MissedExcess(minSigned, window));
    UptimeTiers(missed, window);
  }

  lemma MissedTiers(missed: int, threshold: int)
    requires missed > 0
    ensures var a := MissedBlocksAlert(missed, threshold);
            && (a == Alert(15 * MINUTE, true) <==> 2 * missed > threshold >= 0)
            && (a == Alert(2 * HOUR, false) <==> 2 * missed <= threshold < 10 * missed)
            && (a == Quiet <==> threshold < 0 || 10 * missed <= threshold)
  {
  }

  lemma UptimeTiers(missed: int, window: nat)
    requires window > 0
    ensures var (a, signed) := (UptimeAlert(missed, window), window - missed);
            && (a.Quiet? <==> 10 * signed > 9 * window)
            && (a.Alert? ==> (a.fatal <==> 10 * signed <= 7 * window))
            && (a.Alert? ==> (a.cooldown == 15 * MINUTE <==> 20 * signed <= 13 * window))
            && (a.Alert? ==> (a.cooldown == HOUR <==> 4 * signed > 3 * window))
            && (a.Alert? ==> a.cooldown == 15 * MINUTE || a.cooldown == 30 * MINUTE || a.cooldown == HOUR)
  {
  }

  /** MAIN. Missing more blocks never makes either alert less severe. */
  lemma AlertsMonotone(missed: int, more: int, minSigned: int, window: int)
    requires missed <= more
    ensures AtLeastAsSevere(Alerts(more, minSigned, window).0, Alerts(missed, minSigned, window).0)
    ensures AtLeastAsSevere(Alerts(more, minSigned, window).1, Alerts(missed, minSigned, window).1)
  {
    if missed > 0 && minSigned > 0 && window > 0 {
      UptimeAtMostMonotone(missed, more, window, 65);
      UptimeAtMostMonotone(missed, more, window, 70);
      UptimeAtMostMonotone(missed, more, window, 75);
      UptimeAtMostMonotone(missed, more, window, 90);
    }
  }

  /** MAIN. A validator that has fallen below the required share is under the fatal alert, for
      every count of missed blocks, exactly when the required share is at most one; above one
      the threshold is negative and the alert on missed blocks is never raised. */
  lemma BelowShareIsFatalIff(minSigned: nat, window: nat)
    requires minSigned > 0 && window > 0
    ensures (forall missed: nat :: !SignsEnough(missed, minSigned, window) && missed > 0 ==>
               Alerts(missed, minSigned, window).0 == Alert(15 * MINUTE, true))
       <==> minSigned <= ONE
  {
    MissedExcessMeaning(minSigned, window);
    if minSigned > ONE {
      assert !SignsEnough(1, minSigned, window);
      assert Alerts(1, minSigned, window).0 == Quiet;
    }
  }
}
