/**
 * `calculateStorageMetrics`: from the warm-storage balance record, derive the
 * lockup needed per day, the lockup still available, how many days it lasts
 * at the requested and at the current rate, and whether the rate and lockup
 * allowances suffice. The two SDK fetches that precede the computation become
 * the `balance` parameter; the figures computed by helpers whose code is not
 * part of this model (storage in use, GB covered by the rate allowance) become
 * the `usage` parameter.
 */
module StorageMetrics {
  import opened Wrappers
  import opened JsNumber
  import opened Types

  /** The SDK's TIME_CONSTANTS.EPOCHS_PER_DAY: one epoch every 30 seconds. */
  const EPOCHS_PER_DAY: int := 2880

  /** Results of the storage-usage helpers, taken as given. */
  datatype UsageFigures = UsageFigures(currentStorageBytes: int, currentStorageGB: real, currentRateAllowanceGB: real)

  /** Lockup left: allowance minus what is already locked, without clamping. */
  function RemainingLockup(b: FilecoinWarmStorageBalance): int
  {
    b.currentLockupAllowance - b.currentLockupUsed
  }

  /** Days at the current rate: guarded against a zero (or negative) daily lockup. */
  function DaysAtCurrentRate(remaining: int, lockupPerDay: int): Num
  {
    if lockupPerDay > 0 then Divide(remaining, lockupPerDay)
    else if remaining > 0 then PosInf
    else Finite(0.0)
  }

  function CalculateStorageMetrics(b: FilecoinWarmStorageBalance, minDaysThreshold: int, usage: UsageFigures): (r: StorageCalculationResult)
    // the rate is the SDK's per-epoch cost, not recomputed here
    ensures r.rateNeeded == b.costs.perEpoch
    ensures r.isRateSufficient <==> b.currentRateAllowance >= b.costs.perEpoch
    ensures r.isSufficient <==> r.isRateSufficient && r.isLockupSufficient
    // the days left at the requested rate: the remainder over 2880 epochs' worth of the rate
    ensures b.costs.perEpoch != 0 ==>
      r.persistenceDaysLeft == Finite(RemainingLockup(b) as real / (EPOCHS_PER_DAY * b.costs.perEpoch) as real)
    // no zero guard: at rate 0 the sign of the remainder picks +Infinity, NaN or -Infinity
    ensures b.costs.perEpoch == 0 ==>
      r.persistenceDaysLeft == (if RemainingLockup(b) > 0 then PosInf else if RemainingLockup(b) < 0 then NegInf else NaN)
    // lockup sufficiency, cross-multiplied: remaining >= threshold days of daily lockup
    ensures b.costs.perEpoch > 0 ==>
      (r.isLockupSufficient <==> RemainingLockup(b) >= minDaysThreshold * (EPOCHS_PER_DAY * b.costs.perEpoch))
    // no zero guard on the requested rate: with nothing to pay, only a positive remainder passes
    ensures b.costs.perEpoch == 0 ==> (r.isLockupSufficient <==> RemainingLockup(b) > 0)
    // the diagnostic figure at the current rate
    ensures b.currentRateUsed > 0 ==>
      r.persistenceDaysLeftAtCurrentRate == Finite(RemainingLockup(b) as real / (EPOCHS_PER_DAY * b.currentRateUsed) as real)
    ensures b.currentRateUsed <= 0 ==>
      r.persistenceDaysLeftAtCurrentRate == (if RemainingLockup(b) > 0 then PosInf else Finite(0.0))
    // fields copied from the balance record and from the helpers
    ensures r.rateUsed == b.currentRateUsed && r.totalLockupNeeded == b.lockupAllowanceNeeded
    ensures r.depositNeeded == b.depositAmountNeeded && r.currentLockupAllowance == b.currentLockupAllowance
    ensures r.currentStorageBytes == usage.currentStorageBytes && r.currentStorageGB == usage.currentStorageGB
    ensures r.currentRateAllowanceGB == usage.currentRateAllowanceGB
  {
    var rateNeeded := b.costs.perEpoch;
    var lockupPerDay := EPOCHS_PER_DAY * rateNeeded;
    var lockupPerDayAtCurrentRate := EPOCHS_PER_DAY * b.currentRateUsed;
    var remaining := RemainingLockup(b);
    var persistenceDaysLeft := Divide(remaining, lockupPerDay);
    var isRateSufficient := b.currentRateAllowance >= rateNeeded;
    var isLockupSufficient := AtLeast(persistenceDaysLeft, minDaysThreshold as real);
    QuotientAtLeast(remaining, lockupPerDay, minDaysThreshold);
    StorageCalculationResult(
      rateNeeded := rateNeeded,
      rateUsed := b.currentRateUsed,
      currentStorageBytes := usage.currentStorageBytes,
      currentStorageGB := usage.currentStorageGB,
      totalLockupNeeded := b.lockupAllowanceNeeded,
      depositNeeded := b.depositAmountNeeded,
      persistenceDaysLeft := persistenceDaysLeft,
      persistenceDaysLeftAtCurrentRate := DaysAtCurrentRate(remaining, lockupPerDayAtCurrentRate),
      isRateSufficient := isRateSufficient,
      isLockupSufficient := isLockupSufficient,
      isSufficient := isRateSufficient && isLockupSufficient,
      currentRateAllowanceGB := usage.currentRateAllowanceGB,
      currentLockupAllowance := b.currentLockupAllowance)
  }

  /**
   * Remaining lockup is not clamped: when more is locked than allowed, the
   * days left are negative (or -Infinity at a zero rate) and lockup never
   * suffices for a non-negative threshold.
   */
  lemma OverdrawnLockup(b: FilecoinWarmStorageBalance, minDaysThreshold: int, usage: UsageFigures)
    requires b.currentLockupUsed > b.currentLockupAllowance
    requires b.costs.perEpoch >= 0 && minDaysThreshold >= 0
    ensures var r := CalculateStorageMetrics(b, minDaysThreshold, usage);
      && (b.costs.perEpoch > 0 ==> r.persistenceDaysLeft.Finite? && r.persistenceDaysLeft.value < 0.0)
      && (b.costs.perEpoch == 0 ==> r.persistenceDaysLeft == NegInf)
      && !r.isLockupSufficient && !r.isSufficient
  {
    var r := CalculateStorageMetrics(b, minDaysThreshold, usage);
    if b.costs.perEpoch > 0 {
      var lockupPerDay := EPOCHS_PER_DAY * b.costs.perEpoch;
      assert RemainingLockup(b) as real < 0.0 && lockupPerDay as real > 0.0;
      assert RemainingLockup(b) as real / lockupPerDay as real < 0.0;
    }
  }

  /**
   * With nothing locked and nothing to pay per epoch the requested-rate
   * quotient is 0/0: NaN, so lockup (and the whole verdict) is reported
   * insufficient whatever the threshold.
   */
  lemma NothingLockedAtZeroRate(b: FilecoinWarmStorageBalance, minDaysThreshold: int, usage: UsageFigures)
    requires b.costs.perEpoch == 0 && RemainingLockup(b) == 0
    ensures var r := CalculateStorageMetrics(b, minDaysThreshold, usage);
      r.persistenceDaysLeft == NaN && !r.isLockupSufficient && !r.isSufficient
  {
  }

  /** At a zero requested rate any positive remainder lasts forever and suffices. */
  lemma PositiveRemainderAtZeroRate(b: FilecoinWarmStorageBalance, minDaysThreshold: int, usage: UsageFigures)
    requires b.costs.perEpoch == 0 && RemainingLockup(b) > 0
    ensures var r := CalculateStorageMetrics(b, minDaysThreshold, usage);
      r.persistenceDaysLeft == PosInf && r.isLockupSufficient && r.isRateSufficient == (b.currentRateAllowance >= 0)
  {
  }

  /**
   * The days left at a non-zero requested rate, spent at that rate's daily
   * lockup of 2880 epochs, use up exactly the remaining lockup.
   */
  lemma DaysSpendRemainder(b: FilecoinWarmStorageBalance, minDaysThreshold: int, usage: UsageFigures)
    requires b.costs.perEpoch != 0
    ensures var r := CalculateStorageMetrics(b, minDaysThreshold, usage);
      && r.persistenceDaysLeft.Finite?
      && r.persistenceDaysLeft.value * (EPOCHS_PER_DAY * b.costs.perEpoch) as real == RemainingLockup(b) as real
  {
  }

  /** The days left at the current rate feed no flag: the verdict ignores `currentRateUsed`. */
  lemma CurrentRateIsDiagnostic(b: FilecoinWarmStorageBalance, used: int, minDaysThreshold: int, usage: UsageFigures)
    ensures var r := CalculateStorageMetrics(b, minDaysThreshold, usage);
      var r' := CalculateStorageMetrics(b.(currentRateUsed := used), minDaysThreshold, usage);
      && r'.isRateSufficient == r.isRateSufficient
      && r'.isLockupSufficient == r.isLockupSufficient
      && r'.isSufficient == r.isSufficient
      && r'.persistenceDaysLeft == r.persistenceDaysLeft
  {
  }
}
