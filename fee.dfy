/**
 * The fee split computed at the start of every hook invocation
 * (`transfer_hook`, lines 26-32): one percent of the transferred amount is
 * the fee; half of the fee is burned, a quarter is swapped, and the rest,
 * including every rounding remainder, is deposited as liquidity.
 */
module Fee {
  import opened Types

  datatype FeeSplit = FeeSplit(fee: U64, burn: U64, swap: U64, deposit: U64)

  /**
   * The split described independently of how it is computed: each share is
   * the floor of its fraction (characterised by the bounds of integer
   * division) and the deposit is what the fee leaves over.
   */
  ghost predicate IsSplitOf(amount: U64, s: FeeSplit) {
    && 100 * s.fee <= amount < 100 * s.fee + 100
    && 2 * s.burn <= s.fee < 2 * s.burn + 2
    && 4 * s.swap <= s.fee < 4 * s.swap + 4
    && s.burn + s.swap + s.deposit == s.fee
  }

  /**
   * The split as the program computes it, with u64 floor division. The
   * subtraction for the deposit is checked by the subset type U64: it
   * never underflows.
   */
  function Split(amount: U64): FeeSplit {
    var fee := amount / 100;
    var burn := fee / 2;
    var swap := fee / 4;
    FeeSplit(fee, burn, swap, fee - burn - swap)
  }

  /**
   * The computed split meets the description, no share exceeds the amount,
   * and the swapped quarter is never more than the burned half or the
   * deposit.
   */
  lemma SplitMeetsDescription(amount: U64)
    ensures var s := Split(amount);
      && IsSplitOf(amount, s)
      && s.fee <= amount && s.burn <= amount && s.swap <= amount && s.deposit <= amount
      && s.swap <= s.burn && s.swap <= s.deposit
  {
  }

  /** Exactly one split meets the description, and Split computes it. */
  lemma SplitUnique(amount: U64, s: FeeSplit)
    requires IsSplitOf(amount, s)
    ensures s == Split(amount)
  {
  }

  /**
   * The deposit absorbs the rounding: it is the swapped quarter plus the
   * dust left by the two floors, which is 0, 1 or 2 (half of the fee's
   * remainder modulo 4, rounded up).
   */
  lemma DepositIsRemainder(amount: U64)
    ensures var s := Split(amount);
      && s.deposit == s.swap + (s.fee % 4 + 1) / 2
      && s.swap <= s.deposit <= s.swap + 2
  {
  }

  /** Worked values: 100, 1000, 250 and 500 (amounts below 100 are SmallAmountsPayNothing). */
  lemma SplitOfHundred()
    ensures Split(100) == FeeSplit(1, 0, 0, 1)
  {
  }

  lemma SplitOfThousand()
    ensures Split(1000) == FeeSplit(10, 5, 2, 3)
  {
  }

  lemma SplitOfTwoHundredFifty()
    ensures Split(250) == FeeSplit(2, 1, 0, 1)
  {
  }

  lemma SplitOfFiveHundred()
    ensures Split(500) == FeeSplit(5, 2, 1, 2)
  {
  }

  /** Amounts below 100 carry no fee, so every share is zero. */
  lemma SmallAmountsPayNothing(amount: U64)
    requires amount < 100
    ensures Split(amount) == FeeSplit(0, 0, 0, 0)
  {
  }

  /** The shares grow with the fee: a larger transfer never pays less of any share. */
  lemma SplitMonotone(a: U64, b: U64)
    requires a <= b
    ensures Split(a).fee <= Split(b).fee
    ensures Split(a).burn <= Split(b).burn
    ensures Split(a).swap <= Split(b).swap
  {
  }
}
