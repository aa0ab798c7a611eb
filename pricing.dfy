/**
 * Scarcity pricing (`ChemicalSupply.get_cost_of_chemical`): the cost of one
 * chemical is read from the ascending schedule `COST_CHEMICALS` counting from
 * its tail, by the Supply's row depth and the trade direction.
 */
module Pricing {
  import opened Wrappers

  /** `COST_CHEMICALS`: one entry per scarcity tier, ascending. */
  const CostChemicals: seq<nat> := [1, 1, 2, 2, 3]

  /** A finite voucher cost, or the `np.inf` the source returns on IndexError. */
  datatype Cost = Finite(n: nat) | Infinite

  /**
   * Python's list indexing `s[i]`: a non-negative index counts from the
   * front, a negative one from the back (`-1` is the last element), and any
   * other index raises IndexError, here None.
   */
  function PyIndex(s: seq<nat>, i: int): Option<nat> {
    if 0 <= i < |s| then Some(s[i])
    else if -|s| <= i < 0 then Some(s[|s| + i])
    else None
  }

  /** The offset `(not acquire_from_board)`: 0 for an acquire, 1 for a return. */
  function DirectionOffset(acquireFromBoard: bool): nat {
    if acquireFromBoard then 0 else 1
  }

  /**
   * `COST_CHEMICALS[-(depth + (not acquire_from_board))]`, IndexError mapped to
   * Infinite. With k the negated index, k = 0 reads the first entry, 1 <= k <= 5
   * reads entry 5 - k, and k > 5 is out of range.
   */
  function CostOfChemical(depth: nat, acquireFromBoard: bool): (c: Cost)
    ensures c.Infinite? <==> depth + DirectionOffset(acquireFromBoard) > |CostChemicals|
    ensures depth + DirectionOffset(acquireFromBoard) == 0 ==> c == Finite(CostChemicals[0])
    ensures var k := depth + DirectionOffset(acquireFromBoard);
            1 <= k <= |CostChemicals| ==> c == Finite(CostChemicals[|CostChemicals| - k])
  {
    match PyIndex(CostChemicals, -(depth + DirectionOffset(acquireFromBoard)))
    case Some(v) => Finite(v)
    case None => Infinite
  }

  /** The schedule is ascending, so reading it from the tail gives falling prices. */
  lemma ScheduleAscending(i: nat, j: nat)
    requires i <= j < |CostChemicals|
    ensures CostChemicals[i] <= CostChemicals[j]
  {
  }

  /** Acquire prices for Supply depths 1..5 are 3, 2, 2, 1, 1, and depth 0 costs 1 (index `-0`). */
  lemma AcquirePriceTable(d: nat)
    requires d <= 5
    ensures CostOfChemical(d, true) == Finite([1, 3, 2, 2, 1, 1][d])
    ensures 1 <= d ==> CostOfChemical(d, true) == Finite(CostChemicals[5 - d])
  {
  }

  /** Acquiring the last chemical of a row is priced like depth 5, not infinite: index `-0` is index 0. */
  lemma AcquireAtDepthZero()
    ensures CostOfChemical(0, true) == Finite(1)
    ensures CostOfChemical(0, true) == CostOfChemical(5, true)
  {
  }

  /** Returning at depth d is priced as acquiring at depth d + 1, for every depth. */
  lemma ReturnIsAcquireOneDeeper(d: nat)
    ensures CostOfChemical(d, false) == CostOfChemical(d + 1, true)
  {
  }

  /** Return prices: 3 at an empty Supply row, finite up to depth 4, infinite from depth 5. */
  lemma ReturnPriceTable(d: nat)
    ensures d <= 4 ==> CostOfChemical(d, false) == Finite(CostChemicals[4 - d])
    ensures d >= 5 <==> CostOfChemical(d, false).Infinite?
    ensures CostOfChemical(0, false) == Finite(3)
  {
  }

  /** Scarcer is pricier: over depths 1..5 the acquire price does not increase with depth. */
  lemma {:induction false} AcquireNonIncreasing(d1: nat, d2: nat)
    requires 1 <= d1 <= d2 <= |CostChemicals|
    ensures CostOfChemical(d1, true).Finite? && CostOfChemical(d2, true).Finite?
    ensures CostOfChemical(d2, true).n <= CostOfChemical(d1, true).n
  {
    ScheduleAscending(|CostChemicals| - d2, |CostChemicals| - d1);
  }

  /** An acquire is infinite exactly when the Supply row is deeper than the schedule. */
  lemma AcquireInfiniteIff(d: nat)
    ensures CostOfChemical(d, true).Infinite? <==> d > |CostChemicals|
  {
  }

  /** Every finite price is between 1 and 3 vouchers. */
  lemma FiniteCostBounds(d: nat, acquireFromBoard: bool)
    ensures CostOfChemical(d, acquireFromBoard).Finite? ==>
              1 <= CostOfChemical(d, acquireFromBoard).n <= 3
  {
  }
}
