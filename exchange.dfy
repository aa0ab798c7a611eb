/**
 * `Player.trade_chemical` as a function on ledger values: the chemical moves
 * from its source to its destination, and the destination pays.
 */
module Exchange {
  import opened Wrappers
  import opened Chemicals
  import opened Pricing

  /** What the Supply and a Player share: a row per chemical type and a voucher balance (`supply_vouchers`). */
  datatype Ledger = Ledger(rows: Rows, vouchers: int)

  /**
   * How a trade ends. `TradeBlocked` and `TradeDone` are the two printed
   * outcomes; `EmptyRowError` is the IndexError that `popleft` raises after the
   * vouchers have already moved, and `StoreTypeError` the TypeError raised by
   * the Supply's store as written (see TradeAsWritten).
   */
  datatype TradeOutcome = TradeBlocked | TradeDone(cost: nat) | EmptyRowError(cost: nat) | StoreTypeError(cost: nat)

  datatype TradeResult = TradeResult(outcome: TradeOutcome, player: Ledger, supply: Ledger)

  /** `to_object.supply_vouchers - cost < 0`, which holds for every balance when the cost is infinite. */
  predicate IsTradeImpossible(balance: int, cost: Cost) {
    match cost
    case Infinite => true
    case Finite(n) => balance - n < 0
  }

  /**
   * The body of `trade_chemical` once the roles are fixed: if the destination
   * cannot pay, nothing happens; otherwise the vouchers move, then the front
   * chemical of the source's row is popped and pushed onto the destination's row.
   */
  function Move(source: Ledger, dest: Ledger, t: ChemicalType, cost: Cost): (r: (TradeOutcome, Ledger, Ledger))
    requires WellFormed(source.rows) && WellFormed(dest.rows)
    ensures WellFormed(r.1.rows) && WellFormed(r.2.rows)
  {
    if IsTradeImpossible(dest.vouchers, cost) then (TradeBlocked, source, dest)
    else
      var paidSource := source.(vouchers := source.vouchers + cost.n);
      var paidDest := dest.(vouchers := dest.vouchers - cost.n);
      match Retrieve(paidSource.rows, t)
      case None => (EmptyRowError(cost.n), paidSource, paidDest)
      case Some((c, rest)) =>
        (TradeDone(cost.n), paidSource.(rows := rest), paidDest.(rows := Store(paidDest.rows, c)))
  }

  /** The price of the trade, read from the Supply's row before anything changes. */
  function TradeCost(supply: Ledger, t: ChemicalType, acquireFromBoard: bool): Cost
    requires WellFormed(supply.rows)
  {
    CostOfChemical(Count(supply.rows, t), acquireFromBoard)
  }

  /** `player.trade_chemical(t, supply, acquire_from_board)`: an acquire moves Supply -> Player, a return Player -> Supply. */
  function Trade(player: Ledger, supply: Ledger, t: ChemicalType, acquireFromBoard: bool): (r: TradeResult)
    requires WellFormed(player.rows) && WellFormed(supply.rows)
    ensures WellFormed(r.player.rows) && WellFormed(r.supply.rows)
    ensures !r.outcome.StoreTypeError?
  {
    var cost := TradeCost(supply, t, acquireFromBoard);
    if acquireFromBoard then
      var m := Move(supply, player, t, cost);
      TradeResult(m.0, m.2, m.1)
    else
      var m := Move(player, supply, t, cost);
      TradeResult(m.0, m.1, m.2)
  }

  /** The ledger that pays: the chemical's destination. */
  function Payer(player: Ledger, supply: Ledger, acquireFromBoard: bool): Ledger {
    if acquireFromBoard then player else supply
  }

  /** A trade is blocked exactly when the payer cannot afford the price, and a blocked trade changes nothing. */
  lemma TradeBlockedIffUnaffordable(player: Ledger, supply: Ledger, t: ChemicalType, acquireFromBoard: bool)
    requires WellFormed(player.rows) && WellFormed(supply.rows)
    ensures var r := Trade(player, supply, t, acquireFromBoard);
            r.outcome.TradeBlocked? <==>
              IsTradeImpossible(Payer(player, supply, acquireFromBoard).vouchers, TradeCost(supply, t, acquireFromBoard))
    ensures var r := Trade(player, supply, t, acquireFromBoard);
            r.outcome.TradeBlocked? ==> r.player == player && r.supply == supply
  {
  }

  /** An infinite price always blocks the trade. */
  lemma InfiniteCostBlocks(player: Ledger, supply: Ledger, t: ChemicalType, acquireFromBoard: bool)
    requires WellFormed(player.rows) && WellFormed(supply.rows)
    requires TradeCost(supply, t, acquireFromBoard).Infinite?
    ensures Trade(player, supply, t, acquireFromBoard) == TradeResult(TradeBlocked, player, supply)
  {
  }

  /**
   * Vouchers are conserved: whenever the trade goes ahead the payer loses exactly
   * the price, the other side gains it, and the payer is left with a
   * non-negative balance.
   */
  lemma TradeConservesVouchers(player: Ledger, supply: Ledger, t: ChemicalType, acquireFromBoard: bool)
    requires WellFormed(player.rows) && WellFormed(supply.rows)
    ensures var r := Trade(player, supply, t, acquireFromBoard);
            r.player.vouchers + r.supply.vouchers == player.vouchers + supply.vouchers
    ensures var r := Trade(player, supply, t, acquireFromBoard);
            !r.outcome.TradeBlocked? ==>
              var cost := TradeCost(supply, t, acquireFromBoard);
              cost.Finite? && r.outcome.cost == cost.n &&
              Payer(r.player, r.supply, acquireFromBoard).vouchers
                == Payer(player, supply, acquireFromBoard).vouchers - cost.n &&
              Payer(r.player, r.supply, acquireFromBoard).vouchers >= 0
  {
  }

  /**
   * A completed trade happens exactly when the payer can afford the price and
   * the source holds a chemical of the type; it moves the source's front
   * chemical to the front of the destination's row and leaves every other row alone.
   */
  lemma TradeDoneMovesOneChemical(player: Ledger, supply: Ledger, t: ChemicalType, acquireFromBoard: bool)
    requires WellFormed(player.rows) && WellFormed(supply.rows)
    ensures var r := Trade(player, supply, t, acquireFromBoard);
            var source := if acquireFromBoard then supply else player;
            r.outcome.TradeDone? <==>
              !IsTradeImpossible(Payer(player, supply, acquireFromBoard).vouchers, TradeCost(supply, t, acquireFromBoard))
              && Count(source.rows, t) > 0
    ensures var r := Trade(player, supply, t, acquireFromBoard);
            var (source, dest) := if acquireFromBoard then (supply, player) else (player, supply);
            var (source', dest') := if acquireFromBoard then (r.supply, r.player) else (r.player, r.supply);
            r.outcome.TradeDone? ==>
              source'.rows == source.rows[t := source.rows[t][1..]] &&
              dest'.rows == dest.rows[t := [source.rows[t][0]] + dest.rows[t]]
  {
  }

  /** No trade, whatever its outcome, creates or destroys a chemical: each type's total over Player and Supply is kept. */
  lemma TradeConservesChemicals(player: Ledger, supply: Ledger, t: ChemicalType, acquireFromBoard: bool, u: ChemicalType)
    requires WellFormed(player.rows) && WellFormed(supply.rows)
    ensures var r := Trade(player, supply, t, acquireFromBoard);
            Count(r.player.rows, u) + Count(r.supply.rows, u) == Count(player.rows, u) + Count(supply.rows, u)
    ensures var r := Trade(player, supply, t, acquireFromBoard);
            u != t ==> r.player.rows[u] == player.rows[u] && r.supply.rows[u] == supply.rows[u]
  {
    var cost := TradeCost(supply, t, acquireFromBoard);
    if acquireFromBoard {
      MoveConservesChemicals(supply, player, t, cost, u);
    } else {
      MoveConservesChemicals(player, supply, t, cost, u);
    }
  }

  /** Move keeps the joint count of every type over its two ledgers, and touches only the rows of type t. */
  lemma MoveConservesChemicals(source: Ledger, dest: Ledger, t: ChemicalType, cost: Cost, u: ChemicalType)
    requires WellFormed(source.rows) && WellFormed(dest.rows)
    ensures var m := Move(source, dest, t, cost);
            Count(m.1.rows, u) + Count(m.2.rows, u) == Count(source.rows, u) + Count(dest.rows, u)
    ensures var m := Move(source, dest, t, cost);
            u != t ==> m.1.rows[u] == source.rows[u] && m.2.rows[u] == dest.rows[u]
  {
    if !IsTradeImpossible(dest.vouchers, cost) {
      match Retrieve(source.rows, t)
      case None =>
      case Some((c, rest)) =>
        assert c.kind == t;
        assert Count(Store(dest.rows, c), u) == Count(dest.rows, u) + if u == t then 1 else 0;
    }
  }

  /**
   * The order hazard: acquiring from an empty Supply row is priced 1 (index
   * `-0`), so a player holding a voucher pays it and then `popleft` fails;
   * the voucher stays with the Supply and no chemical moves.
   */
  lemma AcquireFromEmptyRowFailsAfterPaying(player: Ledger, supply: Ledger, t: ChemicalType)
    requires WellFormed(player.rows) && WellFormed(supply.rows)
    requires Count(supply.rows, t) == 0 && player.vouchers >= 1
    ensures Trade(player, supply, t, true)
              == TradeResult(EmptyRowError(1), player.(vouchers := player.vouchers - 1),
                             supply.(vouchers := supply.vouchers + 1))
  {
    AcquireAtDepthZero();
  }

  /**
   * The same hazard in both directions: when the payer can pay but the
   * chemical's source row is empty (an acquire from an empty Supply row, or a
   * return of a type the player does not hold), the payer is charged, the other
   * side is paid, and then `popleft` fails with no row changed.
   */
  lemma TradeFromEmptyRowFailsAfterPaying(player: Ledger, supply: Ledger, t: ChemicalType, acquireFromBoard: bool)
    requires WellFormed(player.rows) && WellFormed(supply.rows)
    requires !IsTradeImpossible(Payer(player, supply, acquireFromBoard).vouchers, TradeCost(supply, t, acquireFromBoard))
    requires Count((if acquireFromBoard then supply else player).rows, t) == 0
    ensures var c := TradeCost(supply, t, acquireFromBoard).n;
            Trade(player, supply, t, acquireFromBoard) ==
              if acquireFromBoard then
                TradeResult(EmptyRowError(c), player.(vouchers := player.vouchers - c), supply.(vouchers := supply.vouchers + c))
              else
                TradeResult(EmptyRowError(c), player.(vouchers := player.vouchers + c), supply.(vouchers := supply.vouchers - c))
  {
  }

  // ---------------------------------------------------------------------
  // `ChemicalSupply.store_chemical` as written calls `appendleft()` with no
  // argument, which raises TypeError. A return trade therefore fails after the
  // vouchers have moved and after the player's chemical has been popped. The
  // rest of the model (Trade above) pushes the chemical at the front of the
  // Supply's row, as `Player.store_chemical` does.
  // ---------------------------------------------------------------------

  /**
   * `trade_chemical` with the Supply's store as written: a return trade that
   * gets as far as popping the player's chemical ends in TypeError, with the
   * vouchers moved and the chemical in neither row.
   */
  function TradeAsWritten(player: Ledger, supply: Ledger, t: ChemicalType, acquireFromBoard: bool): (r: TradeResult)
    requires WellFormed(player.rows) && WellFormed(supply.rows)
    ensures var fixed := Trade(player, supply, t, acquireFromBoard);
            acquireFromBoard || !fixed.outcome.TradeDone? ==> r == fixed
    ensures var fixed := Trade(player, supply, t, acquireFromBoard);
            !acquireFromBoard && fixed.outcome.TradeDone? ==>
              r.outcome == StoreTypeError(fixed.outcome.cost) &&
              r.player == fixed.player &&
              r.supply.vouchers == supply.vouchers - fixed.outcome.cost &&
              r.supply.rows == supply.rows
  {
    var r := Trade(player, supply, t, acquireFromBoard);
    if acquireFromBoard || !r.outcome.TradeDone? then r
    else TradeResult(StoreTypeError(r.outcome.cost), r.player, r.supply.(rows := supply.rows))
  }

  /** As written, every return trade that should complete raises TypeError and destroys the returned chemical. */
  lemma ReturnAsWrittenLosesChemical(player: Ledger, supply: Ledger, t: ChemicalType)
    requires WellFormed(player.rows) && WellFormed(supply.rows)
    requires Trade(player, supply, t, false).outcome.TradeDone?
    ensures var r := TradeAsWritten(player, supply, t, false);
            r.outcome.StoreTypeError? &&
            r.player == Trade(player, supply, t, false).player &&
            r.player.vouchers == player.vouchers + r.outcome.cost &&
            r.supply.vouchers == supply.vouchers - r.outcome.cost && r.supply.rows == supply.rows &&
            Count(r.player.rows, t) + Count(r.supply.rows, t) == Count(player.rows, t) + Count(supply.rows, t) - 1
  {
    TradeConservesVouchers(player, supply, t, false);
    TradeDoneMovesOneChemical(player, supply, t, false);
  }

  /**
   * An instance: a player returns its one Verdino to a Supply row of depth 4
   * holding 5 vouchers; the Supply pays 1 and neither side holds the Verdino afterwards.
   */
  lemma ReturnAsWrittenExample()
    ensures var player := Ledger(InitializeChemicals(0)[Verdino := [Chemical(Verdino)]], 0);
            var supply := Ledger(InitializeChemicals(4), 5);
            WellFormed(player.rows) && WellFormed(supply.rows) &&
            var r := TradeAsWritten(player, supply, Verdino, false);
            r.outcome == StoreTypeError(1) && r.player.vouchers == 1 && r.supply.vouchers == 4 &&
            Count(r.player.rows, Verdino) == 0 && Count(r.supply.rows, Verdino) == 4
  {
    var player := Ledger(InitializeChemicals(0)[Verdino := [Chemical(Verdino)]], 0);
    var supply := Ledger(InitializeChemicals(4), 5);
    assert WellFormed(player.rows);
    assert TradeCost(supply, Verdino, false) == Finite(1);
    TradeDoneMovesOneChemical(player, supply, Verdino, false);
    ReturnAsWrittenLosesChemical(player, supply, Verdino);
  }
}
