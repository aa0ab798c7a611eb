/**
 * The two mutable objects of the game: the `ChemicalSupply` and each
 * `Player`. Each holds a row per chemical type and a voucher balance that its
 * methods update in place; every method is specified by the functions on rows
 * and ledgers in modules Chemicals and Exchange.
 */
module Ledgers {
  import opened Wrappers
  import opened Chemicals
  import opened Pricing
  import opened Exchange

  class ChemicalSupply {
    var chemicals: Rows
    var supplyVouchers: int

    ghost predicate Valid()
      reads this
    {
      WellFormed(chemicals)
    }

    /** The Supply as a ledger value. */
    function State(): Ledger
      reads this
    {
      Ledger(chemicals, supplyVouchers)
    }

    /** The dataclass constructor; the balance defaults to 0. */
    constructor (chemicals: Rows, supplyVouchers: int := 0)
      requires WellFormed(chemicals)
      ensures Valid() && State() == Ledger(chemicals, supplyVouchers)
    {
      this.chemicals := chemicals;
      this.supplyVouchers := supplyVouchers;
    }

    /** `_get_chemical_row`: the row of type t, which holds only chemicals of that type. */
    function GetChemicalRow(t: ChemicalType): (row: seq<Chemical>)
      reads this
      requires Valid()
      ensures |row| == Count(chemicals, t)
      ensures forall c :: c in row ==> c.kind == t
    {
      chemicals[t]
    }

    /**
     * `get_cost_of_chemical`: the scarcity price for the current depth of the
     * row of type t; it reads the Supply and changes nothing.
     */
    function GetCostOfChemical(t: ChemicalType, acquireFromBoard: bool): (cost: Cost)
      reads this
      requires Valid()
      ensures cost == CostOfChemical(Count(chemicals, t), acquireFromBoard)
      ensures cost.Infinite? <==> Count(chemicals, t) + DirectionOffset(acquireFromBoard) > |CostChemicals|
    {
      CostOfChemical(|GetChemicalRow(t)|, acquireFromBoard)
    }

    /**
     * `store_chemical`: pushes the chemical at the front of its type's row.
     * The source calls `appendleft()` without the chemical, which raises
     * TypeError; this method does what `Player.store_chemical` does, which is
     * evidently what was meant.
     */
    method StoreChemical(c: Chemical)
      requires Valid()
      modifies this
      ensures Valid()
      ensures chemicals == Store(old(chemicals), c) && supplyVouchers == old(supplyVouchers)
    {
      chemicals := chemicals[c.kind := [c] + GetChemicalRow(c.kind)];
    }

    /** `retreive_chemical`: pops the front of the row of type t; None where `popleft` raises on an empty row. */
    method RetrieveChemical(t: ChemicalType) returns (r: Option<Chemical>)
      requires Valid()
      modifies this
      ensures Valid() && supplyVouchers == old(supplyVouchers)
      ensures r.None? <==> old(Count(chemicals, t)) == 0
      ensures r.None? ==> chemicals == old(chemicals)
      ensures r.Some? ==> Retrieve(old(chemicals), t) == Some((r.value, chemicals))
    {
      var row := GetChemicalRow(t);
      if row == [] {
        return None;
      }
      r := Some(row[0]);
      chemicals := chemicals[t := row[1..]];
    }
  }

  class Player {
    const name: string
    var chemicals: Rows
    var supplyVouchers: int

    ghost predicate Valid()
      reads this
    {
      WellFormed(chemicals)
    }

    /** The player as a ledger value. */
    function State(): Ledger
      reads this
    {
      Ledger(chemicals, supplyVouchers)
    }

    constructor (name: string, chemicals: Rows, supplyVouchers: int)
      requires WellFormed(chemicals)
      ensures Valid() && this.name == name && State() == Ledger(chemicals, supplyVouchers)
    {
      this.name := name;
      this.chemicals := chemicals;
      this.supplyVouchers := supplyVouchers;
    }

    /** `_get_chemical_row`: the row of type t, which holds only chemicals of that type. */
    function GetChemicalRow(t: ChemicalType): (row: seq<Chemical>)
      reads this
      requires Valid()
      ensures |row| == Count(chemicals, t)
      ensures forall c :: c in row ==> c.kind == t
    {
      chemicals[t]
    }

    /** `store_chemical`: pushes the chemical at the front of its type's row. */
    method StoreChemical(c: Chemical)
      requires Valid()
      modifies this
      ensures Valid()
      ensures chemicals == Store(old(chemicals), c) && supplyVouchers == old(supplyVouchers)
    {
      chemicals := chemicals[c.kind := [c] + GetChemicalRow(c.kind)];
    }

    /** `retreive_chemical`: pops the front of the row of type t; None where `popleft` raises on an empty row. */
    method RetrieveChemical(t: ChemicalType) returns (r: Option<Chemical>)
      requires Valid()
      modifies this
      ensures Valid() && supplyVouchers == old(supplyVouchers)
      ensures r.None? <==> old(Count(chemicals, t)) == 0
      ensures r.None? ==> chemicals == old(chemicals)
      ensures r.Some? ==> Retrieve(old(chemicals), t) == Some((r.value, chemicals))
    {
      var row := GetChemicalRow(t);
      if row == [] {
        return None;
      }
      r := Some(row[0]);
      chemicals := chemicals[t := row[1..]];
    }

    /**
     * `trade_chemical`: the chemical moves from the Supply to this player on an
     * acquire and back on a return; its destination pays the Supply's price.
     * The vouchers move before the chemical is popped, so a source row that
     * turns out empty leaves them moved (EmptyRowError).
     */
    method TradeChemical(t: ChemicalType, supply: ChemicalSupply, acquireFromBoard: bool) returns (outcome: TradeOutcome)
      requires Valid() && supply.Valid()
      modifies this, supply
      ensures Valid() && supply.Valid()
      ensures TradeResult(outcome, State(), supply.State())
                == Trade(old(State()), old(supply.State()), t, acquireFromBoard)
      ensures outcome.TradeBlocked? ==> State() == old(State()) && supply.State() == old(supply.State())
      ensures supplyVouchers + supply.supplyVouchers == old(supplyVouchers + supply.supplyVouchers)
    {
      ghost var player0, supply0 := State(), supply.State();
      var cost := supply.GetCostOfChemical(t, acquireFromBoard);
      var payerBalance := if acquireFromBoard then supplyVouchers else supply.supplyVouchers;
      if IsTradeImpossible(payerBalance, cost) {
        return TradeBlocked;
      }
      if acquireFromBoard {
        supply.supplyVouchers := supply.supplyVouchers + cost.n;
        supplyVouchers := supplyVouchers - cost.n;
        var chemical := supply.RetrieveChemical(t);
        if chemical.None? {
          return EmptyRowError(cost.n);
        }
        StoreChemical(chemical.value);
      } else {
        supplyVouchers := supplyVouchers + cost.n;
        supply.supplyVouchers := supply.supplyVouchers - cost.n;
        var chemical := RetrieveChemical(t);
        if chemical.None? {
          return EmptyRowError(cost.n);
        }
        supply.StoreChemical(chemical.value);
      }
      outcome := TradeDone(cost.n);
      TradeConservesVouchers(player0, supply0, t, acquireFromBoard);
    }
  }
}
