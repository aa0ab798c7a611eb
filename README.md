# Weather Machine trading economy, in Dafny

A model of the trading economy of the Weather Machine mini-game
(`src/weather_machine/main.py`). Players trade "chemicals" of five types with a
shared `ChemicalSupply`. The price is paid in supply vouchers and depends on
scarcity.

- **Chemicals** (`chemicals.dfy`) holds the five chemical types and the chemical
  record. The Supply and every Player keep one row (a `deque`) per type.
  `Store` is `appendleft` and `Retrieve` is `popleft`. A row is a `seq` whose
  index 0 is the front. `InitializeChemicals` is `initialize_chemicals`.
- **Pricing** (`pricing.dfy`) holds the schedule `COST_CHEMICALS = [1, 1, 2, 2, 3]`.
  It models `get_cost_of_chemical` literally, Python negative indexing
  included. The `IndexError` that becomes `np.inf` is the tagged cost `Infinite`.
- **Exchange** (`exchange.dfy`) is `trade_chemical` as a function on ledger
  values (rows plus balance). The chemical moves from its source to its
  destination, and the destination pays. This module holds the lemmas about
  one trade: blocked trades, voucher and chemical conservation, and the exact
  rows after a completed trade.
- **Session** (`session.dfy`) plays a sequence of trades by several players.
  It proves that vouchers and chemicals are conserved over any such sequence.
  It also proves the opening position's buy-out scenario.
- **Ledgers** (`ledgers.dfy`) holds the classes `ChemicalSupply` and `Player`.
  Their fields are updated in place. Their methods are proved against the
  functions above.

Behaviour of the code that the model keeps as it is:

- Acquiring from an empty Supply row costs 1, not infinity. The negated index
  is `-0`, which reads the first entry. The TODO at main.py:55 suggests
  infinity was meant.
- A trade is not atomic. The vouchers move (main.py:103-104) before the
  chemical is popped (main.py:107). When the source row is empty, `popleft`
  raises after the vouchers have moved. This is the outcome `EmptyRowError`,
  and a session stops there. It happens in both directions: acquiring from an
  empty Supply row, and returning a type the player does not hold, where the
  Supply has already paid the player. Neither is a no-op.
- A return to the Supply is paid by the Supply. The payer is the chemical's
  destination (main.py:99). The Supply starts with no vouchers, so returns
  are blocked until it has earned some.

## Model

| member | source | states |
|---|---|---|
| `Chemicals.Store` | src/weather_machine/main.py:82-83 | pushing a chemical adds one to its own type's row and leaves every other row unchanged; the rows stay well formed |
| `Chemicals.Retrieve` | src/weather_machine/main.py:65-66 | popping fails exactly on an empty row; otherwise it returns a chemical of the requested type and removes one from that row only |
| `Chemicals.StoreThenRetrieve` | src/weather_machine/main.py:83-86 | rows are stacks: retrieving right after storing returns the stored chemical and the original rows |
| `Chemicals.RetrieveThenStore` | src/weather_machine/main.py:83-86 | storing back the chemical just retrieved from a non-empty row restores the rows |
| `Chemicals.Repeat` | src/weather_machine/main.py:159 | `deque(Chemical(type=t) for i in range(n))` has max(n, 0) elements, all equal to the given chemical |
| `Chemicals.InitializeChemicals` | src/weather_machine/main.py:158-159 | every type gets a row of max(n, 0) chemicals of that type |
| `Pricing.CostOfChemical` | src/weather_machine/main.py:51-60 | with k = depth + (not acquire): the price is infinite exactly when k > 5; k = 0 reads `COST_CHEMICALS[0]`; 1 <= k <= 5 reads `COST_CHEMICALS[5 - k]` |
| `Pricing.ScheduleAscending` | src/weather_machine/main.py:51 | the cost schedule is ascending |
| `Pricing.AcquirePriceTable` | src/weather_machine/main.py:51-58 | acquire prices for depths 0..5 are 1, 3, 2, 2, 1, 1; for depth d in 1..5 it is `COST_CHEMICALS[5 - d]` |
| `Pricing.AcquireAtDepthZero` | src/weather_machine/main.py:55-58 | acquiring from an empty row costs 1 (index `-0`), the same as at depth 5 |
| `Pricing.ReturnIsAcquireOneDeeper` | src/weather_machine/main.py:58 | at every depth, the return price equals the acquire price one chemical deeper |
| `Pricing.ReturnPriceTable` | src/weather_machine/main.py:58-60 | the return price is `COST_CHEMICALS[4 - d]` for depth d <= 4 (3 at an empty row) and infinite exactly from depth 5 |
| `Pricing.AcquireNonIncreasing` | src/weather_machine/main.py:51-58 | over depths 1..5 the acquire price is finite and does not increase with depth |
| `Pricing.AcquireInfiniteIff` | src/weather_machine/main.py:57-60 | the acquire price is infinite exactly when the depth exceeds 5 |
| `Pricing.FiniteCostBounds` | src/weather_machine/main.py:51-58 | every finite price is between 1 and 3 |
| `Exchange.Move` | src/weather_machine/main.py:95-108 | the trade body for a given source and destination keeps both ledgers well formed |
| `Exchange.Trade` | src/weather_machine/main.py:94-109 | a trade keeps the Player's and the Supply's rows well formed and never ends in `StoreTypeError` (the corrected store cannot fail); the affordability test of main.py:99 is `Exchange.IsTradeImpossible` (true for every balance at an infinite price) |
| `Exchange.TradeBlockedIffUnaffordable` | src/weather_machine/main.py:98-102 | a trade is blocked exactly when the payer's balance minus the price is negative (always when infinite), and a blocked trade changes nothing |
| `Exchange.InfiniteCostBlocks` | src/weather_machine/main.py:59-60 | an infinite price always blocks the trade, leaving both ledgers unchanged |
| `Exchange.TradeConservesVouchers` | src/weather_machine/main.py:99-104 | the sum of the two balances never changes; when the trade goes ahead the payer loses exactly the finite price and keeps a non-negative balance |
| `Exchange.TradeDoneMovesOneChemical` | src/weather_machine/main.py:95-108 | a trade completes exactly when the payer can pay and the source row is non-empty; it moves the source's front chemical to the front of the destination's row and changes no other row |
| `Exchange.MoveConservesChemicals` | src/weather_machine/main.py:103-108 | the trade body keeps each type's joint count over source and destination, and touches only the traded type's rows |
| `Exchange.TradeConservesChemicals` | src/weather_machine/main.py:95-108 | no trade creates or destroys a chemical: each type's total over Player and Supply is kept, and other types' rows are unchanged |
| `Exchange.AcquireFromEmptyRowFailsAfterPaying` | src/weather_machine/main.py:98-107 | acquiring from an empty Supply row with at least one voucher charges 1 voucher and then fails with no chemical moved |
| `Exchange.TradeAsWritten` | src/weather_machine/main.py:62-63 | equals `Trade` except for a return that gets as far as the Supply's store; that return ends in `StoreTypeError` with the corrected trade's player ledger (vouchers received, chemical popped), the Supply down the price and the Supply's rows unchanged |
| `Exchange.TradeFromEmptyRowFailsAfterPaying` | src/weather_machine/main.py:98-107 | in both directions, when the payer can pay but the chemical's source row is empty, the trade ends in `EmptyRowError(cost)`: the payer is down the cost, the other side up the cost, and no row changes |
| `Exchange.ReturnAsWrittenLosesChemical` | src/weather_machine/main.py:62-63 | with the Supply's store as written, every return trade that should complete raises TypeError after the player has been paid and its chemical popped; the Supply has paid, its rows are unchanged, and one chemical is lost |
| `Exchange.ReturnAsWrittenExample` | src/weather_machine/main.py:62-63 | returning the only Verdino to a Supply of depth 4 with 5 vouchers moves 1 voucher and loses the Verdino |
| `Session.Play` | src/weather_machine/main.py:168-177 | playing turns keeps the number of players and the well-formedness of every ledger |
| `Session.PlayConservesVouchers` | src/weather_machine/main.py:103-104 | over any sequence of trades the total of vouchers held by the Supply and all players is constant |
| `Session.PlayConservesChemicals` | src/weather_machine/main.py:107-108 | over any sequence of trades the number of chemicals of each type held by the Supply and all players is constant |
| `Session.AcquireDone` | src/weather_machine/main.py:51-58 | an affordable acquire from a Supply row of depth 1..5 completes at `COST_CHEMICALS[5 - depth]` and moves one chemical |
| `Session.EmptyingARow` | src/weather_machine/main.py:94-109 | buying out a Supply row of depth d <= 5 completes every acquire and costs the sum of the acquire prices at depths d..1 |
| `Session.OpeningPosition` | src/weather_machine/main.py:163-165 | `Session.Opening` is the position built at these lines; the opening position has Supply rows of depth 5 and no Supply vouchers; each of the two players has 9 vouchers and no chemicals |
| `Session.BuyOutThenAcquireAgain` | src/weather_machine/main.py:51-109 | from depth 5 a player with 9 vouchers buys all five chemicals for 1+1+2+2+3 = 9; a sixth acquire is blocked; another player who can pay is charged 1 and the trade fails on the empty row; the other player's ledger is untouched by the buy-out |
| `Session.ReturnUnheldAfterBuyOut` | src/weather_machine/main.py:51-109 | after a buy-out of a row, another player holding none of that type who returns one is paid 3 by the Supply and then fails with `EmptyRowError(3)`, no chemical moving |
| `Session.VerdinoBuyOut` | src/weather_machine/main.py:51-109 | with two players of 9 vouchers and no Verdino and a Supply with a Verdino row of depth 5 and no vouchers, player one buys out the row ending with 0 vouchers and 5 Verdino, the Supply with 9 vouchers; player one's next acquire is blocked and player two's is charged 1 and fails on the empty row; player two returning a Verdino it does not hold is paid 3 (12 vouchers, Supply 6) and fails with `EmptyRowError(3)` |
| `Session.OpeningScenario` | src/weather_machine/main.py:163-175 | the opening position built at these lines plays out as `Session.VerdinoBuyOut` states: player one's buy-out of Verdino for 9, its blocked sixth acquire, player two's acquire charged 1 and failing, and player two's return of an unheld Verdino paid 3 (12 vouchers, Supply 6) and failing with `EmptyRowError(3)` |
| `Ledgers.ChemicalSupply.constructor` | src/weather_machine/main.py:48-52 | a Supply with the given rows and balance, the balance defaulting to 0 |
| `Ledgers.ChemicalSupply.GetChemicalRow` | src/weather_machine/main.py:68-69 | the row of a type has that type's count and holds only chemicals of that type |
| `Ledgers.ChemicalSupply.GetCostOfChemical` | src/weather_machine/main.py:54-60 | the price is the scarcity price of the Supply's current depth for the type, infinite exactly when depth plus return offset exceeds 5; it reads and changes nothing |
| `Ledgers.ChemicalSupply.StoreChemical` | src/weather_machine/main.py:62-63 | the chemical is pushed at the front of its type's row (the evidently intended behaviour), the balance unchanged |
| `Ledgers.ChemicalSupply.RetrieveChemical` | src/weather_machine/main.py:65-66 | fails, changing nothing, exactly on an empty row; otherwise returns the front chemical and removes it |
| `Ledgers.Player.constructor` | src/weather_machine/main.py:72-77 | a Player with the given name, rows and balance |
| `Ledgers.Player.GetChemicalRow` | src/weather_machine/main.py:79-80 | the row of a type has that type's count and holds only chemicals of that type |
| `Ledgers.Player.StoreChemical` | src/weather_machine/main.py:82-83 | the chemical is pushed at the front of its type's row, the balance unchanged |
| `Ledgers.Player.RetrieveChemical` | src/weather_machine/main.py:85-86 | fails, changing nothing, exactly on an empty row; otherwise returns the front chemical and removes it |
| `Ledgers.Player.TradeChemical` | src/weather_machine/main.py:94-109 | the new Player and Supply state and the outcome are those of `Exchange.Trade`; a blocked trade changes nothing; the two balances keep their sum |

## Left out

- `show_chemical_type_info` (main.py:112-125) is left out. It builds a pandas table and prints it.
- `prompt_user`, `ask_which_chemical_type`, `ask_to_trade` and the `__main__` round loop (main.py:131-177) are left out. They are console I/O. `Session.Play` takes the chosen player, type and direction of each turn as parameters. The fixed four rounds in player order are not modelled.
- The `print` calls in `trade_chemical` (main.py:101, 109) are left out. The outcome is returned as a `TradeOutcome` value instead.
- `Player.store_supply_vouchers`, `retreive_supply_vouchers` and `max_vouchers` (main.py:76, 88-92) are left out. They use an attribute `vouchers` that the dataclass never defines, and nothing calls them.
- The `Color` and `WeatherType` enums (main.py:20-32) are left out. They are never used.
- Floating point is left out. `np.inf` is the tagged cost `Infinite`. `Player.supply_vouchers`, annotated `float`, only ever holds integers and is an `int`.
- A raised exception is modelled as an outcome value. The interpreter would stop the program there. `Session.Play` stops at an `EmptyRowError`.
- Object identity of chemicals and deques is left out. Rows are values, so no deque is shared between two ledgers.
- Ledgers.ChemicalSupply.constructor: requires well-formed rows. Every type must have a row, and each row may hold only chemicals of its own type. The dataclass accepts any dictionary, and a missing type would raise `KeyError` only later, in `_get_chemical_row`. The only rows the program builds come from `initialize_chemicals`, which are well formed.
- Ledgers.Player.constructor: requires well-formed rows, for the same reason.

## Findings

| source | as written | input that shows it | evidently intended | confidence | as-written member | corrected member |
|---|---|---|---|---|---|---|
| src/weather_machine/main.py:62-63 | `ChemicalSupply.store_chemical` calls `appendleft()` with no argument. This raises TypeError after the vouchers have moved and the player's chemical has been popped, so the chemical is lost | A player holding one Verdino returns it. The Supply holds 4 Verdino and 5 vouchers. The Supply pays 1 voucher, and afterwards neither side holds the Verdino | Push the chemical at the front of its type's row, as `Player.store_chemical` does (main.py:83) | high; not executed | `Exchange.TradeAsWritten`, `Exchange.ReturnAsWrittenLosesChemical` | `Ledgers.ChemicalSupply.StoreChemical`, `Exchange.TradeConservesChemicals` |
