/**
 * A session: the Supply and several Players, and a sequence of trades in
 * which each turn one Player trades with the Supply. The choices each turn
 * (who, which type, which direction) come from the console in the source and
 * are parameters here.
 */
module Session {
  import opened Chemicals
  import opened Pricing
  import opened Exchange

  /** One turn: the index of the trading player, the chemical type and the direction. */
  datatype Turn = Turn(who: nat, kind: ChemicalType, acquireFromBoard: bool)

  predicate AllWellFormed(players: seq<Ledger>) {
    forall i :: 0 <= i < |players| ==> WellFormed(players[i].rows)
  }

  predicate TurnsFit(players: seq<Ledger>, turns: seq<Turn>) {
    forall i :: 0 <= i < |turns| ==> turns[i].who < |players|
  }

  /** Vouchers held by all players together. */
  function SumVouchers(players: seq<Ledger>): int {
    if players == [] then 0 else players[0].vouchers + SumVouchers(players[1..])
  }

  /** Chemicals of type t held by all players together. */
  function SumCount(players: seq<Ledger>, t: ChemicalType): nat
    requires AllWellFormed(players)
  {
    if players == [] then 0 else Count(players[0].rows, t) + SumCount(players[1..], t)
  }

  /** Replacing one player's ledger changes the voucher sum by the difference of the two balances. */
  lemma {:induction false} SumVouchersUpdate(players: seq<Ledger>, i: nat, p: Ledger)
    requires i < |players|
    ensures SumVouchers(players[i := p]) == SumVouchers(players) - players[i].vouchers + p.vouchers
  {
    if i > 0 {
      assert players[i := p][1..] == players[1..][i - 1 := p];
      SumVouchersUpdate(players[1..], i - 1, p);
    } else {
      assert players[i := p][1..] == players[1..];
    }
  }

  /** Replacing one player's ledger changes the count of type t by the difference of the two counts. */
  lemma {:induction false} SumCountUpdate(players: seq<Ledger>, i: nat, p: Ledger, t: ChemicalType)
    requires AllWellFormed(players) && i < |players| && WellFormed(p.rows)
    ensures AllWellFormed(players[i := p])
    ensures SumCount(players[i := p], t) == SumCount(players, t) - Count(players[i].rows, t) + Count(p.rows, t)
  {
    if i > 0 {
      assert players[i := p][1..] == players[1..][i - 1 := p];
      SumCountUpdate(players[1..], i - 1, p, t);
    } else {
      assert players[i := p][1..] == players[1..];
    }
  }

  /**
   * Plays the turns in order. A trade that ends in EmptyRowError raises in the
   * source and so ends the session with the state it left behind.
   */
  function Play(players: seq<Ledger>, supply: Ledger, turns: seq<Turn>): (r: (seq<Ledger>, Ledger))
    requires AllWellFormed(players) && WellFormed(supply.rows) && TurnsFit(players, turns)
    ensures |r.0| == |players| && AllWellFormed(r.0) && WellFormed(r.1.rows)
    decreases |turns|
  {
    if turns == [] then (players, supply)
    else
      var turn := turns[0];
      var res := Trade(players[turn.who], supply, turn.kind, turn.acquireFromBoard);
      var players' := players[turn.who := res.player];
      if res.outcome.EmptyRowError? then (players', res.supply)
      else Play(players', res.supply, turns[1..])
  }

  /** Voucher conservation: over any sequence of trades the total held by the Supply and all players is constant. */
  lemma {:induction false} PlayConservesVouchers(players: seq<Ledger>, supply: Ledger, turns: seq<Turn>)
    requires AllWellFormed(players) && WellFormed(supply.rows) && TurnsFit(players, turns)
    ensures var r := Play(players, supply, turns);
            SumVouchers(r.0) + r.1.vouchers == SumVouchers(players) + supply.vouchers
    decreases |turns|
  {
    if turns != [] {
      var turn := turns[0];
      var res := Trade(players[turn.who], supply, turn.kind, turn.acquireFromBoard);
      TradeConservesVouchers(players[turn.who], supply, turn.kind, turn.acquireFromBoard);
      SumVouchersUpdate(players, turn.who, res.player);
      if !res.outcome.EmptyRowError? {
        PlayConservesVouchers(players[turn.who := res.player], res.supply, turns[1..]);
      }
    }
  }

  /** Chemical conservation: over any sequence of trades the number of chemicals of each type is constant. */
  lemma {:induction false} PlayConservesChemicals(players: seq<Ledger>, supply: Ledger, turns: seq<Turn>, t: ChemicalType)
    requires AllWellFormed(players) && WellFormed(supply.rows) && TurnsFit(players, turns)
    ensures var r := Play(players, supply, turns);
            SumCount(r.0, t) + Count(r.1.rows, t) == SumCount(players, t) + Count(supply.rows, t)
    decreases |turns|
  {
    if turns != [] {
      var turn := turns[0];
      var res := Trade(players[turn.who], supply, turn.kind, turn.acquireFromBoard);
      TradeConservesChemicals(players[turn.who], supply, turn.kind, turn.acquireFromBoard, t);
      SumCountUpdate(players, turn.who, res.player, t);
      if !res.outcome.EmptyRowError? {
        PlayConservesChemicals(players[turn.who := res.player], res.supply, turns[1..], t);
      }
    }
  }

  /** An affordable acquire from a Supply row of depth 1..5 completes at the schedule's price for that depth. */
  lemma AcquireDone(player: Ledger, supply: Ledger, t: ChemicalType)
    requires WellFormed(player.rows) && WellFormed(supply.rows)
    requires 1 <= Count(supply.rows, t) <= |CostChemicals|
    requires player.vouchers >= CostChemicals[|CostChemicals| - Count(supply.rows, t)]
    ensures var price := CostChemicals[|CostChemicals| - Count(supply.rows, t)];
            var r := Trade(player, supply, t, true);
            r.outcome == TradeDone(price) &&
            r.player.vouchers == player.vouchers - price && r.supply.vouchers == supply.vouchers + price &&
            Count(r.player.rows, t) == Count(player.rows, t) + 1 &&
            Count(r.supply.rows, t) == Count(supply.rows, t) - 1
  {
    TradeDoneMovesOneChemical(player, supply, t, true);
    TradeConservesVouchers(player, supply, t, true);
    TradeConservesChemicals(player, supply, t, true, t);
  }

  /** One step of Play: a turn that does not end in EmptyRowError leaves the rest of the turns to play. */
  lemma PlayStep(players: seq<Ledger>, supply: Ledger, turns: seq<Turn>)
    requires AllWellFormed(players) && WellFormed(supply.rows) && TurnsFit(players, turns) && turns != []
    requires !Trade(players[turns[0].who], supply, turns[0].kind, turns[0].acquireFromBoard).outcome.EmptyRowError?
    ensures var res := Trade(players[turns[0].who], supply, turns[0].kind, turns[0].acquireFromBoard);
            Play(players, supply, turns) == Play(players[turns[0].who := res.player], res.supply, turns[1..])
  {
  }

  /** n acquires of type t by the same player. */
  function Acquires(who: nat, t: ChemicalType, n: nat): (turns: seq<Turn>)
    ensures |turns| == n && forall i :: 0 <= i < n ==> turns[i] == Turn(who, t, true)
  {
    if n == 0 then [] else [Turn(who, t, true)] + Acquires(who, t, n - 1)
  }

  /** Vouchers needed to buy a whole Supply row of depth d, one acquire at a time: the acquire prices of depths d, d-1, ..., 1. */
  function CostToEmpty(d: nat): nat
    requires d <= |CostChemicals|
  {
    if d == 0 then 0 else CostChemicals[|CostChemicals| - d] + CostToEmpty(d - 1)
  }

  /**
   * Buying a whole Supply row of depth d <= 5 with enough vouchers: every acquire
   * completes, the player ends with the d chemicals and CostToEmpty(d) fewer
   * vouchers, the Supply with an empty row and the vouchers.
   */
  lemma {:induction false} EmptyingARow(players: seq<Ledger>, supply: Ledger, who: nat, t: ChemicalType)
    returns (players': seq<Ledger>, supply': Ledger)
    requires AllWellFormed(players) && WellFormed(supply.rows) && who < |players|
    requires Count(supply.rows, t) <= |CostChemicals|
    requires players[who].vouchers >= CostToEmpty(Count(supply.rows, t))
    ensures AllWellFormed(players') && WellFormed(supply'.rows) && |players'| == |players|
    ensures Play(players, supply, Acquires(who, t, Count(supply.rows, t))) == (players', supply')
    ensures var d := Count(supply.rows, t);
            players' == players[who := players'[who]] &&
            players'[who].vouchers == players[who].vouchers - CostToEmpty(d) &&
            supply'.vouchers == supply.vouchers + CostToEmpty(d) &&
            Count(players'[who].rows, t) == Count(players[who].rows, t) + d && Count(supply'.rows, t) == 0
    decreases Count(supply.rows, t)
  {
    var d := Count(supply.rows, t);
    if d == 0 {
      assert Acquires(who, t, d) == [];
      players', supply' := players, supply;
    } else {
      var next, supplyNext := BuyOne(players, supply, who, t);
      assert CostToEmpty(d) == CostChemicals[|CostChemicals| - d] + CostToEmpty(d - 1);
      players', supply' := EmptyingARow(next, supplyNext, who, t);
      assert next[who := players'[who]] == players[who := players'[who]];
      BuyOnePlays(players, supply, who, t, next, supplyNext);
      assert Count(supplyNext.rows, t) == d - 1;
    }
  }

  /**
   * The first acquire of a buy-out: it completes at the price for the current
   * depth and leaves the state returned.
   */
  lemma BuyOne(players: seq<Ledger>, supply: Ledger, who: nat, t: ChemicalType)
    returns (players': seq<Ledger>, supply': Ledger)
    requires AllWellFormed(players) && WellFormed(supply.rows) && who < |players|
    requires 1 <= Count(supply.rows, t) <= |CostChemicals|
    requires players[who].vouchers >= CostChemicals[|CostChemicals| - Count(supply.rows, t)]
    ensures AllWellFormed(players') && WellFormed(supply'.rows) && |players'| == |players|
    ensures players' == players[who := players'[who]]
    ensures players' == players[who := Trade(players[who], supply, t, true).player]
    ensures supply' == Trade(players[who], supply, t, true).supply
    ensures var price := CostChemicals[|CostChemicals| - Count(supply.rows, t)];
            players'[who].vouchers == players[who].vouchers - price && supply'.vouchers == supply.vouchers + price &&
            Count(players'[who].rows, t) == Count(players[who].rows, t) + 1 &&
            Count(supply'.rows, t) == Count(supply.rows, t) - 1
  {
    var d := Count(supply.rows, t);
    var turns := Acquires(who, t, d);
    AcquireDone(players[who], supply, t);
    var res := Trade(players[who], supply, t, true);
    assert turns[0] == Turn(who, t, true) && turns[1..] == Acquires(who, t, d - 1);
    SumCountUpdate(players, who, res.player, t);
    players', supply' := players[who := res.player], res.supply;
  }

  /** Playing a buy-out is playing its first acquire, then the remaining acquires from the state that acquire leaves. */
  lemma BuyOnePlays(players: seq<Ledger>, supply: Ledger, who: nat, t: ChemicalType, players': seq<Ledger>, supply': Ledger)
    requires AllWellFormed(players) && WellFormed(supply.rows) && who < |players|
    requires 1 <= Count(supply.rows, t) <= |CostChemicals|
    requires players[who].vouchers >= CostChemicals[|CostChemicals| - Count(supply.rows, t)]
    requires players' == players[who := Trade(players[who], supply, t, true).player]
    requires supply' == Trade(players[who], supply, t, true).supply
    ensures AllWellFormed(players')
    ensures Play(players, supply, Acquires(who, t, Count(supply.rows, t))) == Play(players', supply', Acquires(who, t, Count(supply.rows, t) - 1))
  {
    var d := Count(supply.rows, t);
    var turns := Acquires(who, t, d);
    AcquireDone(players[who], supply, t);
    assert turns[0] == Turn(who, t, true) && turns[1..] == Acquires(who, t, d - 1);
    PlayStep(players, supply, turns);
  }

  /** The opening position: the Supply holds 5 of each type and no vouchers, each of two players 9 vouchers and no chemicals. */
  function Opening(): (seq<Ledger>, Ledger) {
    ([Ledger(InitializeChemicals(0), 9), Ledger(InitializeChemicals(0), 9)], Ledger(InitializeChemicals(5), 0))
  }

  /** The opening position is well formed, with Supply rows of depth 5 and players holding 9 vouchers and no chemicals. */
  lemma OpeningPosition()
    ensures var (players, supply) := Opening();
            |players| == 2 && AllWellFormed(players) && WellFormed(supply.rows) && supply.vouchers == 0 &&
            forall i, t :: 0 <= i < 2 ==> players[i].vouchers == 9 && Count(players[i].rows, t) == 0 && Count(supply.rows, t) == 5
  {
  }

  /**
   * From a Supply row of depth 5, a player with 9 vouchers acquires five times,
   * paying 1, 1, 2, 2 and 3: it ends with all five chemicals and no vouchers, the
   * Supply with the 9 vouchers. A sixth acquire is priced 1 at depth 0 and
   * blocked for want of vouchers; another player who can pay is charged 1 and
   * the trade ends in EmptyRowError.
   */
  lemma {:induction false} BuyOutThenAcquireAgain(players: seq<Ledger>, supply: Ledger, who: nat, other: nat, t: ChemicalType)
    requires AllWellFormed(players) && WellFormed(supply.rows)
    requires who < |players| && other < |players| && who != other
    requires Count(supply.rows, t) == 5 && players[who].vouchers == 9 && players[other].vouchers >= 1
    ensures var r := Play(players, supply, Acquires(who, t, 5));
            r.0[who].vouchers == 0 && Count(r.0[who].rows, t) == Count(players[who].rows, t) + 5 &&
            r.1.vouchers == supply.vouchers + 9 && Count(r.1.rows, t) == 0 &&
            r.0[other] == players[other] &&
            Trade(r.0[who], r.1, t, true).outcome == TradeBlocked &&
            Trade(r.0[other], r.1, t, true) ==
              TradeResult(EmptyRowError(1), r.0[other].(vouchers := r.0[other].vouchers - 1),
                          r.1.(vouchers := r.1.vouchers + 1))
  {
    assert CostToEmpty(5) == 9;
    var ps, s := EmptyingARow(players, supply, who, t);
    var r := Play(players, supply, Acquires(who, t, 5));
    assert r.0[other] == players[other];
    AcquireAtDepthZero();
    TradeBlockedIffUnaffordable(r.0[who], r.1, t, true);
    AcquireFromEmptyRowFailsAfterPaying(r.0[other], r.1, t);
  }

  /**
   * After a buy-out of a row, another player who holds none of that type and
   * returns one is paid the return price at depth 0 (3) by the Supply, and then
   * its own `popleft` fails: the vouchers move and no chemical does.
   */
  lemma {:induction false} ReturnUnheldAfterBuyOut(players: seq<Ledger>, supply: Ledger, who: nat, other: nat, t: ChemicalType)
    requires AllWellFormed(players) && WellFormed(supply.rows)
    requires who < |players| && other < |players| && who != other
    requires Count(supply.rows, t) == 5 && players[who].vouchers == 9 && supply.vouchers >= 0
    requires Count(players[other].rows, t) == 0
    ensures var r := Play(players, supply, Acquires(who, t, 5));
            Trade(r.0[other], r.1, t, false) ==
              TradeResult(EmptyRowError(3), players[other].(vouchers := players[other].vouchers + 3),
                          r.1.(vouchers := supply.vouchers + 6))
  {
    assert CostToEmpty(5) == 9;
    var ps, s := EmptyingARow(players, supply, who, t);
    var r := Play(players, supply, Acquires(who, t, 5));
    assert r.0[other] == players[other];
    ReturnPriceTable(0);
    TradeFromEmptyRowFailsAfterPaying(r.0[other], r.1, t, false);
  }

  /**
   * Two players with 9 vouchers and no Verdino each, and a Supply with a
   * Verdino row of depth 5 and no vouchers: player one buys out the row for 9
   * vouchers, its sixth acquire is blocked, and player two's acquire is charged
   * 1 and fails on the empty row. Player two returning a Verdino it does not
   * hold is not a no-op either: the Supply pays it 3 (the return price at
   * depth 0) and then its `popleft` fails.
   */
  lemma VerdinoBuyOut(players: seq<Ledger>, supply: Ledger)
    requires |players| == 2 && AllWellFormed(players) && WellFormed(supply.rows)
    requires players[0].vouchers == 9 && players[1].vouchers == 9 && supply.vouchers == 0
    requires Count(players[0].rows, Verdino) == 0 && Count(players[1].rows, Verdino) == 0 && Count(supply.rows, Verdino) == 5
    ensures TurnsFit(players, Acquires(0, Verdino, 5))
    ensures var r := Play(players, supply, Acquires(0, Verdino, 5));
            r.0[0].vouchers == 0 && Count(r.0[0].rows, Verdino) == 5 &&
            r.1.vouchers == 9 && Count(r.1.rows, Verdino) == 0 &&
            Trade(r.0[0], r.1, Verdino, true).outcome == TradeBlocked &&
            Trade(r.0[1], r.1, Verdino, true).outcome == EmptyRowError(1) &&
            Trade(r.0[1], r.1, Verdino, false) ==
              TradeResult(EmptyRowError(3), r.0[1].(vouchers := 12), r.1.(vouchers := 6))
  {
    BuyOutThenAcquireAgain(players, supply, 0, 1, Verdino);
    ReturnUnheldAfterBuyOut(players, supply, 0, 1, Verdino);
  }

  /** The opening position of the game plays out as VerdinoBuyOut describes. */
  lemma OpeningScenario(players: seq<Ledger>, supply: Ledger)
    requires (players, supply) == Opening()
    ensures AllWellFormed(players) && WellFormed(supply.rows) && TurnsFit(players, Acquires(0, Verdino, 5))
    ensures var r := Play(players, supply, Acquires(0, Verdino, 5));
            r.0[0].vouchers == 0 && Count(r.0[0].rows, Verdino) == 5 &&
            r.1.vouchers == 9 && Count(r.1.rows, Verdino) == 0 &&
            Trade(r.0[0], r.1, Verdino, true).outcome == TradeBlocked &&
            Trade(r.0[1], r.1, Verdino, true).outcome == EmptyRowError(1) &&
            Trade(r.0[1], r.1, Verdino, false) ==
              TradeResult(EmptyRowError(3), r.0[1].(vouchers := 12), r.1.(vouchers := 6))
  {
    OpeningPosition();
    VerdinoBuyOut(players, supply);
  }
}
