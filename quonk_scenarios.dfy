/** The scenarios of tests/test_database.py, and two that show how
    settlement rounding and the leaderboard's join behave, replayed against
    the Quonk ledger model.
    Prices and amounts are in micro-units: `10 * MICRO` is 10 units. */
module QuonkScenarios {
  import opened Money
  import opened Outcomes
  import opened QuonkDatabase

  /** Registration, user_exists and validate_user (test_register_user,
      test_user_exists, test_validate_user, test_get_cash). */
  method RegisterScenario() returns (before: bool, unknown: Outcome, first: Outcome, second: Outcome,
                                     after: bool, known: Outcome, balance: int)
    ensures !before && unknown == Fail(UserDoesNotExist)
    ensures first == Pass && second == Fail(Error.UserExists)
    ensures after && known == Pass
    ensures balance == 10000 * MICRO
  {
    var db := new Database();
    before := db.UserExists(0);
    unknown := db.ValidateUser(0);
    first := db.Register(0);
    second := db.Register(0);
    after := db.UserExists(0);
    known := db.ValidateUser(0);
    balance := db.GetCash(0);
  }

  /** add_cash rounds its argument to six decimals and has no floor
      (test_add_cash): +1, then +1.00000009, then -10000. */
  method AddCashScenario() returns (first: int, second: int, third: int)
    ensures first == 10001 * MICRO
    ensures second == 10002 * MICRO
    ensures third == 2 * MICRO
  {
    var db := new Database();
    var _ := db.Register(0);
    db.AddCash(0, MICRO, 1);
    first := db.GetCash(0);
    // 1.00000009 units = 100000009 / 100 micro-units
    assert Trunc(100000009, 100) == MICRO;
    db.AddCash(0, 100000009, 100);
    second := db.GetCash(0);
    db.AddCash(0, -10000 * MICRO, 1);
    third := db.GetCash(0);
  }

  /** Buying opens a position (test_get_shares, test_get_holding). */
  method BuyScenario() returns (before: int, after: int, shares: int, price: int, value: int)
    ensures before == 0 && after == 10
    ensures shares == 10 && price == 10 * MICRO && value == 100 * MICRO
  {
    var db := new Database();
    var _ := db.Register(0);
    before := db.Shares(0, "ABC");
    var r := db.BuyQuonks(0, "ABC", 10, 10 * MICRO);
    after := db.Shares(0, "ABC");
    var h := db.GetHolding(0, "ABC");
    shares, price, value := h.Shares(), h.Price(), h.Value();
  }

  /** The cost is debited; an unaffordable order is refused with the limit
      0 (test_buy_quonks). */
  method BuyLimitScenario() returns (cash: int, shares: int, refused: Outcome)
    ensures cash == 5000 * MICRO && shares == 5
    ensures refused == Fail(NotEnoughCash(0))
  {
    var db := new Database();
    var _ := db.Register(0);
    var r := db.BuyQuonks(0, "ABC", 5, 1000 * MICRO);
    cash := db.GetCash(0);
    shares := db.Shares(0, "ABC");
    refused := db.BuyQuonks(0, "ABC", 10000, 10000 * MICRO);
  }

  /** Observation adds value whichever way the price moves, and selling
      settles at value per share (test_observe_price, then selling all ten at
      10: 300 / 10 = 30 per share). */
  method ObserveScenario() returns (v0: int, v1: int, v2: int, settled: Result<int>, cash: int, left: int)
    ensures v0 == 100 * MICRO && v1 == 200 * MICRO && v2 == 300 * MICRO
    ensures settled == Success(30 * MICRO)
    ensures cash == 10200 * MICRO && left == 0
  {
    var db := new Database();
    var _ := db.Register(0);
    var r := db.BuyQuonks(0, "ABC", 10, 10 * MICRO);
    var h := db.GetHolding(0, "ABC");
    v0 := h.Value();
    db.ObservePrice(0, "ABC", 20 * MICRO);
    v1 := h.Value();
    db.ObservePrice(0, "ABC", 10 * MICRO);
    v2 := h.Value();
    TruncGrid(30 * MICRO, 10);
    settled := db.SellQuonks(0, "ABC", 10, 10 * MICRO);
    cash := db.GetCash(0);
    left := db.Shares(0, "ABC");
  }

  /** Selling more than held is refused; partial and full sales settle at
      value per share (test_sell_quonks). */
  method SellScenario() returns (refused: Result<int>, cash1: int, cash2: int, shares2: int,
                                 cash3: int, shares3: int)
    ensures refused == Failure(InvalidShares)
    ensures cash1 == 5000 * MICRO
    ensures cash2 == 8600 * MICRO && shares2 == 2
    ensures cash3 == 11800 * MICRO && shares3 == 0
  {
    var db := new Database();
    var _ := db.Register(0);
    refused := db.SellQuonks(0, "ABC", 5, 1000 * MICRO);
    var b := db.BuyQuonks(0, "ABC", 5, 1000 * MICRO);
    assert db.holdings == map[(0, "ABC") := Position(5, 1000 * MICRO, 5000 * MICRO)];
    cash1 := db.GetCash(0);
    // observed at 1200: value 5000 + 5 * 200 = 6000, so 1200 per share
    assert Observe(Position(5, 1000 * MICRO, 5000 * MICRO), 1200 * MICRO) == Position(5, 1200 * MICRO, 6000 * MICRO);
    TruncGrid(1200 * MICRO, 5);
    var s1 := db.SellQuonks(0, "ABC", 3, 1200 * MICRO);
    assert db.holdings == map[(0, "ABC") := Position(2, 1200 * MICRO, 2400 * MICRO)];
    cash2 := db.GetCash(0);
    shares2 := db.Shares(0, "ABC");
    // observed at 800: value 2400 + 2 * 400 = 3200, so 1600 per share
    assert Observe(Position(2, 1200 * MICRO, 2400 * MICRO), 800 * MICRO) == Position(2, 800 * MICRO, 3200 * MICRO);
    TruncGrid(1600 * MICRO, 2);
    var s2 := db.SellQuonks(0, "ABC", 2, 800 * MICRO);
    cash3 := db.GetCash(0);
    shares3 := db.Shares(0, "ABC");
  }

  /** Holdings come back in ticker order (test_get_holdings). */
  method HoldingsScenario() returns (tickers: seq<string>)
    ensures tickers == ["ABC", "XYZ"]
  {
    var db := new Database();
    var _ := db.Register(0);
    var r1 := db.BuyQuonks(0, "XYZ", 10, 10 * MICRO);
    var r2 := db.BuyQuonks(0, "ABC", 10, 10 * MICRO);
    tickers := db.GetHoldings(0);
    Tickers.BelowIrreflexive("ABC");
    Tickers.TwoInOrder(tickers, "ABC", "XYZ");
  }

  /** delete_holdings removes the position (test_delete_holdings). */
  method DeleteScenario() returns (before: int, after: int)
    ensures before == 10 && after == 0
  {
    var db := new Database();
    var _ := db.Register(0);
    var r := db.BuyQuonks(0, "ABC", 10, 10 * MICRO);
    before := db.Shares(0, "ABC");
    db.DeleteHoldings(0, "ABC");
    after := db.Shares(0, "ABC");
  }

  /** Settlement rounding can leave a position with a negative value. Buy 2
      at 1 micro-unit, then 4 more at price 0: observing 0 adds 2 * 1 and the
      new shares add nothing, so 6 shares are worth 4. */
  lemma TopUpAtZero()
    ensures Merged(Opened(2, 1), 4, 0) == Position(6, 0, 4)
    ensures Observe(Position(6, 0, 4), 0) == Position(6, 0, 4)
  {
  }

  /** Selling 5 of those 6 shares at 0 settles at round(4 / 6) = 1 each, and
      the one share left is valued at 4 - 5 = -1. */
  lemma SettleFourOverSix()
    ensures SettlementPrice(Position(6, 0, 4)) == 1
    ensures 4 - SettlementPrice(Position(6, 0, 4)) * 5 == -1
  {
    TruncUnique(4, 6, 1);
  }

  /** The rows of a member holding ABC and XYZ, 10 each bought at 10. */
  function TwoPositions(): map<Key, Position> {
    map[(0, "ABC") := Opened(10, 10 * MICRO), (0, "XYZ") := Opened(10, 10 * MICRO)]
  }

  /** That member's holdings sum to 200 over two rows, so with 9800 in cash
      the leaderboard line reads 200 + 2 * 9800 rather than the 10000 the
      member is worth. */
  lemma DoubleCountedCash(leaders: seq<Leader>)
    requires |leaders| == 1 && Reports(TwoPositions(), map[0 := 9800 * MICRO], leaders)
    ensures Holders(TwoPositions()) == {0}
    ensures MemberValue(TwoPositions(), 0) == 200 * MICRO
    ensures leaders[0].member == 0 ==> leaders[0].value == (200 + 2 * 9800) * MICRO
  {
    var h := TwoPositions();
    assert (0, "ABC") in h && (0, "XYZ") in h;
    var keys := HeldBy(h, 0);
    assert keys == {(0, "ABC"), (0, "XYZ")};
    ValueSumRemove(h, keys, (0, "ABC"));
    assert keys - {(0, "ABC")} == {(0, "XYZ")};
    ValueSumRemove(h, {(0, "XYZ")}, (0, "XYZ"));
    assert {(0, "XYZ")} - {(0, "XYZ")} == {};
  }
}
