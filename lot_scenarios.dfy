/** The scenarios of test_app.py replayed against the lot ledger model.
    Prices and amounts are in micro-units: `10 * MICRO` is 10 units. */
module LotScenarios {
  import opened Money
  import opened Outcomes
  import opened LotDatabase

  /** Registration succeeds once, then is refused; `user_exists` flips from
      false to true; the opening balance is 10000 (test_register_user,
      test_user_exists, test_get_cash). */
  method RegisterScenario() returns (before: bool, first: Outcome, second: Outcome, after: bool, balance: int)
    ensures !before && after
    ensures first == Pass && second == Fail(Error.UserExists)
    ensures balance == 10000 * MICRO
  {
    var db := new Database();
    before := db.UserExists(0);
    first := db.Register(0);
    second := db.Register(0);
    after := db.UserExists(0);
    balance := db.GetCash(0);
  }

  /** +1, then +1.00000009 of which only 1 is kept, then -10000
      (test_add_cash). */
  method AddCashScenario() returns (first: int, second: int, third: int)
    ensures first == 10001 * MICRO
    ensures second == 10002 * MICRO
    ensures third == 2 * MICRO
  {
    var db := new Database();
    var _ := db.Register(0);
    db.AddCash(0, MICRO, 1);
    first := db.GetCash(0);
    // 1.00000009 units = 100000009 / 100 micro-units
    assert Trunc(100000009, 100) == MICRO;
    db.AddCash(0, 100000009, 100);
    second := db.GetCash(0);
    db.AddCash(0, -10000 * MICRO, 1);
    third := db.GetCash(0);
  }

  /** No lots means 0 shares; one lot of 10 means 10 (test_get_shares). */
  method SharesScenario() returns (before: int, after: int)
    ensures before == 0 && after == 10
  {
    var db := new Database();
    var _ := db.Register(0);
    before := NetShares(db.lots, 0, "ABC");
    db.AddHolding(0, "ABC", 10, 10 * MICRO);
    after := NetShares(db.lots, 0, "ABC");
  }

  /** The cost is debited; an unaffordable order and a negative count are
      refused (test_buy_stock). */
  method BuyScenario() returns (cash: int, shares: int, unaffordable: Outcome, negative: Outcome)
    ensures cash == 5000 * MICRO && shares == 5
    ensures unaffordable == Fail(NotEnoughCash(0))
    ensures negative == Fail(InvalidShares)
  {
    var db := new Database();
    var _ := db.Register(0);
    var r := db.BuyStock(0, "ABC", 5, 1000 * MICRO);
    cash := db.GetCash(0);
    shares := NetShares(db.lots, 0, "ABC");
    unaffordable := db.BuyStock(0, "ABC", 10000, 10000 * MICRO);
    negative := db.BuyStock(0, "ABC", -1, 1000 * MICRO);
  }

  /** Selling what is not held, a negative count, or more than held is
      refused; two sales take the position to 2 and then to 0
      (test_sell_stock). */
  method SellScenario() returns (none: Outcome, negative: Outcome, excess: Outcome, shares1: int, shares2: int, cash: int)
    ensures none == Fail(InvalidShares) && negative == Fail(InvalidShares) && excess == Fail(InvalidShares)
    ensures shares1 == 2 && shares2 == 0
    ensures cash == (5000 + 3 * 1200 + 2 * 1500) * MICRO
  {
    var db := new Database();
    var _ := db.Register(0);
    none := db.SellStock(0, "ABC", 10, 10 * MICRO);
    negative := db.SellStock(0, "ABC", -10, 10 * MICRO);
    var b := db.BuyStock(0, "ABC", 5, 1000 * MICRO);
    excess, shares1, shares2, cash := SellFromFive(db);
  }

  /** The second half of test_sell_stock, from 5 shares bought at 1000. */
  method SellFromFive(db: Database) returns (excess: Outcome, shares1: int, shares2: int, cash: int)
    requires db.Valid() && db.members == {0}
    requires db.lots == [Lot(0, "ABC", 5, 1000 * MICRO)] && db.cash == map[0 := 5000 * MICRO]
    modifies db
    ensures excess == Fail(InvalidShares)
    ensures shares1 == 2 && shares2 == 0
    ensures cash == (5000 + 3 * 1200 + 2 * 1500) * MICRO
  {
    assert NetShares(db.lots, 0, "ABC") == 5;
    excess := db.SellStock(0, "ABC", 6, 1000 * MICRO);
    var s1 := db.SellStock(0, "ABC", 3, 1200 * MICRO);
    shares1 := NetShares(db.lots, 0, "ABC");
    var s2 := db.SellStock(0, "ABC", 2, 1500 * MICRO);
    shares2 := NetShares(db.lots, 0, "ABC");
    cash := db.GetCash(0);
  }

  /** delete_holdings removes the position (test_delete_holdings). */
  method DeleteScenario() returns (before: int, after: int)
    ensures before == 10 && after == 0
  {
    var db := new Database();
    var _ := db.Register(0);
    var r := db.BuyStock(0, "ABC", 10, 10 * MICRO);
    before := NetShares(db.lots, 0, "ABC");
    db.DeleteHoldings(0, "ABC");
    after := NetShares(db.lots, 0, "ABC");
  }

  /** Profit counts the distance from every lot's price, in both directions
      (test_get_profit). */
  method ProfitScenario() returns (a10: int, a20: int, b10: int, b20: int, b5: int, c10: int, c20: int, d10: int, d20: int)
    ensures a10 == 0 && a20 == 100 * MICRO
    ensures b10 == 100 * MICRO && b20 == 100 * MICRO && b5 == (5 * 10 + 15 * 10) * MICRO
    ensures c10 == 0 && c20 == 100 * MICRO
    ensures d10 == 0 && d20 == 0
  {
    var db := new Database();
    var _ := db.Register(0);
    var r1 := db.BuyStock(0, "ABC", 10, 10 * MICRO);
    var buy1 := Lot(0, "ABC", 10, 10 * MICRO);
    FoldsAppend([], buy1, 0, "ABC", 10 * MICRO);
    FoldsAppend([], buy1, 0, "ABC", 20 * MICRO);
    FoldsAppend([], buy1, 0, "ABC", 5 * MICRO);
    a10, a20 := GetProfit(db.lots, 0, "ABC", 10 * MICRO), GetProfit(db.lots, 0, "ABC", 20 * MICRO);

    var r2 := db.BuyStock(0, "ABC", 10, 20 * MICRO);
    var buy2 := Lot(0, "ABC", 10, 20 * MICRO);
    FoldsAppend([buy1], buy2, 0, "ABC", 10 * MICRO);
    FoldsAppend([buy1], buy2, 0, "ABC", 20 * MICRO);
    FoldsAppend([buy1], buy2, 0, "ABC", 5 * MICRO);
    b10, b20 := GetProfit(db.lots, 0, "ABC", 10 * MICRO), GetProfit(db.lots, 0, "ABC", 20 * MICRO);
    b5 := GetProfit(db.lots, 0, "ABC", 5 * MICRO);

    var s1 := db.SellStock(0, "ABC", 10, 20 * MICRO);
    var sale1 := Lot(0, "ABC", -10, 20 * MICRO);
    FoldsAppend([buy1, buy2], sale1, 0, "ABC", 10 * MICRO);
    FoldsAppend([buy1, buy2], sale1, 0, "ABC", 20 * MICRO);
    c10, c20 := GetProfit(db.lots, 0, "ABC", 10 * MICRO), GetProfit(db.lots, 0, "ABC", 20 * MICRO);

    // the last sale brings the net count to 0, so every ABC lot is deleted
    var s2 := db.SellStock(0, "ABC", 10, 30 * MICRO);
    d10, d20 := GetProfit(db.lots, 0, "ABC", 10 * MICRO), GetProfit(db.lots, 0, "ABC", 20 * MICRO);
  }

  /** The value of the lots after buying 10 at 10. */
  lemma OneBuyValue(p: int)
    ensures GetValue([Lot(0, "ABC", 10, 10 * MICRO)], 0, "ABC", p)
         == Some(100 * MICRO + 10 * Abs(10 * MICRO - p))
  {
    var buy1 := Lot(0, "ABC", 10, 10 * MICRO);
    assert [] + [buy1] == [buy1];
    FoldsAppend([], buy1, 0, "ABC", p);
    assert HasLots([buy1], 0, "ABC");
    assert CostBasis([buy1], 0, "ABC") == 100 * MICRO;
    assert Profit([buy1], 0, "ABC", p) == 10 * Abs(10 * MICRO - p);
  }

  /** The value of the lots after buying 10 at 10 and 10 at 20. */
  lemma TwoBuysValue(p: int)
    ensures GetValue([Lot(0, "ABC", 10, 10 * MICRO), Lot(0, "ABC", 10, 20 * MICRO)], 0, "ABC", p)
         == Some(300 * MICRO + 10 * Abs(10 * MICRO - p) + 10 * Abs(20 * MICRO - p))
  {
    var buy1 := Lot(0, "ABC", 10, 10 * MICRO);
    assert [] + [buy1] == [buy1];
    FoldsAppend([], buy1, 0, "ABC", p);
    assert CostBasis([buy1], 0, "ABC") == 100 * MICRO;
    var buy2 := Lot(0, "ABC", 10, 20 * MICRO);
    FoldsAppend([buy1], buy2, 0, "ABC", p);
    assert [buy1] + [buy2] == [buy1, buy2];
    assert HasLots([buy1, buy2], 0, "ABC");
    assert CostBasis([buy1, buy2], 0, "ABC") == 300 * MICRO;
  }

  /** The value of those lots after selling 10 at 15. */
  lemma BuysAndSaleValue(p: int)
    ensures GetValue([Lot(0, "ABC", 10, 10 * MICRO), Lot(0, "ABC", 10, 20 * MICRO), Lot(0, "ABC", -10, 15 * MICRO)], 0, "ABC", p)
         == Some(150 * MICRO + 10 * Abs(10 * MICRO - p) + 10 * Abs(20 * MICRO - p) - 10 * Abs(15 * MICRO - p))
  {
    var buy1, buy2 := Lot(0, "ABC", 10, 10 * MICRO), Lot(0, "ABC", 10, 20 * MICRO);
    assert [] + [buy1] == [buy1];
    FoldsAppend([], buy1, 0, "ABC", p);
    assert CostBasis([buy1], 0, "ABC") == 100 * MICRO;
    FoldsAppend([buy1], buy2, 0, "ABC", p);
    assert [buy1] + [buy2] == [buy1, buy2];
    assert CostBasis([buy1, buy2], 0, "ABC") == 300 * MICRO;
    var sale1 := Lot(0, "ABC", -10, 15 * MICRO);
    FoldsAppend([buy1, buy2], sale1, 0, "ABC", p);
    assert [buy1, buy2] + [sale1] == [buy1, buy2, sale1];
    assert HasLots([buy1, buy2, sale1], 0, "ABC");
    assert CostBasis([buy1, buy2, sale1], 0, "ABC") == 150 * MICRO;
  }

  /** Value is what each lot cost plus its distance from the price
      (test_get_value). */
  method ValueScenario() returns (a10: Option<int>, a20: Option<int>, a0: Option<int>,
                                  b10: Option<int>, b5: Option<int>, b30: Option<int>, c20: Option<int>)
    ensures a10 == Some(100 * MICRO) && a20 == Some(200 * MICRO) && a0 == Some(200 * MICRO)
    ensures b10 == Some((10 * 10 + 30 * 10) * MICRO) && b5 == Some((15 * 10 + 35 * 10) * MICRO)
    ensures b30 == Some(30 * 20 * MICRO)
    ensures c20 == Some((10 * 20 + 10 * 20 - 10 * 20) * MICRO)
  {
    var db := new Database();
    var _ := db.Register(0);
    var r1 := db.BuyStock(0, "ABC", 10, 10 * MICRO);
    assert db.lots == [Lot(0, "ABC", 10, 10 * MICRO)];
    OneBuyValue(10 * MICRO);
    OneBuyValue(20 * MICRO);
    OneBuyValue(0);
    a10, a20, a0 := GetValue(db.lots, 0, "ABC", 10 * MICRO), GetValue(db.lots, 0, "ABC", 20 * MICRO), GetValue(db.lots, 0, "ABC", 0);
    b10, b5, b30, c20 := ValueAfterSecondBuy(db);
  }

  /** The rest of test_get_value, from 10 shares bought at 10. */
  method ValueAfterSecondBuy(db: Database) returns (b10: Option<int>, b5: Option<int>, b30: Option<int>, c20: Option<int>)
    requires db.Valid() && db.members == {0}
    requires db.lots == [Lot(0, "ABC", 10, 10 * MICRO)] && db.cash == map[0 := 9900 * MICRO]
    modifies db
    ensures b10 == Some((10 * 10 + 30 * 10) * MICRO) && b5 == Some((15 * 10 + 35 * 10) * MICRO)
    ensures b30 == Some(30 * 20 * MICRO)
    ensures c20 == Some((10 * 20 + 10 * 20 - 10 * 20) * MICRO)
  {
    var buy1, buy2, sale1 := Lot(0, "ABC", 10, 10 * MICRO), Lot(0, "ABC", 10, 20 * MICRO), Lot(0, "ABC", -10, 15 * MICRO);
    var r2 := db.BuyStock(0, "ABC", 10, 20 * MICRO);
    assert db.lots == [buy1, buy2];
    TwoBuysValue(10 * MICRO);
    TwoBuysValue(5 * MICRO);
    TwoBuysValue(30 * MICRO);
    b10, b5, b30 := GetValue(db.lots, 0, "ABC", 10 * MICRO), GetValue(db.lots, 0, "ABC", 5 * MICRO), GetValue(db.lots, 0, "ABC", 30 * MICRO);

    assert NetShares(db.lots, 0, "ABC") == 20 by {
      FoldsAppend([], buy1, 0, "ABC", 0);
      assert [] + [buy1] == [buy1];
      FoldsAppend([buy1], buy2, 0, "ABC", 0);
      assert [buy1] + [buy2] == [buy1, buy2];
    }
    var s1 := db.SellStock(0, "ABC", 10, 15 * MICRO);
    assert db.lots == [buy1, buy2, sale1];
    BuysAndSaleValue(20 * MICRO);
    c20 := GetValue(db.lots, 0, "ABC", 20 * MICRO);
  }

  /** Holdings come back in ticker order (test_get_holdings). */
  method HoldingsScenario() returns (hs: seq<Holding>)
    ensures |hs| == 2 && hs[0].ticker == "ABC" && hs[1].ticker == "XYZ"
  {
    var db := new Database();
    var _ := db.Register(0);
    var r1 := db.BuyStock(0, "XYZ", 10, 10 * MICRO);
    var r2 := db.BuyStock(0, "ABC", 10, 10 * MICRO);
    hs := db.GetHoldings(0);
    var lots := db.lots;
    assert lots == [Lot(0, "XYZ", 10, 10 * MICRO), Lot(0, "ABC", 10, 10 * MICRO)];
    assert Of(lots[0], 0, "XYZ") && Of(lots[1], 0, "ABC");
    var tickers := seq(|hs|, i requires 0 <= i < |hs| => hs[i].ticker);
    forall x
      ensures x in tickers <==> x == "ABC" || x == "XYZ"
    {
      if x in tickers {
        var i :| 0 <= i < |tickers| && tickers[i] == x;
        assert hs[i].ticker == x;
        assert HasLots(lots, 0, x);
        HasLotsAt(lots, 0, x);
        var j :| 0 <= j < |lots| && Of(lots[j], 0, x);
      }
      if x == "ABC" || x == "XYZ" {
        assert HasLots(lots, 0, x);
        var i :| 0 <= i < |hs| && hs[i].ticker == x;
        assert tickers[i] == x;
      }
    }
    Tickers.TwoInOrder(tickers, "ABC", "XYZ");
    assert |hs| == |tickers| && hs[0].ticker == tickers[0] && hs[1].ticker == tickers[1];
  }
}
