/** The earlier, lot-based ledger (database.py).

    Every buy and every sell appends a lot (member, ticker, signed share
    count, price) to an append-only list; a member's position in a ticker is
    the fold of its lots, and all of a ticker's lots are deleted once its net
    share count is back to 0. Amounts are micro-unit integers (module Money).
 */
module LotDatabase {
  import opened Money
  import opened Tickers
  import opened Outcomes

  /** Balance of a newly registered member: 10000 units. */
  const STARTING_CASH: int := 10000 * MICRO

  /** One row of HOLDINGS: `shares` is negative for a sale. */
  datatype Lot = Lot(member: int, ticker: string, shares: int, price: int)

  /** One line of `get_holdings`: a ticker and its net share count. */
  datatype Holding = Holding(ticker: string, shares: int)

  // ---------------------------------------------------------------------
  // Folds over the lots of one (member, ticker) pair
  // ---------------------------------------------------------------------

  predicate Of(l: Lot, m: int, t: string) {
    l.member == m && l.ticker == t
  }

  /** The pair has at least one lot (the GROUP BY yields a row). */
  predicate HasLots(lots: seq<Lot>, m: int, t: string)
    decreases |lots|
  {
    lots != [] && (Of(lots[|lots| - 1], m, t) || HasLots(lots[..|lots| - 1], m, t))
  }

  /** The pair has lots exactly when some lot is the pair's. */
  lemma {:induction false} HasLotsAt(lots: seq<Lot>, m: int, t: string)
    ensures HasLots(lots, m, t) <==> exists i :: 0 <= i < |lots| && Of(lots[i], m, t)
    decreases |lots|
  {
    if lots != [] {
      var init := lots[..|lots| - 1];
      HasLotsAt(init, m, t);
      if HasLots(init, m, t) {
        var i :| 0 <= i < |init| && Of(init[i], m, t);
        assert lots[i] == init[i];
      }
      if exists i :: 0 <= i < |lots| && Of(lots[i], m, t) {
        var i :| 0 <= i < |lots| && Of(lots[i], m, t);
        if i < |init| {
          assert init[i] == lots[i];
        }
      }
    }
  }

  /** `SUM(shares)` of the pair's lots (`get_shares`); a pair without lots
      gives no row, which `get_shares` turns into 0. */
  function NetShares(lots: seq<Lot>, m: int, t: string): (r: int)
    ensures !HasLots(lots, m, t) ==> r == 0
    decreases |lots|
  {
    if lots == [] then 0
    else
      var l := lots[|lots| - 1];
      NetShares(lots[..|lots| - 1], m, t) + (if Of(l, m, t) then l.shares else 0)
  }

  /** `SUM(shares * price)`: what the pair's lots cost, sales counted
      negative; nothing for a pair without lots. */
  function CostBasis(lots: seq<Lot>, m: int, t: string): (r: int)
    ensures !HasLots(lots, m, t) ==> r == 0
    decreases |lots|
  {
    if lots == [] then 0
    else
      var l := lots[|lots| - 1];
      CostBasis(lots[..|lots| - 1], m, t) + (if Of(l, m, t) then l.shares * l.price else 0)
  }

  /** `SUM(shares * ABS(price - p))`: each lot gains its share count times the
      distance of `p` from its price, whichever way the price moved; a pair
      without lots gives no row, which `get_profit` turns into 0. */
  function Profit(lots: seq<Lot>, m: int, t: string, p: int): (r: int)
    ensures !HasLots(lots, m, t) ==> r == 0
    decreases |lots|
  {
    if lots == [] then 0
    else
      var l := lots[|lots| - 1];
      Profit(lots[..|lots| - 1], m, t, p) + (if Of(l, m, t) then l.shares * Abs(l.price - p) else 0)
  }

  /** `SUM(shares * (price + ABS(price - p)))`: the value of a position is
      its cost basis plus its profit. */
  function Value(lots: seq<Lot>, m: int, t: string, p: int): (r: int)
    ensures r == CostBasis(lots, m, t) + Profit(lots, m, t, p)
    decreases |lots|
  {
    if lots == [] then 0
    else
      var l := lots[|lots| - 1];
      assert l.shares * (l.price + Abs(l.price - p)) == l.shares * l.price + l.shares * Abs(l.price - p);
      Value(lots[..|lots| - 1], m, t, p) + (if Of(l, m, t) then l.shares * (l.price + Abs(l.price - p)) else 0)
  }

  /** The lots left after `DELETE ... WHERE id = m AND ticker = t`: some lot
      goes exactly when the pair has lots. */
  function Without(lots: seq<Lot>, m: int, t: string): (r: seq<Lot>)
    ensures |r| <= |lots|
    ensures |r| == |lots| <==> !HasLots(lots, m, t)
    decreases |lots|
  {
    if lots == [] then []
    else
      var l := lots[|lots| - 1];
      Without(lots[..|lots| - 1], m, t) + (if Of(l, m, t) then [] else [l])
  }

  /** Appending a lot adds its contribution to every fold of its own pair
      and nothing to the folds of any other pair. */
  lemma FoldsAppend(lots: seq<Lot>, l: Lot, m: int, t: string, p: int)
    ensures NetShares(lots + [l], m, t) == NetShares(lots, m, t) + (if Of(l, m, t) then l.shares else 0)
    ensures CostBasis(lots + [l], m, t) == CostBasis(lots, m, t) + (if Of(l, m, t) then l.shares * l.price else 0)
    ensures Profit(lots + [l], m, t, p) == Profit(lots, m, t, p) + (if Of(l, m, t) then l.shares * Abs(l.price - p) else 0)
    ensures HasLots(lots + [l], m, t) <==> HasLots(lots, m, t) || Of(l, m, t)
  {
    var s := lots + [l];
    assert s[..|s| - 1] == lots;
  }

  /** While no lot is a sale, profit cannot be negative. */
  lemma {:induction false} ProfitWithoutSales(lots: seq<Lot>, m: int, t: string, p: int)
    requires forall i :: 0 <= i < |lots| ==> lots[i].shares >= 0
    ensures Profit(lots, m, t, p) >= 0
    decreases |lots|
  {
    if lots != [] {
      var l := lots[|lots| - 1];
      ProfitWithoutSales(lots[..|lots| - 1], m, t, p);
      assert l.shares * Abs(l.price - p) >= 0;
    }
  }

  /** A sale lot weighs its distance from `p` negatively, so profit can go
      below zero while shares are still held: buy 10 at 10, sell 5 at 30,
      then at 10 the profit is 10 * 0 - 5 * 20 = -100. */
  lemma ProfitCanBeNegative()
    ensures var lots := [Lot(0, "ABC", 10, 10 * MICRO), Lot(0, "ABC", -5, 30 * MICRO)];
      NetShares(lots, 0, "ABC") == 5 && Profit(lots, 0, "ABC", 10 * MICRO) == -100 * MICRO
  {
    var lots := [Lot(0, "ABC", 10, 10 * MICRO), Lot(0, "ABC", -5, 30 * MICRO)];
    var bought := [Lot(0, "ABC", 10, 10 * MICRO)];
    assert lots[..1] == bought && bought[..0] == [];
    assert NetShares(bought, 0, "ABC") == 10;
    assert Profit(bought, 0, "ABC", 10 * MICRO) == 0;
  }

  /** Deleting the pair's lots leaves none of them, and every lot left was
      there before. */
  lemma {:induction false} WithoutRemovesPair(lots: seq<Lot>, m: int, t: string)
    ensures !HasLots(Without(lots, m, t), m, t)
    ensures forall i :: 0 <= i < |Without(lots, m, t)| ==> Without(lots, m, t)[i] in lots
    decreases |lots|
  {
    if lots != [] {
      var init := lots[..|lots| - 1];
      WithoutRemovesPair(init, m, t);
      var w := Without(init, m, t);
      var l := lots[|lots| - 1];
      if Of(l, m, t) {
        assert Without(lots, m, t) == w + [] == w;
      } else {
        assert Without(lots, m, t) == w + [l];
        assert (w + [l])[..|w + [l]| - 1] == w;
      }
      forall i | 0 <= i < |Without(lots, m, t)|
        ensures Without(lots, m, t)[i] in lots
      {
        if i < |w| {
          assert Without(lots, m, t)[i] == w[i];
          assert w[i] in init;
        }
      }
    }
  }

  /** Every other pair keeps its share count, cost basis and profit. */
  lemma {:induction false} WithoutKeepsOthers(lots: seq<Lot>, m: int, t: string, m': int, t': string, p: int)
    requires m != m' || t != t'
    ensures NetShares(Without(lots, m, t), m', t') == NetShares(lots, m', t')
    ensures CostBasis(Without(lots, m, t), m', t') == CostBasis(lots, m', t')
    ensures Profit(Without(lots, m, t), m', t', p) == Profit(lots, m', t', p)
    decreases |lots|
  {
    if lots != [] {
      var init := lots[..|lots| - 1];
      var l := lots[|lots| - 1];
      WithoutKeepsOthers(init, m, t, m', t', p);
      var w := Without(init, m, t);
      if !Of(l, m, t) {
        assert (w + [l])[..|w + [l]| - 1] == w;
      } else {
        assert w + [] == w;
      }
    }
  }

  // ---------------------------------------------------------------------
  // Queries of database.py that read the lots
  // ---------------------------------------------------------------------

  /** `get_profit`: no GROUP BY row gives 0, otherwise the sum through
      `trunc`, which leaves a micro-unit amount as it is. */
  function GetProfit(lots: seq<Lot>, m: int, t: string, p: int): (r: int)
    ensures r == Profit(lots, m, t, p)
  {
    if !HasLots(lots, m, t) then 0
    else
      TruncGrid(Profit(lots, m, t, p), 1);
      Trunc(Profit(lots, m, t, p), 1)
  }

  /** `get_value`: with no lots the query has no row and the source fails
      (indexing None), modelled as `None`; otherwise the position is worth
      its cost basis plus its profit. */
  function GetValue(lots: seq<Lot>, m: int, t: string, p: int): (r: Option<int>)
    ensures r.None? <==> !HasLots(lots, m, t)
    ensures r.Some? ==> r.value == CostBasis(lots, m, t) + Profit(lots, m, t, p)
  {
    if !HasLots(lots, m, t) then None
    else
      TruncGrid(Value(lots, m, t, p), 1);
      Some(Trunc(Value(lots, m, t, p), 1))
  }

  // ---------------------------------------------------------------------
  // The ledger
  // ---------------------------------------------------------------------

  class Database {
    var members: set<int>
    var cash: map<int, int>
    var lots: seq<Lot>

    /** Every member has a balance and only members do. */
    ghost predicate Valid()
      reads this
    {
      cash.Keys == members
    }

    constructor ()
      ensures Valid()
      ensures members == {} && cash == map[] && lots == []
    {
      members, cash, lots := {}, map[], [];
    }

    /** A new id gets a balance of 10000; a known id is refused. */
    method Register(m: int) returns (r: Outcome)
      requires Valid()
      modifies this
      ensures Valid()
      ensures old(m in members) ==> r == Fail(Error.UserExists) && unchanged(this)
      ensures old(m !in members) ==>
        && r == Pass
        && members == old(members) + {m}
        && cash == old(cash)[m := STARTING_CASH]
        && lots == old(lots)
    {
      if m in members {
        // the MEMBERS primary key refuses the second INSERT
        return Fail(Error.UserExists);
      }
      members := members + {m};
      cash := cash[m := STARTING_CASH];
      r := Pass;
    }

    /** `COUNT(*) = 1` over MEMBERS. */
    method UserExists(m: int) returns (b: bool)
      ensures b <==> m in members
    {
      b := m in members;
    }

    /** The stored balance, passed through `trunc`, which leaves it as it is. */
    method GetCash(m: int) returns (c: int)
      requires m in cash
      ensures c == cash[m]
    {
      TruncGrid(cash[m], 1);
      c := Trunc(cash[m], 1);
    }

    /** Adds `delta` = n/d micro-units, rounded to a whole micro-unit first;
        there is no floor, so the balance may go negative. */
    method AddCash(m: int, n: int, d: int)
      requires Valid() && m in members && d > 0
      modifies this
      ensures Valid()
      ensures members == old(members) && lots == old(lots)
      ensures cash == old(cash)[m := old(cash)[m] + Trunc(n, d)]
    {
      var delta := Trunc(n, d);
      var c := GetCash(m);
      cash := cash[m := c + delta];
    }

    /** `INSERT INTO HOLDINGS`: appends one lot, unchecked. */
    method AddHolding(m: int, t: string, n: int, p: int)
      modifies this
      ensures members == old(members) && cash == old(cash)
      ensures lots == old(lots) + [Lot(m, t, n, p)]
      ensures NetShares(lots, m, t) == old(NetShares(lots, m, t)) + n
      ensures HasLots(lots, m, t)
    {
      lots := lots + [Lot(m, t, n, p)];
      assert lots[..|lots| - 1] == old(lots);
      assert Of(lots[|lots| - 1], m, t);
    }

    /** Deletes every lot of the pair. */
    method DeleteHoldings(m: int, t: string)
      modifies this
      ensures members == old(members) && cash == old(cash)
      ensures lots == Without(old(lots), m, t)
      ensures !HasLots(lots, m, t) && NetShares(lots, m, t) == 0
    {
      lots := Without(lots, m, t);
      WithoutRemovesPair(old(lots), m, t);
    }

    /** The member's tickers in ascending order, each once, with their net
        share counts. */
    method GetHoldings(m: int) returns (hs: seq<Holding>)
      ensures forall i, j :: 0 <= i < j < |hs| ==> Below(hs[i].ticker, hs[j].ticker)
      ensures forall t :: (exists i :: 0 <= i < |hs| && hs[i].ticker == t) <==> HasLots(lots, m, t)
      ensures forall i :: 0 <= i < |hs| ==> hs[i].shares == NetShares(lots, m, hs[i].ticker)
    {
      var held := set i | 0 <= i < |lots| && lots[i].member == m :: lots[i].ticker;
      var tickers := SortAscending(held);
      hs := [];
      var k := 0;
      while k < |tickers|
        invariant 0 <= k <= |tickers|
        invariant |hs| == k
        invariant forall i :: 0 <= i < k ==> hs[i] == Holding(tickers[i], NetShares(lots, m, tickers[i]))
      {
        hs := hs + [Holding(tickers[k], NetShares(lots, m, tickers[k]))];
        k := k + 1;
      }
      forall i | 0 <= i < |hs|
        ensures HasLots(lots, m, hs[i].ticker)
      {
        assert tickers[i] in held;
        HasLotsAt(lots, m, hs[i].ticker);
      }
      forall t | HasLots(lots, m, t)
        ensures exists i :: 0 <= i < |hs| && hs[i].ticker == t
      {
        HasLotsAt(lots, m, t);
        var j :| 0 <= j < |lots| && Of(lots[j], m, t);
        assert t in held;
        var i :| 0 <= i < |tickers| && tickers[i] == t;
        assert hs[i].ticker == t;
      }
    }

    /** Buys `n` shares of `t` at `p`. Refused, with nothing changed, for a
        non-positive count (checked before the balance is read, so for any
        id) or when they cost more than the balance; otherwise the cost is
        debited and a lot (n, p) appended. */
    method BuyStock(m: int, t: string, n: int, p: int) returns (r: Outcome)
      requires Valid() && (m in members || n <= 0) && p >= 0
      modifies this
      ensures Valid() && members == old(members)
      ensures n <= 0 ==> r == Fail(InvalidShares) && unchanged(this)
      ensures n > 0 && n * p > old(cash[m]) ==>
        && unchanged(this)
        && r == Fail(if p == 0 then DivisionByZero else NotEnoughCash(TruncDiv(old(cash[m]), p)))
      ensures n > 0 && n * p <= old(cash[m]) ==>
        && r == Pass
        && cash == old(cash)[m := old(cash[m]) - n * p]
        && lots == old(lots) + [Lot(m, t, n, p)]
      ensures r == Pass ==> NetShares(lots, m, t) == old(NetShares(lots, m, t)) + n
      ensures m in old(members) && old(cash[m]) >= 0 ==> cash[m] >= 0
    {
      if n <= 0 {
        return Fail(InvalidShares);
      }
      var c := GetCash(m);
      if n * p > c {
        if p == 0 {
          // int(cash / price) divides by zero (reachable only with a negative balance)
          return Fail(DivisionByZero);
        }
        var limit := TruncDiv(c, p);
        return Fail(NotEnoughCash(limit));
      }
      var cost := n * p;
      TruncGrid(-cost, 1);
      AddCash(m, -cost, 1);
      AddHolding(m, t, n, p);
      r := Pass;
    }

    /** Sells `n` shares of `t` at `p`. Refused, with nothing changed, for a
        non-positive count or more than the net shares held (so for any id
        without lots of `t`); otherwise the seller is a member, the proceeds
        n * p are credited, a lot (-n, p) appended, and all the pair's lots
        deleted once its net share count is 0. */
    method SellStock(m: int, t: string, n: int, p: int) returns (r: Outcome)
      requires Valid() && (m in members || !HasLots(lots, m, t))
      modifies this
      ensures Valid() && members == old(members)
      ensures n <= 0 || n > old(NetShares(lots, m, t)) ==> r == Fail(InvalidShares) && unchanged(this)
      ensures 0 < n <= old(NetShares(lots, m, t)) ==>
        && r == Pass
        && m in old(members)
        && cash == old(cash)[m := old(cash[m]) + n * p]
        && lots == if n == old(NetShares(lots, m, t))
                   then Without(old(lots) + [Lot(m, t, -n, p)], m, t)
                   else old(lots) + [Lot(m, t, -n, p)]
      ensures r == Pass ==> NetShares(lots, m, t) == old(NetShares(lots, m, t)) - n
      ensures r == Pass && n == old(NetShares(lots, m, t)) ==> !HasLots(lots, m, t)
    {
      if n <= 0 {
        return Fail(InvalidShares);
      }
      var current := NetShares(lots, m, t);
      if n > current {
        return Fail(InvalidShares);
      }
      var proceeds := n * p;
      TruncGrid(proceeds, 1);
      AddCash(m, proceeds, 1);
      AddHolding(m, t, -n, p);
      if NetShares(lots, m, t) == 0 {
        DeleteHoldings(m, t);
      }
      r := Pass;
    }
  }
}
