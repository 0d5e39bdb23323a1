/** The Quonk ledger of bot/database.py.

    Three tables: MEMBERS (registered ids), CASH (id -> balance) and HOLDINGS
    ((id, ticker) -> shares, last observed price, accumulated value). A Quonk
    position gains value from every price movement, up or down: each
    observation adds shares * |new price - last price|. Buying debits cash and
    opens or tops up a position; selling settles at the position's value per
    share. All amounts are micro-units (see module Money).
 */
module QuonkDatabase {
  import opened Money
  import opened Tickers
  import opened Outcomes

  /** Balance a member is registered with: 10000 units. */
  const STARTING_CASH: int := 10000 * MICRO

  /** Rows the leaderboard query keeps (`LIMIT 10`). */
  const LEADERBOARD_SIZE: nat := 10

  /** A HOLDINGS row: shares held, last observed price, accumulated value. */
  datatype Position = Position(shares: int, price: int, value: int)

  /** The key of a HOLDINGS row: (member id, ticker). */
  type Key = (int, string)

  /** A leaderboard line: a member and the figure shown beside it. */
  datatype Leader = Leader(member: int, value: int)

  // ---------------------------------------------------------------------
  // Price observation and settlement, on one position
  // ---------------------------------------------------------------------

  /** Observing price `p`: the position gains shares * |p - last price|, then
      remembers `p` as its last price. */
  function Observe(h: Position, p: int): (r: Position)
    ensures r.shares == h.shares && r.price == p
    ensures h.shares >= 0 ==> r.value >= h.value
    ensures r.value == h.value <==> h.shares == 0 || p == h.price
  {
    Position(h.shares, p, h.value + h.shares * Abs(p - h.price))
  }

  /** Total price movement along the observed prices `ps`, starting at `from`. */
  function Movement(from: int, ps: seq<int>): nat
    decreases |ps|
  {
    if ps == [] then 0 else Abs(ps[0] - from) + Movement(ps[0], ps[1..])
  }

  /** Observing the prices `ps` one after another. */
  function ObserveAll(h: Position, ps: seq<int>): Position
    decreases |ps|
  {
    if ps == [] then h else ObserveAll(Observe(h, ps[0]), ps[1..])
  }

  /** A run of observations adds shares times the total movement of the price,
      keeps the share count, and leaves the last price observed; so with
      shares >= 0 the value never goes down, whichever way the price moves. */
  lemma {:induction false} ObservationsAccumulate(h: Position, ps: seq<int>)
    ensures ObserveAll(h, ps).shares == h.shares
    ensures ObserveAll(h, ps).value == h.value + h.shares * Movement(h.price, ps)
    ensures ObserveAll(h, ps).price == if ps == [] then h.price else ps[|ps| - 1]
    ensures h.shares >= 0 ==> ObserveAll(h, ps).value >= h.value
    decreases |ps|
  {
    if ps != [] {
      var o := Observe(h, ps[0]);
      ObservationsAccumulate(o, ps[1..]);
      assert h.shares * Movement(h.price, ps)
          == h.shares * Abs(ps[0] - h.price) + h.shares * Movement(ps[0], ps[1..]);
    }
  }

  /** The per-share price a sale settles at: value / shares, rounded to
      micro-units by `trunc`. */
  function SettlementPrice(h: Position): (q: int)
    requires h.shares > 0
    ensures -h.shares <= 2 * (h.value - q * h.shares) <= h.shares
    ensures h.value >= 0 ==> q >= 0
  {
    Trunc(h.value, h.shares)
  }

  /** Position after buying `n` more shares at `p` into an existing one: the
      price is observed, then the shares are added AND n * p more value is
      added on top of the observation. */
  function Merged(h: Position, n: int, p: int): (r: Position)
    ensures r.shares == h.shares + n && r.price == p
    ensures h.shares >= 0 ==> r.value >= h.value + n * p
  {
    var o := Observe(h, p);
    Position(o.shares + n, o.price, o.value + n * o.price)
  }

  /** A position opened by buying `n` shares at `p`: it is worth what it
      cost. */
  function Opened(n: int, p: int): (r: Position)
    ensures r.shares == n && r.price == p && r.value == r.shares * r.price
  {
    Position(n, p, n * p)
  }

  /** Opening a position and selling all of it at the same price settles at
      that price: the seller gets back exactly what was paid. */
  lemma SellAtOpeningPrice(n: int, p: int)
    requires n > 0
    ensures Observe(Opened(n, p), p) == Opened(n, p)
    ensures SettlementPrice(Opened(n, p)) == p
    ensures SettlementPrice(Opened(n, p)) * n == n * p
  {
    TruncGrid(p, n);
    assert p * n == n * p;
  }

  /** After a partial sale, the remaining value is as far from q per share as
      the value before the sale was: selling is proportional up to rounding. */
  lemma SaleKeepsPerShareValue(o: Position, n: int)
    requires 0 < n < o.shares
    ensures var q := SettlementPrice(o);
      var rest := Position(o.shares - n, o.price, o.value - q * n);
      && rest.value - q * rest.shares == o.value - q * o.shares
      && -o.shares <= 2 * (rest.value - q * rest.shares) <= o.shares
  {
    var q := SettlementPrice(o);
    assert (o.value - q * n) - q * (o.shares - n) == o.value - q * o.shares;
  }

  // ---------------------------------------------------------------------
  // Sums the leaderboard query ranks by
  // ---------------------------------------------------------------------

  /** Keys of the holdings of member `m`. */
  ghost function HeldBy(h: map<Key, Position>, m: int): set<Key> {
    set k | k in h && k.0 == m
  }

  /** Members that hold at least one position. */
  ghost function Holders(h: map<Key, Position>): set<int> {
    set k | k in h :: k.0
  }

  /** Sum of the values of the rows `keys`. */
  ghost function ValueSum(h: map<Key, Position>, keys: set<Key>): int
    requires keys <= h.Keys
    decreases keys
  {
    if keys == {} then 0
    else
      var k :| k in keys;
      h[k].value + ValueSum(h, keys - {k})
  }

  /** The sum does not depend on which row is taken out first. */
  lemma ValueSumRemove(h: map<Key, Position>, keys: set<Key>, k: Key)
    requires k in keys && keys <= h.Keys
    ensures ValueSum(h, keys) == h[k].value + ValueSum(h, keys - {k})
    decreases keys
  {
    var j :| j in keys && ValueSum(h, keys) == h[j].value + ValueSum(h, keys - {j});
    if j != k {
      ValueSumRemove(h, keys - {j}, k);
      ValueSumRemove(h, keys - {k}, j);
      assert keys - {j} - {k} == keys - {k} - {j};
    }
  }

  /** `SUM(a.value)` of one member's rows. */
  ghost function MemberValue(h: map<Key, Position>, m: int): int {
    ValueSum(h, HeldBy(h, m))
  }

  /** The members a leaderboard lists. */
  ghost function Listed(leaders: seq<Leader>): set<int> {
    set i | 0 <= i < |leaders| :: leaders[i].member
  }

  lemma ListedAppend(leaders: seq<Leader>, l: Leader)
    ensures Listed(leaders + [l]) == Listed(leaders) + {l.member}
  {
    var s := leaders + [l];
    assert s[|leaders|] == l;
    forall x | x in Listed(leaders)
      ensures x in Listed(s)
    {
      var i :| 0 <= i < |leaders| && leaders[i].member == x;
      assert s[i] == leaders[i];
    }
  }

  /** No member is listed twice. */
  ghost predicate Distinct(leaders: seq<Leader>) {
    forall i, j :: 0 <= i < j < |leaders| ==> leaders[i].member != leaders[j].member
  }

  /** Each line shows the member's summed holding value plus its balance once
      per holding row. */
  ghost predicate Reports(h: map<Key, Position>, cash: map<int, int>, leaders: seq<Leader>) {
    forall i :: 0 <= i < |leaders| ==>
      && leaders[i].member in cash
      && leaders[i].value == MemberValue(h, leaders[i].member) + cash[leaders[i].member] * |HeldBy(h, leaders[i].member)|
  }

  /** Lines in descending order of summed holding value. */
  ghost predicate Descending(h: map<Key, Position>, leaders: seq<Leader>) {
    forall i, j :: 0 <= i < j < |leaders| ==> MemberValue(h, leaders[i].member) >= MemberValue(h, leaders[j].member)
  }

  /** Every listed member's summed holding value is at least that of each of `others`. */
  ghost predicate Above(h: map<Key, Position>, leaders: seq<Leader>, others: set<int>) {
    forall i, x :: 0 <= i < |leaders| && x in others ==> MemberValue(h, leaders[i].member) >= MemberValue(h, x)
  }

  /** Appending the richest of the unlisted members keeps the board ranked. */
  lemma Ranked(h: map<Key, Position>, cash: map<int, int>, leaders: seq<Leader>, rest: set<int>, l: Leader)
    requires Listed(leaders) !! rest && l.member in rest
    requires Distinct(leaders) && Descending(h, leaders) && Above(h, leaders, rest)
    requires forall x :: x in rest ==> MemberValue(h, x) <= MemberValue(h, l.member)
    requires Reports(h, cash, leaders)
    requires l.member in cash && l.value == MemberValue(h, l.member) + cash[l.member] * |HeldBy(h, l.member)|
    ensures Listed(leaders + [l]) == Listed(leaders) + {l.member}
    ensures Distinct(leaders + [l])
    ensures Descending(h, leaders + [l])
    ensures Above(h, leaders + [l], rest - {l.member})
    ensures Reports(h, cash, leaders + [l])
  {
    ListedAppend(leaders, l);
    var s := leaders + [l];
    forall i | 0 <= i < |leaders|
      ensures s[i].member != l.member
    {
      assert leaders[i].member in Listed(leaders);
    }
  }

  // ---------------------------------------------------------------------
  // The ledger
  // ---------------------------------------------------------------------

  class Database {
    var members: set<int>
    var cash: map<int, int>
    var holdings: map<Key, Position>

    /** Every member has a balance and only members do; positions belong to
        members and are removed when their last share is sold. */
    ghost predicate Valid()
      reads this
    {
      && cash.Keys == members
      && (forall k :: k in holdings ==> k.0 in members && holdings[k].shares > 0)
    }

    constructor ()
      ensures Valid()
      ensures members == {} && cash == map[] && holdings == map[]
    {
      members, cash, holdings := {}, map[], map[];
    }

    /** A new id gets a balance of 10000; a known id is refused. */
    method Register(m: int) returns (r: Outcome)
      requires Valid()
      modifies this
      ensures Valid()
      ensures old(m in members) ==> r == Fail(Error.UserExists) && unchanged(this)
      ensures old(m !in members) ==>
        && r == Pass
        && members == old(members) + {m}
        && cash == old(cash)[m := STARTING_CASH]
        && holdings == old(holdings)
    {
      if m in members {
        // the MEMBERS primary key refuses the second INSERT
        return Fail(Error.UserExists);
      }
      members := members + {m};
      cash := cash[m := STARTING_CASH];
      r := Pass;
    }

    method UserExists(m: int) returns (b: bool)
      ensures b <==> m in members
    {
      b := m in members;
    }

    method ValidateUser(m: int) returns (r: Outcome)
      ensures r == if m in members then Pass else Fail(UserDoesNotExist)
    {
      var known := UserExists(m);
      if !known {
        return Fail(UserDoesNotExist);
      }
      r := Pass;
    }

    /** The stored balance, passed through `trunc`, which leaves it as it is. */
    method GetCash(m: int) returns (c: int)
      requires m in cash
      ensures c == cash[m]
    {
      TruncGrid(cash[m], 1);
      c := Trunc(cash[m], 1);
    }

    /** Adds `delta` = n/d micro-units, rounded to a whole micro-unit first;
        there is no floor, so the balance may go negative. */
    method AddCash(m: int, n: int, d: int)
      requires Valid() && m in members && d > 0
      modifies this
      ensures Valid()
      ensures members == old(members) && holdings == old(holdings)
      ensures cash == old(cash)[m := old(cash)[m] + Trunc(n, d)]
    {
      var delta := Trunc(n, d);
      var c := GetCash(m);
      cash := cash[m := c + delta];
    }

    /** `SUM(shares)` of the pair's rows, 0 when there is none. */
    function Shares(m: int, t: string): (n: int)
      reads this
      ensures Valid() ==> n >= 0 && (n == 0 <==> (m, t) !in holdings)
    {
      if (m, t) in holdings then holdings[(m, t)].shares else 0
    }

    /** The member's tickers, in ascending order, each once. */
    method GetHoldings(m: int) returns (tickers: seq<string>)
      ensures Ascending(tickers)
      ensures forall t :: t in tickers <==> (m, t) in holdings
    {
      var held := set k | k in holdings && k.0 == m :: k.1;
      tickers := SortAscending(held);
    }

    /** A handle on the pair's row; it reads the row afresh on every access. */
    method GetHolding(m: int, t: string) returns (h: Holding)
      ensures h.db == this && h.member == m && h.ticker == t
    {
      h := new Holding(this, m, t);
    }

    /** Observes price `p` for the pair; with no such row the UPDATE matches
        nothing and the ledger is unchanged. */
    method ObservePrice(m: int, t: string, p: int)
      requires Valid()
      modifies this
      ensures Valid()
      ensures members == old(members) && cash == old(cash)
      ensures holdings == if (m, t) in old(holdings)
        then old(holdings)[(m, t) := Observe(old(holdings)[(m, t)], p)]
        else old(holdings)
    {
      if (m, t) in holdings {
        holdings := holdings[(m, t) := Observe(holdings[(m, t)], p)];
      }
    }

    /** Buys `n` Quonks of `t` at `p`. Refused, with nothing changed, when
        they cost more than the balance; otherwise the cost is debited and the
        position opened, or observed at `p` and topped up. */
    method BuyQuonks(m: int, t: string, n: int, p: int) returns (r: Outcome)
      requires Valid() && m in members && n > 0 && p >= 0
      modifies this
      ensures Valid() && members == old(members)
      ensures n * p > old(cash[m]) ==>
        && unchanged(this)
        && r == Fail(if p == 0 then DivisionByZero else NotEnoughCash(TruncDiv(old(cash[m]), p)))
      ensures n * p <= old(cash[m]) ==>
        && r == Pass
        && cash == old(cash)[m := old(cash[m]) - n * p]
        && holdings == old(holdings)[(m, t) :=
             if (m, t) in old(holdings) then Merged(old(holdings)[(m, t)], n, p) else Opened(n, p)]
      ensures r == Pass ==> Shares(m, t) == old(Shares(m, t)) + n
      ensures old(cash[m]) >= 0 ==> cash[m] >= 0
    {
      var c := GetCash(m);
      if n * p > c {
        if p == 0 {
          // int(cash / price) divides by zero (reachable only with a negative balance)
          return Fail(DivisionByZero);
        }
        // the message differs between limit > 0 and limit == 0; the exception does not
        var limit := TruncDiv(c, p);
        return Fail(NotEnoughCash(limit));
      }
      var cost := n * p;
      TruncGrid(-cost, 1);
      AddCash(m, -cost, 1);
      ObservePrice(m, t, p);
      if Shares(m, t) == 0 {
        holdings := holdings[(m, t) := Position(n, p, n * p)];
      } else {
        var h := holdings[(m, t)];
        holdings := holdings[(m, t) := Position(h.shares + n, h.price, h.value + n * h.price)];
      }
      r := Pass;
    }

    /** Sells `n` Quonks of `t` at market price `p`. Refused, with nothing
        changed, when more than held; otherwise the position is observed at
        `p`, the shares settle at its value per share, which is credited and
        taken off the position, and a position left with no shares is removed.
        Returns the settlement price. */
    method SellQuonks(m: int, t: string, n: int, p: int) returns (r: Result<int>)
      requires Valid() && n > 0
      modifies this
      ensures Valid() && members == old(members)
      ensures n > old(Shares(m, t)) ==> r == Failure(InvalidShares) && unchanged(this)
      ensures n <= old(Shares(m, t)) ==>
        var o := Observe(old(holdings)[(m, t)], p);
        var q := SettlementPrice(o);
        && r == Success(q)
        && cash == old(cash)[m := old(cash[m]) + q * n]
        && holdings == if n == o.shares then old(holdings) - {(m, t)}
             else old(holdings)[(m, t) := Position(o.shares - n, p, o.value - q * n)]
      ensures r.Success? ==> Shares(m, t) == old(Shares(m, t)) - n
    {
      var current := Shares(m, t);
      if n > current {
        return Failure(InvalidShares);
      }
      ObservePrice(m, t, p);
      var h := holdings[(m, t)];
      // SELECT value / shares, through trunc
      var q := Trunc(h.value, h.shares);
      var proceeds := q * n;
      TruncGrid(proceeds, 1);
      AddCash(m, proceeds, 1);
      holdings := holdings[(m, t) := Position(h.shares - n, h.price, h.value - proceeds)];
      if Shares(m, t) == 0 {
        DeleteHoldings(m, t);
      }
      r := Success(q);
    }

    /** Removes the pair's row, if any. */
    method DeleteHoldings(m: int, t: string)
      modifies this
      ensures members == old(members) && cash == old(cash)
      ensures holdings == old(holdings) - {(m, t)}
      ensures old(Valid()) ==> Valid()
    {
      holdings := holdings - {(m, t)};
    }

    /** `SUM(a.value)` and the row count of one member's holdings. */
    method MemberTotals(m: int) returns (total: int, count: nat)
      ensures total == MemberValue(holdings, m)
      ensures count == |HeldBy(holdings, m)|
    {
      var rest := set k | k in holdings && k.0 == m;
      total, count := 0, 0;
      while rest != {}
        invariant rest <= HeldBy(holdings, m)
        invariant total + ValueSum(holdings, rest) == MemberValue(holdings, m)
        invariant count + |rest| == |HeldBy(holdings, m)|
        decreases rest
      {
        var k :| k in rest;
        ValueSumRemove(holdings, rest, k);
        total := total + holdings[k].value;
        count := count + 1;
        rest := rest - {k};
      }
    }

    /** A member of `candidates` whose summed holding value is largest. */
    method Richest(candidates: set<int>) returns (best: int, bestTotal: int, bestCount: nat)
      requires candidates != {}
      ensures best in candidates
      ensures bestTotal == MemberValue(holdings, best)
      ensures bestCount == |HeldBy(holdings, best)|
      ensures forall x :: x in candidates ==> MemberValue(holdings, x) <= bestTotal
    {
      assert exists x :: x in candidates by {
        if forall y: int :: y !in candidates {
          assert false;
        }
      }
      best :| best in candidates;
      bestTotal, bestCount := MemberTotals(best);
      var others := candidates - {best};
      while others != {}
        invariant others <= candidates && best in candidates
        invariant bestTotal == MemberValue(holdings, best)
        invariant bestCount == |HeldBy(holdings, best)|
        invariant forall x :: x in candidates - others ==> MemberValue(holdings, x) <= bestTotal
        decreases others
      {
        assert exists y :: y in others by {
          if forall z: int :: z !in others {
            assert false;
          }
        }
        var x :| x in others;
        var total, count := MemberTotals(x);
        if total > bestTotal {
          best, bestTotal, bestCount := x, total, count;
        }
        others := others - {x};
      }
    }

    /** The leaderboard query as written: one line per member WITH holdings,
        ranked by summed holding value (ties in no set order), at most ten;
        the figure shown is that sum plus `SUM(b.cash)` over the joined rows,
        which counts the balance once per ticker held. */
    method Leaderboard() returns (leaders: seq<Leader>)
      requires Valid()
      ensures |leaders| == if |Holders(holdings)| < LEADERBOARD_SIZE then |Holders(holdings)| else LEADERBOARD_SIZE
      ensures Listed(leaders) <= Holders(holdings)
      ensures Distinct(leaders)
      ensures Reports(holdings, cash, leaders)
      ensures Descending(holdings, leaders)
      ensures Above(holdings, leaders, Holders(holdings) - Listed(leaders))
    {
      var holders := set k | k in holdings :: k.0;
      var rest := holders;
      leaders := [];
      while |leaders| < LEADERBOARD_SIZE && rest != {}
        invariant rest <= holders
        invariant |leaders| <= LEADERBOARD_SIZE
        invariant |leaders| + |rest| == |holders|
        invariant Listed(leaders) == holders - rest
        invariant Distinct(leaders)
        invariant Reports(holdings, cash, leaders)
        invariant Descending(holdings, leaders)
        invariant Above(holdings, leaders, rest)
        decreases rest
      {
        // ORDER BY SUM(a.value) DESC: the next row is a member with the largest sum
        var best, bestTotal, bestCount := Richest(rest);
        assert best in members;
        var sumCash := cash[best] * bestCount;
        TruncGrid(bestTotal, 1);
        TruncGrid(sumCash, 1);
        var line := Leader(best, Trunc(bestTotal, 1) + Trunc(sumCash, 1));
        Ranked(holdings, cash, leaders, rest, line);
        leaders := leaders + [line];
        rest := rest - {best};
      }
    }
  }

  /** A live view of one HOLDINGS row, as the source's `Holding` object:
      each property reads the row at the time it is asked for. */
  class Holding {
    const db: Database
    const member: int
    const ticker: string

    constructor (db: Database, member: int, ticker: string)
      ensures this.db == db && this.member == member && this.ticker == ticker
    {
      this.db := db;
      this.member := member;
      this.ticker := ticker;
    }

    function Shares(): (n: int)
      reads db
      requires (member, ticker) in db.holdings
      ensures db.Valid() ==> n > 0
    {
      db.holdings[(member, ticker)].shares
    }

    /** The last observed price, through `trunc`, which leaves it unchanged. */
    function Price(): (p: int)
      reads db
      requires (member, ticker) in db.holdings
      ensures p == db.holdings[(member, ticker)].price
    {
      TruncGrid(db.holdings[(member, ticker)].price, 1);
      Trunc(db.holdings[(member, ticker)].price, 1)
    }

    /** The accumulated value, through `trunc`, which leaves it unchanged. */
    function Value(): (v: int)
      reads db
      requires (member, ticker) in db.holdings
      ensures v == db.holdings[(member, ticker)].value
    {
      TruncGrid(db.holdings[(member, ticker)].value, 1);
      Trunc(db.holdings[(member, ticker)].value, 1)
    }
  }
}
