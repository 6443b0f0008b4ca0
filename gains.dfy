/** The gains computation of main.go (`calcGains` after the client calls,
    and the `Gains` record): fold the transactions into per-currency
    holdings and cost bases, then join them with the spot rates. */
module Gains {
  import opened Wrappers
  import opened Ledger

  /** A spot rate: the USD price of one unit of `base`. */
  datatype SpotRate = SpotRate(base: string, price: real)

  /** One output row: the holding `value` of `currency`, what it cost
      (`costBasis`, in USD) and what it is worth now (`nativeValue`, in USD). */
  datatype Gain = Gain(currency: string, value: real, costBasis: real, nativeValue: real) {
    function Profit(): real {
      nativeValue - costBasis
    }

    /** The profit as a fraction of the cost basis; none when the basis is 0. */
    function ProfitPercent(): (r: Option<real>)
      ensures r.Some? <==> costBasis != 0.0
      ensures r.Some? ==> r.value * costBasis == nativeValue - costBasis
    {
      PercentOf(Profit(), costBasis)
    }
  }

  /** Why the computation stops: an in-window transaction of a type it does
      not handle (the Go program panics with this type tag). */
  datatype Failure = Unhandled(txType: string)

  /** The two maps the fold updates: net amount and cost basis per currency. */
  datatype Buckets = Buckets(amount: map<string, real>, costBasis: map<string, real>)

  /** A ratio as a fraction: `profit / basis`. Go's float division by a zero
      basis gives +Inf, -Inf or NaN; here that case is `None`. */
  function PercentOf(profit: real, basis: real): (r: Option<real>)
    ensures r.Some? <==> basis != 0.0
    ensures r.Some? ==> r.value * basis == profit
  {
    if basis == 0.0 then None else Some(profit / basis)
  }

  /** A Go map lookup: a missing key reads as the zero value. */
  function Get(m: map<string, real>, k: string): real {
    if k in m then m[k] else 0.0
  }

  /** The record for a holding `v` of `s.base` with cost basis `cost`,
      valued at the spot price. */
  function Priced(s: SpotRate, v: real, cost: real): Gain {
    Gain(s.base, v, cost, v * s.price)
  }

  /** The record the join emits for spot rate `s`, if any: none when the
      net holding of `s.base` is zero. */
  function HoldingFor(txs: seq<Transaction>, since: int, s: SpotRate): seq<Gain> {
    var v := NetAmount(txs, since, s.base);
    if v == 0.0 then [] else [Priced(s, v, NetCost(txs, since, s.base))]
  }

  /** The gains report: one record per spot rate with a nonzero holding, in
      spot-rate order. */
  function Holdings(txs: seq<Transaction>, since: int, spot: seq<SpotRate>): seq<Gain> {
    if spot == [] then []
    else Holdings(txs, since, spot[..|spot| - 1]) + HoldingFor(txs, since, spot[|spot| - 1])
  }

  /** The fold over the transactions (main.go:125-144). On success the maps
      hold, for every currency, the net amount and cost basis of the
      window; a currency is a key of `amount` exactly when some in-window
      transaction is in it, and of `costBasis` exactly when some in-window
      buy or sell is. The first in-window transaction of unknown type stops
      the fold. */
  method Accumulate(txs: seq<Transaction>, since: int) returns (r: Result<Buckets, Failure>)
    ensures FirstOffense(txs, since).Some? ==> r == Err(Unhandled(FirstOffense(txs, since).value))
    ensures FirstOffense(txs, since).None? ==> r.Ok?
    ensures r.Ok? ==> forall c :: Get(r.value.amount, c) == NetAmount(txs, since, c)
    ensures r.Ok? ==> forall c :: Get(r.value.costBasis, c) == NetCost(txs, since, c)
    ensures r.Ok? ==> forall c :: c in r.value.amount <==>
      exists j :: 0 <= j < |txs| && InWindow(txs[j], since) && txs[j].currency == c
    ensures r.Ok? ==> forall c :: c in r.value.costBasis <==>
      exists j :: 0 <= j < |txs| && InWindow(txs[j], since) && txs[j].currency == c &&
        (txs[j].txType == "buy" || txs[j].txType == "sell")
  {
    var amount: map<string, real> := map[];
    var costBasis: map<string, real> := map[];
    var i := 0;
    while i < |txs|
      invariant 0 <= i <= |txs|
      invariant FirstOffense(txs, since) == FirstOffense(txs[i..], since)
      invariant forall c :: Get(amount, c) == NetAmount(txs[..i], since, c)
      invariant forall c :: Get(costBasis, c) == NetCost(txs[..i], since, c)
      invariant forall c :: c in amount <==>
        exists j :: 0 <= j < i && InWindow(txs[j], since) && txs[j].currency == c
      invariant forall c :: c in costBasis <==>
        exists j :: 0 <= j < i && InWindow(txs[j], since) && txs[j].currency == c &&
          (txs[j].txType == "buy" || txs[j].txType == "sell")
    {
      var t := txs[i];
      assert txs[..i + 1] == txs[..i] + [t];
      TallyStep(txs[..i], t, since);
      assert txs[i..][1..] == txs[i + 1..];
      ghost var amount0, costBasis0 := amount, costBasis;
      // `t.CreatedAt.Before(since)` skips the transaction
      if !(t.createdAt < since) {
        match t.txType {
          case "send" =>
            amount := amount[t.currency := Get(amount, t.currency) + t.amount];
          case "buy" =>
            amount := amount[t.currency := Get(amount, t.currency) + t.amount];
            costBasis := costBasis[t.currency := Get(costBasis, t.currency) + t.buyTotal];
          case "sell" =>
            amount := amount[t.currency := Get(amount, t.currency) + t.amount];
            costBasis := costBasis[t.currency := Get(costBasis, t.currency) - t.sellTotal];
          case _ =>
            return Err(Unhandled(t.txType));
        }
      }
      forall c
        ensures Get(amount, c) == NetAmount(txs[..i + 1], since, c)
        ensures Get(costBasis, c) == NetCost(txs[..i + 1], since, c)
      {
        assert Get(amount0, c) == NetAmount(txs[..i], since, c);
        assert Get(costBasis0, c) == NetCost(txs[..i], since, c);
      }
      i := i + 1;
    }
    assert txs[..i] == txs;
    return Ok(Buckets(amount, costBasis));
  }

  /** The aggregation body of `calcGains` (main.go:125-161), with the
      transactions and spot rates that the exchange client fetches passed
      in. It fails exactly when the fold does, and otherwise returns the
      gains report. */
  method CalcGains(txs: seq<Transaction>, since: int, spot: seq<SpotRate>) returns (r: Result<seq<Gain>, Failure>)
    ensures FirstOffense(txs, since).Some? ==> r == Err(Unhandled(FirstOffense(txs, since).value))
    ensures FirstOffense(txs, since).None? ==> r == Ok(Holdings(txs, since, spot))
  {
    var acc := Accumulate(txs, since);
    if acc.Err? {
      return Err(acc.error);
    }
    var amount, costBasis := acc.value.amount, acc.value.costBasis;
    var gains: seq<Gain> := [];
    var j := 0;
    while j < |spot|
      invariant 0 <= j <= |spot|
      invariant gains == Holdings(txs, since, spot[..j])
    {
      var s := spot[j];
      assert spot[..j + 1][..j] == spot[..j];
      var val := Get(amount, s.base);
      assert Holdings(txs, since, spot[..j + 1]) == gains + HoldingFor(txs, since, s);
      if val != 0.0 {
        gains := gains + [Priced(s, val, Get(costBasis, s.base))];
      } else {
        assert gains + [] == gains;
      }
      j := j + 1;
    }
    assert spot[..j] == spot;
    return Ok(gains);
  }

  // ---------------------------------------------------------------------
  // Properties of the gains report

  /** The join works entry by entry: the report for two lists of spot rates
      is the report for the first followed by the report for the second,
      so records come out in spot-rate order (there is no sorting). */
  lemma {:induction false} HoldingsAppend(txs: seq<Transaction>, since: int, s1: seq<SpotRate>, s2: seq<SpotRate>)
    ensures Holdings(txs, since, s1 + s2) == Holdings(txs, since, s1) + Holdings(txs, since, s2)
    decreases |s2|
  {
    if s2 == [] {
      assert s1 + s2 == s1;
    } else {
      var n := |s2| - 1;
      assert (s1 + s2)[..|s1 + s2| - 1] == s1 + s2[..n];
      assert (s1 + s2)[|s1 + s2| - 1] == s2[n];
      HoldingsAppend(txs, since, s1, s2[..n]);
    }
  }

  /** `g` is the record of one of the spot rates, whose currency has a
      nonzero net holding. */
  predicate RecordOf(txs: seq<Transaction>, since: int, spot: seq<SpotRate>, g: Gain) {
    exists j :: 0 <= j < |spot| && NetAmount(txs, since, spot[j].base) != 0.0 &&
      g == Priced(spot[j], NetAmount(txs, since, spot[j].base), NetCost(txs, since, spot[j].base))
  }

  /** Every record is the record of some spot rate whose currency has a
      nonzero net holding: it carries that holding, the cost basis of the
      window (0 when the currency had no buys or sells) and the holding
      valued at that spot price. There are at most as many records as spot
      rates. */
  lemma {:induction false} HoldingsSound(txs: seq<Transaction>, since: int, spot: seq<SpotRate>)
    ensures |Holdings(txs, since, spot)| <= |spot|
    ensures forall k :: 0 <= k < |Holdings(txs, since, spot)| ==> RecordOf(txs, since, spot, Holdings(txs, since, spot)[k])
  {
    if spot != [] {
      var n := |spot| - 1;
      var front := spot[..n];
      HoldingsSound(txs, since, front);
      var h, h0 := Holdings(txs, since, spot), Holdings(txs, since, front);
      var last := HoldingFor(txs, since, spot[n]);
      assert h == h0 + last;
      forall k | 0 <= k < |h|
        ensures RecordOf(txs, since, spot, h[k])
      {
        if k < |h0| {
          assert RecordOf(txs, since, front, h0[k]);
          var j :| 0 <= j < |front| && NetAmount(txs, since, front[j].base) != 0.0 &&
            h0[k] == Priced(front[j], NetAmount(txs, since, front[j].base), NetCost(txs, since, front[j].base));
          assert front[j] == spot[j];
          assert h[k] == h0[k];
        } else {
          assert h[k] == last[k - |h0|];
          assert NetAmount(txs, since, spot[n].base) != 0.0;
        }
      }
    }
  }

  /** Every spot rate whose currency has a nonzero net holding yields its
      record. */
  lemma {:induction false} HoldingsComplete(txs: seq<Transaction>, since: int, spot: seq<SpotRate>, j: nat)
    requires j < |spot| && NetAmount(txs, since, spot[j].base) != 0.0
    ensures Priced(spot[j], NetAmount(txs, since, spot[j].base), NetCost(txs, since, spot[j].base)) in Holdings(txs, since, spot)
  {
    var n := |spot| - 1;
    if j < n {
      assert spot[..n][j] == spot[j];
      HoldingsComplete(txs, since, spot[..n], j);
    }
  }

  /** Earlier spot rates give earlier records. */
  lemma HoldingsOrdered(txs: seq<Transaction>, since: int, spot: seq<SpotRate>, i: nat, j: nat)
    requires i < j < |spot|
    requires NetAmount(txs, since, spot[i].base) != 0.0 && NetAmount(txs, since, spot[j].base) != 0.0
    ensures exists p, q ::
      0 <= p < q < |Holdings(txs, since, spot)| &&
      Holdings(txs, since, spot)[p] == Priced(spot[i], NetAmount(txs, since, spot[i].base), NetCost(txs, since, spot[i].base)) &&
      Holdings(txs, since, spot)[q] == Priced(spot[j], NetAmount(txs, since, spot[j].base), NetCost(txs, since, spot[j].base))
  {
    var upto, rest := spot[..j + 1], spot[j + 1..];
    var gi := Priced(spot[i], NetAmount(txs, since, spot[i].base), NetCost(txs, since, spot[i].base));
    var gj := Priced(spot[j], NetAmount(txs, since, spot[j].base), NetCost(txs, since, spot[j].base));
    assert spot == upto + rest;
    HoldingsAppend(txs, since, upto, rest);
    var a := Holdings(txs, since, spot[..j]);
    assert upto[..j] == spot[..j] && upto[j] == spot[j];
    assert HoldingFor(txs, since, spot[j]) == [gj];
    assert Holdings(txs, since, upto) == a + [gj];
    assert spot[..j][i] == spot[i];
    HoldingsComplete(txs, since, spot[..j], i);
    var p :| 0 <= p < |a| && a[p] == gi;
    var h := Holdings(txs, since, spot);
    assert h == a + [gj] + Holdings(txs, since, rest);
    assert h[p] == gi && h[|a|] == gj;
  }

  /** A currency with no in-window transaction gets no record, even when it
      has a spot rate (its map entry reads as 0). */
  lemma NoTransactionsNoRecord(txs: seq<Transaction>, since: int, spot: seq<SpotRate>, c: string)
    requires forall j :: 0 <= j < |txs| ==> !InWindow(txs[j], since) || txs[j].currency != c
    ensures forall k :: 0 <= k < |Holdings(txs, since, spot)| ==> Holdings(txs, since, spot)[k].currency != c
  {
    Untouched(txs, since, c);
    HoldingsSound(txs, since, spot);
    forall k | 0 <= k < |Holdings(txs, since, spot)|
      ensures Holdings(txs, since, spot)[k].currency != c
    {
      assert RecordOf(txs, since, spot, Holdings(txs, since, spot)[k]);
    }
  }

  /** The report does not depend on the order of the transactions. */
  lemma {:induction false} HoldingsPermutation(a: seq<Transaction>, b: seq<Transaction>, since: int, spot: seq<SpotRate>)
    requires multiset(a) == multiset(b)
    ensures Holdings(a, since, spot) == Holdings(b, since, spot)
  {
    if spot != [] {
      var n := |spot| - 1;
      HoldingsPermutation(a, b, since, spot[..n]);
      TallyPermutation(a, b, since, spot[n].base, Amount);
      TallyPermutation(a, b, since, spot[n].base, CostBasis);
    }
  }

  /** Reordering the transactions changes neither whether the computation
      fails nor, when it succeeds, the report. */
  lemma OrderIndependent(a: seq<Transaction>, b: seq<Transaction>, since: int, spot: seq<SpotRate>)
    requires multiset(a) == multiset(b)
    ensures FirstOffense(a, since).None? <==> FirstOffense(b, since).None?
    ensures Holdings(a, since, spot) == Holdings(b, since, spot)
  {
    OffensePermutation(a, b, since);
    HoldingsPermutation(a, b, since, spot);
  }

  /** A buy of 1 BTC for $100 and a sell of 0.5 BTC for $60, at a spot
      price of $120: holding 0.5, cost basis 40, value 60, profit 20, a
      50% gain. */
  lemma BuyThenSell()
    ensures
      var txs := [Transaction("buy", "BTC", 1.0, 10, 100.0, 0.0), Transaction("sell", "BTC", -0.5, 20, 0.0, 60.0)];
      var h := Holdings(txs, 0, [SpotRate("BTC", 120.0)]);
      h == [Gain("BTC", 0.5, 40.0, 60.0)] && h[0].Profit() == 20.0 && h[0].ProfitPercent() == Some(0.5)
  {
    var txs := [Transaction("buy", "BTC", 1.0, 10, 100.0, 0.0), Transaction("sell", "BTC", -0.5, 20, 0.0, 60.0)];
    assert txs[..1] == [txs[0]] && txs[..1][..0] == [];
    assert "sell" != "buy" by { assert "sell"[0] != "buy"[0]; }
    assert Contribution(txs[0], 0, "BTC", Amount) == 1.0;
    assert Contribution(txs[1], 0, "BTC", Amount) == -0.5;
    assert Contribution(txs[0], 0, "BTC", CostBasis) == 100.0;
    assert Contribution(txs[1], 0, "BTC", CostBasis) == -60.0;
    assert Tally(txs[..1], 0, "BTC", Amount) == 1.0;
    assert Tally(txs[..1], 0, "BTC", CostBasis) == 100.0;
    assert NetAmount(txs, 0, "BTC") == 0.5;
    assert NetCost(txs, 0, "BTC") == 40.0;
    var spot := [SpotRate("BTC", 120.0)];
    assert spot[..0] == [];
  }
}
