/** Transactions as the exchange reports them, and the per-currency sums
    that the gains computation in main.go accumulates from them. This
    module is the specification side: what the net amount and the cost
    basis of a currency ARE, independently of the loop that computes them. */
module Ledger {
  import opened Wrappers

  /** A ledger entry. `txType` is the exchange's type tag ("send", "buy",
      "sell" or anything else); `amount` is the signed crypto amount in
      `currency`; `createdAt` is a timestamp; `buyTotal` and `sellTotal`
      are the USD totals of the nested buy and sell records (only the one
      matching the type is meaningful). */
  datatype Transaction = Transaction(
    txType: string,
    currency: string,
    amount: real,
    createdAt: int,
    buyTotal: real,
    sellTotal: real)

  /** The two per-currency sums kept by the computation. */
  datatype Field = Amount | CostBasis

  /** The transaction types the computation understands. */
  predicate Known(txType: string) {
    txType == "send" || txType == "buy" || txType == "sell"
  }

  /** `t.CreatedAt.Before(since)` is false: the cutoff is inclusive. */
  predicate InWindow(t: Transaction, since: int) {
    !(t.createdAt < since)
  }

  /** An in-window transaction whose type the computation cannot handle. */
  predicate Offending(t: Transaction, since: int) {
    InWindow(t, since) && !Known(t.txType)
  }

  /** What `t` adds to field `f` of currency `c`: every in-window
      transaction adds its amount to the holding; a buy adds its total to
      the cost basis, a sell subtracts its total, a send leaves it alone. */
  function Contribution(t: Transaction, since: int, c: string, f: Field): real {
    if !InWindow(t, since) || t.currency != c then 0.0
    else match f
      case Amount => t.amount
      case CostBasis =>
        if t.txType == "buy" then t.buyTotal
        else if t.txType == "sell" then -t.sellTotal
        else 0.0
  }

  /** The sum of the contributions of `txs` to field `f` of currency `c`. */
  function Tally(txs: seq<Transaction>, since: int, c: string, f: Field): real {
    if txs == [] then 0.0
    else Tally(txs[..|txs| - 1], since, c, f) + Contribution(txs[|txs| - 1], since, c, f)
  }

  /** The net holding of `c`: the sum of the amounts of the in-window
      transactions in `c`. */
  function NetAmount(txs: seq<Transaction>, since: int, c: string): real {
    Tally(txs, since, c, Amount)
  }

  /** USD paid for `c` minus USD received for it, over the window. */
  function NetCost(txs: seq<Transaction>, since: int, c: string): real {
    Tally(txs, since, c, CostBasis)
  }

  /** The type tag of the first in-window transaction of unknown type, if any. */
  function FirstOffense(txs: seq<Transaction>, since: int): Option<string> {
    if txs == [] then None
    else if Offending(txs[0], since) then Some(txs[0].txType)
    else FirstOffense(txs[1..], since)
  }

  /** The in-window transactions, in order (see WindowAppend), each as
      often as it occurs (see WindowCount). */
  function Window(txs: seq<Transaction>, since: int): (w: seq<Transaction>)
    ensures |w| <= |txs|
    ensures forall t :: t in w <==> t in txs && since <= t.createdAt
  {
    if txs == [] then []
    else Window(txs[..|txs| - 1], since) + (if InWindow(txs[|txs| - 1], since) then [txs[|txs| - 1]] else [])
  }

  /** The window keeps every in-window transaction as many times as the
      input holds it, and no other. */
  lemma {:induction false} WindowCount(txs: seq<Transaction>, since: int, t: Transaction)
    ensures multiset(Window(txs, since))[t] == if InWindow(t, since) then multiset(txs)[t] else 0
  {
    if txs != [] {
      var n := |txs| - 1;
      var last := if InWindow(txs[n], since) then [txs[n]] else [];
      assert txs == txs[..n] + [txs[n]];
      assert multiset(txs) == multiset(txs[..n]) + multiset{txs[n]};
      WindowCount(txs[..n], since, t);
      assert multiset(Window(txs, since)) == multiset(Window(txs[..n], since)) + multiset(last);
    }
  }

  /** Filtering works piece by piece, so it keeps the order of the input:
      the window of two lists is the window of the first followed by the
      window of the second. */
  lemma {:induction false} WindowAppend(a: seq<Transaction>, b: seq<Transaction>, since: int)
    ensures Window(a + b, since) == Window(a, since) + Window(b, since)
    decreases |b|
  {
    if b == [] {
      assert a + b == a;
    } else {
      var n := |b| - 1;
      var last := if InWindow(b[n], since) then [b[n]] else [];
      assert (a + b)[..|a + b| - 1] == a + b[..n];
      assert (a + b)[|a + b| - 1] == b[n];
      assert Window(a + b, since) == Window(a + b[..n], since) + last;
      assert Window(b, since) == Window(b[..n], since) + last;
      WindowAppend(a, b[..n], since);
    }
  }

  // ---------------------------------------------------------------------
  // Properties of the sums

  /** Appending one transaction adds its contribution to every sum. */
  lemma TallyStep(txs: seq<Transaction>, t: Transaction, since: int)
    ensures forall c, f :: Tally(txs + [t], since, c, f) == Tally(txs, since, c, f) + Contribution(t, since, c, f)
  {
  }

  /** Summing is additive over concatenation. */
  lemma {:induction false} TallyAppend(a: seq<Transaction>, b: seq<Transaction>, since: int, c: string, f: Field)
    ensures Tally(a + b, since, c, f) == Tally(a, since, c, f) + Tally(b, since, c, f)
    decreases |b|
  {
    if b == [] {
      assert a + b == a;
    } else {
      var b' := b[..|b| - 1];
      assert (a + b)[..|a + b| - 1] == a + b';
      assert (a + b)[|a + b| - 1] == b[|b| - 1];
      TallyAppend(a, b', since, c, f);
    }
  }

  /** The sums do not depend on the order of the transactions. */
  lemma {:induction false} TallyPermutation(a: seq<Transaction>, b: seq<Transaction>, since: int, c: string, f: Field)
    requires multiset(a) == multiset(b)
    ensures Tally(a, since, c, f) == Tally(b, since, c, f)
    decreases |a|
  {
    if a == [] {
      assert |multiset(b)| == 0;
      assert b == [];
    } else {
      var n := |a| - 1;
      var x := a[n];
      assert a == a[..n] + [x];
      assert x in multiset(b);
      var k :| 0 <= k < |b| && b[k] == x;
      assert b == b[..k] + [x] + b[k + 1..];
      var rest := b[..k] + b[k + 1..];
      assert multiset(b) == multiset(b[..k]) + multiset{x} + multiset(b[k + 1..]) by {
        assert b == (b[..k] + [x]) + b[k + 1..];
      }
      assert multiset(a) == multiset(a[..n]) + multiset{x};
      assert multiset(rest) == multiset(b[..k]) + multiset(b[k + 1..]);
      assert multiset(a[..n]) == multiset(a) - multiset{x};
      assert multiset(rest) == multiset(b) - multiset{x};
      TallyPermutation(a[..n], rest, since, c, f);
      TallyAppend(b[..k], [x], since, c, f);
      TallyAppend(b[..k] + [x], b[k + 1..], since, c, f);
      TallyAppend(b[..k], b[k + 1..], since, c, f);
      assert Tally([x], since, c, f) == Contribution(x, since, c, f) by {
        assert [x][..0] == [];
      }
    }
  }

  /** The effect of one transaction placed anywhere in the list: before the
      cutoff it changes nothing; in the window it adds its amount to its own
      currency's holding, and its buy total (buy), minus its sell total
      (sell) or nothing (send) to that currency's cost basis; other
      currencies are untouched. */
  lemma {:induction false} OneTransaction(a: seq<Transaction>, t: Transaction, b: seq<Transaction>, since: int, c: string)
    ensures t.createdAt < since ==>
      NetAmount(a + [t] + b, since, c) == NetAmount(a + b, since, c) &&
      NetCost(a + [t] + b, since, c) == NetCost(a + b, since, c)
    ensures t.currency != c ==>
      NetAmount(a + [t] + b, since, c) == NetAmount(a + b, since, c) &&
      NetCost(a + [t] + b, since, c) == NetCost(a + b, since, c)
    ensures since <= t.createdAt && t.currency == c ==>
      NetAmount(a + [t] + b, since, c) == NetAmount(a + b, since, c) + t.amount
    ensures since <= t.createdAt && t.currency == c && t.txType == "buy" ==>
      NetCost(a + [t] + b, since, c) == NetCost(a + b, since, c) + t.buyTotal
    ensures since <= t.createdAt && t.currency == c && t.txType == "sell" ==>
      NetCost(a + [t] + b, since, c) == NetCost(a + b, since, c) - t.sellTotal
    ensures since <= t.createdAt && t.currency == c && t.txType == "send" ==>
      NetCost(a + [t] + b, since, c) == NetCost(a + b, since, c)
  {
    forall f: Field
      ensures Tally(a + [t] + b, since, c, f) == Tally(a + b, since, c, f) + Contribution(t, since, c, f)
    {
      TallyAppend(a + [t], b, since, c, f);
      TallyAppend(a, [t], since, c, f);
      TallyAppend(a, b, since, c, f);
      assert [t][..0] == [];
    }
  }

  /** Only the window counts: summing over all transactions is summing over
      the in-window ones. */
  lemma {:induction false} TallyWindow(txs: seq<Transaction>, since: int, c: string, f: Field)
    ensures Tally(txs, since, c, f) == Tally(Window(txs, since), since, c, f)
  {
    if txs != [] {
      var n := |txs| - 1;
      TallyWindow(txs[..n], since, c, f);
      var last := if InWindow(txs[n], since) then [txs[n]] else [];
      TallyAppend(Window(txs[..n], since), last, since, c, f);
      if InWindow(txs[n], since) {
        assert last[..0] == [];
      }
    }
  }

  /** A currency with no in-window transaction has holding 0 and cost
      basis 0 (the Go map's zero value); one with no in-window buy or sell
      has cost basis 0. */
  lemma {:induction false} Untouched(txs: seq<Transaction>, since: int, c: string)
    ensures (forall j :: 0 <= j < |txs| ==> !InWindow(txs[j], since) || txs[j].currency != c) ==>
      NetAmount(txs, since, c) == 0.0 && NetCost(txs, since, c) == 0.0
    ensures (forall j :: 0 <= j < |txs| && InWindow(txs[j], since) && txs[j].currency == c ==>
               txs[j].txType != "buy" && txs[j].txType != "sell") ==>
      NetCost(txs, since, c) == 0.0
  {
    if txs != [] {
      var n := |txs| - 1;
      Untouched(txs[..n], since, c);
    }
  }

  /** The computation fails exactly when some in-window transaction has an
      unknown type, and then it reports the first one. */
  lemma {:induction false} FirstOffenseFound(txs: seq<Transaction>, since: int)
    ensures FirstOffense(txs, since).None? <==> forall j :: 0 <= j < |txs| ==> !Offending(txs[j], since)
    ensures FirstOffense(txs, since).Some? ==>
      exists j :: 0 <= j < |txs| && Offending(txs[j], since) &&
        FirstOffense(txs, since).value == txs[j].txType &&
        forall i :: 0 <= i < j ==> !Offending(txs[i], since)
  {
    if txs != [] {
      FirstOffenseFound(txs[1..], since);
      if !Offending(txs[0], since) {
        assert forall j :: 1 <= j < |txs| ==> txs[j] == txs[1..][j - 1];
        if FirstOffense(txs, since).Some? {
          var j :| 0 <= j < |txs[1..]| && Offending(txs[1..][j], since) &&
            FirstOffense(txs[1..], since).value == txs[1..][j].txType &&
            forall i :: 0 <= i < j ==> !Offending(txs[1..][i], since);
          assert Offending(txs[j + 1], since);
        }
      }
    }
  }

  /** A transaction before the cutoff never stops the computation, whatever
      its type: only in-window transactions are classified. */
  lemma {:induction false} EarlyNeverFails(a: seq<Transaction>, t: Transaction, b: seq<Transaction>, since: int)
    requires t.createdAt < since
    ensures FirstOffense(a + [t] + b, since) == FirstOffense(a + b, since)
  {
    if a == [] {
      assert a + [t] + b == [t] + b && ([t] + b)[1..] == b && a + b == b;
    } else {
      assert (a + [t] + b)[0] == a[0] && (a + [t] + b)[1..] == a[1..] + [t] + b;
      assert (a + b)[0] == a[0] && (a + b)[1..] == a[1..] + b;
      EarlyNeverFails(a[1..], t, b, since);
    }
  }

  /** Whether the computation fails does not depend on transaction order. */
  lemma OffensePermutation(a: seq<Transaction>, b: seq<Transaction>, since: int)
    requires multiset(a) == multiset(b)
    ensures FirstOffense(a, since).None? <==> FirstOffense(b, since).None?
  {
    FirstOffenseFound(a, since);
    FirstOffenseFound(b, since);
    forall j | 0 <= j < |a| ensures a[j] in b {
      assert a[j] in multiset(b);
    }
    forall j | 0 <= j < |b| ensures b[j] in a {
      assert b[j] in multiset(a);
    }
  }
}
