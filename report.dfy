/** The report side of main.go that carries meaning: the totals row
    (main.go:48-64), the sign helper, `maxInt` and the separator row. */
module Report {
  import opened Wrappers
  import opened Gains

  /** "-" for a negative value, "+" otherwise; the report prints it in front
      of the absolute value. */
  function Sign(v: real): string {
    if v < 0.0 then "-" else "+"
  }

  /** `math.Abs` on exact reals. */
  function Abs(v: real): (a: real)
    ensures 0.0 <= a && (a == v || a == -v)
  {
    if v < 0.0 then -v else v
  }

  /** Printing `Sign(v)` followed by `Abs(v)` loses nothing: the sign and
      the magnitude give back the value. */
  lemma SignedMagnitude(v: real)
    ensures Sign(v) == "-" <==> v < 0.0
    ensures v == (if Sign(v) == "-" then -Abs(v) else Abs(v))
  {
  }

  /** The larger of two integers. */
  function MaxInt(x: int, y: int): (m: int)
    ensures x <= m && y <= m
    ensures m == x || m == y
  {
    if x > y then x else y
  }

  /** `strings.Repeat` for a single character. */
  function Repeat(c: char, n: nat): (r: string)
    ensures |r| == n
    ensures forall k :: 0 <= k < n ==> r[k] == c
  {
    if n == 0 then "" else Repeat(c, n - 1) + [c]
  }

  /** The separator row of `printSep` (main.go:331-337): one cell per
      header, each a run of dashes as long as the header but at least 8. */
  method Separator(headers: seq<string>) returns (row: seq<string>)
    ensures |row| == |headers|
    ensures forall i :: 0 <= i < |row| ==> |row[i]| == MaxInt(|headers[i]|, 8)
    ensures forall i :: 0 <= i < |row| ==> forall k :: 0 <= k < |row[i]| ==> row[i][k] == '-'
  {
    row := [];
    var i := 0;
    while i < |headers|
      invariant 0 <= i <= |headers|
      invariant |row| == i
      invariant forall j :: 0 <= j < i ==> |row[j]| == MaxInt(|headers[j]|, 8)
      invariant forall j :: 0 <= j < i ==> forall k :: 0 <= k < |row[j]| ==> row[j][k] == '-'
    {
      row := row + [Repeat('-', MaxInt(|headers[i]|, 8))];
      i := i + 1;
    }
  }

  /** The running totals of the report loop. */
  datatype Sums = Sums(costBasis: real, nativeValue: real) {
    /** Computed from the totals, exactly as a row's profit. */
    function Profit(): real {
      nativeValue - costBasis
    }

    /** Computed from the totals, never by averaging the rows' percentages;
        none when the total cost basis is 0. */
    function ProfitPercent(): (r: Option<real>)
      ensures r.Some? <==> costBasis != 0.0
      ensures r.Some? ==> r.value * costBasis == nativeValue - costBasis
    {
      PercentOf(Profit(), costBasis)
    }
  }

  function SumCostBasis(gains: seq<Gain>): real {
    if gains == [] then 0.0 else SumCostBasis(gains[..|gains| - 1]) + gains[|gains| - 1].costBasis
  }

  function SumNativeValue(gains: seq<Gain>): real {
    if gains == [] then 0.0 else SumNativeValue(gains[..|gains| - 1]) + gains[|gains| - 1].nativeValue
  }

  function SumProfit(gains: seq<Gain>): real {
    if gains == [] then 0.0 else SumProfit(gains[..|gains| - 1]) + gains[|gains| - 1].Profit()
  }

  /** The totals loop of `main` (main.go:48-53): the sums of the records'
      cost bases and USD values. */
  method Totals(gains: seq<Gain>) returns (sums: Sums)
    ensures sums.costBasis == SumCostBasis(gains)
    ensures sums.nativeValue == SumNativeValue(gains)
  {
    sums := Sums(0.0, 0.0);
    var i := 0;
    while i < |gains|
      invariant 0 <= i <= |gains|
      invariant sums.costBasis == SumCostBasis(gains[..i])
      invariant sums.nativeValue == SumNativeValue(gains[..i])
    {
      assert gains[..i + 1][..i] == gains[..i];
      sums := Sums(sums.costBasis + gains[i].costBasis, sums.nativeValue + gains[i].nativeValue);
      i := i + 1;
    }
    assert gains[..i] == gains;
  }

  /** The total profit, taken from the totals, equals the sum of the rows'
      profits. */
  lemma {:induction false} TotalProfitIsSumOfProfits(gains: seq<Gain>)
    ensures Sums(SumCostBasis(gains), SumNativeValue(gains)).Profit() == SumProfit(gains)
  {
    if gains != [] {
      TotalProfitIsSumOfProfits(gains[..|gains| - 1]);
    }
  }

  /** Two rows: cost 100 worth 150 (+50%) and cost 200 worth 180 (-10%).
      The total is +10% (30 on 300), not the average of the rows, +20%. */
  lemma PercentFromTotals()
    ensures
      var gains := [Gain("A", 1.0, 100.0, 150.0), Gain("B", 1.0, 200.0, 180.0)];
      var total := Sums(SumCostBasis(gains), SumNativeValue(gains));
      gains[0].ProfitPercent() == Some(0.5) && gains[1].ProfitPercent() == Some(-0.1) &&
      total.Profit() == 30.0 && total.ProfitPercent() == Some(0.1) &&
      total.ProfitPercent() != Some((0.5 + -0.1) / 2.0)
  {
  }
}
