/**
 * The pairwise pattern table: for every unordered pair of taxa and every
 * ordered pair of states, the total weight of the sites that showed that
 * pair of states. Rows are taxon pairs packed into a triangle (pair `m < n`
 * is row `m + n(n-1)/2`), columns are state pairs (`(i, j)` is column
 * `stateCount * i + j`).
 */
module PatternTable {
  import opened Wrappers

  /** A taxon, identified by its id. */
  type Taxon = string

  /** A snapshot of the table: one row of cells per taxon pair. */
  type Grid = seq<seq<real>>

  datatype TableError =
    | SameTaxon                   // IllegalArgumentException("The two taxa must be different.")
    | UnknownTaxon(taxon: Taxon)  // the taxon is not in the table's taxon list

  datatype FrequencyError =
    | NoTaxonPair   // row 0 does not exist: fewer than two taxa
    | ZeroDiagonal  // the diagonal cells of row 0 sum to zero

  // ---------------------------------------------------------------------
  // Index arithmetic
  // ---------------------------------------------------------------------

  /** `TaxonList.getTaxonIndex`: the first position of `a`, or -1 when absent. */
  function TaxonIndex(taxa: seq<Taxon>, a: Taxon): (r: int)
    ensures r == -1 <==> a !in taxa
    ensures r != -1 ==> 0 <= r < |taxa| && taxa[r] == a && a !in taxa[..r]
  {
    if |taxa| == 0 then -1
    else if taxa[0] == a then 0
    else
      var r := TaxonIndex(taxa[1..], a);
      assert taxa[1..] == taxa[..|taxa|][1..];
      if r == -1 then -1
      else
        assert taxa[..r + 1] == [taxa[0]] + taxa[1..][..r];
        r + 1
  }

  /** The triangular number 0 + 1 + ... + (n - 1): the number of pairs among n taxa. */
  function Tri(n: nat): nat
  {
    if n == 0 then 0 else Tri(n - 1) + (n - 1)
  }

  /** The number of rows of a table over `taxonCount` taxa, as the constructor computes it. */
  function PairCount(taxonCount: nat): (r: nat)
    ensures r == Tri(taxonCount)
  {
    TriFormula(taxonCount);
    taxonCount * (taxonCount - 1) / 2
  }

  lemma {:induction false} TriFormula(n: nat)
    ensures n * (n - 1) / 2 == Tri(n)
  {
    if n > 0 {
      TriFormula(n - 1);
      assert n * (n - 1) == (n - 1) * (n - 2) + 2 * (n - 1);
    }
  }

  lemma {:induction false} TriMonotone(n: nat, n': nat)
    requires n <= n'
    ensures Tri(n) <= Tri(n')
    decreases n' - n
  {
    if n < n' {
      TriMonotone(n, n' - 1);
    }
  }

  /** The row of the taxon pair `m < n`, computed as the source does. */
  function PairRow(m: nat, n: nat): (r: nat)
    requires m < n
    ensures Tri(n) <= r < Tri(n + 1)
  {
    TriFormula(n);
    m + n * (n - 1) / 2
  }

  /** Every pair of taxa in a list of `taxonCount` has a row inside the table. */
  lemma PairRowInRange(m: nat, n: nat, taxonCount: nat)
    requires m < n < taxonCount
    ensures PairRow(m, n) < PairCount(taxonCount)
  {
    TriMonotone(n + 1, taxonCount);
  }

  /** Different pairs of taxa have different rows. */
  lemma PairRowInjective(m: nat, n: nat, m': nat, n': nat)
    requires m < n && m' < n'
    ensures PairRow(m, n) == PairRow(m', n') <==> m == m' && n == n'
  {
    if n < n' {
      TriMonotone(n + 1, n');
    } else if n' < n {
      TriMonotone(n' + 1, n);
    }
  }

  /** The column of the state pair `(i, j)`, computed as the source does. */
  function StateColumn(stateCount: nat, i: nat, j: nat): (c: nat)
    requires i < stateCount && j < stateCount
    ensures c < stateCount * stateCount
  {
    MulMonotone(stateCount, i + 1, stateCount);
    assert stateCount * (i + 1) == stateCount * i + stateCount;
    stateCount * i + j
  }

  /** Multiplication by a natural number preserves order. */
  lemma {:induction false} MulMonotone(c: nat, a: nat, b: nat)
    requires a <= b
    ensures c * a <= c * b
    decreases b - a
  {
    if a < b {
      MulMonotone(c, a, b - 1);
      assert c * b == c * (b - 1) + c;
    }
  }

  /** Different state pairs have different columns. */
  lemma StateColumnInjective(stateCount: nat, i: nat, j: nat, i': nat, j': nat)
    requires i < stateCount && j < stateCount && i' < stateCount && j' < stateCount
    ensures StateColumn(stateCount, i, j) == StateColumn(stateCount, i', j') <==> i == i' && j == j'
  {
    if i < i' {
      MulMonotone(stateCount, i + 1, i');
      assert stateCount * (i + 1) == stateCount * i + stateCount;
    } else if i' < i {
      MulMonotone(stateCount, i' + 1, i);
      assert stateCount * (i' + 1) == stateCount * i' + stateCount;
    }
  }

  /** The cell of the state pair `(k, k)` is `(stateCount + 1) * k`, as the frequency estimate reads it. */
  lemma DiagonalColumn(stateCount: nat, k: nat)
    requires k < stateCount
    ensures (stateCount + 1) * k == StateColumn(stateCount, k, k)
  {
  }

  // ---------------------------------------------------------------------
  // Cell addressing
  // ---------------------------------------------------------------------

  /**
   * The cell that `getPatternWeight(a, i, b, j)` and `addPattern(a, i, b, j, w)`
   * use, with the taxa reflected into canonical order. A taxon missing from the
   * list is reported as an error (see `CellAsWritten` for what the code does).
   */
  function Cell(taxa: seq<Taxon>, stateCount: nat, a: Taxon, i: nat, b: Taxon, j: nat): (r: Result<(nat, nat), TableError>)
    requires i < stateCount && j < stateCount
    ensures r.Ok? ==> r.value.0 < PairCount(|taxa|) && r.value.1 < stateCount * stateCount
    ensures r.Err? <==> a !in taxa || b !in taxa || a == b
    decreases if TaxonIndex(taxa, a) > TaxonIndex(taxa, b) then 1 else 0
  {
    var m := TaxonIndex(taxa, a);
    var n := TaxonIndex(taxa, b);
    if m == -1 then Err(UnknownTaxon(a))
    else if n == -1 then Err(UnknownTaxon(b))
    else if m == n then Err(SameTaxon)
    else if m > n then Cell(taxa, stateCount, b, j, a, i)
    else
      PairRowInRange(m, n, |taxa|);
      Ok((PairRow(m, n), StateColumn(stateCount, i, j)))
  }

  /** Lookups and inserts with the taxa in either order address the same cell. */
  lemma CellSymmetric(taxa: seq<Taxon>, stateCount: nat, a: Taxon, i: nat, b: Taxon, j: nat)
    requires i < stateCount && j < stateCount
    ensures Cell(taxa, stateCount, a, i, b, j) == Cell(taxa, stateCount, b, j, a, i)
            || (Cell(taxa, stateCount, a, i, b, j).Err? && Cell(taxa, stateCount, b, j, a, i).Err?)
  {
  }

  /** Naming the same taxon twice is rejected with the source's IllegalArgumentException. */
  lemma SameTaxonRejected(taxa: seq<Taxon>, stateCount: nat, a: Taxon, i: nat, j: nat)
    requires i < stateCount && j < stateCount
    requires a in taxa
    ensures Cell(taxa, stateCount, a, i, a, j) == Err(SameTaxon)
  {
  }

  /** Two observations address the same cell exactly when they are the same observation, possibly swapped. */
  lemma CellInjective(taxa: seq<Taxon>, stateCount: nat,
                      a: Taxon, i: nat, b: Taxon, j: nat,
                      a': Taxon, i': nat, b': Taxon, j': nat)
    requires i < stateCount && j < stateCount && i' < stateCount && j' < stateCount
    requires Cell(taxa, stateCount, a, i, b, j).Ok? && Cell(taxa, stateCount, a', i', b', j').Ok?
    ensures Cell(taxa, stateCount, a, i, b, j) == Cell(taxa, stateCount, a', i', b', j')
            <==> (a, i, b, j) == (a', i', b', j') || (a, i, b, j) == (b', j', a', i')
  {
    var m, n := TaxonIndex(taxa, a), TaxonIndex(taxa, b);
    var m', n' := TaxonIndex(taxa, a'), TaxonIndex(taxa, b');
    // the canonical (lower-index-first) form of each observation
    var (lo, si, hi, sj) := if m < n then (m, i, n, j) else (n, j, m, i);
    var (lo', si', hi', sj') := if m' < n' then (m', i', n', j') else (n', j', m', i');
    assert Cell(taxa, stateCount, a, i, b, j) == Ok((PairRow(lo, hi), StateColumn(stateCount, si, sj)));
    assert Cell(taxa, stateCount, a', i', b', j') == Ok((PairRow(lo', hi'), StateColumn(stateCount, si', sj')));
    PairRowInjective(lo, hi, lo', hi');
    StateColumnInjective(stateCount, si, sj, si', sj');
  }

  // ---------------------------------------------------------------------
  // The table's contents as a value
  // ---------------------------------------------------------------------

  /** A grid of `rows` rows of `columns` zeros: the contents of a fresh table. */
  function ZeroGrid(rows: nat, columns: nat): (g: Grid)
    ensures |g| == rows && forall x :: 0 <= x < rows ==> g[x] == seq(columns, _ => 0.0)
  {
    seq(rows, _ => seq(columns, _ => 0.0))
  }

  /** Every row of `g` has `columns` cells. */
  ghost predicate Rectangular(g: Grid, columns: nat)
  {
    forall x :: 0 <= x < |g| ==> |g[x]| == columns
  }

  /** The weight that the table with contents `g` reports for the observation. */
  function WeightIn(g: Grid, taxa: seq<Taxon>, stateCount: nat, a: Taxon, i: nat, b: Taxon, j: nat): Result<real, TableError>
    requires i < stateCount && j < stateCount
    requires |g| == PairCount(|taxa|) && Rectangular(g, stateCount * stateCount)
  {
    match Cell(taxa, stateCount, a, i, b, j)
    case Ok((x, y)) => Ok(g[x][y])
    case Err(e) => Err(e)
  }

  /** `g` with `w` added to the cell at row `x`, column `y`. */
  function Bump(g: Grid, x: nat, y: nat, w: real): (g': Grid)
    requires x < |g| && y < |g[x]|
    ensures |g'| == |g| && forall r :: 0 <= r < |g| ==> |g'[r]| == |g[r]|
  {
    g[x := g[x][y := g[x][y] + w]]
  }

  /** The sum of a sequence of weights, accumulated from the front (as `MathUtils.getTotal` does). */
  function Total(s: seq<real>): real
  {
    if |s| == 0 then 0.0 else Total(s[..|s| - 1]) + s[|s| - 1]
  }

  /** The sum of every cell, row by row. */
  function GridTotal(g: Grid): real
  {
    if |g| == 0 then 0.0 else GridTotal(g[..|g| - 1]) + Total(g[|g| - 1])
  }

  /** `s` with every entry divided by `c`. */
  function DivideAll(s: seq<real>, c: real): (r: seq<real>)
    requires c != 0.0
    ensures |r| == |s| && forall k :: 0 <= k < |s| ==> r[k] * c == s[k]
  {
    seq(|s|, k requires 0 <= k < |s| => s[k] / c)
  }

  /** `s` with every entry divided by the sum of `s`. */
  function Normalised(s: seq<real>): seq<real>
    requires Total(s) != 0.0
  {
    DivideAll(s, Total(s))
  }

  /** The same-state cells `(i, i)` of row 0, the row of taxon pair (0, 1). */
  function Diagonal(g: Grid, stateCount: nat): (d: seq<real>)
    requires |g| > 0 && |g[0]| == stateCount * stateCount
    ensures |d| == stateCount
  {
    seq(stateCount, k requires 0 <= k < stateCount => g[0][StateColumn(stateCount, k, k)])
  }

  // ---------------------------------------------------------------------
  // Properties of the contents
  // ---------------------------------------------------------------------

  /** A fresh table holds no weight. */
  lemma {:induction false} ZeroGridTotal(rows: nat, columns: nat)
    ensures GridTotal(ZeroGrid(rows, columns)) == 0.0
  {
    if rows > 0 {
      ZeroGridTotal(rows - 1, columns);
      assert ZeroGrid(rows, columns)[..rows - 1] == ZeroGrid(rows - 1, columns);
      ZerosTotal(columns);
    }
  }

  lemma {:induction false} ZerosTotal(n: nat)
    ensures Total(seq(n, _ => 0.0)) == 0.0
  {
    if n > 0 {
      ZerosTotal(n - 1);
      assert seq(n, _ => 0.0)[..n - 1] == seq(n - 1, _ => 0.0);
    }
  }

  /** Adding `w` to one entry adds `w` to the sum. */
  lemma {:induction false} TotalBump(s: seq<real>, y: nat, w: real)
    requires y < |s|
    ensures Total(s[y := s[y] + w]) == Total(s) + w
  {
    var s' := s[y := s[y] + w];
    if y < |s| - 1 {
      TotalBump(s[..|s| - 1], y, w);
      assert s'[..|s| - 1] == s[..|s| - 1][y := s[y] + w];
    } else {
      assert s'[..|s| - 1] == s[..|s| - 1];
    }
  }

  /** Adding `w` to one cell adds `w` to the total weight. */
  lemma {:induction false} GridTotalBump(g: Grid, x: nat, y: nat, w: real)
    requires x < |g| && y < |g[x]|
    ensures GridTotal(Bump(g, x, y, w)) == GridTotal(g) + w
  {
    var g' := Bump(g, x, y, w);
    if x < |g| - 1 {
      GridTotalBump(g[..|g| - 1], x, y, w);
      assert g'[..|g| - 1] == Bump(g[..|g| - 1], x, y, w);
    } else {
      assert g'[..|g| - 1] == g[..|g| - 1];
      TotalBump(g[x], y, w);
    }
  }

  /** Dividing every entry by `c` divides the sum by `c`. */
  lemma {:induction false} TotalDivided(s: seq<real>, c: real)
    requires c != 0.0
    ensures Total(DivideAll(s, c)) == Total(s) / c
  {
    if |s| > 0 {
      var s0 := s[..|s| - 1];
      TotalDivided(s0, c);
      assert DivideAll(s, c)[..|s| - 1] == DivideAll(s0, c);
    }
  }

  /** Approximate frequencies, when they exist, sum to one. */
  lemma NormalisedSumsToOne(s: seq<real>)
    requires Total(s) != 0.0
    ensures Total(Normalised(s)) == 1.0
  {
    var t := Total(s);
    TotalDivided(s, t);
    assert Normalised(s) == DivideAll(s, t);
    assert t / t == 1.0;
  }

  /**
   * `addPattern(a, i, b, j, w)` raises the weight reported for an observation
   * by `w` when it is the added observation in either order, and leaves every
   * other observation's weight as it was.
   */
  lemma AddPatternEffect(g: Grid, taxa: seq<Taxon>, stateCount: nat,
                         a: Taxon, i: nat, b: Taxon, j: nat, w: real,
                         a': Taxon, i': nat, b': Taxon, j': nat)
    requires i < stateCount && j < stateCount && i' < stateCount && j' < stateCount
    requires |g| == PairCount(|taxa|) && Rectangular(g, stateCount * stateCount)
    requires Cell(taxa, stateCount, a, i, b, j).Ok? && Cell(taxa, stateCount, a', i', b', j').Ok?
    ensures var (x, y) := Cell(taxa, stateCount, a, i, b, j).value;
            var g' := Bump(g, x, y, w);
            Rectangular(g', stateCount * stateCount)
            && WeightIn(g', taxa, stateCount, a', i', b', j').value
               == WeightIn(g, taxa, stateCount, a', i', b', j').value
                  + (if (a', i', b', j') == (a, i, b, j) || (a', i', b', j') == (b, j, a, i) then w else 0.0)
  {
    CellInjective(taxa, stateCount, a, i, b, j, a', i', b', j');
  }

  /** Row 0 of the table is the pair made of the first two taxa; the diagonal is their same-state weights. */
  lemma DiagonalIsFirstPair(g: Grid, taxa: seq<Taxon>, stateCount: nat, k: nat)
    requires |taxa| >= 2 && taxa[0] != taxa[1] && k < stateCount
    requires |g| == PairCount(|taxa|) && Rectangular(g, stateCount * stateCount)
    ensures |g| > 0 && Diagonal(g, stateCount)[k] == WeightIn(g, taxa, stateCount, taxa[0], k, taxa[1], k).value
  {
    PairRowInRange(0, 1, |taxa|);
    assert TaxonIndex(taxa, taxa[1]) == 1;
  }

  // ---------------------------------------------------------------------
  // The code as written: unknown taxa are not detected
  // ---------------------------------------------------------------------

  /**
   * The row and column the source computes, without the missing-taxon check:
   * `getTaxonIndex` returns -1 for an unknown taxon and the arithmetic goes on
   * with it. The row may then fall outside the table (an
   * ArrayIndexOutOfBoundsException) or inside it, on another pair's row.
   */
  function CellAsWritten(taxa: seq<Taxon>, stateCount: nat, a: Taxon, i: nat, b: Taxon, j: nat): (r: Result<(int, int), TableError>)
    ensures r.Err? <==> TaxonIndex(taxa, a) == TaxonIndex(taxa, b)
    decreases if TaxonIndex(taxa, a) > TaxonIndex(taxa, b) then 1 else 0
  {
    var m := TaxonIndex(taxa, a);
    var n := TaxonIndex(taxa, b);
    if m == n then Err(SameTaxon)
    else if m > n then CellAsWritten(taxa, stateCount, b, j, a, i)
    else Ok((m + n * (n - 1) / 2, stateCount * i + j))
  }

  /**
   * An unknown taxon paired with the taxon at position `n >= 2` lands on the
   * row of the pair (n - 2, n - 1): its weight is read from, and added to,
   * another pair's cell.
   */
  lemma UnknownTaxonAliasesAnotherPair(taxa: seq<Taxon>, stateCount: nat, u: Taxon, i: nat, n: nat, j: nat)
    requires u !in taxa && 2 <= n < |taxa|
    requires forall p, q :: 0 <= p < q < |taxa| ==> taxa[p] != taxa[q]
    ensures CellAsWritten(taxa, stateCount, u, i, taxa[n], j)
            == CellAsWritten(taxa, stateCount, taxa[n - 2], i, taxa[n - 1], j)
  {
    assert TaxonIndex(taxa, taxa[n]) == n;
    assert TaxonIndex(taxa, taxa[n - 1]) == n - 1;
    assert TaxonIndex(taxa, taxa[n - 2]) == n - 2;
    TriFormula(n);
    TriFormula(n - 1);
  }

  /** Two different unknown taxa are reported as the same taxon. */
  lemma UnknownTaxaReportedAsSame(taxa: seq<Taxon>, stateCount: nat, u: Taxon, i: nat, v: Taxon, j: nat)
    requires u !in taxa && v !in taxa && u != v
    ensures CellAsWritten(taxa, stateCount, u, i, v, j) == Err(SameTaxon)
  {
  }

  /** Where every taxon is in the list, the corrected addressing is the code's. */
  lemma CellAgreesWithCode(taxa: seq<Taxon>, stateCount: nat, a: Taxon, i: nat, b: Taxon, j: nat)
    requires i < stateCount && j < stateCount && a in taxa && b in taxa
    ensures Cell(taxa, stateCount, a, i, b, j).Ok? == CellAsWritten(taxa, stateCount, a, i, b, j).Ok?
    ensures Cell(taxa, stateCount, a, i, b, j).Ok? ==>
              CellAsWritten(taxa, stateCount, a, i, b, j).value
              == (Cell(taxa, stateCount, a, i, b, j).value.0 as int, Cell(taxa, stateCount, a, i, b, j).value.1 as int)
  {
  }

  // ---------------------------------------------------------------------
  // The table
  // ---------------------------------------------------------------------

  class PairedPatterns {
    const stateCount: nat
    const taxa: seq<Taxon>
    const weights: array2<real>

    /** The table's contents, as a value. */
    ghost var Contents: Grid

    ghost predicate Valid()
      reads this, weights
    {
      && weights.Length0 == PairCount(|taxa|)
      && weights.Length1 == stateCount * stateCount
      && |Contents| == weights.Length0
      && Rectangular(Contents, weights.Length1)
      && forall x, y :: 0 <= x < weights.Length0 && 0 <= y < weights.Length1 ==> Contents[x][y] == weights[x, y]
    }

    /** A table with one row of zero weights per taxon pair. */
    constructor (stateCount: nat, taxa: seq<Taxon>)
      ensures Valid() && fresh(weights)
      ensures this.stateCount == stateCount && this.taxa == taxa
      ensures Contents == ZeroGrid(PairCount(|taxa|), stateCount * stateCount)
    {
      this.stateCount := stateCount;
      this.taxa := taxa;
      weights := new real[PairCount(|taxa|), stateCount * stateCount]((_, _) => 0.0);
      Contents := ZeroGrid(PairCount(|taxa|), stateCount * stateCount);
    }

    /** `getPatternWeight`: the weight of state `i` in `a` paired with state `j` in `b`. */
    function GetPatternWeight(a: Taxon, i: nat, b: Taxon, j: nat): (r: Result<real, TableError>)
      reads this, weights
      requires Valid() && i < stateCount && j < stateCount
      ensures r == WeightIn(Contents, taxa, stateCount, a, i, b, j)
      decreases if TaxonIndex(taxa, a) > TaxonIndex(taxa, b) then 1 else 0
    {
      var m := TaxonIndex(taxa, a);
      var n := TaxonIndex(taxa, b);
      if m == -1 then Err(UnknownTaxon(a))
      else if n == -1 then Err(UnknownTaxon(b))
      else if m == n then Err(SameTaxon)
      else if m > n then GetPatternWeight(b, j, a, i)
      else
        PairRowInRange(m, n, |taxa|);
        Ok(weights[PairRow(m, n), StateColumn(stateCount, i, j)])
    }

    /** `addPattern(a, i, b, j, w)`: adds `w` to the cell of the observation. */
    method AddPattern(a: Taxon, i: nat, b: Taxon, j: nat, w: real) returns (outcome: Outcome<TableError>)
      requires Valid() && i < stateCount && j < stateCount
      modifies this, weights
      ensures Valid()
      ensures match Cell(taxa, stateCount, a, i, b, j)
              case Ok((x, y)) => outcome == Pass && Contents == Bump(old(Contents), x, y, w)
              case Err(e) => outcome == Fail(e) && Contents == old(Contents)
      decreases if TaxonIndex(taxa, a) > TaxonIndex(taxa, b) then 1 else 0
    {
      var m := TaxonIndex(taxa, a);
      var n := TaxonIndex(taxa, b);
      if m == -1 {
        return Fail(UnknownTaxon(a));
      } else if n == -1 {
        return Fail(UnknownTaxon(b));
      } else if m == n {
        return Fail(SameTaxon);
      } else if m > n {
        outcome := AddPattern(b, j, a, i, w);
        return;
      }
      PairRowInRange(m, n, |taxa|);
      var x := PairRow(m, n);
      var y := StateColumn(stateCount, i, j);
      weights[x, y] := weights[x, y] + w;
      Contents := Bump(Contents, x, y, w);
      outcome := Pass;
    }

    /** The four-argument `addPattern`: one site of weight 1. */
    method AddUnitPattern(a: Taxon, i: nat, b: Taxon, j: nat) returns (outcome: Outcome<TableError>)
      requires Valid() && i < stateCount && j < stateCount
      modifies this, weights
      ensures Valid()
      ensures match Cell(taxa, stateCount, a, i, b, j)
              case Ok((x, y)) => outcome == Pass && Contents == Bump(old(Contents), x, y, 1.0)
              case Err(e) => outcome == Fail(e) && Contents == old(Contents)
    {
      outcome := AddPattern(a, i, b, j, 1.0);
    }

    /** `getTotalWeight`: the sum of every cell of every row. */
    method GetTotalWeight() returns (total: real)
      requires Valid()
      ensures total == GridTotal(Contents)
    {
      total := 0.0;
      var x := 0;
      while x < weights.Length0
        invariant 0 <= x <= weights.Length0
        invariant total == GridTotal(Contents[..x])
      {
        var rowTotal := 0.0;
        var y := 0;
        while y < weights.Length1
          invariant 0 <= y <= weights.Length1
          invariant rowTotal == Total(Contents[x][..y])
        {
          assert Contents[x][..y + 1][..y] == Contents[x][..y];
          rowTotal := rowTotal + weights[x, y];
          y := y + 1;
        }
        assert Contents[x][..y] == Contents[x];
        assert Contents[..x + 1][..x] == Contents[..x];
        total := total + rowTotal;
        x := x + 1;
      }
      assert Contents[..x] == Contents;
    }

    /**
     * `getApproximateFrequencies`: the same-state weights of the first taxon
     * pair, divided by their sum.
     */
    method GetApproximateFrequencies() returns (r: Result<seq<real>, FrequencyError>)
      requires Valid()
      ensures stateCount == 0 ==> r == Ok([])
      ensures stateCount > 0 && |Contents| == 0 ==> r == Err(NoTaxonPair)
      ensures stateCount > 0 && |Contents| > 0 ==>
                var d := Diagonal(Contents, stateCount);
                if Total(d) == 0.0 then r == Err(ZeroDiagonal) else r == Ok(Normalised(d))
    {
      if stateCount > 0 && weights.Length0 == 0 {
        return Err(NoTaxonPair);
      }
      var freqs := new real[stateCount];
      for k := 0 to stateCount
        invariant forall k' :: 0 <= k' < k ==> freqs[k'] == Contents[0][StateColumn(stateCount, k', k')]
      {
        DiagonalColumn(stateCount, k);
        var c := (stateCount + 1) * k;
        freqs[k] := weights[0, c];
      }
      ghost var diagonal := freqs[..];
      assert stateCount > 0 ==> diagonal == Diagonal(Contents, stateCount);
      var sum := 0.0;
      for k := 0 to stateCount
        invariant sum == Total(diagonal[..k])
      {
        assert diagonal[..k + 1][..k] == diagonal[..k];
        sum := sum + freqs[k];
      }
      assert diagonal[..stateCount] == diagonal;
      if stateCount == 0 {
        return Ok([]);
      }
      if sum == 0.0 {
        return Err(ZeroDiagonal);
      }
      for k := 0 to stateCount
        invariant forall k' :: 0 <= k' < k ==> freqs[k'] == diagonal[k'] / sum
        invariant forall k' :: k <= k' < stateCount ==> freqs[k'] == diagonal[k']
      {
        freqs[k] := freqs[k] / sum;
      }
      assert freqs[..] == DivideAll(diagonal, sum);
      r := Ok(freqs[..]);
    }
  }

  /** After `addPattern(a, i, b, j, w)`, `getTotalWeight()` is larger by exactly `w`. */
  method AddPatternRaisesTotal(t: PairedPatterns, a: Taxon, i: nat, b: Taxon, j: nat, w: real)
    returns (before: real, after: real, outcome: Outcome<TableError>)
    requires t.Valid() && i < t.stateCount && j < t.stateCount
    modifies t, t.weights
    ensures outcome.Pass? <==> a in t.taxa && b in t.taxa && a != b
    ensures after == before + (if outcome.Pass? then w else 0.0)
  {
    before := t.GetTotalWeight();
    outcome := t.AddPattern(a, i, b, j, w);
    after := t.GetTotalWeight();
    match Cell(t.taxa, t.stateCount, a, i, b, j)
    case Ok((x, y)) => GridTotalBump(old(t.Contents), x, y, w);
    case Err(_) =>
  }
}
