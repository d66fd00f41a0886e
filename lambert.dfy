/**
 * The block loop of the Lambert-format parser. The file is a sequence of
 * blocks, one per gene, of one record line per taxon. Each block adds four
 * constant patterns (all A, all C, all G, all T), weighted by the first
 * record's counts, then one pattern of weight 1 per site of the first
 * record's sequence, whose slot for each taxon holds that taxon's state at
 * the site.
 */
module LambertFormat {
  import opened Wrappers
  import opened LambertRecord
  import PatternTable

  type Taxon = PatternTable.Taxon

  /** One pattern added to the `Patterns` sink: a state per taxon and a weight. */
  datatype Pattern = Pattern(states: seq<int>, weight: real)

  // ---------------------------------------------------------------------
  // Results built up front to back
  // ---------------------------------------------------------------------

  /** The items p followed by the items of r, or r's error. */
  function Prefixed<T>(p: seq<T>, r: Result<seq<T>, ParseError>): (s: Result<seq<T>, ParseError>)
    ensures s.Err? <==> r.Err?
    ensures s.Err? ==> s.error == r.error
    ensures s.Ok? ==> |s.value| == |p| + |r.value|
  {
    if r.Ok? then Ok(p + r.value) else r
  }

  /** The items of a followed by those of b; the first error wins. */
  function Concat<T>(a: Result<seq<T>, ParseError>, b: Result<seq<T>, ParseError>): (s: Result<seq<T>, ParseError>)
    ensures a.Err? ==> s == a
    ensures a.Ok? ==> s == Prefixed(a.value, b)
  {
    if a.Err? then a else Prefixed(a.value, b)
  }

  lemma PrefixedTwice<T>(p: seq<T>, q: seq<T>, r: Result<seq<T>, ParseError>)
    ensures Prefixed(p, Prefixed(q, r)) == Prefixed(p + q, r)
  {
    if r.Ok? {
      assert p + (q + r.value) == (p + q) + r.value;
    }
  }

  lemma PrefixedEmpty<T>(r: Result<seq<T>, ParseError>)
    ensures Prefixed([], r) == r
  {
    if r.Ok? {
      assert [] + r.value == r.value;
    }
  }

  lemma ConcatPrefixed<T>(p: seq<T>, a: Result<seq<T>, ParseError>, b: Result<seq<T>, ParseError>)
    ensures Concat(Prefixed(p, a), b) == Prefixed(p, Concat(a, b))
  {
    if a.Ok? {
      PrefixedTwice(p, a.value, b);
    }
  }

  // ---------------------------------------------------------------------
  // Reading a block's records
  // ---------------------------------------------------------------------

  /** What a line reads as: a record, or the error its constructor raises. */
  type Row = Result<SequenceRecord, ParseError>

  /** The rows of the lines of a file. */
  function Rows(lines: seq<string>): (r: seq<Row>)
    ensures |r| == |lines|
  {
    if lines == [] then [] else [RecordOf(lines[0])] + Rows(lines[1..])
  }

  /** Row k is what line k reads as. */
  lemma {:induction false} RowAt(lines: seq<string>, k: nat)
    requires k < |lines|
    ensures Rows(lines)[k] == RecordOf(lines[k])
  {
    if k > 0 {
      RowAt(lines[1..], k - 1);
    }
  }

  /**
   * The rows as the code reads them: its `nextInt` leaves a non-integer
   * count unread, so the fields after it shift (see `RecordAsWrittenOf`).
   */
  function RowsAsWritten(lines: seq<string>): (r: seq<Row>)
    ensures |r| == |lines|
  {
    if lines == [] then [] else [RecordAsWrittenOf(lines[0])] + RowsAsWritten(lines[1..])
  }

  /**
   * On a file whose every line is a written record, the code's reader and
   * the field-by-field reader give the same rows, so the file parses to
   * the same patterns under both.
   */
  lemma {:induction false} WrittenFileParsesAlike(taxa: seq<Taxon>, getState: char -> int,
                                                  lines: seq<string>, recs: seq<SequenceRecord>)
    requires |lines| == |recs|
    requires forall k :: 0 <= k < |lines| ==> Writable(recs[k]) && lines[k] == FormatRecord(recs[k])
    ensures RowsAsWritten(lines) == Rows(lines)
    ensures Parse(taxa, getState, RowsAsWritten(lines)) == Parse(taxa, getState, Rows(lines))
  {
    if lines != [] {
      WellFormedLineAsWritten(recs[0]);
      RecordRoundTrip(recs[0]);
      WrittenFileParsesAlike(taxa, getState, lines[1..], recs[1..]);
    }
  }

  /**
   * The one-line file `g1,t1,x,5,6,7,ACGT` for the single taxon `t1`: the
   * code adds the four constants with weight 0 and one column, from the
   * sequence `x`; read field by field it adds the constants weighted
   * 0, 7, 6, 5 and four columns, from `ACGT`.
   */
  lemma BadCountFileParses(getState: char -> int)
    ensures var asWritten := Parse(["t1"], getState, RowsAsWritten([BadCountLine]));
            var corrected := Parse(["t1"], getState, Rows([BadCountLine]));
            && asWritten.Ok? && |asWritten.value| == 5
            && asWritten.value[0].weight == 0.0 && asWritten.value[1].weight == 0.0
            && corrected.Ok? && |corrected.value| == 8
            && corrected.value[1].weight == 7.0 && corrected.value[2].weight == 6.0
  {
    BadCountAsWritten();
    BadCountCorrected();
    var w := SequenceRecord("g1", "t1", 0, 0, 0, 0, "x");
    var c := SequenceRecord("g1", "t1", 0, 5, 6, 7, "ACGT");
    assert RowsAsWritten([BadCountLine]) == [Ok(w)];
    assert Rows([BadCountLine]) == [Ok(c)];
    SingleRecordFile(getState, w);
    SingleRecordFile(getState, c);
  }

  /** A one-line file for the single taxon it names: its block's patterns. */
  lemma SingleRecordFile(getState: char -> int, rec: SequenceRecord)
    requires rec.taxon == "t1"
    ensures var r := Parse(["t1"], getState, [Ok(rec)]);
            && r.Ok? && |r.value| == 4 + |rec.sequence|
            && r.value[0].weight == rec.a as real && r.value[1].weight == rec.c as real
            && r.value[2].weight == rec.g as real && r.value[3].weight == rec.t as real
  {
    var taxa: seq<Taxon> := ["t1"];
    var rows: seq<Row> := [Ok(rec)];
    ReadRecordsAll(rows, 1, [rec]);
    assert rows[1..] == [];
    assert Parse(taxa, getState, rows) == Concat(Block(taxa, getState, [rec]), Ok([]));
    BlockOk(taxa, getState, [rec]);
    BlockLayout(taxa, getState, [rec]);
  }

  /**
   * `count` records, one from each of the next `count` rows: the first
   * malformed line raises its error, and running out of lines raises
   * `MissingLine`.
   */
  function ReadRecords(rows: seq<Row>, count: nat): (r: Result<seq<SequenceRecord>, ParseError>)
    ensures r.Ok? ==> |r.value| == count <= |rows|
    decreases count
  {
    if count == 0 then Ok([])
    else if rows == [] then Err(MissingLine)
    else
      match rows[0]
      case Err(e) => Err(e)
      case Ok(rec) => Prefixed([rec], ReadRecords(rows[1..], count - 1))
  }

  /** A block's records are read exactly when the next `count` lines exist and are well-formed. */
  lemma {:induction false} ReadRecordsOk(rows: seq<Row>, count: nat)
    ensures ReadRecords(rows, count).Ok? <==> count <= |rows| && forall n :: 0 <= n < count ==> rows[n].Ok?
    decreases count
  {
    if count > 0 && rows != [] {
      ReadRecordsOk(rows[1..], count - 1);
      assert forall n :: 1 <= n < count && n < |rows| ==> rows[n] == rows[1..][n - 1];
    }
  }

  /** Record n of a block is the record line n holds. */
  lemma {:induction false} ReadRecordsValues(rows: seq<Row>, count: nat)
    requires ReadRecords(rows, count).Ok?
    ensures forall n :: 0 <= n < count ==> rows[n] == Ok(ReadRecords(rows, count).value[n])
    decreases count
  {
    if count > 0 {
      ReadRecordsValues(rows[1..], count - 1);
      var r := ReadRecords(rows, count).value;
      var rest := ReadRecords(rows[1..], count - 1).value;
      assert r == [rows[0].value] + rest;
      forall n | 1 <= n < count
        ensures rows[n] == Ok(r[n])
      {
        assert rows[n] == rows[1..][n - 1] && r[n] == rest[n - 1];
      }
    }
  }

  /** Conversely, lines holding the records `recs` are read as exactly those records. */
  lemma {:induction false} ReadRecordsAll(rows: seq<Row>, count: nat, recs: seq<SequenceRecord>)
    requires |recs| == count <= |rows|
    requires forall n :: 0 <= n < count ==> rows[n] == Ok(recs[n])
    ensures ReadRecords(rows, count) == Ok(recs)
    decreases count
  {
    if count > 0 {
      assert forall n :: 0 <= n < count - 1 ==> rows[1..][n] == rows[n + 1] && recs[1..][n] == recs[n + 1];
      ReadRecordsAll(rows[1..], count - 1, recs[1..]);
      assert recs == [recs[0]] + recs[1..];
    }
  }

  /** Reading stops at the first missing or malformed line and reports it. */
  lemma {:induction false} ReadRecordsFirstError(rows: seq<Row>, count: nat, k: nat)
    requires k < count && k <= |rows|
    requires forall n :: 0 <= n < k ==> rows[n].Ok?
    requires k == |rows| || rows[k].Err?
    ensures ReadRecords(rows, count) == if k == |rows| then Err(MissingLine) else Err(rows[k].error)
    decreases k
  {
    if k > 0 {
      assert forall n :: 0 <= n < k - 1 ==> rows[1..][n] == rows[n + 1];
      ReadRecordsFirstError(rows[1..], count - 1, k - 1);
    }
  }

  // ---------------------------------------------------------------------
  // One block as a specification
  // ---------------------------------------------------------------------

  /** `n` slots all holding v: the arrays filled by `Arrays.fill`. */
  function Fill(n: nat, v: int): (r: seq<int>)
    ensures |r| == n && forall k :: 0 <= k < n ==> r[k] == v
  {
    seq(n, _ => v)
  }

  /** The four constant patterns: all A, all C, all G, all T, weighted by the first record's A, C, G and T counts. */
  function Constants(taxonCount: nat, getState: char -> int, first: SequenceRecord): seq<Pattern>
  {
    [Pattern(Fill(taxonCount, getState('A')), first.a as real),
     Pattern(Fill(taxonCount, getState('C')), first.c as real),
     Pattern(Fill(taxonCount, getState('G')), first.g as real),
     Pattern(Fill(taxonCount, getState('T')), first.t as real)]
  }

  /**
   * The inner loop over the records for site i, from the pattern built so
   * far: an unknown taxon name raises its error, a sequence with no
   * character i raises `SequenceTooShort`, and otherwise the taxon's slot
   * takes the state of character i.
   */
  function FillColumn(taxa: seq<Taxon>, getState: char -> int, records: seq<SequenceRecord>, i: nat,
                      pattern: seq<int>): (r: Result<seq<int>, ParseError>)
    requires |pattern| == |taxa|
    ensures r.Ok? ==> |r.value| == |taxa|
    ensures r.Err? ==> r.error == SequenceTooShort || (r.error.UnknownTaxon? && r.error.name !in taxa)
  {
    if records == [] then Ok(pattern)
    else
      var rec := records[0];
      var j := PatternTable.TaxonIndex(taxa, rec.taxon);
      if j == -1 then Err(UnknownTaxon(rec.taxon))
      else if i >= |rec.sequence| then Err(SequenceTooShort)
      else FillColumn(taxa, getState, records[1..], i, pattern[j := getState(rec.sequence[i])])
  }

  /** The column pattern of site i: the inner loop from a fresh, zero-filled array. */
  function Column(taxa: seq<Taxon>, getState: char -> int, records: seq<SequenceRecord>, i: nat): Result<seq<int>, ParseError>
  {
    FillColumn(taxa, getState, records, i, Fill(|taxa|, 0))
  }

  /** The weight-1 column patterns of sites i, i + 1, ... of the first record's sequence. */
  function Columns(taxa: seq<Taxon>, getState: char -> int, records: seq<SequenceRecord>, i: nat): Result<seq<Pattern>, ParseError>
    requires records != []
    decreases |records[0].sequence| - i
  {
    if i >= |records[0].sequence| then Ok([])
    else
      match Column(taxa, getState, records, i)
      case Err(e) => Err(e)
      case Ok(states) => Prefixed([Pattern(states, 1.0)], Columns(taxa, getState, records, i + 1))
  }

  /** The patterns one block adds: the four constants, then a column per site. */
  function Block(taxa: seq<Taxon>, getState: char -> int, records: seq<SequenceRecord>): Result<seq<Pattern>, ParseError>
    requires records != []
  {
    Prefixed(Constants(|taxa|, getState, records[0]), Columns(taxa, getState, records, 0))
  }

  /**
   * The patterns of a whole file, block after block. With no taxa a block
   * has no first record, so a non-empty file raises `NoTaxonRecord`.
   */
  function Parse(taxa: seq<Taxon>, getState: char -> int, rows: seq<Row>): Result<seq<Pattern>, ParseError>
    decreases |rows|
  {
    if rows == [] then Ok([])
    else
      match ReadRecords(rows, |taxa|)
      case Err(e) => Err(e)
      case Ok(records) =>
        if records == [] then Err(NoTaxonRecord)
        else Concat(Block(taxa, getState, records), Parse(taxa, getState, rows[|taxa|..]))
  }

  // ---------------------------------------------------------------------
  // Properties of a block
  // ---------------------------------------------------------------------

  /**
   * The last record, in file order, whose taxon name takes slot k, or -1
   * when no record names the taxon of slot k.
   */
  function LastWriter(taxa: seq<Taxon>, records: seq<SequenceRecord>, k: nat): (r: int)
    ensures r == -1 ==> forall n :: 0 <= n < |records| ==> PatternTable.TaxonIndex(taxa, records[n].taxon) != k
    ensures r != -1 ==> 0 <= r < |records| && PatternTable.TaxonIndex(taxa, records[r].taxon) == k
    ensures r != -1 ==> forall n :: r < n < |records| ==> PatternTable.TaxonIndex(taxa, records[n].taxon) != k
  {
    if records == [] then -1
    else
      var later := LastWriter(taxa, records[1..], k);
      if later != -1 then later + 1
      else if PatternTable.TaxonIndex(taxa, records[0].taxon) == k then 0
      else -1
  }

  /** Every record names a taxon in the list and has a character at site i. */
  predicate Readable(taxa: seq<Taxon>, records: seq<SequenceRecord>, i: nat)
  {
    forall n :: 0 <= n < |records| ==> records[n].taxon in taxa && i < |records[n].sequence|
  }

  /** A site's column is built exactly when every record names a known taxon and reaches the site. */
  lemma {:induction false} FillColumnOk(taxa: seq<Taxon>, getState: char -> int, records: seq<SequenceRecord>, i: nat,
                                         pattern: seq<int>)
    requires |pattern| == |taxa|
    ensures FillColumn(taxa, getState, records, i, pattern).Ok? <==> Readable(taxa, records, i)
  {
    if records != [] {
      var rec := records[0];
      var j := PatternTable.TaxonIndex(taxa, rec.taxon);
      if j != -1 && i < |rec.sequence| {
        FillColumnOk(taxa, getState, records[1..], i, pattern[j := getState(rec.sequence[i])]);
        assert forall n :: 1 <= n < |records| ==> records[n] == records[1..][n - 1];
      }
    }
  }

  /**
   * In a built column, slot k holds the state at site i of the last record
   * naming taxon k, and keeps its earlier value when no record names it.
   */
  lemma {:induction false} FillColumnSlot(taxa: seq<Taxon>, getState: char -> int, records: seq<SequenceRecord>, i: nat,
                                           pattern: seq<int>, k: nat)
    requires |pattern| == |taxa| && k < |taxa|
    requires Readable(taxa, records, i)
    ensures FillColumn(taxa, getState, records, i, pattern).Ok?
    ensures var w := LastWriter(taxa, records, k);
            FillColumn(taxa, getState, records, i, pattern).value[k]
            == if w == -1 then pattern[k] else getState(records[w].sequence[i])
  {
    FillColumnOk(taxa, getState, records, i, pattern);
    if records != [] {
      var rec := records[0];
      var j := PatternTable.TaxonIndex(taxa, rec.taxon);
      assert Readable(taxa, records[1..], i) by {
        assert forall n :: 1 <= n < |records| ==> records[n] == records[1..][n - 1];
      }
      FillColumnSlot(taxa, getState, records[1..], i, pattern[j := getState(rec.sequence[i])], k);
    }
  }

  /**
   * Column i of a block: every record's taxon slot holds the state of its
   * character i (the last record wins when two name the same taxon), and
   * the slot of a taxon no record names stays 0.
   */
  lemma ColumnSlots(taxa: seq<Taxon>, getState: char -> int, records: seq<SequenceRecord>, i: nat, k: nat)
    requires k < |taxa|
    requires Readable(taxa, records, i)
    ensures Column(taxa, getState, records, i).Ok?
    ensures var w := LastWriter(taxa, records, k);
            Column(taxa, getState, records, i).value[k] == if w == -1 then 0 else getState(records[w].sequence[i])
  {
    FillColumnSlot(taxa, getState, records, i, Fill(|taxa|, 0), k);
  }

  /** Column i of a block is built exactly when every record names a known taxon and reaches site i. */
  lemma ColumnOk(taxa: seq<Taxon>, getState: char -> int, records: seq<SequenceRecord>, i: nat)
    ensures Column(taxa, getState, records, i).Ok? <==> Readable(taxa, records, i)
  {
    FillColumnOk(taxa, getState, records, i, Fill(|taxa|, 0));
  }

  /** The columns from site i on: one weight-1 pattern per remaining site, each the column of its site. */
  lemma {:induction false} ColumnsLayout(taxa: seq<Taxon>, getState: char -> int, records: seq<SequenceRecord>, i: nat)
    requires records != []
    requires Columns(taxa, getState, records, i).Ok?
    ensures var cs := Columns(taxa, getState, records, i).value;
            && |cs| == (if i < |records[0].sequence| then |records[0].sequence| - i else 0)
            && forall s :: i <= s < |records[0].sequence| ==>
                 Column(taxa, getState, records, s).Ok?
                 && cs[s - i] == Pattern(Column(taxa, getState, records, s).value, 1.0)
    decreases |records[0].sequence| - i
  {
    if i < |records[0].sequence| {
      ColumnsLayout(taxa, getState, records, i + 1);
      var cs := Columns(taxa, getState, records, i).value;
      var rest := Columns(taxa, getState, records, i + 1).value;
      var column := Column(taxa, getState, records, i);
      assert column.Ok? && cs == [Pattern(column.value, 1.0)] + rest;
      forall k | 0 < k < |cs|
        ensures cs[k] == rest[k - 1]
      {
      }
    }
  }

  /** The columns from site i on fail exactly when some remaining site's column fails. */
  lemma {:induction false} ColumnsOk(taxa: seq<Taxon>, getState: char -> int, records: seq<SequenceRecord>, i: nat)
    requires records != []
    ensures Columns(taxa, getState, records, i).Ok?
            <==> forall s :: i <= s < |records[0].sequence| ==> Column(taxa, getState, records, s).Ok?
    decreases |records[0].sequence| - i
  {
    if i < |records[0].sequence| {
      ColumnsOk(taxa, getState, records, i + 1);
    }
  }

  /**
   * A block's patterns: all A, all C, all G and all T weighted by the first
   * record's A, C, G and T counts, in that order, then one pattern of
   * weight 1 for each site of the first record's sequence, holding that
   * site's column.
   */
  lemma BlockLayout(taxa: seq<Taxon>, getState: char -> int, records: seq<SequenceRecord>)
    requires records != []
    requires Block(taxa, getState, records).Ok?
    ensures var ps := Block(taxa, getState, records).value;
            var first := records[0];
            && |ps| == 4 + |first.sequence|
            && ps[0] == Pattern(Fill(|taxa|, getState('A')), first.a as real)
            && ps[1] == Pattern(Fill(|taxa|, getState('C')), first.c as real)
            && ps[2] == Pattern(Fill(|taxa|, getState('G')), first.g as real)
            && ps[3] == Pattern(Fill(|taxa|, getState('T')), first.t as real)
            && forall s :: 0 <= s < |first.sequence| ==>
                 Column(taxa, getState, records, s).Ok?
                 && ps[4 + s] == Pattern(Column(taxa, getState, records, s).value, 1.0)
  {
    ColumnsLayout(taxa, getState, records, 0);
    var ps := Block(taxa, getState, records).value;
    var cs := Columns(taxa, getState, records, 0).value;
    assert ps == Constants(|taxa|, getState, records[0]) + cs;
    forall s | 0 <= s < |records[0].sequence|
      ensures Column(taxa, getState, records, s).Ok?
      ensures ps[4 + s] == Pattern(Column(taxa, getState, records, s).value, 1.0)
    {
      assert ps[4 + s] == cs[s - 0];
    }
  }

  /**
   * A block fails exactly when some site of the first record's sequence has
   * a record with an unknown taxon or a record too short to reach it; so a
   * block whose first sequence is empty checks no taxon names at all.
   */
  lemma BlockOk(taxa: seq<Taxon>, getState: char -> int, records: seq<SequenceRecord>)
    requires records != []
    ensures Block(taxa, getState, records).Ok?
            <==> forall s :: 0 <= s < |records[0].sequence| ==> Readable(taxa, records, s)
  {
    ColumnsOk(taxa, getState, records, 0);
    forall s | 0 <= s < |records[0].sequence|
      ensures Column(taxa, getState, records, s).Ok? <==> Readable(taxa, records, s)
    {
      ColumnOk(taxa, getState, records, s);
    }
  }

  /** Records that agree on taxon names and sequences build the same columns, whatever their counts and genes. */
  lemma {:induction false} FillColumnIgnoresCounts(taxa: seq<Taxon>, getState: char -> int,
                                                    records: seq<SequenceRecord>, others: seq<SequenceRecord>,
                                                    i: nat, pattern: seq<int>)
    requires |pattern| == |taxa| && |others| == |records|
    requires forall n :: 0 <= n < |records| ==>
               others[n].taxon == records[n].taxon && others[n].sequence == records[n].sequence
    ensures FillColumn(taxa, getState, others, i, pattern) == FillColumn(taxa, getState, records, i, pattern)
  {
    if records != [] {
      var rec := records[0];
      var j := PatternTable.TaxonIndex(taxa, rec.taxon);
      if j != -1 && i < |rec.sequence| {
        FillColumnIgnoresCounts(taxa, getState, records[1..], others[1..], i, pattern[j := getState(rec.sequence[i])]);
      }
    }
  }

  lemma {:induction false} ColumnsIgnoreCounts(taxa: seq<Taxon>, getState: char -> int,
                                                records: seq<SequenceRecord>, others: seq<SequenceRecord>, i: nat)
    requires records != [] && |others| == |records|
    requires forall n :: 0 <= n < |records| ==>
               others[n].taxon == records[n].taxon && others[n].sequence == records[n].sequence
    ensures Columns(taxa, getState, others, i) == Columns(taxa, getState, records, i)
    decreases |records[0].sequence| - i
  {
    if i < |records[0].sequence| {
      FillColumnIgnoresCounts(taxa, getState, records, others, i, Fill(|taxa|, 0));
      ColumnsIgnoreCounts(taxa, getState, records, others, i + 1);
    }
  }

  /**
   * Only the first record's counts weigh anything: a block whose other
   * records have different genes and counts adds the same patterns.
   */
  lemma BlockIgnoresOtherCounts(taxa: seq<Taxon>, getState: char -> int,
                                records: seq<SequenceRecord>, others: seq<SequenceRecord>)
    requires records != [] && |others| == |records| && others[0] == records[0]
    requires forall n :: 0 <= n < |records| ==>
               others[n].taxon == records[n].taxon && others[n].sequence == records[n].sequence
    ensures Block(taxa, getState, others) == Block(taxa, getState, records)
  {
    ColumnsIgnoreCounts(taxa, getState, records, others, 0);
  }

  // ---------------------------------------------------------------------
  // Properties of a file
  // ---------------------------------------------------------------------

  /**
   * A file that parses is made of whole blocks: its line count is a
   * multiple of the taxon count, and with no taxa it is empty.
   */
  lemma {:induction false} ParseConsumesWholeBlocks(taxa: seq<Taxon>, getState: char -> int, rows: seq<Row>)
    returns (blocks: nat)
    requires Parse(taxa, getState, rows).Ok?
    ensures |rows| == blocks * |taxa|
    ensures |taxa| == 0 ==> rows == []
    decreases |rows|
  {
    if rows == [] {
      blocks := 0;
    } else {
      var later := ParseConsumesWholeBlocks(taxa, getState, rows[|taxa|..]);
      blocks := later + 1;
      assert (later + 1) * |taxa| == later * |taxa| + |taxa|;
    }
  }

  // ---------------------------------------------------------------------
  // The parser as the source runs it
  // ---------------------------------------------------------------------

  /** The BEAST `Patterns` sink, as the list of patterns added to it in order. */
  class Patterns {
    var list: seq<Pattern>

    constructor ()
      ensures list == []
    {
      list := [];
    }

    /** `addPattern(pattern, weight)`. */
    method AddPattern(states: seq<int>, weight: real)
      modifies this
      ensures list == old(list) + [Pattern(states, weight)]
    {
      list := list + [Pattern(states, weight)];
    }
  }

  /** `new SequenceRecord(sc.nextLine())` on line k, with the field-by-field reader (see `RowsAsWritten`). */
  method ReadRow(lines: seq<string>, k: nat) returns (row: Row)
    requires k < |lines|
    ensures row == Rows(lines)[k]
  {
    row := ReadRecord(lines[k]);
    RowAt(lines, k);
  }

  /** The records of one block: `count` calls of `nextLine`, each parsed into a record. */
  method ReadBlock(lines: seq<string>, pos: nat, count: nat) returns (r: Result<seq<SequenceRecord>, ParseError>)
    requires pos <= |lines|
    ensures r == ReadRecords(Rows(lines)[pos..], count)
  {
    ghost var block := Rows(lines)[pos..];
    ghost var read: seq<SequenceRecord> := [];
    var records := new SequenceRecord[count](_ => SequenceRecord([], [], 0, 0, 0, 0, []));
    for n := 0 to count
      invariant pos + n <= |lines| && |read| == n
      invariant records[..n] == read
      invariant forall m :: 0 <= m < n ==> block[m] == Ok(read[m])
    {
      if pos + n == |lines| {
        ReadRecordsFirstError(block, count, n);
        return Err(MissingLine);
      }
      var rec := ReadRow(lines, pos + n);
      if rec.Err? {
        ReadRecordsFirstError(block, count, n);
        return Err(rec.error);
      }
      assert block[n] == Ok(rec.value);
      records[n] := rec.value;
      read := read + [rec.value];
    }
    assert records[..] == read;
    ReadRecordsAll(block, count, read);
    r := Ok(records[..]);
  }

  /** The column pattern of site i: a fresh array, then one slot write per record. */
  method BuildColumn(taxa: seq<Taxon>, getState: char -> int, records: seq<SequenceRecord>, i: nat)
    returns (r: Result<seq<int>, ParseError>)
    ensures r == Column(taxa, getState, records, i)
  {
    var pattern := new int[|taxa|](_ => 0);
    assert pattern[..] == Fill(|taxa|, 0);
    for n := 0 to |records|
      invariant Column(taxa, getState, records, i) == FillColumn(taxa, getState, records[n..], i, pattern[..])
    {
      var rec := records[n];
      assert records[n..][1..] == records[n + 1..];
      var j := PatternTable.TaxonIndex(taxa, rec.taxon);
      if j == -1 {
        return Err(UnknownTaxon(rec.taxon));
      }
      if i >= |rec.sequence| {
        return Err(SequenceTooShort);
      }
      pattern[j] := getState(rec.sequence[i]);
    }
    r := Ok(pattern[..]);
  }

  /** The loop over the sites of a block's first sequence, each adding its column pattern with weight 1. */
  method AddColumns(patterns: Patterns, taxa: seq<Taxon>, getState: char -> int, records: seq<SequenceRecord>)
    returns (outcome: Outcome<ParseError>)
    requires records != []
    modifies patterns
    ensures outcome.Pass? ==> Columns(taxa, getState, records, 0).Ok?
                              && patterns.list == old(patterns.list) + Columns(taxa, getState, records, 0).value
    ensures outcome.Fail? ==> Columns(taxa, getState, records, 0) == Err(outcome.error)
  {
    ghost var built: seq<Pattern> := [];
    PrefixedEmpty(Columns(taxa, getState, records, 0));
    for i := 0 to |records[0].sequence|
      invariant Columns(taxa, getState, records, 0) == Prefixed(built, Columns(taxa, getState, records, i))
      invariant patterns.list == old(patterns.list) + built
    {
      var column := BuildColumn(taxa, getState, records, i);
      if column.Err? {
        return Fail(column.error);
      }
      var pattern := Pattern(column.value, 1.0);
      PrefixedTwice(built, [pattern], Columns(taxa, getState, records, i + 1));
      patterns.AddPattern(column.value, 1.0);
      built := built + [pattern];
    }
    outcome := Pass;
  }

  /**
   * One block's patterns added to the sink: the four constant patterns,
   * weighted by the first record's counts, then the site columns.
   */
  method AddBlock(patterns: Patterns, taxa: seq<Taxon>, getState: char -> int, records: seq<SequenceRecord>,
                  constantA: seq<int>, constantC: seq<int>, constantG: seq<int>, constantT: seq<int>)
    returns (outcome: Outcome<ParseError>)
    requires records != []
    requires constantA == Fill(|taxa|, getState('A')) && constantC == Fill(|taxa|, getState('C'))
    requires constantG == Fill(|taxa|, getState('G')) && constantT == Fill(|taxa|, getState('T'))
    modifies patterns
    ensures outcome.Pass? ==> Block(taxa, getState, records).Ok?
                              && patterns.list == old(patterns.list) + Block(taxa, getState, records).value
    ensures outcome.Fail? ==> Block(taxa, getState, records) == Err(outcome.error)
  {
    var first := records[0];
    patterns.AddPattern(constantA, first.a as real);
    patterns.AddPattern(constantC, first.c as real);
    patterns.AddPattern(constantG, first.g as real);
    patterns.AddPattern(constantT, first.t as real);
    assert patterns.list == old(patterns.list) + Constants(|taxa|, getState, first);
    outcome := AddColumns(patterns, taxa, getState, records);
  }

  /** `parseXMLObject`'s loop over the lines of the file, adding each block's patterns to the sink. */
  method ParseLines(taxa: seq<Taxon>, getState: char -> int, lines: seq<string>) returns (r: Result<seq<Pattern>, ParseError>)
    ensures r == Parse(taxa, getState, Rows(lines))
  {
    ghost var rows := Rows(lines);
    var constantA := Fill(|taxa|, getState('A'));
    var constantC := Fill(|taxa|, getState('C'));
    var constantG := Fill(|taxa|, getState('G'));
    var constantT := Fill(|taxa|, getState('T'));
    var patterns := new Patterns();
    var pos := 0;
    PrefixedEmpty(Parse(taxa, getState, rows));
    while pos < |lines|
      invariant pos <= |lines|
      invariant Parse(taxa, getState, rows) == Prefixed(patterns.list, Parse(taxa, getState, rows[pos..]))
      decreases |lines| - pos
    {
      ghost var here := rows[pos..];
      assert here != [];
      var block := ReadBlock(lines, pos, |taxa|);
      if block.Err? {
        assert Parse(taxa, getState, here) == Err(block.error);
        return Err(block.error);
      }
      var records := block.value;
      if records == [] {
        assert Parse(taxa, getState, here) == Err(NoTaxonRecord);
        return Err(NoTaxonRecord);
      }
      var next := pos + |taxa|;
      assert here[|taxa|..] == rows[next..];
      assert Parse(taxa, getState, here) == Concat(Block(taxa, getState, records), Parse(taxa, getState, rows[next..]));
      ghost var before := patterns.list;
      var outcome := AddBlock(patterns, taxa, getState, records, constantA, constantC, constantG, constantT);
      if outcome.Fail? {
        return Err(outcome.error);
      }
      PrefixedTwice(before, Block(taxa, getState, records).value, Parse(taxa, getState, rows[next..]));
      pos := next;
    }
    assert rows[pos..] == [] && patterns.list + [] == patterns.list;
    r := Ok(patterns.list);
  }
}
