/**
 * One record line of a Lambert-format file: comma-separated fields gene,
 * taxon, the A, T, G and C counts, and the sequence, read one after the
 * other from a scanner whose delimiter is a single comma.
 */
module LambertRecord {
  import opened Wrappers

  /** The exceptions a Lambert-format file can raise while it is read. */
  datatype ParseError =
    | NoSuchElement              // a record line ends before all its fields were read
    | MissingLine                // the file ends inside a block
    | NoTaxonRecord              // the taxon list is empty, so a block has no first record
    | UnknownTaxon(name: string) // XMLParseException("No taxon with id=" + name)
    | SequenceTooShort           // a record's sequence is shorter than the block's first one

  /** A parsed record line. */
  datatype SequenceRecord = SequenceRecord(gene: string, taxon: string, a: int, t: int, g: int, c: int,
                                           sequence: string)

  // ---------------------------------------------------------------------
  // Tokens
  // ---------------------------------------------------------------------

  /** Before a token the scanner skips one delimiter match: a single leading comma. */
  function SkipDelimiter(s: string): (r: string)
    ensures |r| <= |s|
  {
    if |s| > 0 && s[0] == ',' then s[1..] else s
  }

  /** Where the token at the start of s ends: the first comma, or the end of the input. */
  function TokenEnd(s: string): (r: nat)
    ensures r <= |s|
    ensures forall k :: 0 <= k < r ==> s[k] != ','
    ensures r < |s| ==> s[r] == ','
  {
    if s == [] || s[0] == ',' then 0 else 1 + TokenEnd(s[1..])
  }

  /** The token at the start of s. */
  function TokenAt(s: string): string
  {
    s[..TokenEnd(s)]
  }

  /**
   * The tokens `next()` returns one call after another: after the skip, an
   * empty remainder has no token; otherwise the token runs to the next comma.
   * So an empty field between two commas is a token, while a leading empty
   * field and a trailing one are not.
   */
  function Tokens(s: string): seq<string>
    decreases |s|
  {
    var t := SkipDelimiter(s);
    if t == [] then []
    else
      var token := TokenAt(t);
      assert |t| < |s| || |token| > 0;
      [token] + Tokens(t[|token|..])
  }

  /** The fields joined with commas: a line as a writer of the format produces it. */
  function Join(fields: seq<string>): string
  {
    if fields == [] then [] else if |fields| == 1 then fields[0] else fields[0] + [','] + Join(fields[1..])
  }

  /**
   * Reading back a line written from comma-free fields gives those fields,
   * provided the first and last are non-empty (an empty first field would be
   * skipped as a delimiter, an empty last one never returned).
   */
  lemma {:induction false} TokensOfJoin(fields: seq<string>)
    requires fields != []
    requires forall k :: 0 <= k < |fields| ==> ',' !in fields[k]
    requires fields[0] != [] && fields[|fields| - 1] != []
    ensures Tokens(Join(fields)) == fields
  {
    TokensAfterComma(fields);
  }

  /** The fields of a joined line, whether the line starts with the first field or with a comma before it. */
  lemma {:induction false} TokensAfterComma(fields: seq<string>)
    requires fields != []
    requires forall k :: 0 <= k < |fields| ==> ',' !in fields[k]
    requires fields[|fields| - 1] != []
    ensures fields[0] != [] ==> Tokens(Join(fields)) == fields
    ensures Tokens([','] + Join(fields)) == fields
    decreases |fields|
  {
    var after := if |fields| == 1 then [] else [','] + Join(fields[1..]);
    if |fields| > 1 {
      TokensAfterComma(fields[1..]);
      assert fields == [fields[0]] + fields[1..];
    }
    assert Tokens(after) == fields[1..];
    var line := Join(fields);
    FirstFieldToken(fields, true);
    assert line[|TokenAt(line)|..] == after;
    assert Tokens([','] + line) == [fields[0]] + Tokens(after);
    if fields[0] != [] {
      FirstFieldToken(fields, false);
      assert Tokens(line) == [fields[0]] + Tokens(after);
    }
  }

  /** A comma-free field followed by a comma or by nothing is one whole token. */
  lemma TokenOfField(f: string, after: string)
    requires ',' !in f
    requires after == [] || after[0] == ','
    ensures TokenEnd(f + after) == |f|
    ensures TokenAt(f + after) == f && (f + after)[|f|..] == after
  {
    var s := f + after;
    assert forall k :: 0 <= k < |f| ==> s[k] == f[k] && s[k] != ',';
    assert |f| < |s| ==> s[|f|] == ',';
    assert s[..|f|] == f;
  }

  // ---------------------------------------------------------------------
  // Integers
  // ---------------------------------------------------------------------

  predicate IsDigit(ch: char)
  {
    '0' <= ch <= '9'
  }

  predicate AllDigits(s: string)
  {
    forall k :: 0 <= k < |s| ==> IsDigit(s[k])
  }

  /** The value of a string of decimal digits. */
  function DigitsValue(s: string): (r: nat)
    requires AllDigits(s)
  {
    if s == [] then 0 else 10 * DigitsValue(s[..|s| - 1]) + (s[|s| - 1] as int - '0' as int)
  }

  predicate InIntRange(v: int)
  {
    -0x8000_0000 <= v < 0x8000_0000
  }

  /**
   * `Scanner.nextInt` on one token: an optional sign and one or more decimal
   * digits whose value fits in an `int`; anything else is a mismatch.
   */
  function ParseInt(token: string): (r: Option<int>)
    ensures r.Some? ==> InIntRange(r.value)
    ensures r.Some? ==> token != [] && ',' !in token
  {
    var signed := |token| > 0 && (token[0] == '-' || token[0] == '+');
    var digits := if signed then token[1..] else token;
    if digits == [] || !AllDigits(digits) then None
    else
      var magnitude: int := DigitsValue(digits);
      var v := if signed && token[0] == '-' then -magnitude else magnitude;
      if InIntRange(v) then
        assert forall k :: 0 <= k < |digits| ==> digits[k] != ',';
        assert ',' !in digits;
        Some(v)
      else None
  }

  /** The digit character of 0 <= d < 10. */
  function Digit(d: nat): char
    requires d < 10
  {
    ('0' as int + d) as char
  }

  /** The decimal text of a natural number, without leading zeros. */
  function NatText(n: nat): (r: string)
    ensures r != [] && AllDigits(r)
  {
    if n < 10 then [Digit(n)] else NatText(n / 10) + [Digit(n % 10)]
  }

  /** The decimal text of an integer, with a minus sign when it is negative. */
  function IntText(v: int): string
  {
    if v < 0 then "-" + NatText(-v) else NatText(v)
  }

  lemma {:induction false} NatTextValue(n: nat)
    ensures DigitsValue(NatText(n)) == n
  {
    var r := NatText(n);
    if n >= 10 {
      NatTextValue(n / 10);
      assert r[..|r| - 1] == NatText(n / 10);
    }
  }

  /** Every `int` written in decimal is read back as itself. */
  lemma ParseIntText(v: int)
    requires InIntRange(v)
    ensures ParseInt(IntText(v)) == Some(v)
  {
    var text := IntText(v);
    if v < 0 {
      var digits := NatText(-v);
      NatTextValue(-v);
      assert text[0] == '-' && text[1..] == digits;
      assert DigitsValue(digits) == -v;
    } else {
      var digits := NatText(v);
      NatTextValue(v);
      assert text == digits && IsDigit(digits[0]);
      assert DigitsValue(digits) == v;
    }
  }

  /** The count a token stands for when a non-integer reads as 0. */
  function CountOf(token: string): int
  {
    match ParseInt(token)
    case Some(v) => v
    case None => 0
  }

  // ---------------------------------------------------------------------
  // Records
  // ---------------------------------------------------------------------

  /**
   * The record of a line, each field from its own token: gene, taxon, the A,
   * T, G and C counts (a non-integer count reads as 0) and the sequence.
   */
  function RecordOf(line: string): (r: Result<SequenceRecord, ParseError>)
    ensures r.Err? <==> |Tokens(line)| < 7
    ensures r.Err? ==> r.error == NoSuchElement
  {
    var tokens := Tokens(line);
    if |tokens| < 7 then Err(NoSuchElement)
    else Ok(SequenceRecord(tokens[0], tokens[1], CountOf(tokens[2]), CountOf(tokens[3]),
                           CountOf(tokens[4]), CountOf(tokens[5]), tokens[6]))
  }

  /** A record written as a line, in the field order the reader expects. */
  function FormatRecord(rec: SequenceRecord): string
  {
    Join([rec.gene, rec.taxon, IntText(rec.a), IntText(rec.t), IntText(rec.g), IntText(rec.c), rec.sequence])
  }

  /** A record whose text fields are comma-free, with a non-empty gene and sequence and `int` counts. */
  predicate Writable(rec: SequenceRecord)
  {
    && ',' !in rec.gene && ',' !in rec.taxon && ',' !in rec.sequence
    && rec.gene != [] && rec.sequence != []
    && InIntRange(rec.a) && InIntRange(rec.t) && InIntRange(rec.g) && InIntRange(rec.c)
  }

  /** Writing a record and reading the line back gives the record: gene, taxon, A, T, G, C, sequence. */
  lemma RecordRoundTrip(rec: SequenceRecord)
    requires Writable(rec)
    ensures RecordOf(FormatRecord(rec)) == Ok(rec)
  {
    var fields := [rec.gene, rec.taxon, IntText(rec.a), IntText(rec.t), IntText(rec.g), IntText(rec.c), rec.sequence];
    ParseIntText(rec.a);
    ParseIntText(rec.t);
    ParseIntText(rec.g);
    ParseIntText(rec.c);
    TokensOfJoin(fields);
  }

  // ---------------------------------------------------------------------
  // The record as the source reads it
  // ---------------------------------------------------------------------

  /**
   * `nextInt` as written: a mismatching token is not consumed (the scanner
   * only skipped the delimiter before it), so the caught exception leaves
   * the same token for the next read.
   */
  function NextIntAsWrittenOf(s: string): (r: Result<(int, string), ParseError>)
  {
    var t := SkipDelimiter(s);
    if t == [] then Err(NoSuchElement)
    else
      match ParseInt(TokenAt(t))
      case Some(v) => Ok((v, t[TokenEnd(t)..]))
      case None => Ok((0, t))
  }

  /** `next` on the remainder s: the token and what follows it. */
  function NextOf(s: string): (r: Result<(string, string), ParseError>)
  {
    var t := SkipDelimiter(s);
    if t == [] then Err(NoSuchElement) else Ok((TokenAt(t), t[TokenEnd(t)..]))
  }

  /** The `SequenceRecord` constructor as written, with `nextInt` as written. */
  function RecordAsWrittenOf(line: string): Result<SequenceRecord, ParseError>
  {
    match NextOf(line)
    case Err(e) => Err(e)
    case Ok((gene, s1)) =>
      match NextOf(s1)
      case Err(e) => Err(e)
      case Ok((taxon, s2)) =>
        match NextIntAsWrittenOf(s2)
        case Err(e) => Err(e)
        case Ok((a, s3)) =>
          match NextIntAsWrittenOf(s3)
          case Err(e) => Err(e)
          case Ok((t, s4)) =>
            match NextIntAsWrittenOf(s4)
            case Err(e) => Err(e)
            case Ok((g, s5)) =>
              match NextIntAsWrittenOf(s5)
              case Err(e) => Err(e)
              case Ok((c, s6)) =>
                match NextOf(s6)
                case Err(e) => Err(e)
                case Ok((sequence, _)) => Ok(SequenceRecord(gene, taxon, a, t, g, c, sequence))
  }

  /**
   * On a line of comma-free fields (after a delimiter, or at the start when
   * the first field is non-empty), the scanner skips to the first field,
   * which is a whole token followed by the rest of the line.
   */
  lemma FirstFieldToken(fields: seq<string>, lead: bool)
    requires fields != []
    requires ',' !in fields[0]
    requires lead || fields[0] != []
    requires fields[0] != [] || |fields| > 1
    ensures SkipDelimiter(if lead then [','] + Join(fields) else Join(fields)) == Join(fields) != []
    ensures TokenEnd(Join(fields)) == |fields[0]| && TokenAt(Join(fields)) == fields[0]
    ensures Join(fields)[|fields[0]|..] == if |fields| == 1 then [] else [','] + Join(fields[1..])
  {
    var after := if |fields| == 1 then [] else [','] + Join(fields[1..]);
    assert Join(fields) == fields[0] + after;
    TokenOfField(fields[0], after);
    if lead {
      assert ([','] + Join(fields))[1..] == Join(fields);
    }
  }

  /** `next` reads the first field. */
  lemma NextOfJoin(fields: seq<string>, lead: bool)
    requires fields != []
    requires ',' !in fields[0]
    requires lead || fields[0] != []
    requires fields[0] != [] || |fields| > 1
    ensures NextOf(if lead then [','] + Join(fields) else Join(fields))
            == Ok((fields[0], if |fields| == 1 then [] else [','] + Join(fields[1..])))
  {
    FirstFieldToken(fields, lead);
    var line := if lead then [','] + Join(fields) else Join(fields);
    var t := SkipDelimiter(line);
    assert t == Join(fields) && t != [];
    assert NextOf(line) == Ok((TokenAt(t), t[TokenEnd(t)..]));
  }

  /** `nextInt` as written reads an integer first field, and on a mismatch leaves the field unread. */
  lemma NextIntOfJoin(fields: seq<string>, lead: bool)
    requires fields != []
    requires ',' !in fields[0]
    requires lead || fields[0] != []
    requires fields[0] != [] || |fields| > 1
    ensures ParseInt(fields[0]).Some? ==>
              NextIntAsWrittenOf(if lead then [','] + Join(fields) else Join(fields))
              == Ok((ParseInt(fields[0]).value, if |fields| == 1 then [] else [','] + Join(fields[1..])))
    ensures ParseInt(fields[0]).None? ==>
              NextIntAsWrittenOf(if lead then [','] + Join(fields) else Join(fields)) == Ok((0, Join(fields)))
  {
    FirstFieldToken(fields, lead);
    var line := if lead then [','] + Join(fields) else Join(fields);
    var t := SkipDelimiter(line);
    assert t == Join(fields) && t != [];
    assert TokenAt(t) == fields[0];
  }

  /** The fields of a line whose A count is not a number. */
  const BadCountFields: seq<string> := ["g1", "t1", "x", "5", "6", "7", "ACGT"]

  /** That line, `g1,t1,x,5,6,7,ACGT`. */
  const BadCountLine: string := Join(BadCountFields)

  lemma BadCountTokens()
    ensures Tokens(BadCountLine) == BadCountFields
  {
    var f := BadCountFields;
    assert forall k :: 0 <= k < |f| ==> ',' !in f[k];
    TokensOfJoin(f);
  }

  /**
   * On that line, as written, the bad token blocks the scanner: all four
   * counts read 0 and the sequence is the bad token.
   */
  lemma BadCountAsWritten()
    ensures RecordAsWrittenOf(BadCountLine) == Ok(SequenceRecord("g1", "t1", 0, 0, 0, 0, "x"))
  {
    var f := BadCountFields;
    assert f[1..] == ["t1", "x", "5", "6", "7", "ACGT"] && f[2..] == ["x", "5", "6", "7", "ACGT"];
    assert ParseInt("x") == None;
    NextOfJoin(f, false);
    NextOfJoin(f[1..], true);
    NextIntOfJoin(f[2..], true);
    NextIntOfJoin(f[2..], false);
    NextOfJoin(f[2..], false);
  }

  /** Read field by field, only the A count of that line is 0. */
  lemma BadCountCorrected()
    ensures RecordOf(BadCountLine) == Ok(SequenceRecord("g1", "t1", 0, 5, 6, 7, "ACGT"))
  {
    BadCountTokens();
    var f := BadCountFields;
    assert CountOf(f[2]) == 0 by {
      assert ParseInt("x") == None;
    }
    assert CountOf(f[3]) == 5 && CountOf(f[4]) == 6 && CountOf(f[5]) == 7 by {
      ParseIntText(5);
      ParseIntText(6);
      ParseIntText(7);
      assert IntText(5) == "5" && IntText(6) == "6" && IntText(7) == "7";
    }
    assert RecordOf(BadCountLine) == Ok(SequenceRecord(f[0], f[1], CountOf(f[2]), CountOf(f[3]), CountOf(f[4]), CountOf(f[5]), f[6]));
  }

  /** On a well-formed line the code as written reads the record correctly. */
  lemma WellFormedLineAsWritten(rec: SequenceRecord)
    requires Writable(rec)
    ensures RecordAsWrittenOf(FormatRecord(rec)) == Ok(rec)
  {
    var f6 := [rec.sequence];
    var f5 := [IntText(rec.c)] + f6;
    var f4 := [IntText(rec.g)] + f5;
    var f3 := [IntText(rec.t)] + f4;
    var f2 := [IntText(rec.a)] + f3;
    var f1 := [rec.taxon] + f2;
    var f0 := [rec.gene] + f1;
    assert f0 == [rec.gene, rec.taxon, IntText(rec.a), IntText(rec.t), IntText(rec.g), IntText(rec.c), rec.sequence];
    assert f0[1..] == f1 && f1[1..] == f2 && f2[1..] == f3 && f3[1..] == f4 && f4[1..] == f5 && f5[1..] == f6;
    ParseIntText(rec.a);
    ParseIntText(rec.t);
    ParseIntText(rec.g);
    ParseIntText(rec.c);
    NextOfJoin(f0, false);
    NextOfJoin(f1, true);
    NextIntOfJoin(f2, true);
    NextIntOfJoin(f3, true);
    NextIntOfJoin(f4, true);
    NextIntOfJoin(f5, true);
    NextOfJoin(f6, true);
  }

  // ---------------------------------------------------------------------
  // The scanner over one line
  // ---------------------------------------------------------------------

  /** A `Scanner` over one line with delimiter ",": the part of the line not yet read. */
  class Scanner {
    var rest: string

    constructor (line: string)
      ensures rest == line
    {
      rest := line;
    }

    /** `next()`: skip a delimiter, then return the token up to the next comma. */
    method Next() returns (r: Result<string, ParseError>)
      modifies this
      ensures r.Err? ==> r == Err(NoSuchElement) && Tokens(old(rest)) == []
      ensures r.Ok? ==> Tokens(old(rest)) != [] && r.value == Tokens(old(rest))[0]
      ensures r.Ok? ==> Tokens(rest) == Tokens(old(rest))[1..]
      ensures r.Ok? ==> NextOf(old(rest)) == Ok((r.value, rest))
    {
      var s := if |rest| > 0 && rest[0] == ',' then rest[1..] else rest;
      rest := s;
      if s == [] {
        return Err(NoSuchElement);
      }
      var i := 0;
      while i < |s| && s[i] != ','
        invariant 0 <= i <= |s|
        invariant forall k :: 0 <= k < i ==> s[k] != ','
      {
        i := i + 1;
      }
      assert i == TokenEnd(s);
      rest := s[i..];
      r := Ok(s[..i]);
    }

    /**
     * `nextInt` with a mismatching token consumed and read as 0: each count
     * comes from its own field.
     */
    method NextInt() returns (r: Result<int, ParseError>)
      modifies this
      ensures r.Err? ==> r == Err(NoSuchElement) && Tokens(old(rest)) == []
      ensures r.Ok? ==> Tokens(old(rest)) != [] && r.value == CountOf(Tokens(old(rest))[0])
      ensures r.Ok? ==> Tokens(rest) == Tokens(old(rest))[1..]
    {
      var token := Next();
      match token
      case Err(e) => r := Err(e);
      case Ok(tk) =>
        match ParseInt(tk)
        case Some(v) => r := Ok(v);
        case None => r := Ok(0);
    }

    /**
     * `nextInt` as written: on a mismatch the exception is caught and 0
     * returned, but the token stays unread.
     */
    method NextIntAsWritten() returns (r: Result<int, ParseError>)
      modifies this
      ensures match NextIntAsWrittenOf(old(rest))
              case Err(e) => r == Err(e)
              case Ok((v, s)) => r == Ok(v) && rest == s
    {
      var s := if |rest| > 0 && rest[0] == ',' then rest[1..] else rest;
      rest := s;
      if s == [] {
        return Err(NoSuchElement);
      }
      var e := TokenEnd(s);
      match ParseInt(s[..e])
      case Some(v) =>
        rest := s[e..];
        r := Ok(v);
      case None =>
        r := Ok(0);
    }
  }

  /**
   * The `SequenceRecord` constructor, with each count consumed: gene, taxon,
   * the A, T, G and C counts, then the sequence.
   */
  method ReadRecord(line: string) returns (r: Result<SequenceRecord, ParseError>)
    ensures r == RecordOf(line)
  {
    var sc := new Scanner(line);
    var names := ReadNames(sc);
    if names.Err? { return Err(names.error); }
    var counts := ReadCounts(sc);
    if counts.Err? { return Err(counts.error); }
    var sequence := sc.Next();
    if sequence.Err? { return Err(sequence.error); }
    var (gene, taxon) := names.value;
    var (a, t, g, c) := counts.value;
    r := Ok(SequenceRecord(gene, taxon, a, t, g, c, sequence.value));
  }

  /** The gene and taxon names: two `next` calls in a row. */
  method ReadNames(sc: Scanner) returns (r: Result<(string, string), ParseError>)
    modifies sc
    ensures r.Err? ==> r == Err(NoSuchElement) && |Tokens(old(sc.rest))| < 2
    ensures r.Ok? ==> var tokens := Tokens(old(sc.rest));
                      && |tokens| >= 2 && Tokens(sc.rest) == tokens[2..]
                      && r.value == (tokens[0], tokens[1])
  {
    ghost var tokens := Tokens(sc.rest);
    var gene := sc.Next();
    if gene.Err? { return Err(gene.error); }
    var taxon := sc.Next();
    if taxon.Err? { return Err(taxon.error); }
    assert Tokens(sc.rest) == tokens[2..] && taxon.value == tokens[1];
    r := Ok((gene.value, taxon.value));
  }

  /** The A, T, G and C counts: four `nextInt` calls in a row. */
  method ReadCounts(sc: Scanner) returns (r: Result<(int, int, int, int), ParseError>)
    modifies sc
    ensures r.Err? ==> r == Err(NoSuchElement) && |Tokens(old(sc.rest))| < 4
    ensures r.Ok? ==> var tokens := Tokens(old(sc.rest));
                      && |tokens| >= 4 && Tokens(sc.rest) == tokens[4..]
                      && r.value == (CountOf(tokens[0]), CountOf(tokens[1]), CountOf(tokens[2]), CountOf(tokens[3]))
  {
    ghost var tokens := Tokens(sc.rest);
    var a := sc.NextInt();
    if a.Err? { return Err(a.error); }
    var t := sc.NextInt();
    if t.Err? { return Err(t.error); }
    assert Tokens(sc.rest) == tokens[2..] && t.value == CountOf(tokens[1]);
    var g := sc.NextInt();
    if g.Err? { return Err(g.error); }
    assert Tokens(sc.rest) == tokens[3..] && g.value == CountOf(tokens[2]);
    var c := sc.NextInt();
    if c.Err? { return Err(c.error); }
    assert Tokens(sc.rest) == tokens[4..] && c.value == CountOf(tokens[3]);
    r := Ok((a.value, t.value, g.value, c.value));
  }

  /** The `SequenceRecord` constructor as written, with `nextInt` not consuming a bad count. */
  method ReadRecordAsWritten(line: string) returns (r: Result<SequenceRecord, ParseError>)
    ensures r == RecordAsWrittenOf(line)
  {
    var sc := new Scanner(line);
    var gene := sc.Next();
    if gene.Err? { return Err(gene.error); }
    var taxon := sc.Next();
    if taxon.Err? { return Err(taxon.error); }
    var a := sc.NextIntAsWritten();
    if a.Err? { return Err(a.error); }
    var t := sc.NextIntAsWritten();
    if t.Err? { return Err(t.error); }
    var g := sc.NextIntAsWritten();
    if g.Err? { return Err(g.error); }
    var c := sc.NextIntAsWritten();
    if c.Err? { return Err(c.error); }
    var sequence := sc.Next();
    if sequence.Err? { return Err(sequence.error); }
    r := Ok(SequenceRecord(gene.value, taxon.value, a.value, t.value, g.value, c.value, sequence.value));
  }
}
