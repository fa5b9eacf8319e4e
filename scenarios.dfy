/** The scenarios of map_test.go, stated over the model. */
module Scenarios {
  import opened Wrappers
  import opened Zips
  import opened Proximity

  /** The rows of the "data" fixture: 10001 twice under 5, then 6 and 7. */
  function DataRows(): seq<Entry> {
    [Entry(10000, 10001, 1.0), Entry(10000, 10001, 2.0), Entry(10000, 10006, 6.0), Entry(10000, 10007, 7.0)]
  }

  /** Filing distributes over concatenated rows. */
  lemma {:induction false} FiledAppend(r1: seq<Entry>, r2: seq<Entry>, origin: Zip, k: BandIndex)
    ensures Filed(r1 + r2, origin, k) == Filed(r1, origin, k) + Filed(r2, origin, k)
  {
    if r2 == [] {
      assert r1 + r2 == r1;
    } else {
      var n := |r2| - 1;
      assert (r1 + r2)[..|r1 + r2| - 1] == r1 + r2[..n];
      FiledAppend(r1, r2[..n], origin, k);
    }
  }

  lemma FiledOne(e: Entry, origin: Zip, k: BandIndex)
    ensures Filed([e], origin, k) == if e.origin == origin && BandFor(e.dist) == Some(k) then [e.dest] else []
  {
    assert [e][..0] == [];
  }

  /** Band by band, what the "data" rows file under 10000. */
  lemma DataFiled(k: BandIndex)
    ensures Filed(DataRows(), 10000, k) == [[10001, 10001], [10006, 10007], [], [], [], [], []][k]
  {
    var rows := DataRows();
    BandForExact(1.0, 0);
    BandForExact(2.0, 0);
    BandForExact(6.0, 1);
    BandForExact(7.0, 1);
    assert rows == [rows[0]] + [rows[1]] + [rows[2]] + [rows[3]];
    FiledAppend([rows[0]] + [rows[1]] + [rows[2]], [rows[3]], 10000, k);
    FiledAppend([rows[0]] + [rows[1]], [rows[2]], 10000, k);
    FiledAppend([rows[0]], [rows[1]], 10000, k);
    FiledOne(rows[0], 10000, k);
    FiledOne(rows[1], 10000, k);
    FiledOne(rows[2], 10000, k);
    FiledOne(rows[3], 10000, k);
  }

  /** The record of 10000 built from the "data" rows. */
  lemma DataBands()
    ensures 10000 in Build(DataRows())
    ensures var b := Build(DataRows())[10000];
            && b.under5 == [10001, 10001] && b.under10 == [10006, 10007] && b.under20 == []
            && b.under50 == [] && b.under100 == [] && b.under200 == [] && b.under500 == []
  {
    var rows := DataRows();
    assert 10000 in Build(rows) by {
      BuildKeys(rows, 10000);
      assert rows[0].origin == 10000;
    }
    var b := Build(rows)[10000];
    assert Bands(b) == [[10001, 10001], [10006, 10007], [], [], [], [], []] by {
      BuildBands(rows, 10000);
      DataFiledBands();
    }
  }

  lemma DataFiledBands()
    ensures FiledBands(DataRows(), 10000) == [[10001, 10001], [10006, 10007], [], [], [], [], []]
  {
    forall k: BandIndex
      ensures FiledBands(DataRows(), 10000)[k] == [[10001, 10001], [10006, 10007], [], [], [], [], []][k]
    {
      DataFiled(k);
    }
  }

  /** Within over the "data" rows: duplicates kept, bands in ascending order. */
  lemma DataWithin()
    ensures Query(Build(DataRows()), 10000, 1) == [10001, 10001]
    ensures Query(Build(DataRows()), 10000, 6) == [10001, 10001, 10006, 10007]
    ensures Query(Build(DataRows()), 10000, 11) == [10001, 10001, 10006, 10007]
  {
    DataBands();
    DataRecordWithin(Build(DataRows()));
  }

  lemma DataRecordWithin(g: Groups)
    requires 10000 in g
    requires var b := g[10000];
             && b.under5 == [10001, 10001] && b.under10 == [10006, 10007] && b.under20 == []
             && b.under50 == [] && b.under100 == [] && b.under200 == [] && b.under500 == []
    ensures Query(g, 10000, 1) == [10001, 10001]
    ensures Query(g, 10000, 6) == [10001, 10001, 10006, 10007]
    ensures Query(g, 10000, 11) == [10001, 10001, 10006, 10007]
  {
  }

  /** An origin no row starts from gets nothing back. */
  lemma DataAbsent()
    ensures Query(Build(DataRows()), 99999, 100) == []
  {
    var rows := DataRows();
    assert forall i :: 0 <= i < |rows| ==> rows[i].origin != 99999;
    QueryBuild(rows, 99999, 100);
  }

  /** The rows of the "each" fixture: one destination per band, then one at
      500 and one at 999.9 that no band takes. */
  function EachRows(): seq<Entry> {
    [Entry(10000, 10001, 1.0), Entry(10000, 10005, 5.0), Entry(10000, 10010, 10.0),
     Entry(10000, 10020, 20.0), Entry(10000, 10050, 50.0), Entry(10000, 10100, 100.0),
     Entry(10000, 10200, 200.0), Entry(10000, 10500, 500.0), Entry(10000, 10999, 999.9)]
  }

  lemma EachBand(i: nat)
    requires i < 9
    ensures EachRows()[i].origin == 10000
    ensures BandFor(EachRows()[i].dist) == if i < 7 then Some(i) else None
  {
    var e := EachRows()[i];
    if i < 7 {
      BandForExact(e.dist, i);
    }
  }

  /** Band by band, what the "each" rows file under 10000. */
  lemma EachFiled(k: BandIndex)
    ensures Filed(EachRows(), 10000, k) == [[10001], [10005], [10010], [10020], [10050], [10100], [10200]][k]
  {
    EachFiledOne(k);
  }

  lemma EachFiledOne(k: BandIndex)
    ensures Filed(EachRows(), 10000, k) == [EachRows()[k].dest]
  {
    var rows := EachRows();
    forall i | 0 <= i < |rows|
      ensures rows[i].origin == 10000
      ensures BandFor(rows[i].dist) == if i < 7 then Some(i) else None
    {
      EachBand(i);
    }
    FiledUnique(rows, 10000, k, k);
  }

  /** Within on a record with one destination in each band, as the "each"
      fixture leaves it: one more band per boundary crossed. */
  lemma EachRecordWithin(b: Buckets)
    requires b.under5 == [10001] && b.under10 == [10005] && b.under20 == [10010] && b.under50 == [10020]
    requires b.under100 == [10050] && b.under200 == [10100] && b.under500 == [10200]
    ensures Combine(b, 1) == [10001]
    ensures Combine(b, 6) == [10001, 10005]
    ensures Combine(b, 11) == [10001, 10005, 10010]
    ensures Combine(b, 21) == [10001, 10005, 10010, 10020]
    ensures Combine(b, 51) == [10001, 10005, 10010, 10020, 10050]
    ensures Combine(b, 101) == [10001, 10005, 10010, 10020, 10050, 10100]
    ensures Combine(b, 201) == [10001, 10005, 10010, 10020, 10050, 10100, 10200]
  {
  }

  lemma EachFiledBands()
    ensures FiledBands(EachRows(), 10000) == [[10001], [10005], [10010], [10020], [10050], [10100], [10200]]
  {
    forall k: BandIndex
      ensures FiledBands(EachRows(), 10000)[k] == [[10001], [10005], [10010], [10020], [10050], [10100], [10200]][k]
    {
      EachFiled(k);
    }
  }

  /** The record of 10000 built from the "each" rows: one destination per
      band; the rows at 500 and 999.9 are dropped. */
  lemma EachBands()
    ensures 10000 in Build(EachRows())
    ensures var b := Build(EachRows())[10000];
            && b.under5 == [10001] && b.under10 == [10005] && b.under20 == [10010] && b.under50 == [10020]
            && b.under100 == [10050] && b.under200 == [10100] && b.under500 == [10200]
  {
    var rows := EachRows();
    assert 10000 in Build(rows) by {
      BuildKeys(rows, 10000);
      assert rows[0].origin == 10000;
    }
    var b := Build(rows)[10000];
    assert Bands(b) == [[10001], [10005], [10010], [10020], [10050], [10100], [10200]] by {
      BuildBands(rows, 10000);
      EachFiledBands();
    }
  }

  /** Within over the "each" rows. */
  lemma EachWithin()
    ensures Query(Build(EachRows()), 10000, 1) == [10001]
    ensures Query(Build(EachRows()), 10000, 6) == [10001, 10005]
    ensures Query(Build(EachRows()), 10000, 11) == [10001, 10005, 10010]
    ensures Query(Build(EachRows()), 10000, 21) == [10001, 10005, 10010, 10020]
    ensures Query(Build(EachRows()), 10000, 51) == [10001, 10005, 10010, 10020, 10050]
    ensures Query(Build(EachRows()), 10000, 101) == [10001, 10005, 10010, 10020, 10050, 10100]
    ensures Query(Build(EachRows()), 10000, 201) == [10001, 10005, 10010, 10020, 10050, 10100, 10200]
  {
    EachBands();
    EachRecordWithin(Build(EachRows())[10000]);
  }

  /** An origin no "each" row starts from gets nothing back. */
  lemma EachAbsent()
    ensures Query(Build(EachRows()), 99999, 100) == []
  {
    var rows := EachRows();
    forall i | 0 <= i < |rows|
      ensures rows[i].origin != 99999
    {
      EachBand(i);
    }
    QueryBuild(rows, 99999, 100);
  }

  /** A record of the input file: origin and destination zip codes in
      quotes, then the distance column d followed by the rest of the text. */
  function Line(origin: Zip, dest: Zip, d: string, rest: string): string {
    QuotedRow(Format(origin), Format(dest), d + rest)
  }

  /** How the "data" fixture writes each row's distance. */
  function DataTexts(): seq<string> {
    ["1.0000", "2.0000", "6.0000", "7.0000"]
  }

  /** The "data" fixture as lines of text, header first. */
  function DataLines(): seq<string> {
    [""] + seq(4, i requires 0 <= i < 4 => Line(DataRows()[i].origin, DataRows()[i].dest, DataTexts()[i], ""))
  }

  /** How the "each" fixture writes each row's distance: the six characters
      of the distance column, then the characters that follow it ("10.0000"
      is "10.000" then "0"). */
  function EachTexts(): seq<(string, string)> {
    [("1.0000", ""), ("5.0000", ""), ("10.000", "0"), ("20.000", "0"), ("50.000", "0"),
     ("100.00", "00"), ("200.00", "00"), ("500.00", "00"), ("999.90", "00")]
  }

  /** The "each" fixture as lines of text, header first: row i written with
      distance text i. */
  function EachLines(): seq<string> {
    [""] + seq(9, i requires 0 <= i < 9 =>
                 Line(EachRows()[i].origin, EachRows()[i].dest, EachTexts()[i].0, EachTexts()[i].1))
  }

  /** A row in the quoted layout reads as its three columns; whatever
      follows the six characters of the distance column is ignored. */
  lemma QuotedRowParses(a: string, b: string, d: string, rest: string, parseFloat: string -> Option<real>)
    requires |a| == 5 && |b| == 5 && |d| == 6
    requires Parse(a).Ok? && Parse(b).Ok? && parseFloat(d).Some?
    ensures |QuotedRow(a, b, d + rest)| >= 22
    ensures ParseRow(QuotedRow(a, b, d + rest), parseFloat) == Ok(Entry(Parse(a).value, Parse(b).value, parseFloat(d).value))
  {
    assert QuotedRow(a, b, d + rest) == QuotedRow(a, b, d) + rest;
    TokensOfRow(a, b, d, rest);
    ParseRowSpec(QuotedRow(a, b, d + rest), parseFloat);
  }

  /** A record written with five-digit zip codes reads back as the row it was
      written from. */
  lemma LineParses(origin: Zip, dest: Zip, d: string, rest: string, dist: real, parseFloat: string -> Option<real>)
    requires origin <= 99999 && dest <= 99999
    requires |d| == 6 && parseFloat(d) == Some(dist)
    ensures |Line(origin, dest, d, rest)| >= 22
    ensures ParseRow(Line(origin, dest, d, rest), parseFloat) == Ok(Entry(origin, dest, dist))
  {
    FormatSpec(origin);
    ParseFormat(origin);
    FormatSpec(dest);
    ParseFormat(dest);
    QuotedRowParses(Format(origin), Format(dest), d, rest, parseFloat);
  }

  /** A float parser that reads the four distance columns of the "data"
      lines. */
  predicate ReadsDataColumns(parseFloat: string -> Option<real>) {
    forall i :: 0 <= i < 4 ==> parseFloat(DataTexts()[i]) == Some(DataRows()[i].dist)
  }

  /** Each record of the "data" lines reads as its row. */
  lemma DataRecordParses(parseFloat: string -> Option<real>, i: nat)
    requires ReadsDataColumns(parseFloat)
    requires i < 4
    ensures var line := DataLines()[i + 1];
            |line| >= 22 && ParseRow(line, parseFloat) == Ok(DataRows()[i])
  {
    var r, d := DataRows()[i], DataTexts()[i];
    assert r.origin == 10000 && r.dest <= 99999 && |d| == 6;
    assert DataLines()[i + 1] == Line(r.origin, r.dest, d, "");
    LineParses(r.origin, r.dest, d, "", r.dist, parseFloat);
  }

  /** With a float parser that reads the four distance columns, New's parse of
      the "data" lines yields the "data" rows. */
  lemma DataLinesParse(parseFloat: string -> Option<real>)
    requires ReadsDataColumns(parseFloat)
    ensures ParseRows(Records(DataLines()), parseFloat) == Ok(DataRows())
  {
    var ls, rows := Records(DataLines()), DataRows();
    assert |ls| == 4 && forall i :: 0 <= i < 4 ==> ls[i] == DataLines()[i + 1];
    forall i | 0 <= i < |ls|
      ensures ParseRow(ls[i], parseFloat) == Ok(rows[i])
    {
      DataRecordParses(parseFloat, i);
    }
    RowsParse(ls, rows, parseFloat);
  }

  /** A float parser that reads the nine distance columns of the "each"
      lines. */
  predicate ReadsEachColumns(parseFloat: string -> Option<real>) {
    forall i :: 0 <= i < 9 ==> parseFloat(EachTexts()[i].0) == Some(EachRows()[i].dist)
  }

  /** Each record of the "each" lines reads as its row. */
  lemma EachRecordParses(parseFloat: string -> Option<real>, i: nat)
    requires ReadsEachColumns(parseFloat)
    requires i < 9
    ensures var line := EachLines()[i + 1];
            |line| >= 22 && ParseRow(line, parseFloat) == Ok(EachRows()[i])
  {
    var r, t := EachRows()[i], EachTexts()[i];
    assert r.origin == 10000 && r.dest <= 99999 && |t.0| == 6;
    assert EachLines()[i + 1] == Line(r.origin, r.dest, t.0, t.1);
    LineParses(r.origin, r.dest, t.0, t.1, r.dist, parseFloat);
  }

  /** New's parse of the "each" lines yields the "each" rows. */
  lemma EachLinesParse(parseFloat: string -> Option<real>)
    requires ReadsEachColumns(parseFloat)
    ensures ParseRows(Records(EachLines()), parseFloat) == Ok(EachRows())
  {
    var ls, rows := Records(EachLines()), EachRows();
    assert |ls| == 9 && forall i :: 0 <= i < 9 ==> ls[i] == EachLines()[i + 1];
    forall i | 0 <= i < |ls|
      ensures ParseRow(ls[i], parseFloat) == Ok(rows[i])
    {
      EachRecordParses(parseFloat, i);
    }
    RowsParse(ls, rows, parseFloat);
  }

  /** Lines that each parse to their row parse together to those rows. */
  lemma RowsParse(lines: seq<string>, rows: seq<Entry>, parseFloat: string -> Option<real>)
    requires |lines| == |rows|
    requires forall i :: 0 <= i < |lines| ==> ParseRow(lines[i], parseFloat) == Ok(rows[i])
    ensures ParseRows(lines, parseFloat) == Ok(rows)
  {
    ParseRowsOk(lines, parseFloat);
    assert ParseRows(lines, parseFloat).value == rows;
  }

  /** A first record that cannot be read decides the outcome, whatever the
      later lines are. */
  lemma FirstRecordFails(line: string, later: seq<string>, parseFloat: string -> Option<real>)
    requires ParseRow(line, parseFloat).Err?
    ensures ParseRows([line] + later, parseFloat) == Err(ParseRow(line, parseFloat).error)
  {
    var rs := RowResults([line] + later, parseFloat);
    assert rs[..1] == [rs[0]];
    CollectFailFast(rs, 1);
  }

  /** Reading stops at the first bad record: the empty line after it is
      never cut into columns. */
  lemma StopsAtBadRecord(parseFloat: string -> Option<real>)
    ensures ParseRows(Records(["", QuotedRow("1000a", "10001", "1.0000"), ""]), parseFloat)
              == Err(AtoiSyntax("1000a"))
  {
    var line := QuotedRow("1000a", "10001", "1.0000");
    assert Records(["", line, ""]) == [line] + [""];
    TokensOfRow("1000a", "10001", "1.0000", "");
    assert line + "" == line;
    assert !IsDecimalLiteral("1000a") by {
      assert !IsDigit("1000a"[4]);
    }
    ParseSpec("1000a");
    ParseRowSpec(line, parseFloat);
    FirstRecordFails(line, [""], parseFloat);
  }

  /** A short record reached first ends the reading with the short-line
      outcome, where Go's tokensSub panics. */
  lemma StopsAtShortLine(parseFloat: string -> Option<real>)
    ensures ParseRows(Records(["", "\"10000\",\"10001\"", QuotedRow("1000a", "10001", "1.0000")]), parseFloat)
              == Err(ShortLine("\"10000\",\"10001\""))
  {
    var short, line := "\"10000\",\"10001\"", QuotedRow("1000a", "10001", "1.0000");
    assert Records(["", short, line]) == [short] + [line];
    assert |short| == 15;
    FirstRecordFails(short, [line], parseFloat);
  }

  /** A distance column is six characters wide: "100.0000" is read as
      "100.00" and "999.9000" as "999.90". */
  lemma DistanceColumnWidth()
    ensures |QuotedRow("10000", "10100", "100.0000")| >= 22 && |QuotedRow("10000", "10999", "999.9000")| >= 22
    ensures Tokens(QuotedRow("10000", "10100", "100.0000")).2 == "100.00"
    ensures Tokens(QuotedRow("10000", "10999", "999.9000")).2 == "999.90"
  {
    TokensOfRow("10000", "10100", "100.00", "00");
    TokensOfRow("10000", "10999", "999.90", "00");
    assert QuotedRow("10000", "10100", "100.0000") == QuotedRow("10000", "10100", "100.00") + "00";
    assert QuotedRow("10000", "10999", "999.9000") == QuotedRow("10000", "10999", "999.90") + "00";
  }

  /** New over the "data" lines, then Within, as TestMap and the "data"
      fixture use them. */
  method DataMap(parseFloat: string -> Option<real>) returns (m: Map)
    requires ReadsDataColumns(parseFloat)
    ensures m.groups == Build(DataRows())
    ensures m.Within(10000, 1) == [10001, 10001]
    ensures m.Within(10000, 6) == [10001, 10001, 10006, 10007]
    ensures m.Within(99999, 100) == []
  {
    DataLinesParse(parseFloat);
    var r := New(DataLines(), parseFloat);
    m := r.value;
    DataWithin();
    DataAbsent();
  }

  /** New over the "each" lines, then Within, as TestMap_insert_each,
      TestMap_Within_absent and TestMap_Within_each do. */
  method EachMap(parseFloat: string -> Option<real>) returns (m: Map)
    requires ReadsEachColumns(parseFloat)
    ensures m.groups == Build(EachRows())
    ensures m.Within(10000, 1) == [10001]
    ensures m.Within(10000, 6) == [10001, 10005]
    ensures m.Within(10000, 11) == [10001, 10005, 10010]
    ensures m.Within(10000, 21) == [10001, 10005, 10010, 10020]
    ensures m.Within(10000, 51) == [10001, 10005, 10010, 10020, 10050]
    ensures m.Within(10000, 101) == [10001, 10005, 10010, 10020, 10050, 10100]
    ensures m.Within(10000, 201) == [10001, 10005, 10010, 10020, 10050, 10100, 10200]
    ensures m.Within(99999, 100) == []
  {
    EachLinesParse(parseFloat);
    var r := New(EachLines(), parseFloat);
    m := r.value;
    EachWithin();
    EachAbsent();
  }
}
