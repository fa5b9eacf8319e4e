# ziprox in Dafny

A model of the `ziprox` Go library, which answers "which US zip codes lie
within a given distance of this one?". Answers come from a table computed in
advance. The model covers the library package, `map.go`. Its parts:

- **Zip codes** (`zips.dfy`, module `Zips`). A `Zip` is an unsigned 32-bit
  integer. `Parse` takes a five-character string, reads it with
  `strconv.Atoi`, and casts the result to `Zip`. `Atoi` accepts an optional
  `+` or `-` sign, so the cast to 32 bits wraps negative values around.
  `Format` is the `String` method, i.e. `%05d`: the digits, zero-padded to
  width five, and wider when the zip code is above 99999.
- **The proximity map** (`proximity.dfy`, module `Proximity`). A `Map` is a
  class whose field `groups` maps each origin to seven distance bands
  (`Buckets`): under 5, 10, 20, 50, 100, 200 and 500.
  - `Setup` gives an origin empty bands the first time it is seen.
  - `Insert` appends the destination to the first band whose bound exceeds
    the distance. A distance of 500 or more is dropped.
  - `Within` concatenates the bands, in order, that the requested distance
    reaches. The under-5 band is always included. The band under `X` is
    included once the distance exceeds the previous bound.
  - `New` skips the header line. It cuts every further line into three
    fixed columns (the `tokensSub` step), reads the two zip columns with
    `Atoi` and the distance with `ParseFloat`, and inserts the row. The
    first column that does not parse ends construction with that error.
- **The library's own tests as lemmas** (`scenarios.dfy`, module
  `Scenarios`): the `data` and `each` fixtures are built, parsed, loaded and
  queried, with the expected results. For `data`, both rows to 10001 land
  under 5, and a distance of 6 includes the whole under-10 band, so
  `Within(10000, 1)` is `[10001, 10001]` and `Within(10000, 6)` is
  `[10001, 10001, 10006, 10007]` (`Scenarios.DataWithin`).
- `wrappers.dfy` (module `Wrappers`) has `Option`, `Result` and the error
  kinds.

Each operation has a specification function, with lemmas that tie it to a
partner:
- `Inserted` is tied to `BandFor` and to the map before the insertion.
- `Query` and `Combine` are tied to `Reach` and to a flattening of the
  bands.
- `Build` is tied to `Filed`, the destinations the rows place in each
  band. From this follow completeness and soundness of a query over a
  loaded table.
- `ParseRows` is tied to the result of each row read on its own.
- `Parse` is tied to `Format`, in both directions.

The methods `Map.Setup`, `Map.Insert` and `New` are proved against these
functions.

Distances are `real` numbers. `strconv.ParseFloat` is a parameter,
`parseFloat: string -> Option<real>`: the model says nothing about how a
decimal text is rounded.

## Model

| member | source | states |
|---|---|---|
| Zips.ToZip | map.go:30 | the Go conversion `Zip(i)` keeps values in [0, 2^32) unchanged and adds 2^32 to small negative ones |
| Zips.Atoi | map.go:25-28 | `strconv.Atoi` fails only with a syntax error that names the refused text |
| Zips.AtoiValue | map.go:25 | Atoi succeeds exactly on an optional sign followed by one or more digits, and then returns that literal's signed value |
| Zips.AccumulateValue | map.go:25 | reading digits left to right from accumulator n gives n·10^len + the decimal value, and fails on any non-digit |
| Zips.Accumulate | map.go:25 | Atoi's left-to-right digit loop; its contract is stated by AccumulateValue (n·10^len + the decimal value, None on a non-digit) |
| Zips.Parse | map.go:20-31 | every failure of Parse is the "not a zip code" error for the input |
| Zips.ParseSpec | map.go:20-31 | Parse succeeds iff the input has length 5 and is a signed or unsigned decimal literal; the value is the literal's value after the 32-bit cast, and a leading `-` wraps to 2^32 minus the magnitude |
| Zips.ParseDigits | map.go:20-31 | five decimal digits parse to their decimal value |
| Zips.SignedParse | map.go:25-30 | a sign followed by four digits is accepted; with `+` it gives the value, and with `-` the value wrapped modulo 2^32 |
| Zips.DecimalValueInjective | map.go:34 | two digit strings of equal length have equal values iff they are equal, so the padded text is unique |
| Zips.DigitsValue | map.go:34 | the decimal digits of n have value n and no superfluous leading zero |
| Zips.LeadingZeros | map.go:34 | zero padding does not change the value of a digit string |
| Zips.Format | map.go:33-35 | `Zip.String`, i.e. `%05d`; its contract is stated by FormatSpec, ParseFormat and FormatParse |
| Zips.FormatSpec | map.go:33-35 | `%05d` gives a digit string whose value is the zip code; it has at least 5 characters, and exactly 5 iff the zip code is at most 99999 |
| Zips.ParseFormat | map.go:20-35 | parsing the text of a zip code up to 99999 returns it, and the text of a larger zip code is refused |
| Zips.FormatParse | map.go:20-35 | a five-digit string parses, and formatting the result gives back the same string, leading zeros included |
| Zips.FormatExamples | map_test.go:107-116 | 12345, 78701 and 321 print as "12345", "78701" and "00321" (631 and 0 as "00631" and "00000") |
| Zips.ParseExamples | map_test.go:93-105 | "00000", "78701" and "00631" parse to 0, 78701 and 631; "abcde" and "1234" are refused with the error naming them |
| Zips.SignedParseExamples | map.go:25-30 | "+1234" parses to 1234, and "-1234" to 4294966062 |
| Zips.RejectedExamples | map.go:25-28 | letters after a sign, or a sign in the middle of the digits, are refused |
| Proximity.BoundAscending | map.go:55-70 | the seven band bounds 5, 10, 20, 50, 100, 200, 500 strictly increase |
| Proximity.EmptyBuckets | map.go:75-83 | a fresh set of buckets has all seven bands empty |
| Proximity.BandFor | map.go:55-70 | the band chosen for a distance is the first whose bound exceeds it, and there is none iff the distance is at least 500 |
| Proximity.BandForExact | map.go:55-70 | a distance between the previous bound (inclusive) and a band's bound (exclusive) is placed in that band |
| Proximity.BandForExamples | map.go:55-70 | the boundary distances 5, 10, 20, 50, 100 and 200 fall into the next band up; 4.99 and 499.99 fall below; 500 and 999.9 are dropped |
| Proximity.Appended | map.go:57-69 | appending to one band changes that band by one element at its end and leaves the other six as they were |
| Proximity.Placed | map.go:55-70 | placing a destination appends it to exactly the band BandFor chooses, and to no band when the distance is 500 or more |
| Proximity.Prepared | map.go:73-85 | setup adds the origin with empty bands if it is absent and keeps every existing entry |
| Proximity.PreparedIdempotent | map.go:73-85 | setup is idempotent, and changes nothing for an origin already present |
| Proximity.Inserted | map.go:52-71 | `insert`: setup, then one append to the chosen band; its contract is stated by InsertedKeys, InsertedSpec and InsertedBand |
| Proximity.InsertedKeys | map.go:52-53 | after an insertion, the origins are the old ones plus the inserted origin |
| Proximity.InsertedSpec | map.go:52-71 | insertion leaves every other origin untouched, appends the destination to the chosen band of its origin, raises the origin's size by one below 500 and by none otherwise, and at 500 or more is a bare setup |
| Proximity.InsertedBand | map.go:52-71 | band k of any origin after an insertion is its old band k plus the destination, exactly when that origin and band were the ones chosen |
| Proximity.Map.constructor | map.go:131 | a new Map has no origins |
| Proximity.Map.Setup | map.go:73-85 | the new groups are the setup of the old ones: the origin is present, and nothing changes if it already was |
| Proximity.Map.Insert | map.go:52-71 | the new groups are those of Inserted: a setup, then one append to the chosen band |
| Proximity.Map.Within | map.go:88-123 | an absent origin gives the empty sequence; otherwise the result is the origin's bands concatenated in order, up to the reach of the distance |
| Proximity.ReachFrom | map.go:98-120 | counting from band k, the bands are included up to the first one the distance does not reach |
| Proximity.Reach | map.go:94-120 | band k is included iff k is below the reach; the reach is between 1 and 7, because the under-5 band is always included |
| Proximity.ReachValue | map.go:96-120 | the reach of a distance is 7 above 200, 6 above 100, 5 above 50, 4 above 20, 3 above 10, 2 above 5, and 1 otherwise |
| Proximity.ReachMonotone | map.go:94-120 | a larger distance reaches at least as many bands |
| Proximity.Combine | map.go:94-122 | Within's chain of conditional appends; its contract is stated by CombineBands, CombineMonotone and CombineMembers |
| Proximity.CombineBands | map.go:94-122 | the chain of conditional appends in Within equals the concatenation of the first Reach(distance) bands |
| Proximity.CombineMonotone | map.go:94-122 | the result for a smaller distance is a prefix of the result for a larger one |
| Proximity.CombineMembers | map.go:94-122 | a zip code is in the result iff it is in some band the distance includes |
| Proximity.FlattenPrefix | map.go:94-122 | concatenating fewer leading bands gives a prefix |
| Proximity.FlattenMembers | map.go:94-122 | a zip code is in a concatenation of bands iff it is in one of them |
| Proximity.Query | map.go:89-92 | querying an origin that is not in the map gives the empty sequence |
| Proximity.QueryMonotone | map.go:88-123 | for a fixed origin, increasing the distance never removes or reorders earlier results |
| Proximity.Build | map.go:136-157 | New's loop of inserts over the rows in order; its contract is stated by BuildKeys, BuildBand and BuildBands |
| Proximity.BuildKeys | map.go:136-157 | after loading rows, an origin is in the map iff some row starts from it |
| Proximity.BuildBand | map.go:136-157 | after loading rows, band k of an origin holds exactly the destinations its rows place there, in row order |
| Proximity.BuildBands | map.go:136-157 | a loaded origin's seven bands are exactly the destinations its rows place in them |
| Proximity.NoneFiled | map.go:55-70 | a band no row is placed in stays empty |
| Proximity.FiledUnique | map.go:55-70 | a band exactly one row is placed in holds that row's destination alone |
| Proximity.FiledMembers | map.go:55-70 | a zip code is in a band iff some row from that origin with that destination is placed in that band |
| Proximity.QueryBuild | map.go:88-157 | a query about an origin no row starts from is empty; otherwise it is the concatenation of the destinations the rows place in the reached bands |
| Proximity.QueryComplete | map.go:88-157 | every row with distance below 500 and below the requested distance is found by the query about its origin |
| Proximity.QuerySound | map.go:88-157 | everything a query returns comes from a row from that origin, whose distance is below the bound of the last reached band |
| Proximity.FiledWitness | map.go:55-70 | a zip code in a band comes from a row that names it and is placed in that band |
| Proximity.IncludedBandBelowReach | map.go:98-120 | a distance placed in an included band is below the bound of the last reached band |
| Proximity.Tokens | map.go:125-127 | the three columns are 5, 5 and 6 characters long |
| Proximity.TokensOfRow | map.go:125-127 | for a line `"OOOOO","DDDDD",dddddd…` the columns are the two zip codes and the first six characters of the distance |
| Proximity.Records | map.go:133-136 | the header skip: the first line is dropped unread, and every later line is a record; stated through New and the fixture lemmas DataLinesParse and EachLinesParse |
| Proximity.ParseRow | map.go:137-156 | the loop body: cut, Atoi twice, ParseFloat; its contract is stated by ParseRowSpec |
| Proximity.ParseRowSpec | map.go:139-156 | a record shorter than 22 characters gives the short-line outcome; a longer one is read iff both zip columns parse as Parse accepts them and the distance parses, giving those values; otherwise the error is that of the first failing column, from Atoi for a zip column and from ParseFloat for the distance |
| Proximity.CollectOk | map.go:136-157 | reading all records succeeds iff every record succeeds, and then gives their rows in order |
| Proximity.CollectFirstError | map.go:141-154 | a failed read fails with the error of a record all of whose predecessors were read |
| Proximity.CollectFailFast | map.go:141-154 | once a prefix of the records fails, the records after it do not change the result |
| Proximity.CollectStep | map.go:136-157 | reading one more record extends the rows or gives that record's error, and an earlier error persists |
| Proximity.ParseRowsOk | map.go:136-157 | reading the records succeeds iff every record can be read on its own, and the rows are those records' rows in order |
| Proximity.ParseRowsFirstError | map.go:141-154 | the error of a failed read is the error of the first record that cannot be read |
| Proximity.New | map.go:130-159 | for any lines (no precondition), after skipping the header: on an error, the error is that of the first bad record; on success, a fresh map whose groups are those of inserting the rows in order |
| Scenarios.DataFiled | map_test.go:23-28 | in the `data` fixture, the two rows to 10001 land under 5, the rows to 10006 and 10007 under 10, and the other bands stay empty |
| Scenarios.DataBands | map_test.go:23-28 | loading the `data` rows gives origin 10000 the bands [10001, 10001], [10006, 10007] and five empty ones |
| Scenarios.DataWithin | map_test.go:23-28 | the `data` map answers [10001, 10001] at 1, and [10001, 10001, 10006, 10007] at 6 and at 11 |
| Scenarios.DataAbsent | map_test.go:23-28 | the `data` map has no origin 99999 |
| Scenarios.DataLinesParse | map_test.go:30-35 | the `data` text, header line included, is read without error into its four rows |
| Scenarios.DataMap | map_test.go:30-35 | New on the `data` text succeeds and answers as in DataWithin |
| Scenarios.EachBand | map_test.go:11-21 | the i-th `each` row falls into band i, and the rows at 500 and 999.9 fall into none |
| Scenarios.EachFiled | map_test.go:37-50 | each band of origin 10000 receives exactly one `each` destination |
| Scenarios.EachBands | map_test.go:37-50 | loading the `each` rows gives the seven bands one destination each, 10001 up to 10200 |
| Scenarios.EachWithin | map_test.go:61-91 | each request distance (1, 6, 11, 21, 51, 101, 201) adds exactly one band to the answer |
| Scenarios.EachAbsent | map_test.go:52-59 | querying the absent origin 99999 at 100 gives nothing |
| Scenarios.EachLinesParse | map_test.go:11-21 | the `each` text, header line included, is read without error into its nine rows |
| Scenarios.EachMap | map_test.go:37-91 | New on the `each` text succeeds; it gives the bands of TestMap_insert_each and the answers of TestMap_Within_each and TestMap_Within_absent |
| Scenarios.LineParses | map.go:139-156 | a row printed with five-digit zip codes and a readable six-character distance column reads back as that row |
| Scenarios.StopsAtBadRecord | map.go:141-143 | with a bad zip column in the first record and an empty line after it, reading ends with Atoi's error and the empty line is never cut |
| Scenarios.StopsAtShortLine | map.go:126 | a short record reached first ends the reading with the short-line outcome |
| Scenarios.RowsParse | map.go:136-157 | records each of which reads as the corresponding row are read, as a whole, into those rows |
| Scenarios.DistanceColumnWidth | map.go:126 | the distance column is cut to six characters, so "100.0000" is read as "100.00" and "999.9000" as "999.90" |
| Scenarios.FiledAppend | map.go:136-157 | the destinations placed by two batches of rows, in turn, are those of the first followed by those of the second |

## Left out

- Reading from an `io.Reader` with `bufio.Scanner` is modelled as a sequence of lines. Scanner mechanics (the token size limit, line-ending handling) are not modelled. Neither is the `scanner.Err()` returned at the end of `New`: the model returns success when every record is read.
- `strconv.ParseFloat` and IEEE 754 (rounding, NaN and infinities) are not modelled. The conversion is a parameter, and a distance is a `real`. A NaN distance compares false with every band bound, so Go drops it. That case is not covered.
- Error message texts (`"%q is not a zip code"`, the `strconv.NumError` fields) are not modelled. The errors are the kinds in `Wrappers.Error`, each carrying the text that was refused. `FloatError` stands for any error of `strconv.ParseFloat`: a syntax error, or a range error such as the one for "9e9999".
- Go strings are bytes, and here they are `seq<char>`. Parse, Atoi and the column cuts give the same outcomes either way, because a non-ASCII character is never a digit. A multi-byte character in a line would, however, shift the byte columns of `tokensSub` in Go.
- Zips.Atoi: requires an input shorter than 19 characters (Go's fast path), so the overflow ("value out of range") errors of long inputs are not modelled. Every caller here passes 5 characters.
- Proximity.New: a record shorter than 22 characters, reached before any bad record, makes Go's `tokensSub` panic. The model gives `Err(ShortLine(line))` instead, so it does not distinguish a panic from a returned error. Records after the first bad one are never cut, in Go and in the model alike (`Scenarios.StopsAtBadRecord`).
- Proximity.New: the Go loop stops at the first bad record. The model states the outcome by reading every record on its own and taking the first error (`ParseRows`, `Collect`). The method itself stops at once, as the Go code does.
- The capacity hint of 30 given to each band's slice is not modelled, since it changes no result.
- The difference between a `nil` and an empty slice returned by `Within` is not modelled: both are the empty sequence.
- The bands are held by pointer in Go (`map[Zip]*buckets`). The model keeps them as a value inside the map, since no pointer to them escapes the `Map`.
- Concurrency is not modelled. The type has no locking, and calls must be serialised.
- cmds/csv2db/main.go is not part of this model. The command reads the same quoted rows as `New`, with a regular expression (main.go:52), and is meant to store them in a bbolt key-value database (main.go:21, main.go:36): it creates a bucket per origin but does not yet write the pairs (main.go:93-102). A debugging cutoff ends it after eleven lines past the header (main.go:104), and `getBucket` (main.go:112-118) has no return statement, so the file does not compile as written.
