/** The proximity map of map.go: for every origin zip code, seven bands of
    destination zip codes, filed by distance and queried by band. */
module Proximity {
  import opened Wrappers
  import opened Zips

  // ---------------------------------------------------------------------------
  // Distance bands
  // ---------------------------------------------------------------------------

  /** The record of one origin: its destinations in seven distance bands,
      each in insertion order. */
  datatype Buckets = Buckets(
    under5: seq<Zip>,
    under10: seq<Zip>,
    under20: seq<Zip>,
    under50: seq<Zip>,
    under100: seq<Zip>,
    under200: seq<Zip>,
    under500: seq<Zip>)

  type BandIndex = k: int | 0 <= k < 7

  /** The exclusive upper bound of band k; band k holds distances in
      [Bound(k - 1), Bound(k)), band 0 those below 5. */
  function Bound(k: BandIndex): int {
    match k
    case 0 => 5
    case 1 => 10
    case 2 => 20
    case 3 => 50
    case 4 => 100
    case 5 => 200
    case 6 => 500
  }

  lemma BoundAscending(j: BandIndex, k: BandIndex)
    requires j < k
    ensures Bound(j) < Bound(k)
  {
  }

  /** The bands of a record, in ascending order of distance. */
  function Bands(b: Buckets): (s: seq<seq<Zip>>)
    ensures |s| == 7
  {
    [b.under5, b.under10, b.under20, b.under50, b.under100, b.under200, b.under500]
  }

  /** The record setup creates: seven empty bands. */
  function EmptyBuckets(): (b: Buckets)
    ensures forall k: BandIndex :: Bands(b)[k] == []
  {
    Buckets([], [], [], [], [], [], [])
  }

  /** The first band at or after k whose bound exceeds dist, if any. */
  function FirstBandFrom(dist: real, k: nat): (r: Option<BandIndex>)
    requires k <= 7
    ensures r.Some? ==> k <= r.value && dist < Bound(r.value) as real
    ensures r.Some? ==> forall j :: k <= j < r.value ==> dist >= Bound(j) as real
    ensures r.None? ==> forall j :: k <= j < 7 ==> dist >= Bound(j) as real
    decreases 7 - k
  {
    if k == 7 then None
    else if dist < Bound(k) as real then Some(k)
    else FirstBandFrom(dist, k + 1)
  }

  /** The band insert files a distance under: the first whose bound exceeds
      it. Distances of 500 and more belong to no band. */
  function BandFor(dist: real): (r: Option<BandIndex>)
    ensures r.None? <==> dist >= 500.0
    ensures r.Some? ==> dist < Bound(r.value) as real
    ensures r.Some? ==> forall j: BandIndex :: j < r.value ==> dist >= Bound(j) as real
  {
    var r := FirstBandFrom(dist, 0);
    assert r.None? ==> dist >= Bound(6) as real;
    assert r.Some? ==> Bound(r.value) <= Bound(6) by {
      if r.Some? && r.value < 6 {
        BoundAscending(r.value, 6);
      }
    }
    r
  }

  /** Band k of the result is band k of b with x appended; the other bands
      are those of b. */
  function Appended(b: Buckets, k: BandIndex, x: Zip): (r: Buckets)
    ensures Bands(r) == Bands(b)[k := Bands(b)[k] + [x]]
  {
    match k
    case 0 => b.(under5 := b.under5 + [x])
    case 1 => b.(under10 := b.under10 + [x])
    case 2 => b.(under20 := b.under20 + [x])
    case 3 => b.(under50 := b.under50 + [x])
    case 4 => b.(under100 := b.under100 + [x])
    case 5 => b.(under200 := b.under200 + [x])
    case 6 => b.(under500 := b.under500 + [x])
  }

  /** What insert does to the record of the origin: dest is appended to the
      band of dist, and to no band when dist is 500 or more. */
  function Placed(b: Buckets, dest: Zip, dist: real): (r: Buckets)
    ensures forall k: BandIndex ::
              Bands(r)[k] == if BandFor(dist) == Some(k) then Bands(b)[k] + [dest] else Bands(b)[k]
  {
    match BandFor(dist)
    case None => b
    case Some(k) => Appended(b, k, dest)
  }

  /** The number of destinations a record holds. */
  function Size(b: Buckets): nat {
    |b.under5| + |b.under10| + |b.under20| + |b.under50| + |b.under100| + |b.under200| + |b.under500|
  }

  /** Conversely, a distance in [Bound(k - 1), Bound(k)) is filed in band k. */
  lemma BandForExact(dist: real, k: BandIndex)
    requires dist < Bound(k) as real
    requires k > 0 ==> Bound(k - 1) as real <= dist
    ensures BandFor(dist) == Some(k)
  {
    if k < 6 {
      BoundAscending(k, 6);
    }
    var j := BandFor(dist).value;
    if j < k {
      if j < k - 1 {
        BoundAscending(j, k - 1);
      }
    }
  }

  /** The distances insert files: 1 under 5, each band's lower bound in that
      band, 500 and 999.9 in none. */
  lemma BandForExamples()
    ensures BandFor(1.0) == Some(0) && BandFor(4.99) == Some(0)
    ensures BandFor(5.0) == Some(1) && BandFor(10.0) == Some(2) && BandFor(20.0) == Some(3)
    ensures BandFor(50.0) == Some(4) && BandFor(100.0) == Some(5) && BandFor(200.0) == Some(6)
    ensures BandFor(499.99) == Some(6) && BandFor(500.0) == None && BandFor(999.9) == None
  {
    BandForExact(1.0, 0);
    BandForExact(4.99, 0);
    BandForExact(5.0, 1);
    BandForExact(10.0, 2);
    BandForExact(20.0, 3);
    BandForExact(50.0, 4);
    BandForExact(100.0, 5);
    BandForExact(200.0, 6);
    BandForExact(499.99, 6);
  }

  // ---------------------------------------------------------------------------
  // The map of origins
  // ---------------------------------------------------------------------------

  type Groups = map<Zip, Buckets>

  /** The record of an origin, or seven empty bands if it has none. */
  function Lookup(g: Groups, origin: Zip): Buckets {
    if origin in g then g[origin] else EmptyBuckets()
  }

  /** setup on the map: the origin gets a record of empty bands unless it has
      one already. */
  function Prepared(g: Groups, origin: Zip): (r: Groups)
    ensures r.Keys == g.Keys + {origin}
    ensures r[origin] == Lookup(g, origin)
    ensures forall o :: o in g ==> r[o] == g[o]
  {
    if origin in g then g else g[origin := EmptyBuckets()]
  }

  /** insert on the map: setup, then the destination placed in its band. */
  function Inserted(g: Groups, origin: Zip, dest: Zip, dist: real): Groups {
    var s := Prepared(g, origin);
    s[origin := Placed(s[origin], dest, dist)]
  }

  lemma InsertedKeys(g: Groups, origin: Zip, dest: Zip, dist: real)
    ensures Inserted(g, origin, dest, dist).Keys == g.Keys + {origin}
  {
  }

  /** setup is idempotent and leaves an existing record alone. */
  lemma PreparedIdempotent(g: Groups, origin: Zip)
    ensures Prepared(Prepared(g, origin), origin) == Prepared(g, origin)
    ensures origin in g ==> Prepared(g, origin) == g
    ensures origin !in g ==> Prepared(g, origin) == g[origin := EmptyBuckets()]
  {
  }

  /** insert leaves the origin with a record, appends dest to exactly the band
      of dist (none when dist >= 500), and changes no other origin. */
  lemma InsertedSpec(g: Groups, origin: Zip, dest: Zip, dist: real)
    ensures Inserted(g, origin, dest, dist).Keys == g.Keys + {origin}
    ensures forall o :: o in g && o != origin ==> Inserted(g, origin, dest, dist)[o] == g[o]
    ensures forall k: BandIndex ::
              Bands(Inserted(g, origin, dest, dist)[origin])[k]
                == Bands(Lookup(g, origin))[k] + (if BandFor(dist) == Some(k) then [dest] else [])
    ensures Size(Inserted(g, origin, dest, dist)[origin])
              == Size(Lookup(g, origin)) + (if dist < 500.0 then 1 else 0)
    ensures dist >= 500.0 ==> Inserted(g, origin, dest, dist) == Prepared(g, origin)
  {
    var b := Lookup(g, origin);
    var r := Placed(b, dest, dist);
    assert forall k: BandIndex :: Bands(r)[k] == Bands(b)[k] + (if BandFor(dist) == Some(k) then [dest] else []);
    if BandFor(dist).Some? {
      var k := BandFor(dist).value;
      assert Bands(r) == Bands(b)[k := Bands(b)[k] + [dest]];
    } else {
      assert Bands(r) == Bands(b);
    }
  }

  /** Band k of any origin's record after insert: dest appended when it is
      the origin inserted under and k the band of dist, unchanged otherwise. */
  lemma InsertedBand(g: Groups, origin: Zip, dest: Zip, dist: real, o: Zip, k: BandIndex)
    ensures Bands(Lookup(Inserted(g, origin, dest, dist), o))[k]
              == Bands(Lookup(g, o))[k] + (if o == origin && BandFor(dist) == Some(k) then [dest] else [])
  {
    if o != origin {
      assert Lookup(Inserted(g, origin, dest, dist), o) == Lookup(g, o);
    }
  }

  // ---------------------------------------------------------------------------
  // Within
  // ---------------------------------------------------------------------------

  /** The query of Within includes band 0 always and band k > 0 when the
      distance exceeds the bound of band k - 1: banding, not a filter on the
      distances themselves. */
  predicate Included(k: BandIndex, distance: int) {
    k == 0 || distance > Bound(k - 1)
  }

  /** The first band from k on that the query leaves out (7 if none). */
  function ReachFrom(distance: int, k: nat): (n: nat)
    requires 1 <= k <= 7
    ensures k <= n <= 7
    ensures forall j :: k <= j < n ==> Included(j, distance)
    ensures n < 7 ==> !Included(n, distance)
    decreases 7 - k
  {
    if k == 7 || !Included(k, distance) then k else ReachFrom(distance, k + 1)
  }

  /** How many bands Within concatenates: the included bands are exactly the
      first Reach(distance). */
  function Reach(distance: int): (n: nat)
    ensures 1 <= n <= 7
    ensures forall k: BandIndex :: k < n <==> Included(k, distance)
  {
    var n := ReachFrom(distance, 1);
    assert forall k: BandIndex :: n <= k ==> !Included(k, distance) by {
      forall k: BandIndex | n <= k
        ensures !Included(k, distance)
      {
        if n < k {
          BoundAscending(n - 1, k - 1);
        }
      }
    }
    n
  }

  lemma ReachMonotone(d1: int, d2: int)
    requires d1 <= d2
    ensures Reach(d1) <= Reach(d2)
  {
  }

  /** The concatenation of a sequence of bands. */
  function Flatten(ss: seq<seq<Zip>>): seq<Zip> {
    if ss == [] then [] else Flatten(ss[..|ss| - 1]) + ss[|ss| - 1]
  }

  lemma {:induction false} FlattenPrefix(ss: seq<seq<Zip>>, i: nat, j: nat)
    requires i <= j <= |ss|
    ensures Flatten(ss[..i]) <= Flatten(ss[..j])
    decreases j - i
  {
    if i < j {
      FlattenPrefix(ss, i, j - 1);
      assert ss[..j][..j - 1] == ss[..j - 1];
    }
  }

  lemma {:induction false} FlattenMembers(ss: seq<seq<Zip>>, x: Zip)
    ensures x in Flatten(ss) <==> exists k :: 0 <= k < |ss| && x in ss[k]
  {
    if ss != [] {
      var n := |ss| - 1;
      FlattenMembers(ss[..n], x);
      assert forall k :: 0 <= k < n ==> ss[..n][k] == ss[k];
    }
  }

  /** Within's concatenation of one record's bands (map.go, lines 94-122). */
  function Combine(b: Buckets, distance: int): seq<Zip> {
    var c0 := b.under5;
    var c1 := if distance > 5 then c0 + b.under10 else c0;
    var c2 := if distance > 10 then c1 + b.under20 else c1;
    var c3 := if distance > 20 then c2 + b.under50 else c2;
    var c4 := if distance > 50 then c3 + b.under100 else c3;
    var c5 := if distance > 100 then c4 + b.under200 else c4;
    if distance > 200 then c5 + b.under500 else c5
  }

  lemma FlattenStep(ss: seq<seq<Zip>>, i: nat)
    requires i < |ss|
    ensures Flatten(ss[..i + 1]) == Flatten(ss[..i]) + ss[i]
  {
    assert ss[..i + 1][..i] == ss[..i];
  }

  /** The prefixes of seven bands, concatenated. */
  lemma FlattenSeven(ss: seq<seq<Zip>>)
    requires |ss| == 7
    ensures Flatten(ss[..1]) == ss[0]
    ensures Flatten(ss[..2]) == ss[0] + ss[1]
    ensures Flatten(ss[..3]) == ss[0] + ss[1] + ss[2]
    ensures Flatten(ss[..4]) == ss[0] + ss[1] + ss[2] + ss[3]
    ensures Flatten(ss[..5]) == ss[0] + ss[1] + ss[2] + ss[3] + ss[4]
    ensures Flatten(ss[..6]) == ss[0] + ss[1] + ss[2] + ss[3] + ss[4] + ss[5]
    ensures Flatten(ss[..7]) == ss[0] + ss[1] + ss[2] + ss[3] + ss[4] + ss[5] + ss[6]
  {
    assert Flatten(ss[..0]) == [];
    FlattenStep(ss, 0);
    FlattenStep(ss, 1);
    FlattenStep(ss, 2);
    FlattenStep(ss, 3);
    FlattenStep(ss, 4);
    FlattenStep(ss, 5);
    FlattenStep(ss, 6);
  }

  /** Combine concatenates, in ascending order, exactly the first
      Reach(distance) bands. */
  lemma CombineBands(b: Buckets, distance: int)
    ensures Combine(b, distance) == Flatten(Bands(b)[..Reach(distance)])
  {
    FlattenSeven(Bands(b));
    ReachValue(distance);
  }

  /** The number of bands Within includes, band boundary by band boundary. */
  lemma ReachValue(distance: int)
    ensures Reach(distance) == if distance > 200 then 7 else if distance > 100 then 6
                               else if distance > 50 then 5 else if distance > 20 then 4
                               else if distance > 10 then 3 else if distance > 5 then 2 else 1
  {
    var n := Reach(distance);
    assert Included(n - 1, distance);
    assert n < 7 ==> !Included(n, distance);
  }

  /** Raising the distance only appends to the answer. */
  lemma CombineMonotone(b: Buckets, d1: int, d2: int)
    requires d1 <= d2
    ensures Combine(b, d1) <= Combine(b, d2)
  {
    CombineBands(b, d1);
    CombineBands(b, d2);
    ReachMonotone(d1, d2);
    FlattenPrefix(Bands(b), Reach(d1), Reach(d2));
  }

  /** The answer holds exactly the destinations of the included bands. */
  lemma CombineMembers(b: Buckets, distance: int, x: Zip)
    ensures x in Combine(b, distance) <==> exists k: BandIndex :: Included(k, distance) && x in Bands(b)[k]
  {
    CombineBands(b, distance);
    var n := Reach(distance);
    FlattenMembers(Bands(b)[..n], x);
    assert forall k :: 0 <= k < n ==> Bands(b)[..n][k] == Bands(b)[k];
  }

  /** Within on the map: nothing for an origin without a record, otherwise
      the combined bands of its record. */
  function Query(g: Groups, origin: Zip, distance: int): (r: seq<Zip>)
    ensures origin !in g ==> r == []
  {
    if origin !in g then [] else Combine(g[origin], distance)
  }

  lemma QueryMonotone(g: Groups, origin: Zip, d1: int, d2: int)
    requires d1 <= d2
    ensures Query(g, origin, d1) <= Query(g, origin, d2)
  {
    if origin in g {
      CombineMonotone(g[origin], d1, d2);
    }
  }

  // ---------------------------------------------------------------------------
  // Building a map from rows
  // ---------------------------------------------------------------------------

  /** One parsed row: origin, destination, distance. */
  datatype Entry = Entry(origin: Zip, dest: Zip, dist: real)

  /** The map that results from inserting the rows, in order, into an empty
      map. */
  function Build(rows: seq<Entry>): Groups {
    if rows == [] then map[]
    else
      var e := rows[|rows| - 1];
      Inserted(Build(rows[..|rows| - 1]), e.origin, e.dest, e.dist)
  }

  /** The destinations of the rows from origin whose distance falls in band
      k, in row order, duplicates kept. */
  function Filed(rows: seq<Entry>, origin: Zip, k: BandIndex): seq<Zip> {
    if rows == [] then []
    else
      var e := rows[|rows| - 1];
      Filed(rows[..|rows| - 1], origin, k)
        + (if e.origin == origin && BandFor(e.dist) == Some(k) then [e.dest] else [])
  }

  function FiledBands(rows: seq<Entry>, origin: Zip): (s: seq<seq<Zip>>)
    ensures |s| == 7 && forall k: BandIndex :: s[k] == Filed(rows, origin, k)
  {
    seq(7, k requires 0 <= k < 7 => Filed(rows, origin, k))
  }

  /** Some row starts from origin. */
  predicate StartsFrom(rows: seq<Entry>, origin: Zip) {
    exists i :: 0 <= i < |rows| && rows[i].origin == origin
  }

  lemma StartsFromSnoc(rows: seq<Entry>, origin: Zip)
    requires rows != []
    ensures StartsFrom(rows, origin) <==> StartsFrom(rows[..|rows| - 1], origin) || rows[|rows| - 1].origin == origin
  {
    var n := |rows| - 1;
    assert forall i :: 0 <= i < n ==> rows[..n][i] == rows[i];
    if StartsFrom(rows, origin) && rows[n].origin != origin {
      var i :| 0 <= i < |rows| && rows[i].origin == origin;
      assert rows[..n][i].origin == origin;
    }
  }

  /** An origin has a record iff some row starts from it, even a row whose
      distance is dropped. */
  lemma {:induction false} BuildKeys(rows: seq<Entry>, origin: Zip)
    ensures origin in Build(rows) <==> StartsFrom(rows, origin)
  {
    if rows != [] {
      var n := |rows| - 1;
      var e, init := rows[n], rows[..n];
      BuildKeys(init, origin);
      StartsFromSnoc(rows, origin);
      InsertedKeys(Build(init), e.origin, e.dest, e.dist);
    }
  }

  /** Band k of an origin's record lists, in row order and with duplicates,
      the destinations of its rows whose distance falls in band k. */
  lemma {:induction false} BuildBand(rows: seq<Entry>, origin: Zip, k: BandIndex)
    ensures Bands(Lookup(Build(rows), origin))[k] == Filed(rows, origin, k)
  {
    if rows != [] {
      var n := |rows| - 1;
      var e, init := rows[n], rows[..n];
      BuildBand(init, origin, k);
      InsertedBand(Build(init), e.origin, e.dest, e.dist, origin, k);
    }
  }

  lemma BuildBands(rows: seq<Entry>, origin: Zip)
    ensures origin in Build(rows) <==> StartsFrom(rows, origin)
    ensures origin in Build(rows) ==> Bands(Build(rows)[origin]) == FiledBands(rows, origin)
  {
    BuildKeys(rows, origin);
    forall k: BandIndex
      ensures Bands(Lookup(Build(rows), origin))[k] == FiledBands(rows, origin)[k]
    {
      BuildBand(rows, origin, k);
    }
  }

  /** Rows none of which files anything under origin in band k file nothing
      there. */
  lemma {:induction false} NoneFiled(rows: seq<Entry>, origin: Zip, k: BandIndex)
    requires forall i :: 0 <= i < |rows| ==> !(rows[i].origin == origin && BandFor(rows[i].dist) == Some(k))
    ensures Filed(rows, origin, k) == []
  {
    if rows != [] {
      var n := |rows| - 1;
      assert forall i :: 0 <= i < n ==> rows[..n][i] == rows[i];
      NoneFiled(rows[..n], origin, k);
    }
  }

  /** When exactly row j files under origin in band k, the band holds just
      its destination. */
  lemma {:induction false} FiledUnique(rows: seq<Entry>, origin: Zip, k: BandIndex, j: nat)
    requires j < |rows| && rows[j].origin == origin && BandFor(rows[j].dist) == Some(k)
    requires forall i :: 0 <= i < |rows| && i != j ==> !(rows[i].origin == origin && BandFor(rows[i].dist) == Some(k))
    ensures Filed(rows, origin, k) == [rows[j].dest]
  {
    var n := |rows| - 1;
    var init := rows[..n];
    assert forall i :: 0 <= i < n ==> init[i] == rows[i];
    if j == n {
      NoneFiled(init, origin, k);
    } else {
      FiledUnique(init, origin, k, j);
    }
  }

  /** Within on a built map, in terms of the rows alone. */
  lemma QueryBuild(rows: seq<Entry>, origin: Zip, distance: int)
    ensures (forall i :: 0 <= i < |rows| ==> rows[i].origin != origin) ==> Query(Build(rows), origin, distance) == []
    ensures StartsFrom(rows, origin) ==>
              Query(Build(rows), origin, distance) == Flatten(FiledBands(rows, origin)[..Reach(distance)])
  {
    BuildBands(rows, origin);
    if origin in Build(rows) {
      CombineBands(Build(rows)[origin], distance);
    }
  }

  /** Row e files x under origin in band k. */
  predicate Files(e: Entry, origin: Zip, k: BandIndex, x: Zip) {
    e.origin == origin && e.dest == x && BandFor(e.dist) == Some(k)
  }

  /** Some row files x under origin in band k. */
  predicate SomeRowFiles(rows: seq<Entry>, origin: Zip, k: BandIndex, x: Zip) {
    exists i :: 0 <= i < |rows| && Files(rows[i], origin, k, x)
  }

  lemma SomeRowFilesSnoc(rows: seq<Entry>, origin: Zip, k: BandIndex, x: Zip)
    requires rows != []
    ensures SomeRowFiles(rows, origin, k, x) <==>
              SomeRowFiles(rows[..|rows| - 1], origin, k, x) || Files(rows[|rows| - 1], origin, k, x)
  {
    var n := |rows| - 1;
    assert forall i :: 0 <= i < n ==> rows[..n][i] == rows[i];
    if SomeRowFiles(rows, origin, k, x) && !Files(rows[n], origin, k, x) {
      var i :| 0 <= i < |rows| && Files(rows[i], origin, k, x);
      assert Files(rows[..n][i], origin, k, x);
    }
  }

  /** A destination is filed exactly when some row files it. */
  lemma {:induction false} FiledMembers(rows: seq<Entry>, origin: Zip, k: BandIndex, x: Zip)
    ensures x in Filed(rows, origin, k) <==> SomeRowFiles(rows, origin, k, x)
  {
    if rows != [] {
      var n := |rows| - 1;
      FiledMembers(rows[..n], origin, k, x);
      SomeRowFilesSnoc(rows, origin, k, x);
    }
  }

  /** Every destination a row puts closer than the queried distance (and
      closer than 500) is in the answer. */
  lemma QueryComplete(rows: seq<Entry>, i: nat, distance: int)
    requires i < |rows|
    requires rows[i].dist < 500.0 && rows[i].dist < distance as real
    ensures rows[i].dest in Query(Build(rows), rows[i].origin, distance)
  {
    var e := rows[i];
    BuildBands(rows, e.origin);
    var k := BandFor(e.dist).value;
    assert Included(k, distance) by {
      if k > 0 {
        assert (Bound(k - 1) as real) <= e.dist;
      }
    }
    assert Files(rows[i], e.origin, k, e.dest);
    FiledMembers(rows, e.origin, k, e.dest);
    CombineMembers(Build(rows)[e.origin], distance, e.dest);
  }

  /** Every destination in the answer comes from a row from the origin whose
      distance lies below the bound of the last band included: at most 500, and
      coarser than the queried distance itself. */
  lemma QuerySound(rows: seq<Entry>, origin: Zip, distance: int, x: Zip)
    requires x in Query(Build(rows), origin, distance)
    ensures exists i :: 0 <= i < |rows| && rows[i].origin == origin && rows[i].dest == x
                        && rows[i].dist < Bound(Reach(distance) - 1) as real
  {
    var b := Build(rows)[origin];
    CombineMembers(b, distance, x);
    var k: BandIndex :| Included(k, distance) && x in Bands(b)[k];
    BuildBand(rows, origin, k);
    var i := FiledWitness(rows, origin, k, x);
    IncludedBandBelowReach(rows[i].dist, k, distance);
  }

  /** The row a filed destination comes from. */
  lemma FiledWitness(rows: seq<Entry>, origin: Zip, k: BandIndex, x: Zip) returns (i: nat)
    requires x in Filed(rows, origin, k)
    ensures i < |rows| && rows[i].origin == origin && rows[i].dest == x && BandFor(rows[i].dist) == Some(k)
  {
    FiledMembers(rows, origin, k, x);
    i :| 0 <= i < |rows| && Files(rows[i], origin, k, x);
  }

  /** A distance filed in an included band lies below the bound of the last
      included band. */
  lemma IncludedBandBelowReach(dist: real, k: BandIndex, distance: int)
    requires BandFor(dist) == Some(k) && Included(k, distance)
    ensures dist < Bound(Reach(distance) - 1) as real
  {
    var n := Reach(distance);
    if k < n - 1 {
      BoundAscending(k, n - 1);
    }
  }

  // ---------------------------------------------------------------------------
  // The Map object
  // ---------------------------------------------------------------------------

  /** Map: the groups of map.go, updated in place by setup and insert. A
      record is reached only through its origin's entry, so the model keeps
      each record as a value in the map. */
  class Map {
    var groups: Groups

    constructor ()
      ensures groups == map[]
    {
      groups := map[];
    }

    /** setup: give the origin a record of seven empty bands if it has none. */
    method Setup(origin: Zip)
      modifies this
      ensures groups == Prepared(old(groups), origin)
      ensures origin in groups
      ensures origin in old(groups) ==> groups == old(groups)
    {
      if origin !in groups {
        groups := groups[origin := EmptyBuckets()];
      }
    }

    /** insert: setup, then append dest to the first band whose bound
        exceeds dist; a distance of 500 or more is dropped. */
    method Insert(origin: Zip, dest: Zip, dist: real)
      modifies this
      ensures groups == Inserted(old(groups), origin, dest, dist)
    {
      ghost var target := Inserted(groups, origin, dest, dist);
      Setup(origin);
      var b := groups[origin];
      if dist < 5.0 {
        BandForExact(dist, 0);
        groups := groups[origin := b.(under5 := b.under5 + [dest])];
        assert groups == target;
      } else if dist < 10.0 {
        BandForExact(dist, 1);
        groups := groups[origin := b.(under10 := b.under10 + [dest])];
        assert groups == target;
      } else if dist < 20.0 {
        BandForExact(dist, 2);
        groups := groups[origin := b.(under20 := b.under20 + [dest])];
        assert groups == target;
      } else if dist < 50.0 {
        BandForExact(dist, 3);
        groups := groups[origin := b.(under50 := b.under50 + [dest])];
        assert groups == target;
      } else if dist < 100.0 {
        BandForExact(dist, 4);
        groups := groups[origin := b.(under100 := b.under100 + [dest])];
        assert groups == target;
      } else if dist < 200.0 {
        BandForExact(dist, 5);
        groups := groups[origin := b.(under200 := b.under200 + [dest])];
        assert groups == target;
      } else if dist < 500.0 {
        BandForExact(dist, 6);
        groups := groups[origin := b.(under500 := b.under500 + [dest])];
        assert groups == target;
      }
    }

    /** Within: the destinations of the bands the distance reaches; empty for
        an origin without a record. */
    function Within(origin: Zip, distance: int): (r: seq<Zip>)
      reads this
      ensures origin !in groups ==> r == []
      ensures origin in groups ==> r == Flatten(Bands(groups[origin])[..Reach(distance)])
    {
      CombineBands(Lookup(groups, origin), distance);
      Query(groups, origin, distance)
    }
  }

  // ---------------------------------------------------------------------------
  // New: building a Map from lines of text
  // ---------------------------------------------------------------------------

  /** tokensSub: the fixed columns of a row "OOOOO","DDDDD",dddddd -- bytes
      1 to 5, 9 to 13 and 16 to 21. */
  function Tokens(line: string): (t: (string, string, string))
    requires |line| >= 22
    ensures |t.0| == 5 && |t.1| == 5 && |t.2| == 6
  {
    (line[1..6], line[9..14], line[16..22])
  }

  /** A row in the layout of the input file: two quoted zip codes and a
      distance, separated by commas. */
  function QuotedRow(a: string, b: string, d: string): string {
    "\"" + a + "\",\"" + b + "\"," + d
  }

  /** The columns are those of the quoted layout, and the distance column is
      cut to six characters whatever follows. */
  lemma TokensOfRow(a: string, b: string, d: string, rest: string)
    requires |a| == 5 && |b| == 5 && |d| == 6
    ensures |QuotedRow(a, b, d) + rest| >= 22
    ensures Tokens(QuotedRow(a, b, d) + rest) == (a, b, d)
  {
    var line := QuotedRow(a, b, d) + rest;
    assert line[1..6] == a;
    assert line[9..14] == b;
    assert line[16..22] == d;
  }

  /** The lines after the header, which New skips unread. */
  function Records(lines: seq<string>): seq<string> {
    if lines == [] then [] else lines[1..]
  }

  /** One row as New reads it: a line too short for tokensSub's slices is
      where Go panics; otherwise Atoi on the two zip columns, each converted
      to a Zip, and the distance column through parseFloat; the first
      failure is the error. */
  function ParseRow(line: string, parseFloat: string -> Option<real>): Result<Entry, Error> {
    if |line| < 22 then Err(ShortLine(line))
    else
      var (a, b, d) := Tokens(line);
      match Atoi(a)
      case Err(e) => Err(e)
      case Ok(source) =>
        match Atoi(b)
        case Err(e) => Err(e)
        case Ok(dest) =>
          match parseFloat(d)
          case None => Err(FloatError(d))
          case Some(dist) => Ok(Entry(ToZip(source), ToZip(dest), dist))
  }

  /** A short line is refused before any column is read. Otherwise New reads
      a zip column exactly as Parse would: it accepts the same columns and
      yields the same zip codes, and the first failing column gives the
      error. */
  lemma ParseRowSpec(line: string, parseFloat: string -> Option<real>)
    ensures |line| < 22 ==> ParseRow(line, parseFloat) == Err(ShortLine(line))
    ensures |line| >= 22 ==>
            var (a, b, d) := Tokens(line);
            && (ParseRow(line, parseFloat).Ok? <==> Parse(a).Ok? && Parse(b).Ok? && parseFloat(d).Some?)
            && (ParseRow(line, parseFloat).Ok? ==>
                  ParseRow(line, parseFloat).value == Entry(Parse(a).value, Parse(b).value, parseFloat(d).value))
            && (Parse(a).Err? ==> ParseRow(line, parseFloat) == Err(AtoiSyntax(a)))
            && (Parse(a).Ok? && Parse(b).Err? ==> ParseRow(line, parseFloat) == Err(AtoiSyntax(b)))
            && (Parse(a).Ok? && Parse(b).Ok? && parseFloat(d).None? ==> ParseRow(line, parseFloat) == Err(FloatError(d)))
  {
  }

  /** The rows in order, or the first error among the results. */
  function Collect(rs: seq<Result<Entry, Error>>): Result<seq<Entry>, Error> {
    if rs == [] then Ok([])
    else
      var n := |rs| - 1;
      match Collect(rs[..n])
      case Err(e) => Err(e)
      case Ok(rows) =>
        match rs[n]
        case Err(e) => Err(e)
        case Ok(row) => Ok(rows + [row])
  }

  /** The result of reading each line on its own. */
  function RowResults(lines: seq<string>, parseFloat: string -> Option<real>): (rs: seq<Result<Entry, Error>>)
    ensures |rs| == |lines| && forall i :: 0 <= i < |lines| ==> rs[i] == ParseRow(lines[i], parseFloat)
  {
    seq(|lines|, i requires 0 <= i < |lines| => ParseRow(lines[i], parseFloat))
  }

  /** What New reads from the records: their rows in order, or the error of
      the first record that does not parse. */
  function ParseRows(lines: seq<string>, parseFloat: string -> Option<real>): Result<seq<Entry>, Error>
  {
    Collect(RowResults(lines, parseFloat))
  }

  /** Collect succeeds iff every result is Ok, and then yields their values
      in order. */
  lemma {:induction false} CollectOk(rs: seq<Result<Entry, Error>>)
    ensures Collect(rs).Ok? <==> forall i :: 0 <= i < |rs| ==> rs[i].Ok?
    ensures Collect(rs).Ok? ==> |Collect(rs).value| == |rs| && forall i :: 0 <= i < |rs| ==> Collect(rs).value[i] == rs[i].value
  {
    if rs != [] {
      var n := |rs| - 1;
      var init := rs[..n];
      CollectOk(init);
      assert forall i :: 0 <= i < n ==> init[i] == rs[i];
      var p := Collect(init);
      if p.Err? {
        var j :| 0 <= j < n && !init[j].Ok?;
        assert !rs[j].Ok?;
      } else if rs[n].Ok? {
        var rows := p.value + [rs[n].value];
        assert Collect(rs) == Ok(rows);
        forall i | 0 <= i < |rs|
          ensures rs[i].Ok? && rows[i] == rs[i].value
        {
          if i < n {
            assert init[i] == rs[i] && rows[i] == p.value[i];
          }
        }
      }
    }
  }

  /** A failing Collect fails with the error of its first Err. */
  lemma {:induction false} CollectFirstError(rs: seq<Result<Entry, Error>>) returns (i: nat)
    requires Collect(rs).Err?
    ensures i < |rs| && rs[i] == Err(Collect(rs).error)
    ensures forall j :: 0 <= j < i ==> rs[j].Ok?
  {
    var n := |rs| - 1;
    var init := rs[..n];
    assert forall j :: 0 <= j < n ==> init[j] == rs[j];
    if Collect(init).Err? {
      i := CollectFirstError(init);
    } else {
      CollectOk(init);
      i := n;
    }
  }

  /** Once a result is an Err, no later result changes the outcome. */
  lemma {:induction false} CollectFailFast(rs: seq<Result<Entry, Error>>, k: nat)
    requires k <= |rs| && Collect(rs[..k]).Err?
    ensures Collect(rs) == Collect(rs[..k])
    decreases |rs| - k
  {
    if k < |rs| {
      var n := |rs| - 1;
      if k == n {
        assert rs[..k] == rs[..n];
      } else {
        assert rs[..n][..k] == rs[..k];
        CollectFailFast(rs[..n], k);
      }
    } else {
      assert rs[..k] == rs;
    }
  }

  /** Collect on one more result: the rows so far, then that result's row. */
  lemma CollectStep(rs: seq<Result<Entry, Error>>, i: nat)
    requires i < |rs|
    ensures Collect(rs[..i + 1])
              == match Collect(rs[..i])
                 case Err(e) => Err(e)
                 case Ok(rows) =>
                   match rs[i]
                   case Err(e) => Err(e)
                   case Ok(row) => Ok(rows + [row])
  {
    assert rs[..i + 1][..i] == rs[..i];
  }

  /** ParseRows succeeds iff every line parses, and then yields their rows in
      order. */
  lemma ParseRowsOk(lines: seq<string>, parseFloat: string -> Option<real>)
    ensures ParseRows(lines, parseFloat).Ok? <==> forall i :: 0 <= i < |lines| ==> ParseRow(lines[i], parseFloat).Ok?
    ensures ParseRows(lines, parseFloat).Ok? ==>
              var rows := ParseRows(lines, parseFloat).value;
              |rows| == |lines| && forall i :: 0 <= i < |lines| ==> rows[i] == ParseRow(lines[i], parseFloat).value
  {
    CollectOk(RowResults(lines, parseFloat));
  }

  /** A failing ParseRows fails with the error of the first line that does
      not parse. */
  lemma ParseRowsFirstError(lines: seq<string>, parseFloat: string -> Option<real>) returns (i: nat)
    requires ParseRows(lines, parseFloat).Err?
    ensures i < |lines| && ParseRow(lines[i], parseFloat) == Err(ParseRows(lines, parseFloat).error)
    ensures forall j :: 0 <= j < i ==> ParseRow(lines[j], parseFloat).Ok?
  {
    var rs := RowResults(lines, parseFloat);
    i := CollectFirstError(rs);
    assert forall j :: 0 <= j < i ==> rs[j].Ok?;
  }

  /** New: skip the header, then read and insert the records in order,
      failing on the first field that does not parse. On success the map is
      that of inserting the parsed rows one by one. */
  method New(lines: seq<string>, parseFloat: string -> Option<real>) returns (r: Result<Map, Error>)
    ensures r.Err? ==> ParseRows(Records(lines), parseFloat) == Err(r.error)
    ensures r.Ok? ==> ParseRows(Records(lines), parseFloat).Ok? && fresh(r.value)
                      && r.value.groups == Build(ParseRows(Records(lines), parseFloat).value)
  {
    var m := new Map();
    var records := Records(lines);
    ghost var rs := RowResults(records, parseFloat);
    var i := 0;
    while i < |records|
      invariant 0 <= i <= |records|
      invariant fresh(m)
      invariant Collect(rs[..i]).Ok?
      invariant m.groups == Build(Collect(rs[..i]).value)
    {
      ghost var rows := Collect(rs[..i]).value;
      CollectStep(rs, i);
      if |records[i]| < 22 {
        CollectFailFast(rs, i + 1);
        return Err(ShortLine(records[i]));
      }
      var (a, b, d) := Tokens(records[i]);
      var source := Atoi(a);
      if source.Err? {
        CollectFailFast(rs, i + 1);
        return Err(source.error);
      }
      var dest := Atoi(b);
      if dest.Err? {
        CollectFailFast(rs, i + 1);
        return Err(dest.error);
      }
      var dist := parseFloat(d);
      if dist.None? {
        CollectFailFast(rs, i + 1);
        return Err(FloatError(d));
      }
      var row := Entry(ToZip(source.value), ToZip(dest.value), dist.value);
      assert rs[i] == Ok(row);
      m.Insert(row.origin, row.dest, row.dist);
      assert Collect(rs[..i + 1]).value == rows + [row];
      assert (rows + [row])[..|rows|] == rows;
      i := i + 1;
    }
    assert rs[..i] == rs;
    r := Ok(m);
  }
}
