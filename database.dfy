/** The coordinate database: the fixed table of territories and the collection
    of every territory's sample coordinates from the shape records. */
module Database {
  import opened Base
  import opened Text

  /** A shape record: its NAME attribute and the coordinate rings the collection
      walks (the exterior rings of its polygons in the package revision, the
      lines of its boundary in the script revision). */
  datatype ShapeRecord = ShapeRecord(name: string, rings: seq<seq<Coord>>)

  /** A territory's entry, a dictionary with optional `countries` and
      `locations` keys and the `coords` key the collection writes. */
  datatype Entry = Entry(countries: Option<seq<string>>, locations: Option<seq<Coord>>, coords: Option<seq<Coord>>)

  /** `bots/create_db.py` (the package) or `create_db.py` (the older script). */
  datatype Revision = Package | Script

  function Countries(names: seq<string>): Entry
  {
    Entry(Some(names), None, None)
  }

  /** The dictionary literal, in its written order. */
  const TABLE: seq<(string, Entry)> := [
    ("United Kingdom", Entry(Some(["United Kingdom"]), Some([Coord(-0.0005, 51.476852)]), None)),
    ("Akrotiri & Dhekelia", Countries(["Akrotiri", "Dhekelia"])),
    ("Anguilla", Countries(["Anguilla"])),
    ("British Antarctic Territory", Entry(Some(["Antarctica"]), Some([Coord(-50.0, -90.0)]), None)),
    ("Bermuda", Countries(["Bermuda"])),
    ("Cayman Islands", Countries(["Cayman Is."])),
    ("Falkland Islands", Countries(["Falkland Is."])),
    ("Gibraltar", Countries(["Gibraltar"])),
    ("South Georgia & the South Sandwich Islands", Countries(["S. Geo. and the Is."])),
    ("British Indian Ocean Territory", Countries(["Br. Indian Ocean Ter."])),
    ("Montserrat", Countries(["Montserrat"])),
    ("Pitcairn Islands", Countries(["Pitcairn Is."])),
    ("Saint Helena, Ascension & Tristan da Cunha",
      Entry(Some(["Saint Helena"]), Some([Coord(-14.3559158, -7.9467166), Coord(-12.2776838, -37.1052489)]), None)),
    ("Turks and Caicos Islands", Countries(["Turks and Caicos Is."])),
    ("British Virgin Islands", Countries(["British Virgin Is."]))
  ]

  const BAT: string := "British Antarctic Territory"

  /** The keys of the dictionary in the order `for territory in territories` visits them. */
  function Names(pairs: seq<(string, Entry)>): (r: seq<string>)
    ensures |r| == |pairs| && forall i | 0 <= i < |pairs| :: r[i] == pairs[i].0
  {
    seq(|pairs|, i requires 0 <= i < |pairs| => pairs[i].0)
  }

  /** A dictionary literal: a later pair for the same key overrides an earlier one. */
  function ToMap(pairs: seq<(string, Entry)>): (m: map<string, Entry>)
    ensures forall t :: t in m <==> t in Names(pairs)
    ensures forall i | 0 <= i < |pairs| && (forall j | i < j < |pairs| :: pairs[j].0 != pairs[i].0) ::
              m[pairs[i].0] == pairs[i].1
    decreases |pairs|
  {
    if pairs == [] then map[]
    else
      var init, last := pairs[..|pairs| - 1], pairs[|pairs| - 1];
      assert Names(pairs) == Names(init) + [last.0];
      var m := ToMap(init)[last.0 := last.1];
      assert forall i | 0 <= i < |pairs| && (forall j | i < j < |pairs| :: pairs[j].0 != pairs[i].0) ::
               m[pairs[i].0] == pairs[i].1 by {
        forall i | 0 <= i < |pairs| && (forall j | i < j < |pairs| :: pairs[j].0 != pairs[i].0)
          ensures m[pairs[i].0] == pairs[i].1
        {
          if i < |init| {
            assert init[i] == pairs[i];
            assert pairs[|pairs| - 1].0 != pairs[i].0;
            forall j | i < j < |init| ensures init[j].0 != init[i].0 {
              assert init[j] == pairs[j];
            }
          }
        }
      }
      m
  }

  /** `sorted(list(territories.keys()))`. */
  const SORTED_NAMES: seq<string> := [
    TABLE[1].0, TABLE[2].0, TABLE[4].0, TABLE[3].0, TABLE[9].0, TABLE[14].0, TABLE[5].0,
    TABLE[6].0, TABLE[7].0, TABLE[10].0, TABLE[11].0, TABLE[12].0, TABLE[8].0, TABLE[13].0, TABLE[0].0
  ]

  /** Where each entry of the table stands in `SORTED_NAMES`. */
  const SORTED_POSITION: seq<nat> := [14, 0, 1, 3, 2, 6, 7, 8, 12, 4, 9, 10, 11, 13, 5]

  /** Neighbours `i` and `i + 1` of the visiting order, for the first five `i`:
      `k` is the length of their common prefix. */
  lemma SortedNeighboursLow(i: nat)
    requires i < 5
    ensures Less(SORTED_NAMES[i], SORTED_NAMES[i + 1])
  {
    var k := if i == 0 || i == 2 then 1 else if i == 3 || i == 4 then 8 else 0;
    LessAfterCommonPrefix(SORTED_NAMES[i], SORTED_NAMES[i + 1], k);
  }

  lemma SortedNeighboursMid(i: nat)
    requires 5 <= i < 10
    ensures Less(SORTED_NAMES[i], SORTED_NAMES[i + 1])
  {
    LessAfterCommonPrefix(SORTED_NAMES[i], SORTED_NAMES[i + 1], 0);
  }

  lemma SortedNeighboursHigh(i: nat)
    requires 10 <= i < |SORTED_NAMES| - 1
    ensures Less(SORTED_NAMES[i], SORTED_NAMES[i + 1])
  {
    var k := if i == 11 then 1 else 0;
    LessAfterCommonPrefix(SORTED_NAMES[i], SORTED_NAMES[i + 1], k);
  }

  /** The package revision's visiting order is strictly sorted. */
  lemma SortedNamesAreSorted()
    ensures StrictlySorted(SORTED_NAMES)
  {
    forall i | 0 <= i < |SORTED_NAMES| - 1 ensures Less(SORTED_NAMES[i], SORTED_NAMES[i + 1]) {
      if i < 5 { SortedNeighboursLow(i); }
      else if i < 10 { SortedNeighboursMid(i); }
      else { SortedNeighboursHigh(i); }
    }
  }

  lemma SortedPositionsAgree(i: nat)
    requires i < |TABLE|
    ensures SORTED_POSITION[i] < |SORTED_NAMES| && SORTED_NAMES[SORTED_POSITION[i]] == TABLE[i].0
  {
  }

  /** The package revision's visiting order holds exactly the table's names. */
  lemma SortedNamesCoverTable()
    ensures forall t :: t in SORTED_NAMES <==> t in Names(TABLE)
  {
    forall t | t in Names(TABLE) ensures t in SORTED_NAMES {
      var i :| 0 <= i < |TABLE| && TABLE[i].0 == t;
      SortedPositionsAgree(i);
    }
  }

  /** The table's 15 names are distinct, since each stands at its own place in
      a strictly sorted list. */
  lemma TableNamesDistinct()
    ensures |TABLE| == 15
    ensures forall i, j | 0 <= i < j < |TABLE| :: TABLE[i].0 != TABLE[j].0
  {
    SortedNamesAreSorted();
    forall i, j | 0 <= i < j < |TABLE| ensures TABLE[i].0 != TABLE[j].0 {
      SortedPositionsAgree(i);
      SortedPositionsAgree(j);
      var p, q := SORTED_POSITION[i], SORTED_POSITION[j];
      assert p != q;
      if p < q { SortedPairwise(SORTED_NAMES, p, q); } else { SortedPairwise(SORTED_NAMES, q, p); }
    }
  }

  /** The package revision's visiting order lists exactly the keys of the table,
      sorted, and the table's 15 names are distinct. */
  lemma SortedNamesEnumerateTable()
    ensures StrictlySorted(SORTED_NAMES)
    ensures forall t :: t in SORTED_NAMES <==> t in Names(TABLE)
    ensures |TABLE| == 15
    ensures forall i, j | 0 <= i < j < |TABLE| :: TABLE[i].0 != TABLE[j].0
  {
    SortedNamesAreSorted();
    SortedNamesCoverTable();
    TableNamesDistinct();
  }

  /** Every key of the table maps to the entry written for it: no later pair
      overrides an earlier one. */
  lemma TableEntries()
    ensures forall i | 0 <= i < |TABLE| :: TABLE[i].0 in ToMap(TABLE) && ToMap(TABLE)[TABLE[i].0] == TABLE[i].1
  {
    TableNamesDistinct();
    DistinctEntries(TABLE);
  }

  /** The Antarctic territory's entry: its one country and its one location. */
  lemma BatEntry()
    ensures BAT in ToMap(TABLE)
    ensures ToMap(TABLE)[BAT] == Entry(Some(["Antarctica"]), Some([Coord(-50.0, -90.0)]), None)
  {
    TableEntries();
    assert TABLE[3].0 == BAT;
  }

  lemma DistinctEntries(pairs: seq<(string, Entry)>)
    requires forall i, j | 0 <= i < j < |pairs| :: pairs[i].0 != pairs[j].0
    ensures forall i | 0 <= i < |pairs| :: pairs[i].0 in ToMap(pairs) && ToMap(pairs)[pairs[i].0] == pairs[i].1
  {
    forall i | 0 <= i < |pairs| ensures pairs[i].0 in ToMap(pairs) && ToMap(pairs)[pairs[i].0] == pairs[i].1 {
      assert Names(pairs)[i] == pairs[i].0;
    }
  }

  /** Every entry lists countries and no coordinates yet; only the United
      Kingdom, the British Antarctic Territory and Saint Helena carry explicit
      locations. */
  lemma TableShape()
    ensures forall i | 0 <= i < |TABLE| :: TABLE[i].1.countries.Some? && TABLE[i].1.coords.None?
    ensures forall i | 0 <= i < |TABLE| :: TABLE[i].1.locations.Some? <==> i == 0 || i == 3 || i == 12
    ensures TABLE[0].0 == "United Kingdom" && TABLE[3].0 == BAT
    ensures TABLE[12].0 == "Saint Helena, Ascension & Tristan da Cunha"
  {
  }

  // ---------------------------------------------------------------------------
  // What a territory collects.

  /** The British Antarctic Territory keeps only points with `-80 <= lon <= -20`. */
  predicate Kept(territory: string, c: Coord)
  {
    territory != BAT || (-80.0 <= c.lon <= -20.0)
  }

  /** The points of `cs` that `territory` keeps, in order. */
  function Filter(territory: string, cs: seq<Coord>): (r: seq<Coord>)
    ensures |r| <= |cs|
    ensures territory != BAT ==> r == cs
    decreases |cs|
  {
    if cs == [] then []
    else
      var last := cs[|cs| - 1];
      assert cs == cs[..|cs| - 1] + [last];
      Filter(territory, cs[..|cs| - 1]) + (if Kept(territory, last) then [last] else [])
  }

  lemma {:induction false} FilterAppend(territory: string, a: seq<Coord>, b: seq<Coord>)
    ensures Filter(territory, a + b) == Filter(territory, a) + Filter(territory, b)
    decreases |b|
  {
    if b != [] {
      var b' := b[..|b| - 1];
      assert (a + b)[..|a + b| - 1] == a + b';
      FilterAppend(territory, a, b');
    } else {
      assert a + b == a;
    }
  }

  /** The rings' points one ring after another. */
  function Flatten(rings: seq<seq<Coord>>): seq<Coord>
    decreases |rings|
  {
    if rings == [] then [] else Flatten(rings[..|rings| - 1]) + rings[|rings| - 1]
  }

  lemma {:induction false} FlattenAppend(a: seq<seq<Coord>>, b: seq<seq<Coord>>)
    ensures Flatten(a + b) == Flatten(a) + Flatten(b)
    decreases |b|
  {
    if b != [] {
      var b' := b[..|b| - 1];
      assert (a + b)[..|a + b| - 1] == a + b';
      FlattenAppend(a, b');
    } else {
      assert a + b == a;
    }
  }

  /** The NAME a revision compares against the territory's `countries`: as read
      in the package, stripped of NULs and surrounding whitespace in the script. */
  function RecordName(rev: Revision, record: ShapeRecord): string
  {
    match rev
    case Package => record.name
    case Script => Clean(record.name)
  }

  /** The rings of the records whose name is listed, record by record. */
  function MatchedRings(rev: Revision, countries: seq<string>, records: seq<ShapeRecord>): seq<seq<Coord>>
    decreases |records|
  {
    if records == [] then []
    else
      var last := records[|records| - 1];
      MatchedRings(rev, countries, records[..|records| - 1]) + (if RecordName(rev, last) in countries then last.rings else [])
  }

  /** A point survives the filter exactly when it is in `cs` and the territory keeps it. */
  lemma {:induction false} FilterMembers(territory: string, cs: seq<Coord>)
    ensures forall c :: c in Filter(territory, cs) <==> c in cs && Kept(territory, c)
    decreases |cs|
  {
    if cs != [] {
      FilterMembers(territory, cs[..|cs| - 1]);
      assert cs == cs[..|cs| - 1] + [cs[|cs| - 1]];
    }
  }

  /** A point is in the flattened rings exactly when it is on one of them. */
  lemma {:induction false} FlattenMembers(rings: seq<seq<Coord>>)
    ensures forall c :: c in Flatten(rings) <==> exists ring | ring in rings :: c in ring
    decreases |rings|
  {
    if rings != [] {
      FlattenMembers(rings[..|rings| - 1]);
      assert rings == rings[..|rings| - 1] + [rings[|rings| - 1]];
    }
  }

  /** A ring is matched exactly when it belongs to a record whose name is listed. */
  lemma {:induction false} MatchedRingsMembers(rev: Revision, countries: seq<string>, records: seq<ShapeRecord>)
    ensures forall ring :: ring in MatchedRings(rev, countries, records) <==>
              exists record | record in records :: RecordName(rev, record) in countries && ring in record.rings
    decreases |records|
  {
    if records != [] {
      MatchedRingsMembers(rev, countries, records[..|records| - 1]);
      assert records == records[..|records| - 1] + [records[|records| - 1]];
    }
  }

  /** What one record adds: the kept points of its rings when its name is
      listed, nothing otherwise. */
  function Contribution(rev: Revision, territory: string, countries: seq<string>, record: ShapeRecord): seq<Coord>
  {
    if RecordName(rev, record) in countries then Filter(territory, Flatten(record.rings)) else []
  }

  /** One more record adds the kept points of its rings, when it is listed. */
  lemma RecordStep(rev: Revision, territory: string, countries: seq<string>, records: seq<ShapeRecord>, r: nat)
    requires r < |records|
    ensures Filter(territory, Flatten(MatchedRings(rev, countries, records[..r + 1])))
            == Filter(territory, Flatten(MatchedRings(rev, countries, records[..r])))
               + Contribution(rev, territory, countries, records[r])
  {
    assert records[..r + 1][..r] == records[..r];
    var matched := MatchedRings(rev, countries, records[..r]);
    var extra := if RecordName(rev, records[r]) in countries then records[r].rings else [];
    assert MatchedRings(rev, countries, records[..r + 1]) == matched + extra;
    FlattenAppend(matched, extra);
    FilterAppend(territory, Flatten(matched), Flatten(extra));
  }

  /** Reference definition of what `coords` ends as: the kept points of the
      matched records' rings in order, then the explicit locations, unfiltered. */
  function Collected(rev: Revision, territory: string, e: Entry, records: seq<ShapeRecord>): seq<Coord>
  {
    var polygons := if e.countries.Some? then Filter(territory, Flatten(MatchedRings(rev, e.countries.value, records))) else [];
    polygons + e.locations.GetOr([])
  }

  /** A point is collected exactly when it is an explicit location, or it lies on
      a ring of a record named in `countries` and the territory keeps it. */
  lemma CollectedMembers(rev: Revision, territory: string, e: Entry, records: seq<ShapeRecord>, c: Coord)
    ensures c in Collected(rev, territory, e, records) <==>
              || (e.locations.Some? && c in e.locations.value)
              || (&& e.countries.Some? && Kept(territory, c)
                  && exists record, ring | record in records && ring in record.rings ::
                       RecordName(rev, record) in e.countries.value && c in ring)
  {
    if e.countries.Some? {
      var rings := MatchedRings(rev, e.countries.value, records);
      MatchedRingsMembers(rev, e.countries.value, records);
      FlattenMembers(rings);
      FilterMembers(territory, Flatten(rings));
      if c in Flatten(rings) {
        var ring :| ring in rings && c in ring;
        var record :| record in records && RecordName(rev, record) in e.countries.value && ring in record.rings;
      }
      if exists record, ring | record in records && ring in record.rings :: RecordName(rev, record) in e.countries.value && c in ring {
        var record, ring :| record in records && ring in record.rings && RecordName(rev, record) in e.countries.value && c in ring;
        assert ring in rings;
      }
    }
  }

  /** The British Antarctic Territory's points from the shapes all lie within
      `-80 <= lon <= -20`; its explicit locations follow them unfiltered. */
  lemma BatBounds(rev: Revision, e: Entry, records: seq<ShapeRecord>)
    requires e.countries.Some?
    ensures var cs := Collected(rev, BAT, e, records);
            var locs := e.locations.GetOr([]);
            && |locs| <= |cs| && cs[|cs| - |locs|..] == locs
            && forall k | 0 <= k < |cs| - |locs| :: -80.0 <= cs[k].lon <= -20.0
  {
    var cs := Collected(rev, BAT, e, records);
    var polygons := Filter(BAT, Flatten(MatchedRings(rev, e.countries.value, records)));
    FilterMembers(BAT, Flatten(MatchedRings(rev, e.countries.value, records)));
    forall k | 0 <= k < |cs| - |e.locations.GetOr([])| ensures -80.0 <= cs[k].lon <= -20.0 {
      assert cs[k] == polygons[k];
      assert polygons[k] in polygons;
    }
  }

  /** Every other territory keeps all the matched rings' points, in ring order,
      followed by its explicit locations. */
  lemma OthersKeepEverything(rev: Revision, territory: string, e: Entry, records: seq<ShapeRecord>)
    requires territory != BAT
    requires e.countries.Some?
    ensures Collected(rev, territory, e, records)
            == Flatten(MatchedRings(rev, e.countries.value, records)) + e.locations.GetOr([])
  {
  }

  /** A territory without `countries` gets exactly its locations. */
  lemma NoCountries(rev: Revision, territory: string, e: Entry, records: seq<ShapeRecord>)
    requires e.countries.None?
    ensures Collected(rev, territory, e, records) == e.locations.GetOr([])
  {
  }

  /** A record whose name is not listed contributes nothing: removing it from
      the input leaves every territory's points unchanged. */
  lemma {:induction false} UnlistedRecordIgnored(rev: Revision, countries: seq<string>,
                                                 before: seq<ShapeRecord>, r: ShapeRecord, after: seq<ShapeRecord>)
    requires RecordName(rev, r) !in countries
    ensures MatchedRings(rev, countries, before + [r] + after) == MatchedRings(rev, countries, before + after)
    decreases |after|
  {
    if after == [] {
      assert (before + [r] + after)[..|before| + 1 - 1] == before;
      assert before + after == before;
    } else {
      var a' := after[..|after| - 1];
      var x := after[|after| - 1];
      assert (before + [r] + after)[..|before + [r] + after| - 1] == before + [r] + a';
      assert (before + after)[..|before + after| - 1] == before + a';
      assert (before + [r] + after)[|before + [r] + after| - 1] == x;
      assert (before + after)[|before + after| - 1] == x;
      UnlistedRecordIgnored(rev, countries, before, r, a');
    }
  }

  /** `entry` with `coords` set to `cs`, every other key as it was. */
  function WithCoords(m: map<string, Entry>, territory: string, cs: seq<Coord>): map<string, Entry>
    requires territory in m
  {
    m[territory := m[territory].(coords := Some(cs))]
  }

  lemma WithCoordsTwice(m: map<string, Entry>, territory: string, a: seq<Coord>, b: seq<Coord>)
    requires territory in m
    ensures WithCoords(WithCoords(m, territory, a), territory, b) == WithCoords(m, territory, b)
  {
  }

  lemma WithCoordsSame(m: map<string, Entry>, territory: string)
    requires territory in m && m[territory].coords.Some?
    ensures WithCoords(m, territory, m[territory].coords.value) == m
  {
  }

  /** Appending `extra` to `coords` that were `start + p` gives `coords` equal
      to `start + q`, when `q` is `p + extra`. */
  lemma Advance(m0: map<string, Entry>, mid: map<string, Entry>, m1: map<string, Entry>, territory: string,
                start: seq<Coord>, p: seq<Coord>, extra: seq<Coord>, q: seq<Coord>)
    requires territory in m0 && q == p + extra
    requires mid == WithCoords(m0, territory, start + p)
    requires m1 == WithCoords(mid, territory, mid[territory].coords.value + extra)
    ensures m1 == WithCoords(m0, territory, start + q)
  {
    assert start + p + extra == start + q;
  }

  /** One pass of the loop over records keeps `coords` equal to what it held
      before the loop followed by the points of the records visited so far. */
  lemma RecordAdvance(m0: map<string, Entry>, mid: map<string, Entry>, m1: map<string, Entry>, territory: string,
                      start: seq<Coord>, rev: Revision, countries: seq<string>, records: seq<ShapeRecord>, r: nat)
    requires territory in m0 && r < |records|
    requires mid == WithCoords(m0, territory, start + Filter(territory, Flatten(MatchedRings(rev, countries, records[..r]))))
    requires m1 == WithCoords(mid, territory, mid[territory].coords.value + Contribution(rev, territory, countries, records[r]))
    ensures m1 == WithCoords(m0, territory, start + Filter(territory, Flatten(MatchedRings(rev, countries, records[..r + 1]))))
  {
    RecordStep(rev, territory, countries, records, r);
    Advance(m0, mid, m1, territory, start,
            Filter(territory, Flatten(MatchedRings(rev, countries, records[..r]))),
            Contribution(rev, territory, countries, records[r]),
            Filter(territory, Flatten(MatchedRings(rev, countries, records[..r + 1]))));
  }

  // ---------------------------------------------------------------------------
  // The dictionary of territories, filled in place.

  class TerritoryDb {
    var territories: map<string, Entry>

    constructor ()
      ensures territories == ToMap(TABLE)
    {
      territories := ToMap(TABLE);
    }

    /** `territories[territory]["coords"].append(c)`. */
    method Append(territory: string, c: Coord)
      requires territory in territories && territories[territory].coords.Some?
      modifies this
      ensures territories == WithCoords(old(territories), territory, old(territories)[territory].coords.value + [c])
    {
      territories := WithCoords(territories, territory, territories[territory].coords.value + [c]);
    }

    /** The points of one ring, the British Antarctic Territory's filtered by longitude. */
    method CollectRing(territory: string, ring: seq<Coord>)
      requires territory in territories && territories[territory].coords.Some?
      modifies this
      ensures territories == WithCoords(old(territories), territory,
                                        old(territories)[territory].coords.value + Filter(territory, ring))
    {
      ghost var start := territories[territory].coords.value;
      WithCoordsSame(territories, territory);
      assert ring[..0] == [];
      assert start + [] == start;
      assert territories == WithCoords(old(territories), territory, start + Filter(territory, ring[..0]));
      for k := 0 to |ring|
        invariant territory in territories
        invariant territories == WithCoords(old(territories), territory, start + Filter(territory, ring[..k]))
      {
        var c := ring[k];
        assert ring[..k + 1][..k] == ring[..k];
        ghost var before := start + Filter(territory, ring[..k]);
        assert territories[territory].coords.value == before;
        assert before + (if Kept(territory, c) then [c] else []) == start + Filter(territory, ring[..k + 1]);
        ghost var after := start + Filter(territory, ring[..k + 1]);
        if territory == BAT {
          if -80.0 <= c.lon <= -20.0 {
            Append(territory, c);
            WithCoordsTwice(old(territories), territory, before, after);
          } else {
            assert after == before;
          }
        } else {
          Append(territory, c);
          WithCoordsTwice(old(territories), territory, before, after);
        }
      }
      assert ring[..|ring|] == ring;
    }

    /** The exterior rings of one listed record, one after another. */
    method CollectRings(territory: string, rings: seq<seq<Coord>>)
      requires territory in territories && territories[territory].coords.Some?
      modifies this
      ensures territories == WithCoords(old(territories), territory,
                                        old(territories)[territory].coords.value + Filter(territory, Flatten(rings)))
    {
      ghost var start := territories[territory].coords.value;
      WithCoordsSame(territories, territory);
      assert rings[..0] == [];
      assert start + [] == start;
      for g := 0 to |rings|
        invariant territory in territories
        invariant territories == WithCoords(old(territories), territory, start + Filter(territory, Flatten(rings[..g])))
      {
        assert rings[..g + 1][..g] == rings[..g];
        ghost var before := start + Filter(territory, Flatten(rings[..g]));
        ghost var after := start + Filter(territory, Flatten(rings[..g + 1]));
        assert Flatten(rings[..g + 1]) == Flatten(rings[..g]) + rings[g];
        FilterAppend(territory, Flatten(rings[..g]), rings[g]);
        assert after == before + Filter(territory, rings[g]);
        assert territories[territory].coords.value == before;
        CollectRing(territory, rings[g]);
        WithCoordsTwice(old(territories), territory, before, after);
      }
      assert rings[..|rings|] == rings;
    }

    /** One record: skipped unless its name is listed, else all its rings. */
    method CollectRecord(rev: Revision, territory: string, countries: seq<string>, record: ShapeRecord)
      requires territory in territories && territories[territory].coords.Some?
      modifies this
      ensures territories == WithCoords(old(territories), territory,
                                        old(territories)[territory].coords.value
                                        + Contribution(rev, territory, countries, record))
    {
      if RecordName(rev, record) !in countries {
        WithCoordsSame(territories, territory);
        assert territories[territory].coords.value + [] == territories[territory].coords.value;
        return;
      }
      CollectRings(territory, record.rings);
    }

    /** The loop over records: the rings of every record whose name is listed. */
    method CollectRecords(rev: Revision, territory: string, countries: seq<string>, records: seq<ShapeRecord>)
      requires territory in territories && territories[territory].coords.Some?
      modifies this
      ensures territories == WithCoords(old(territories), territory,
                                        old(territories)[territory].coords.value
                                        + Filter(territory, Flatten(MatchedRings(rev, countries, records))))
    {
      ghost var start := territories[territory].coords.value;
      WithCoordsSame(territories, territory);
      assert records[..0] == [];
      assert start + [] == start;
      for r := 0 to |records|
        invariant territory in territories
        invariant territories == WithCoords(old(territories), territory,
                                            start + Filter(territory, Flatten(MatchedRings(rev, countries, records[..r]))))
      {
        ghost var mid := territories;
        CollectRecord(rev, territory, countries, records[r]);
        RecordAdvance(old(territories), mid, territories, territory, start, rev, countries, records, r);
      }
      assert records[..|records|] == records;
    }

    /** The loop over the explicit locations. */
    method CollectLocations(territory: string, locs: seq<Coord>)
      requires territory in territories && territories[territory].coords.Some?
      modifies this
      ensures territories == WithCoords(old(territories), territory,
                                        old(territories)[territory].coords.value + locs)
    {
      ghost var start := territories[territory].coords.value;
      WithCoordsSame(territories, territory);
      assert locs[..0] == [];
      assert start + [] == start;
      for l := 0 to |locs|
        invariant territory in territories
        invariant territories == WithCoords(old(territories), territory, start + locs[..l])
      {
        assert start + locs[..l + 1] == start + locs[..l] + [locs[l]];
        Append(territory, locs[l]);
        WithCoordsTwice(old(territories), territory, start + locs[..l], start + locs[..l + 1]);
      }
      assert locs[..|locs|] == locs;
    }

    /** The body of the loop over territories: reset `coords`, collect the
        polygons of the listed countries, then append the explicit locations. */
    method Collect(rev: Revision, territory: string, records: seq<ShapeRecord>)
      requires territory in territories
      modifies this
      ensures territories == WithCoords(old(territories), territory,
                                        Collected(rev, territory, old(territories)[territory], records))
    {
      var e := territories[territory];
      territories := WithCoords(territories, territory, []);
      ghost var polygons: seq<Coord> := [];
      if e.countries.Some? {
        CollectRecords(rev, territory, e.countries.value, records);
        polygons := Filter(territory, Flatten(MatchedRings(rev, e.countries.value, records)));
        assert [] + polygons == polygons;
        WithCoordsTwice(old(territories), territory, [], polygons);
      }
      assert territories == WithCoords(old(territories), territory, polygons);
      if e.locations.Some? {
        CollectLocations(territory, e.locations.value);
        WithCoordsTwice(old(territories), territory, polygons, polygons + e.locations.value);
      } else {
        assert polygons + [] == polygons;
      }
    }

    /** The loop over territories in the given visiting order. Each territory's
        `coords` depends on its own entry only, so the order does not matter;
        all other keys of every entry are left as they were. */
    method CollectAll(rev: Revision, order: seq<string>, records: seq<ShapeRecord>)
      requires forall t :: t in territories <==> t in order
      modifies this
      ensures territories.Keys == old(territories).Keys
      ensures forall t | t in territories ::
                territories[t] == old(territories)[t].(coords := Some(Collected(rev, t, old(territories)[t], records)))
    {
      for k := 0 to |order|
        invariant territories.Keys == old(territories).Keys
        invariant forall t | t in territories ::
                    territories[t] == if t in order[..k]
                                      then old(territories)[t].(coords := Some(Collected(rev, t, old(territories)[t], records)))
                                      else old(territories)[t]
      {
        assert order[k] in order;
        assert order[..k + 1] == order[..k] + [order[k]];
        Collect(rev, order[k], records);
      }
      assert order[..|order|] == order;
    }
  }

  /** `create_db`: build the table, then collect every territory's points, in
      sorted-name order (package) or in the table's written order (script). */
  method CreateDb(rev: Revision, records: seq<ShapeRecord>) returns (db: TerritoryDb)
    ensures fresh(db)
    ensures db.territories.Keys == ToMap(TABLE).Keys
    ensures forall t | t in db.territories ::
              db.territories[t] == ToMap(TABLE)[t].(coords := Some(Collected(rev, t, ToMap(TABLE)[t], records)))
    ensures forall i | 0 <= i < |TABLE| ::
              && TABLE[i].0 in db.territories
              && db.territories[TABLE[i].0] == TABLE[i].1.(coords := Some(Collected(rev, TABLE[i].0, TABLE[i].1, records)))
  {
    db := new TerritoryDb();
    SortedNamesEnumerateTable();
    TableEntries();
    var order := if rev == Package then SORTED_NAMES else Names(TABLE);
    db.CollectAll(rev, order, records);
  }
}
