/** Catalogue assembly: merge_instances, the per-type dispatch of _get_data
    and its region → type → utilization index. */
module Assembly {
  import opened Wrappers
  import opened Tables
  import opened Feed
  import opened Normalizer

  /** The `data` dictionary _get_data builds: `config` and a `regions` list
      that merge_instances appends to in place. */
  class PriceData {
    var currency: string
    var unit: string
    var regions: seq<RegionEntry>

    constructor ()
      ensures currency == DefaultCurrency && unit == Unit && regions == []
    {
      currency := DefaultCurrency;
      unit := Unit;
      regions := [];
    }

    function Value(): Catalogue
      reads this
    {
      Catalogue(currency, unit, regions)
    }
  }

  /** merge_instances: appends `toMerge`'s regions to `data`'s, in order,
      and returns `data` itself. */
  method MergeInstances(data: PriceData, toMerge: Catalogue) returns (r: PriceData)
    modifies data
    ensures r == data
    ensures data.regions == old(data.regions) + toMerge.regions
    ensures data.currency == old(data.currency) && data.unit == old(data.unit)
  {
    var i := 0;
    while i < |toMerge.regions|
      invariant 0 <= i <= |toMerge.regions|
      invariant data.regions == old(data.regions) + toMerge.regions[..i]
      invariant data.currency == old(data.currency) && data.unit == old(data.unit)
    {
      assert toMerge.regions[..i + 1] == toMerge.regions[..i] + [toMerge.regions[i]];
      data.regions := data.regions + [toMerge.regions[i]];
      i := i + 1;
    }
    assert toMerge.regions[..i] == toMerge.regions;
    r := data;
  }

  // ---------------------------------------------------------------------
  // The region -> type -> utilization index

  type Index = map<string, map<string, map<string, Record>>>

  /** A region's dictionary, created empty when the region is new. */
  function OpenRegion(idx: Index, region: string): (r: Index)
    ensures r.Keys == idx.Keys + {region}
    ensures region in idx ==> r == idx
  {
    if region in idx then idx else idx[region := map[]]
  }

  /** Files one record of `region`: AssertionError when its type already
      holds its utilization. */
  function AddRecord(idx: Index, region: string, rec: Record): (r: Result<Index, Error>)
    requires region in idx
    ensures r.Ok? ==> r.value.Keys == idx.Keys
  {
    var types := idx[region];
    var utils := if rec.instanceType in types then types[rec.instanceType] else map[];
    if rec.utilization in utils then Err(AssertionError)
    else Ok(idx[region := types[rec.instanceType := utils[rec.utilization := rec]]])
  }

  /** The inner loop over one entry's records. */
  function AddRecords(idx: Index, region: string, recs: seq<Record>): (r: Result<Index, Error>)
    requires region in idx
    ensures r.Ok? ==> r.value.Keys == idx.Keys
  {
    if recs == [] then Ok(idx)
    else
      var prev :- AddRecords(idx, region, recs[..|recs| - 1]);
      AddRecord(prev, region, recs[|recs| - 1])
  }

  /** The index of a list of region entries. */
  function RegionIndex(entries: seq<RegionEntry>): (r: Result<Index, Error>)
  {
    if entries == [] then Ok(map[])
    else
      var prev :- RegionIndex(entries[..|entries| - 1]);
      var e := entries[|entries| - 1];
      AddRecords(OpenRegion(prev, e.region), e.region, e.instanceTypes)
  }

  lemma {:induction false} AddRecordsErrSticks(idx: Index, region: string, recs: seq<Record>, j: nat)
    requires region in idx && j <= |recs|
    requires AddRecords(idx, region, recs[..j]).Err?
    ensures AddRecords(idx, region, recs).Err?
    decreases |recs| - j
  {
    if j < |recs| {
      assert recs[..j + 1][..j] == recs[..j];
      AddRecordsErrSticks(idx, region, recs, j + 1);
    } else {
      assert recs[..j] == recs;
    }
  }

  lemma {:induction false} RegionIndexErrSticks(entries: seq<RegionEntry>, i: nat)
    requires i <= |entries|
    requires RegionIndex(entries[..i]).Err?
    ensures RegionIndex(entries) == Err(AssertionError)
    decreases |entries| - i
  {
    RegionIndexErrIsAssertion(entries[..i]);
    if i < |entries| {
      assert entries[..i + 1][..i] == entries[..i];
      RegionIndexErrSticks(entries, i + 1);
    } else {
      assert entries[..i] == entries;
    }
  }

  lemma {:induction false} AddRecordsErrIsAssertion(idx: Index, region: string, recs: seq<Record>)
    requires region in idx
    ensures AddRecords(idx, region, recs).Err? ==> AddRecords(idx, region, recs).error == AssertionError
  {
    if recs != [] {
      AddRecordsErrIsAssertion(idx, region, recs[..|recs| - 1]);
    }
  }

  lemma {:induction false} RegionIndexErrIsAssertion(entries: seq<RegionEntry>)
    ensures RegionIndex(entries).Err? ==> RegionIndex(entries).error == AssertionError
  {
    if entries != [] {
      var init := entries[..|entries| - 1];
      RegionIndexErrIsAssertion(init);
      if RegionIndex(init).Ok? {
        var e := entries[|entries| - 1];
        AddRecordsErrIsAssertion(OpenRegion(RegionIndex(init).value, e.region), e.region, e.instanceTypes);
      }
    }
  }

  /** AddRecord as _get_data performs it: create the type's dictionary if
      it is missing, check the utilization is new, store the record. */
  lemma AddRecordInPlace(idx: Index, region: string, rec: Record)
    requires region in idx
    ensures var types := idx[region];
            var types' := if rec.instanceType in types then types else types[rec.instanceType := map[]];
            && (AddRecord(idx, region, rec).Err? <==> rec.utilization in types'[rec.instanceType])
            && (AddRecord(idx, region, rec).Ok? ==>
                  AddRecord(idx, region, rec).value
                  == idx[region := types'[rec.instanceType := types'[rec.instanceType][rec.utilization := rec]]])
  {
    var types := idx[region];
    var types' := if rec.instanceType in types then types else types[rec.instanceType := map[]];
    var utils := if rec.instanceType in types then types[rec.instanceType] else map[];
    var expected := types[rec.instanceType := utils[rec.utilization := rec]];
    var actual := types'[rec.instanceType := types'[rec.instanceType][rec.utilization := rec]];
    assert actual.Keys == expected.Keys;
    assert forall k | k in actual :: actual[k] == expected[k];
    assert actual == expected;
  }

  /** The index loop of _get_data. */
  method BuildIndex(entries: seq<RegionEntry>) returns (r: Result<Index, Error>)
    ensures r == RegionIndex(entries)
  {
    var regions: Index := map[];
    var i := 0;
    while i < |entries|
      invariant 0 <= i <= |entries|
      invariant RegionIndex(entries[..i]) == Ok(regions)
    {
      var e := entries[i];
      RegionIndexSnoc(entries, i, regions);
      if e.region !in regions {
        regions := regions[e.region := map[]];
      }
      var filed := FileRecords(regions, e.region, e.instanceTypes);
      if filed.Err? {
        RegionIndexErrSticks(entries, i + 1);
        return Err(AssertionError);
      }
      regions := filed.value;
      i := i + 1;
    }
    assert entries[..i] == entries;
    r := Ok(regions);
  }

  lemma RegionIndexSnoc(entries: seq<RegionEntry>, i: nat, idx: Index)
    requires i < |entries| && RegionIndex(entries[..i]) == Ok(idx)
    ensures RegionIndex(entries[..i + 1])
            == AddRecords(OpenRegion(idx, entries[i].region), entries[i].region, entries[i].instanceTypes)
  {
    assert entries[..i + 1][..i] == entries[..i];
  }

  /** The inner loop of the index: one region entry's records, each filed
      under its type and utilization. */
  method FileRecords(idx: Index, region: string, recs: seq<Record>) returns (r: Result<Index, Error>)
    requires region in idx
    ensures r == AddRecords(idx, region, recs)
  {
    var regions := idx;
    var j := 0;
    while j < |recs|
      invariant 0 <= j <= |recs|
      invariant region in regions
      invariant AddRecords(idx, region, recs[..j]) == Ok(regions)
    {
      assert recs[..j + 1][..j] == recs[..j];
      var t := recs[j];
      AddRecordInPlace(regions, region, t);
      var types := regions[region];
      if t.instanceType !in types {
        types := types[t.instanceType := map[]];
      }
      if t.utilization in types[t.instanceType] {
        AddRecordsErrSticks(idx, region, recs, j + 1);
        AddRecordsErrIsAssertion(idx, region, recs);
        return Err(AssertionError);
      }
      types := types[t.instanceType := types[t.instanceType][t.utilization := t]];
      regions := regions[region := types];
      j := j + 1;
    }
    assert recs[..j] == recs;
    r := Ok(regions);
  }

  // ---------------------------------------------------------------------
  // The index is correct

  /** A record together with the region it is filed under. */
  datatype Placed = Placed(region: string, rec: Record)

  /** The index key of a placed record. */
  function Key(p: Placed): (string, string, string) {
    (p.region, p.rec.instanceType, p.rec.utilization)
  }

  function EntryPlacements(e: RegionEntry): (ps: seq<Placed>)
    ensures |ps| == |e.instanceTypes|
    ensures forall k :: 0 <= k < |ps| ==> ps[k] == Placed(e.region, e.instanceTypes[k])
  {
    seq(|e.instanceTypes|, k requires 0 <= k < |e.instanceTypes| => Placed(e.region, e.instanceTypes[k]))
  }

  /** Every record of the entries, with its region, in order. */
  function Placements(entries: seq<RegionEntry>): seq<Placed> {
    if entries == [] then []
    else Placements(entries[..|entries| - 1]) + EntryPlacements(entries[|entries| - 1])
  }

  ghost predicate DistinctKeys(ps: seq<Placed>) {
    forall i, j :: 0 <= i < j < |ps| ==> Key(ps[i]) != Key(ps[j])
  }

  predicate Holds(idx: Index, region: string, t: string, u: string) {
    region in idx && t in idx[region] && u in idx[region][t]
  }

  /** `idx` holds exactly the keys of `ps`, each with its record. */
  ghost predicate Represents(idx: Index, ps: seq<Placed>) {
    && (forall region, t, u :: Holds(idx, region, t, u) ==>
          exists i :: 0 <= i < |ps| && Key(ps[i]) == (region, t, u))
    && (forall i :: 0 <= i < |ps| ==>
          Holds(idx, ps[i].region, ps[i].rec.instanceType, ps[i].rec.utilization)
          && idx[ps[i].region][ps[i].rec.instanceType][ps[i].rec.utilization] == ps[i].rec)
  }

  lemma DistinctKeysSnoc(ps: seq<Placed>, p: Placed)
    ensures DistinctKeys(ps + [p]) <==> DistinctKeys(ps) && forall i :: 0 <= i < |ps| ==> Key(ps[i]) != Key(p)
  {
    var qs := ps + [p];
    assert forall i :: 0 <= i < |ps| ==> qs[i] == ps[i];
    assert qs[|ps|] == p;
  }

  lemma AddRecordRepresents(idx: Index, ps: seq<Placed>, p: Placed)
    requires p.region in idx && Represents(idx, ps)
    ensures AddRecord(idx, p.region, p.rec).Err? <==> exists i :: 0 <= i < |ps| && Key(ps[i]) == Key(p)
    ensures AddRecord(idx, p.region, p.rec).Ok? ==> Represents(AddRecord(idx, p.region, p.rec).value, ps + [p])
  {
    var region, rec := p.region, p.rec;
    if AddRecord(idx, region, rec).Err? {
      assert Holds(idx, region, rec.instanceType, rec.utilization);
    } else {
      var idx' := AddRecord(idx, region, rec).value;
      var qs := ps + [p];
      forall i | 0 <= i < |ps| ensures Key(ps[i]) != Key(p) {
        assert Holds(idx, ps[i].region, ps[i].rec.instanceType, ps[i].rec.utilization);
      }
      forall region', t, u | Holds(idx', region', t, u)
        ensures exists i :: 0 <= i < |qs| && Key(qs[i]) == (region', t, u)
      {
        if (region', t, u) == Key(p) {
          assert Key(qs[|ps|]) == Key(p);
        } else {
          assert Holds(idx, region', t, u);
          var i :| 0 <= i < |ps| && Key(ps[i]) == (region', t, u);
          assert qs[i] == ps[i];
        }
      }
      forall i | 0 <= i < |qs|
        ensures Holds(idx', qs[i].region, qs[i].rec.instanceType, qs[i].rec.utilization)
             && idx'[qs[i].region][qs[i].rec.instanceType][qs[i].rec.utilization] == qs[i].rec
      {
        if i < |ps| {
          assert qs[i] == ps[i];
          assert Key(ps[i]) != Key(p);
        }
      }
    }
  }

  lemma {:induction false} AddRecordsRepresents(idx: Index, ps: seq<Placed>, region: string, recs: seq<Record>)
    requires region in idx && Represents(idx, ps) && DistinctKeys(ps)
    ensures AddRecords(idx, region, recs).Ok? <==> DistinctKeys(ps + EntryPlacements(RegionEntry(region, recs)))
    ensures AddRecords(idx, region, recs).Ok? ==>
              Represents(AddRecords(idx, region, recs).value, ps + EntryPlacements(RegionEntry(region, recs)))
  {
    var qs := ps + EntryPlacements(RegionEntry(region, recs));
    if recs == [] {
      assert qs == ps;
    } else {
      var init := recs[..|recs| - 1];
      var p := Placed(region, recs[|recs| - 1]);
      var qs' := ps + EntryPlacements(RegionEntry(region, init));
      assert qs == qs' + [p];
      AddRecordsRepresents(idx, ps, region, init);
      DistinctKeysSnoc(qs', p);
      if AddRecords(idx, region, init).Ok? {
        AddRecordRepresents(AddRecords(idx, region, init).value, qs', p);
      } else {
        assert !DistinctKeys(qs') && !DistinctKeys(qs);
      }
    }
  }

  lemma DistinctKeysPrefix(ps: seq<Placed>, qs: seq<Placed>)
    requires DistinctKeys(ps + qs)
    ensures DistinctKeys(ps)
  {
    var all := ps + qs;
    forall i, j | 0 <= i < j < |ps| ensures Key(ps[i]) != Key(ps[j]) {
      assert all[i] == ps[i] && all[j] == ps[j];
    }
  }

  lemma OpenRegionRepresents(idx: Index, ps: seq<Placed>, region: string)
    requires Represents(idx, ps)
    ensures Represents(OpenRegion(idx, region), ps)
  {
    var idx' := OpenRegion(idx, region);
    forall r, t, u | Holds(idx', r, t, u) ensures Holds(idx, r, t, u) { }
  }

  lemma RegionsSnoc(entries: seq<RegionEntry>)
    requires entries != []
    ensures (set x | x in entries :: x.region)
            == (set x | x in entries[..|entries| - 1] :: x.region) + {entries[|entries| - 1].region}
  {
    var init, e := entries[..|entries| - 1], entries[|entries| - 1];
    assert entries == init + [e];
    assert forall x :: x in entries <==> x in init || x == e;
  }

  lemma PlacementsSnoc(entries: seq<RegionEntry>)
    requires entries != []
    ensures Placements(entries) == Placements(entries[..|entries| - 1]) + EntryPlacements(entries[|entries| - 1])
  {
  }

  /** One more region entry on top of a correct index of the earlier ones. */
  lemma RegionIndexStep(prev: Index, ps: seq<Placed>, e: RegionEntry)
    requires Represents(prev, ps) && DistinctKeys(ps)
    ensures var next := AddRecords(OpenRegion(prev, e.region), e.region, e.instanceTypes);
            && (next.Ok? <==> DistinctKeys(ps + EntryPlacements(e)))
            && (next.Ok? ==> Represents(next.value, ps + EntryPlacements(e)) && next.value.Keys == prev.Keys + {e.region})
  {
    OpenRegionRepresents(prev, ps, e.region);
    AddRecordsRepresents(OpenRegion(prev, e.region), ps, e.region, e.instanceTypes);
    assert RegionEntry(e.region, e.instanceTypes) == e;
  }

  /** The index raises AssertionError exactly when two records share region,
      type and utilization; otherwise it has one dictionary per region of
      the entries and files every record under its key, and nothing else. */
  lemma {:induction false} RegionIndexCorrect(entries: seq<RegionEntry>)
    ensures RegionIndex(entries).Ok? <==> DistinctKeys(Placements(entries))
    ensures RegionIndex(entries).Err? ==> RegionIndex(entries).error == AssertionError
    ensures RegionIndex(entries).Ok? ==>
              && Represents(RegionIndex(entries).value, Placements(entries))
              && RegionIndex(entries).value.Keys == set e | e in entries :: e.region
  {
    RegionIndexErrIsAssertion(entries);
    if entries != [] {
      var init := entries[..|entries| - 1];
      var e := entries[|entries| - 1];
      RegionIndexCorrect(init);
      var ps := Placements(init);
      PlacementsSnoc(entries);
      if RegionIndex(init).Ok? {
        RegionIndexStep(RegionIndex(init).value, ps, e);
        RegionsSnoc(entries);
      } else if DistinctKeys(Placements(entries)) {
        DistinctKeysPrefix(ps, EntryPlacements(e));
      }
    }
  }

  /** Two records of one region with the same type and utilization (as the
      emr feed produces) make the index fail. */
  lemma DuplicateRecordBreaksIndex(region: string, rec: Record)
    ensures RegionIndex([RegionEntry(region, [rec, rec])]) == Err(AssertionError)
  {
    var entries := [RegionEntry(region, [rec, rec])];
    RegionIndexCorrect(entries);
    assert entries[..0] == [];
    var ps := Placements(entries);
    assert ps == [Placed(region, rec), Placed(region, rec)] by {
      assert Placements(entries[..0]) == [];
    }
    assert Key(ps[0]) == Key(ps[1]);
  }

  // ---------------------------------------------------------------------
  // _get_data

  /** The feed URLs the get_*_instances_prices wrappers pass. */
  function UrlsFor(feed: FeedType): (urls: seq<string>)
    ensures feed == Reserved ==> urls == ReservedUrls
    ensures feed == OnDemand ==> urls == OnDemandUrls
    ensures feed !in {Reserved, OnDemand} ==> |urls| == 1
  {
    match feed
    case OnDemand => OnDemandUrls
    case Reserved => ReservedUrls
    case Spot => [InstancesSpotInstanceUrl]
    case Elb => [InstancesElbUrl]
    case Emr => [InstancesUsedByEmrUrl]
  }

  /** get_ec2_ondemand/reserved/spot, get_elb and get_emr_instances_prices. */
  function Fetch(feed: FeedType, f: Filters, load: string -> Document): Result<Catalogue, Error> {
    Normalize(UrlsFor(feed), feed, f, load)
  }

  /** `--type` values that select one feed type. */
  function SingleFeed(t: string): Option<FeedType> {
    if t == "ondemand" then Some(OnDemand)
    else if t == "reserved" then Some(Reserved)
    else if t == "spot" then Some(Spot)
    else if t == "elb" then Some(Elb)
    else if t == "emr" then Some(Emr)
    else None
  }

  /** `--type` values that merge several feed types, in merge order. */
  function MergedFeeds(t: string): seq<FeedType> {
    if t == "spotordemand" then [OnDemand, Spot]
    else if t == "all" then [OnDemand, Reserved, Spot, Elb, Emr]
    else []
  }

  /** The `regions` list of one feed type's catalogue. */
  function FetchRegions(feed: FeedType, f: Filters, load: string -> Document): Result<seq<RegionEntry>, Error> {
    var c :- Fetch(feed, f, load);
    Ok(c.regions)
  }

  function FetchRegionsFn(f: Filters, load: string -> Document): FeedType -> Result<seq<RegionEntry>, Error> {
    feed => FetchRegions(feed, f, load)
  }

  /** The catalogues of several feed types merged into a fresh `data`. */
  function Merged(feeds: seq<FeedType>, f: Filters, load: string -> Document): Result<Catalogue, Error> {
    var regions :- FlatMapResult(feeds, FetchRegionsFn(f, load));
    Ok(Catalogue(DefaultCurrency, Unit, regions))
  }

  /** The catalogue _get_data returns for a `--type` value. */
  function CatalogueFor(t: string, f: Filters, load: string -> Document): Result<Catalogue, Error> {
    if SingleFeed(t).Some? then Fetch(SingleFeed(t).value, f, load)
    else Merged(MergedFeeds(t), f, load)
  }

  /** _get_data: the catalogue and its index. */
  function GetDataSpec(t: string, f: Filters, load: string -> Document): Result<(Catalogue, Index), Error> {
    var c :- CatalogueFor(t, f, load);
    var idx :- RegionIndex(c.regions);
    Ok((c, idx))
  }

  method GetPrices(feed: FeedType, f: Filters, load: string -> Document) returns (r: Result<Catalogue, Error>)
    ensures r == Fetch(feed, f, load)
  {
    r := GetEc2InstancesPrices(UrlsFor(feed), feed, f, load);
  }

  /** The merge_instances calls of _get_data, on a fresh `data`. */
  method MergeFeeds(feeds: seq<FeedType>, f: Filters, load: string -> Document) returns (r: Result<Catalogue, Error>)
    ensures r == Merged(feeds, f, load)
  {
    var data := new PriceData();
    var i := 0;
    while i < |feeds|
      invariant 0 <= i <= |feeds|
      invariant FlatMapResult(feeds[..i], FetchRegionsFn(f, load)) == Ok(data.regions)
      invariant fresh(data)
      invariant data.currency == DefaultCurrency && data.unit == Unit
    {
      FlatMapResultStep(feeds, i, FetchRegionsFn(f, load));
      assert FetchRegionsFn(f, load)(feeds[i]) == FetchRegions(feeds[i], f, load);
      var c := GetPrices(feeds[i], f, load);
      if c.Err? {
        FlatMapResultErrSticks(feeds, i + 1, FetchRegionsFn(f, load));
        return Err(c.error);
      }
      data := MergeInstances(data, c.value);
      i := i + 1;
    }
    assert feeds[..i] == feeds;
    r := Ok(data.Value());
  }

  /** _get_data: one feed type's catalogue, or several merged, then the
      index. */
  method GetData(t: string, f: Filters, load: string -> Document) returns (r: Result<(Catalogue, Index), Error>)
    ensures r == GetDataSpec(t, f, load)
  {
    var data: Result<Catalogue, Error>;
    var single := SingleFeed(t);
    if single.Some? {
      data := GetPrices(single.value, f, load);
    } else {
      data := MergeFeeds(MergedFeeds(t), f, load);
    }
    if data.Err? {
      return Err(data.error);
    }
    var idx := BuildIndex(data.value.regions);
    if idx.Err? {
      return Err(idx.error);
    }
    r := Ok((data.value, idx.value));
  }
}
