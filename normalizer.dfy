/** get_ec2_instances_prices: the walk over decoded price feeds that turns
    them into one catalogue of price records.  Each nested loop of the
    original is a method proved equal to a specification function; the
    functions fold over their list with `FlatMapResult`, so a Python
    exception (KeyError, AssertionError, ValueError) is an `Err` that stops
    the walk exactly where the original would raise. */
module Normalizer {
  import opened Wrappers
  import opened PyText
  import opened Tables
  import opened Feed

  /** A value of a price field: None, a float, or a string. */
  datatype Cell = Null | Num(value: real) | Str(text: string)

  /** Python truthiness of a cell. */
  predicate Truthy(c: Cell) {
    match c
    case Null => false
    case Num(x) => x != 0.0
    case Str(s) => s != []
  }

  /** none_as_string: every falsy value becomes the empty string. */
  function NoneAsString(v: Cell): (r: Cell)
    ensures r != Null && Truthy(r) == Truthy(v)
    ensures Truthy(v) ==> r == v
    ensures !Truthy(v) ==> r == Str("")
  {
    if !Truthy(v) then Str("") else v
  }

  /** One entry of a record's `prices` object: its key and the `hourly` and
      `upfront_perGB` fields. */
  datatype Term = Term(name: string, hourly: Cell, upfrontPerGB: Cell)

  /** A price record.  `price` is `None` when the record has no `price` key
      (reserved records). */
  datatype Record = Record(instanceType: string, os: string, utilization: string, price: Option<Cell>, prices: seq<Term>)

  datatype RegionEntry = RegionEntry(region: string, instanceTypes: seq<Record>)

  datatype Catalogue = Catalogue(currency: string, unit: string, regions: seq<RegionEntry>)

  datatype Error = KeyError(key: string) | AssertionError | ValueError(text: string)

  /** The `type` argument: which family of feeds is being read. */
  datatype FeedType = OnDemand | Reserved | Spot | Emr | Elb {
    function Name(): string {
      match this
      case OnDemand => "ondemand"
      case Reserved => "reserved"
      case Spot => "spot"
      case Emr => "emr"
      case Elb => "elb"
    }
  }

  /** The four optional filters, `None` where the caller passed None. */
  datatype Filters = Filters(region: Option<string>, instanceType: Option<string>,
                             instanceTypePattern: Option<string>, osType: Option<string>)

  /** What the loops over one feed read besides the feed: the feed type, the
      filters (region filter already translated), and the per-URL `os_type`
      and `utilization_type` (only read for reserved feeds). */
  datatype Context = Context(feed: FeedType, filters: Filters, osType: string, utilization: string)

  // ---------------------------------------------------------------------
  // Cells and instance types

  /** The price of a column: KeyError when the column has no price in the
      default currency; None for an empty or unparsable cell. */
  function CellPrice(col: PriceColumn): (r: Result<Cell, Error>)
    ensures r.Ok? <==> DefaultCurrency in col.prices
    ensures r.Err? ==> r.error == KeyError(DefaultCurrency)
    ensures r.Ok? ==> match r.value
                      case Num(x) => ParseFloat(col.prices[DefaultCurrency]) == Some(x)
                      case Null => ParseFloat(col.prices[DefaultCurrency]) == None
                      case Str(_) => false
  {
    if DefaultCurrency !in col.prices then Err(KeyError(DefaultCurrency))
    else
      var text := col.prices[DefaultCurrency];
      if text == [] then Ok(Null)
      else match ParseFloat(text)
        case Some(x) => Ok(Num(x))
        case None => Ok(Null)
  }

  /** The instance type a size entry is filed under: `cc1.8xlarge` is renamed
      `cc2.8xlarge`, then a type containing `*` loses every `*` and its
      surrounding whitespace. */
  function CanonicalInstanceType(size: string): (r: string)
    ensures '*' !in r
    ensures size == "cc1.8xlarge" ==> r == "cc2.8xlarge"
    ensures '*' !in size && size != "cc1.8xlarge" ==> r == size
    ensures '*' in size ==> forall c :: c in r ==> c in size
    ensures '*' in size ==> r == [] || (!IsSpace(r[0]) && !IsSpace(r[|r| - 1]))
    ensures '*' in size ==> r == Strip(RemoveAll(size, '*'))
  {
    var t := if size == "cc1.8xlarge" then "cc2.8xlarge" else size;
    if '*' in t then
      assert t == size by { assert '*' !in "cc2.8xlarge"; }
      Strip(RemoveAll(t, '*'))
    else t
  }

  /** A starred type such as `r3.large *` is the text around the star with
      the outer whitespace stripped: nothing else is dropped or reordered. */
  lemma CanonicalOfStarred(a: string, b: string)
    requires '*' !in a && '*' !in b
    ensures CanonicalInstanceType(a + "*" + b) == Strip(a + b)
  {
    var size := a + "*" + b;
    assert size[|a|] == '*';
    calc {
      RemoveAll(size, '*');
      { RemoveAllAppend(a + "*", b, '*'); }
      RemoveAll(a + "*", '*') + RemoveAll(b, '*');
      { RemoveAllAppend(a, "*", '*'); }
      RemoveAll(a, '*') + RemoveAll("*", '*') + RemoveAll(b, '*');
      { assert RemoveAll("*", '*') == []; }
      a + b;
    }
  }

  // ---------------------------------------------------------------------
  // Records of one size entry

  /** An on-demand, spot or emr record: the price under the feed type's own
      key, with an empty `upfront_perGB`. */
  function PlainRecord(t: string, os: string, feed: FeedType, price: Cell): Record {
    Record(t, os, feed.Name(), Some(price), [Term(feed.Name(), price, NoneAsString(Num(0.0)))])
  }

  /** The emr loop: a record for each column named `emr`. */
  function EmrColumnRecords(ctx: Context, t: string, col: PriceColumn): Result<seq<Record>, Error> {
    if col.name != "emr" then Ok([])
    else
      var price :- CellPrice(col);
      Ok([PlainRecord(t, "emr", ctx.feed, price)])
  }

  function EmrColumnRecordsFn(ctx: Context, t: string): PriceColumn -> Result<seq<Record>, Error> {
    col => EmrColumnRecords(ctx, t, col)
  }

  /** The OS a generic record is filed under: outside spot feeds a column
      named `os` is renamed `test`. */
  function ColumnOs(feed: FeedType, name: string): (os: string)
    ensures feed != Spot ==> os != "os"
    ensures name != "os" || feed == Spot ==> os == name
  {
    if feed != Spot && name == "os" then "test" else name
  }

  /** The generic loop, for a non-reserved feed: a record per column whose
      OS passes the OS filter. */
  function ColumnRecords(ctx: Context, t: string, col: PriceColumn): Result<seq<Record>, Error> {
    var price :- CellPrice(col);
    var os := ColumnOs(ctx.feed, col.name);
    if ctx.filters.osType.Some? && os != ctx.filters.osType.value then Ok([])
    else Ok([PlainRecord(t, os, ctx.feed, price)])
  }

  function ColumnRecordsFn(ctx: Context, t: string): PriceColumn -> Result<seq<Record>, Error> {
    col => ColumnRecords(ctx, t, col)
  }

  /** The four price fields of a reserved record. */
  datatype ReservedCells = ReservedCells(oneYearHourly: Cell, oneYearUpfront: Cell, threeYearHourly: Cell, threeYearUpfront: Cell)

  const NoReservedCells := ReservedCells(Null, Null, Null, Null)

  /** The field a column named `name` fills; other names fill nothing. */
  function Assign(cells: ReservedCells, name: string, price: Cell): ReservedCells {
    if name == "yrTerm1" then cells.(oneYearUpfront := price)
    else if name == "yrTerm1Hourly" then cells.(oneYearHourly := price)
    else if name == "yrTerm3" then cells.(threeYearUpfront := price)
    else if name == "yrTerm3Hourly" then cells.(threeYearHourly := price)
    else cells
  }

  /** The generic loop, for a reserved feed: every column's price is read,
      and the `yrTerm*` columns fill the record's fields, later ones winning. */
  function ReservedFill(cols: seq<PriceColumn>): Result<ReservedCells, Error> {
    if cols == [] then Ok(NoReservedCells)
    else
      var cells :- ReservedFill(cols[..|cols| - 1]);
      var price :- CellPrice(cols[|cols| - 1]);
      Ok(Assign(cells, cols[|cols| - 1].name, price))
  }

  function ReservedRecord(ctx: Context, t: string, cells: ReservedCells): Record {
    Record(t, ctx.osType, ctx.utilization, None,
           [Term("1year", cells.oneYearHourly, cells.oneYearUpfront),
            Term("3year", cells.threeYearHourly, cells.threeYearUpfront)])
  }

  /** Whether the instance-type filters let type `t` through; a pattern
      filter naming no table entry is a KeyError. */
  function TypeFilter(f: Filters, t: string): Result<bool, Error> {
    if f.instanceType.Some? && t != f.instanceType.value then Ok(false)
    else if f.instanceTypePattern.None? then Ok(true)
    else if f.instanceTypePattern.value !in Ec2InstanceTypesPattern then Err(KeyError(f.instanceTypePattern.value))
    else Ok(PatternMatches(Ec2InstanceTypesPattern[f.instanceTypePattern.value], t))
  }

  /** The records of one size entry, in the order they are appended. */
  function SizeRecords(ctx: Context, s: SizeEntry): Result<seq<Record>, Error> {
    var t := CanonicalInstanceType(s.size);
    var pass :- TypeFilter(ctx.filters, t);
    if !pass then Ok([])
    else
      var emr :- if ctx.feed == Emr then FlatMapResult(s.valueColumns, EmrColumnRecordsFn(ctx, t)) else Ok([]);
      if ctx.feed == Reserved then
        var cells :- ReservedFill(s.valueColumns);
        Ok(emr + [ReservedRecord(ctx, t, cells)])
      else
        var generic :- FlatMapResult(s.valueColumns, ColumnRecordsFn(ctx, t));
        Ok(emr + generic)
  }

  function SizeRecordsFn(ctx: Context): SizeEntry -> Result<seq<Record>, Error> {
    s => SizeRecords(ctx, s)
  }

  // ---------------------------------------------------------------------
  // ELB blocks, families, regions, feeds

  /** `float(prices[currency])` without a guard: KeyError or ValueError. */
  function StrictPrice(prices: map<string, string>): (r: Result<real, Error>)
    ensures r.Ok? <==> DefaultCurrency in prices && ParseFloat(prices[DefaultCurrency]).Some?
    ensures r.Ok? ==> ParseFloat(prices[DefaultCurrency]) == Some(r.value)
  {
    if DefaultCurrency !in prices then Err(KeyError(DefaultCurrency))
    else match ParseFloat(prices[DefaultCurrency])
      case Some(x) => Ok(x)
      case None => Err(ValueError(prices[DefaultCurrency]))
  }

  /** The record of an ELB family block. */
  function ElbRecord(values: seq<RateEntry>): (r: Result<Record, Error>)
    ensures r == Err(AssertionError) <==>
              |values| != 2 || values[0].rate != "perELBHour" || values[1].rate != "perGBProcessed"
    ensures r.Ok? ==> r.value.instanceType == "elb" && r.value.os == "elb" && r.value.utilization == "elb"
    ensures r.Ok? ==> |values| == 2 && StrictPrice(values[0].prices).Ok? && StrictPrice(values[1].prices).Ok?
    ensures r.Ok? ==> var hour, gb := StrictPrice(values[0].prices).value, StrictPrice(values[1].prices).value;
                      r.value.price == Some(Num(hour)) && r.value.prices == [Term("perGBProcessed", Num(hour), Num(gb))]
    ensures r.Ok? <==> |values| == 2 && values[0].rate == "perELBHour" && values[1].rate == "perGBProcessed" &&
                       StrictPrice(values[0].prices).Ok? && StrictPrice(values[1].prices).Ok?
    ensures r.Err? && r != Err(AssertionError) ==>
              |values| == 2 &&
              r.error == (if StrictPrice(values[0].prices).Err? then StrictPrice(values[0].prices).error
                          else StrictPrice(values[1].prices).error)
  {
    if |values| != 2 || values[0].rate != "perELBHour" || values[1].rate != "perGBProcessed" then Err(AssertionError)
    else
      var hour :- StrictPrice(values[0].prices);
      var gb :- StrictPrice(values[1].prices);
      Ok(Record("elb", "elb", "elb", Some(Num(hour)), [Term("perGBProcessed", Num(hour), Num(gb))]))
  }

  /** The records of one family: its sizes, or its ELB block, or nothing. */
  function FamilyRecords(ctx: Context, fam: Family): Result<seq<Record>, Error> {
    if fam.sizes.Some? then FlatMapResult(fam.sizes.value, SizeRecordsFn(ctx))
    else if fam.values.Some? then
      var rec :- ElbRecord(fam.values.value);
      Ok([rec])
    else Ok([])
  }

  function FamilyRecordsFn(ctx: Context): Family -> Result<seq<Record>, Error> {
    fam => FamilyRecords(ctx, fam)
  }

  /** The families of a region block, under `instanceTypes` or `types`. */
  function BlockFamilies(b: RegionBlock): Option<seq<Family>> {
    if b.instanceTypes.Some? then b.instanceTypes else b.types
  }

  /** The entry a region block contributes: none for a block without a
      region, filtered out, or without families; KeyError for a region the
      translation table does not know.  The canonical name is looked up a
      second time when the entry is built. */
  function RegionEntries(ctx: Context, b: RegionBlock): (r: Result<seq<RegionEntry>, Error>)
    ensures r.Ok? ==> |r.value| <= 1
  {
    if b.region.None? || b.region.value == [] then Ok([])
    else if ctx.filters.region.Some? && ctx.filters.region.value != b.region.value then Ok([])
    else if b.region.value !in JsonNameToEc2RegionsApi then Err(KeyError(b.region.value))
    else
      var name := JsonNameToEc2RegionsApi[b.region.value];
      match BlockFamilies(b)
      case None => Ok([])
      case Some(fams) =>
        var recs :- FlatMapResult(fams, FamilyRecordsFn(ctx));
        if name !in JsonNameToEc2RegionsApi then Err(KeyError(name))
        else Ok([RegionEntry(JsonNameToEc2RegionsApi[name], recs)])
  }

  function RegionEntriesFn(ctx: Context): RegionBlock -> Result<seq<RegionEntry>, Error> {
    b => RegionEntries(ctx, b)
  }

  /** The per-URL `os_type` and `utilization_type`: KeyError for a URL the
      tables of its feed type do not list. */
  function UrlTypes(feed: FeedType, u: string): (r: Result<(string, string), Error>)
    ensures r.Err? <==> || (feed == OnDemand && u !in InstancesOnDemandOsTypeByUrl)
                        || (feed == Reserved && (u !in InstancesReservedUtilizationTypeByUrl || u !in InstancesReservedOsTypeByUrl))
    ensures r.Ok? && feed == OnDemand ==> r.value.0 == InstancesOnDemandOsTypeByUrl[u]
    ensures r.Ok? && feed == Reserved ==> r.value == (InstancesReservedOsTypeByUrl[u], InstancesReservedUtilizationTypeByUrl[u])
    ensures r.Ok? && feed != Reserved ==> r.value.1 == feed.Name()
  {
    if feed == OnDemand then
      if u in InstancesOnDemandOsTypeByUrl then Ok((InstancesOnDemandOsTypeByUrl[u], feed.Name()))
      else Err(KeyError(u))
    else if feed == Reserved then
      if u !in InstancesReservedUtilizationTypeByUrl || u !in InstancesReservedOsTypeByUrl then Err(KeyError(u))
      else Ok((InstancesReservedOsTypeByUrl[u], InstancesReservedUtilizationTypeByUrl[u]))
    else Ok(("", feed.Name()))
  }

  /** Whether a URL is skipped for the OS filter before it is loaded. */
  predicate SkipsUrl(feed: FeedType, f: Filters, os: string) {
    (feed == OnDemand || feed == Reserved) && f.osType.Some? && os != f.osType.value
  }

  /** The entries of one feed URL; `load` stands for fetching and decoding it. */
  function UrlEntries(feed: FeedType, f: Filters, load: string -> Document, u: string): Result<seq<RegionEntry>, Error> {
    var types :- UrlTypes(feed, u);
    if SkipsUrl(feed, f, types.0) then Ok([])
    else
      var doc := load(u);
      if !HasRegions(doc) then Ok([])
      else FlatMapResult(doc.config.value.regions.value, RegionEntriesFn(Context(feed, f, types.0, types.1)))
  }

  function UrlEntriesFn(feed: FeedType, f: Filters, load: string -> Document): string -> Result<seq<RegionEntry>, Error> {
    u => UrlEntries(feed, f, load, u)
  }

  /** The region filter as the feeds spell it: spot feeds use the feed
      labels (KeyError for an id the table lacks); reserved feeds use the
      canonical ids except `us-east`. */
  function TranslateRegionFilter(feed: FeedType, region: Option<string>): (r: Result<Option<string>, Error>)
    ensures r.Err? <==> feed == Spot && region.Some? && region.value !in Ec2RegionsApiToJsonName
    ensures r.Ok? ==> (r.value.Some? <==> region.Some?)
    ensures r.Ok? && region.Some? && region.value in Ec2RegionsApiToJsonName && (feed == Spot || (feed == Reserved && region.value == "us-east-1"))
            ==> r.value == Some(Ec2RegionsApiToJsonName[region.value])
    ensures feed != Spot && !(feed == Reserved && region == Some("us-east-1")) ==> r == Ok(region)
  {
    if feed == Spot && region.Some? then
      if region.value in Ec2RegionsApiToJsonName then Ok(Some(Ec2RegionsApiToJsonName[region.value]))
      else Err(KeyError(region.value))
    else if feed == Reserved && region == Some("us-east-1") then Ok(Some(Ec2RegionsApiToJsonName["us-east-1"]))
    else Ok(region)
  }

  const Unit := "perhr"

  /** get_ec2_instances_prices over the list of feed URLs. */
  function Normalize(urls: seq<string>, feed: FeedType, f: Filters, load: string -> Document): Result<Catalogue, Error> {
    var region :- TranslateRegionFilter(feed, f.region);
    var entries :- FlatMapResult(urls, UrlEntriesFn(feed, f.(region := region), load));
    Ok(Catalogue(DefaultCurrency, Unit, entries))
  }

  // ---------------------------------------------------------------------
  // The loops

  /** The body of the loop over `sizes`: the emr loop, then the loop over
      `valueColumns` that either fills the reserved record or appends one
      record per column. */
  method CollectSize(ctx: Context, s: SizeEntry) returns (r: Result<seq<Record>, Error>)
    ensures r == SizeRecords(ctx, s)
  {
    var t := CanonicalInstanceType(s.size);
    var pass := TypeFilter(ctx.filters, t);
    if pass.Err? || !pass.value {
      return if pass.Err? then Err(pass.error) else Ok([]);
    }
    var emr: seq<Record> := [];
    if ctx.feed == Emr {
      var more := CollectEmrColumns(ctx, t, s.valueColumns);
      if more.Err? {
        return Err(more.error);
      }
      emr := more.value;
    }
    var rest := CollectColumns(ctx, t, s.valueColumns);
    if rest.Err? {
      return Err(rest.error);
    }
    r := Ok(emr + rest.value);
  }

  /** The EMR feed's first pass over `valueColumns`. */
  method CollectEmrColumns(ctx: Context, t: string, cols: seq<PriceColumn>) returns (r: Result<seq<Record>, Error>)
    ensures r == FlatMapResult(cols, EmrColumnRecordsFn(ctx, t))
  {
    var records: seq<Record> := [];
    var i := 0;
    while i < |cols|
      invariant 0 <= i <= |cols|
      invariant FlatMapResult(cols[..i], EmrColumnRecordsFn(ctx, t)) == Ok(records)
    {
      FlatMapResultStep(cols, i, EmrColumnRecordsFn(ctx, t));
      var more := EmrColumnRecords(ctx, t, cols[i]);
      if more.Err? {
        FlatMapResultErrSticks(cols, i + 1, EmrColumnRecordsFn(ctx, t));
        return Err(more.error);
      }
      records := records + more.value;
      i := i + 1;
    }
    assert cols[..i] == cols;
    r := Ok(records);
  }

  /** The pass over `valueColumns` every feed makes: the reserved feed fills
      one record's cells, the others append a record per kept column. */
  method CollectColumns(ctx: Context, t: string, cols: seq<PriceColumn>) returns (r: Result<seq<Record>, Error>)
    ensures ctx.feed == Reserved ==>
              r == (match ReservedFill(cols)
                    case Ok(cells) => Ok([ReservedRecord(ctx, t, cells)])
                    case Err(e) => Err(e))
    ensures ctx.feed != Reserved ==> r == FlatMapResult(cols, ColumnRecordsFn(ctx, t))
  {
    var records: seq<Record> := [];
    var cells := NoReservedCells;
    var i := 0;
    while i < |cols|
      invariant 0 <= i <= |cols|
      invariant ctx.feed == Reserved ==> ReservedFill(cols[..i]) == Ok(cells) && records == []
      invariant ctx.feed != Reserved ==> FlatMapResult(cols[..i], ColumnRecordsFn(ctx, t)) == Ok(records)
    {
      assert cols[..i + 1][..i] == cols[..i];
      FlatMapResultStep(cols, i, ColumnRecordsFn(ctx, t));
      assert ColumnRecordsFn(ctx, t)(cols[i]) == ColumnRecords(ctx, t, cols[i]);
      var price := CellPrice(cols[i]);
      if price.Err? {
        if ctx.feed == Reserved {
          ReservedFillErrSticks(cols, i + 1);
        } else {
          FlatMapResultErrSticks(cols, i + 1, ColumnRecordsFn(ctx, t));
        }
        return Err(price.error);
      }
      if ctx.feed == Reserved {
        cells := Assign(cells, cols[i].name, price.value);
      } else {
        var os := ColumnOs(ctx.feed, cols[i].name);
        if !(ctx.filters.osType.Some? && os != ctx.filters.osType.value) {
          assert ColumnRecords(ctx, t, cols[i]) == Ok([PlainRecord(t, os, ctx.feed, price.value)]);
          records := records + [PlainRecord(t, os, ctx.feed, price.value)];
        } else {
          assert ColumnRecords(ctx, t, cols[i]) == Ok([]);
          assert records + [] == records;
        }
      }
      i := i + 1;
    }
    assert cols[..i] == cols;
    if ctx.feed == Reserved {
      records := [ReservedRecord(ctx, t, cells)];
    }
    r := Ok(records);
  }

  lemma {:induction false} ReservedFillErrSticks(cols: seq<PriceColumn>, i: nat)
    requires i <= |cols|
    requires ReservedFill(cols[..i]).Err?
    ensures ReservedFill(cols) == ReservedFill(cols[..i])
    decreases |cols| - i
  {
    if i < |cols| {
      assert cols[..i + 1][..i] == cols[..i];
      ReservedFillErrSticks(cols, i + 1);
    } else {
      assert cols[..i] == cols;
    }
  }

  /** The loop over a region's families, with the loop over each family's
      sizes inside it. */
  /** The size loop of one family: the records of its sizes in order, or
      the first error. */
  method CollectSizes(ctx: Context, sizes: seq<SizeEntry>) returns (r: Result<seq<Record>, Error>)
    ensures r == FlatMapResult(sizes, SizeRecordsFn(ctx))
  {
    var acc: seq<Record> := [];
    var j := 0;
    while j < |sizes|
      invariant 0 <= j <= |sizes|
      invariant FlatMapResult(sizes[..j], SizeRecordsFn(ctx)) == Ok(acc)
    {
      FlatMapResultStep(sizes, j, SizeRecordsFn(ctx));
      var one := CollectSize(ctx, sizes[j]);
      if one.Err? {
        FlatMapResultErrSticks(sizes, j + 1, SizeRecordsFn(ctx));
        return Err(one.error);
      }
      acc := acc + one.value;
      j := j + 1;
    }
    assert sizes[..j] == sizes;
    r := Ok(acc);
  }

  method CollectFamilies(ctx: Context, fams: seq<Family>) returns (r: Result<seq<Record>, Error>)
    ensures r == FlatMapResult(fams, FamilyRecordsFn(ctx))
  {
    var records: seq<Record> := [];
    var i := 0;
    while i < |fams|
      invariant 0 <= i <= |fams|
      invariant FlatMapResult(fams[..i], FamilyRecordsFn(ctx)) == Ok(records)
    {
      FlatMapResultStep(fams, i, FamilyRecordsFn(ctx));
      var fam := fams[i];
      var more: Result<seq<Record>, Error>;
      if fam.sizes.Some? {
        more := CollectSizes(ctx, fam.sizes.value);
        if more.Err? {
          FlatMapResultErrSticks(fams, i + 1, FamilyRecordsFn(ctx));
          return Err(more.error);
        }
      } else if fam.values.Some? {
        var elb := ElbRecord(fam.values.value);
        if elb.Err? {
          FlatMapResultErrSticks(fams, i + 1, FamilyRecordsFn(ctx));
          return Err(elb.error);
        }
        more := Ok([elb.value]);
      } else {
        more := Ok([]);
      }
      records := records + more.value;
      i := i + 1;
    }
    assert fams[..i] == fams;
    r := Ok(records);
  }

  /** The loop over a feed's region blocks. */
  method CollectRegions(ctx: Context, blocks: seq<RegionBlock>) returns (r: Result<seq<RegionEntry>, Error>)
    ensures r == FlatMapResult(blocks, RegionEntriesFn(ctx))
  {
    var entries: seq<RegionEntry> := [];
    var i := 0;
    while i < |blocks|
      invariant 0 <= i <= |blocks|
      invariant FlatMapResult(blocks[..i], RegionEntriesFn(ctx)) == Ok(entries)
    {
      FlatMapResultStep(blocks, i, RegionEntriesFn(ctx));
      assert entries + [] == entries;
      var b := blocks[i];
      i := i + 1;
      if b.region.None? || b.region.value == [] {
        continue;
      }
      if ctx.filters.region.Some? && ctx.filters.region.value != b.region.value {
        continue;
      }
      if b.region.value !in JsonNameToEc2RegionsApi {
        FlatMapResultErrSticks(blocks, i, RegionEntriesFn(ctx));
        return Err(KeyError(b.region.value));
      }
      var regionName := JsonNameToEc2RegionsApi[b.region.value];
      var fams := BlockFamilies(b);
      if fams.None? {
        continue;
      }
      var recs := CollectFamilies(ctx, fams.value);
      if recs.Err? {
        FlatMapResultErrSticks(blocks, i, RegionEntriesFn(ctx));
        return Err(recs.error);
      }
      if regionName !in JsonNameToEc2RegionsApi {
        FlatMapResultErrSticks(blocks, i, RegionEntriesFn(ctx));
        return Err(KeyError(regionName));
      }
      entries := entries + [RegionEntry(JsonNameToEc2RegionsApi[regionName], recs.value)];
    }
    assert blocks[..i] == blocks;
    r := Ok(entries);
  }

  /** get_ec2_instances_prices: the filter translation, then the loop over
      the feed URLs. */
  method GetEc2InstancesPrices(urls: seq<string>, feed: FeedType, f: Filters, load: string -> Document)
    returns (r: Result<Catalogue, Error>)
    ensures r == Normalize(urls, feed, f, load)
  {
    var region := TranslateRegionFilter(feed, f.region);
    if region.Err? {
      return Err(region.error);
    }
    var filters := f.(region := region.value);
    var entries: seq<RegionEntry> := [];
    var i := 0;
    while i < |urls|
      invariant 0 <= i <= |urls|
      invariant FlatMapResult(urls[..i], UrlEntriesFn(feed, filters, load)) == Ok(entries)
    {
      FlatMapResultStep(urls, i, UrlEntriesFn(feed, filters, load));
      assert entries + [] == entries;
      var u := urls[i];
      i := i + 1;
      var types := UrlTypes(feed, u);
      if types.Err? {
        FlatMapResultErrSticks(urls, i, UrlEntriesFn(feed, filters, load));
        return Err(types.error);
      }
      var (osType, utilization) := types.value;
      if SkipsUrl(feed, filters, osType) {
        continue;
      }
      var doc := load(u);
      if !HasRegions(doc) {
        continue;
      }
      var more := CollectRegions(Context(feed, filters, osType, utilization), doc.config.value.regions.value);
      if more.Err? {
        FlatMapResultErrSticks(urls, i, UrlEntriesFn(feed, filters, load));
        return Err(more.error);
      }
      entries := entries + more.value;
    }
    assert urls[..i] == urls;
    r := Ok(Catalogue(DefaultCurrency, Unit, entries));
  }

  // ---------------------------------------------------------------------
  // Reserved records

  predicate AllPriced(cols: seq<PriceColumn>) {
    forall k :: 0 <= k < |cols| ==> DefaultCurrency in cols[k].prices
  }

  /** The price of the last column named `tag`; None when no column has it. */
  function LastTagged(cols: seq<PriceColumn>, tag: string): Cell
    requires AllPriced(cols)
  {
    if cols == [] then Null
    else if cols[|cols| - 1].name == tag then CellPrice(cols[|cols| - 1]).value
    else LastTagged(cols[..|cols| - 1], tag)
  }

  /** The reserved fields hold the last `yrTerm1Hourly`, `yrTerm1`,
      `yrTerm3Hourly` and `yrTerm3` cells; the fill fails exactly when some
      column has no price in the default currency. */
  lemma {:induction false} ReservedFillLastTagged(cols: seq<PriceColumn>)
    ensures ReservedFill(cols).Ok? <==> AllPriced(cols)
    ensures AllPriced(cols) ==>
              ReservedFill(cols).value == ReservedCells(LastTagged(cols, "yrTerm1Hourly"), LastTagged(cols, "yrTerm1"),
                                                        LastTagged(cols, "yrTerm3Hourly"), LastTagged(cols, "yrTerm3"))
  {
    if cols != [] {
      var init := cols[..|cols| - 1];
      ReservedFillLastTagged(init);
      if AllPriced(cols) {
        assert AllPriced(init);
      } else if AllPriced(init) {
        assert DefaultCurrency !in cols[|cols| - 1].prices;
      }
    }
  }

  /** A reserved size entry that passes the type filters yields exactly one
      record, filed under the URL's OS and utilization, whose fields hold the
      last tagged cells. */
  lemma ReservedSizeYieldsOneRecord(ctx: Context, s: SizeEntry)
    requires ctx.feed == Reserved && AllPriced(s.valueColumns)
    requires TypeFilter(ctx.filters, CanonicalInstanceType(s.size)) == Ok(true)
    ensures var cols := s.valueColumns;
            SizeRecords(ctx, s) ==
              Ok([Record(CanonicalInstanceType(s.size), ctx.osType, ctx.utilization, None,
                         [Term("1year", LastTagged(cols, "yrTerm1Hourly"), LastTagged(cols, "yrTerm1")),
                          Term("3year", LastTagged(cols, "yrTerm3Hourly"), LastTagged(cols, "yrTerm3"))])])
  {
    var t := CanonicalInstanceType(s.size);
    ReservedFillLastTagged(s.valueColumns);
    var rec := ReservedRecord(ctx, t, ReservedFill(s.valueColumns).value);
    assert [] + [rec] == [rec];
  }

  // ---------------------------------------------------------------------
  // What every output record satisfies

  /** A record of an ELB block. */
  predicate IsElbRecord(rec: Record) {
    rec.instanceType == "elb" && rec.os == "elb" && rec.utilization == "elb"
    && rec.price.Some? && |rec.prices| == 1 && rec.prices[0].name == "perGBProcessed"
  }

  /** The instance-type filters hold for type `t`. */
  predicate TypeAdmitted(f: Filters, t: string) {
    && (f.instanceType.Some? ==> t == f.instanceType.value)
    && (f.instanceTypePattern.Some? ==>
          f.instanceTypePattern.value in Ec2InstanceTypesPattern
          && PatternMatches(Ec2InstanceTypesPattern[f.instanceTypePattern.value], t))
  }

  /** A non-reserved record: its price filed under the feed type, with an
      empty `upfront_perGB`; outside spot feeds never under OS `os`; and, with
      an OS filter, under the filtered OS unless it is an emr record. */
  predicate PlainShape(feed: FeedType, f: Filters, rec: Record) {
    && rec.utilization == feed.Name() && rec.price.Some?
    && rec.prices == [Term(feed.Name(), rec.price.value, Str(""))]
    && (feed != Spot ==> rec.os != "os")
    && (f.osType.Some? ==> rec.os == f.osType.value || (feed == Emr && rec.os == "emr"))
  }

  /** A reserved record: no `price`, `1year` and `3year` terms. */
  predicate ReservedShape(rec: Record) {
    rec.price.None? && |rec.prices| == 2 && rec.prices[0].name == "1year" && rec.prices[1].name == "3year"
  }

  /** What a record produced under context `ctx` satisfies. */
  predicate RecordOk(ctx: Context, rec: Record) {
    IsElbRecord(rec) ||
    (&& '*' !in rec.instanceType && TypeAdmitted(ctx.filters, rec.instanceType)
     && (ctx.feed == Reserved ==> ReservedShape(rec) && rec.os == ctx.osType && rec.utilization == ctx.utilization)
     && (ctx.feed != Reserved ==> PlainShape(ctx.feed, ctx.filters, rec)))
  }

  lemma TypeFilterAdmits(f: Filters, t: string)
    requires TypeFilter(f, t) == Ok(true)
    ensures TypeAdmitted(f, t)
  {
  }

  lemma {:induction false} SizeRecordsOk(ctx: Context, s: SizeEntry)
    ensures SizeRecords(ctx, s).Ok? ==> forall rec :: rec in SizeRecords(ctx, s).value ==> RecordOk(ctx, rec)
  {
    var t := CanonicalInstanceType(s.size);
    if TypeFilter(ctx.filters, t) == Ok(true) {
      TypeFilterAdmits(ctx.filters, t);
      var P := rec => RecordOk(ctx, rec);
      assert NoneAsString(Num(0.0)) == Str("");
      if ctx.feed == Emr {
        forall col | col in s.valueColumns && EmrColumnRecordsFn(ctx, t)(col).Ok?
          ensures forall rec :: rec in EmrColumnRecordsFn(ctx, t)(col).value ==> P(rec)
        {
          assert EmrColumnRecordsFn(ctx, t)(col) == EmrColumnRecords(ctx, t, col);
          forall rec | rec in EmrColumnRecords(ctx, t, col).value
            ensures P(rec)
          {
            assert RecordOk(ctx, rec);
          }
        }
      }
      if ctx.feed != Reserved {
        forall col | col in s.valueColumns && ColumnRecordsFn(ctx, t)(col).Ok?
          ensures forall rec :: rec in ColumnRecordsFn(ctx, t)(col).value ==> P(rec)
        {
          assert ColumnRecordsFn(ctx, t)(col) == ColumnRecords(ctx, t, col);
          forall rec | rec in ColumnRecords(ctx, t, col).value
            ensures P(rec)
          {
            assert RecordOk(ctx, rec);
          }
        }
      }
      if ctx.feed == Emr {
        FlatMapResultAll(s.valueColumns, EmrColumnRecordsFn(ctx, t), P);
      }
      if ctx.feed != Reserved {
        FlatMapResultAll(s.valueColumns, ColumnRecordsFn(ctx, t), P);
      }
    }
  }

  lemma {:induction false} FamilyRecordsOk(ctx: Context, fam: Family)
    ensures FamilyRecords(ctx, fam).Ok? ==> forall rec :: rec in FamilyRecords(ctx, fam).value ==> RecordOk(ctx, rec)
  {
    if fam.sizes.Some? {
      forall s | s in fam.sizes.value
        ensures SizeRecords(ctx, s).Ok? ==> forall rec :: rec in SizeRecords(ctx, s).value ==> RecordOk(ctx, rec)
      {
        SizeRecordsOk(ctx, s);
      }
      FlatMapResultAll(fam.sizes.value, SizeRecordsFn(ctx), rec => RecordOk(ctx, rec));
    }
  }

  /** What an entry produced under context `ctx` satisfies: its region is a
      canonical id, the one the region filter names when there is one, and
      every record satisfies `RecordOk`. */
  predicate EntryOk(ctx: Context, e: RegionEntry) {
    && e.region in JsonNameToEc2RegionsApi && JsonNameToEc2RegionsApi[e.region] == e.region
    && (ctx.filters.region.Some? ==>
          ctx.filters.region.value in JsonNameToEc2RegionsApi && e.region == JsonNameToEc2RegionsApi[ctx.filters.region.value])
    && forall rec :: rec in e.instanceTypes ==> RecordOk(ctx, rec)
  }

  lemma {:induction false} RegionEntriesOk(ctx: Context, b: RegionBlock)
    ensures RegionEntries(ctx, b).Ok? ==> forall e :: e in RegionEntries(ctx, b).value ==> EntryOk(ctx, e)
  {
    if b.region.Some? && b.region.value in JsonNameToEc2RegionsApi && BlockFamilies(b).Some? {
      var fams := BlockFamilies(b).value;
      forall fam | fam in fams
        ensures FamilyRecords(ctx, fam).Ok? ==> forall rec :: rec in FamilyRecords(ctx, fam).value ==> RecordOk(ctx, rec)
      {
        FamilyRecordsOk(ctx, fam);
      }
      FlatMapResultAll(fams, FamilyRecordsFn(ctx), rec => RecordOk(ctx, rec));
      CanonicalIdsAreFixedPoints();
    }
  }

  /** What a record of the finished catalogue satisfies, in terms of the
      feed type and the (translated) filters alone: ELB records aside, its
      type has no `*` and passes the type filters; a reserved record is filed
      under the OS and utilization of one reserved URL, the filtered OS when
      there is one; a non-reserved record has the plain shape. */
  predicate CatalogueRecordOk(feed: FeedType, f: Filters, rec: Record) {
    IsElbRecord(rec) ||
    (&& '*' !in rec.instanceType && TypeAdmitted(f, rec.instanceType)
     && (feed == Reserved ==>
           && ReservedShape(rec)
           && (exists u :: u in InstancesReservedOsTypeByUrl && u in InstancesReservedUtilizationTypeByUrl
                           && rec.os == InstancesReservedOsTypeByUrl[u] && rec.utilization == InstancesReservedUtilizationTypeByUrl[u])
           && (f.osType.Some? ==> rec.os == f.osType.value))
     && (feed != Reserved ==> PlainShape(feed, f, rec)))
  }

  predicate CatalogueEntryOk(feed: FeedType, f: Filters, e: RegionEntry) {
    && e.region in JsonNameToEc2RegionsApi && JsonNameToEc2RegionsApi[e.region] == e.region
    && (f.region.Some? ==> f.region.value in JsonNameToEc2RegionsApi && e.region == JsonNameToEc2RegionsApi[f.region.value])
    && forall rec :: rec in e.instanceTypes ==> CatalogueRecordOk(feed, f, rec)
  }

  lemma {:induction false} UrlEntriesOk(feed: FeedType, f: Filters, load: string -> Document, u: string)
    ensures UrlEntries(feed, f, load, u).Ok? ==>
              forall e :: e in UrlEntries(feed, f, load, u).value ==> CatalogueEntryOk(feed, f, e)
  {
    var types := UrlTypes(feed, u);
    if types.Ok? && !SkipsUrl(feed, f, types.value.0) && HasRegions(load(u)) {
      var ctx := Context(feed, f, types.value.0, types.value.1);
      var blocks := load(u).config.value.regions.value;
      forall b | b in blocks
        ensures RegionEntries(ctx, b).Ok? ==> forall e :: e in RegionEntries(ctx, b).value ==> EntryOk(ctx, e)
      {
        RegionEntriesOk(ctx, b);
      }
      FlatMapResultAll(blocks, RegionEntriesFn(ctx), e => EntryOk(ctx, e));
      if UrlEntries(feed, f, load, u).Ok? {
        forall e | e in UrlEntries(feed, f, load, u).value
          ensures CatalogueEntryOk(feed, f, e)
        {
          assert EntryOk(ctx, e);
          forall rec | rec in e.instanceTypes
            ensures CatalogueRecordOk(feed, f, rec)
          {
            assert RecordOk(ctx, rec);
          }
        }
      }
    }
  }

  /** Every entry of a successful catalogue satisfies `CatalogueEntryOk`
      under the translated region filter; currency and unit are fixed. */
  lemma NormalizeOutputOk(urls: seq<string>, feed: FeedType, f: Filters, load: string -> Document)
    ensures var r := Normalize(urls, feed, f, load);
            r.Ok? ==>
              && r.value.currency == "USD" && r.value.unit == "perhr"
              && var f' := f.(region := TranslateRegionFilter(feed, f.region).value);
                 forall e :: e in r.value.regions ==> CatalogueEntryOk(feed, f', e)
  {
    var region := TranslateRegionFilter(feed, f.region);
    if region.Ok? {
      var f' := f.(region := region.value);
      forall u | u in urls
        ensures UrlEntries(feed, f', load, u).Ok? ==>
                  forall e :: e in UrlEntries(feed, f', load, u).value ==> CatalogueEntryOk(feed, f', e)
      {
        UrlEntriesOk(feed, f', load, u);
      }
      FlatMapResultAll(urls, UrlEntriesFn(feed, f', load), e => CatalogueEntryOk(feed, f', e));
    }
  }

  // ---------------------------------------------------------------------
  // Individual behaviours

  /** An ELB family block yields its one record, or the assertion error,
      whatever the filters. */
  lemma ElbBlockIgnoresFilters(ctx: Context, fam: Family)
    requires fam.sizes.None? && fam.values.Some?
    ensures FamilyRecords(ctx, fam) == match ElbRecord(fam.values.value) case Ok(rec) => Ok([rec]) case Err(e) => Err(e)
  {
  }

  /** In an emr feed without filters, a size entry whose only column is
      `emr` yields the emr record twice: once from the emr loop and once from
      the generic loop. */
  lemma EmrColumnRecordedTwice(ctx: Context, s: SizeEntry)
    requires ctx.feed == Emr && ctx.filters == Filters(None, None, None, None)
    requires |s.valueColumns| == 1 && s.valueColumns[0].name == "emr" && DefaultCurrency in s.valueColumns[0].prices
    ensures var rec := PlainRecord(CanonicalInstanceType(s.size), "emr", Emr, CellPrice(s.valueColumns[0]).value);
            SizeRecords(ctx, s) == Ok([rec, rec])
  {
    var cols := s.valueColumns;
    var t := CanonicalInstanceType(s.size);
    var rec := PlainRecord(t, "emr", Emr, CellPrice(cols[0]).value);
    assert cols[..0] == [] && cols[..1] == cols;
    assert FlatMapResult(cols[..0], EmrColumnRecordsFn(ctx, t)) == Ok([]);
    assert FlatMapResult(cols[..0], ColumnRecordsFn(ctx, t)) == Ok([]);
    FlatMapResultStep(cols, 0, EmrColumnRecordsFn(ctx, t));
    FlatMapResultStep(cols, 0, ColumnRecordsFn(ctx, t));
    assert EmrColumnRecords(ctx, t, cols[0]) == Ok([rec]);
    assert ColumnRecords(ctx, t, cols[0]) == Ok([rec]);
    assert [] + [rec] == [rec];
    assert TypeFilter(ctx.filters, t) == Ok(true);
    assert FlatMapResult(cols, EmrColumnRecordsFn(ctx, t)) == Ok([rec]);
    assert FlatMapResult(cols, ColumnRecordsFn(ctx, t)) == Ok([rec]);
    assert [rec] + [rec] == [rec, rec];
  }

  /** A feed region the translation table does not know, reached by the
      region filter, is a KeyError. */
  lemma UnknownFeedRegionFails(ctx: Context, b: RegionBlock)
    requires b.region.Some? && b.region.value != [] && b.region.value !in JsonNameToEc2RegionsApi
    requires ctx.filters.region.None? || ctx.filters.region.value == b.region.value
    ensures RegionEntries(ctx, b) == Err(KeyError(b.region.value))
  {
  }

  /** A known region that passes the region filter and has families gives
      one entry under its canonical id: the second lookup of that id returns
      it unchanged. */
  lemma KnownRegionEntry(ctx: Context, b: RegionBlock)
    requires b.region.Some? && b.region.value != [] && b.region.value in JsonNameToEc2RegionsApi
    requires ctx.filters.region.None? || ctx.filters.region.value == b.region.value
    requires BlockFamilies(b).Some? && FlatMapResult(BlockFamilies(b).value, FamilyRecordsFn(ctx)).Ok?
    ensures RegionEntries(ctx, b) ==
              Ok([RegionEntry(JsonNameToEc2RegionsApi[b.region.value],
                              FlatMapResult(BlockFamilies(b).value, FamilyRecordsFn(ctx)).value)])
  {
    CanonicalIdsAreFixedPoints();
  }
}
