/** The PHP port, class EC2InstancePrices of ec2instancespricing.php: the
    older feed shape (type and size codes instead of type names), reserved
    prices grouped per region and on-demand prices per region block.

    PHP values are modelled as follows: a NULL is `None`; reading a missing
    array key yields NULL (`Get`); NULL concatenates as the empty string;
    NULL, "" and "0" are falsy (`Truthy`).  The feed documents are the
    decoded `Feed.Document` values the Python normalizer also reads. */
module PhpPrices {
  import opened Wrappers
  import opened PyText
  import opened Feed

  // ---------------------------------------------------------------------
  // PHP value rules

  /** `if ($v)` on a value that is NULL or a string. */
  predicate Truthy(v: Option<string>) {
    v.Some? && v.value != "" && v.value != "0"
  }

  /** `$array[$key]`: NULL (with a notice) for a NULL or missing key. */
  function Get(m: map<string, string>, key: Option<string>): (r: Option<string>)
    ensures r.Some? <==> key.Some? && key.value in m
    ensures r.Some? ==> r.value == m[key.value]
  {
    if key.Some? && key.value in m then Some(m[key.value]) else None
  }

  /** A value in string concatenation: NULL is "". */
  function Str(v: Option<string>): string {
    if v.Some? then v.value else ""
  }

  /** The whitespace floatval skips before a number. */
  predicate IsPhpSpace(c: char) {
    c == ' ' || c == '\t' || c == '\n' || c == '\r' || c == '\U{0B}' || c == '\U{0C}'
  }

  /** Length of the run of decimal digits at the front of `s`. */
  function DigitRun(s: string): (n: nat)
    ensures n <= |s|
    ensures AllDigits(s[..n])
    ensures n < |s| ==> !IsDigit(s[n])
  {
    if s == [] || !IsDigit(s[0]) then 0
    else
      var n := 1 + DigitRun(s[1..]);
      assert s[..n] == [s[0]] + s[1..][..n - 1];
      n
  }

  /** The longest `digits`, `digits.digits`, `digits.` or `.digits` at the
      front of `s` (possibly empty or just "."). */
  function NumericPrefix(s: string): (p: string)
    ensures |p| <= |s| && p == s[..|p|]
  {
    var w := DigitRun(s);
    if w < |s| && s[w] == '.' then s[..w + 1 + DigitRun(s[w + 1..])] else s[..w]
  }

  /** floatval: the number at the front of the text after leading
      whitespace, or 0 when there is none; floatval(NULL) is 0. */
  function FloatVal(v: Option<string>): real {
    if v.None? then 0.0 else FloatText(v.value)
  }

  function FloatText(t: string): real {
    if t != [] && IsPhpSpace(t[0]) then FloatText(t[1..])
    else
      var signed := t != [] && (t[0] == '+' || t[0] == '-');
      var body := if signed then t[1..] else t;
      match UnsignedDecimal(NumericPrefix(body))
      case Some(x) => if signed && t[0] == '-' then -x else x
      case None => 0.0
  }

  lemma {:induction false} DigitRunOfDigits(s: string, n: nat)
    requires n <= |s| && AllDigits(s[..n]) && (n < |s| ==> !IsDigit(s[n]))
    ensures DigitRun(s) == n
  {
    if n > 0 {
      assert s[..n][0] == s[0];
      var t := s[1..];
      assert t[..n - 1] == s[..n][1..];
      DigitRunOfDigits(t, n - 1);
    }
  }

  /** A whole decimal numeral is its own numeric prefix. */
  lemma NumericPrefixOfDecimal(b: string)
    requires UnsignedDecimal(b).Some?
    ensures NumericPrefix(b) == b
  {
    if '.' in b {
      var i := IndexOf(b, '.');
      assert b[..i] == b[..i];
      DigitRunOfDigits(b, i);
      var rest := b[i + 1..];
      assert rest[..|rest|] == rest;
      DigitRunOfDigits(rest, |rest|);
      assert b[..i + 1 + |rest|] == b;
    } else {
      assert b[..|b|] == b;
      DigitRunOfDigits(b, |b|);
    }
  }

  /** On a well-formed price cell floatval agrees with Python's float(). */
  lemma FloatValAgreesWithParseFloat(s: string)
    requires ParseFloat(s).Some?
    ensures FloatVal(Some(s)) == ParseFloat(s).value
  {
    assert !IsPhpSpace(s[0]) by {
      if s[0] != '+' && s[0] != '-' {
        if '.' in s {
          if IndexOf(s, '.') > 0 {
            assert AllDigits(s[..IndexOf(s, '.')]);
            assert s[..IndexOf(s, '.')][0] == s[0];
          }
        }
      }
    }
    if s[0] == '+' || s[0] == '-' {
      NumericPrefixOfDecimal(s[1..]);
    } else {
      NumericPrefixOfDecimal(s);
    }
  }

  /** Text with no number at its front reads as 0. */
  lemma FloatValOfNonNumeric(s: string)
    requires s != [] && !IsDigit(s[0]) && !IsPhpSpace(s[0]) && s[0] !in {'+', '-', '.'}
    ensures FloatVal(Some(s)) == 0.0
  {
    assert DigitRun(s) == 0;
    assert NumericPrefix(s) == [];
  }

  // ---------------------------------------------------------------------
  // The class's tables

  const DefaultCurrency: string := "USD"

  /** Feed region label (and canonical id) to canonical region id. */
  const JsonNameToEc2RegionsApi: map<string, string> := map[
    "us-east" := "us-east-1",
    "us-east-1" := "us-east-1",
    "us-west" := "us-west-1",
    "us-west-1" := "us-west-1",
    "us-west-2" := "us-west-2",
    "eu-ireland" := "eu-west-1",
    "eu-west-1" := "eu-west-1",
    "apac-sin" := "ap-southeast-1",
    "ap-southeast-1" := "ap-southeast-1",
    "ap-southeast-2" := "ap-southeast-2",
    "apac-syd" := "ap-southeast-2",
    "apac-tokyo" := "ap-northeast-1",
    "ap-northeast-1" := "ap-northeast-1",
    "sa-east-1" := "sa-east-1"
  ]

  /** Canonical region id to the label the feeds use. */
  const Ec2RegionsApiToJsonName: map<string, string> := map[
    "us-east-1" := "us-east",
    "us-west-1" := "us-west",
    "us-west-2" := "us-west-2",
    "eu-west-1" := "eu-ireland",
    "ap-southeast-1" := "apac-sin",
    "ap-southeast-2" := "apac-syd",
    "ap-northeast-1" := "apac-tokyo",
    "sa-east-1" := "sa-east-1"
  ]

  /** Family code of the older feeds to the type-name prefix. */
  const InstanceTypeMapping: seq<(string, string)> := [
    ("stdODI", "m1"),
    ("uODI", "t1"),
    ("hiMemODI", "m2"),
    ("hiCPUODI", "c1"),
    ("clusterComputeI", "cc1"),
    ("hiIoODI", "hi1"),
    ("stdResI", "m1"),
    ("uResI", "t1"),
    ("hiMemResI", "m2"),
    ("hiCPUResI", "c1"),
    ("clusterCompResI", "cc1"),
    ("hiIoResI", "hi1"),
    ("clusterGPUResI", "cg1"),
    ("clusterGPUI", "cg1"),
    ("secgenstdResI", "m3"),
    ("secgenstdODI", "m3")
  ]

  /** Size code of the older feeds to the type-name suffix. */
  const InstanceSizeMapping: seq<(string, string)> := [
    ("u", "micro"),
    ("sm", "small"),
    ("med", "medium"),
    ("lg", "large"),
    ("xl", "xlarge"),
    ("xxl", "2xlarge"),
    ("xxxxl", "4xlarge"),
    ("xxxxxxxxl", "8xlarge")
  ]

  const InstancesOnDemandUrl: string := "http://aws.amazon.com/ec2/pricing/pricing-on-demand-instances.json"
  const ReservedLightLinuxUrl: string := "http://aws.amazon.com/ec2/pricing/ri-light-linux.json"
  const ReservedLightWindowsUrl: string := "http://aws.amazon.com/ec2/pricing/ri-light-mswin.json"
  const ReservedMediumLinuxUrl: string := "http://aws.amazon.com/ec2/pricing/ri-medium-linux.json"
  const ReservedMediumWindowsUrl: string := "http://aws.amazon.com/ec2/pricing/ri-medium-mswin.json"
  const ReservedHeavyLinuxUrl: string := "http://aws.amazon.com/ec2/pricing/ri-heavy-linux.json"
  const ReservedHeavyWindowsUrl: string := "http://aws.amazon.com/ec2/pricing/ri-heavy-mswin.json"

  /** The reserved feeds in the order the reserved method reads them. */
  const ReservedUrls: seq<string> := [
    ReservedLightLinuxUrl, ReservedLightWindowsUrl,
    ReservedMediumLinuxUrl, ReservedMediumWindowsUrl,
    ReservedHeavyLinuxUrl, ReservedHeavyWindowsUrl
  ]

  /** The operating system tag of each reserved feed. */
  const ReservedOsTypeByUrl: map<string, string> := map[
    ReservedLightLinuxUrl := "linux",
    ReservedLightWindowsUrl := "mswin",
    ReservedMediumLinuxUrl := "linux",
    ReservedMediumWindowsUrl := "mswin",
    ReservedHeavyLinuxUrl := "linux",
    ReservedHeavyWindowsUrl := "mswin"
  ]

  /** The utilization tag of each reserved feed. */
  const ReservedUtilizationTypeByUrl: map<string, string> := map[
    ReservedLightLinuxUrl := "light",
    ReservedLightWindowsUrl := "light",
    ReservedMediumLinuxUrl := "medium",
    ReservedMediumWindowsUrl := "medium",
    ReservedHeavyLinuxUrl := "heavy",
    ReservedHeavyWindowsUrl := "heavy"
  ]

  /** linux and mswin, each at light, medium and heavy utilization. */
  const ReservedPairs: set<(string, string)> := {
    ("linux", "light"), ("mswin", "light"),
    ("linux", "medium"), ("mswin", "medium"),
    ("linux", "heavy"), ("mswin", "heavy")
  }

  /** The two tables cover exactly the six reserved feeds, and the feeds
      carry the six operating system and utilization pairs, one each. */
  lemma ReservedTablesCoverPairs()
    ensures ReservedOsTypeByUrl.Keys == ReservedUtilizationTypeByUrl.Keys == set u | u in ReservedUrls
    ensures (set u | u in ReservedUrls :: (ReservedOsTypeByUrl[u], ReservedUtilizationTypeByUrl[u])) == ReservedPairs
    ensures forall i, j | 0 <= i < j < |ReservedUrls| ::
              (ReservedOsTypeByUrl[ReservedUrls[i]], ReservedUtilizationTypeByUrl[ReservedUrls[i]])
              != (ReservedOsTypeByUrl[ReservedUrls[j]], ReservedUtilizationTypeByUrl[ReservedUrls[j]])
  {
    var pairs := set u | u in ReservedUrls :: (ReservedOsTypeByUrl[u], ReservedUtilizationTypeByUrl[u]);
    assert ReservedUrls[0] in ReservedUrls && ReservedUrls[1] in ReservedUrls && ReservedUrls[2] in ReservedUrls;
    assert ReservedUrls[3] in ReservedUrls && ReservedUrls[4] in ReservedUrls && ReservedUrls[5] in ReservedUrls;
    assert pairs == ReservedPairs;
  }

  lemma ReservedUrlsTagged()
    ensures forall u | u in ReservedUrls :: u in ReservedOsTypeByUrl && u in ReservedUtilizationTypeByUrl
    ensures forall u | u in ReservedUrls :: (ReservedOsTypeByUrl[u], ReservedUtilizationTypeByUrl[u]) in ReservedPairs
  {
    ReservedTablesCoverPairs();
  }

  /** Translating a canonical id to its feed label and back gives the id. */
  lemma RegionTablesRoundTrip()
    ensures forall id | id in Ec2RegionsApiToJsonName ::
              Ec2RegionsApiToJsonName[id] in JsonNameToEc2RegionsApi
              && JsonNameToEc2RegionsApi[Ec2RegionsApiToJsonName[id]] == id
  {
  }

  // ---------------------------------------------------------------------
  // Type names

  /** `$array[$key]` on an array literal given as its entries in order: the
      value of the last entry with that key, NULL when there is none. */
  function Lookup(table: seq<(string, string)>, key: Option<string>): (r: Option<string>)
    ensures key.None? ==> r.None?
  {
    if key.None? || table == [] then None
    else if table[|table| - 1].0 == key.value then Some(table[|table| - 1].1)
    else Lookup(table[..|table| - 1], key)
  }

  /** A lookup finds a value exactly when some entry has the key. */
  lemma {:induction false} LookupFound(table: seq<(string, string)>, key: Option<string>)
    ensures Lookup(table, key).Some? <==> key.Some? && exists p | p in table :: p.0 == key.value
  {
    if key.Some? && table != [] {
      var init, last := table[..|table| - 1], table[|table| - 1];
      LookupFound(init, key);
      assert table == init + [last];
      if last.0 != key.value {
        forall p | p in table && p.0 == key.value ensures p in init {
          assert p in init || p == last;
        }
      }
    }
  }

  /** The value found is that of an entry of the table: its position. */
  lemma {:induction false} LookupEntry(table: seq<(string, string)>, key: Option<string>) returns (i: nat)
    requires Lookup(table, key).Some?
    ensures i < |table| && table[i] == (key.value, Lookup(table, key).value)
  {
    var last := |table| - 1;
    if table[last].0 == key.value {
      i := last;
    } else {
      i := LookupEntry(table[..last], key);
    }
  }

  /** `$instance_type . "." . $instance_size` from the two code tables, with
      cc1.8xlarge renamed cc2.8xlarge; an unknown code contributes "". */
  function TypeName(typeCode: Option<string>, sizeCode: string): (r: string)
    ensures r != "cc1.8xlarge"
  {
    var joined := Str(Lookup(InstanceTypeMapping, typeCode)) + "." + Str(Lookup(InstanceSizeMapping, Some(sizeCode)));
    if joined == "cc1.8xlarge" then "cc2.8xlarge" else joined
  }

  /** Joining two dot-free parts with "." loses nothing. */
  lemma JoinInjective(a: string, b: string, c: string, d: string)
    requires '.' !in a && '.' !in b && '.' !in c && '.' !in d
    requires a + "." + b == c + "." + d
    ensures a == c && b == d
  {
    var s := a + "." + b;
    assert s[|a|] == '.' && s[|c|] == '.';
    assert forall i | 0 <= i < |a| :: s[i] == a[i];
    assert forall i | 0 <= i < |c| :: s[i] == c[i];
    assert |a| == |c|;
    assert a == s[..|a|] && c == s[..|c|];
    assert b == s[|a| + 1..] && d == s[|c| + 1..];
  }

  lemma TableValuesDotFree()
    ensures forall i | 0 <= i < |InstanceTypeMapping| :: '.' !in InstanceTypeMapping[i].1
    ensures forall i | 0 <= i < |InstanceSizeMapping| :: '.' !in InstanceSizeMapping[i].1
  {
  }

  /** For known codes the name is the family prefix, ".", and the size
      suffix; only the cluster-compute family at size 8xlarge is renamed. */
  lemma TypeNameOfKnownCodes(typeCode: string, sizeCode: string)
    requires Lookup(InstanceTypeMapping, Some(typeCode)).Some? && Lookup(InstanceSizeMapping, Some(sizeCode)).Some?
    ensures var a, b := Lookup(InstanceTypeMapping, Some(typeCode)).value, Lookup(InstanceSizeMapping, Some(sizeCode)).value;
            TypeName(Some(typeCode), sizeCode) == if a == "cc1" && b == "8xlarge" then "cc2.8xlarge" else a + "." + b
  {
    var a, b := Lookup(InstanceTypeMapping, Some(typeCode)).value, Lookup(InstanceSizeMapping, Some(sizeCode)).value;
    var i := LookupEntry(InstanceTypeMapping, Some(typeCode));
    var j := LookupEntry(InstanceSizeMapping, Some(sizeCode));
    TableValuesDotFree();
    assert '.' !in a && '.' !in b;
    if a + "." + b == "cc1.8xlarge" {
      assert "cc1.8xlarge" == "cc1" + "." + "8xlarge";
      JoinInjective(a, b, "cc1", "8xlarge");
    }
  }

  /** The names within one family: `$instance_type` is looked up once per
      family and joined with each size's suffix. */
  function Namer(typeCode: Option<string>): (name: string -> string)
    ensures forall sizeCode :: name(sizeCode) == TypeName(typeCode, sizeCode)
  {
    sizeCode => TypeName(typeCode, sizeCode)
  }

  // ---------------------------------------------------------------------
  // Filters

  /** The three optional filters as the caller passes them. */
  datatype Filters = Filters(region: Option<string>, instanceType: Option<string>, osType: Option<string>)

  /** `$filter_region` after the method's first lines: a truthy region id is
      replaced by its feed label, NULL when the id is not in the table. */
  function TranslatedRegion(f: Filters): (r: Option<string>)
    ensures Truthy(f.region) ==> r == Get(Ec2RegionsApiToJsonName, f.region)
  {
    if Truthy(f.region) then Get(Ec2RegionsApiToJsonName, f.region) else f.region
  }

  /** A region block with a truthy region name that the region filter
      rejects. */
  predicate SkipsRegion(f: Filters, b: RegionBlock) {
    Truthy(b.region) && Truthy(f.region) && TranslatedRegion(f) != b.region
  }

  /** The instance-type filter lets `t` through. */
  predicate KeepsType(f: Filters, t: string) {
    !(Truthy(f.instanceType) && Some(t) != f.instanceType)
  }

  /** The operating-system filter lets `os` through. */
  predicate KeepsOs(f: Filters, os: string) {
    !(Truthy(f.osType) && Some(os) != f.osType)
  }

  // ---------------------------------------------------------------------
  // Reserved prices, specified

  datatype Term = Term(hourly: Option<real>, upfront: Option<real>)

  /** The `prices` of a reserved record: one- and three-year terms. */
  datatype ReservedPrices = ReservedPrices(oneYear: Term, threeYear: Term)

  /** The all-NULL `$prices` template. */
  const NullPrices: ReservedPrices := ReservedPrices(Term(None, None), Term(None, None))

  datatype ReservedRecord = ReservedRecord(instanceType: string, os: string, utilization: string, prices: ReservedPrices)

  /** An entry of `$result["regions"]`: the canonical region name (NULL
      for a feed region the table does not know) and its records. */
  datatype ReservedRegion = ReservedRegion(region: Option<string>, instanceTypes: seq<ReservedRecord>)

  datatype ReservedResult = ReservedResult(currency: string, regions: seq<ReservedRegion>)

  /** The record a size entry yields, if it passes the filters.  It carries
      the NULL template: the term prices are written to a local copy only
      after the record was pushed. */
  function SizeReserved(name: string -> string, s: SizeEntry, os: string, util: string, f: Filters): seq<ReservedRecord> {
    var t := name(s.size);
    if KeepsType(f, t) && KeepsOs(f, os) then [ReservedRecord(t, os, util, NullPrices)] else []
  }

  function SizesReserved(name: string -> string, sizes: seq<SizeEntry>, os: string, util: string, f: Filters): seq<ReservedRecord> {
    if sizes == [] then []
    else SizesReserved(name, sizes[..|sizes| - 1], os, util, f) + SizeReserved(name, sizes[|sizes| - 1], os, util, f)
  }

  function FamilyReserved(fam: Family, os: string, util: string, f: Filters): seq<ReservedRecord> {
    if fam.sizes.Some? then SizesReserved(Namer(fam.typeCode), fam.sizes.value, os, util, f) else []
  }

  function FamiliesReserved(fams: seq<Family>, os: string, util: string, f: Filters): seq<ReservedRecord> {
    if fams == [] then []
    else FamiliesReserved(fams[..|fams| - 1], os, util, f) + FamilyReserved(fams[|fams| - 1], os, util, f)
  }

  /** `$result["regions"]` with `$result_indices`: the position of each
      region name's entry. */
  datatype Grouping = Grouping(regions: seq<ReservedRegion>, indices: map<Option<string>, nat>)

  /** Each region name has exactly one entry and the index points at it. */
  predicate WellIndexed(g: Grouping) {
    && (forall k | k in g.indices :: g.indices[k] < |g.regions| && g.regions[g.indices[k]].region == k)
    && (forall i | 0 <= i < |g.regions| :: g.regions[i].region in g.indices && g.indices[g.regions[i].region] == i)
  }

  /** No two entries share a region name. */
  predicate DistinctRegions(regions: seq<ReservedRegion>) {
    forall i, j | 0 <= i < j < |regions| :: regions[i].region != regions[j].region
  }

  lemma WellIndexedDistinct(g: Grouping)
    requires WellIndexed(g)
    ensures DistinctRegions(g.regions)
  {
  }

  /** Every index points at an entry. */
  predicate IndicesInRange(g: Grouping) {
    forall k | k in g.indices :: g.indices[k] < |g.regions|
  }

  /** The entry of `name`, appended empty when the name is new. */
  function OpenEntry(g: Grouping, name: Option<string>): (r: Grouping)
    ensures name in r.indices
    ensures IndicesInRange(g) ==> IndicesInRange(r)
    ensures name in g.indices ==> r == g
    ensures name !in g.indices ==>
              r.regions == g.regions + [ReservedRegion(name, [])] && r.indices == g.indices[name := |g.regions|]
  {
    if name in g.indices then g
    else Grouping(g.regions + [ReservedRegion(name, [])], g.indices[name := |g.regions|])
  }

  /** Appends records to the entry at `at`; nothing else changes. */
  function PushAt(g: Grouping, at: nat, recs: seq<ReservedRecord>): (r: Grouping)
    ensures |r.regions| == |g.regions| && r.indices == g.indices
    ensures at < |g.regions| ==> r.regions[at] == ReservedRegion(g.regions[at].region, g.regions[at].instanceTypes + recs)
    ensures forall i | 0 <= i < |g.regions| && i != at :: r.regions[i] == g.regions[i]
  {
    if at < |g.regions| then g.(regions := g.regions[at := g.regions[at].(instanceTypes := g.regions[at].instanceTypes + recs)])
    else g
  }

  /** One region block of a reserved feed tagged `os`/`util`. */
  function AddBlock(g: Grouping, os: string, util: string, b: RegionBlock, f: Filters): Grouping {
    if SkipsRegion(f, b) then g
    else
      var name := Get(JsonNameToEc2RegionsApi, b.region);
      var g' := OpenEntry(g, name);
      if b.instanceTypes.Some? then PushAt(g', g'.indices[name], FamiliesReserved(b.instanceTypes.value, os, util, f))
      else g'
  }

  function AddBlocks(g: Grouping, os: string, util: string, blocks: seq<RegionBlock>, f: Filters): Grouping {
    if blocks == [] then g
    else AddBlock(AddBlocks(g, os, util, blocks[..|blocks| - 1], f), os, util, blocks[|blocks| - 1], f)
  }

  /** One reserved feed: its blocks when the document has regions. */
  function AddUrl(g: Grouping, u: string, load: string -> Document, f: Filters): Grouping
    requires u in ReservedOsTypeByUrl && u in ReservedUtilizationTypeByUrl
  {
    var d := load(u);
    if HasRegions(d) then AddBlocks(g, ReservedOsTypeByUrl[u], ReservedUtilizationTypeByUrl[u], d.config.value.regions.value, f)
    else g
  }

  function AddUrls(g: Grouping, urls: seq<string>, load: string -> Document, f: Filters): Grouping
    requires forall u | u in urls :: u in ReservedOsTypeByUrl && u in ReservedUtilizationTypeByUrl
  {
    if urls == [] then g
    else AddUrl(AddUrls(g, urls[..|urls| - 1], load, f), urls[|urls| - 1], load, f)
  }

  lemma OpenEntryWellIndexed(g: Grouping, name: Option<string>)
    requires WellIndexed(g)
    ensures WellIndexed(OpenEntry(g, name))
    ensures name in g.indices ==> OpenEntry(g, name) == g
  {
  }

  lemma PushAtWellIndexed(g: Grouping, at: nat, recs: seq<ReservedRecord>)
    requires WellIndexed(g)
    ensures WellIndexed(PushAt(g, at, recs))
  {
    var r := PushAt(g, at, recs);
    if at < |g.regions| {
      forall i | 0 <= i < |r.regions| ensures r.regions[i].region == g.regions[i].region {
      }
    }
  }

  /** Grouping a block keeps one entry per region name. */
  lemma AddBlockWellIndexed(g: Grouping, os: string, util: string, b: RegionBlock, f: Filters)
    requires WellIndexed(g)
    ensures WellIndexed(AddBlock(g, os, util, b, f))
  {
    if !SkipsRegion(f, b) {
      var name := Get(JsonNameToEc2RegionsApi, b.region);
      OpenEntryWellIndexed(g, name);
      var g' := OpenEntry(g, name);
      if b.instanceTypes.Some? {
        PushAtWellIndexed(g', g'.indices[name], FamiliesReserved(b.instanceTypes.value, os, util, f));
      }
    }
  }

  lemma {:induction false} AddBlocksWellIndexed(g: Grouping, os: string, util: string, blocks: seq<RegionBlock>, f: Filters)
    requires WellIndexed(g)
    ensures WellIndexed(AddBlocks(g, os, util, blocks, f))
  {
    if blocks != [] {
      AddBlocksWellIndexed(g, os, util, blocks[..|blocks| - 1], f);
      AddBlockWellIndexed(AddBlocks(g, os, util, blocks[..|blocks| - 1], f), os, util, blocks[|blocks| - 1], f);
    }
  }

  lemma {:induction false} AddUrlsWellIndexed(g: Grouping, urls: seq<string>, load: string -> Document, f: Filters)
    requires WellIndexed(g)
    requires forall u | u in urls :: u in ReservedOsTypeByUrl && u in ReservedUtilizationTypeByUrl
    ensures WellIndexed(AddUrls(g, urls, load, f))
  {
    if urls != [] {
      var init := urls[..|urls| - 1];
      var u := urls[|urls| - 1];
      assert forall v | v in init :: v in urls;
      AddUrlsWellIndexed(g, init, load, f);
      var d := load(u);
      if HasRegions(d) {
        AddBlocksWellIndexed(AddUrls(g, init, load, f), ReservedOsTypeByUrl[u], ReservedUtilizationTypeByUrl[u], d.config.value.regions.value, f);
      }
    }
  }

  lemma FamiliesReservedSnoc(fams: seq<Family>, i: nat, os: string, util: string, f: Filters)
    requires i < |fams|
    ensures FamiliesReserved(fams[..i + 1], os, util, f) == FamiliesReserved(fams[..i], os, util, f) + FamilyReserved(fams[i], os, util, f)
  {
    assert fams[..i + 1][..i] == fams[..i];
  }

  /** One turn of the reserved family loop. */
  lemma PushFamiliesStep(list: seq<ReservedRecord>, fams: seq<Family>, i: nat, os: string, util: string, f: Filters,
                         before: seq<ReservedRecord>, after: seq<ReservedRecord>)
    requires i < |fams|
    requires before == list + FamiliesReserved(fams[..i], os, util, f)
    requires after == before + FamilyReserved(fams[i], os, util, f)
    ensures after == list + FamiliesReserved(fams[..i + 1], os, util, f)
  {
    FamiliesReservedSnoc(fams, i, os, util, f);
    AppendAssociative(list, FamiliesReserved(fams[..i], os, util, f), FamilyReserved(fams[i], os, util, f));
  }

  lemma AddUrlsSnoc(g: Grouping, urls: seq<string>, i: nat, load: string -> Document, f: Filters)
    requires i < |urls|
    requires forall u | u in urls[..i + 1] :: u in ReservedOsTypeByUrl && u in ReservedUtilizationTypeByUrl
    ensures forall u | u in urls[..i] :: u in ReservedOsTypeByUrl && u in ReservedUtilizationTypeByUrl
    ensures AddUrls(g, urls[..i + 1], load, f) == AddUrl(AddUrls(g, urls[..i], load, f), urls[i], load, f)
  {
    assert urls[..i + 1][..i] == urls[..i];
    assert forall u | u in urls[..i] :: u in urls[..i + 1];
  }

  const NoRegions: Grouping := Grouping([], map[])

  /** get_ec2_reserved_instances_prices over the six reserved feeds. */
  function ReservedSpec(f: Filters, load: string -> Document): ReservedResult {
    ReservedResult(DefaultCurrency, AddUrls(NoRegions, ReservedUrls, load, f).regions)
  }

  // ---------------------------------------------------------------------
  // Reserved prices, properties

  /** What every reserved record satisfies: it passed both filters, has a
      renamed type, one of the six os/utilization pairs, and NULL prices. */
  predicate ReservedRecordOk(f: Filters, rec: ReservedRecord) {
    && KeepsType(f, rec.instanceType)
    && KeepsOs(f, rec.os)
    && rec.instanceType != "cc1.8xlarge"
    && (rec.os, rec.utilization) in ReservedPairs
    && rec.prices == NullPrices
  }

  /** What every reserved region entry satisfies under a truthy region
      filter: it is the filter's region or the NULL name of a block whose
      region was falsy or unknown. */
  predicate ReservedRegionOk(f: Filters, e: ReservedRegion) {
    && (Truthy(f.region) ==> e.region.None? || e.region == Get(JsonNameToEc2RegionsApi, TranslatedRegion(f)))
    && (forall rec | rec in e.instanceTypes :: ReservedRecordOk(f, rec))
  }

  predicate GroupingOk(f: Filters, g: Grouping) {
    forall e | e in g.regions :: ReservedRegionOk(f, e)
  }

  lemma {:induction false} SizesReservedOk(typeCode: Option<string>, sizes: seq<SizeEntry>, os: string, util: string, f: Filters)
    requires (os, util) in ReservedPairs
    ensures forall rec | rec in SizesReserved(Namer(typeCode), sizes, os, util, f) :: ReservedRecordOk(f, rec)
  {
    if sizes != [] {
      SizesReservedOk(typeCode, sizes[..|sizes| - 1], os, util, f);
    }
  }

  lemma {:induction false} FamiliesReservedOk(fams: seq<Family>, os: string, util: string, f: Filters)
    requires (os, util) in ReservedPairs
    ensures forall rec | rec in FamiliesReserved(fams, os, util, f) :: ReservedRecordOk(f, rec)
  {
    if fams != [] {
      FamiliesReservedOk(fams[..|fams| - 1], os, util, f);
      var fam := fams[|fams| - 1];
      if fam.sizes.Some? {
        SizesReservedOk(fam.typeCode, fam.sizes.value, os, util, f);
      }
    }
  }

  /** The entry a kept block lands in is named by the region filter's
      own table entry, or is NULL. */
  lemma KeptBlockName(f: Filters, b: RegionBlock)
    requires !SkipsRegion(f, b)
    ensures Truthy(f.region) ==>
              (Get(JsonNameToEc2RegionsApi, b.region).None? ||
               Get(JsonNameToEc2RegionsApi, b.region) == Get(JsonNameToEc2RegionsApi, TranslatedRegion(f)))
  {
    if Truthy(f.region) && Truthy(b.region) {
      assert TranslatedRegion(f) == b.region;
    }
  }

  lemma OpenEntryOk(f: Filters, g: Grouping, name: Option<string>)
    requires GroupingOk(f, g)
    requires Truthy(f.region) ==> name.None? || name == Get(JsonNameToEc2RegionsApi, TranslatedRegion(f))
    ensures GroupingOk(f, OpenEntry(g, name))
  {
  }

  lemma PushAtOk(f: Filters, g: Grouping, at: nat, recs: seq<ReservedRecord>)
    requires GroupingOk(f, g)
    requires forall rec | rec in recs :: ReservedRecordOk(f, rec)
    ensures GroupingOk(f, PushAt(g, at, recs))
  {
    var r := PushAt(g, at, recs);
    forall e | e in r.regions ensures ReservedRegionOk(f, e) {
      var i :| 0 <= i < |r.regions| && r.regions[i] == e;
      assert g.regions[i] in g.regions;
    }
  }

  lemma AddBlockOk(g: Grouping, os: string, util: string, b: RegionBlock, f: Filters)
    requires GroupingOk(f, g)
    requires (os, util) in ReservedPairs
    ensures GroupingOk(f, AddBlock(g, os, util, b, f))
  {
    if !SkipsRegion(f, b) {
      var name := Get(JsonNameToEc2RegionsApi, b.region);
      KeptBlockName(f, b);
      OpenEntryOk(f, g, name);
      var g' := OpenEntry(g, name);
      if b.instanceTypes.Some? {
        FamiliesReservedOk(b.instanceTypes.value, os, util, f);
        PushAtOk(f, g', g'.indices[name], FamiliesReserved(b.instanceTypes.value, os, util, f));
      }
    }
  }

  lemma {:induction false} AddBlocksOk(g: Grouping, os: string, util: string, blocks: seq<RegionBlock>, f: Filters)
    requires GroupingOk(f, g)
    requires (os, util) in ReservedPairs
    ensures GroupingOk(f, AddBlocks(g, os, util, blocks, f))
  {
    if blocks != [] {
      AddBlocksOk(g, os, util, blocks[..|blocks| - 1], f);
      AddBlockOk(AddBlocks(g, os, util, blocks[..|blocks| - 1], f), os, util, blocks[|blocks| - 1], f);
    }
  }

  lemma {:induction false} AddUrlsOk(g: Grouping, urls: seq<string>, load: string -> Document, f: Filters)
    requires GroupingOk(f, g)
    requires forall u | u in urls :: u in ReservedOsTypeByUrl && u in ReservedUtilizationTypeByUrl
    requires forall u | u in urls :: (ReservedOsTypeByUrl[u], ReservedUtilizationTypeByUrl[u]) in ReservedPairs
    ensures GroupingOk(f, AddUrls(g, urls, load, f))
  {
    if urls != [] {
      var init := urls[..|urls| - 1];
      var u := urls[|urls| - 1];
      assert forall v | v in init :: v in urls;
      AddUrlsOk(g, init, load, f);
      var d := load(u);
      if HasRegions(d) {
        AddBlocksOk(AddUrls(g, init, load, f), ReservedOsTypeByUrl[u], ReservedUtilizationTypeByUrl[u], d.config.value.regions.value, f);
      }
    }
  }

  /** The reserved result: each region name appears at most once; every
      record passed the filters, carries one of the six os/utilization
      pairs and NULL prices; under a truthy region filter every entry is
      that region's (or NULL for a block with no usable region name). */
  lemma ReservedResultOk(f: Filters, load: string -> Document)
    ensures DistinctRegions(ReservedSpec(f, load).regions)
    ensures forall e | e in ReservedSpec(f, load).regions :: ReservedRegionOk(f, e)
    ensures ReservedSpec(f, load).currency == DefaultCurrency
  {
    assert WellIndexed(NoRegions) && GroupingOk(f, NoRegions);
    ReservedTablesCoverPairs();
    assert forall u | u in ReservedUrls :: (ReservedOsTypeByUrl[u], ReservedUtilizationTypeByUrl[u]) in ReservedPairs;
    AddUrlsOk(NoRegions, ReservedUrls, load, f);
    AddUrlsWellIndexed(NoRegions, ReservedUrls, load, f);
    WellIndexedDistinct(AddUrls(NoRegions, ReservedUrls, load, f));
  }

  /** The record size entry `s` of a family with code `typeCode` yields in
      a feed tagged `os`/`util`. */
  predicate SizeYieldsReserved(f: Filters, typeCode: Option<string>, s: SizeEntry, os: string, util: string,
                               rec: ReservedRecord) {
    var t := TypeName(typeCode, s.size);
    KeepsType(f, t) && KeepsOs(f, os) && rec == ReservedRecord(t, os, util, NullPrices)
  }

  /** A size loop pushes exactly the records of its surviving sizes. */
  lemma {:induction false} SizesReservedMember(typeCode: Option<string>, sizes: seq<SizeEntry>, os: string, util: string, f: Filters)
    ensures forall rec :: rec in SizesReserved(Namer(typeCode), sizes, os, util, f) <==>
                          exists s | s in sizes :: SizeYieldsReserved(f, typeCode, s, os, util, rec)
  {
    if sizes != [] {
      var init, s := sizes[..|sizes| - 1], sizes[|sizes| - 1];
      assert sizes == init + [s];
      SizesReservedMember(typeCode, init, os, util, f);
      assert Namer(typeCode)(s.size) == TypeName(typeCode, s.size);
      forall rec ensures rec in SizeReserved(Namer(typeCode), s, os, util, f) <==> SizeYieldsReserved(f, typeCode, s, os, util, rec) {
      }
    }
  }

  /** A family loop pushes exactly the records of the surviving sizes of
      the families that have `sizes`. */
  lemma {:induction false} FamiliesReservedMember(fams: seq<Family>, os: string, util: string, f: Filters)
    ensures forall rec :: rec in FamiliesReserved(fams, os, util, f) <==>
                          exists fam | fam in fams && fam.sizes.Some? ::
                            exists s | s in fam.sizes.value :: SizeYieldsReserved(f, fam.typeCode, s, os, util, rec)
  {
    if fams != [] {
      var init, fam := fams[..|fams| - 1], fams[|fams| - 1];
      assert fams == init + [fam];
      FamiliesReservedMember(init, os, util, f);
      if fam.sizes.Some? {
        SizesReservedMember(fam.typeCode, fam.sizes.value, os, util, f);
      }
    }
  }

  /** `h` is `g` with possibly more entries and more records: every index
      is kept, and every entry keeps its name and has its old records as a
      prefix. */
  predicate Grows(g: Grouping, h: Grouping) {
    && |g.regions| <= |h.regions|
    && (forall k | k in g.indices :: k in h.indices && h.indices[k] == g.indices[k])
    && (forall i | 0 <= i < |g.regions| ::
          h.regions[i].region == g.regions[i].region && g.regions[i].instanceTypes <= h.regions[i].instanceTypes)
  }

  /** The entry `name` indexes exists and carries that name. */
  predicate Opened(g: Grouping, name: Option<string>) {
    name in g.indices && g.indices[name] < |g.regions| && g.regions[g.indices[name]].region == name
  }

  /** `rec` is among the records of the entry `name` indexes. */
  predicate Filed(g: Grouping, name: Option<string>, rec: ReservedRecord) {
    name in g.indices && g.indices[name] < |g.regions| && rec in g.regions[g.indices[name]].instanceTypes
  }

  lemma GrowsKeeps(g: Grouping, h: Grouping, name: Option<string>)
    requires Grows(g, h)
    ensures Opened(g, name) ==> Opened(h, name)
    ensures forall rec | Filed(g, name, rec) :: Filed(h, name, rec)
  {
    if name in g.indices && g.indices[name] < |g.regions| {
      var i := g.indices[name];
      var a, b := g.regions[i].instanceTypes, h.regions[i].instanceTypes;
      forall rec | rec in a ensures rec in b {
        var j :| 0 <= j < |a| && a[j] == rec;
        assert b[j] == a[j];
      }
    }
  }

  lemma GrowsTransitive(g: Grouping, h: Grouping, k: Grouping)
    requires Grows(g, h) && Grows(h, k)
    ensures Grows(g, k)
  {
    forall i | 0 <= i < |g.regions|
      ensures g.regions[i].instanceTypes <= k.regions[i].instanceTypes
    {
      var a, b, c := g.regions[i].instanceTypes, h.regions[i].instanceTypes, k.regions[i].instanceTypes;
      assert a == b[..|a|] && b == c[..|b|];
      assert a == c[..|a|];
    }
  }

  lemma AddBlockGrows(g: Grouping, os: string, util: string, b: RegionBlock, f: Filters)
    ensures Grows(g, AddBlock(g, os, util, b, f))
  {
    if !SkipsRegion(f, b) {
      var name := Get(JsonNameToEc2RegionsApi, b.region);
      var g' := OpenEntry(g, name);
      assert Grows(g, g');
      if b.instanceTypes.Some? {
        var r := PushAt(g', g'.indices[name], FamiliesReserved(b.instanceTypes.value, os, util, f));
        assert Grows(g', r);
        GrowsTransitive(g, g', r);
      }
    }
  }

  lemma {:induction false} AddBlocksGrows(g: Grouping, os: string, util: string, blocks: seq<RegionBlock>, f: Filters)
    ensures Grows(g, AddBlocks(g, os, util, blocks, f))
  {
    if blocks != [] {
      var init := blocks[..|blocks| - 1];
      AddBlocksGrows(g, os, util, init, f);
      AddBlockGrows(AddBlocks(g, os, util, init, f), os, util, blocks[|blocks| - 1], f);
      GrowsTransitive(g, AddBlocks(g, os, util, init, f), AddBlocks(g, os, util, blocks, f));
    }
  }

  lemma AddUrlGrows(g: Grouping, u: string, load: string -> Document, f: Filters)
    requires u in ReservedOsTypeByUrl && u in ReservedUtilizationTypeByUrl
    ensures Grows(g, AddUrl(g, u, load, f))
  {
    var d := load(u);
    if HasRegions(d) {
      AddBlocksGrows(g, ReservedOsTypeByUrl[u], ReservedUtilizationTypeByUrl[u], d.config.value.regions.value, f);
    }
  }

  /** A kept block's entry is open after the block, and its families'
      records are filed there. */
  lemma AddBlockFiles(g: Grouping, os: string, util: string, b: RegionBlock, f: Filters)
    requires WellIndexed(g) && !SkipsRegion(f, b)
    ensures Opened(AddBlock(g, os, util, b, f), Get(JsonNameToEc2RegionsApi, b.region))
    ensures b.instanceTypes.Some? ==>
              forall rec | rec in FamiliesReserved(b.instanceTypes.value, os, util, f) ::
                Filed(AddBlock(g, os, util, b, f), Get(JsonNameToEc2RegionsApi, b.region), rec)
  {
    var name := Get(JsonNameToEc2RegionsApi, b.region);
    OpenEntryWellIndexed(g, name);
    var g' := OpenEntry(g, name);
    assert Opened(g', name);
  }

  lemma {:induction false} AddBlocksFiles(g: Grouping, os: string, util: string, blocks: seq<RegionBlock>, f: Filters, k: nat)
    requires WellIndexed(g) && k < |blocks| && !SkipsRegion(f, blocks[k])
    ensures Opened(AddBlocks(g, os, util, blocks, f), Get(JsonNameToEc2RegionsApi, blocks[k].region))
    ensures blocks[k].instanceTypes.Some? ==>
              forall rec | rec in FamiliesReserved(blocks[k].instanceTypes.value, os, util, f) ::
                Filed(AddBlocks(g, os, util, blocks, f), Get(JsonNameToEc2RegionsApi, blocks[k].region), rec)
  {
    var init, last := blocks[..|blocks| - 1], blocks[|blocks| - 1];
    var before := AddBlocks(g, os, util, init, f);
    AddBlocksWellIndexed(g, os, util, init, f);
    if k == |blocks| - 1 {
      AddBlockFiles(before, os, util, last, f);
    } else {
      assert init[k] == blocks[k];
      AddBlocksFiles(g, os, util, init, f, k);
      AddBlockGrows(before, os, util, last, f);
      GrowsKeeps(before, AddBlocks(g, os, util, blocks, f), Get(JsonNameToEc2RegionsApi, blocks[k].region));
    }
  }

  lemma {:induction false} AddUrlsFiles(g: Grouping, urls: seq<string>, load: string -> Document, f: Filters, k: nat, b: RegionBlock)
    requires WellIndexed(g)
    requires forall u | u in urls :: u in ReservedOsTypeByUrl && u in ReservedUtilizationTypeByUrl
    requires k < |urls| && HasRegions(load(urls[k]))
    requires b in load(urls[k]).config.value.regions.value && !SkipsRegion(f, b)
    ensures Opened(AddUrls(g, urls, load, f), Get(JsonNameToEc2RegionsApi, b.region))
    ensures b.instanceTypes.Some? ==>
              forall rec | rec in FamiliesReserved(b.instanceTypes.value, ReservedOsTypeByUrl[urls[k]], ReservedUtilizationTypeByUrl[urls[k]], f) ::
                Filed(AddUrls(g, urls, load, f), Get(JsonNameToEc2RegionsApi, b.region), rec)
  {
    var init, u := urls[..|urls| - 1], urls[|urls| - 1];
    assert forall v | v in init :: v in urls;
    var before := AddUrls(g, init, load, f);
    AddUrlsWellIndexed(g, init, load, f);
    if k == |urls| - 1 {
      var blocks := load(u).config.value.regions.value;
      var j :| 0 <= j < |blocks| && blocks[j] == b;
      AddBlocksFiles(before, ReservedOsTypeByUrl[u], ReservedUtilizationTypeByUrl[u], blocks, f, j);
    } else {
      assert init[k] == urls[k];
      AddUrlsFiles(g, init, load, f, k, b);
      AddUrlGrows(before, u, load, f);
      GrowsKeeps(before, AddUrls(g, urls, load, f), Get(JsonNameToEc2RegionsApi, b.region));
    }
  }

  /** Every block of a reserved feed that the region filter keeps has an
      entry under its canonical region name (NULL for an unknown label),
      opened even when the block has no `instanceTypes`; the records of its
      families are all in that entry, whatever feed or block came before
      or after with the same region name. */
  lemma ReservedResultComplete(f: Filters, load: string -> Document, u: string, b: RegionBlock)
    requires u in ReservedUrls && HasRegions(load(u))
    requires b in load(u).config.value.regions.value && !SkipsRegion(f, b)
    ensures u in ReservedOsTypeByUrl && u in ReservedUtilizationTypeByUrl
    ensures exists e | e in ReservedSpec(f, load).regions ::
              && e.region == Get(JsonNameToEc2RegionsApi, b.region)
              && (b.instanceTypes.Some? ==>
                    forall rec | rec in FamiliesReserved(b.instanceTypes.value, ReservedOsTypeByUrl[u], ReservedUtilizationTypeByUrl[u], f) ::
                      rec in e.instanceTypes)
  {
    ReservedUrlsTagged();
    var k :| 0 <= k < |ReservedUrls| && ReservedUrls[k] == u;
    assert WellIndexed(NoRegions);
    AddUrlsFiles(NoRegions, ReservedUrls, load, f, k, b);
    var g := AddUrls(NoRegions, ReservedUrls, load, f);
    var name := Get(JsonNameToEc2RegionsApi, b.region);
    var e := g.regions[g.indices[name]];
    assert e in ReservedSpec(f, load).regions;
  }

  /** The records the block `b` of a feed tagged `os`/`util` files under
      `name`: its families' records when it is kept, has that name and has
      `instanceTypes`; nothing otherwise. */
  function BlockRecordsFor(name: Option<string>, os: string, util: string, b: RegionBlock, f: Filters): seq<ReservedRecord> {
    if !SkipsRegion(f, b) && Get(JsonNameToEc2RegionsApi, b.region) == name && b.instanceTypes.Some?
    then FamiliesReserved(b.instanceTypes.value, os, util, f)
    else []
  }

  function BlocksRecordsFor(name: Option<string>, os: string, util: string, blocks: seq<RegionBlock>, f: Filters): seq<ReservedRecord> {
    if blocks == [] then []
    else BlocksRecordsFor(name, os, util, blocks[..|blocks| - 1], f) + BlockRecordsFor(name, os, util, blocks[|blocks| - 1], f)
  }

  /** The region names the kept blocks open. */
  function BlocksNames(blocks: seq<RegionBlock>, f: Filters): set<Option<string>> {
    if blocks == [] then {}
    else
      var last := blocks[|blocks| - 1];
      BlocksNames(blocks[..|blocks| - 1], f) + (if SkipsRegion(f, last) then {} else {Get(JsonNameToEc2RegionsApi, last.region)})
  }

  function UrlRecordsFor(name: Option<string>, u: string, load: string -> Document, f: Filters): seq<ReservedRecord>
    requires u in ReservedOsTypeByUrl && u in ReservedUtilizationTypeByUrl
  {
    var d := load(u);
    if HasRegions(d) then BlocksRecordsFor(name, ReservedOsTypeByUrl[u], ReservedUtilizationTypeByUrl[u], d.config.value.regions.value, f)
    else []
  }

  function UrlsRecordsFor(name: Option<string>, urls: seq<string>, load: string -> Document, f: Filters): seq<ReservedRecord>
    requires forall u | u in urls :: u in ReservedOsTypeByUrl && u in ReservedUtilizationTypeByUrl
  {
    if urls == [] then []
    else UrlsRecordsFor(name, urls[..|urls| - 1], load, f) + UrlRecordsFor(name, urls[|urls| - 1], load, f)
  }

  function UrlNames(u: string, load: string -> Document, f: Filters): set<Option<string>> {
    var d := load(u);
    if HasRegions(d) then BlocksNames(d.config.value.regions.value, f) else {}
  }

  function UrlsNames(urls: seq<string>, load: string -> Document, f: Filters): set<Option<string>> {
    if urls == [] then {} else UrlsNames(urls[..|urls| - 1], load, f) + UrlNames(urls[|urls| - 1], load, f)
  }

  /** `h` is `g` after some blocks that file `add(name)` under each name and
      open the names in `names`: old entries keep their place and name and
      gain `add` of it, every new entry has a new name from `names` and
      holds exactly `add` of it, and a name left without an entry is given
      nothing. */
  ghost predicate Extends(g: Grouping, h: Grouping, add: Option<string> -> seq<ReservedRecord>, names: set<Option<string>>) {
    && |g.regions| <= |h.regions|
    && (forall k | k in g.indices :: k in h.indices)
    && (forall i | 0 <= i < |g.regions| ::
          h.regions[i].region == g.regions[i].region && h.regions[i].instanceTypes == g.regions[i].instanceTypes + add(g.regions[i].region))
    && (forall i | |g.regions| <= i < |h.regions| ::
          h.regions[i].region !in g.indices && h.regions[i].region in names && h.regions[i].instanceTypes == add(h.regions[i].region))
    && (forall name | name !in h.indices :: add(name) == [])
  }

  lemma ExtendsCompose(g: Grouping, m: Grouping, h: Grouping,
                       add1: Option<string> -> seq<ReservedRecord>, names1: set<Option<string>>,
                       add2: Option<string> -> seq<ReservedRecord>, names2: set<Option<string>>,
                       add: Option<string> -> seq<ReservedRecord>, names: set<Option<string>>)
    requires Extends(g, m, add1, names1) && Extends(m, h, add2, names2)
    requires forall name :: add(name) == add1(name) + add2(name)
    requires names == names1 + names2
    ensures Extends(g, h, add, names)
  {
    forall i | 0 <= i < |g.regions|
      ensures h.regions[i].instanceTypes == g.regions[i].instanceTypes + add(g.regions[i].region)
    {
      var r := g.regions[i].region;
      AppendAssociative(g.regions[i].instanceTypes, add1(r), add2(r));
    }
    forall i | |g.regions| <= i < |h.regions|
      ensures h.regions[i].instanceTypes == add(h.regions[i].region)
    {
      var r := h.regions[i].region;
      if i >= |m.regions| {
        assert add1(r) == [];
      }
    }
  }

  /** Opening an entry adds no records and at most the one name. */
  lemma OpenEntryExtends(g: Grouping, name: Option<string>)
    requires WellIndexed(g)
    ensures Extends(g, OpenEntry(g, name), n => [], {name})
  {
    var h := OpenEntry(g, name);
    forall i | 0 <= i < |g.regions|
      ensures h.regions[i].region == g.regions[i].region && h.regions[i].instanceTypes == g.regions[i].instanceTypes + []
    {
    }
  }

  /** Pushing onto the entry of `name` adds records under that name only. */
  lemma PushAtExtends(g: Grouping, name: Option<string>, recs: seq<ReservedRecord>, add: Option<string> -> seq<ReservedRecord>)
    requires WellIndexed(g) && name in g.indices
    requires forall n :: add(n) == if n == name then recs else []
    ensures Extends(g, PushAt(g, g.indices[name], recs), add, {})
  {
    var h := PushAt(g, g.indices[name], recs);
    forall i | 0 <= i < |g.regions|
      ensures h.regions[i].region == g.regions[i].region
      ensures h.regions[i].instanceTypes == g.regions[i].instanceTypes + add(g.regions[i].region)
    {
      if i != g.indices[name] {
        assert g.regions[i].region != name;
      }
    }
  }

  lemma AddBlockExtends(g: Grouping, os: string, util: string, b: RegionBlock, f: Filters)
    requires WellIndexed(g)
    ensures Extends(g, AddBlock(g, os, util, b, f), name => BlockRecordsFor(name, os, util, b, f), BlocksNames([b], f))
  {
    assert [b][..0] == [];
    var add := name => BlockRecordsFor(name, os, util, b, f);
    if SkipsRegion(f, b) {
      forall i | 0 <= i < |g.regions| ensures g.regions[i].instanceTypes == g.regions[i].instanceTypes + add(g.regions[i].region) {
      }
    } else {
      var name := Get(JsonNameToEc2RegionsApi, b.region);
      var g' := OpenEntry(g, name);
      OpenEntryExtends(g, name);
      OpenEntryWellIndexed(g, name);
      var recs := if b.instanceTypes.Some? then FamiliesReserved(b.instanceTypes.value, os, util, f) else [];
      PushAtExtends(g', name, recs, add);
      var h := PushAt(g', g'.indices[name], recs);
      if b.instanceTypes.None? {
        assert h == g';
      }
      assert BlocksNames([b], f) == BlocksNames([], f) + {name};
      ExtendsCompose(g, g', h, n => [], {name}, add, {}, add, BlocksNames([b], f));
    }
  }

  lemma {:induction false} AddBlocksExtends(g: Grouping, os: string, util: string, blocks: seq<RegionBlock>, f: Filters)
    requires WellIndexed(g)
    ensures Extends(g, AddBlocks(g, os, util, blocks, f), name => BlocksRecordsFor(name, os, util, blocks, f), BlocksNames(blocks, f))
  {
    if blocks != [] {
      var init, last := blocks[..|blocks| - 1], blocks[|blocks| - 1];
      var m := AddBlocks(g, os, util, init, f);
      AddBlocksExtends(g, os, util, init, f);
      AddBlocksWellIndexed(g, os, util, init, f);
      AddBlockExtends(m, os, util, last, f);
      assert [last][..0] == [];
      assert BlocksNames(blocks, f) == BlocksNames(init, f) + BlocksNames([last], f);
      ExtendsCompose(g, m, AddBlocks(g, os, util, blocks, f),
                     name => BlocksRecordsFor(name, os, util, init, f), BlocksNames(init, f),
                     name => BlockRecordsFor(name, os, util, last, f), BlocksNames([last], f),
                     name => BlocksRecordsFor(name, os, util, blocks, f), BlocksNames(blocks, f));
    }
  }

  lemma AddUrlExtends(g: Grouping, u: string, load: string -> Document, f: Filters)
    requires WellIndexed(g)
    requires u in ReservedOsTypeByUrl && u in ReservedUtilizationTypeByUrl
    ensures Extends(g, AddUrl(g, u, load, f), name => UrlRecordsFor(name, u, load, f), UrlNames(u, load, f))
  {
    var d := load(u);
    if HasRegions(d) {
      AddBlocksExtends(g, ReservedOsTypeByUrl[u], ReservedUtilizationTypeByUrl[u], d.config.value.regions.value, f);
    }
  }

  lemma {:induction false} AddUrlsExtends(g: Grouping, urls: seq<string>, load: string -> Document, f: Filters)
    requires WellIndexed(g)
    requires forall u | u in urls :: u in ReservedOsTypeByUrl && u in ReservedUtilizationTypeByUrl
    ensures Extends(g, AddUrls(g, urls, load, f), name => UrlsRecordsFor(name, urls, load, f), UrlsNames(urls, load, f))
  {
    if urls != [] {
      var init, u := urls[..|urls| - 1], urls[|urls| - 1];
      assert forall v | v in init :: v in urls;
      var m := AddUrls(g, init, load, f);
      AddUrlsExtends(g, init, load, f);
      AddUrlsWellIndexed(g, init, load, f);
      AddUrlExtends(m, u, load, f);
      ExtendsCompose(g, m, AddUrls(g, urls, load, f),
                     name => UrlsRecordsFor(name, init, load, f), UrlsNames(init, load, f),
                     name => UrlRecordsFor(name, u, load, f), UrlNames(u, load, f),
                     name => UrlsRecordsFor(name, urls, load, f), UrlsNames(urls, load, f));
    }
  }

  /** Each reserved entry is named by a kept block of some reserved feed and
      holds exactly the records of the kept blocks with that name, feed by
      feed and block by block, each block's once and in order. */
  lemma ReservedResultExact(f: Filters, load: string -> Document)
    ensures forall u | u in ReservedUrls :: u in ReservedOsTypeByUrl && u in ReservedUtilizationTypeByUrl
    ensures forall e | e in ReservedSpec(f, load).regions ::
              e.region in UrlsNames(ReservedUrls, load, f) && e.instanceTypes == UrlsRecordsFor(e.region, ReservedUrls, load, f)
  {
    ReservedUrlsTagged();
    assert WellIndexed(NoRegions);
    AddUrlsExtends(NoRegions, ReservedUrls, load, f);
  }

  /** The block `b` of feed `u`, one of `urls`, is kept and named `name`. */
  ghost predicate Supplies(f: Filters, load: string -> Document, urls: seq<string>, u: string, b: RegionBlock, name: Option<string>) {
    && u in urls && HasRegions(load(u)) && b in load(u).config.value.regions.value
    && !SkipsRegion(f, b) && Get(JsonNameToEc2RegionsApi, b.region) == name
  }

  /** ... and `rec` is one of the records of its families. */
  ghost predicate SuppliesRecord(f: Filters, load: string -> Document, urls: seq<string>, u: string, b: RegionBlock,
                           name: Option<string>, rec: ReservedRecord) {
    && Supplies(f, load, urls, u, b, name)
    && u in ReservedOsTypeByUrl && u in ReservedUtilizationTypeByUrl && b.instanceTypes.Some?
    && rec in FamiliesReserved(b.instanceTypes.value, ReservedOsTypeByUrl[u], ReservedUtilizationTypeByUrl[u], f)
  }

  lemma {:induction false} BlocksNamesSource(blocks: seq<RegionBlock>, f: Filters, name: Option<string>)
    requires name in BlocksNames(blocks, f)
    ensures exists b | b in blocks :: !SkipsRegion(f, b) && Get(JsonNameToEc2RegionsApi, b.region) == name
  {
    var init, last := blocks[..|blocks| - 1], blocks[|blocks| - 1];
    if name in BlocksNames(init, f) {
      BlocksNamesSource(init, f, name);
      var b :| b in init && !SkipsRegion(f, b) && Get(JsonNameToEc2RegionsApi, b.region) == name;
      assert b in blocks;
    } else {
      assert last in blocks;
    }
  }

  lemma {:induction false} BlocksRecordsSource(name: Option<string>, os: string, util: string, blocks: seq<RegionBlock>, f: Filters,
                                               rec: ReservedRecord)
    requires rec in BlocksRecordsFor(name, os, util, blocks, f)
    ensures exists b | b in blocks ::
              && !SkipsRegion(f, b) && Get(JsonNameToEc2RegionsApi, b.region) == name && b.instanceTypes.Some?
              && rec in FamiliesReserved(b.instanceTypes.value, os, util, f)
  {
    var init, last := blocks[..|blocks| - 1], blocks[|blocks| - 1];
    if rec in BlocksRecordsFor(name, os, util, init, f) {
      BlocksRecordsSource(name, os, util, init, f, rec);
      var b :| b in init && !SkipsRegion(f, b) && Get(JsonNameToEc2RegionsApi, b.region) == name && b.instanceTypes.Some?
               && rec in FamiliesReserved(b.instanceTypes.value, os, util, f);
      assert b in blocks;
    } else {
      assert last in blocks;
    }
  }

  lemma {:induction false} UrlsNamesSource(urls: seq<string>, load: string -> Document, f: Filters, name: Option<string>)
    requires name in UrlsNames(urls, load, f)
    ensures exists u, b :: Supplies(f, load, urls, u, b, name)
  {
    var init, u := urls[..|urls| - 1], urls[|urls| - 1];
    if name in UrlsNames(init, load, f) {
      UrlsNamesSource(init, load, f, name);
      var v, b :| Supplies(f, load, init, v, b, name);
      assert Supplies(f, load, urls, v, b, name);
    } else {
      BlocksNamesSource(load(u).config.value.regions.value, f, name);
      var b :| b in load(u).config.value.regions.value && !SkipsRegion(f, b) && Get(JsonNameToEc2RegionsApi, b.region) == name;
      assert Supplies(f, load, urls, u, b, name);
    }
  }

  lemma {:induction false} UrlsRecordsSource(name: Option<string>, urls: seq<string>, load: string -> Document, f: Filters,
                                             rec: ReservedRecord)
    requires forall u | u in urls :: u in ReservedOsTypeByUrl && u in ReservedUtilizationTypeByUrl
    requires rec in UrlsRecordsFor(name, urls, load, f)
    ensures exists u, b :: SuppliesRecord(f, load, urls, u, b, name, rec)
  {
    var init, u := urls[..|urls| - 1], urls[|urls| - 1];
    assert forall v | v in init :: v in urls;
    if rec in UrlsRecordsFor(name, init, load, f) {
      UrlsRecordsSource(name, init, load, f, rec);
      var v, b :| SuppliesRecord(f, load, init, v, b, name, rec);
      assert SuppliesRecord(f, load, urls, v, b, name, rec);
    } else {
      var os, util := ReservedOsTypeByUrl[u], ReservedUtilizationTypeByUrl[u];
      var blocks := load(u).config.value.regions.value;
      BlocksRecordsSource(name, os, util, blocks, f, rec);
      var b :| b in blocks && !SkipsRegion(f, b) && Get(JsonNameToEc2RegionsApi, b.region) == name && b.instanceTypes.Some?
               && rec in FamiliesReserved(b.instanceTypes.value, os, util, f);
      assert SuppliesRecord(f, load, urls, u, b, name, rec);
    }
  }

  /** The converse of `ReservedResultComplete`: every reserved entry was
      opened by a kept block of a reserved feed with the entry's name, and
      every record in it comes from the families of such a block. */
  lemma ReservedResultSound(f: Filters, load: string -> Document)
    ensures forall e | e in ReservedSpec(f, load).regions :: exists u, b :: Supplies(f, load, ReservedUrls, u, b, e.region)
    ensures forall e, rec | e in ReservedSpec(f, load).regions && rec in e.instanceTypes ::
              exists u, b :: SuppliesRecord(f, load, ReservedUrls, u, b, e.region, rec)
  {
    ReservedResultExact(f, load);
    forall e | e in ReservedSpec(f, load).regions
      ensures exists u, b :: Supplies(f, load, ReservedUrls, u, b, e.region)
    {
      UrlsNamesSource(ReservedUrls, load, f, e.region);
    }
    forall e, rec | e in ReservedSpec(f, load).regions && rec in e.instanceTypes
      ensures exists u, b :: SuppliesRecord(f, load, ReservedUrls, u, b, e.region, rec)
    {
      UrlsRecordsSource(e.region, ReservedUrls, load, f, rec);
    }
  }

  /** Under a truthy filter naming a region of the table, every reserved
      entry is that region's, or NULL. */
  lemma ReservedRegionFilter(f: Filters, load: string -> Document)
    requires Truthy(f.region) && f.region.value in Ec2RegionsApiToJsonName
    ensures forall e | e in ReservedSpec(f, load).regions :: e.region.None? || e.region == f.region
  {
    ReservedResultOk(f, load);
    RegionTablesRoundTrip();
  }

  // ---------------------------------------------------------------------
  // On-demand prices, specified

  /** `$price_data["prices"][$currency]`. */
  function UsdCell(col: PriceColumn): Option<string> {
    if DefaultCurrency in col.prices then Some(col.prices[DefaultCurrency]) else None
  }

  datatype OnDemandRecord = OnDemandRecord(instanceType: string, os: string, price: real)

  datatype OnDemandRegion = OnDemandRegion(region: Option<string>, instanceTypes: seq<OnDemandRecord>)

  datatype OnDemandResult = OnDemandResult(currency: string, unit: string, regions: seq<OnDemandRegion>)

  /** The record a price column yields, if it passes the filters: the
      column's name is the os and its USD cell, through floatval, the
      price. */
  function ColumnOnDemand(t: string, col: PriceColumn, f: Filters): seq<OnDemandRecord> {
    var price := FloatVal(UsdCell(col));
    if KeepsType(f, t) && KeepsOs(f, col.name) then [OnDemandRecord(t, col.name, price)] else []
  }

  function ColumnsOnDemand(t: string, cols: seq<PriceColumn>, f: Filters): seq<OnDemandRecord> {
    if cols == [] then []
    else ColumnsOnDemand(t, cols[..|cols| - 1], f) + ColumnOnDemand(t, cols[|cols| - 1], f)
  }

  function SizesOnDemand(name: string -> string, sizes: seq<SizeEntry>, f: Filters): seq<OnDemandRecord> {
    if sizes == [] then []
    else
      var s := sizes[|sizes| - 1];
      SizesOnDemand(name, sizes[..|sizes| - 1], f) + ColumnsOnDemand(name(s.size), s.valueColumns, f)
  }

  function FamilyOnDemand(fam: Family, f: Filters): seq<OnDemandRecord> {
    if fam.sizes.Some? then SizesOnDemand(Namer(fam.typeCode), fam.sizes.value, f) else []
  }

  function FamiliesOnDemand(fams: seq<Family>, f: Filters): seq<OnDemandRecord> {
    if fams == [] then []
    else FamiliesOnDemand(fams[..|fams| - 1], f) + FamilyOnDemand(fams[|fams| - 1], f)
  }

  /** The entry a region block yields: none for a falsy or filtered region
      name, and none for a block without `instanceTypes`. */
  function BlockOnDemand(b: RegionBlock, f: Filters): seq<OnDemandRegion> {
    if !Truthy(b.region) || SkipsRegion(f, b) || b.instanceTypes.None? then []
    else [OnDemandRegion(Get(JsonNameToEc2RegionsApi, b.region), FamiliesOnDemand(b.instanceTypes.value, f))]
  }

  function BlocksOnDemand(blocks: seq<RegionBlock>, f: Filters): seq<OnDemandRegion> {
    if blocks == [] then []
    else BlocksOnDemand(blocks[..|blocks| - 1], f) + BlockOnDemand(blocks[|blocks| - 1], f)
  }

  /** get_ec2_ondemand_instances_prices on the loaded document: NULL when
      it has no regions. */
  function OnDemandSpec(f: Filters, d: Document): Option<OnDemandResult> {
    if HasRegions(d) then Some(OnDemandResult(DefaultCurrency, "perhr", BlocksOnDemand(d.config.value.regions.value, f)))
    else None
  }

  // ---------------------------------------------------------------------
  // On-demand prices, properties

  predicate OnDemandRecordOk(f: Filters, rec: OnDemandRecord) {
    KeepsType(f, rec.instanceType) && KeepsOs(f, rec.os) && rec.instanceType != "cc1.8xlarge"
  }

  /** Every entry under a truthy region filter is the filter's region; its
      records passed both filters. */
  predicate OnDemandRegionOk(f: Filters, e: OnDemandRegion) {
    && (Truthy(f.region) ==> e.region == Get(JsonNameToEc2RegionsApi, TranslatedRegion(f)))
    && (forall rec | rec in e.instanceTypes :: OnDemandRecordOk(f, rec))
  }

  lemma {:induction false} ColumnsOnDemandOk(t: string, cols: seq<PriceColumn>, f: Filters)
    requires t != "cc1.8xlarge"
    ensures forall rec | rec in ColumnsOnDemand(t, cols, f) :: OnDemandRecordOk(f, rec)
    ensures |ColumnsOnDemand(t, cols, f)| <= |cols|
  {
    if cols != [] {
      ColumnsOnDemandOk(t, cols[..|cols| - 1], f);
    }
  }

  lemma {:induction false} SizesOnDemandOk(typeCode: Option<string>, sizes: seq<SizeEntry>, f: Filters)
    ensures forall rec | rec in SizesOnDemand(Namer(typeCode), sizes, f) :: OnDemandRecordOk(f, rec)
  {
    if sizes != [] {
      SizesOnDemandOk(typeCode, sizes[..|sizes| - 1], f);
      var s := sizes[|sizes| - 1];
      ColumnsOnDemandOk(TypeName(typeCode, s.size), s.valueColumns, f);
      assert Namer(typeCode)(s.size) == TypeName(typeCode, s.size);
    }
  }

  lemma {:induction false} FamiliesOnDemandOk(fams: seq<Family>, f: Filters)
    ensures forall rec | rec in FamiliesOnDemand(fams, f) :: OnDemandRecordOk(f, rec)
  {
    if fams != [] {
      FamiliesOnDemandOk(fams[..|fams| - 1], f);
      var fam := fams[|fams| - 1];
      if fam.sizes.Some? {
        SizesOnDemandOk(fam.typeCode, fam.sizes.value, f);
      }
    }
  }

  lemma {:induction false} BlocksOnDemandOk(blocks: seq<RegionBlock>, f: Filters)
    ensures forall e | e in BlocksOnDemand(blocks, f) :: OnDemandRegionOk(f, e)
    ensures |BlocksOnDemand(blocks, f)| <= |blocks|
  {
    if blocks != [] {
      BlocksOnDemandOk(blocks[..|blocks| - 1], f);
      var b := blocks[|blocks| - 1];
      if !(!Truthy(b.region) || SkipsRegion(f, b) || b.instanceTypes.None?) {
        FamiliesOnDemandOk(b.instanceTypes.value, f);
        assert Truthy(f.region) ==> TranslatedRegion(f) == b.region;
      }
    }
  }

  /** The on-demand result is NULL exactly when the document has no
      regions; otherwise it has at most one entry per region block, each
      one the filter's region when a region filter is given, with records
      that passed both filters. */
  lemma OnDemandResultOk(f: Filters, d: Document)
    ensures OnDemandSpec(f, d).None? <==> !HasRegions(d)
    ensures OnDemandSpec(f, d).Some? ==>
              && OnDemandSpec(f, d).value.currency == DefaultCurrency
              && OnDemandSpec(f, d).value.unit == "perhr"
              && |OnDemandSpec(f, d).value.regions| <= |d.config.value.regions.value|
              && forall e | e in OnDemandSpec(f, d).value.regions :: OnDemandRegionOk(f, e)
  {
    if HasRegions(d) {
      BlocksOnDemandOk(d.config.value.regions.value, f);
    }
  }

  /** Under a truthy filter naming a region of the table every on-demand
      entry is that region's; under one naming no region of the table the
      result has no entries at all. */
  lemma OnDemandRegionFilter(f: Filters, d: Document)
    requires Truthy(f.region) && HasRegions(d)
    ensures f.region.value in Ec2RegionsApiToJsonName ==>
              forall e | e in OnDemandSpec(f, d).value.regions :: e.region == f.region
    ensures f.region.value !in Ec2RegionsApiToJsonName ==> OnDemandSpec(f, d).value.regions == []
  {
    OnDemandResultOk(f, d);
    RegionTablesRoundTrip();
    if f.region.value !in Ec2RegionsApiToJsonName {
      NothingPassesUnknownFilter(d.config.value.regions.value, f);
    }
  }

  lemma {:induction false} NothingPassesUnknownFilter(blocks: seq<RegionBlock>, f: Filters)
    requires Truthy(f.region) && f.region.value !in Ec2RegionsApiToJsonName
    ensures BlocksOnDemand(blocks, f) == []
  {
    if blocks != [] {
      NothingPassesUnknownFilter(blocks[..|blocks| - 1], f);
    }
  }

  /** One turn of the on-demand size loop. */
  lemma PushOnDemandSizesStep(list: seq<OnDemandRecord>, name: string -> string, sizes: seq<SizeEntry>, j: nat, f: Filters,
                              before: seq<OnDemandRecord>, after: seq<OnDemandRecord>)
    requires j < |sizes|
    requires before == list + SizesOnDemand(name, sizes[..j], f)
    requires after == before + ColumnsOnDemand(name(sizes[j].size), sizes[j].valueColumns, f)
    ensures after == list + SizesOnDemand(name, sizes[..j + 1], f)
  {
    assert sizes[..j + 1][..j] == sizes[..j];
    AppendAssociative(list, SizesOnDemand(name, sizes[..j], f), ColumnsOnDemand(name(sizes[j].size), sizes[j].valueColumns, f));
  }

  /** The columns whose name passes the operating-system filter, in order. */
  function KeptColumns(cols: seq<PriceColumn>, f: Filters): (r: seq<PriceColumn>)
    ensures forall c :: c in r <==> c in cols && KeepsOs(f, c.name)
  {
    if cols == [] then []
    else
      var init, c := cols[..|cols| - 1], cols[|cols| - 1];
      assert cols == init + [c];
      KeptColumns(init, f) + (if KeepsOs(f, c.name) then [c] else [])
  }

  /** The record a surviving column yields: the column's name is the os and
      floatval of its USD cell the price. */
  function ColumnRecord(t: string, c: PriceColumn): OnDemandRecord {
    OnDemandRecord(t, c.name, FloatVal(UsdCell(c)))
  }

  /** The column loop emits one record per column that survives both
      filters, in column order, priced by floatval of its USD cell; nothing
      when the type is filtered out. */
  lemma {:induction false} ColumnsOnDemandExact(t: string, cols: seq<PriceColumn>, f: Filters)
    ensures !KeepsType(f, t) ==> ColumnsOnDemand(t, cols, f) == []
    ensures KeepsType(f, t) ==>
              && |ColumnsOnDemand(t, cols, f)| == |KeptColumns(cols, f)|
              && forall i | 0 <= i < |KeptColumns(cols, f)| :: ColumnsOnDemand(t, cols, f)[i] == ColumnRecord(t, KeptColumns(cols, f)[i])
  {
    if cols != [] {
      var init, c := cols[..|cols| - 1], cols[|cols| - 1];
      ColumnsOnDemandExact(t, init, f);
      if KeepsType(f, t) {
        var k, r := KeptColumns(cols, f), ColumnsOnDemand(t, cols, f);
        var k0, r0 := KeptColumns(init, f), ColumnsOnDemand(t, init, f);
        forall i | 0 <= i < |k| ensures r[i] == ColumnRecord(t, k[i]) {
          if i < |k0| {
            assert r[i] == r0[i] && k[i] == k0[i];
          } else {
            assert k[i] == c && r[i] == ColumnRecord(t, c);
          }
        }
      }
    }
  }

  /** A record is emitted for a column list exactly when some column
      survives the filters and yields it. */
  lemma ColumnsOnDemandMember(t: string, cols: seq<PriceColumn>, f: Filters)
    ensures forall rec :: rec in ColumnsOnDemand(t, cols, f) <==>
                          KeepsType(f, t) && exists c | c in cols && KeepsOs(f, c.name) :: rec == ColumnRecord(t, c)
  {
    ColumnsOnDemandExact(t, cols, f);
    var k, r := KeptColumns(cols, f), ColumnsOnDemand(t, cols, f);
    forall rec | rec in r ensures exists c | c in cols && KeepsOs(f, c.name) :: rec == ColumnRecord(t, c) {
      var i :| 0 <= i < |r| && r[i] == rec;
      assert k[i] in k;
    }
    forall c | c in cols && KeepsOs(f, c.name) && KeepsType(f, t) ensures ColumnRecord(t, c) in r {
      var i :| 0 <= i < |k| && k[i] == c;
      assert r[i] == ColumnRecord(t, c);
    }
  }

  /** The columns of size entry `s`, in a family with code `typeCode`,
      yield `rec`. */
  predicate SizeYieldsOnDemand(f: Filters, typeCode: Option<string>, s: SizeEntry, rec: OnDemandRecord) {
    var t := TypeName(typeCode, s.size);
    KeepsType(f, t) && exists c | c in s.valueColumns && KeepsOs(f, c.name) :: rec == ColumnRecord(t, c)
  }

  lemma {:induction false} SizesOnDemandMember(typeCode: Option<string>, sizes: seq<SizeEntry>, f: Filters)
    ensures forall rec :: rec in SizesOnDemand(Namer(typeCode), sizes, f) <==>
                          exists s | s in sizes :: SizeYieldsOnDemand(f, typeCode, s, rec)
  {
    if sizes != [] {
      var init, s := sizes[..|sizes| - 1], sizes[|sizes| - 1];
      assert sizes == init + [s];
      SizesOnDemandMember(typeCode, init, f);
      var t := TypeName(typeCode, s.size);
      assert Namer(typeCode)(s.size) == t;
      ColumnsOnDemandMember(t, s.valueColumns, f);
      forall rec ensures rec in ColumnsOnDemand(t, s.valueColumns, f) <==> SizeYieldsOnDemand(f, typeCode, s, rec) {
      }
    }
  }

  /** The family loop emits exactly the records of the surviving columns of
      every size of every family that has `sizes`. */
  lemma {:induction false} FamiliesOnDemandMember(fams: seq<Family>, f: Filters)
    ensures forall rec :: rec in FamiliesOnDemand(fams, f) <==>
                          exists fam | fam in fams && fam.sizes.Some? ::
                            exists s | s in fam.sizes.value :: SizeYieldsOnDemand(f, fam.typeCode, s, rec)
  {
    if fams != [] {
      var init, fam := fams[..|fams| - 1], fams[|fams| - 1];
      assert fams == init + [fam];
      FamiliesOnDemandMember(init, f);
      if fam.sizes.Some? {
        SizesOnDemandMember(fam.typeCode, fam.sizes.value, f);
      }
    }
  }

  /** A region block the on-demand method turns into an entry: a truthy
      region name the filter keeps, and `instanceTypes`. */
  predicate KeptOnDemand(f: Filters, b: RegionBlock) {
    Truthy(b.region) && !SkipsRegion(f, b) && b.instanceTypes.Some?
  }

  /** The blocks that yield an entry, in order. */
  function KeptBlocks(blocks: seq<RegionBlock>, f: Filters): (r: seq<RegionBlock>)
    ensures forall b :: b in r <==> b in blocks && KeptOnDemand(f, b)
    ensures forall i | 0 <= i < |r| :: KeptOnDemand(f, r[i])
  {
    if blocks == [] then []
    else
      var init, b := blocks[..|blocks| - 1], blocks[|blocks| - 1];
      assert blocks == init + [b];
      KeptBlocks(init, f) + (if KeptOnDemand(f, b) then [b] else [])
  }

  /** The region loop emits one entry per kept block, in block order, named
      by the block's canonical region (NULL for an unknown label) and
      holding its families' records. */
  lemma {:induction false} BlocksOnDemandExact(blocks: seq<RegionBlock>, f: Filters)
    ensures |BlocksOnDemand(blocks, f)| == |KeptBlocks(blocks, f)|
    ensures forall i | 0 <= i < |KeptBlocks(blocks, f)| ::
              BlocksOnDemand(blocks, f)[i]
              == OnDemandRegion(Get(JsonNameToEc2RegionsApi, KeptBlocks(blocks, f)[i].region),
                                FamiliesOnDemand(KeptBlocks(blocks, f)[i].instanceTypes.value, f))
  {
    if blocks != [] {
      var init, b := blocks[..|blocks| - 1], blocks[|blocks| - 1];
      BlocksOnDemandExact(init, f);
      var k, r := KeptBlocks(blocks, f), BlocksOnDemand(blocks, f);
      var k0, r0 := KeptBlocks(init, f), BlocksOnDemand(init, f);
      forall i | 0 <= i < |k|
        ensures r[i] == OnDemandRegion(Get(JsonNameToEc2RegionsApi, k[i].region), FamiliesOnDemand(k[i].instanceTypes.value, f))
      {
        if i < |k0| {
          assert r[i] == r0[i] && k[i] == k0[i];
        } else {
          assert k[i] == b;
        }
      }
    }
  }

  /** The on-demand result has one entry for each region block with a
      truthy region name that the filter keeps and that has
      `instanceTypes`, in block order; the entry is named by the block's
      canonical region and holds exactly the records of the columns that
      survive both filters, each priced by floatval of its USD cell. */
  lemma OnDemandResultComplete(f: Filters, d: Document)
    requires HasRegions(d)
    ensures var kept := KeptBlocks(d.config.value.regions.value, f);
            var entries := OnDemandSpec(f, d).value.regions;
            && |entries| == |kept|
            && forall i | 0 <= i < |kept| ::
                 && entries[i].region == Get(JsonNameToEc2RegionsApi, kept[i].region)
                 && forall rec :: rec in entries[i].instanceTypes <==>
                      exists fam | fam in kept[i].instanceTypes.value && fam.sizes.Some? ::
                        exists s | s in fam.sizes.value :: SizeYieldsOnDemand(f, fam.typeCode, s, rec)
  {
    var blocks := d.config.value.regions.value;
    var kept := KeptBlocks(blocks, f);
    BlocksOnDemandExact(blocks, f);
    forall i | 0 <= i < |kept| ensures
      forall rec :: rec in FamiliesOnDemand(kept[i].instanceTypes.value, f) <==>
        exists fam | fam in kept[i].instanceTypes.value && fam.sizes.Some? ::
          exists s | s in fam.sizes.value :: SizeYieldsOnDemand(f, fam.typeCode, s, rec)
    {
      FamiliesOnDemandMember(kept[i].instanceTypes.value, f);
    }
  }

  // ---------------------------------------------------------------------
  // The class

  class EC2InstancePrices {
    var reservedOsTypeByUrl: map<string, string>
    var reservedUtilizationTypeByUrl: map<string, string>

    /** The two per-URL maps hold the tags of the six reserved feeds. */
    predicate Valid()
      reads this
    {
      reservedOsTypeByUrl == ReservedOsTypeByUrl && reservedUtilizationTypeByUrl == ReservedUtilizationTypeByUrl
    }

    /** Fills the reserved os and utilization maps for the six reserved
        feeds. */
    constructor ()
      ensures Valid()
      ensures reservedOsTypeByUrl.Keys == set u | u in ReservedUrls
    {
      var os: map<string, string> := map[];
      var utilization: map<string, string> := map[];
      os := os[ReservedLightLinuxUrl := "linux"];
      os := os[ReservedLightWindowsUrl := "mswin"];
      os := os[ReservedMediumLinuxUrl := "linux"];
      os := os[ReservedMediumWindowsUrl := "mswin"];
      os := os[ReservedHeavyLinuxUrl := "linux"];
      os := os[ReservedHeavyWindowsUrl := "mswin"];
      utilization := utilization[ReservedLightLinuxUrl := "light"];
      utilization := utilization[ReservedLightWindowsUrl := "light"];
      utilization := utilization[ReservedMediumLinuxUrl := "medium"];
      utilization := utilization[ReservedMediumWindowsUrl := "medium"];
      utilization := utilization[ReservedHeavyLinuxUrl := "heavy"];
      utilization := utilization[ReservedHeavyWindowsUrl := "heavy"];
      reservedOsTypeByUrl := os;
      reservedUtilizationTypeByUrl := utilization;
      new;
      ReservedTablesCoverPairs();
    }

    /** The size loop of the reserved method: pushes each surviving size's
        record, then runs the column loop that fills only the local
        `prices`. */
    method PushSizes(list: seq<ReservedRecord>, name: string -> string, sizes: seq<SizeEntry>,
                     os: string, util: string, f: Filters) returns (r: seq<ReservedRecord>)
      ensures r == list + SizesReserved(name, sizes, os, util, f)
    {
      r := list;
      var i := 0;
      while i < |sizes|
        invariant 0 <= i <= |sizes|
        invariant r == list + SizesReserved(name, sizes[..i], os, util, f)
      {
        assert sizes[..i + 1][..i] == sizes[..i];
        var s := sizes[i];
        var prices := NullPrices;
        var t := name(s.size);
        assert SizesReserved(name, sizes[..i + 1], os, util, f)
               == SizesReserved(name, sizes[..i], os, util, f) + SizeReserved(name, s, os, util, f);
        if (Truthy(f.instanceType) && Some(t) != f.instanceType) || (Truthy(f.osType) && Some(os) != f.osType) {
          assert SizeReserved(name, s, os, util, f) == [];
          i := i + 1;
          continue;
        }
        assert SizeReserved(name, s, os, util, f) == [ReservedRecord(t, os, util, prices)];
        r := r + [ReservedRecord(t, os, util, prices)];
        var j := 0;
        while j < |s.valueColumns|
          invariant 0 <= j <= |s.valueColumns|
        {
          var col := s.valueColumns[j];
          var price := FloatVal(UsdCell(col));
          if col.name == "yrTerm1" {
            prices := prices.(oneYear := prices.oneYear.(upfront := Some(price)));
          } else if col.name == "yrTerm1Hourly" {
            prices := prices.(oneYear := prices.oneYear.(hourly := Some(price)));
          } else if col.name == "yrTerm3" {
            prices := prices.(threeYear := prices.threeYear.(upfront := Some(price)));
          } else if col.name == "yrTerm3Hourly" {
            prices := prices.(threeYear := prices.threeYear.(hourly := Some(price)));
          }
          j := j + 1;
        }
        i := i + 1;
      }
      assert sizes[..i] == sizes;
    }

    /** The family loop of the reserved method. */
    method PushFamilies(list: seq<ReservedRecord>, fams: seq<Family>, os: string, util: string, f: Filters)
      returns (r: seq<ReservedRecord>)
      ensures r == list + FamiliesReserved(fams, os, util, f)
    {
      r := list;
      var i := 0;
      while i < |fams|
        invariant 0 <= i <= |fams|
        invariant r == list + FamiliesReserved(fams[..i], os, util, f)
      {
        var it := fams[i];
        ghost var before := r;
        if it.sizes.Some? {
          r := PushSizes(r, Namer(it.typeCode), it.sizes.value, os, util, f);
        }
        PushFamiliesStep(list, fams, i, os, util, f, before, r);
        i := i + 1;
      }
      assert fams[..i] == fams;
    }

    /** One region block of a reserved feed: skipped when the region
        filter rejects it; otherwise a region name seen before reuses its
        entry through `$result_indices`, a new one gets an empty entry at the
        end, and its families' records are appended there. */
    method GroupBlock(regions0: seq<ReservedRegion>, indices0: map<Option<string>, nat>,
                      regionsIndex0: map<Option<string>, Option<string>>,
                      osType: string, utilizationType: string, b: RegionBlock,
                      f: Filters, regionFilter: Option<string>)
      returns (regions: seq<ReservedRegion>, indices: map<Option<string>, nat>,
               regionsIndex: map<Option<string>, Option<string>>)
      requires IndicesInRange(Grouping(regions0, indices0)) && regionsIndex0.Keys == indices0.Keys
      requires regionFilter == TranslatedRegion(f)
      ensures Grouping(regions, indices) == AddBlock(Grouping(regions0, indices0), osType, utilizationType, b, f)
      ensures IndicesInRange(Grouping(regions, indices)) && regionsIndex.Keys == indices.Keys
    {
      regions, indices, regionsIndex := regions0, indices0, regionsIndex0;
      ghost var g := Grouping(regions0, indices0);
      if Truthy(b.region) && Truthy(f.region) && regionFilter != b.region {
        assert SkipsRegion(f, b);
        return;
      }
      assert !SkipsRegion(f, b);
      var regionName := Get(JsonNameToEc2RegionsApi, b.region);
      if regionName !in regionsIndex {
        regions := regions + [ReservedRegion(regionName, [])];
        indices := indices[regionName := |regions| - 1];
        regionsIndex := regionsIndex[regionName := regions[|regions| - 1].region];
      }
      assert Grouping(regions, indices) == OpenEntry(g, regionName);
      var at := indices[regionName];
      if b.instanceTypes.Some? {
        var pushed := PushFamilies(regions[at].instanceTypes, b.instanceTypes.value, osType, utilizationType, f);
        regions := regions[at := regions[at].(instanceTypes := pushed)];
        assert Grouping(regions, indices) == PushAt(OpenEntry(g, regionName), at, FamiliesReserved(b.instanceTypes.value, osType, utilizationType, f));
      }
    }

    /** The region blocks of one reserved feed, in order. */
    method GroupBlocks(regions0: seq<ReservedRegion>, indices0: map<Option<string>, nat>,
                       regionsIndex0: map<Option<string>, Option<string>>,
                       osType: string, utilizationType: string, blocks: seq<RegionBlock>,
                       f: Filters, regionFilter: Option<string>)
      returns (regions: seq<ReservedRegion>, indices: map<Option<string>, nat>,
               regionsIndex: map<Option<string>, Option<string>>)
      requires IndicesInRange(Grouping(regions0, indices0)) && regionsIndex0.Keys == indices0.Keys
      requires regionFilter == TranslatedRegion(f)
      ensures Grouping(regions, indices) == AddBlocks(Grouping(regions0, indices0), osType, utilizationType, blocks, f)
      ensures IndicesInRange(Grouping(regions, indices)) && regionsIndex.Keys == indices.Keys
    {
      regions, indices, regionsIndex := regions0, indices0, regionsIndex0;
      ghost var start := Grouping(regions0, indices0);
      var j := 0;
      while j < |blocks|
        invariant 0 <= j <= |blocks|
        invariant AddBlocks(start, osType, utilizationType, blocks[..j], f) == Grouping(regions, indices)
        invariant IndicesInRange(Grouping(regions, indices)) && regionsIndex.Keys == indices.Keys
      {
        assert blocks[..j + 1][..j] == blocks[..j];
        regions, indices, regionsIndex :=
          GroupBlock(regions, indices, regionsIndex, osType, utilizationType, blocks[j], f, regionFilter);
        j := j + 1;
      }
      assert blocks[..j] == blocks;
    }

    /** One reserved feed: its tags from the two per-URL maps, its
        document, and its region blocks when the document has regions. */
    method GroupUrl(regions0: seq<ReservedRegion>, indices0: map<Option<string>, nat>,
                    regionsIndex0: map<Option<string>, Option<string>>,
                    u: string, load: string -> Document, f: Filters, regionFilter: Option<string>)
      returns (regions: seq<ReservedRegion>, indices: map<Option<string>, nat>,
               regionsIndex: map<Option<string>, Option<string>>)
      requires Valid()
      requires u in ReservedOsTypeByUrl && u in ReservedUtilizationTypeByUrl
      requires IndicesInRange(Grouping(regions0, indices0)) && regionsIndex0.Keys == indices0.Keys
      requires regionFilter == TranslatedRegion(f)
      ensures Grouping(regions, indices) == AddUrl(Grouping(regions0, indices0), u, load, f)
      ensures IndicesInRange(Grouping(regions, indices)) && regionsIndex.Keys == indices.Keys
    {
      regions, indices, regionsIndex := regions0, indices0, regionsIndex0;
      var osType := reservedOsTypeByUrl[u];
      var utilizationType := reservedUtilizationTypeByUrl[u];
      var data := load(u);
      if HasRegions(data) {
        regions, indices, regionsIndex :=
          GroupBlocks(regions, indices, regionsIndex, osType, utilizationType, data.config.value.regions.value, f, regionFilter);
      }
    }

    method GetEc2ReservedInstancesPrices(filterRegion: Option<string>, filterInstanceType: Option<string>,
                                         filterOsType: Option<string>, load: string -> Document)
      returns (r: ReservedResult)
      requires Valid()
      ensures r == ReservedSpec(Filters(filterRegion, filterInstanceType, filterOsType), load)
    {
      var f := Filters(filterRegion, filterInstanceType, filterOsType);
      var regionFilter := filterRegion;
      if Truthy(filterRegion) {
        regionFilter := Get(Ec2RegionsApiToJsonName, filterRegion);
      }
      var urls := ReservedUrls;
      ReservedUrlsTagged();
      var regionsIndex: map<Option<string>, Option<string>> := map[];
      var indices: map<Option<string>, nat> := map[];
      var regions: seq<ReservedRegion> := [];
      var i := 0;
      while i < |urls|
        invariant 0 <= i <= |urls|
        invariant forall v | v in urls[..i] :: v in ReservedOsTypeByUrl && v in ReservedUtilizationTypeByUrl
        invariant AddUrls(NoRegions, urls[..i], load, f) == Grouping(regions, indices)
        invariant IndicesInRange(Grouping(regions, indices)) && regionsIndex.Keys == indices.Keys
      {
        var u := urls[i];
        AddUrlsSnoc(NoRegions, urls, i, load, f);
        regions, indices, regionsIndex := GroupUrl(regions, indices, regionsIndex, u, load, f, regionFilter);
        i := i + 1;
      }
      assert urls[..i] == urls;
      r := ReservedResult(DefaultCurrency, regions);
    }

    /** The column loop of the on-demand method. */
    method PushColumns(list: seq<OnDemandRecord>, t: string, cols: seq<PriceColumn>, f: Filters)
      returns (r: seq<OnDemandRecord>)
      ensures r == list + ColumnsOnDemand(t, cols, f)
    {
      r := list;
      var i := 0;
      while i < |cols|
        invariant 0 <= i <= |cols|
        invariant r == list + ColumnsOnDemand(t, cols[..i], f)
      {
        assert cols[..i + 1][..i] == cols[..i];
        var col := cols[i];
        var price := FloatVal(UsdCell(col));
        assert ColumnsOnDemand(t, cols[..i + 1], f) == ColumnsOnDemand(t, cols[..i], f) + ColumnOnDemand(t, col, f);
        if (Truthy(f.instanceType) && Some(t) != f.instanceType) || (Truthy(f.osType) && Some(col.name) != f.osType) {
          assert ColumnOnDemand(t, col, f) == [];
          i := i + 1;
          continue;
        }
        assert ColumnOnDemand(t, col, f) == [OnDemandRecord(t, col.name, price)];
        r := r + [OnDemandRecord(t, col.name, price)];
        i := i + 1;
      }
      assert cols[..i] == cols;
    }

    /** The size loop of the on-demand method. */
    method PushOnDemandSizes(list: seq<OnDemandRecord>, name: string -> string, sizes: seq<SizeEntry>, f: Filters)
      returns (r: seq<OnDemandRecord>)
      ensures r == list + SizesOnDemand(name, sizes, f)
    {
      r := list;
      var j := 0;
      while j < |sizes|
        invariant 0 <= j <= |sizes|
        invariant r == list + SizesOnDemand(name, sizes[..j], f)
      {
        var s := sizes[j];
        ghost var before := r;
        r := PushColumns(r, name(s.size), s.valueColumns, f);
        PushOnDemandSizesStep(list, name, sizes, j, f, before, r);
        j := j + 1;
      }
      assert sizes[..j] == sizes;
    }

    /** The family loop of the on-demand method. */
    method PushOnDemandFamilies(fams: seq<Family>, f: Filters) returns (r: seq<OnDemandRecord>)
      ensures r == FamiliesOnDemand(fams, f)
    {
      r := [];
      var i := 0;
      while i < |fams|
        invariant 0 <= i <= |fams|
        invariant r == FamiliesOnDemand(fams[..i], f)
      {
        assert fams[..i + 1][..i] == fams[..i];
        var it := fams[i];
        assert FamiliesOnDemand(fams[..i + 1], f) == FamiliesOnDemand(fams[..i], f) + FamilyOnDemand(it, f);
        if it.sizes.Some? {
          r := PushOnDemandSizes(r, Namer(it.typeCode), it.sizes.value, f);
        }
        i := i + 1;
      }
      assert fams[..i] == fams;
    }

    /** get_ec2_ondemand_instances_prices: one entry per region block with a
        truthy region name and `instanceTypes`; NULL when the document has
        no regions. */
    method GetEc2OndemandInstancesPrices(filterRegion: Option<string>, filterInstanceType: Option<string>,
                                         filterOsType: Option<string>, load: string -> Document)
      returns (r: Option<OnDemandResult>)
      ensures r == OnDemandSpec(Filters(filterRegion, filterInstanceType, filterOsType), load(InstancesOnDemandUrl))
    {
      var f := Filters(filterRegion, filterInstanceType, filterOsType);
      var regionFilter := filterRegion;
      if Truthy(filterRegion) {
        regionFilter := Get(Ec2RegionsApiToJsonName, filterRegion);
      }
      assert regionFilter == TranslatedRegion(f);
      var data := load(InstancesOnDemandUrl);
      if !HasRegions(data) {
        return None;
      }
      var blocks := data.config.value.regions.value;
      var regions: seq<OnDemandRegion> := [];
      var i := 0;
      while i < |blocks|
        invariant 0 <= i <= |blocks|
        invariant regions == BlocksOnDemand(blocks[..i], f)
      {
        assert blocks[..i + 1][..i] == blocks[..i];
        var b := blocks[i];
        assert BlocksOnDemand(blocks[..i + 1], f) == BlocksOnDemand(blocks[..i], f) + BlockOnDemand(b, f);
        if Truthy(b.region) {
          if Truthy(filterRegion) && regionFilter != b.region {
            assert SkipsRegion(f, b);
            i := i + 1;
            continue;
          }
          var regionName := Get(JsonNameToEc2RegionsApi, b.region);
          if b.instanceTypes.Some? {
            var instanceTypes := PushOnDemandFamilies(b.instanceTypes.value, f);
            regions := regions + [OnDemandRegion(regionName, instanceTypes)];
          } else {
            assert BlockOnDemand(b, f) == [];
          }
        } else {
          assert BlockOnDemand(b, f) == [];
        }
        i := i + 1;
      }
      assert blocks[..i] == blocks;
      r := Some(OnDemandResult(DefaultCurrency, "perhr", regions));
    }
  }
}
