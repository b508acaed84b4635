/** A vendor price feed after it has been decoded from JSON: the parts of the
    document both the Python normalizer and the PHP class read.  A key that
    may be missing from a JSON object is an `Option`. */
module Feed {
  import opened Wrappers

  /** One priced column of a size entry: its `name` (`linux`, `yrTerm1`,
      `emr`, ...) and its `prices` object from currency code to cell text. */
  datatype PriceColumn = PriceColumn(name: string, prices: map<string, string>)

  /** An entry of `sizes`: the size field and its `valueColumns`. */
  datatype SizeEntry = SizeEntry(size: string, valueColumns: seq<PriceColumn>)

  /** An entry of an ELB family's `values`: a `rate` tag and its `prices`. */
  datatype RateEntry = RateEntry(rate: string, prices: map<string, string>)

  /** An instance family: the `type` code the older feeds carry, and either
      `sizes` (instance feeds) or `values` (the ELB feed). */
  datatype Family = Family(typeCode: Option<string>, sizes: Option<seq<SizeEntry>>, values: Option<seq<RateEntry>>)

  /** A region block: the feed's own region name and its families under
      `instanceTypes` or, in some feeds, `types`. */
  datatype RegionBlock = RegionBlock(region: Option<string>, instanceTypes: Option<seq<Family>>, types: Option<seq<Family>>)

  datatype Config = Config(regions: Option<seq<RegionBlock>>)

  datatype Document = Document(config: Option<Config>)

  /** `config` present and non-empty, with a non-empty `regions` list. */
  predicate HasRegions(d: Document) {
    d.config.Some? && d.config.value.regions.Some? && |d.config.value.regions.value| > 0
  }
}
