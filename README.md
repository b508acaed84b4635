# ec2instancespricing, modelled in Dafny

ec2instancespricing reads Amazon's public EC2 price feeds and turns them
into one catalogue of price records. Each record holds a region, an
instance type, an operating system, a utilization and its prices.
This project models the core of the Python module
`ec2instancespricing/ec2instancespricing.py` and of the older PHP class
`EC2InstancePrices` in `ec2instancespricing.php`, and proves properties of
that model:

- **The JavaScript-literal repair pass** (`fixup_js_literal_with_comments`).
  It quotes bare words and re-quotes single-quoted strings. It also drops
  trailing commas and `//` and `/* */` comments. The model works over a
  token stream (module `JsLiteral`). The quoting repairs are checked
  against the string grammar of section 7 of RFC 8259.
- **The feed normalizer** (`get_ec2_instances_prices`). It walks a decoded
  feed document (module `Feed`):
  - translates the region filter;
  - reads the per-URL operating system and utilization tables;
  - canonicalises region names and instance types;
  - applies the type, pattern and OS filters;
  - builds the emr, reserved, on-demand/spot and elb records.

  Every Python exception (KeyError, AssertionError, ValueError) is an `Err`
  raised at the point where the original raises (module `Normalizer`).
- **Catalogue assembly**: the dispatch of `_get_data` over the feed types,
  `merge_instances`, and the region → type → utilization index that asserts
  every key is new (module `Assembly`).
- **The two result caches**, `SimpleResultsCache` and
  `TimeBasedResultsCache`, as classes over maps. The clock is an integer
  count of seconds, `now` (module `Caches`).
- **The PHP class `EC2InstancePrices`** (module `PhpPrices`):
  - its constructor, which fills the per-URL tables;
  - `get_ec2_reserved_instances_prices`, which groups records per region
    through `$result_indices`;
  - `get_ec2_ondemand_instances_prices`.

  PHP value rules are written out: NULL for a missing key, NULL as "" in
  concatenation, loose truthiness, and `floatval`.

The static tables live in `Tables` (the Python ones) and in `PhpPrices`
(the PHP ones). `PyText` holds the parts of Python's `str.replace`,
`str.strip` and `float` that the normalizer relies on. `Wrappers` holds
`Option`, `Result` and the fallible concatenating fold that specifies
every nested loop.

Each loop of the source is a `method` with a `while` loop. Its
postcondition equates its result with a specification function that
recurses on the last element. Lemmas state the source's promises about
those functions. The caches and the PHP class are `class`es whose
methods update their fields.

Where the code and its design notes disagree, the model follows the code:

- A KeyError or AssertionError raised while reading one feed aborts the
  whole call. It does not abort only that feed.
- A price cell missing the `USD` key raises KeyError in Python. Only a
  cell that is empty or does not parse becomes None.
- PHP `floatval` turns a non-numeric cell into 0, not NULL.
- The index of `_get_data` fails with a bare AssertionError. Its key is
  (region, type, utilization), and the error does not carry the key.

## Model

| member | source | states |
|---|---|---|
| JsLiteral.FixupJsLiteralWithComments | ec2instancespricing/ec2instancespricing.py:44-98 | the token loop yields exactly the emitted tokens of the specified pass, or IndexError where `result.pop()` meets an empty list |
| JsLiteral.RunInvariant | ec2instancespricing/ec2instancespricing.py:50-96 | the two comment flags are never both set, and the output never holds more tokens than were read |
| JsLiteral.QuotedNameIsJsonString | ec2instancespricing/ec2instancespricing.py:69-72 | a bare word other than the six JSON literals becomes a STRING token whose JSON value is the word; the six literals pass unchanged |
| JsLiteral.EscapeQuotesDecodes | ec2instancespricing/ec2instancespricing.py:77 | escaping `"` as `\"` in backslash-free text gives a JSON string body that decodes back to the text |
| JsLiteral.SingleQuotedIsJsonString | ec2instancespricing/ec2instancespricing.py:75-77 | a single-quoted string without backslashes is re-quoted into a JSON string with the same value |
| JsLiteral.EscapedSingleQuoteNotRepaired | ec2instancespricing/ec2instancespricing.py:75-77 | a single-quoted string containing `\'` is re-quoted into text that is not a JSON string, whatever surrounds it |
| JsLiteral.CloserDropsOneComma | ec2instancespricing/ec2instancespricing.py:80-82 | on `}` or `]` exactly one trailing comma, the last emitted token, is dropped before the closer is appended; otherwise nothing is dropped |
| JsLiteral.CommaBeforeLineBreakKept | ec2instancespricing/ec2instancespricing.py:80-82 | a comma separated from the closer by a line-break token is kept |
| JsLiteral.LineCommentBodySkipped | ec2instancespricing/ec2instancespricing.py:56-59 | inside a `//` comment, tokens other than line breaks change nothing |
| JsLiteral.LineCommentDropped | ec2instancespricing/ec2instancespricing.py:56-87 | `//`, the tokens up to the next line break, and the line break leave the state exactly as before |
| JsLiteral.LineCommentRemoved | ec2instancespricing/ec2instancespricing.py:56-87 | deleting a line comment from the input does not change the output |
| JsLiteral.BlockCommentBodySkipped | ec2instancespricing/ec2instancespricing.py:62-66 | inside a block comment, tokens without a `*` `/` pair emit nothing and only move `last_token` |
| JsLiteral.BlockCommentOpened | ec2instancespricing/ec2instancespricing.py:89-93 | `/` then `*` emit the `/`, pop it again and open a block comment |
| JsLiteral.BlockCommentClosed | ec2instancespricing/ec2instancespricing.py:62-66 | `*` then `/` close a block comment and leave `last_token` at `/` |
| JsLiteral.BlockCommentDropped | ec2instancespricing/ec2instancespricing.py:62-93 | a whole block comment leaves the output unchanged, and `last_token` is `/` although no `/` was emitted |
| JsLiteral.StaleLastTokenHarmless | ec2instancespricing/ec2instancespricing.py:62-96 | two states that differ only in `last_token` produce the same output on any stream without a `*` |
| JsLiteral.BlockCommentRemoved | ec2instancespricing/ec2instancespricing.py:62-96 | deleting a block comment does not change the output, provided the token right after it is neither `*` nor `//`; only that token can see the stale `last_token` |
| JsLiteral.StaleLastTokenOverwritten | ec2instancespricing/ec2instancespricing.py:68-96 | from a normal state, a first token other than `*` and `//` makes two states differing only in `last_token` produce the same run |
| JsLiteral.PopOnEmptyOutputFails | ec2instancespricing/ec2instancespricing.py:89-93 | the stale `/` left by a comment makes `/* */*` pop an empty list: IndexError |
| JsLiteral.RepairKeepsComma | ec2instancespricing/ec2instancespricing.py:68-77 | the quoting repairs never produce a comma token from a non-comma |
| JsLiteral.CleanStreamRepairedTokenwise | ec2instancespricing/ec2instancespricing.py:68-96 | on a stream with no comment opener and no comma before a closer, the pass is the token-by-token repair, with as many tokens out as in |
| PyText.RemoveAll | ec2instancespricing/ec2instancespricing.py:532 | `replace("*", "")` leaves no `*`, keeps only characters of the input, and is the identity on text without `*` |
| PyText.RemoveAllKeepsOthers | ec2instancespricing/ec2instancespricing.py:532 | every character other than the deleted one is kept exactly as often as it occurs in the input |
| PyText.RemoveAllAppend | ec2instancespricing/ec2instancespricing.py:532 | deleting a character from a concatenation deletes it from each part, so the kept characters stay in their order |
| PyText.Strip | ec2instancespricing/ec2instancespricing.py:532 | `strip()` is a slice of the input that drops only whitespace at both ends and neither starts nor ends with whitespace |
| PyText.ParseFloat | ec2instancespricing/ec2instancespricing.py:547-551 | `float()` of an empty cell fails, and a value read after a minus sign is not positive |
| Tables.CanonicalIdsAreFixedPoints | ec2instancespricing/ec2instancespricing.py:243-273 | every canonical region id maps to itself, so the second lookup of a translated name gives it back |
| Tables.ApiToJsonNameRoundTrip | ec2instancespricing/ec2instancespricing.py:243-287 | translating a canonical id to its feed label and back gives the id |
| Tables.PatternTableExamples | ec2instancespricing/ec2instancespricing.py:141-162 | the patterns match at the start of the type: `m*.large` accepts m3.large but not m3.xlarge, and `c*.8xlarge` accepts c4.8xlarge but not cc2.8xlarge |
| Normalizer.NoneAsString | ec2instancespricing/ec2instancespricing.py:805-809 | a falsy value becomes "", a truthy value is returned unchanged, and truthiness is preserved |
| Normalizer.CellPrice | ec2instancespricing/ec2instancespricing.py:584-589 | KeyError exactly when the column has no USD cell; otherwise the parsed value, or None for an empty or unparsable cell |
| Normalizer.CanonicalInstanceType | ec2instancespricing/ec2instancespricing.py:525-532 | `cc1.8xlarge` becomes `cc2.8xlarge`; a type with `*` is the `strip()` of the type with every `*` deleted; the result never holds `*`; other types are unchanged |
| Normalizer.CanonicalOfStarred | ec2instancespricing/ec2instancespricing.py:525-532 | a type `a*b` with no other star becomes the text `a` then `b` with the outer whitespace stripped, nothing else dropped or reordered |
| Normalizer.ColumnOs | ec2instancespricing/ec2instancespricing.py:601-602 | outside spot feeds a column named `os` is filed under `test`; every other name is kept |
| Normalizer.StrictPrice | ec2instancespricing/ec2instancespricing.py:630-634 | an unguarded `float(prices["USD"])` succeeds exactly when the cell exists and parses, with the parsed value |
| Normalizer.ElbRecord | ec2instancespricing/ec2instancespricing.py:619-638 | AssertionError exactly when `values` is not the two rates `perELBHour` then `perGBProcessed`; Ok exactly when in addition both USD cells exist and parse, and then one `elb` record with the hourly and per-GB prices; otherwise the error of the `perELBHour` cell (KeyError without USD, ValueError when it does not parse) before that of the `perGBProcessed` cell |
| Normalizer.RegionEntries | ec2instancespricing/ec2instancespricing.py:508-518 | a region block yields at most one region entry |
| Normalizer.UrlTypes | ec2instancespricing/ec2instancespricing.py:495-500 | KeyError exactly for an on-demand or reserved URL missing from its tables; otherwise the URL's tagged OS and utilization, or the feed type as utilization |
| Normalizer.TranslateRegionFilter | ec2instancespricing/ec2instancespricing.py:466-474 | spot feeds translate the region filter to the feed label (KeyError for an unknown id); reserved feeds translate only `us-east-1`; every other feed and filter (including on-demand, emr and elb with `us-east-1`) keeps the filter unchanged |
| Normalizer.CollectSize | ec2instancespricing/ec2instancespricing.py:522-618 | the body of the size loop returns exactly the specified records of one size entry |
| Normalizer.CollectEmrColumns | ec2instancespricing/ec2instancespricing.py:542-564 | the emr column loop returns one emr record per column named `emr`, or the first KeyError |
| Normalizer.CollectColumns | ec2instancespricing/ec2instancespricing.py:565-618 | for reserved feeds, one record filled from the `yrTerm*` columns; otherwise one record per column the OS filter keeps; or the first KeyError |
| Normalizer.CollectSizes | ec2instancespricing/ec2instancespricing.py:521-618 | the size loop of one family returns the records of every size in order, or the first error |
| Normalizer.CollectFamilies | ec2instancespricing/ec2instancespricing.py:520-638 | the family loop returns the concatenated records of every family, or the first error |
| Normalizer.CollectRegions | ec2instancespricing/ec2instancespricing.py:508-643 | the region loop returns the entries of every region block, or the first error |
| Normalizer.GetEc2InstancesPrices | ec2instancespricing/ec2instancespricing.py:465-645 | the whole normalizer returns exactly the specified catalogue, or the first error |
| Normalizer.ReservedFillLastTagged | ec2instancespricing/ec2instancespricing.py:583-599 | the reserved fill succeeds exactly when every column has a USD cell; each field then holds the last column with its tag, or None |
| Normalizer.ReservedSizeYieldsOneRecord | ec2instancespricing/ec2instancespricing.py:565-599 | a reserved size entry that passes the filters yields exactly one record, with the URL's OS and utilization and the last tagged prices |
| Normalizer.TypeFilterAdmits | ec2instancespricing/ec2instancespricing.py:534-540 | a type let through equals the type filter and matches the pattern filter's table entry |
| Normalizer.SizeRecordsOk | ec2instancespricing/ec2instancespricing.py:522-618 | every record of a size entry passed the type filters and has its feed type's shape, with the OS filter honoured |
| Normalizer.FamilyRecordsOk | ec2instancespricing/ec2instancespricing.py:520-638 | every record of a family is an elb record or satisfies the size-entry properties |
| Normalizer.RegionEntriesOk | ec2instancespricing/ec2instancespricing.py:508-643 | every entry of a region block is named by a canonical id, passed the region filter, and holds well-formed records |
| Normalizer.UrlEntriesOk | ec2instancespricing/ec2instancespricing.py:495-643 | every entry of one feed URL satisfies the catalogue-entry properties, with the URL's OS and utilization tags |
| Normalizer.NormalizeOutputOk | ec2instancespricing/ec2instancespricing.py:465-645 | a successful catalogue is in USD per hour, and every entry and record satisfies the catalogue properties under the translated filters |
| Normalizer.ElbBlockIgnoresFilters | ec2instancespricing/ec2instancespricing.py:619-638 | an ELB family block yields its one record, or the assertion error, whatever the filters |
| Normalizer.EmrColumnRecordedTwice | ec2instancespricing/ec2instancespricing.py:542-618 | in an emr feed without filters, a lone `emr` column is recorded twice: once by the emr loop and once by the generic loop |
| Normalizer.UnknownFeedRegionFails | ec2instancespricing/ec2instancespricing.py:514 | a feed region the table does not know, reached by the filter, is a KeyError |
| Normalizer.KnownRegionEntry | ec2instancespricing/ec2instancespricing.py:640-643 | a known region with families gives one entry under its canonical id, which the second lookup keeps |
| Assembly.PriceData.constructor | ec2instancespricing/ec2instancespricing.py:744-750 | the fresh `data` is in USD per hour with no regions |
| Assembly.MergeInstances | ec2instancespricing/ec2instancespricing.py:798-802 | appends the other catalogue's regions in order, keeps `config`, and returns the same object |
| Assembly.OpenRegion | ec2instancespricing/ec2instancespricing.py:778-779 | adds the region's dictionary when it is new, and changes nothing otherwise |
| Assembly.AddRecord | ec2instancespricing/ec2instancespricing.py:781-786 | filing a record keeps the set of regions |
| Assembly.AddRecords | ec2instancespricing/ec2instancespricing.py:781-786 | filing one entry's records keeps the set of regions |
| Assembly.AddRecordsErrIsAssertion | ec2instancespricing/ec2instancespricing.py:785 | the only way filing an entry's records fails is the assertion |
| Assembly.RegionIndexErrIsAssertion | ec2instancespricing/ec2instancespricing.py:785 | the only way the index fails is the assertion |
| Assembly.AddRecordInPlace | ec2instancespricing/ec2instancespricing.py:781-786 | the in-place update (create the type's dictionary, check the utilization is new, store) is the specified filing step |
| Assembly.BuildIndex | ec2instancespricing/ec2instancespricing.py:775-786 | the index loop returns exactly the specified index, or AssertionError |
| Assembly.FileRecords | ec2instancespricing/ec2instancespricing.py:781-786 | the inner loop files exactly the entry's records, or fails |
| Assembly.AddRecordRepresents | ec2instancespricing/ec2instancespricing.py:781-786 | filing a record fails exactly when an earlier record has its key; otherwise the index holds exactly the keys seen so far, each with its record |
| Assembly.AddRecordsRepresents | ec2instancespricing/ec2instancespricing.py:781-786 | filing an entry succeeds exactly when the keys stay distinct, and then holds them all |
| Assembly.OpenRegionRepresents | ec2instancespricing/ec2instancespricing.py:778-779 | opening a region leaves the filed records unchanged |
| Assembly.RegionIndexStep | ec2instancespricing/ec2instancespricing.py:777-786 | one more region entry on a correct index succeeds exactly when keys stay distinct, and then adds that region and its records |
| Assembly.RegionIndexCorrect | ec2instancespricing/ec2instancespricing.py:775-786 | the index raises AssertionError exactly when two records share (region, type, utilization); otherwise it holds the regions of the entries and files every record under its key, and nothing else |
| Assembly.DuplicateRecordBreaksIndex | ec2instancespricing/ec2instancespricing.py:785 | two identical records in one region make the index fail |
| Assembly.UrlsFor | ec2instancespricing/ec2instancespricing.py:648-722 | reserved reads the eighteen reserved URLs, on-demand the six on-demand URLs, and the other feed types one URL each |
| Assembly.GetPrices | ec2instancespricing/ec2instancespricing.py:648-722 | each get_*_instances_prices wrapper is the normalizer over its feed type's URLs |
| Assembly.MergeFeeds | ec2instancespricing/ec2instancespricing.py:758-772 | the merge_instances chain concatenates the feed types' regions in order onto a fresh `data`, or stops at the first error |
| Assembly.GetData | ec2instancespricing/ec2instancespricing.py:743-788 | `_get_data` returns the catalogue for the `--type` value and its index, or the first error |
| Caches.SimpleResultsCache.constructor | ec2instancespricing/ec2instancespricing.py:389-390 | a new cache is empty |
| Caches.SimpleResultsCache.Get | ec2instancespricing/ec2instancespricing.py:392-396 | the stored value exactly when the key was set, None otherwise |
| Caches.SimpleResultsCache.Set | ec2instancespricing/ec2instancespricing.py:398-399 | stores the value under the key and changes no other key |
| Caches.Store | ec2instancespricing/ec2instancespricing.py:427-429 | `set` stores the value with expiry `now` plus the lifetime, leaves every other key alone, and keeps the two dictionaries' keys in step |
| Caches.Lookup | ec2instancespricing/ec2instancespricing.py:414-425 | `get` answers the value exactly when the key has a value and an expiry not before `now`; an expired key is deleted from both dictionaries; nothing else changes |
| Caches.LookupKeepsKeysAgree | ec2instancespricing/ec2instancespricing.py:414-425 | `get` keeps the two dictionaries' keys in step |
| Caches.StoreThenLookup | ec2instancespricing/ec2instancespricing.py:412-429 | after `set`, `get` returns the value while no more than the lifetime has passed and None afterwards |
| Caches.StoreOtherKey | ec2instancespricing/ec2instancespricing.py:414-429 | `set` of one key does not change what `get` answers for another |
| Caches.ExpiredStaysGone | ec2instancespricing/ec2instancespricing.py:414-425 | once `get` answers None for a key, it answers None at every later instant until the key is set again |
| Caches.TimeBasedResultsCache.constructor | ec2instancespricing/ec2instancespricing.py:402-412 | a new cache is empty, with a lifetime of 3600 seconds |
| Caches.TimeBasedResultsCache.Get | ec2instancespricing/ec2instancespricing.py:414-425 | the method's new state and answer are those of `Lookup` |
| Caches.TimeBasedResultsCache.Set | ec2instancespricing/ec2instancespricing.py:427-429 | the method's new state is that of `Store` with the cache's lifetime |
| PhpPrices.Get | ec2instancespricing.php:96 | reading a PHP array yields a value exactly for a present, non-NULL key |
| PhpPrices.FloatValAgreesWithParseFloat | ec2instancespricing.php:130 | on a well-formed decimal cell `floatval` gives the same value as Python's `float()` |
| PhpPrices.FloatValOfNonNumeric | ec2instancespricing.php:130 | text with no number at its front reads as 0 |
| PhpPrices.ReservedTablesCoverPairs | ec2instancespricing.php:46-58 | the two tables cover exactly the six reserved URLs, which carry the six (linux/mswin, light/medium/heavy) pairs, one each |
| PhpPrices.ReservedUrlsTagged | ec2instancespricing.php:78-86 | every reserved URL read has an OS and a utilization tag, one of the six pairs |
| PhpPrices.RegionTablesRoundTrip | ec2instancespricing.php:20-22 | translating a canonical id to its feed label and back gives the id |
| PhpPrices.Lookup | ec2instancespricing.php:38-40 | looking up a NULL code yields NULL |
| PhpPrices.LookupFound | ec2instancespricing.php:106 | a code table yields a value exactly when some entry has the code |
| PhpPrices.TypeName | ec2instancespricing.php:113-117 | a type name is never `cc1.8xlarge` |
| PhpPrices.TypeNameOfKnownCodes | ec2instancespricing.php:106-117 | for known codes the type name is the family prefix, ".", and the size suffix, with only cc1 at 8xlarge renamed cc2.8xlarge |
| PhpPrices.TranslatedRegion | ec2instancespricing.php:69-72 | a truthy region filter is replaced by its feed label, NULL for an id the table lacks |
| PhpPrices.OpenEntry | ec2instancespricing.php:97-103 | a known region name reuses its entry and changes nothing; a new name gets an empty entry appended at the end, with its index pointing there |
| PhpPrices.PushAt | ec2instancespricing.php:127 | the records are appended to the entry at the index, which keeps its name; every other entry and the index stay as they were |
| PhpPrices.WellIndexedDistinct | ec2instancespricing.php:97-103 | a well-indexed grouping has no two entries with the same region name |
| PhpPrices.OpenEntryWellIndexed | ec2instancespricing.php:97-103 | opening an entry keeps exactly one entry per region name, and reuses a known one |
| PhpPrices.PushAtWellIndexed | ec2instancespricing.php:127 | pushing into an entry keeps exactly one entry per region name |
| PhpPrices.AddBlockWellIndexed | ec2instancespricing.php:89-144 | grouping a region block keeps exactly one entry per region name |
| PhpPrices.AddBlocksWellIndexed | ec2instancespricing.php:89-145 | grouping a feed's blocks keeps exactly one entry per region name |
| PhpPrices.AddUrlsWellIndexed | ec2instancespricing.php:84-147 | grouping every reserved feed keeps exactly one entry per region name |
| PhpPrices.SizesReservedOk | ec2instancespricing.php:108-127 | every reserved record of a family's sizes passed both filters, is not `cc1.8xlarge`, has one of the six pairs, and has NULL prices |
| PhpPrices.FamiliesReservedOk | ec2instancespricing.php:105-143 | the same holds for every record of a block's families |
| PhpPrices.KeptBlockName | ec2instancespricing.php:90-96 | under a truthy region filter, a kept block lands in the filter's region entry or in the NULL entry |
| PhpPrices.OpenEntryOk | ec2instancespricing.php:96-103 | opening a permitted entry keeps every entry well formed |
| PhpPrices.PushAtOk | ec2instancespricing.php:127 | pushing well-formed records keeps every entry well formed |
| PhpPrices.AddBlockOk | ec2instancespricing.php:89-144 | grouping a block keeps every entry well formed |
| PhpPrices.AddBlocksOk | ec2instancespricing.php:89-145 | grouping a feed's blocks keeps every entry well formed |
| PhpPrices.AddUrlsOk | ec2instancespricing.php:84-147 | grouping the reserved feeds keeps every entry well formed |
| PhpPrices.SizesReservedMember | ec2instancespricing.php:108-127 | the size loop pushes a record exactly for each size whose renamed type and feed OS pass the filters: that type, the feed's tags and NULL prices |
| PhpPrices.FamiliesReservedMember | ec2instancespricing.php:105-127 | the family loop pushes exactly the records of the surviving sizes of the families that have `sizes` |
| PhpPrices.AddBlockGrows | ec2instancespricing.php:90-127 | a block never removes an entry, renames one, moves an index, or drops a record already pushed |
| PhpPrices.AddBlockFiles | ec2instancespricing.php:90-127 | after a kept block its region name's entry exists, and all its families' records are in it |
| PhpPrices.AddBlocksFiles | ec2instancespricing.php:89-127 | after a feed's blocks, each kept block's records are still in its region name's entry |
| PhpPrices.AddUrlsFiles | ec2instancespricing.php:84-127 | after the reserved feeds, each kept block of each feed has its records in its region name's entry |
| PhpPrices.ReservedResultComplete | ec2instancespricing.php:66-150 | every kept block of every reserved feed has an entry under its canonical region name, opened even without `instanceTypes`, holding every record of its families, pushed into the existing entry when the name was seen before |
| PhpPrices.OpenEntryExtends | ec2instancespricing.php:96-103 | opening an entry files no record and adds at most the block's name, as a new last entry |
| PhpPrices.PushAtExtends | ec2instancespricing.php:104-127 | pushing records onto a name's entry extends that entry only, in place, and opens nothing |
| PhpPrices.AddBlockExtends | ec2instancespricing.php:90-127 | a block appends its families' records to its name's entry only, opens no name but its own, and gives nothing to any other name |
| PhpPrices.AddBlocksExtends | ec2instancespricing.php:89-127 | a feed's blocks append to each entry exactly the records of the kept blocks with that name, in block order; every new entry is opened by one of them |
| PhpPrices.AddUrlsExtends | ec2instancespricing.php:84-127 | the same over the reserved feeds, feed by feed |
| PhpPrices.ReservedResultExact | ec2instancespricing.php:66-150 | each entry is named by a kept block and holds exactly the records of the kept blocks with its name, feed by feed and block by block, each once |
| PhpPrices.BlocksNamesSource | ec2instancespricing.php:89-103 | every opened name is that of a kept block |
| PhpPrices.BlocksRecordsSource | ec2instancespricing.php:104-127 | every record filed under a name comes from the families of a kept block with that name and `instanceTypes` |
| PhpPrices.UrlsNamesSource | ec2instancespricing.php:84-103 | every opened name is that of a kept block of one of the feeds |
| PhpPrices.UrlsRecordsSource | ec2instancespricing.php:84-127 | every filed record comes from a kept block, with that name, of one of the feeds |
| PhpPrices.ReservedResultSound | ec2instancespricing.php:66-150 | every entry was opened by a kept block of a reserved feed with its name, and every record in it comes from the families of such a block |
| PhpPrices.ReservedResultOk | ec2instancespricing.php:66-150 | the reserved result is in USD with each region name at most once; every record passed the filters, carries one of the six pairs and NULL prices; under a region filter every entry is that region's or NULL |
| PhpPrices.ReservedRegionFilter | ec2instancespricing.php:69-96 | under a filter naming a known region, every reserved entry is that region's or NULL |
| PhpPrices.ColumnsOnDemandOk | ec2instancespricing.php:184-203 | every on-demand record of a size passed both filters and is not `cc1.8xlarge`; at most one per column |
| PhpPrices.SizesOnDemandOk | ec2instancespricing.php:181-204 | every on-demand record of a family's sizes passed both filters and is not `cc1.8xlarge` |
| PhpPrices.FamiliesOnDemandOk | ec2instancespricing.php:178-206 | the same holds for every record of a block's families |
| PhpPrices.BlocksOnDemandOk | ec2instancespricing.php:169-210 | at most one entry per region block, each the filter's region under a region filter, with well-formed records |
| PhpPrices.ColumnsOnDemandExact | ec2instancespricing.php:184-203 | the column loop emits one record per column surviving both filters, in order, with the column's name as OS and floatval of its USD cell as price; nothing when the type is filtered out |
| PhpPrices.ColumnsOnDemandMember | ec2instancespricing.php:184-203 | a record is emitted exactly when some surviving column yields it |
| PhpPrices.SizesOnDemandMember | ec2instancespricing.php:181-204 | the size loop emits exactly the records of the surviving columns of its sizes, under each size's renamed type |
| PhpPrices.FamiliesOnDemandMember | ec2instancespricing.php:177-206 | the family loop emits exactly those records for every family that has `sizes` |
| PhpPrices.BlocksOnDemandExact | ec2instancespricing.php:169-210 | the region loop emits one entry per block with a truthy region name, kept by the filter and having `instanceTypes`, in block order, named by its canonical region |
| PhpPrices.OnDemandResultComplete | ec2instancespricing.php:152-217 | the result has one entry per such block, each holding exactly the records of its surviving columns |
| PhpPrices.OnDemandResultOk | ec2instancespricing.php:152-217 | the result is NULL exactly when the document has no regions; otherwise it is in USD per hour with at most one entry per block, each well formed |
| PhpPrices.OnDemandRegionFilter | ec2instancespricing.php:155-175 | under a filter naming a known region every entry is that region's; under an unknown one there are no entries |
| PhpPrices.NothingPassesUnknownFilter | ec2instancespricing.php:169-175 | a region filter the table does not know rejects every region block |
| PhpPrices.EC2InstancePrices.constructor | ec2instancespricing.php:44-60 | the OS and utilization maps are filled for exactly the six reserved URLs, with their tags |
| PhpPrices.EC2InstancePrices.PushSizes | ec2instancespricing.php:108-141 | the size loop pushes exactly the specified reserved records, each with the NULL template, and fills only a local copy of the prices |
| PhpPrices.EC2InstancePrices.PushFamilies | ec2instancespricing.php:105-143 | the family loop pushes exactly the specified records of every family |
| PhpPrices.EC2InstancePrices.GroupBlock | ec2instancespricing.php:89-144 | one region block is grouped exactly as specified, with the indices kept in range and in step with `$result_regions_index` |
| PhpPrices.EC2InstancePrices.GroupBlocks | ec2instancespricing.php:89-145 | a feed's region loop groups exactly as specified |
| PhpPrices.EC2InstancePrices.GroupUrl | ec2instancespricing.php:84-146 | one reserved feed reads its tags from the two per-URL maps and groups its blocks only when the document has regions |
| PhpPrices.EC2InstancePrices.GetEc2ReservedInstancesPrices | ec2instancespricing.php:66-150 | the reserved method returns exactly the specified grouping of the six feeds |
| PhpPrices.EC2InstancePrices.PushColumns | ec2instancespricing.php:184-203 | the column loop appends exactly the specified records |
| PhpPrices.EC2InstancePrices.PushOnDemandSizes | ec2instancespricing.php:181-204 | the size loop appends exactly the specified records |
| PhpPrices.EC2InstancePrices.PushOnDemandFamilies | ec2instancespricing.php:178-206 | the family loop returns exactly the specified records |
| PhpPrices.EC2InstancePrices.GetEc2OndemandInstancesPrices | ec2instancespricing.php:152-217 | the on-demand method returns exactly the specified result, NULL when the document has no regions |

## Left out

- Fetching and decoding feeds are I/O and foreign library calls, and are not modelled. This covers `urlopen` and `.decode` in `_load_data`, the PHP `_load_data`, `json.loads` and `json_decode`. Each feed is a parameter `load` from URL to decoded document.
- The cache consulted inside `_load_data` is not modelled. The caches are modelled on their own.
- Python's `tokenize` and `untokenize` are library code. The repair pass takes a token stream and returns the repaired token stream.
- The regular-expression pre-strip in `_load_data` (leading comment, `callback(`, trailing `);`) is library behaviour and is not modelled.
- `re.match` of the pattern filter is a hand-written matcher for the table's fixed shape: a family letter, one digit, ".", a suffix. A Unicode `\d` digit other than 0-9 is not modelled.
- PyText.ParseFloat: only optionally signed decimal numerals are parsed. Exponents, `inf`/`nan`, surrounding whitespace and underscores fall into the failure case, because floating point is out of scope.
- PhpPrices.FloatVal: exponents and hexadecimal are not read, for the same reason.
- The feed keys `size`, `valueColumns`, a column's `name` and `prices`, and an ELB entry's `rate` and `prices` are taken as always present. On a feed lacking one, Python raises KeyError (ec2instancespricing/ec2instancespricing.py:523, 543, 583, 586, 592, 624). PHP instead reads NULL, which gives an empty size name, a price of 0 and an empty loop. Neither path is modelled.
- PHP `!=` is plain string inequality. The loose comparison of two numeric strings is not modelled; no region, type or OS name is numeric.
- The singleton behaviour of the cache classes (`ResultsCacheBase.__new__`) and their class-level dictionaries are Python object mechanics. Each cache is modelled as one object.
- `datetime.utcnow()` is the integer parameter `now`, counted in seconds.
- Caches.SimpleResultsCache.Get: a stored None is returned as `Some` of the stored value, so it is distinguished from a missing key.
- The Python reserved `prices` dictionary is appended first and filled afterwards, through aliasing. The model appends the filled value, which is the same because nothing reads the record in between.
- The in-place rename of a column from `os` to `test` (`price_data["name"] = "test"`) is a local value in the model. The change that would persist in a cached document is not modelled.
- The PHP loops push into nested arrays in place. The model pushes into sequences held in local variables, which are assigned back at the same points.
- The PHP code tables are ordered entry lists, and a lookup takes the last entry with the key, as a PHP array literal does.
- PhpPrices.TypeName: the contract states only that the name is never `cc1.8xlarge`. Its composition from the two tables is stated by PhpPrices.TypeNameOfKnownCodes.
- `get_prices`, `_get_args`, the `__main__` table/CSV/JSON rendering, and PHP `get_ec2_data` with its JSON printing are command-line and output code, and are not modelled.
- `ec2instqancepricing.php` is a draft that reads variables out of scope and is not part of this model. Neither is `setup.py`, which is packaging metadata.
- A `\u` escape naming a surrogate half is treated as an invalid JSON string body rather than paired with a following escape.
