# mriqc-export: a Dafny model of `download.py`

`download.py` downloads image-quality metrics (IQMs) from the MRIQC web API, one page
at a time, and writes them as a single Parquet table. This project models the two
parts of it that hold logic, and proves what they do.

- **`get_iqms`** (one page). Each item of the page's `_items` list is taken apart into
  three blocks: `bids_meta`, `provenance` and `provenance.settings`. The item's `_id` is
  written into each block. Those three blocks and the flat item are projected onto
  four fixed, ordered typed schemas with `pl.from_dicts`. The metrics schema depends on
  the modality. The four tables are then inner-joined on `_id`, in the order metrics,
  provenance, settings, BIDS.
- **`main`** (the paging loop). It requests pages 1 to `max_pages - 1` in order. A page
  whose `get_iqms` raises is logged and skipped. The tables of the other pages are kept
  in page order and concatenated with `pl.concat`.

The modules follow the program's structure:

| file | module | what it holds |
|---|---|---|
| `wrappers.dfy` | `Wrappers` | `Option`, `Result`, and `Traverse`: a comprehension that stops at the first raise |
| `schemas.dfy` | `Schemas` | the five declarative schema tables, `type_mappings`, the typed `*_schema2` schemas, and facts about their names |
| `frames.dfy` | `Frames` | JSON-like values, and `pl.from_dicts`, `DataFrame.join` and `pl.concat` by their observable behaviour |
| `iqms.dfy` | `Iqms` | `get_iqms`: taking an item apart, the four projections, the join, and what a page table holds |
| `driver.dfy` | `Driver` | `main`'s `while` loop as an imperative method proved against the functions that specify it |

Values are symbolic JSON:
`Value = Null | Atom(token) | Array(elems) | Object(fields)`.

Type tags form a closed set:
`integer`, `float`, `string` and `boolean`, mapped to `Int32`, `Float32`, `Utf8` and `Boolean`.

Two things are parameters, so every result holds for every choice of them:

- **`fetch`.** The HTTP request and JSON decoding: a URL, a page number and a page size
  give either an error or the page's `_items` list.
- **`coerce`.** Polars' conversion of a value to a column type: it gives the converted
  value, or `None` where polars would raise.

## Model

| member | source | states |
|---|---|---|
| `Schemas.TagOf` | download.py:227-232 | every dtype a typed schema can hold is `type_mappings` of a tag, and that tag can be read back from it |
| `Schemas.TypeMapping` | download.py:227-232 | `type_mappings`: `integer`, `float`, `string` and `boolean` map to `Int32`, `Float32`, `Utf8` and `Boolean`; `TagOf` states that every dtype comes from a tag |
| `Schemas.Typed` | download.py:234-255 | a typed schema has the source schema's field names, in the same order, and each column's dtype is `type_mappings` of that field's `"type"` |
| `Schemas.TypedForgetsOnlyRequired` | download.py:234-255 | erasing the dtypes of a typed schema gives back the source schema without its `required` flags |
| `Schemas.RequiredPlaysNoPart` | download.py:234-255 | two schemas that differ only in their `required` flags have the same typed schema |
| `Schemas.BidsIdentification` | download.py:12-19 | the `_id` and BIDS identification entries of `bids_schema`, in order, with their tags and `required` flags; `BidsSharesOnlyId` and `KeyedByIdBidsSchema` state what the join needs of them |
| `Schemas.BidsMetadata` | download.py:21-80 | the 60 BIDS metadata entries of `bids_schema`, in order; `BidsMetadataCapitalised` states that each name is capitalised |
| `Schemas.BidsSchema` | download.py:11-81 | `bids_schema` is the identification entries followed by the metadata entries; `KeyedByIdBidsSchema` states that it is keyed by `_id` |
| `Schemas.ProvSchema` | download.py:83-90 | the entries of `prov_schema`, in order; `KeyedByIdProvSchema` states that it is keyed by `_id` |
| `Schemas.SettingsSchema` | download.py:92-97 | the entries of `settings_schema`, in order; `KeyedByIdSettingsSchema` states that it is keyed by `_id` |
| `Schemas.BoldIqmsSchema` | download.py:99-145 | the entries of `bold_iqms_schema`, in order; `KeyedByIdBoldIqmsSchema` states that it is keyed by `_id` |
| `Schemas.StructIqmsSchema` | download.py:147-217 | the entries of `struct_iqms_schema`, in order; `KeyedByIdStructIqmsSchema` states that it is keyed by `_id` |
| `Schemas.BidsColumns` | download.py:234-236 | `bids_schema2`, the typed `bids_schema`; `Typed` states its names and dtypes |
| `Schemas.StructIqmsColumns` | download.py:242-244 | `struct_iqms_schema2`, the typed `struct_iqms_schema`; `Typed` states its names and dtypes |
| `Schemas.BoldIqmsColumns` | download.py:246-248 | `bold_iqms_schema2`, the typed `bold_iqms_schema`; `Typed` states its names and dtypes |
| `Schemas.ProvColumns` | download.py:249-251 | `prov_schema2`, the typed `prov_schema`; `Typed` states its names and dtypes |
| `Schemas.SettingsColumns` | download.py:253-255 | `settings_schema2`, the typed `settings_schema`; `Typed` states its names and dtypes |
| `Schemas.MetricsColumns` | download.py:290 | modality `"T1w"` selects `struct_iqms_schema2`, and every other modality string selects `bold_iqms_schema2` |
| `Schemas.MetricsSchema` | download.py:99-290 | the declarative schema behind the metrics columns of a modality types to exactly those columns |
| `Schemas.KeyedByIdBidsSchema` | download.py:11-81 | `bids_schema` starts with the required string field `_id` and declares it once |
| `Schemas.KeyedByIdProvSchema` | download.py:83-90 | `prov_schema` starts with the required string field `_id` and declares it once |
| `Schemas.KeyedByIdSettingsSchema` | download.py:92-97 | `settings_schema` starts with the required string field `_id` and declares it once |
| `Schemas.KeyedByIdBoldIqmsSchema` | download.py:99-145 | `bold_iqms_schema` starts with the required string field `_id` and declares it once |
| `Schemas.KeyedByIdStructIqmsSchema` | download.py:147-217 | `struct_iqms_schema` starts with the required string field `_id` and declares it once |
| `Schemas.JoinedSchemasKeyed` | download.py:11-290 | for every modality, all four schemas `get_iqms` projects onto start with `_id` |
| `Schemas.BidsMetadataCapitalised` | download.py:21-80 | every BIDS field after the identification fields has a capitalised name |
| `Schemas.UncapitalisedStructIqmsSchema` | download.py:147-217 | no field of `struct_iqms_schema` has a capitalised name |
| `Schemas.UncapitalisedBoldIqmsSchema` | download.py:99-145 | no field of `bold_iqms_schema` has a capitalised name |
| `Schemas.SharesOnlyIdBySplit` | download.py:11-81 | a schema made of a part that shares only `_id` with another schema, followed by capitalised names, still shares only `_id` with a schema that has no capitalised names |
| `Schemas.BidsSharesOnlyId` | download.py:11-81 | a schema without capitalised names that shares only `_id` with the BIDS identification fields shares only `_id` with the whole of `bids_schema` |
| `Schemas.ProvSettingsSharesOnlyId` | download.py:83-97 | `prov_schema` and `settings_schema` have no field name in common except `_id` |
| `Schemas.ProvBoldIqmsSharesOnlyId` | download.py:83-145 | `prov_schema` and `bold_iqms_schema` have no field name in common except `_id` |
| `Schemas.ProvStructIqmsSharesOnlyId` | download.py:83-217 | `prov_schema` and `struct_iqms_schema` have no field name in common except `_id` |
| `Schemas.SettingsBoldIqmsSharesOnlyId` | download.py:92-145 | `settings_schema` and `bold_iqms_schema` have no field name in common except `_id` |
| `Schemas.SettingsStructIqmsSharesOnlyId` | download.py:92-217 | `settings_schema` and `struct_iqms_schema` have no field name in common except `_id` |
| `Schemas.JoinedSchemasShareOnlyId` | download.py:11-290 | for every modality, no two of the four schemas `get_iqms` joins have a field name in common except `_id` |
| `Wrappers.Traverse` | download.py:270-285 | a list comprehension succeeds exactly when every element succeeds, and then gives every value in order; otherwise it raises the first element's error, with every earlier element succeeding |
| `Frames.Get` | download.py:270-285 | `dict.get` gives the entry under a present key, and `None` under an absent one |
| `Frames.CellFor` | download.py:270-291 | the cell of a storable value is null exactly when the value is absent or null, and otherwise has the column's dtype and the coerced value |
| `Frames.RowFor` | download.py:270-291 | the row of a record that fits has one cell per column, each typed by its column, and is null exactly where the record has no value |
| `Frames.ProjectRow` | download.py:270-291 | projecting one record succeeds exactly when every schema column's value coerces, and then gives the row built column by column |
| `Frames.FromDicts` | download.py:270-291 | `pl.from_dicts(records, schema)` has exactly the schema's columns, in order, and one row per record, in order; it fails exactly when some value does not coerce |
| `Frames.ExtraKeysIgnored` | download.py:270-291 | keys outside the schema play no part: two records that agree on the schema's columns project to the same row |
| `Frames.AbsentKeyIsNull` | download.py:234-291 | a schema field missing from a record is null in its row, even when the field is declared `required` |
| `Frames.KeyIndex` | download.py:292-296 | the index of the join key is the first column with that name, or the column count when there is none |
| `Frames.RemoveAt` | download.py:292-296 | dropping the right key column keeps every other column, in order |
| `Frames.Matches` | download.py:292-296 | the joined rows one left row gives, each keeping the key column; `MatchesMembers` states which rows they are |
| `Frames.MatchesMembers` | download.py:292-296 | one left row forms a joined row with every right row whose key equals its own non-null key, and with no other |
| `Frames.JoinRows` | download.py:292-296 | the rows of an inner join, each keeping the key column; `JoinRowsMembers` states which rows they are |
| `Frames.JoinRowsMembers` | download.py:292-296 | the joined rows are exactly the merges of left and right rows whose keys are equal and not null |
| `Frames.Join` | download.py:292-296 | `left.join(right, on=key)` has the left columns followed by the right ones without their key, and every row fits those columns |
| `Frames.JoinSound` | download.py:292-296 | every joined row is a left row followed by a right row with the same non-null key, without that key |
| `Frames.JoinComplete` | download.py:292-296 | every pair of a left and a right row with the same non-null key gives a joined row |
| `Frames.JoinKeepsKey` | download.py:292-296 | the joined table keeps the key column at the left table's position, so the next `.join` finds it |
| `Frames.JoinKeepsDisjoint` | download.py:292-296 | a joined table still shares no column but the key with a table that shared none with either input |
| `Frames.MatchesNone` | download.py:292-296 | a left row whose key matches no right row, for example a null key, gives no joined row |
| `Frames.MatchesOne` | download.py:292-296 | with unique right keys, a left row joins with exactly the one right row carrying its key |
| `Frames.JoinRowsAppend` | download.py:292-296 | joining concatenated left rows gives the concatenation of their joins |
| `Frames.JoinRowsAtMostLeft` | download.py:292-296 | with unique right keys, the join has at most as many rows as its left input |
| `Frames.JoinAtMostUnique` | download.py:292-296 | with unique right keys, a joined table has at most as many rows as its left table |
| `Frames.JoinThenJoinable` | download.py:292-296 | the result of one `.join` can be joined with the next table, with the key still first |
| `Frames.JoinChain` | download.py:292-296 | three chained joins of four tables keyed first give the first table's columns followed by each other table's columns without the key |
| `Frames.KeptRows` | download.py:292-296 | the rows kept from four row sequences that line up by position are no more than the first sequence's rows |
| `Frames.KeptRowsMembers` | download.py:292-296 | a row is kept exactly when it glues the rows at one position whose key is not null |
| `Frames.ChainOneRow` | download.py:292-296 | one first-table row goes through the three joins as the row gluing it to the rows carrying its key, or disappears when its key is null |
| `Frames.ChainAlignedFrom` | download.py:292-296 | on row sequences that line up by position with unique keys, the three joins keep the rows from any position on with a non-null key, in order |
| `Frames.UniqueKeysAligned` | download.py:292-296 | row sequences with the same keys at the same positions have unique keys together |
| `Frames.JoinChainAligned` | download.py:292-296 | for four tables built row for row from the same records with unique keys, the chained join is exactly the rows with a non-null key, in order, each glued to the other tables' rows at its position |
| `Frames.JoinChainSound` | download.py:292-296 | every row of the chained join glues one row of each table, all carrying the same non-null key |
| `Frames.JoinChainComplete` | download.py:292-296 | any four rows carrying the same non-null key glue into a row of the chained join |
| `Frames.JoinChainMembers` | download.py:292-296 | a row is in the chained join exactly when it glues four rows carrying the same non-null key |
| `Frames.Concat` | download.py:318 | `pl.concat` raises on an empty list and on tables whose columns differ; otherwise it gives the shared columns and every table's rows, in list order |
| `Frames.AllRowsAppend` | download.py:318 | the rows of a concatenation of table lists are the concatenation of their rows |
| `Frames.AllRowsMembers` | download.py:318 | a row is in the concatenation exactly when it is in one of the tables |
| `Frames.ConcatSingle` | download.py:318 | concatenating a single table gives that table back |
| `Iqms.Block` | download.py:270-285 | `.get` on a block, or `dict(block, ...)`, succeeds exactly on a dict and gives its entries; `None` raises |
| `Iqms.WithId` | download.py:270-285 | `dict(block, _id=id)` has the block's keys plus `_id`, with `_id` mapped to `id` and every other key unchanged |
| `Iqms.UrlRoot` | download.py:262 | `url_root`: the API root followed by the modality, the URL handed to `fetch` |
| `Iqms.BidsRecord` | download.py:270-273 | `dict(item.get("bids_meta"), _id=item.get("_id"))`; `DecomposeItem` states when it succeeds and `IdOverridden` what it holds |
| `Iqms.SettingsRecord` | download.py:275-281 | `dict(item.get("provenance").get("settings"), _id=item.get("_id"))`; `DecomposeItem` states when it succeeds and `IdOverridden` what it holds |
| `Iqms.ProvRecord` | download.py:282-286 | `dict(item.get("provenance"), _id=item.get("_id"))`; `DecomposeItem` states when it succeeds and `IdOverridden` what it holds |
| `Iqms.DecomposeItem` | download.py:269-291 | the three comprehensions and the metrics projection can read an item exactly when it is a dict whose `bids_meta` and `provenance` are dicts and whose `provenance` holds a dict under `settings`; then they read the blocks with the item's `_id` |
| `Iqms.IdOverridden` | download.py:270-285 | the three sub-records carry the item's top-level `_id`, which overrides any `_id` already in a block; the BIDS sub-record keeps every other key of `bids_meta` |
| `Iqms.Project` | download.py:269-291 | `pl.from_dicts([f(item) for item in items], schema=...)` succeeds exactly when every item can be read and fits, and then gives one row per item, in item order, with exactly the schema's columns |
| `Iqms.BuildParts` | download.py:269-291 | the four projected tables have the metrics, provenance, settings and BIDS typed schemas as their columns |
| `Iqms.BuildPartsOk` | download.py:269-291 | the four projections succeed exactly when every item is accepted by all four |
| `Iqms.BuildPartsRows` | download.py:269-291 | each of the four tables has one row per item, and row `i` is the projection of item `i`'s block |
| `Iqms.TypedKeyed` | download.py:234-255 | a schema that starts with the required string `_id` types to columns that start with the `Utf8` column `_id` |
| `Iqms.TypedSharesOnlyId` | download.py:234-255 | typing two schemas that share only `_id` gives column lists that share only `_id` |
| `Iqms.LayoutSeparate` | download.py:11-290 | for every modality, the four typed schemas each start with `_id` and share no other column |
| `Iqms.JoinedColumnsUnion` | download.py:292-296 | the column names of a page table are the union of the four schemas' names, and there are their sizes' sum minus 3 of them |
| `Iqms.JoinedColumnsCount` | download.py:11-296 | a page table has 143 columns for `"T1w"` and 119 for every other modality |
| `Iqms.JoinParts` | download.py:292-296 | the joined page table has the metrics columns, then the provenance, settings and BIDS columns, each without `_id` |
| `Iqms.GetIqms` | download.py:258-296 | a page table always has the joined columns of its modality, and every row fits them |
| `Iqms.GetIqmsOk` | download.py:258-296 | `get_iqms` raises the fetch's error when the fetch fails; otherwise it succeeds exactly when every item is accepted by the four projections |
| `Iqms.ItemKeys` | download.py:270-291 | the four rows of an item carry the same `_id` cell, which is null exactly when the item has no `_id` or a null one |
| `Iqms.MetricsRows` | download.py:288-291 | the metrics rows of a page are the projections of its items, in order |
| `Iqms.ProvRows` | download.py:282-286 | the provenance rows of a page are the projections of its items' provenance blocks, in order |
| `Iqms.SettingsRows` | download.py:275-281 | the settings rows of a page are the projections of its items' settings blocks, in order |
| `Iqms.BidsRows` | download.py:270-273 | the BIDS rows of a page are the projections of its items' `bids_meta` blocks, in order |
| `Iqms.PageKeysAligned` | download.py:270-291 | the four row sequences of a page carry the same `_id` cell at every position, namely that item's |
| `Iqms.PageRows` | download.py:292-296 | the glued rows of the items with a non-null `_id`, no more than the items; they are the page table's rows when the ids are distinct (see `PageTable`) |
| `Iqms.PageRowsMembers` | download.py:292-296 | a row is among the page rows exactly when it is the glued row of an item with a non-null `_id` |
| `Iqms.SeparateKeyed` | download.py:292-296 | schemas that start with `_id` and share nothing else are each non-empty and keyed by the `Utf8` column `_id` |
| `Iqms.PartsJoinable` | download.py:292-296 | the four projected tables of a page can be chained through the three joins |
| `Iqms.PartsRows` | download.py:269-291 | for accepted items, the four tables exist and hold exactly the page's four row sequences |
| `Iqms.DistinctIdsUniqueKeys` | download.py:292-296 | items with pairwise different non-null ids give metrics rows with unique keys |
| `Iqms.PageTable` | download.py:269-296 | with accepted items and distinct ids, the joined table holds exactly the items with a non-null `_id`, in item order, each as its four rows glued together |
| `Iqms.GetIqmsRows` | download.py:258-296 | with accepted items and distinct ids, `get_iqms` succeeds with the joined columns and exactly those rows |
| `Iqms.ChainMatchAtItems` | download.py:292-296 | gluing the rows at four positions of the page's row sequences is gluing the rows of the items at those positions |
| `Iqms.ChainMatchItems` | download.py:292-296 | gluing rows of the page's four row sequences is gluing rows of items that carry the same non-null `_id` |
| `Iqms.PageMembers` | download.py:292-296 | a row is in the joined table exactly when it glues a metrics, a provenance, a settings and a BIDS row of items sharing one non-null `_id`; ids missing from one sub-table are dropped, not filled with nulls |
| `Iqms.GetIqmsMembers` | download.py:258-296 | whatever the ids, a successful `get_iqms` holds exactly the rows that glue rows of items sharing one non-null `_id` |
| `Driver.PageRange` | download.py:302-313 | the pages of the loop are `1, 2, ...`, increasing by one, and there are `max(0, max_pages - 1)` of them |
| `Driver.PageRangeSnoc` | download.py:302-313 | one more turn of the loop appends the next page number |
| `Driver.PageRangeEmpty` | download.py:303 | when the loop condition fails, the loop has requested every page below `max_pages` |
| `Driver.TwoPagesRequestOne` | download.py:302-303 | with `max_pages` = 2 only page 1 is requested |
| `Driver.GetPage` | download.py:306 | the page request of the loop is `get_iqms(modality, page=page, max_results=50)` for every page |
| `Driver.Successes` | download.py:305-309 | the kept tables number at most the pages requested |
| `Driver.Failures` | download.py:305-309 | the logged errors number at most the pages requested |
| `Driver.OutcomesSnoc` | download.py:305-313 | requesting one more page appends that page's outcome |
| `Driver.SuccessesSnoc` | download.py:305-309 | a page that succeeds appends its whole table to `ds`, and a page that fails appends nothing |
| `Driver.FailuresSnoc` | download.py:305-309 | a page that fails appends its error to the log, and a page that succeeds appends nothing |
| `Driver.EveryPageAccounted` | download.py:305-309 | every requested page is either kept or logged, never both |
| `Driver.NoSuccesses` | download.py:305-318 | no table is kept exactly when every requested page fails |
| `Driver.SuccessesMembers` | download.py:305-309 | the kept tables are exactly the tables of the successful pages |
| `Driver.SuccessRows` | download.py:305-318 | a row is in the kept tables exactly when it is in the table of a successful page |
| `Driver.SuccessesColumns` | download.py:290-309 | every kept table has the joined columns of the modality |
| `Driver.WrittenTable` | download.py:318 | `pl.concat(ds)` raises when no page succeeded; otherwise it never meets differing columns, and gives the joined columns of the modality with every kept row, in page order |
| `Driver.CollectStep` | download.py:303-313 | one turn of the loop appends the page to the requested ones, then its table to `ds` or its error to the log |
| `Driver.Collect` | download.py:300-313 | the loop requests exactly pages 1 to `max_pages - 1`, in order; `ds` ends as the tables of the successful pages, in page order; the log ends as the errors of the failed pages |
| `Driver.Run` | download.py:299-318 | `main` requests pages 1 to `max_pages - 1`, logs the error of every failed page, and writes `pl.concat` of the tables of the successful pages |

## Left out

- The HTTP session, its `Retry(total=3, backoff_factor=0.1)` and the request itself (download.py:264-267).
  - These are network I/O in a foreign library. They are the `fetch` parameter.
- JSON decoding (`r.json()`) and the lookup `data["_items"]` (download.py:269).
  - `fetch` gives the `_items` list directly.
  - A response that does not decode, or has no `_items`, is one of `fetch`'s errors.
- `time.sleep`, `print(f"{page=}")` and `logging.error` (download.py:304, 309, 311).
  - These are timing and output side effects.
  - The printed page numbers and the logged errors are `Run`'s `requested` and `logged` results.
- Directory creation and Parquet writing with statistics (download.py:315-318).
  - These are file I/O in a columnar format.
  - The model stops at the table (or the error) that `pl.concat` gives.
- Concrete dtype widths (`Int32`, `Float32`) and the actual parsing of numbers and booleans (download.py:227-232).
  - Coercion is the abstract `coerce` parameter, failing where polars raises.
- `rating_schema` and `rating_schema2` (download.py:219-225, 238-240). They are never used.
- Argument parsing and the entry point (download.py:321-328). This is command-line plumbing.
- `except BaseException` also catches interrupts (download.py:308).
  - The model treats every page error as caught; signals are not modelled.
- `dict(block, _id=id)` accepts a list of pairs or other mappings as well as a dict (download.py:270-285).
  - The model treats any non-dict block as raising.
- Polars suffixes duplicate right-hand column names with `_right`.
  - This never happens here: `JoinedSchemasShareOnlyId` proves that the four schemas share no column besides `_id`.
- `bids_schema2` uses `type_mappings[...]` where the others use `.get(...)` (download.py:234-255).
  - Every tag in the tables is one of the four mapped tags, and the tags are a closed set.
  - So the raise of `[...]` and the `None` of `.get` on an unknown tag cannot show.
- `Frames.JoinRows` fixes the row order as each left row in order, then its matches in right order.
  - This is a nested-loop join. Polars does not promise an order for a join unless asked to.
  - The membership lemmas (`JoinChainMembers`, `PageMembers`, `GetIqmsMembers`) do not depend on the order.
- `Iqms.PageTable` and `Iqms.GetIqmsRows` assume the items of a page have pairwise different non-null ids.
  - Polars' join multiplies rows whose key repeats.
  - The model has no such constraint: `GetIqmsMembers` covers any ids.
- `Frames.JoinAtMostUnique` bounds a join by its left input only, under unique right keys.
  - A bound by the smaller input would also need unique left keys.

## Notes on the behaviour

- A field declared `"required": True` that is missing from an item is null in its row; nothing raises.
  - The typed schemas keep only the type tag (download.py:234-255).
  - `pl.from_dicts` fills absent keys with nulls.
  - See `TypedForgetsOnlyRequired`, `RequiredPlaysNoPart` and `AbsentKeyIsNull`.
- An item with no `_id`, or a null one, gives a null key in all four tables.
  - The inner join drops it, so it never reaches the page table (`MatchesNone`, `PageRowsMembers`).
- With `max_pages` = 2 the loop `while page < max_pages` requests only page 1 (download.py:302-303, `TwoPagesRequestOne`).
- Each joined table has at most as many rows as its left input when the ids on the right side are unique.
  - The model proves it under that condition (`JoinAtMostUnique`); with repeated ids the join can have more rows.
