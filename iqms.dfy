/** `get_iqms` (download.py:258-296): one page of the MRIQC web API turned into one
    table. Each item is split into its metrics (the item itself), its provenance block,
    the settings block inside the provenance, and its BIDS metadata block; the item's
    `_id` is written into each block; each list of records is projected onto its typed
    schema; the four tables are inner-joined on `_id`. */
module Iqms {
  import opened Wrappers
  import opened Schemas
  import opened Frames

  /** The HTTP request of a page, with its retries and JSON decoding, down to the list
      under `"_items"`: arguments are the URL root, the page and the page size. */
  type Fetch = (string, int, int) -> Result<seq<Value>, Error>

  /** `url_root` (download.py:262). */
  function UrlRoot(modality: string): string {
    "https://mriqc.nimh.nih.gov/api/v1/" + modality
  }

  // ---------------------------------------------------------------------------
  // Building the sub-records of an item

  /** The dict behind a value that the code calls `.get` on or passes to `dict(...)`:
      `None` raises (TypeError or AttributeError), a dict is itself, anything else raises. */
  function Block(v: Value, key: string): (r: Result<Record, Error>)
    ensures r.Ok? <==> v.Object?
    ensures r.Ok? ==> r.value == v.fields
    ensures v == Null ==> r == Err(MissingBlock(key))
  {
    match v
    case Object(fields) => Ok(fields)
    case Null => Err(MissingBlock(key))
    case _ => Err(NotAnObject(key))
  }

  /** `item.get(...)` needs `item` to be a dict. */
  function ItemFields(item: Value): Result<Record, Error> {
    Block(item, "_items")
  }

  /** `item.get("_id")`: the item's id, or `None` when it has none. */
  function ItemId(fields: Record): Value {
    Get(fields, IdKey)
  }

  /** `dict(block, _id=id)`: a copy of the block with `_id` set to `id`, replacing any
      `_id` the block already has. */
  function WithId(block: Record, id: Value): (r: Record)
    ensures r.Keys == block.Keys + {IdKey}
    ensures r[IdKey] == id
    ensures forall k :: k in block && k != IdKey ==> r[k] == block[k]
  {
    block[IdKey := id]
  }

  /** `dict(item.get("bids_meta"), _id=item.get("_id"))` (download.py:271). */
  function BidsRecord(item: Value): Result<Record, Error> {
    var fields :- ItemFields(item);
    var block :- Block(Get(fields, "bids_meta"), "bids_meta");
    Ok(WithId(block, ItemId(fields)))
  }

  /** `dict(item.get("provenance").get("settings"), _id=item.get("_id"))`
      (download.py:277): the settings block nested in the provenance block. */
  function SettingsRecord(item: Value): Result<Record, Error> {
    var fields :- ItemFields(item);
    var provenance :- Block(Get(fields, "provenance"), "provenance");
    var block :- Block(Get(provenance, "settings"), "settings");
    Ok(WithId(block, ItemId(fields)))
  }

  /** `dict(item.get("provenance"), _id=item.get("_id"))` (download.py:284). */
  function ProvRecord(item: Value): Result<Record, Error> {
    var fields :- ItemFields(item);
    var block :- Block(Get(fields, "provenance"), "provenance");
    Ok(WithId(block, ItemId(fields)))
  }

  // ---------------------------------------------------------------------------
  // Schemas of a page

  /** The typed schemas the four projections use. */
  datatype Layout = Layout(metrics: Columns, prov: Columns, settings: Columns, bids: Columns)

  /** `struct_iqms_schema2` or `bold_iqms_schema2` by modality (download.py:290), then
      `prov_schema2`, `settings_schema2` and `bids_schema2`. */
  function LayoutFor(modality: string): Layout {
    Layout(MetricsColumns(modality), ProvColumns, SettingsColumns, BidsColumns)
  }

  /** The column list of a page table: the metrics columns, then the provenance,
      settings and BIDS columns, each without its `_id`. */
  function JoinedColumns(l: Layout): Columns
    requires |l.prov| > 0 && |l.settings| > 0 && |l.bids| > 0
  {
    l.metrics + l.prov[1..] + l.settings[1..] + l.bids[1..]
  }

  /** Each typed schema starts with the string column `_id`, has no other `_id`, and
      shares no other name with any of the others. */
  predicate Separate(l: Layout) {
    && HasKey(l.metrics, IdKey) && KeyIndex(l.metrics, IdKey) == 0
    && HasKey(l.prov, IdKey) && KeyIndex(l.prov, IdKey) == 0
    && HasKey(l.settings, IdKey) && KeyIndex(l.settings, IdKey) == 0
    && HasKey(l.bids, IdKey) && KeyIndex(l.bids, IdKey) == 0
    && l.metrics[0] == l.prov[0] == l.settings[0] == l.bids[0] == Column(IdKey, Utf8)
    && DisjointBesides(l.metrics, l.prov, IdKey)
    && DisjointBesides(l.metrics, l.settings, IdKey) && DisjointBesides(l.prov, l.settings, IdKey)
    && DisjointBesides(l.metrics, l.bids, IdKey) && DisjointBesides(l.prov, l.bids, IdKey)
    && DisjointBesides(l.settings, l.bids, IdKey)
  }

  /** Each typed schema starts with the string column `_id`. */
  predicate Keyed(l: Layout) {
    && |l.metrics| > 0 && |l.prov| > 0 && |l.settings| > 0 && |l.bids| > 0
    && l.metrics[0] == l.prov[0] == l.settings[0] == l.bids[0] == Column(IdKey, Utf8)
  }

  /** What a schema keyed by `_id` gives as a typed schema. */
  lemma TypedKeyed(s: Schema)
    requires KeyedById(s)
    ensures HasKey(Typed(s), IdKey) && KeyIndex(Typed(s), IdKey) == 0
    ensures Typed(s)[0] == Column(IdKey, Utf8)
  {
    assert Typed(s)[0].name == s[0].name;
    forall i | 0 <= i < |s| && Typed(s)[i].name == IdKey ensures i == 0 {
      assert Typed(s)[i].name == s[i].name;
    }
  }

  /** Schemas sharing only `_id` give typed schemas sharing only `_id`. */
  lemma TypedSharesOnlyId(a: Schema, b: Schema)
    requires SharesOnlyId(a, b)
    ensures DisjointBesides(Typed(a), Typed(b), IdKey)
  {
    forall i, j | 0 <= i < |a| && 0 <= j < |b| && Typed(a)[i].name == Typed(b)[j].name
      ensures Typed(a)[i].name == IdKey
    {
      assert Typed(a)[i].name == a[i].name && Typed(b)[j].name == b[j].name;
    }
  }

  /** The schemas of either modality are separate, so the three joins are well defined. */
  lemma LayoutSeparate(modality: string)
    ensures Separate(LayoutFor(modality))
  {
    var m := MetricsSchema(modality);
    JoinedSchemasKeyed(modality);
    JoinedSchemasShareOnlyId(modality);
    TypedKeyed(m);
    TypedKeyed(ProvSchema);
    TypedKeyed(SettingsSchema);
    TypedKeyed(BidsSchema);
    TypedSharesOnlyId(m, ProvSchema);
    TypedSharesOnlyId(m, SettingsSchema);
    TypedSharesOnlyId(ProvSchema, SettingsSchema);
    TypedSharesOnlyId(m, BidsSchema);
    TypedSharesOnlyId(ProvSchema, BidsSchema);
    TypedSharesOnlyId(SettingsSchema, BidsSchema);
  }

  /** The page table has one column fewer per join than the four schemas together, and
      its names are those of the four schemas. */
  lemma JoinedColumnsUnion(l: Layout)
    requires Separate(l)
    ensures |JoinedColumns(l)| == |l.metrics| + |l.prov| + |l.settings| + |l.bids| - 3
    ensures NameSet(JoinedColumns(l)) == NameSet(l.metrics) + NameSet(l.prov) + NameSet(l.settings) + NameSet(l.bids)
  {
    var j := JoinedColumns(l);
    var m, p, s, b := |l.metrics|, |l.prov|, |l.settings|, |l.bids|;
    forall x | x in NameSet(j)
      ensures x in NameSet(l.metrics) + NameSet(l.prov) + NameSet(l.settings) + NameSet(l.bids)
    {
      var i :| 0 <= i < |j| && j[i].name == x;
      if i < m {
        assert j[i] == l.metrics[i];
      } else if i < m + p - 1 {
        assert j[i] == l.prov[i - m + 1];
      } else if i < m + p + s - 2 {
        assert j[i] == l.settings[i - m - p + 2];
      } else {
        assert j[i] == l.bids[i - m - p - s + 3];
      }
    }
    forall x | x in NameSet(l.metrics) + NameSet(l.prov) + NameSet(l.settings) + NameSet(l.bids)
      ensures x in NameSet(j)
    {
      if x in NameSet(l.metrics) {
        var i :| 0 <= i < m && l.metrics[i].name == x;
        assert j[i] == l.metrics[i];
      } else if x in NameSet(l.prov) {
        var i :| 0 <= i < p && l.prov[i].name == x;
        assert l.metrics[0].name in NameSet(l.metrics);
        assert j[m + i - 1] == l.prov[i];
      } else if x in NameSet(l.settings) {
        var i :| 0 <= i < s && l.settings[i].name == x;
        assert l.metrics[0].name in NameSet(l.metrics);
        assert j[m + p - 1 + i - 1] == l.settings[i];
      } else {
        var i :| 0 <= i < b && l.bids[i].name == x;
        assert l.metrics[0].name in NameSet(l.metrics);
        assert j[m + p + s - 2 + i - 1] == l.bids[i];
      }
    }
  }

  /** The page table of a T1w page has 143 columns, that of any other modality 119. */
  lemma JoinedColumnsCount(modality: string)
    ensures |JoinedColumns(LayoutFor(modality))| == if modality == "T1w" then 143 else 119
  {
    LayoutSeparate(modality);
    JoinedColumnsUnion(LayoutFor(modality));
  }

  // ---------------------------------------------------------------------------
  // The four tables and their join

  /** The four tables built from one page. */
  datatype Parts = Parts(metrics: Table, prov: Table, settings: Table, bids: Table)

  /** The four tables have the layout's columns and are well formed. */
  predicate PartsShaped(l: Layout, p: Parts) {
    && p.metrics.columns == l.metrics && WellFormed(p.metrics)
    && p.prov.columns == l.prov && WellFormed(p.prov)
    && p.settings.columns == l.settings && WellFormed(p.settings)
    && p.bids.columns == l.bids && WellFormed(p.bids)
  }

  /** `pl.from_dicts([f(item) for item in items], schema=columns)`: the comprehension
      raises at the first item it cannot take apart, the projection at a value that does
      not coerce; otherwise one row per item, in item order. */
  function Project(items: seq<Value>, f: Value -> Result<Record, Error>, columns: Columns, coerce: Coercion): (r: Result<Table, Error>)
    ensures r.Ok? <==> forall i :: 0 <= i < |items| ==> f(items[i]).Ok? && Fits(f(items[i]).value, columns, coerce)
    ensures r.Ok? ==> r.value.columns == columns && |r.value.rows| == |items| && WellFormed(r.value)
    ensures r.Ok? ==> forall i :: 0 <= i < |items| ==> r.value.rows[i] == RowFor(f(items[i]).value, columns, coerce)
  {
    var records :- Traverse(items, f);
    FromDicts(records, columns, coerce)
  }

  /** Download.py:270-291: the four comprehensions and projections, in source order;
      the first one that raises decides the error. */
  function BuildParts(l: Layout, items: seq<Value>, coerce: Coercion): (r: Result<Parts, Error>)
    ensures r.Ok? ==> PartsShaped(l, r.value)
  {
    var bids :- Project(items, BidsRecord, l.bids, coerce);
    var settings :- Project(items, SettingsRecord, l.settings, coerce);
    var prov :- Project(items, ProvRecord, l.prov, coerce);
    var metrics :- Project(items, ItemFields, l.metrics, coerce);
    Ok(Parts(metrics, prov, settings, bids))
  }

  /** `iqms.join(provenance, on="_id").join(settings, on="_id").join(bids_meta, on="_id")`
      (download.py:292-296). */
  function JoinParts(l: Layout, p: Parts): (t: Table)
    requires Separate(l) && PartsShaped(l, p)
    ensures t.columns == JoinedColumns(l)
    ensures WellFormed(t)
  {
    JoinChain(p.metrics, p.prov, p.settings, p.bids, IdKey)
  }

  /** `get_iqms(modality, page, max_results)`: the table of one page, or the error the
      page raises. */
  function GetIqms(modality: string, page: int, maxResults: int, fetch: Fetch, coerce: Coercion): (r: Result<Table, Error>)
    ensures r.Ok? ==> r.value.columns == JoinedColumns(LayoutFor(modality)) && WellFormed(r.value)
  {
    var items :- fetch(UrlRoot(modality), page, maxResults);
    var parts :- BuildParts(LayoutFor(modality), items, coerce);
    LayoutSeparate(modality);
    Ok(JoinParts(LayoutFor(modality), parts))
  }

  // ---------------------------------------------------------------------------
  // The sub-records of one item

  /** An item the three comprehensions can take apart: a dict whose `bids_meta` and
      `provenance` are dicts, the latter holding a dict under `settings`. */
  predicate Decomposable(item: Value) {
    && item.Object?
    && Get(item.fields, "bids_meta").Object?
    && Get(item.fields, "provenance").Object?
    && Get(Get(item.fields, "provenance").fields, "settings").Object?
  }

  /** The provenance block of an item, with the item's `_id`. */
  function ProvBlock(item: Value): Record
    requires Decomposable(item)
  {
    WithId(Get(item.fields, "provenance").fields, ItemId(item.fields))
  }

  /** The settings block nested in the provenance block, with the item's `_id`. */
  function SettingsBlock(item: Value): Record
    requires Decomposable(item)
  {
    WithId(Get(Get(item.fields, "provenance").fields, "settings").fields, ItemId(item.fields))
  }

  /** The BIDS metadata block of an item, with the item's `_id`. */
  function BidsBlock(item: Value): Record
    requires Decomposable(item)
  {
    WithId(Get(item.fields, "bids_meta").fields, ItemId(item.fields))
  }

  /** The comprehensions succeed on an item exactly when it is decomposable, and then
      give its blocks with the item's `_id` written over theirs. */
  lemma DecomposeItem(item: Value)
    ensures ItemFields(item).Ok? && BidsRecord(item).Ok? && SettingsRecord(item).Ok? && ProvRecord(item).Ok?
      <==> Decomposable(item)
    ensures Decomposable(item) ==>
      && ItemFields(item).value == item.fields
      && BidsRecord(item).value == BidsBlock(item)
      && SettingsRecord(item).value == SettingsBlock(item)
      && ProvRecord(item).value == ProvBlock(item)
  {
  }

  /** Each block gets the item's own `_id`, whatever `_id` the block carried, and keeps
      all its other keys. */
  lemma IdOverridden(item: Value)
    requires Decomposable(item)
    ensures ProvBlock(item)[IdKey] == SettingsBlock(item)[IdKey] == BidsBlock(item)[IdKey] == Get(item.fields, IdKey)
    ensures forall k :: k in Get(item.fields, "bids_meta").fields && k != IdKey ==>
      BidsBlock(item)[k] == Get(item.fields, "bids_meta").fields[k]
    ensures BidsBlock(item).Keys == Get(item.fields, "bids_meta").fields.Keys + {IdKey}
  {
  }

  /** An item the pipeline accepts: it can be taken apart and every value of its four
      records fits its column. */
  predicate Accepted(l: Layout, item: Value, coerce: Coercion) {
    && Decomposable(item)
    && Fits(item.fields, l.metrics, coerce)
    && Fits(ProvBlock(item), l.prov, coerce)
    && Fits(SettingsBlock(item), l.settings, coerce)
    && Fits(BidsBlock(item), l.bids, coerce)
  }

  /** What the four projections demand of one item. */
  predicate ItemAccepted(l: Layout, item: Value, coerce: Coercion) {
    && BidsRecord(item).Ok? && Fits(BidsRecord(item).value, l.bids, coerce)
    && SettingsRecord(item).Ok? && Fits(SettingsRecord(item).value, l.settings, coerce)
    && ProvRecord(item).Ok? && Fits(ProvRecord(item).value, l.prov, coerce)
    && ItemFields(item).Ok? && Fits(ItemFields(item).value, l.metrics, coerce)
  }

  /** The four tables exist exactly when every item is accepted. */
  lemma BuildPartsOk(l: Layout, items: seq<Value>, coerce: Coercion)
    ensures BuildParts(l, items, coerce).Ok? <==> forall i :: 0 <= i < |items| ==> Accepted(l, items[i], coerce)
  {
    var pb := Project(items, BidsRecord, l.bids, coerce);
    var ps := Project(items, SettingsRecord, l.settings, coerce);
    var pp := Project(items, ProvRecord, l.prov, coerce);
    var pm := Project(items, ItemFields, l.metrics, coerce);
    assert BuildParts(l, items, coerce).Ok? <==> pb.Ok? && ps.Ok? && pp.Ok? && pm.Ok?;
    forall i | 0 <= i < |items|
      ensures ItemAccepted(l, items[i], coerce) <==> Accepted(l, items[i], coerce)
    {
      DecomposeItem(items[i]);
    }
  }

  /** The metrics row of an accepted item. */
  function MetricsRow(l: Layout, item: Value, coerce: Coercion): Row
    requires Accepted(l, item, coerce)
  {
    RowFor(item.fields, l.metrics, coerce)
  }

  function ProvRow(l: Layout, item: Value, coerce: Coercion): Row
    requires Accepted(l, item, coerce)
  {
    RowFor(ProvBlock(item), l.prov, coerce)
  }

  function SettingsRow(l: Layout, item: Value, coerce: Coercion): Row
    requires Accepted(l, item, coerce)
  {
    RowFor(SettingsBlock(item), l.settings, coerce)
  }

  function BidsRow(l: Layout, item: Value, coerce: Coercion): Row
    requires Accepted(l, item, coerce)
  {
    RowFor(BidsBlock(item), l.bids, coerce)
  }

  /** The four tables hold one row per item, in item order, each projected from the
      item's record. */
  lemma BuildPartsRows(l: Layout, items: seq<Value>, coerce: Coercion)
    requires BuildParts(l, items, coerce).Ok?
    ensures forall i :: 0 <= i < |items| ==> Accepted(l, items[i], coerce)
    ensures var p := BuildParts(l, items, coerce).value;
      && |p.metrics.rows| == |p.prov.rows| == |p.settings.rows| == |p.bids.rows| == |items|
      && (forall i :: 0 <= i < |items| ==> p.metrics.rows[i] == MetricsRow(l, items[i], coerce))
      && (forall i :: 0 <= i < |items| ==> p.prov.rows[i] == ProvRow(l, items[i], coerce))
      && (forall i :: 0 <= i < |items| ==> p.settings.rows[i] == SettingsRow(l, items[i], coerce))
      && (forall i :: 0 <= i < |items| ==> p.bids.rows[i] == BidsRow(l, items[i], coerce))
  {
    BuildPartsOk(l, items, coerce);
    forall i | 0 <= i < |items| {
      DecomposeItem(items[i]);
    }
  }

  // ---------------------------------------------------------------------------
  // The rows of a page

  /** The `_id` cell of an item: null when the item has no `_id` or a null one,
      otherwise the converted id. */
  function IdCell(item: Value, coerce: Coercion): Cell {
    var id := if item.Object? then Get(item.fields, IdKey) else Null;
    if id == Null then NullCell
    else match coerce(Utf8, id)
      case Some(v) => Present(Utf8, v)
      case None => NullCell
  }

  /** The four rows of an item carry the same `_id` cell, and it is null exactly when
      the item has no `_id` or a null one. */
  lemma ItemKeys(l: Layout, item: Value, coerce: Coercion)
    requires Keyed(l) && Accepted(l, item, coerce)
    ensures |MetricsRow(l, item, coerce)| > 0 && MetricsRow(l, item, coerce)[0] == IdCell(item, coerce)
    ensures |ProvRow(l, item, coerce)| > 0 && |SettingsRow(l, item, coerce)| > 0 && |BidsRow(l, item, coerce)| > 0
    ensures ProvRow(l, item, coerce)[0] == IdCell(item, coerce)
    ensures SettingsRow(l, item, coerce)[0] == IdCell(item, coerce)
    ensures BidsRow(l, item, coerce)[0] == IdCell(item, coerce)
    ensures IdCell(item, coerce).Present? <==> Get(item.fields, IdKey) != Null
  {
    IdOverridden(item);
  }

  /** The row of the page table an item gives: its metrics, provenance, settings and
      BIDS rows, the last three without their `_id` cell. */
  function ItemRow(l: Layout, item: Value, coerce: Coercion): Row
    requires Keyed(l) && Accepted(l, item, coerce)
  {
    MetricsRow(l, item, coerce) + ProvRow(l, item, coerce)[1..]
      + SettingsRow(l, item, coerce)[1..] + BidsRow(l, item, coerce)[1..]
  }

  /** The four row sequences of a page, one row per item. */
  function MetricsRows(l: Layout, items: seq<Value>, coerce: Coercion): (rows: seq<Row>)
    requires forall i :: 0 <= i < |items| ==> Accepted(l, items[i], coerce)
    ensures |rows| == |items| && forall i :: 0 <= i < |items| ==> rows[i] == MetricsRow(l, items[i], coerce)
  {
    seq(|items|, i requires 0 <= i < |items| => MetricsRow(l, items[i], coerce))
  }

  function ProvRows(l: Layout, items: seq<Value>, coerce: Coercion): (rows: seq<Row>)
    requires forall i :: 0 <= i < |items| ==> Accepted(l, items[i], coerce)
    ensures |rows| == |items| && forall i :: 0 <= i < |items| ==> rows[i] == ProvRow(l, items[i], coerce)
  {
    seq(|items|, i requires 0 <= i < |items| => ProvRow(l, items[i], coerce))
  }

  function SettingsRows(l: Layout, items: seq<Value>, coerce: Coercion): (rows: seq<Row>)
    requires forall i :: 0 <= i < |items| ==> Accepted(l, items[i], coerce)
    ensures |rows| == |items| && forall i :: 0 <= i < |items| ==> rows[i] == SettingsRow(l, items[i], coerce)
  {
    seq(|items|, i requires 0 <= i < |items| => SettingsRow(l, items[i], coerce))
  }

  function BidsRows(l: Layout, items: seq<Value>, coerce: Coercion): (rows: seq<Row>)
    requires forall i :: 0 <= i < |items| ==> Accepted(l, items[i], coerce)
    ensures |rows| == |items| && forall i :: 0 <= i < |items| ==> rows[i] == BidsRow(l, items[i], coerce)
  {
    seq(|items|, i requires 0 <= i < |items| => BidsRow(l, items[i], coerce))
  }

  /** The four row sequences of a page agree on the `_id` cell, item by item. */
  lemma PageKeysAligned(l: Layout, items: seq<Value>, coerce: Coercion)
    requires Keyed(l) && forall i :: 0 <= i < |items| ==> Accepted(l, items[i], coerce)
    ensures AlignedKeys(MetricsRows(l, items, coerce), ProvRows(l, items, coerce),
                        SettingsRows(l, items, coerce), BidsRows(l, items, coerce))
    ensures forall i :: 0 <= i < |items| ==> MetricsRows(l, items, coerce)[i][0] == IdCell(items[i], coerce)
  {
    forall i | 0 <= i < |items| {
      ItemKeys(l, items[i], coerce);
    }
  }

  /** The rows of the items that have a non-null `_id`, in item order, each the item's
      `ItemRow`. */
  function PageRows(l: Layout, items: seq<Value>, coerce: Coercion): (rows: seq<Row>)
    requires Keyed(l) && forall i :: 0 <= i < |items| ==> Accepted(l, items[i], coerce)
    ensures |rows| <= |items|
  {
    PageKeysAligned(l, items, coerce);
    KeptRows(MetricsRows(l, items, coerce), ProvRows(l, items, coerce),
             SettingsRows(l, items, coerce), BidsRows(l, items, coerce))
  }

  /** A row is a page row exactly when it is the row of an item with a non-null `_id`. */
  lemma PageRowsMembers(l: Layout, items: seq<Value>, coerce: Coercion, row: Row)
    requires Keyed(l) && forall i :: 0 <= i < |items| ==> Accepted(l, items[i], coerce)
    ensures row in PageRows(l, items, coerce) <==>
      exists i :: 0 <= i < |items| && IdCell(items[i], coerce).Present? && row == ItemRow(l, items[i], coerce)
  {
    PageKeysAligned(l, items, coerce);
    KeptRowsMembers(MetricsRows(l, items, coerce), ProvRows(l, items, coerce),
                    SettingsRows(l, items, coerce), BidsRows(l, items, coerce), row);
  }

  /** No two items share a non-null `_id` cell. */
  predicate DistinctIds(items: seq<Value>, coerce: Coercion) {
    forall i, j ::
      0 <= i < |items| && 0 <= j < |items| && KeysMatch(IdCell(items[i], coerce), IdCell(items[j], coerce))
      ==> i == j
  }

  // ---------------------------------------------------------------------------
  // Properties of get_iqms

  lemma SeparateKeyed(l: Layout)
    requires Separate(l)
    ensures Keyed(l)
  {
  }

  lemma PartsJoinable(l: Layout, p: Parts)
    requires Separate(l) && PartsShaped(l, p)
    ensures ChainJoinable(p.metrics, p.prov, p.settings, p.bids, IdKey)
  {
  }

  /** A page fails exactly when the request fails (with its error) or some item is not
      accepted: it cannot be taken apart, or one of its values does not convert. */
  lemma GetIqmsOk(modality: string, page: int, maxResults: int, fetch: Fetch, coerce: Coercion)
    ensures fetch(UrlRoot(modality), page, maxResults).Err? ==>
      GetIqms(modality, page, maxResults, fetch, coerce) == Err(fetch(UrlRoot(modality), page, maxResults).error)
    ensures fetch(UrlRoot(modality), page, maxResults).Ok? ==>
      (GetIqms(modality, page, maxResults, fetch, coerce).Ok? <==>
       forall i :: 0 <= i < |fetch(UrlRoot(modality), page, maxResults).value| ==>
         Accepted(LayoutFor(modality), fetch(UrlRoot(modality), page, maxResults).value[i], coerce))
  {
    var r := fetch(UrlRoot(modality), page, maxResults);
    if r.Ok? {
      BuildPartsOk(LayoutFor(modality), r.value, coerce);
    }
  }

  /** The rows of the parts are the per-item rows, which agree on the key cell. */
  lemma PartsRows(l: Layout, items: seq<Value>, coerce: Coercion)
    requires Keyed(l) && forall i :: 0 <= i < |items| ==> Accepted(l, items[i], coerce)
    ensures BuildParts(l, items, coerce).Ok?
    ensures var p := BuildParts(l, items, coerce).value;
      && p.metrics.rows == MetricsRows(l, items, coerce)
      && p.prov.rows == ProvRows(l, items, coerce)
      && p.settings.rows == SettingsRows(l, items, coerce)
      && p.bids.rows == BidsRows(l, items, coerce)
  {
    BuildPartsOk(l, items, coerce);
    BuildPartsRows(l, items, coerce);
  }

  /** Unique item ids give unique keys in the metrics table. */
  lemma DistinctIdsUniqueKeys(l: Layout, items: seq<Value>, coerce: Coercion)
    requires Keyed(l) && forall i :: 0 <= i < |items| ==> Accepted(l, items[i], coerce)
    requires DistinctIds(items, coerce)
    ensures forall i :: 0 <= i < |items| ==> |MetricsRows(l, items, coerce)[i]| > 0
    ensures UniqueKeys(MetricsRows(l, items, coerce), 0)
  {
    PageKeysAligned(l, items, coerce);
    var ms := MetricsRows(l, items, coerce);
    forall i, j | 0 <= i < |ms| && 0 <= j < |ms| && KeysMatch(ms[i][0], ms[j][0])
      ensures i == j
    {
      assert KeysMatch(IdCell(items[i], coerce), IdCell(items[j], coerce));
    }
  }

  /** For separate schemas and unique ids, the joined table of a page's items. */
  lemma PageTable(l: Layout, items: seq<Value>, coerce: Coercion)
    requires Separate(l) && forall i :: 0 <= i < |items| ==> Accepted(l, items[i], coerce)
    requires DistinctIds(items, coerce)
    ensures BuildParts(l, items, coerce).Ok?
    ensures JoinParts(l, BuildParts(l, items, coerce).value).rows == PageRows(l, items, coerce)
  {
    SeparateKeyed(l);
    PartsRows(l, items, coerce);
    var p := BuildParts(l, items, coerce).value;
    PageKeysAligned(l, items, coerce);
    DistinctIdsUniqueKeys(l, items, coerce);
    PartsJoinable(l, p);
    JoinChainAligned(p.metrics, p.prov, p.settings, p.bids, IdKey);
  }

  /** With ids unique across the page, the page table holds exactly the items that have
      a non-null `_id`, in item order, each as its `ItemRow`. */
  lemma GetIqmsRows(modality: string, page: int, maxResults: int, fetch: Fetch, coerce: Coercion, items: seq<Value>)
    requires fetch(UrlRoot(modality), page, maxResults) == Ok(items)
    requires forall i :: 0 <= i < |items| ==> Accepted(LayoutFor(modality), items[i], coerce)
    requires DistinctIds(items, coerce)
    ensures Keyed(LayoutFor(modality))
    ensures GetIqms(modality, page, maxResults, fetch, coerce)
      == Ok(Table(JoinedColumns(LayoutFor(modality)), PageRows(LayoutFor(modality), items, coerce)))
  {
    LayoutSeparate(modality);
    SeparateKeyed(LayoutFor(modality));
    PageTable(LayoutFor(modality), items, coerce);
  }

  /** `row` glues the metrics row of item `i` to the provenance row of item `j`, the
      settings row of item `k` and the BIDS row of item `m`, all four carrying the same
      non-null `_id` cell. */
  predicate ItemsMatchAt(l: Layout, items: seq<Value>, coerce: Coercion, row: Row, i: int, j: int, k: int, m: int)
    requires Keyed(l) && forall i :: 0 <= i < |items| ==> Accepted(l, items[i], coerce)
  {
    && 0 <= i < |items| && 0 <= j < |items| && 0 <= k < |items| && 0 <= m < |items|
    && IdCell(items[i], coerce).Present?
    && IdCell(items[j], coerce) == IdCell(items[i], coerce)
    && IdCell(items[k], coerce) == IdCell(items[i], coerce)
    && IdCell(items[m], coerce) == IdCell(items[i], coerce)
    && row == MetricsRow(l, items[i], coerce) + ProvRow(l, items[j], coerce)[1..]
      + SettingsRow(l, items[k], coerce)[1..] + BidsRow(l, items[m], coerce)[1..]
  }

  /** `row` glues the metrics row of one item to the provenance, settings and BIDS rows
      of items (the same or others) carrying the same non-null `_id` cell. */
  predicate ItemsMatch(l: Layout, items: seq<Value>, coerce: Coercion, row: Row)
    requires Keyed(l) && forall i :: 0 <= i < |items| ==> Accepted(l, items[i], coerce)
  {
    exists i, j, k, m | 0 <= i < |items| && 0 <= j < |items| && 0 <= k < |items| && 0 <= m < |items| ::
      ItemsMatchAt(l, items, coerce, row, i, j, k, m)
  }

  /** The same four positions glue the same row in the page's row sequences and in its
      items. */
  lemma ChainMatchAtItems(l: Layout, items: seq<Value>, coerce: Coercion, row: Row, i: int, j: int, k: int, m: int)
    requires Keyed(l) && forall i :: 0 <= i < |items| ==> Accepted(l, items[i], coerce)
    ensures ChainMatchAt(MetricsRows(l, items, coerce), ProvRows(l, items, coerce),
                         SettingsRows(l, items, coerce), BidsRows(l, items, coerce), row, i, j, k, m)
      <==> ItemsMatchAt(l, items, coerce, row, i, j, k, m)
  {
    if 0 <= i < |items| && 0 <= j < |items| && 0 <= k < |items| && 0 <= m < |items| {
      assert MetricsRows(l, items, coerce)[i] == MetricsRow(l, items[i], coerce);
      assert ProvRows(l, items, coerce)[j] == ProvRow(l, items[j], coerce);
      assert SettingsRows(l, items, coerce)[k] == SettingsRow(l, items[k], coerce);
      assert BidsRows(l, items, coerce)[m] == BidsRow(l, items[m], coerce);
      ItemKeys(l, items[i], coerce);
      ItemKeys(l, items[j], coerce);
      ItemKeys(l, items[k], coerce);
      ItemKeys(l, items[m], coerce);
    }
  }

  /** Gluing rows of the four row sequences of a page is gluing rows of its items. */
  lemma ChainMatchItems(l: Layout, items: seq<Value>, coerce: Coercion, row: Row)
    requires Keyed(l) && forall i :: 0 <= i < |items| ==> Accepted(l, items[i], coerce)
    ensures ChainMatch(MetricsRows(l, items, coerce), ProvRows(l, items, coerce),
                       SettingsRows(l, items, coerce), BidsRows(l, items, coerce), row)
      <==> ItemsMatch(l, items, coerce, row)
  {
    var ms, ps, ss, bs := MetricsRows(l, items, coerce), ProvRows(l, items, coerce),
                          SettingsRows(l, items, coerce), BidsRows(l, items, coerce);
    if ChainMatch(ms, ps, ss, bs, row) {
      var i, j, k, m :| ChainMatchAt(ms, ps, ss, bs, row, i, j, k, m);
      ChainMatchAtItems(l, items, coerce, row, i, j, k, m);
    }
    if ItemsMatch(l, items, coerce, row) {
      var i, j, k, m :| ItemsMatchAt(l, items, coerce, row, i, j, k, m);
      ChainMatchAtItems(l, items, coerce, row, i, j, k, m);
    }
  }

  /** A row is in the joined table of a page exactly when it glues rows of items that
      carry its non-null `_id`. */
  lemma PageMembers(l: Layout, items: seq<Value>, coerce: Coercion, row: Row)
    requires Separate(l) && forall i :: 0 <= i < |items| ==> Accepted(l, items[i], coerce)
    ensures BuildParts(l, items, coerce).Ok?
    ensures row in JoinParts(l, BuildParts(l, items, coerce).value).rows <==> ItemsMatch(l, items, coerce, row)
  {
    SeparateKeyed(l);
    PartsRows(l, items, coerce);
    var p := BuildParts(l, items, coerce).value;
    PartsJoinable(l, p);
    JoinChainMembers(p.metrics, p.prov, p.settings, p.bids, IdKey, row);
    ChainMatchItems(l, items, coerce, row);
  }

  /** Whatever the ids, a row is in the page table exactly when it glues rows of items
      that carry its non-null `_id`. */
  lemma GetIqmsMembers(modality: string, page: int, maxResults: int, fetch: Fetch, coerce: Coercion, items: seq<Value>, row: Row)
    requires fetch(UrlRoot(modality), page, maxResults) == Ok(items)
    requires forall i :: 0 <= i < |items| ==> Accepted(LayoutFor(modality), items[i], coerce)
    ensures Keyed(LayoutFor(modality))
    ensures GetIqms(modality, page, maxResults, fetch, coerce).Ok?
    ensures row in GetIqms(modality, page, maxResults, fetch, coerce).value.rows
      <==> ItemsMatch(LayoutFor(modality), items, coerce, row)
  {
    LayoutSeparate(modality);
    SeparateKeyed(LayoutFor(modality));
    PageMembers(LayoutFor(modality), items, coerce, row);
  }
}
