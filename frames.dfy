/** The parts of polars that the pipeline relies on, by their observable behaviour:
    building a typed table from a list of dicts against a schema (`pl.from_dicts`),
    the inner equi-join on one key column (`DataFrame.join`), and vertical
    concatenation (`pl.concat`). JSON values are symbolic. */
module Frames {
  import opened Wrappers
  import opened Schemas

  /** A decoded JSON value. An `Atom` stands for any number, string or boolean. */
  datatype Value = Null | Atom(token: string) | Array(elems: seq<Value>) | Object(fields: map<string, Value>)

  /** A JSON object, that is a Python dict produced by the JSON decoder. */
  type Record = map<string, Value>

  /** `d.get(key)`: the value under `key`, or None (here `Null`) when it is absent. */
  function Get(d: Record, key: string): (v: Value)
    ensures key !in d ==> v == Null
    ensures key in d ==> v == d[key]
  {
    if key in d then d[key] else Null
  }

  /** The exceptions a page can raise; all of them are caught by the pagination loop
      except `EmptyConcat`. */
  datatype Error =
    | RequestFailed                         // HTTP, JSON decoding or a missing "_items" key
    | MissingBlock(key: string)             // `dict(None)` or `None.get(...)`
    | NotAnObject(key: string)              // `.get` or `dict(...)` on something that is not a dict
    | CoercionFailed(column: string, value: Value)
    | EmptyConcat                           // `pl.concat([])`
    | SchemaMismatch                        // `pl.concat` of tables with different columns

  /** A cell of a table: polars' null, or a value of the column's data type. */
  datatype Cell = NullCell | Present(dtype: Dtype, payload: Value)

  /** One row, cell k belonging to column k. */
  type Row = seq<Cell>

  datatype Table = Table(columns: Columns, rows: seq<Row>)

  /** Converts a non-null JSON value to a data type: `Some` of the converted value,
      or `None` where polars would raise. Left abstract: the pipeline is a function of it. */
  type Coercion = (Dtype, Value) -> Option<Value>

  /** Every row has one cell per column and every non-null cell has its column's type. */
  predicate WellFormed(t: Table) {
    forall i :: 0 <= i < |t.rows| ==> RowFits(t.rows[i], t.columns)
  }

  predicate RowFits(row: Row, columns: Columns) {
    && |row| == |columns|
    && forall k :: 0 <= k < |row| ==> (row[k].Present? ==> row[k].dtype == columns[k].dtype)
  }

  // ---------------------------------------------------------------------------
  // pl.from_dicts(records, schema=columns)

  /** The value of `col` in `rec` can be stored: it is absent, null, or coercible. */
  predicate Coercible(rec: Record, col: Column, coerce: Coercion) {
    Get(rec, col.name) == Null || coerce(col.dtype, rec[col.name]).Some?
  }

  /** The cell column `col` gets from `rec`: null for an absent or null value,
      otherwise the coerced value, typed by the column. */
  function CellFor(rec: Record, col: Column, coerce: Coercion): (c: Cell)
    requires Coercible(rec, col, coerce)
    ensures c == NullCell <==> Get(rec, col.name) == Null
    ensures c.Present? ==> c.dtype == col.dtype && coerce(col.dtype, rec[col.name]) == Some(c.payload)
  {
    if Get(rec, col.name) == Null then NullCell
    else Present(col.dtype, coerce(col.dtype, rec[col.name]).value)
  }

  /** Every value of `rec` under `columns` can be stored. */
  predicate Fits(rec: Record, columns: Columns, coerce: Coercion) {
    forall k :: 0 <= k < |columns| ==> Coercible(rec, columns[k], coerce)
  }

  /** The row `rec` becomes under `columns`. */
  function RowFor(rec: Record, columns: Columns, coerce: Coercion): (row: Row)
    requires Fits(rec, columns, coerce)
    ensures RowFits(row, columns)
    ensures forall k :: 0 <= k < |columns| ==> (row[k] == NullCell <==> Get(rec, columns[k].name) == Null)
  {
    seq(|columns|, k requires 0 <= k < |columns| => CellFor(rec, columns[k], coerce))
  }

  function ProjectCell(rec: Record, col: Column, coerce: Coercion): Result<Cell, Error> {
    if Coercible(rec, col, coerce) then Ok(CellFor(rec, col, coerce))
    else Err(CoercionFailed(col.name, rec[col.name]))
  }

  function ProjectRow(rec: Record, columns: Columns, coerce: Coercion): (r: Result<Row, Error>)
    ensures r.Ok? <==> Fits(rec, columns, coerce)
    ensures r.Ok? ==> r.value == RowFor(rec, columns, coerce)
  {
    Traverse(columns, col => ProjectCell(rec, col, coerce))
  }

  /** `pl.from_dicts(records, schema=columns)`: exactly the schema's columns in
      declaration order, one row per record in record order, keys outside the schema
      ignored, absent keys null; it fails when some present value does not coerce. */
  function FromDicts(records: seq<Record>, columns: Columns, coerce: Coercion): (r: Result<Table, Error>)
    ensures r.Ok? <==> forall i :: 0 <= i < |records| ==> Fits(records[i], columns, coerce)
    ensures r.Ok? ==> r.value.columns == columns && |r.value.rows| == |records| && WellFormed(r.value)
    ensures r.Ok? ==> forall i :: 0 <= i < |records| ==> r.value.rows[i] == RowFor(records[i], columns, coerce)
  {
    var rows :- Traverse(records, rec => ProjectRow(rec, columns, coerce));
    assert forall i :: 0 <= i < |records| ==> rows[i] == RowFor(records[i], columns, coerce);
    Ok(Table(columns, rows))
  }

  /** Projection reads only the schema's keys: two records that agree on them give the
      same row, whatever else either holds. */
  lemma ExtraKeysIgnored(a: Record, b: Record, columns: Columns, coerce: Coercion)
    requires forall k :: 0 <= k < |columns| ==> Get(a, columns[k].name) == Get(b, columns[k].name)
    ensures ProjectRow(a, columns, coerce) == ProjectRow(b, columns, coerce)
  {
    forall k | 0 <= k < |columns|
      ensures ProjectCell(a, columns[k], coerce) == ProjectCell(b, columns[k], coerce)
    {
      assert Get(a, columns[k].name) == Get(b, columns[k].name);
    }
    TraverseCongruent(columns, col => ProjectCell(a, col, coerce), col => ProjectCell(b, col, coerce));
  }

  /** A column whose key is absent from a record is null in that record's row; it is
      not an error, whatever the declarative schema says about `required`. */
  lemma AbsentKeyIsNull(records: seq<Record>, s: Schema, i: nat, k: nat, coerce: Coercion)
    requires FromDicts(records, Typed(s), coerce).Ok?
    requires i < |records| && k < |s| && s[k].name !in records[i]
    ensures FromDicts(records, Typed(s), coerce).value.rows[i][k] == NullCell
  {
    assert Typed(s)[k].name == s[k].name;
  }

  // ---------------------------------------------------------------------------
  // DataFrame.join(other, on=key), inner join

  /** The position of the first column named `key`, or `|columns|` when there is none. */
  function KeyIndex(columns: Columns, key: string): (k: nat)
    ensures k <= |columns|
    ensures k < |columns| ==> columns[k].name == key
    ensures forall i :: 0 <= i < k ==> columns[i].name != key
  {
    if columns == [] then 0
    else if columns[0].name == key then 0
    else 1 + KeyIndex(columns[1..], key)
  }

  /** `key` names exactly one column. */
  predicate HasKey(columns: Columns, key: string) {
    && KeyIndex(columns, key) < |columns|
    && forall i :: 0 <= i < |columns| && columns[i].name == key ==> i == KeyIndex(columns, key)
  }

  /** The two column lists have no name in common but `key`. */
  predicate DisjointBesides(a: Columns, b: Columns, key: string) {
    forall i, j :: 0 <= i < |a| && 0 <= j < |b| && a[i].name == b[j].name ==> a[i].name == key
  }

  /** What the join demands of its inputs: the key column in both, of one type, and no
      other column name shared (polars would rename the right one with a suffix). */
  predicate Joinable(left: Table, right: Table, key: string) {
    && WellFormed(left) && WellFormed(right)
    && HasKey(left.columns, key) && HasKey(right.columns, key)
    && left.columns[KeyIndex(left.columns, key)].dtype == right.columns[KeyIndex(right.columns, key)].dtype
    && DisjointBesides(left.columns, right.columns, key)
  }

  function RemoveAt<T>(s: seq<T>, k: nat): (r: seq<T>)
    requires k < |s|
    ensures |r| == |s| - 1
    ensures forall i :: 0 <= i < k ==> r[i] == s[i]
    ensures forall i :: k <= i < |r| ==> r[i] == s[i + 1]
  {
    s[..k] + s[k + 1..]
  }

  /** Two key cells match when they are equal and not null: null keys never join. */
  predicate KeysMatch(a: Cell, b: Cell) {
    a.Present? && a == b
  }

  /** A joined row: the left row, then the right row without its key cell. */
  function Merge(l: Row, r: Row, rk: nat): Row
    requires rk < |r|
  {
    l + RemoveAt(r, rk)
  }

  /** The rows `l` forms with the rows of `rs`, in the order of `rs`. */
  function Matches(l: Row, lk: nat, rs: seq<Row>, rk: nat): (out: seq<Row>)
    requires lk < |l|
    requires forall j :: 0 <= j < |rs| ==> rk < |rs[j]|
    ensures forall i :: 0 <= i < |out| ==> lk < |out[i]|
  {
    if rs == [] then []
    else (if KeysMatch(l[lk], rs[0][rk]) then [Merge(l, rs[0], rk)] else []) + Matches(l, lk, rs[1..], rk)
  }

  /** `l` forms a row with every right row whose key matches its own, and with no other. */
  lemma {:induction false} MatchesMembers(l: Row, lk: nat, rs: seq<Row>, rk: nat, row: Row)
    requires lk < |l|
    requires forall j :: 0 <= j < |rs| ==> rk < |rs[j]|
    ensures row in Matches(l, lk, rs, rk) <==>
      exists j :: 0 <= j < |rs| && KeysMatch(l[lk], rs[j][rk]) && row == Merge(l, rs[j], rk)
  {
    if rs != [] {
      MatchesMembers(l, lk, rs[1..], rk, row);
      if row in Matches(l, lk, rs[1..], rk) {
        var j :| 0 <= j < |rs[1..]| && KeysMatch(l[lk], rs[1..][j][rk]) && row == Merge(l, rs[1..][j], rk);
        assert rs[1..][j] == rs[j + 1];
      }
      if exists j :: 1 <= j < |rs| && KeysMatch(l[lk], rs[j][rk]) && row == Merge(l, rs[j], rk) {
        var j :| 1 <= j < |rs| && KeysMatch(l[lk], rs[j][rk]) && row == Merge(l, rs[j], rk);
        assert rs[1..][j - 1] == rs[j];
      }
    }
  }

  /** Nested-loop inner join: for each left row in order, its matches in right order. */
  function JoinRows(ls: seq<Row>, lk: nat, rs: seq<Row>, rk: nat): (out: seq<Row>)
    requires forall i :: 0 <= i < |ls| ==> lk < |ls[i]|
    requires forall j :: 0 <= j < |rs| ==> rk < |rs[j]|
    ensures forall i :: 0 <= i < |out| ==> lk < |out[i]|
  {
    if ls == [] then []
    else Matches(ls[0], lk, rs, rk) + JoinRows(ls[1..], lk, rs, rk)
  }

  /** The joined rows are the merges of the pairs of rows with matching keys. */
  lemma {:induction false} JoinRowsMembers(ls: seq<Row>, lk: nat, rs: seq<Row>, rk: nat, row: Row)
    requires forall i :: 0 <= i < |ls| ==> lk < |ls[i]|
    requires forall j :: 0 <= j < |rs| ==> rk < |rs[j]|
    ensures row in JoinRows(ls, lk, rs, rk) <==>
      exists i, j :: 0 <= i < |ls| && 0 <= j < |rs| && KeysMatch(ls[i][lk], rs[j][rk]) && row == Merge(ls[i], rs[j], rk)
  {
    if ls != [] {
      MatchesMembers(ls[0], lk, rs, rk, row);
      JoinRowsMembers(ls[1..], lk, rs, rk, row);
      if row in JoinRows(ls[1..], lk, rs, rk) {
        var i, j :| 0 <= i < |ls[1..]| && 0 <= j < |rs| && KeysMatch(ls[1..][i][lk], rs[j][rk]) && row == Merge(ls[1..][i], rs[j], rk);
        assert ls[1..][i] == ls[i + 1];
      }
      if exists i, j :: 1 <= i < |ls| && 0 <= j < |rs| && KeysMatch(ls[i][lk], rs[j][rk]) && row == Merge(ls[i], rs[j], rk) {
        var i, j :| 1 <= i < |ls| && 0 <= j < |rs| && KeysMatch(ls[i][lk], rs[j][rk]) && row == Merge(ls[i], rs[j], rk);
        assert ls[1..][i - 1] == ls[i];
      }
    }
  }

  /** `left.join(right, on=key)`. Column order: the left columns, then the right ones
      without its key. */
  function Join(left: Table, right: Table, key: string): (t: Table)
    requires Joinable(left, right, key)
    ensures t.columns == left.columns + RemoveAt(right.columns, KeyIndex(right.columns, key))
    ensures WellFormed(t)
  {
    var lk := KeyIndex(left.columns, key);
    var rk := KeyIndex(right.columns, key);
    var rows := JoinRows(left.rows, lk, right.rows, rk);
    var columns := left.columns + RemoveAt(right.columns, rk);
    assert forall n :: 0 <= n < |rows| ==> RowFits(rows[n], columns) by {
      forall n | 0 <= n < |rows| ensures RowFits(rows[n], columns) {
        JoinRowsMembers(left.rows, lk, right.rows, rk, rows[n]);
        var i, j :| 0 <= i < |left.rows| && 0 <= j < |right.rows| && KeysMatch(left.rows[i][lk], right.rows[j][rk])
          && rows[n] == Merge(left.rows[i], right.rows[j], rk);
        assert RowFits(left.rows[i], left.columns) && RowFits(right.rows[j], right.columns);
      }
    }
    Table(columns, rows)
  }

  // ---------------------------------------------------------------------------
  // Properties of the join

  /** Every joined row comes from a left row and a right row whose keys are equal and
      not null. */
  lemma JoinSound(left: Table, right: Table, key: string, row: Row)
    requires Joinable(left, right, key)
    requires row in Join(left, right, key).rows
    ensures exists i, j ::
      && 0 <= i < |left.rows| && 0 <= j < |right.rows|
      && left.rows[i][KeyIndex(left.columns, key)].Present?
      && left.rows[i][KeyIndex(left.columns, key)] == right.rows[j][KeyIndex(right.columns, key)]
      && row == left.rows[i] + RemoveAt(right.rows[j], KeyIndex(right.columns, key))
  {
    JoinRowsMembers(left.rows, KeyIndex(left.columns, key), right.rows, KeyIndex(right.columns, key), row);
  }

  /** Every pair of rows with equal, non-null keys gives a joined row. */
  lemma JoinComplete(left: Table, right: Table, key: string, i: nat, j: nat)
    requires Joinable(left, right, key)
    requires i < |left.rows| && j < |right.rows|
    requires left.rows[i][KeyIndex(left.columns, key)].Present?
    requires left.rows[i][KeyIndex(left.columns, key)] == right.rows[j][KeyIndex(right.columns, key)]
    ensures left.rows[i] + RemoveAt(right.rows[j], KeyIndex(right.columns, key)) in Join(left, right, key).rows
  {
    var lk, rk := KeyIndex(left.columns, key), KeyIndex(right.columns, key);
    JoinRowsMembers(left.rows, lk, right.rows, rk, Merge(left.rows[i], right.rows[j], rk));
  }

  /** The key column of a join is the left key column, and it is still the only column
      of that name. */
  lemma JoinKeepsKey(left: Table, right: Table, key: string)
    requires Joinable(left, right, key)
    ensures HasKey(Join(left, right, key).columns, key)
    ensures KeyIndex(Join(left, right, key).columns, key) == KeyIndex(left.columns, key)
  {
    var rk := KeyIndex(right.columns, key);
    var cs := Join(left, right, key).columns;
    KeyIndexAt(cs, key, KeyIndex(left.columns, key));
  }

  /** `KeyIndex` is determined by its contract. */
  lemma {:induction false} KeyIndexAt(columns: Columns, key: string, k: nat)
    requires k < |columns| && columns[k].name == key
    requires forall i :: 0 <= i < k ==> columns[i].name != key
    ensures KeyIndex(columns, key) == k
  {
    if k > 0 {
      assert columns[0].name != key;
      KeyIndexAt(columns[1..], key, k - 1);
    }
  }

  /** A third table that shares only the key with both inputs shares only the key
      with their join, so joins can be chained. */
  lemma JoinKeepsDisjoint(left: Table, right: Table, other: Columns, key: string)
    requires Joinable(left, right, key)
    requires DisjointBesides(left.columns, other, key) && DisjointBesides(right.columns, other, key)
    ensures DisjointBesides(Join(left, right, key).columns, other, key)
  {
  }

  /** No two rows share a non-null key. */
  predicate UniqueKeys(rows: seq<Row>, k: nat)
    requires forall i :: 0 <= i < |rows| ==> k < |rows[i]|
  {
    forall i, j :: 0 <= i < |rows| && 0 <= j < |rows| && KeysMatch(rows[i][k], rows[j][k]) ==> i == j
  }

  lemma UniqueKeysTail(rows: seq<Row>, k: nat)
    requires |rows| > 0 && forall i :: 0 <= i < |rows| ==> k < |rows[i]|
    requires UniqueKeys(rows, k)
    ensures UniqueKeys(rows[1..], k)
  {
    forall i, j | 0 <= i < |rows| - 1 && 0 <= j < |rows| - 1 && KeysMatch(rows[1..][i][k], rows[1..][j][k])
      ensures i == j
    {
      assert rows[1..][i] == rows[i + 1] && rows[1..][j] == rows[j + 1];
    }
  }

  /** A left row whose key no right row carries joins with nothing; in particular a
      row with a null key is dropped. */
  lemma MatchesNone(l: Row, lk: nat, rs: seq<Row>, rk: nat)
    requires lk < |l| && forall j :: 0 <= j < |rs| ==> rk < |rs[j]|
    requires forall j :: 0 <= j < |rs| ==> !KeysMatch(l[lk], rs[j][rk])
    ensures Matches(l, lk, rs, rk) == []
  {
    var m := Matches(l, lk, rs, rk);
    if m != [] {
      MatchesMembers(l, lk, rs, rk, m[0]);
    }
  }

  /** With unique right keys a left row joins with exactly the right row carrying its key. */
  lemma {:induction false} MatchesOne(l: Row, lk: nat, rs: seq<Row>, rk: nat, j: nat)
    requires lk < |l| && forall i :: 0 <= i < |rs| ==> rk < |rs[i]|
    requires UniqueKeys(rs, rk)
    requires j < |rs| && KeysMatch(l[lk], rs[j][rk])
    ensures Matches(l, lk, rs, rk) == [Merge(l, rs[j], rk)]
  {
    UniqueKeysTail(rs, rk);
    if j == 0 {
      forall i | 0 <= i < |rs[1..]| ensures !KeysMatch(l[lk], rs[1..][i][rk]) {
        assert rs[1..][i] == rs[i + 1];
      }
      MatchesNone(l, lk, rs[1..], rk);
    } else {
      assert !KeysMatch(l[lk], rs[0][rk]);
      assert rs[1..][j - 1] == rs[j];
      MatchesOne(l, lk, rs[1..], rk, j - 1);
    }
  }

  /** The join of a concatenation of left rows is the concatenation of the joins. */
  lemma {:induction false} JoinRowsAppend(a: seq<Row>, b: seq<Row>, lk: nat, rs: seq<Row>, rk: nat)
    requires forall i :: 0 <= i < |a| ==> lk < |a[i]|
    requires forall i :: 0 <= i < |b| ==> lk < |b[i]|
    requires forall j :: 0 <= j < |rs| ==> rk < |rs[j]|
    ensures JoinRows(a + b, lk, rs, rk) == JoinRows(a, lk, rs, rk) + JoinRows(b, lk, rs, rk)
  {
    if a == [] {
      assert a + b == b;
    } else {
      assert (a + b)[0] == a[0];
      assert (a + b)[1..] == a[1..] + b;
      JoinRowsAppend(a[1..], b, lk, rs, rk);
      calc {
        JoinRows(a + b, lk, rs, rk);
        Matches(a[0], lk, rs, rk) + JoinRows(a[1..] + b, lk, rs, rk);
        Matches(a[0], lk, rs, rk) + (JoinRows(a[1..], lk, rs, rk) + JoinRows(b, lk, rs, rk));
        (Matches(a[0], lk, rs, rk) + JoinRows(a[1..], lk, rs, rk)) + JoinRows(b, lk, rs, rk);
        JoinRows(a, lk, rs, rk) + JoinRows(b, lk, rs, rk);
      }
    }
  }

  /** With unique right keys every left row joins at most once, so the join has at most
      as many rows as its left input. */
  lemma {:induction false} JoinRowsAtMostLeft(ls: seq<Row>, lk: nat, rs: seq<Row>, rk: nat)
    requires forall i :: 0 <= i < |ls| ==> lk < |ls[i]|
    requires forall j :: 0 <= j < |rs| ==> rk < |rs[j]|
    requires UniqueKeys(rs, rk)
    ensures |JoinRows(ls, lk, rs, rk)| <= |ls|
  {
    if ls != [] {
      if j :| 0 <= j < |rs| && KeysMatch(ls[0][lk], rs[j][rk]) {
        MatchesOne(ls[0], lk, rs, rk, j);
      } else {
        MatchesNone(ls[0], lk, rs, rk);
      }
      JoinRowsAtMostLeft(ls[1..], lk, rs, rk);
    }
  }

  /** The join is no longer than its left input when the right keys are unique. */
  lemma JoinAtMostUnique(left: Table, right: Table, key: string)
    requires Joinable(left, right, key)
    requires UniqueKeys(right.rows, KeyIndex(right.columns, key))
    ensures |Join(left, right, key).rows| <= |left.rows|
  {
    JoinRowsAtMostLeft(left.rows, KeyIndex(left.columns, key), right.rows, KeyIndex(right.columns, key));
  }

  /** Four tables, each with the key column first and of one type, no two sharing any
      other column name. */
  predicate ChainJoinable(a: Table, b: Table, c: Table, d: Table, key: string) {
    && WellFormed(a) && WellFormed(b) && WellFormed(c) && WellFormed(d)
    && HasKey(a.columns, key) && KeyIndex(a.columns, key) == 0
    && HasKey(b.columns, key) && KeyIndex(b.columns, key) == 0
    && HasKey(c.columns, key) && KeyIndex(c.columns, key) == 0
    && HasKey(d.columns, key) && KeyIndex(d.columns, key) == 0
    && a.columns[0] == b.columns[0] == c.columns[0] == d.columns[0]
    && DisjointBesides(a.columns, b.columns, key)
    && DisjointBesides(a.columns, c.columns, key) && DisjointBesides(b.columns, c.columns, key)
    && DisjointBesides(a.columns, d.columns, key) && DisjointBesides(b.columns, d.columns, key)
    && DisjointBesides(c.columns, d.columns, key)
  }

  /** The join of two tables with the key first can be joined with a third such table
      sharing only the key with both. */
  lemma JoinThenJoinable(l: Table, r: Table, other: Table, key: string)
    requires Joinable(l, r, key) && WellFormed(other)
    requires KeyIndex(l.columns, key) == 0 && KeyIndex(r.columns, key) == 0
    requires HasKey(other.columns, key) && KeyIndex(other.columns, key) == 0
    requires other.columns[0] == l.columns[0]
    requires DisjointBesides(l.columns, other.columns, key) && DisjointBesides(r.columns, other.columns, key)
    ensures Joinable(Join(l, r, key), other, key)
    ensures KeyIndex(Join(l, r, key).columns, key) == 0
    ensures Join(l, r, key).columns == l.columns + r.columns[1..]
    ensures Join(l, r, key).columns[0] == l.columns[0]
  {
    JoinKeepsKey(l, r, key);
    JoinKeepsDisjoint(l, r, other.columns, key);
    RemoveFirst(r.columns);
  }

  /** `a.join(b, on=key).join(c, on=key).join(d, on=key)`. */
  function JoinChain(a: Table, b: Table, c: Table, d: Table, key: string): (t: Table)
    requires ChainJoinable(a, b, c, d, key)
    ensures t.columns == a.columns + b.columns[1..] + c.columns[1..] + d.columns[1..]
    ensures WellFormed(t)
  {
    JoinThenJoinable(a, b, c, key);
    JoinKeepsDisjoint(a, b, d.columns, key);
    var ab := Join(a, b, key);
    JoinThenJoinable(ab, c, d, key);
    RemoveFirst(d.columns);
    Join(Join(ab, c, key), d, key)
  }

  /** Dropping the first cell. */
  lemma RemoveFirst<T>(s: seq<T>)
    requires |s| > 0
    ensures RemoveAt(s, 0) == s[1..]
  {
    assert s[..0] == [];
  }

  /** Row sequences of one length whose rows all start with the same key cell, row by row. */
  predicate AlignedKeys(a: seq<Row>, b: seq<Row>, c: seq<Row>, d: seq<Row>) {
    && |a| == |b| == |c| == |d|
    && forall i :: 0 <= i < |a| ==>
      && |a[i]| > 0 && |b[i]| > 0 && |c[i]| > 0 && |d[i]| > 0
      && b[i][0] == a[i][0] && c[i][0] == a[i][0] && d[i][0] == a[i][0]
  }

  /** Row by row, the four rows glued together (each but the first without its key
      cell), for the rows whose key is not null. */
  function KeptRows(a: seq<Row>, b: seq<Row>, c: seq<Row>, d: seq<Row>): (out: seq<Row>)
    requires AlignedKeys(a, b, c, d)
    ensures |out| <= |a|
  {
    if a == [] then []
    else
      (if a[0][0].Present? then [a[0] + b[0][1..] + c[0][1..] + d[0][1..]] else [])
      + KeptRows(a[1..], b[1..], c[1..], d[1..])
  }

  /** The rows `KeptRows` keeps are exactly the glued rows of the positions whose key
      is not null. */
  lemma {:induction false} KeptRowsMembers(a: seq<Row>, b: seq<Row>, c: seq<Row>, d: seq<Row>, row: Row)
    requires AlignedKeys(a, b, c, d)
    ensures row in KeptRows(a, b, c, d) <==>
      exists i :: 0 <= i < |a| && a[i][0].Present? && row == a[i] + b[i][1..] + c[i][1..] + d[i][1..]
  {
    if a != [] {
      KeptRowsMembers(a[1..], b[1..], c[1..], d[1..], row);
      if exists i :: 0 <= i < |a| && a[i][0].Present? && row == a[i] + b[i][1..] + c[i][1..] + d[i][1..] {
        var i :| 0 <= i < |a| && a[i][0].Present? && row == a[i] + b[i][1..] + c[i][1..] + d[i][1..];
        if i > 0 {
          assert a[1..][i - 1] == a[i] && b[1..][i - 1] == b[i] && c[1..][i - 1] == c[i] && d[1..][i - 1] == d[i];
        }
      }
      if row in KeptRows(a[1..], b[1..], c[1..], d[1..]) {
        var i :| 0 <= i < |a| - 1 && a[1..][i][0].Present? && row == a[1..][i] + b[1..][i][1..] + c[1..][i][1..] + d[1..][i][1..];
        assert a[1..][i] == a[i + 1] && b[1..][i] == b[i + 1] && c[1..][i] == c[i + 1] && d[1..][i] == d[i + 1];
      }
    }
  }

  /** The three chained joins of one row of `a`, given the rows of the other tables
      carrying its key. */
  lemma ChainOneRow(x: Row, bs: seq<Row>, cs: seq<Row>, ds: seq<Row>, n: nat)
    requires AlignedKeys(bs, bs, cs, ds) && n < |bs| && |x| > 0 && x[0] == bs[n][0]
    requires UniqueKeys(bs, 0) && UniqueKeys(cs, 0) && UniqueKeys(ds, 0)
    ensures JoinRows(JoinRows(JoinRows([x], 0, bs, 0), 0, cs, 0), 0, ds, 0)
      == if x[0].Present? then [x + bs[n][1..] + cs[n][1..] + ds[n][1..]] else []
  {
    var j1 := JoinRows([x], 0, bs, 0);
    assert [x][1..] == [];
    assert j1 == Matches(x, 0, bs, 0) + JoinRows([], 0, bs, 0);
    if x[0].Present? {
      MatchesOne(x, 0, bs, 0, n);
      RemoveFirst(bs[n]);
      var y := x + bs[n][1..];
      assert j1 == [y];
      assert [y][1..] == [];
      assert JoinRows([y], 0, cs, 0) == Matches(y, 0, cs, 0) + JoinRows([], 0, cs, 0);
      MatchesOne(y, 0, cs, 0, n);
      RemoveFirst(cs[n]);
      var z := y + cs[n][1..];
      assert JoinRows([y], 0, cs, 0) == [z];
      assert [z][1..] == [];
      assert JoinRows([z], 0, ds, 0) == Matches(z, 0, ds, 0) + JoinRows([], 0, ds, 0);
      MatchesOne(z, 0, ds, 0, n);
      RemoveFirst(ds[n]);
    } else {
      MatchesNone(x, 0, bs, 0);
      assert j1 == [];
    }
  }

  /** The induction behind `JoinChainAligned`, over the suffix of `a` from `n`. */
  lemma {:induction false} ChainAlignedFrom(a: seq<Row>, b: seq<Row>, c: seq<Row>, d: seq<Row>, n: nat)
    requires AlignedKeys(a, b, c, d) && UniqueKeys(a, 0) && n <= |a|
    requires UniqueKeys(b, 0) && UniqueKeys(c, 0) && UniqueKeys(d, 0)
    ensures JoinRows(JoinRows(JoinRows(a[n..], 0, b, 0), 0, c, 0), 0, d, 0)
      == KeptRows(a[n..], b[n..], c[n..], d[n..])
    decreases |a| - n
  {
    if n < |a| {
      assert AlignedKeys(b, b, c, d);
      var head := [a[n]];
      assert a[n..] == head + a[n + 1..];
      JoinRowsAppend(head, a[n + 1..], 0, b, 0);
      var h1 := JoinRows(head, 0, b, 0);
      var t1 := JoinRows(a[n + 1..], 0, b, 0);
      JoinRowsAppend(h1, t1, 0, c, 0);
      var h2 := JoinRows(h1, 0, c, 0);
      var t2 := JoinRows(t1, 0, c, 0);
      JoinRowsAppend(h2, t2, 0, d, 0);
      ChainOneRow(a[n], b, c, d, n);
      ChainAlignedFrom(a, b, c, d, n + 1);
      assert a[n..][1..] == a[n + 1..] && b[n..][1..] == b[n + 1..];
      assert c[n..][1..] == c[n + 1..] && d[n..][1..] == d[n + 1..];
    } else {
      assert a[n..] == [];
    }
  }

  /** Unique keys carry over to row sequences with the same keys. */
  lemma UniqueKeysAligned(a: seq<Row>, b: seq<Row>)
    requires |a| == |b| && forall i :: 0 <= i < |a| ==> |a[i]| > 0 && |b[i]| > 0 && b[i][0] == a[i][0]
    requires UniqueKeys(a, 0)
    ensures UniqueKeys(b, 0)
  {
    forall i, j | 0 <= i < |b| && 0 <= j < |b| && KeysMatch(b[i][0], b[j][0]) ensures i == j {
      assert KeysMatch(a[i][0], a[j][0]);
    }
  }

  /** Four tables built row for row from the same records, with unique keys: the join
      keeps exactly the rows with a non-null key, in their order, each glued to the rows
      of the other three tables at the same position. */
  lemma JoinChainAligned(a: Table, b: Table, c: Table, d: Table, key: string)
    requires ChainJoinable(a, b, c, d, key)
    requires AlignedKeys(a.rows, b.rows, c.rows, d.rows) && UniqueKeys(a.rows, 0)
    ensures JoinChain(a, b, c, d, key).rows == KeptRows(a.rows, b.rows, c.rows, d.rows)
  {
    UniqueKeysAligned(a.rows, b.rows);
    UniqueKeysAligned(a.rows, c.rows);
    UniqueKeysAligned(a.rows, d.rows);
    JoinKeepsKey(a, b, key);
    JoinKeepsKey(Join(a, b, key), c, key);
    ChainAlignedFrom(a.rows, b.rows, c.rows, d.rows, 0);
    assert a.rows[0..] == a.rows && b.rows[0..] == b.rows && c.rows[0..] == c.rows && d.rows[0..] == d.rows;
  }

  /** `row` glues row `i` of `a`, `j` of `b`, `k` of `c` and `l` of `d`, all with the
      same non-null key cell. */
  predicate ChainMatchAt(a: seq<Row>, b: seq<Row>, c: seq<Row>, d: seq<Row>, row: Row, i: int, j: int, k: int, l: int) {
    && 0 <= i < |a| && 0 <= j < |b| && 0 <= k < |c| && 0 <= l < |d|
    && |a[i]| > 0 && |b[j]| > 0 && |c[k]| > 0 && |d[l]| > 0
    && a[i][0].Present? && b[j][0] == a[i][0] && c[k][0] == a[i][0] && d[l][0] == a[i][0]
    && row == a[i] + b[j][1..] + c[k][1..] + d[l][1..]
  }

  /** `row` glues a row of each of the four row sequences, all with the same non-null
      key cell. */
  predicate ChainMatch(a: seq<Row>, b: seq<Row>, c: seq<Row>, d: seq<Row>, row: Row) {
    exists i, j, k, l | 0 <= i < |a| && 0 <= j < |b| && 0 <= k < |c| && 0 <= l < |d| ::
      ChainMatchAt(a, b, c, d, row, i, j, k, l)
  }

  /** Every row of the chained join glues four rows with one non-null key. */
  lemma JoinChainSound(a: Table, b: Table, c: Table, d: Table, key: string, row: Row)
    requires ChainJoinable(a, b, c, d, key)
    requires row in JoinChain(a, b, c, d, key).rows
    ensures ChainMatch(a.rows, b.rows, c.rows, d.rows, row)
  {
    JoinThenJoinable(a, b, c, key);
    JoinKeepsDisjoint(a, b, d.columns, key);
    var ab := Join(a, b, key);
    JoinThenJoinable(ab, c, d, key);
    var abc := Join(ab, c, key);
    JoinSound(abc, d, key, row);
    var x, l :| 0 <= x < |abc.rows| && 0 <= l < |d.rows| && abc.rows[x][0].Present? && abc.rows[x][0] == d.rows[l][0]
      && row == abc.rows[x] + RemoveAt(d.rows[l], 0);
    JoinSound(ab, c, key, abc.rows[x]);
    var y, k :| 0 <= y < |ab.rows| && 0 <= k < |c.rows| && ab.rows[y][0].Present? && ab.rows[y][0] == c.rows[k][0]
      && abc.rows[x] == ab.rows[y] + RemoveAt(c.rows[k], 0);
    JoinSound(a, b, key, ab.rows[y]);
    var i, j :| 0 <= i < |a.rows| && 0 <= j < |b.rows| && a.rows[i][0].Present? && a.rows[i][0] == b.rows[j][0]
      && ab.rows[y] == a.rows[i] + RemoveAt(b.rows[j], 0);
    RemoveFirst(b.rows[j]);
    RemoveFirst(c.rows[k]);
    RemoveFirst(d.rows[l]);
    assert RowFits(a.rows[i], a.columns) && RowFits(b.rows[j], b.columns);
    assert RowFits(c.rows[k], c.columns) && RowFits(d.rows[l], d.columns);
    assert ChainMatchAt(a.rows, b.rows, c.rows, d.rows, row, i, j, k, l);
  }

  /** Four rows with one non-null key glue into a row of the chained join. */
  lemma JoinChainComplete(a: Table, b: Table, c: Table, d: Table, key: string, i: nat, j: nat, k: nat, l: nat)
    requires ChainJoinable(a, b, c, d, key)
    requires i < |a.rows| && j < |b.rows| && k < |c.rows| && l < |d.rows|
    requires |a.rows[i]| > 0 && |b.rows[j]| > 0 && |c.rows[k]| > 0 && |d.rows[l]| > 0
    requires a.rows[i][0].Present? && b.rows[j][0] == a.rows[i][0]
    requires c.rows[k][0] == a.rows[i][0] && d.rows[l][0] == a.rows[i][0]
    ensures a.rows[i] + b.rows[j][1..] + c.rows[k][1..] + d.rows[l][1..] in JoinChain(a, b, c, d, key).rows
  {
    JoinThenJoinable(a, b, c, key);
    JoinKeepsDisjoint(a, b, d.columns, key);
    var ab := Join(a, b, key);
    JoinThenJoinable(ab, c, d, key);
    var abc := Join(ab, c, key);
    RemoveFirst(b.rows[j]);
    RemoveFirst(c.rows[k]);
    RemoveFirst(d.rows[l]);
    JoinComplete(a, b, key, i, j);
    var y := a.rows[i] + b.rows[j][1..];
    var yi :| 0 <= yi < |ab.rows| && ab.rows[yi] == y;
    JoinComplete(ab, c, key, yi, k);
    var x := y + c.rows[k][1..];
    var xi :| 0 <= xi < |abc.rows| && abc.rows[xi] == x;
    JoinComplete(abc, d, key, xi, l);
  }

  /** Exactly the rows that glue four rows with one non-null key are in the chained
      join. */
  lemma JoinChainMembers(a: Table, b: Table, c: Table, d: Table, key: string, row: Row)
    requires ChainJoinable(a, b, c, d, key)
    ensures row in JoinChain(a, b, c, d, key).rows <==> ChainMatch(a.rows, b.rows, c.rows, d.rows, row)
  {
    if row in JoinChain(a, b, c, d, key).rows {
      JoinChainSound(a, b, c, d, key, row);
    }
    if ChainMatch(a.rows, b.rows, c.rows, d.rows, row) {
      var i, j, k, l :| ChainMatchAt(a.rows, b.rows, c.rows, d.rows, row, i, j, k, l);
      assert ChainMatchAt(a.rows, b.rows, c.rows, d.rows, row, i, j, k, l);
      assert 0 <= i;
      assert i < |a.rows|;
      JoinChainComplete(a, b, c, d, key, i, j, k, l);
    }
  }

  // ---------------------------------------------------------------------------
  // pl.concat(tables)

  /** The rows of the tables, one table after the other. */
  function AllRows(tables: seq<Table>): (rows: seq<Row>)
    ensures tables == [] ==> rows == []
  {
    if tables == [] then [] else tables[0].rows + AllRows(tables[1..])
  }

  /** `pl.concat(tables)`: fails on an empty list and on tables whose columns differ;
      otherwise the shared columns and every table's rows in list order. */
  function Concat(tables: seq<Table>): (r: Result<Table, Error>)
    ensures tables == [] <==> r == Err(EmptyConcat)
    ensures r.Ok? <==> tables != [] && forall i :: 0 <= i < |tables| ==> tables[i].columns == tables[0].columns
    ensures r.Ok? ==> r.value == Table(tables[0].columns, AllRows(tables))
  {
    if tables == [] then Err(EmptyConcat)
    else if forall i :: 0 <= i < |tables| ==> tables[i].columns == tables[0].columns then
      Ok(Table(tables[0].columns, AllRows(tables)))
    else Err(SchemaMismatch)
  }

  lemma {:induction false} AllRowsAppend(a: seq<Table>, b: seq<Table>)
    ensures AllRows(a + b) == AllRows(a) + AllRows(b)
  {
    if a == [] {
      assert a + b == b;
    } else {
      assert (a + b)[0] == a[0];
      assert (a + b)[1..] == a[1..] + b;
      AllRowsAppend(a[1..], b);
    }
  }

  /** Concatenating one table gives it back. */
  lemma ConcatSingle(t: Table)
    ensures Concat([t]) == Ok(t)
  {
    assert [t][1..] == [];
    assert AllRows([t]) == t.rows + AllRows([]);
    assert t.rows + [] == t.rows;
  }

  /** A row of the concatenation is a row of one of the tables, and every row of every
      table is in it. */
  lemma {:induction false} AllRowsMembers(tables: seq<Table>, row: Row)
    ensures row in AllRows(tables) <==> exists i :: 0 <= i < |tables| && row in tables[i].rows
  {
    if tables != [] {
      AllRowsMembers(tables[1..], row);
      if exists i :: 1 <= i < |tables| && row in tables[i].rows {
        var i :| 1 <= i < |tables| && row in tables[i].rows;
        assert tables[1..][i - 1] == tables[i];
      }
      if row in AllRows(tables[1..]) {
        var i :| 0 <= i < |tables[1..]| && row in tables[1..][i].rows;
        assert tables[1..][i] == tables[i + 1];
      }
    }
  }
}
