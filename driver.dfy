/** `main(outdir, modality, max_pages)`: requests pages 1 to max_pages - 1 one after the
    other, keeps the table of every page that succeeds, logs the error of every page
    that fails, and concatenates the kept tables into the table it writes. */
module Driver {
  import opened Wrappers
  import opened Frames
  import opened Iqms

  /** The page size `main` asks for. */
  const MaxResults: int := 50

  /** The pages `lo`, `lo + 1`, ..., `hi - 1`, in order. */
  function PageRange(lo: int, hi: int): (r: seq<int>)
    ensures |r| == if lo < hi then hi - lo else 0
    ensures forall i :: 0 <= i < |r| ==> r[i] == lo + i
    decreases hi - lo
  {
    if lo < hi then [lo] + PageRange(lo + 1, hi) else []
  }

  /** One more step of the loop adds the next page at the end. */
  lemma PageRangeSnoc(lo: int, hi: int)
    requires lo <= hi
    ensures PageRange(lo, hi + 1) == PageRange(lo, hi) + [hi]
  {
    var a, b := PageRange(lo, hi + 1), PageRange(lo, hi) + [hi];
    assert forall i :: 0 <= i < |a| ==> a[i] == b[i];
  }

  /** The loop has requested every page once it stops. */
  lemma PageRangeEmpty(lo: int, page: int, hi: int)
    requires lo <= page <= (if lo <= hi then hi else lo) && !(page < hi)
    ensures PageRange(lo, page) == PageRange(lo, hi)
  {
  }

  /** A page request: the table of a page number, or the error it raises. */
  type PageFetch = int -> Result<Table, Error>

  /** `get_iqms(modality, page=page, max_results=50)`, as `main` calls it. */
  function GetPage(modality: string, fetch: Fetch, coerce: Coercion): (get: PageFetch)
    ensures forall page :: get(page) == GetIqms(modality, page, MaxResults, fetch, coerce)
  {
    page => GetIqms(modality, page, MaxResults, fetch, coerce)
  }

  /** What `get` gives for each of the pages, in order. */
  function Outcomes(get: PageFetch, pages: seq<int>): (rs: seq<Result<Table, Error>>)
    ensures |rs| == |pages|
    ensures forall i :: 0 <= i < |pages| ==> rs[i] == get(pages[i])
  {
    seq(|pages|, i requires 0 <= i < |pages| => get(pages[i]))
  }

  /** The tables of the outcomes that succeed, in order. */
  function Successes(rs: seq<Result<Table, Error>>): (ts: seq<Table>)
    ensures |ts| <= |rs|
  {
    if rs == [] then [] else (if rs[0].Ok? then [rs[0].value] else []) + Successes(rs[1..])
  }

  /** The errors of the outcomes that fail, in order. */
  function Failures(rs: seq<Result<Table, Error>>): (es: seq<Error>)
    ensures |es| <= |rs|
  {
    if rs == [] then [] else (if rs[0].Err? then [rs[0].error] else []) + Failures(rs[1..])
  }

  /** One more page adds its outcome at the end. */
  lemma OutcomesSnoc(get: PageFetch, pages: seq<int>, page: int)
    ensures Outcomes(get, pages + [page]) == Outcomes(get, pages) + [get(page)]
  {
    var a, b := Outcomes(get, pages + [page]), Outcomes(get, pages) + [get(page)];
    assert forall i :: 0 <= i < |a| ==> a[i] == b[i] by {
      forall i | 0 <= i < |a| ensures a[i] == b[i] {
        assert (pages + [page])[i] == if i < |pages| then pages[i] else page;
      }
    }
  }

  /** An outcome appended at the end adds its table to the successes when it succeeds
      and nothing otherwise. */
  lemma {:induction false} SuccessesSnoc(rs: seq<Result<Table, Error>>, r: Result<Table, Error>)
    ensures Successes(rs + [r]) == Successes(rs) + (if r.Ok? then [r.value] else [])
  {
    if rs == [] {
      assert [r][1..] == [];
    } else {
      assert (rs + [r])[0] == rs[0];
      assert (rs + [r])[1..] == rs[1..] + [r];
      SuccessesSnoc(rs[1..], r);
    }
  }

  /** An outcome appended at the end adds its error to the log when it fails and nothing
      otherwise. */
  lemma {:induction false} FailuresSnoc(rs: seq<Result<Table, Error>>, r: Result<Table, Error>)
    ensures Failures(rs + [r]) == Failures(rs) + (if r.Err? then [r.error] else [])
  {
    if rs == [] {
      assert [r][1..] == [];
    } else {
      assert (rs + [r])[0] == rs[0];
      assert (rs + [r])[1..] == rs[1..] + [r];
      FailuresSnoc(rs[1..], r);
    }
  }

  /** Every outcome is either kept or logged, never both. */
  lemma {:induction false} EveryPageAccounted(rs: seq<Result<Table, Error>>)
    ensures |Successes(rs)| + |Failures(rs)| == |rs|
  {
    if rs != [] {
      EveryPageAccounted(rs[1..]);
    }
  }

  /** No table is kept exactly when every outcome is an error. */
  lemma {:induction false} NoSuccesses(rs: seq<Result<Table, Error>>)
    ensures Successes(rs) == [] <==> forall i :: 0 <= i < |rs| ==> rs[i].Err?
  {
    if rs != [] {
      NoSuccesses(rs[1..]);
      assert forall i :: 1 <= i < |rs| ==> rs[i] == rs[1..][i - 1];
    }
  }

  /** The kept tables are the tables of the successful outcomes: each comes from one, and
      each successful outcome gives one. */
  lemma {:induction false} SuccessesMembers(rs: seq<Result<Table, Error>>, t: Table)
    ensures t in Successes(rs) <==> Ok(t) in rs
  {
    if rs != [] {
      SuccessesMembers(rs[1..], t);
      assert rs == [rs[0]] + rs[1..];
    }
  }

  /** A row is in the kept tables exactly when it is in the table of a successful
      outcome. */
  lemma SuccessRows(rs: seq<Result<Table, Error>>, row: Row)
    ensures row in AllRows(Successes(rs)) <==> exists t :: Ok(t) in rs && row in t.rows
  {
    var ts := Successes(rs);
    AllRowsMembers(ts, row);
    if row in AllRows(ts) {
      var i :| 0 <= i < |ts| && row in ts[i].rows;
      SuccessesMembers(rs, ts[i]);
    }
    if exists t :: Ok(t) in rs && row in t.rows {
      var t :| Ok(t) in rs && row in t.rows;
      SuccessesMembers(rs, t);
      var i :| 0 <= i < |ts| && ts[i] == t;
    }
  }

  /** Every table `get_iqms` returns for a modality has the joined columns of that
      modality, so the tables `main` keeps all agree. */
  lemma SuccessesColumns(modality: string, pages: seq<int>, fetch: Fetch, coerce: Coercion)
    ensures forall t :: t in Successes(Outcomes(GetPage(modality, fetch, coerce), pages)) ==>
      t.columns == JoinedColumns(LayoutFor(modality)) && WellFormed(t)
  {
    var rs := Outcomes(GetPage(modality, fetch, coerce), pages);
    forall t | t in Successes(rs) ensures t.columns == JoinedColumns(LayoutFor(modality)) && WellFormed(t) {
      SuccessesMembers(rs, t);
      var i :| 0 <= i < |rs| && rs[i] == Ok(t);
    }
  }

  /** What `main` writes: `pl.concat` raises when no page succeeded, and otherwise gives
      the joined columns of the modality and the rows of every successful page in page
      order; it never meets tables with different columns. */
  lemma WrittenTable(modality: string, pages: seq<int>, fetch: Fetch, coerce: Coercion)
    ensures var ts := Successes(Outcomes(GetPage(modality, fetch, coerce), pages));
      && (ts == [] ==> Concat(ts) == Err(EmptyConcat))
      && (ts != [] ==> Concat(ts) == Ok(Table(JoinedColumns(LayoutFor(modality)), AllRows(ts))))
  {
    SuccessesColumns(modality, pages, fetch, coerce);
  }

  /** What one turn of the paging loop adds: the page to the requested ones, its outcome
      to the outcomes, then its table to the kept ones or its error to the log. */
  lemma CollectStep(get: PageFetch, requested: seq<int>, page: int)
    requires 1 <= page && requested == PageRange(1, page)
    ensures PageRange(1, page + 1) == requested + [page]
    ensures Outcomes(get, requested + [page]) == Outcomes(get, requested) + [get(page)]
    ensures Successes(Outcomes(get, requested) + [get(page)])
      == Successes(Outcomes(get, requested)) + (if get(page).Ok? then [get(page).value] else [])
    ensures Failures(Outcomes(get, requested) + [get(page)])
      == Failures(Outcomes(get, requested)) + (if get(page).Err? then [get(page).error] else [])
  {
    OutcomesSnoc(get, requested, page);
    SuccessesSnoc(Outcomes(get, requested), get(page));
    FailuresSnoc(Outcomes(get, requested), get(page));
    PageRangeSnoc(1, page);
  }

  /** The paging loop of `main`, for any page request: requests pages 1 to
      `maxPages - 1` in order (its `page=` lines), keeps the table of each page that
      succeeds and logs the error of each page that fails. */
  method Collect(get: PageFetch, maxPages: int) returns (requested: seq<int>, ds: seq<Table>, logged: seq<Error>)
    ensures requested == PageRange(1, maxPages)
    ensures ds == Successes(Outcomes(get, requested))
    ensures logged == Failures(Outcomes(get, requested))
  {
    var page := 1;
    ghost var outcomes: seq<Result<Table, Error>> := [];
    requested, ds, logged := [], [], [];
    while page < maxPages
      invariant 1 <= page <= (if 1 <= maxPages then maxPages else 1)
      invariant requested == PageRange(1, page)
      invariant outcomes == Outcomes(get, requested)
      invariant ds == Successes(outcomes) && logged == Failures(outcomes)
      decreases maxPages - page
    {
      var d := get(page);
      CollectStep(get, requested, page);
      match d {
        case Ok(t) => ds := ds + [t];
        case Err(e) => logged := logged + [e];
      }
      outcomes := outcomes + [d];
      requested := requested + [page];
      page := page + 1;
    }
    PageRangeEmpty(1, page, maxPages);
  }

  /** `main(outdir, modality, max_pages)`: the pages it requests, the errors it logs and
      the result of `pl.concat(ds)` it writes (an error when no page succeeded). */
  method Run(modality: string, maxPages: int, fetch: Fetch, coerce: Coercion)
    returns (requested: seq<int>, logged: seq<Error>, written: Result<Table, Error>)
    ensures requested == PageRange(1, maxPages)
    ensures logged == Failures(Outcomes(GetPage(modality, fetch, coerce), requested))
    ensures written == Concat(Successes(Outcomes(GetPage(modality, fetch, coerce), requested)))
  {
    var ds;
    requested, ds, logged := Collect(GetPage(modality, fetch, coerce), maxPages);
    written := Concat(ds);
  }

  /** With `max_pages` = 2 only page 1 is requested. */
  lemma TwoPagesRequestOne()
    ensures PageRange(1, 2) == [1]
  {
  }
}
