/**
 * `downloadCSV`: the export that walks the upstream page by page, from
 * offset 0 in steps of 10, and writes one CSV row per record after a header.
 */
module CsvExport {
  import opened Wrappers
  import opened GoLib
  import opened Envelope
  import opened Paging

  /** A CSV record as handed to `csv.Writer.Write`: its fields, unquoted. */
  type Row = seq<string>

  const Header: Row := ["Nama Instansi", "Formasi", "Jabatan", "Unit Kerja", "Jumlah Kebutuhan", "Gaji Min", "Gaji Max", "Link"]

  const DetailPrefix := "https://sscasn.bkn.go.id/detailformasi/"

  /** The export's row for one record. */
  function FormasiRow(f: Formasi): Row
  {
    [ f.insNm,
      TrimSpace(f.jpNama + " " + f.formasiNm),
      f.jabatanNm,
      f.lokasiNm,
      Itoa(f.jumlahFormasi),
      f.gajiMin,
      f.gajiMax,
      DetailPrefix + f.formasiId ]
  }

  /**
   * A row is as wide as the header; it carries the record's fields in the
   * header's order, the position as the trimmed join of the two name parts,
   * the headcount as decimal text that reads back as the headcount, and the
   * detail link from which the record's identifier is recovered.
   */
  lemma RowFields(f: Formasi)
    ensures var row := FormasiRow(f);
      |row| == |Header| == 8
      && row[0] == f.insNm && row[2] == f.jabatanNm && row[3] == f.lokasiNm
      && row[5] == f.gajiMin && row[6] == f.gajiMax
      && TrimmedFrom(f.jpNama + " " + f.formasiNm, row[1]) && NoOuterSpace(row[1])
      && Atoi(row[4]) == Some(f.jumlahFormasi)
      && |row[7]| >= |DetailPrefix| && row[7][..|DetailPrefix|] == DetailPrefix
      && row[7][|DetailPrefix|..] == f.formasiId
  {
    TrimSpaceSpec(f.jpNama + " " + f.formasiNm);
    AtoiItoa(f.jumlahFormasi);
  }

  /** With one of the two name parts empty, the position column is the other part, trimmed. */
  lemma PositionWithMissingPart(f: Formasi)
    ensures f.jpNama == "" ==> FormasiRow(f)[1] == TrimSpace(f.formasiNm)
    ensures f.formasiNm == "" ==> FormasiRow(f)[1] == TrimSpace(f.jpNama)
  {
    if f.jpNama == "" {
      assert f.jpNama + " " + f.formasiNm == " " + f.formasiNm;
      TrimSpaceLeadingSpace(f.formasiNm);
    }
    if f.formasiNm == "" {
      assert f.jpNama + " " + f.formasiNm == f.jpNama + " ";
      TrimSpaceTrailingSpace(f.jpNama);
    }
  }

  /** The rows of a page's records, in the records' order. */
  function Rows(fs: seq<Formasi>): (rows: seq<Row>)
    ensures |rows| == |fs|
  {
    seq(|fs|, i requires 0 <= i < |fs| => FormasiRow(fs[i]))
  }

  /** The i-th row is the i-th record's, so every row is as wide as the header. */
  lemma RowsAt(fs: seq<Formasi>, i: nat)
    requires i < |fs|
    ensures Rows(fs)[i] == FormasiRow(fs[i])
    ensures |Rows(fs)[i]| == |Header|
  {
  }

  /** Rows of consecutive pages are the rows of the pages, one after the other. */
  lemma RowsConcat(a: seq<Formasi>, b: seq<Formasi>)
    ensures Rows(a + b) == Rows(a) + Rows(b)
  {
    assert forall i | 0 <= i < |a + b| :: Rows(a + b)[i] == (Rows(a) + Rows(b))[i];
  }

  /** The upstream as the export sees it: `getData(offset, kode, "2")` for a fixed code. */
  type PageSource = int -> Result<ApiResponse, FetchError>

  /** What the export does from a given offset on: the records it writes, the error it stops on, and the offsets it fetches. */
  datatype Run = Run(records: seq<Formasi>, failure: Option<FetchError>, offsets: seq<int>)

  /**
   * The export loop from `offset` on. It stops on a fetch error, on an empty
   * page, or once the advanced offset reaches the total the page reported.
   * Totals are 64-bit, so the offset can only advance while below MaxInt64.
   */
  function ExportRun(src: PageSource, offset: nat): Run
    decreases MaxInt64 - offset
  {
    match src(offset)
    case Failure(e) => Run([], Some(e), [offset])
    case Success(resp) =>
      if |resp.data| == 0 then Run([], None, [offset])
      else
        var next := offset + PageSize;
        if next >= resp.metaTotal then Run(resp.data, None, [offset])
        else
          var rest := ExportRun(src, next);
          Run(resp.data + rest.records, rest.failure, [offset] + rest.offsets)
  }

  /** The records a fetch result contributes: its page on success, nothing on failure. */
  function PageRecords(r: Result<ApiResponse, FetchError>): seq<Formasi>
  {
    if r.Success? then r.value.data else []
  }

  /** The records of the pages fetched at `offsets`, concatenated in fetch order. */
  function FetchedRecords(src: PageSource, offsets: seq<int>): seq<Formasi>
    decreases |offsets|
  {
    if offsets == [] then [] else PageRecords(src(offsets[0])) + FetchedRecords(src, offsets[1..])
  }

  /** The loop asks for offset, offset + 10, offset + 20, …: at least one fetch, strictly increasing. */
  lemma {:induction false} ExportOffsets(src: PageSource, offset: nat)
    ensures var offs := ExportRun(src, offset).offsets;
      |offs| >= 1 && forall i :: 0 <= i < |offs| ==> offs[i] == offset + PageSize * i
    decreases MaxInt64 - offset
  {
    match src(offset)
    case Failure(_) =>
    case Success(resp) =>
      if |resp.data| > 0 && offset + PageSize < resp.metaTotal {
        ExportOffsets(src, offset + PageSize);
        var offs := ExportRun(src, offset).offsets;
        var rest := ExportRun(src, offset + PageSize).offsets;
        assert offs == [offset] + rest;
        forall i | 0 < i < |offs| ensures offs[i] == offset + PageSize * i {
          assert offs[i] == rest[i - 1];
        }
      }
  }

  /** The fetch at `o` returned a non-empty page whose reported total lies beyond the next offset: the loop goes on. */
  predicate Continues(src: PageSource, o: int)
  {
    src(o).Success? && |src(o).value.data| > 0 && o + PageSize < src(o).value.metaTotal
  }

  lemma {:induction false} ExportContinuesBeforeLast(src: PageSource, offset: nat)
    ensures forall i :: 0 <= i < |ExportRun(src, offset).offsets| - 1 ==> Continues(src, ExportRun(src, offset).offsets[i])
    decreases MaxInt64 - offset
  {
    if Continues(src, offset) {
      var rest := ExportRun(src, offset + PageSize);
      ExportContinuesBeforeLast(src, offset + PageSize);
      var offs := ExportRun(src, offset).offsets;
      assert offs == [offset] + rest.offsets;
      forall i | 0 < i < |offs| - 1
        ensures Continues(src, offs[i])
      {
        assert offs[i] == rest.offsets[i - 1];
      }
    } else {
      assert |ExportRun(src, offset).offsets| == 1;
    }
  }

  lemma {:induction false} ExportLastFetch(src: PageSource, offset: nat)
    ensures var run := ExportRun(src, offset);
      |run.offsets| >= 1
      && !Continues(src, run.offsets[|run.offsets| - 1])
      && (run.failure.Some? <==> src(run.offsets[|run.offsets| - 1]).Failure?)
      && (run.failure.Some? ==> run.failure == Some(src(run.offsets[|run.offsets| - 1]).error))
    decreases MaxInt64 - offset
  {
    if Continues(src, offset) {
      var rest := ExportRun(src, offset + PageSize);
      ExportLastFetch(src, offset + PageSize);
      var run := ExportRun(src, offset);
      assert run.offsets == [offset] + rest.offsets;
      assert run.offsets[|run.offsets| - 1] == rest.offsets[|rest.offsets| - 1];
      assert run.failure == rest.failure;
    } else {
      assert ExportRun(src, offset).offsets == [offset];
    }
  }

  /**
   * When the loop stops and when it goes on: every fetch but the last one
   * returned a non-empty page whose total lay beyond the next offset; the
   * last one failed, was empty, or reported a total the next offset reaches.
   * The export fails exactly when its last fetch failed, with that error.
   */
  lemma ExportStops(src: PageSource, offset: nat)
    ensures var run := ExportRun(src, offset);
      var offs := run.offsets;
      |offs| >= 1
      && (forall i :: 0 <= i < |offs| - 1 ==> Continues(src, offs[i]))
      && var last := offs[|offs| - 1];
      (src(last).Failure? || |src(last).value.data| == 0 || last + PageSize >= src(last).value.metaTotal)
      && (run.failure.Some? <==> src(last).Failure?)
      && (src(last).Failure? ==> run.failure == Some(src(last).error))
  {
    ExportContinuesBeforeLast(src, offset);
    ExportLastFetch(src, offset);
  }

  /**
   * The records written are those of the fetched pages in fetch order, each
   * page's records in their own order; an empty or failed page adds nothing.
   */
  lemma {:induction false} ExportRecordsInFetchOrder(src: PageSource, offset: nat)
    ensures ExportRun(src, offset).records == FetchedRecords(src, ExportRun(src, offset).offsets)
    decreases MaxInt64 - offset
  {
    var offs := ExportRun(src, offset).offsets;
    if Continues(src, offset) {
      ExportRecordsInFetchOrder(src, offset + PageSize);
      assert offs == [offset] + ExportRun(src, offset + PageSize).offsets;
      assert offs[1..] == ExportRun(src, offset + PageSize).offsets;
    } else {
      assert offs == [offset];
      assert FetchedRecords(src, offs) == PageRecords(src(offset)) + FetchedRecords(src, []);
    }
  }

  lemma {:induction false} FetchedRecordsSplit(src: PageSource, a: seq<int>, b: seq<int>)
    ensures FetchedRecords(src, a + b) == FetchedRecords(src, a) + FetchedRecords(src, b)
    decreases |a|
  {
    if a == [] {
      assert a + b == b;
    } else {
      assert (a + b)[1..] == a[1..] + b;
      FetchedRecordsSplit(src, a[1..], b);
    }
  }

  /** The total every successful fetch reports is T. */
  ghost predicate FixedTotal(src: PageSource, total: int)
  {
    forall o :: src(o).Success? ==> src(o).value.metaTotal == total
  }

  /** With a fixed total T the export fetches at most max(1, ⌈T/10⌉) pages. */
  lemma ExportFetchBound(src: PageSource, total: int64)
    requires FixedTotal(src, total)
    ensures |ExportRun(src, 0).offsets| <= if total <= 0 then 1 else CeilPages(total)
  {
    ExportOffsets(src, 0);
    ExportStops(src, 0);
    var offs := ExportRun(src, 0).offsets;
    var n := |offs|;
    if n >= 2 {
      assert offs[n - 2] == PageSize * (n - 2);
      assert Continues(src, offs[n - 2]);
      assert PageSize * (n - 1) < total;
      assert (n - 1) * PageSize < total <= CeilPages(total) * PageSize;
    }
  }

  /**
   * A fetch error ends the export at once: nothing is fetched after it, and
   * the records of the pages before it have already been written.
   */
  lemma ExportKeepsRecordsBeforeError(src: PageSource, offset: nat, k: nat)
    requires k < |ExportRun(src, offset).offsets|
    requires src(ExportRun(src, offset).offsets[k]).Failure?
    ensures k == |ExportRun(src, offset).offsets| - 1
    ensures ExportRun(src, offset).failure == Some(src(ExportRun(src, offset).offsets[k]).error)
    ensures ExportRun(src, offset).records == FetchedRecords(src, ExportRun(src, offset).offsets[..k])
  {
    var run := ExportRun(src, offset);
    FailedFetchIsLast(src, offset, k);
    ExportLastFetch(src, offset);
    ExportRecordsInFetchOrder(src, offset);
    FetchedRecordsFailedLast(src, run.offsets);
  }

  lemma FailedFetchIsLast(src: PageSource, offset: nat, k: nat)
    requires k < |ExportRun(src, offset).offsets|
    requires src(ExportRun(src, offset).offsets[k]).Failure?
    ensures k == |ExportRun(src, offset).offsets| - 1
  {
    ExportContinuesBeforeLast(src, offset);
    var offs := ExportRun(src, offset).offsets;
    assert !Continues(src, offs[k]);
  }

  /** A failed last fetch adds no records. */
  lemma FetchedRecordsFailedLast(src: PageSource, offsets: seq<int>)
    requires |offsets| >= 1 && src(offsets[|offsets| - 1]).Failure?
    ensures FetchedRecords(src, offsets) == FetchedRecords(src, offsets[..|offsets| - 1])
  {
    var k := |offsets| - 1;
    FetchedRecordsSplit(src, offsets[..k], [offsets[k]]);
    assert offsets == offsets[..k] + [offsets[k]];
    assert FetchedRecords(src, [offsets[k]]) == PageRecords(src(offsets[k])) + FetchedRecords(src, []);
  }

  /** A full first page followed by a failing second fetch: the export still writes the first page's records. */
  lemma PartialOutputOnError(src: PageSource)
    requires src(0).Success? && |src(0).value.data| > 0 && PageSize < src(0).value.metaTotal
    requires src(PageSize).Failure?
    ensures ExportRun(src, 0) == Run(src(0).value.data, Some(src(PageSize).error), [0, PageSize])
  {
    assert Continues(src, 0);
    assert ExportRun(src, PageSize) == Run([], Some(src(PageSize).error), [PageSize]);
  }

  // ---------------------------------------------------------------------------
  // An upstream that serves a fixed dataset faithfully

  function Min(a: int, b: int): int { if a < b then a else b }

  /** The envelope a faithful upstream holding `ds` returns for `offset`: that window of it and the true total. */
  function DatasetPage(ds: seq<Formasi>, offset: int): ApiResponse
    requires |ds| <= MaxInt64
  {
    var page := if 0 <= offset < |ds| then ds[offset..Min(offset + PageSize, |ds|)] else [];
    ApiResponse(200, false, "", |ds|, |page|, page)
  }

  function DatasetSource(ds: seq<Formasi>): PageSource
    requires |ds| <= MaxInt64
  {
    o => Success(DatasetPage(ds, o))
  }

  lemma {:induction false} ExportDatasetFrom(ds: seq<Formasi>, offset: nat)
    requires |ds| <= MaxInt64
    requires offset < |ds| || offset == 0
    ensures ExportRun(DatasetSource(ds), offset).records == ds[offset..]
    ensures ExportRun(DatasetSource(ds), offset).failure == None
    decreases MaxInt64 - offset
  {
    var src := DatasetSource(ds);
    var next := offset + PageSize;
    assert src(offset) == Success(DatasetPage(ds, offset));
    if offset < |ds| && next < |ds| {
      assert Continues(src, offset);
      ExportDatasetFrom(ds, next);
      assert ds[offset..] == ds[offset..next] + ds[next..];
    } else if offset < |ds| {
      assert ds[offset..Min(next, |ds|)] == ds[offset..];
    }
  }

  /**
   * Against an upstream that serves a dataset faithfully, the export writes
   * every record exactly once, in dataset order, never fails, and fetches
   * max(1, ⌈n/10⌉) pages.
   */
  lemma ExportWholeDataset(ds: seq<Formasi>)
    requires |ds| <= MaxInt64
    ensures ExportRun(DatasetSource(ds), 0).records == ds
    ensures ExportRun(DatasetSource(ds), 0).failure == None
    ensures |ExportRun(DatasetSource(ds), 0).offsets| == if ds == [] then 1 else CeilPages(|ds|)
  {
    ExportDatasetFrom(ds, 0);
    assert ds[0..] == ds;
    var src := DatasetSource(ds);
    ExportOffsets(src, 0);
    ExportStops(src, 0);
    var offs := ExportRun(src, 0).offsets;
    var n := |offs|;
    if ds != [] {
      assert FixedTotal(src, |ds|);
      ExportFetchBound(src, |ds|);
      var last := offs[n - 1];
      assert last == PageSize * (n - 1);
      assert last < |ds| by {
        if n >= 2 {
          assert Continues(src, offs[n - 2]);
        }
      }
      assert src(last) == Success(DatasetPage(ds, last));
      assert last + PageSize >= |ds|;
    }
  }

  /**
   * The `for _, f := range` of one page: one row per record, appended in
   * order to what the CSV writer already holds.
   */
  method WritePage(written: seq<Row>, page: seq<Formasi>) returns (out: seq<Row>)
    ensures out == written + Rows(page)
  {
    out := written;
    var i := 0;
    while i < |page|
      invariant 0 <= i <= |page|
      invariant out == written + Rows(page[..i])
    {
      RowsConcat(page[..i], [page[i]]);
      assert page[..i + 1] == page[..i] + [page[i]];
      out := out + [FormasiRow(page[i])];
      i := i + 1;
    }
    assert page[..i] == page;
  }

  /** The loop's bookkeeping: what is done so far, followed by what the loop does from here on. */
  function Resume(done: seq<Formasi>, fetched: seq<int>, rest: Run): Run
  {
    Run(done + rest.records, rest.failure, fetched + rest.offsets)
  }

  lemma ResumeStep(done: seq<Formasi>, fetched: seq<int>, page: seq<Formasi>, offset: int, rest: Run)
    ensures Resume(done, fetched, Run(page + rest.records, rest.failure, [offset] + rest.offsets))
         == Resume(done + page, fetched + [offset], rest)
  {
    assert done + (page + rest.records) == (done + page) + rest.records;
    assert fetched + ([offset] + rest.offsets) == (fetched + [offset]) + rest.offsets;
  }

  lemma OutputGrows(head: Row, written: seq<Row>, done: seq<Formasi>, page: seq<Formasi>)
    requires written == [head] + Rows(done)
    ensures written + Rows(page) == [head] + Rows(done + page)
  {
    RowsConcat(done, page);
  }

  /**
   * `downloadCSV` after the response headers: the header row, then the loop.
   * The CSV writer is the append-only sequence `out`; the method returns what
   * it holds when it is flushed, the error the loop stopped on, if any, and
   * (as a ghost) the offsets it fetched. That log is appended by hand beside
   * the one call `src(offset)`; nothing else ties it to the calls, so the
   * `offsets` promise depends on that call site appending its offset.
   */
  method DownloadCsv(src: PageSource) returns (rows: seq<Row>, failure: Option<FetchError>, ghost offsets: seq<int>)
    ensures rows == [Header] + Rows(ExportRun(src, 0).records)
    ensures failure == ExportRun(src, 0).failure
    ensures offsets == ExportRun(src, 0).offsets
  {
    ghost var run := ExportRun(src, 0);
    ghost var done: seq<Formasi> := [];
    var out: seq<Row> := [Header];
    var offset: nat := 0;
    offsets := [];
    assert Resume(done, offsets, run) == run;
    while true
      invariant offset <= MaxInt64
      invariant out == [Header] + Rows(done)
      invariant Resume(done, offsets, ExportRun(src, offset)) == run
      decreases MaxInt64 - offset
    {
      var dataResp := src(offset);
      ghost var here := ExportRun(src, offset);
      if dataResp.Failure? {
        assert here == Run([], Some(dataResp.error), [offset]);
        offsets := offsets + [offset];
        rows, failure := out, Some(dataResp.error);
        return;
      }
      var page := dataResp.value.data;
      if |page| == 0 {
        assert here == Run([], None, [offset]);
        offsets := offsets + [offset];
        break;
      }
      OutputGrows(Header, out, done, page);
      out := WritePage(out, page);
      offset := offset + PageSize;
      if offset >= dataResp.value.metaTotal {
        assert here == Run(page, None, [offset - PageSize]);
        done, offsets := done + page, offsets + [offset - PageSize];
        break;
      }
      ResumeStep(done, offsets, page, offset - PageSize, ExportRun(src, offset));
      done, offsets := done + page, offsets + [offset - PageSize];
    }
    rows, failure := out, None;
  }
}
