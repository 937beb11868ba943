/**
 * `ScrapeHandler`: reading the request, the order of its checks, and the
 * two things it then does, the single-page view and the CSV export.
 */
module Scrape {
  import opened Wrappers
  import opened GoLib
  import opened Envelope
  import opened Paging
  import opened CsvExport

  const StatusBadRequest: int := 400
  const StatusMethodNotAllowed: int := 405
  const StatusInternalServerError: int := 500

  const KodeKey := "kodePendidikan"
  const PageKey := "page"
  const DownloadKey := "download"

  /** The `pengadaan_kd` every upstream request of the handler carries. */
  const PengadaanKd := "2"

  const MethodNotAllowedText := "Method not allowed"
  const MissingKodeText := "Kode Pendidikan wajib diisi"
  const ViewErrorPrefix := "Gagal mengambil data: "
  const CsvErrorPrefix := "Gagal mengambil data untuk CSV: "

  /**
   * An incoming request: its method (`verb`), the values `FormValue` sees (the posted
   * form fields, taking precedence over the URL query) and the URL query.
   */
  datatype Request = Request(verb: string, form: map<string, string>, query: map<string, string>)

  /** `FormValue` and `Query().Get`: the value for a key, or "" when there is none. */
  function Lookup(values: map<string, string>, key: string): string
  {
    if key in values then values[key] else ""
  }

  /** What the handler decides to do before it fetches anything. */
  datatype Action =
    | Reject(status: int, message: string)
    | Export(kode: string)
    | View(kode: string, page: int64)

  /** After the method has been read: the missing-code check, then the export flag. */
  function Decide(kode: string, page: int64, isDownload: bool): Action
  {
    if kode == "" then Reject(StatusBadRequest, MissingKodeText)
    else if isDownload then Export(kode)
    else View(kode, page)
  }

  /**
   * The handler's reading of the request: a POST takes the code and page
   * from the form, a GET takes the code and the download flag from the query,
   * anything else is refused.
   */
  function Dispatch(req: Request): (a: Action)
    ensures a.Reject? ==> a.status == StatusMethodNotAllowed || a.status == StatusBadRequest
    ensures (a.Reject? && a.status == StatusMethodNotAllowed) <==> req.verb != "GET" && req.verb != "POST"
    ensures (a.Reject? && a.status == StatusBadRequest) <==>
              (req.verb == "POST" && Lookup(req.form, KodeKey) == "")
              || (req.verb == "GET" && Lookup(req.query, KodeKey) == "")
    ensures a.Export? <==>
              req.verb == "GET" && Lookup(req.query, DownloadKey) == "csv" && Lookup(req.query, KodeKey) != ""
    ensures a.Export? ==> a.kode == Lookup(req.query, KodeKey)
    ensures a.View? ==> a.kode != "" && a.page >= 1
    ensures a.View? && req.verb == "POST" ==>
              a.kode == Lookup(req.form, KodeKey) && a.page == ParsePage(Lookup(req.form, PageKey))
    ensures a.View? && req.verb == "GET" ==> a.kode == Lookup(req.query, KodeKey) && a.page == 1
  {
    if req.verb == "POST" then
      Decide(Lookup(req.form, KodeKey), ParsePage(Lookup(req.form, PageKey)), false)
    else if req.verb == "GET" then
      Decide(Lookup(req.query, KodeKey), 1, Lookup(req.query, DownloadKey) == "csv")
    else
      Reject(StatusMethodNotAllowed, MethodNotAllowedText)
  }

  /** A posted form never starts the export, whatever fields it carries. */
  lemma PostNeverExports(form: map<string, string>, query: map<string, string>)
    ensures !Dispatch(Request("POST", form, query)).Export?
  {
  }

  /** What the handler writes back. */
  datatype Response =
    | Failed(status: int, body: string)
    | PageView(kode: string, records: seq<Formasi>, page: int64, totalPages: int64, nav: Nav)
    | CsvFile(rows: seq<Row>, error: Option<string>)

  /** `http.Error`: the status and the message followed by a newline. */
  function HttpError(status: int, message: string): Response
  {
    Failed(status, message + "\n")
  }

  /** The export as seen by `downloadCSV`: getData for the given code. */
  function Source(upstream: Upstream, kode: string): PageSource
  {
    o => GetData(upstream, o, kode, PengadaanKd)
  }

  /** The single-page view's response for the result of its one fetch. */
  function RenderView(kode: string, page: int64, fetched: Result<ApiResponse, FetchError>): Response
    requires page >= 1
  {
    match fetched
    case Failure(e) => HttpError(StatusInternalServerError, ViewErrorPrefix + e.Message())
    case Success(resp) =>
      var totalPages := TotalPages(resp.metaTotal);
      PageView(kode, resp.data, page, totalPages, Navigation(page, totalPages))
  }

  /**
   * The export's response: the rows the writer holds, and the error text, if
   * any. Both reach the client; their relative order is not modelled, since
   * the writer buffers rows while the error text goes straight out.
   */
  function CsvResponse(rows: seq<Row>, failure: Option<FetchError>): Response
  {
    CsvFile(rows, if failure.Some? then Some(CsvErrorPrefix + failure.value.Message() + "\n") else None)
  }

  /**
   * `ScrapeHandler`. Returns the response and, as a ghost, the offsets it
   * asked the upstream for: none for a refused request, one for the view,
   * those of the export loop for a download. The log is kept by hand: each
   * call to the upstream appends its offset beside it, so the promises about
   * `fetched` hold only as long as every call site does so.
   */
  method ScrapeHandler(req: Request, upstream: Upstream) returns (resp: Response, ghost fetched: seq<int>)
    ensures Dispatch(req).Reject? ==> resp == HttpError(Dispatch(req).status, Dispatch(req).message)
    ensures Dispatch(req).View? ==>
              resp == RenderView(Dispatch(req).kode, Dispatch(req).page,
                                 GetData(upstream, PageOffset(Dispatch(req).page), Dispatch(req).kode, PengadaanKd))
    ensures Dispatch(req).Export? ==>
              var run := ExportRun(Source(upstream, Dispatch(req).kode), 0);
              resp == CsvResponse([Header] + Rows(run.records), run.failure)
    ensures Dispatch(req).Reject? ==> fetched == []
    ensures Dispatch(req).View? ==> fetched == [PageOffset(Dispatch(req).page)]
    ensures Dispatch(req).Export? ==> fetched == ExportRun(Source(upstream, Dispatch(req).kode), 0).offsets
  {
    var action := Dispatch(req);
    match action
    case Reject(status, message) =>
      resp, fetched := HttpError(status, message), [];
    case Export(kode) =>
      var rows, failure, offsets := DownloadCsv(Source(upstream, kode));
      resp, fetched := CsvResponse(rows, failure), offsets;
    case View(kode, page) =>
      var offset := PageOffset(page);
      var dataResp := GetData(upstream, offset, kode, PengadaanKd);
      resp, fetched := RenderView(kode, page, dataResp), [offset];
  }

  /**
   * The Next button posts the code and `page + 1`; the handler reads that
   * back as a view of the next page, ten records further on.
   */
  lemma NextButtonRoundTrip(kode: string, page: int64, totalPages: int64, query: map<string, string>)
    requires kode != "" && page >= 1
    requires Navigation(page, totalPages).next.Some?
    ensures var next := Navigation(page, totalPages).next.value;
      Dispatch(Request("POST", map[KodeKey := kode, PageKey := Itoa(next)], query)) == View(kode, next)
      && PageOffset(next) == PageOffset(page) + PageSize
  {
    var next := Navigation(page, totalPages).next.value;
    ParsePageItoa(next);
  }

  /** The Previous button likewise leads to the view of the page before, ten records back. */
  lemma PrevButtonRoundTrip(kode: string, page: int64, totalPages: int64, query: map<string, string>)
    requires kode != "" && page >= 1
    requires Navigation(page, totalPages).prev.Some?
    ensures var prev := Navigation(page, totalPages).prev.value;
      Dispatch(Request("POST", map[KodeKey := kode, PageKey := Itoa(prev)], query)) == View(kode, prev)
      && PageOffset(prev) == PageOffset(page) - PageSize
  {
    var prev := Navigation(page, totalPages).prev.value;
    ParsePageItoa(prev);
  }

  /** The view's Download CSV link is a GET that the handler answers with the export for the same code. */
  lemma DownloadLinkExports(kode: string, form: map<string, string>)
    requires kode != ""
    ensures Dispatch(Request("GET", form, map[KodeKey := kode, DownloadKey := "csv"])) == Export(kode)
  {
  }

  /** The export's i-th fetch asks for the same window of records as the view of page i + 1. */
  lemma ExportVisitsViewWindows(upstream: Upstream, kode: string, i: nat)
    requires i < |ExportRun(Source(upstream, kode), 0).offsets|
    ensures ExportRun(Source(upstream, kode), 0).offsets[i] == PageOffset(i + 1)
  {
    ExportOffsets(Source(upstream, kode), 0);
  }

  /** An upstream error flag on the view's fetch becomes a 500 whose text carries the upstream's message. */
  lemma ViewReportsUpstreamError(kode: string, page: int64, message: string)
    requires page >= 1
    ensures RenderView(kode, page, Failure(UpstreamRejected(message)))
         == Failed(StatusInternalServerError, ViewErrorPrefix + ApiErrorPrefix + message + "\n")
  {
  }
}
