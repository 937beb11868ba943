# scrape-asn in Dafny

A model of `api/scrape.go`, a small Go web handler. It browses the public
vacancy listing of the Indonesian civil-service recruitment portal
(`api-sscasn.bkn.go.id`) for one education code, ten records per page, and
it can also export every page of that listing as a CSV file. The project
models the following:

- **GoLib** (`go_lib.dfy`): the Go pieces the handler relies on. These are
  64-bit `int` arithmetic with wrap-around and truncating division,
  `strconv.Atoi`, `strconv.Itoa` / `%d`, `unicode.IsSpace` and
  `strings.TrimSpace`.
- **Envelope** (`envelope.dfy`): `getData`. This covers the request URL, the
  decoded response envelope `ApiResponse` with its `Formasi` records, and the
  classification of each outcome. An outcome is a transport error, a decode
  error that carries the raw body, an upstream error flag, or the envelope
  itself. The upstream is a function from the request URL to what the round
  trip yields.
- **Paging** (`paging.dfy`): the arithmetic of the single-page view. This is
  reading the `page` value, the offset `(page - 1) * 10`, the page count
  `(total + 9) / 10`, and the Previous/Next buttons.
- **CsvExport** (`csv_export.dfy`): `downloadCSV`. This covers the row built
  for a record, the export loop as a recursive specification `ExportRun`,
  and an imperative `DownloadCsv` method. The method keeps the Go loop's
  statement order and is proved equal to that specification.
- **Scrape** (`scrape.dfy`): `ScrapeHandler`. This covers the request reading
  and the order of its checks (405, then 400, then export or view), the view
  and errors it answers with, and round trips through the links and buttons
  of the page it renders.

Go's `int` is taken to be 64 bits wide. Behaviour of the code that the
model keeps:

- The export fetches pages one after another, each after the previous one
  has returned.
- It stops on an empty page, or once the advanced offset reaches the total
  reported by the page just fetched.
- On a fetch error the rows already given to the CSV writer stay in the
  response, and so does the error text. Their relative order is not modelled
  (see "## Left out").
- The CSV has 8 columns with Indonesian headers.
- The form and query key for the education code is `kodePendidikan`.
- A GET request always shows page 1. Only a POST reads `page`.

## Model

| member | source | states |
|---|---|---|
| GoLib.Atoi | api/scrape.go:133 | Succeeds exactly for an optional sign followed by decimal digits whose value fits in 64 bits, and yields that value. |
| GoLib.Itoa | api/scrape.go:272 | The decimal text of n starts with a digit or '-' and parses back to n. |
| GoLib.AtoiItoa | api/scrape.go:272 | `Atoi(Itoa(n)) == Some(n)` for every 64-bit n, so the headcount column reads back as the headcount. |
| GoLib.ItoaInjective | api/scrape.go:44 | Different integers have different decimal texts. |
| GoLib.TrimSpace | api/scrape.go:269 | No contract of its own. TrimSpaceSpec, TrimSpaceIdempotent, TrimSpaceOfTrimmed, TrimSpaceLeadingSpace and TrimSpaceTrailingSpace state its behaviour. |
| GoLib.TrimSpaceSpec | api/scrape.go:269 | TrimSpace yields a contiguous slice of its input with only white space (as `unicode.IsSpace` defines it) on either side, and neither end of the result is white space. |
| GoLib.TrimSpaceIdempotent | api/scrape.go:269 | Trimming twice is trimming once. |
| GoLib.TrimSpaceOfTrimmed | api/scrape.go:269 | Text with no outer white space is left unchanged. |
| GoLib.TrimSpaceLeadingSpace | api/scrape.go:269 | A single leading space is always removed: `TrimSpace(" " + s) == TrimSpace(s)`. |
| GoLib.TrimSpaceTrailingSpace | api/scrape.go:269 | Likewise for a single trailing space. |
| Envelope.RequestUrl | api/scrape.go:44 | No contract of its own. RequestUrlInjective states that the offset text determines the offset. |
| Envelope.RequestUrlInjective | api/scrape.go:44 | For fixed codes, two offsets give the same request URL only if they are equal. |
| Envelope.FetchError.Message | api/scrape.go:93-97 | No contract of its own. DecodeErrorKeepsBody and UpstreamMessageRecovered state the texts of the decode and upstream errors. |
| Envelope.Classify | api/scrape.go:90-100 | The outcome is a success iff the body decoded and the error flag is clear, and then it is the envelope unchanged. A decode failure takes precedence and carries the decoder's cause and the raw body. A set error flag yields an upstream rejection with the upstream's message. |
| Envelope.GetData | api/scrape.go:43-101 | A failed round trip yields the transport error's own text. The call succeeds iff the body was received, decoded and its error flag is clear, and then yields the envelope unchanged. A received body that does not decode gives the decode error with that body. A set error flag gives the upstream rejection with its message. |
| Envelope.DecodeErrorKeepsBody | api/scrape.go:93 | The decode error's text starts with "gagal decode JSON: " and the cause, and ends with the complete raw body. |
| Envelope.UpstreamMessageRecovered | api/scrape.go:97 | The upstream error's text is "API error: " followed by exactly the upstream's message. |
| Envelope.ErrorFlagFails | api/scrape.go:96-97 | An envelope whose error flag is set fails the call whatever else it holds, and the error text is "API error: " + message. |
| Paging.ParsePage | api/scrape.go:126-136 | The page is always at least 1. A positive value read by Atoi is the page, and any page other than 1 is exactly what Atoi read from the form value. |
| Paging.ParsePageItoa | api/scrape.go:133-134 | A positive page written in decimal (as the buttons post it) is read back as that page. |
| Paging.ParsePageDefault | api/scrape.go:132-135 | An empty, malformed, out-of-range, zero or negative page value gives page 1. |
| Paging.PageOffset | api/scrape.go:160 | The view's offset is a non-negative multiple of 10, and offset / 10 == page - 1. |
| Paging.GoPageOffset | api/scrape.go:160 | The offset as written, in 64-bit arithmetic. No contract of its own. GoPageOffsetExact and GoPageOffsetWraps state where it is exact and where it wraps. |
| Paging.GoPageOffsetExact | api/scrape.go:160 | The 64-bit computation equals the exact offset for every page up to 922337203685477581. |
| Paging.GoPageOffsetWraps | api/scrape.go:160 | For page 922337203685477582 the 64-bit computation is negative, while the exact offset exceeds the 64-bit range. |
| Paging.CeilPages | api/scrape.go:168 | The reference page count: the least number of 10-record pages that holds the total. |
| Paging.TotalPages | api/scrape.go:168 | The page count as written, in 64-bit arithmetic with truncating division. No contract of its own. TotalPagesIsCeiling, TotalPagesWraps and TotalPagesNotPositive state its behaviour. |
| Paging.TotalPagesIsCeiling | api/scrape.go:167-168 | For every total from 0 to MaxInt64 - 9, `(total + 9) / 10` in 64-bit arithmetic is the ceiling of total / 10. It is 0 exactly when the total is 0. |
| Paging.TotalPagesWraps | api/scrape.go:168 | For a reported total of MaxInt64, `total + 9` wraps in 64-bit arithmetic and the page count is negative, while the exact ceiling is positive. |
| Paging.TotalPagesNotPositive | api/scrape.go:168 | A total that is not positive gives no pages. For totals from -18 to 0 the count is exactly 0, as Go's division truncates toward zero. |
| Paging.Navigation | api/scrape.go:211-237 | Previous is shown iff page > 1 and posts page - 1 ≥ 1. Next is shown iff page < totalPages and posts page + 1 ≤ totalPages. |
| Paging.NavigationStaysInRange | api/scrape.go:211-237 | From a page in range, both buttons lead to pages in range, and each is undone by the other. |
| Paging.NavigationEnds | api/scrape.go:211-225 | Page 1 has no Previous button. The last page has no Next button. With no records there are no buttons. |
| CsvExport.RowFields | api/scrape.go:266-276 | A row has 8 fields, as many as the header, in the header's order. The position field is the trimmed join of `JpNama` and `FormasiNm`, with no outer white space. The headcount field reads back as the headcount. The link is the detail prefix followed by the record's identifier, which it recovers. |
| CsvExport.FormasiRow | api/scrape.go:267-276 | The row for one record. No contract of its own. RowFields and PositionWithMissingPart state its fields. |
| CsvExport.PositionWithMissingPart | api/scrape.go:269 | When one of the two name parts is empty, the position field is the other part, trimmed. |
| CsvExport.Rows | api/scrape.go:266-278 | One row per record. |
| CsvExport.RowsAt | api/scrape.go:266-278 | The i-th row is the i-th record's, and it is as wide as the header. |
| CsvExport.RowsConcat | api/scrape.go:266-278 | The rows of two pages in sequence are the rows of each page, in sequence. |
| CsvExport.ExportRun | api/scrape.go:255-284 | The export loop as a recursive specification. No contract of its own. ExportOffsets, ExportStops, ExportRecordsInFetchOrder, ExportFetchBound, ExportKeepsRecordsBeforeError and ExportWholeDataset state its behaviour, and DownloadCsv is proved equal to it. |
| CsvExport.ExportOffsets | api/scrape.go:252-280 | The export fetches at least once, starting at offset 0 and going up by 10. The i-th fetch is at 10·i, so the offsets strictly increase. |
| CsvExport.ExportContinuesBeforeLast | api/scrape.go:255-284 | Every fetch except the last returned a non-empty page whose reported total lies beyond the next offset. |
| CsvExport.ExportLastFetch | api/scrape.go:255-284 | The last fetch does not continue. The export fails iff the last fetch failed, and then with that error. |
| CsvExport.ExportStops | api/scrape.go:255-284 | The loop goes on exactly while pages are non-empty and the advanced offset stays below the reported total. It stops on the first error, on an empty page, or when the advanced offset reaches the total. |
| CsvExport.ExportRecordsInFetchOrder | api/scrape.go:262-278 | The records written are the pages' records in fetch order. An empty or failed page contributes nothing. |
| CsvExport.ExportFetchBound | api/scrape.go:280-283 | When every page reports the same total T, the export fetches at most max(1, ⌈T/10⌉) pages. |
| CsvExport.ExportKeepsRecordsBeforeError | api/scrape.go:256-260 | A failed fetch is the last one. The export reports its error and still holds the records of every page fetched before it. |
| CsvExport.FailedFetchIsLast | api/scrape.go:256-260 | Nothing is fetched after a failed fetch. |
| CsvExport.PartialOutputOnError | api/scrape.go:247-260 | A full first page followed by a failing second fetch leaves the first page's records written, together with the error. |
| CsvExport.ExportDatasetFrom | api/scrape.go:252-284 | Against a faithful upstream, the export from an offset inside the dataset writes exactly the rest of the dataset and does not fail. |
| CsvExport.ExportWholeDataset | api/scrape.go:252-284 | Against a faithful upstream serving n records, the export writes each record once, in order, without failing, and fetches max(1, ⌈n/10⌉) pages. |
| CsvExport.WritePage | api/scrape.go:266-278 | Writing a page appends that page's rows, in order, to what the writer already holds. |
| CsvExport.DownloadCsv | api/scrape.go:242-285 | The imperative loop writes the header followed by the rows of the records `ExportRun` specifies. It reports that run's error and fetches that run's offsets. |
| Scrape.Dispatch | api/scrape.go:124-157 | The method is checked first: 405 iff it is neither GET nor POST. Then the code: 400 iff it is empty. Export iff the request is a GET with `download=csv` and a code. Otherwise it is a view: a POST's page comes from ParsePage, a GET's page is 1. |
| Scrape.Decide | api/scrape.go:148-157 | The missing-code check, then the export flag. No contract of its own. Dispatch's contract states the outcome. |
| Scrape.PostNeverExports | api/scrape.go:129-142 | A POST never starts the export, whatever fields it carries. |
| Scrape.RenderView | api/scrape.go:161-238 | The view's response for its one fetch. No contract of its own. ScrapeHandler's contract ties it to the fetch, ViewReportsUpstreamError states the error text, and Navigation states the buttons. |
| Scrape.CsvResponse | api/scrape.go:258 | The export's rows and error text. No contract of its own. ScrapeHandler's contract ties it to ExportRun. |
| Scrape.ScrapeHandler | api/scrape.go:124-165 | A refused request gets `http.Error`'s text and fetches nothing. A view fetches once, at the page's offset, with `pengadaan_kd` 2. An export fetches exactly the export loop's offsets and returns its rows and error text. |
| Scrape.NextButtonRoundTrip | api/scrape.go:219-224 | Posting the Next button's fields is read as the view of the next page, whose offset is 10 further. |
| Scrape.PrevButtonRoundTrip | api/scrape.go:211-216 | Posting the Previous button's fields is read as the view of the page before, whose offset is 10 back. |
| Scrape.DownloadLinkExports | api/scrape.go:183 | Following the Download CSV link starts the export for the same code. |
| Scrape.ExportVisitsViewWindows | api/scrape.go:160 | The export's i-th fetch asks for the same offset as the view of page i + 1. |
| Scrape.ViewReportsUpstreamError | api/scrape.go:162-164 | An upstream error flag on the view's fetch becomes a 500 whose text is "Gagal mengambil data: API error: " + message. |

## Left out

- Process I/O is not modelled: the HTTP client, the request headers, status lines, `Content-Type`/`Content-Disposition` headers and the HTML template output. The upstream is a function from the request URL to the round-trip result. The view response is a datatype holding the data the template receives.
- JSON decoding is abstract. The decoder's result, an envelope or an error text, is an input to the model.
- CSV quoting and escaping are not modelled. A row is the list of fields handed to `csv.Writer.Write`.
- The relative order of buffered CSV output and the error text is not modelled. The export response holds the rows and the error text side by side. In the Go code the error text goes straight to the response while rows may still sit in the writer's buffer until the deferred flush.
- Errors returned by the CSV writer or by writes to the response are not modelled.
- The response-preview logging in `getData` is left out. It has no effect on results.
- The `Form` handler (lines 103-121) and the `Handler` entry point (lines 288-300) are not modelled: they are environment reading, routing and a static page.
- A query or form key with several values is not modelled. `FormValue` and `Query().Get` are modelled as one map lookup that gives "" for a missing key, and the caller supplies the `form` map with posted fields already taking precedence over the URL query.
- Byte-level string encoding is not modelled. Strings are sequences of characters, so invalid UTF-8 and `TrimSpace`'s handling of it are out of scope.
- CsvExport.ExportRun: stops once the advanced offset passes the 64-bit range. The Go loop would instead wrap to a negative offset and go on. This needs an upstream that reports a total above 9223372036854775800 and returns non-empty pages for about 9.2·10^17 fetches in a row.
- CsvExport.ExportFetchBound: proved only for an upstream that reports the same total on every page. When the reported total keeps growing, the model bounds the export only by the 64-bit range.
- Paging.TotalPages: models line 168 as written, including the wrap of `total + 9` for reported totals above MaxInt64 - 9 (see `Paging.TotalPagesWraps`). The ceiling property is proved only below that bound, and then the view shows no Next button.
- Scrape.ScrapeHandler: uses the exact view offset `Paging.PageOffset` instead of the 64-bit one. The two differ only for pages above 922337203685477581 (see Findings).

## Findings

| source | as written | input that shows it | evidently intended | confidence | as-written member | corrected member |
|---|---|---|---|---|---|---|
| api/scrape.go:160 | `offset := (page - 1) * 10` is computed in 64-bit `int`, and `ParsePage` accepts any positive 64-bit page | a POST with `page=922337203685477582`: the product wraps, and the upstream is asked for offset -9223372036854775806 | a non-negative offset for every accepted page, e.g. by rejecting pages whose offset does not fit | medium, not executed | Paging.GoPageOffset, Paging.GoPageOffsetWraps | Paging.PageOffset |
