/**
 * One call to the upstream vacancy API (`getData`): the request URL, the
 * decoded envelope and the classification of the outcome into a failure
 * or the envelope itself.
 */
module Envelope {
  import opened Wrappers
  import opened GoLib

  /** One vacancy record (`Formasi`). */
  datatype Formasi = Formasi(
    formasiId: string,
    insNm: string,
    jpNama: string,
    formasiNm: string,
    jabatanNm: string,
    lokasiNm: string,
    jumlahFormasi: int64,
    gajiMin: string,
    gajiMax: string)

  /**
   * The response envelope (`ApiResponse`), with the nested `data.meta.total`,
   * `data.page.total` and `data.data` fields flattened.
   */
  datatype ApiResponse = ApiResponse(
    status: int64,
    error: bool,
    message: string,
    metaTotal: int64,
    pageTotal: int64,
    data: seq<Formasi>)

  /** What JSON decoding of the body gives: the envelope, or the decoder's own error text. */
  datatype Decoded = Decoded(resp: ApiResponse) | Malformed(cause: string)

  /**
   * What the HTTP round trip gives: a failure of request construction,
   * transport or body reading (with Go's error text), or the body read in full
   * together with what decoding it yields.
   */
  datatype Fetched = TransportFailed(cause: string) | Received(body: string, json: Decoded)

  /** The upstream, seen from the scraper: a deterministic function of the request URL. */
  type Upstream = string -> Fetched

  /** The three ways `getData` fails. */
  datatype FetchError =
    | TransportError(cause: string)
    | DecodeError(cause: string, body: string)
    | UpstreamRejected(message: string)
  {
    /** The text of the Go error value. */
    function Message(): string
    {
      match this
      case TransportError(cause) => cause
      case DecodeError(cause, body) => DecodePrefix + cause + BodySeparator + body
      case UpstreamRejected(message) => ApiErrorPrefix + message
    }
  }

  const DecodePrefix := "gagal decode JSON: "
  const BodySeparator := "\nresponse body: "
  const ApiErrorPrefix := "API error: "

  const ApiBase := "https://api-sscasn.bkn.go.id/2024/portal/spf"

  /** The URL `getData` requests; `%s` and `%d` insert the arguments without escaping. */
  function RequestUrl(offset: int, kodeRefPend: string, pengadaanKd: string): string
  {
    ApiBase + "?kode_ref_pend=" + kodeRefPend + "&pengadaan_kd=" + pengadaanKd + "&offset=" + Itoa(offset)
  }

  /** For fixed codes, different offsets are different URLs, so each page is its own request. */
  lemma RequestUrlInjective(o1: int, o2: int, kodeRefPend: string, pengadaanKd: string)
    requires RequestUrl(o1, kodeRefPend, pengadaanKd) == RequestUrl(o2, kodeRefPend, pengadaanKd)
    ensures o1 == o2
  {
    var prefix := ApiBase + "?kode_ref_pend=" + kodeRefPend + "&pengadaan_kd=" + pengadaanKd + "&offset=";
    assert RequestUrl(o1, kodeRefPend, pengadaanKd)[|prefix|..] == Itoa(o1);
    assert RequestUrl(o2, kodeRefPend, pengadaanKd)[|prefix|..] == Itoa(o2);
    ItoaInjective(o1, o2);
  }

  /**
   * The checks `getData` makes once the body has been read: a decode failure
   * first, then the upstream's own error flag, otherwise the envelope.
   */
  function Classify(body: string, json: Decoded): (r: Result<ApiResponse, FetchError>)
    ensures r.Success? <==> json.Decoded? && !json.resp.error
    ensures r.Success? ==> r.value == json.resp
    ensures json.Malformed? ==> r == Failure(DecodeError(json.cause, body))
    ensures json.Decoded? && json.resp.error ==> r == Failure(UpstreamRejected(json.resp.message))
  {
    match json
    case Malformed(cause) => Failure(DecodeError(cause, body))
    case Decoded(resp) =>
      if resp.error then Failure(UpstreamRejected(resp.message)) else Success(resp)
  }

  /** `getData(offset, kodeRefPend, pengadaanKd)` against a given upstream. */
  function GetData(upstream: Upstream, offset: int, kodeRefPend: string, pengadaanKd: string)
    : (r: Result<ApiResponse, FetchError>)
    ensures var f := upstream(RequestUrl(offset, kodeRefPend, pengadaanKd));
      f.TransportFailed? ==> r == Failure(TransportError(f.cause))
    ensures var f := upstream(RequestUrl(offset, kodeRefPend, pengadaanKd));
      r.Success? <==> f.Received? && f.json.Decoded? && !f.json.resp.error
    ensures var f := upstream(RequestUrl(offset, kodeRefPend, pengadaanKd));
      r.Success? ==> r.value == f.json.resp
    ensures var f := upstream(RequestUrl(offset, kodeRefPend, pengadaanKd));
      f.Received? && f.json.Malformed? ==> r == Failure(DecodeError(f.json.cause, f.body))
    ensures var f := upstream(RequestUrl(offset, kodeRefPend, pengadaanKd));
      f.Received? && f.json.Decoded? && f.json.resp.error ==> r == Failure(UpstreamRejected(f.json.resp.message))
  {
    match upstream(RequestUrl(offset, kodeRefPend, pengadaanKd))
    case TransportFailed(cause) => Failure(TransportError(cause))
    case Received(body, json) => Classify(body, json)
  }

  /** The error text of a decode failure ends with the raw response body and starts with the decoder's cause. */
  lemma DecodeErrorKeepsBody(cause: string, body: string)
    ensures var m := DecodeError(cause, body).Message();
      |m| >= |body| && m[|m| - |body|..] == body
      && m[..|DecodePrefix|] == DecodePrefix
      && m[|DecodePrefix|..|DecodePrefix| + |cause|] == cause
  {
    var m := DecodeError(cause, body).Message();
    assert m == (DecodePrefix + cause + BodySeparator) + body;
  }

  /** The upstream's message is recovered exactly from the error text after the fixed prefix. */
  lemma UpstreamMessageRecovered(message: string)
    ensures var m := UpstreamRejected(message).Message();
      m[..|ApiErrorPrefix|] == ApiErrorPrefix && m[|ApiErrorPrefix|..] == message
  {
  }

  /** An upstream error flag fails the call whatever the envelope otherwise holds, and carries its message. */
  lemma ErrorFlagFails(upstream: Upstream, offset: int, kodeRefPend: string, pengadaanKd: string)
    requires var f := upstream(RequestUrl(offset, kodeRefPend, pengadaanKd));
      f.Received? && f.json.Decoded? && f.json.resp.error
    ensures var f := upstream(RequestUrl(offset, kodeRefPend, pengadaanKd));
      GetData(upstream, offset, kodeRefPend, pengadaanKd) == Failure(UpstreamRejected(f.json.resp.message))
      && GetData(upstream, offset, kodeRefPend, pengadaanKd).error.Message() == ApiErrorPrefix + f.json.resp.message
  {
  }
}
