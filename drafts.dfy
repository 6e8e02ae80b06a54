/** How the two middleware drafts, `index.php` and `src/Middleware.php` with `src/Utils.php`,
    relate where they describe the same step. */
module Drafts {
  import opened Wrappers
  import opened Gateway
  import Utils
  import SrcMiddleware
  import IndexMiddleware

  /** Both drafts use the same maintenance window. */
  lemma SameMaintenanceWindow(hour: int, minute: int)
    ensures Utils.IsT24Down(hour, minute) <==> IndexMiddleware.IsT24Down(hour, minute)
  {
  }

  /** On a live consultation both drafts give the same status code, except where `src`
      returns null (an unrecognised T24Error): there `index.php` leaves the code at 0. */
  lemma LiveConsultCodesAgree(raw: RawResult)
    ensures SrcMiddleware.ProcessConsultResponse(raw).None? <==> IndexMiddleware.LiveHttpCode(raw) == 0
    ensures SrcMiddleware.ProcessConsultResponse(raw).Some? ==>
      SrcMiddleware.ProcessConsultResponse(raw).value.httpCode == IndexMiddleware.LiveHttpCode(raw)
  {
  }

  /** The enquiry `index.php` sends to consult a cheque is the balance enquiry that `src`
      sends to reserve an amount, not the WSWORKFLOWCHQ consultation. */
  lemma IndexConsultIsReserveEnquiry(rib: string, ymd: string, his: string)
    ensures IndexMiddleware.ConsultServiceCall(rib, ymd, his) ==
      SoapCall(SrcMiddleware.ReserveOperation, SrcMiddleware.PrepareReserveParams(rib, ymd, his))
    ensures IndexMiddleware.ConsultServiceCall(rib, ymd, his) !=
      SoapCall(SrcMiddleware.ConsultOperation, SrcMiddleware.PrepareConsultParams(rib))
  {
  }
}
