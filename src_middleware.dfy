/** The `src/Middleware.php` draft: both operations always go to the live channel (the
    availability check is commented out), and responses are normalised after the
    `Utils::evalResponse` guard. */
module SrcMiddleware {
  import opened Wrappers
  import opened Gateway
  import Utils

  const ConsultOperation := "WSWORKFLOWCHQ"
  const ReserveOperation := "SOLDECLIENT"

  /** `prepareConsultParams($rib)`, without the credentials: exactly one criterion, the account
      number equal to the RIB without its first eight and last two characters. */
  function PrepareConsultParams(rib: string): (e: Enquiry)
    ensures e.enquiryType == "WSWORKFLOWCHQType"
    ensures |e.criteria| == 1
    ensures e.criteria[0].columnName == "NUM.COMPTE" && e.criteria[0].operand == "EQ"
    ensures |rib| >= 10 ==> rib == rib[..8] + e.criteria[0].criteriaValue + rib[|rib| - 2..]
    ensures |rib| < 10 ==> e.criteria[0].criteriaValue == ""
  {
    Enquiry("WSWORKFLOWCHQType", [Criterion("NUM.COMPTE", AccountNumber(rib), "EQ")])
  }

  /** `prepareReserveParams($rib)`, without the credentials and with `date('Ymd')` and
      `date('His')` passed in: four criteria in a fixed order, all with operand EQ. */
  function PrepareReserveParams(rib: string, ymd: string, his: string): (e: Enquiry)
    ensures e.enquiryType == "TRGENQACCOUNTSOLDE2Type"
    ensures |e.criteria| == 4
    ensures forall i :: 0 <= i < 4 ==> e.criteria[i].operand == "EQ"
    ensures e.criteria[0].columnName == "RRN" && e.criteria[0].criteriaValue == "123456789"
    ensures e.criteria[1].columnName == "TR.DATE" && e.criteria[1].criteriaValue == ymd
    ensures e.criteria[2].columnName == "TR.HEURE" && e.criteria[2].criteriaValue == his
    ensures e.criteria[3].columnName == "ACCOUNT"
    ensures e.criteria[3].criteriaValue == AccountNumber(rib)
    ensures |rib| >= 10 ==> rib == rib[..8] + e.criteria[3].criteriaValue + rib[|rib| - 2..]
    ensures |rib| < 10 ==> e.criteria[3].criteriaValue == ""
  {
    Enquiry("TRGENQACCOUNTSOLDE2Type", [
      Criterion("RRN", "123456789", "EQ"),
      Criterion("TR.DATE", ymd, "EQ"),
      Criterion("TR.HEURE", his, "EQ"),
      Criterion("ACCOUNT", AccountNumber(rib), "EQ")
    ])
  }

  /** The arrays `processConsultResponse` returns: the full success array, or one holding only a code. */
  datatype ConsultResult =
    | Confirmed(httpCode: int, success: bool, result: string, message: string, phoneNumber: Option<string>)
    | CodeOnly(httpCode: int)

  /** `processConsultResponse`; `None` is the null PHP returns when no case returns.
      Read against the response itself: a response the guard rejects has no indicator and
      lands in the default case; on T24Error only the third message counts. */
  function ProcessConsultResponse(raw: RawResult): (r: Option<ConsultResult>)
    ensures IndicatorIn(raw) == Some("Success") ==> r == Some(Confirmed(200, true, "1", "avec OTP", raw.phone))
    ensures IndicatorIn(raw) == Some("T24Error") ==>
      r == if MessageAt(MessagesIn(raw), 2) == Some(ErreurCompte) then Some(CodeOnly(404)) else None
    ensures IndicatorIn(raw) != Some("Success") && IndicatorIn(raw) != Some("T24Error") ==> r == Some(CodeOnly(400))
  {
    var eval := Utils.EvalResponse(raw);
    var messages := Utils.MessagesOf(eval);
    match Utils.IndicatorOf(eval)
    case Some("Success") => Some(Confirmed(200, true, "1", "avec OTP", raw.phone))
    case Some("T24Error") =>
      if MessageAt(messages, 2) == Some(ErreurCompte) then Some(CodeOnly(404)) else None
    case _ => Some(CodeOnly(400))
  }

  /** What `processReserveResponse` returns: a decision array, or a bare integer code. */
  datatype ReserveResult =
    | Decision(httpCode: int, success: bool, message: string)
    | BareCode(code: int)

  const ReservedMessage := "Réservation du montant du chèque confirmée (test)"
  const InsufficientMessage := "Provision insuffisante pour la réservation (test)"

  /** `floatval(SOLDE) * 1000`: a missing balance reads as 0. */
  function AvailableMillimes(raw: RawResult): (millimes: int)
    ensures raw.soldeMillimes.None? ==> millimes == 0
    ensures raw.soldeMillimes.Some? ==> millimes == raw.soldeMillimes.value
  {
    if raw.soldeMillimes.Some? then raw.soldeMillimes.value else 0
  }

  /** `processReserveResponse`; `None` is null. On Success the reservation is granted exactly
      when the balance covers the amount. */
  function ProcessReserveResponse(raw: RawResult, amountInMillimes: int): (r: Option<ReserveResult>)
    ensures IndicatorIn(raw) == Some("Success") ==>
      r == if AvailableMillimes(raw) >= amountInMillimes then Some(Decision(200, true, ReservedMessage))
           else Some(Decision(412, false, InsufficientMessage))
    ensures IndicatorIn(raw) == Some("T24Error") ==>
      r == if MessageAt(MessagesIn(raw), 2) == Some(ErreurCompte) then Some(BareCode(404)) else None
    ensures IndicatorIn(raw) != Some("Success") && IndicatorIn(raw) != Some("T24Error") ==> r == Some(BareCode(400))
  {
    var eval := Utils.EvalResponse(raw);
    var messages := Utils.MessagesOf(eval);
    var solde := AvailableMillimes(raw);
    match Utils.IndicatorOf(eval)
    case Some("Success") =>
      if solde >= amountInMillimes then Some(Decision(200, true, ReservedMessage))
      else Some(Decision(412, false, InsufficientMessage))
    case Some("T24Error") =>
      if MessageAt(messages, 2) == Some(ErreurCompte) then Some(BareCode(404)) else None
    case _ => Some(BareCode(400))
  }

  /** `consultCheck`: the call always goes out (there is no time-of-day check), as a
      WSWORKFLOWCHQ enquiry on the RIB's account number, and on Success the phone number is the
      remote payload's. The session id, source, cheque number and security key are not used. */
  function ConsultCheck(sessionId: string, source: string, checkNumber: string, rib: string,
                        securityKey: string, remote: Remote): (r: Option<ConsultResult>)
    ensures var raw := remote(SoapCall(ConsultOperation, Enquiry("WSWORKFLOWCHQType", [Criterion("NUM.COMPTE", AccountNumber(rib), "EQ")])));
      && (IndicatorIn(raw) == Some("Success") ==> r.Some? && r.value.Confirmed? && r.value.phoneNumber == raw.phone)
      && (r.Some? && r.value.httpCode == 200 <==> IndicatorIn(raw) == Some("Success"))
      && r == ProcessConsultResponse(raw)
  {
    ProcessConsultResponse(remote(SoapCall(ConsultOperation, PrepareConsultParams(rib))))
  }

  /** `reserveCheck`: always the live SOLDECLIENT balance enquiry, then the millimes comparison;
      nothing is recorded anywhere. */
  function ReserveCheck(sessionId: string, amountInMillimes: int, source: string, checkNumber: string,
                        rib: string, securityKey: string, ymd: string, his: string, remote: Remote): (r: Option<ReserveResult>)
    ensures var raw := remote(SoapCall(ReserveOperation, Enquiry("TRGENQACCOUNTSOLDE2Type", [
              Criterion("RRN", "123456789", "EQ"), Criterion("TR.DATE", ymd, "EQ"),
              Criterion("TR.HEURE", his, "EQ"), Criterion("ACCOUNT", AccountNumber(rib), "EQ")])));
      && (r == Some(Decision(200, true, ReservedMessage)) <==>
            IndicatorIn(raw) == Some("Success") && AvailableMillimes(raw) >= amountInMillimes)
      && (r == Some(Decision(412, false, InsufficientMessage)) <==>
            IndicatorIn(raw) == Some("Success") && AvailableMillimes(raw) < amountInMillimes)
      && r == ProcessReserveResponse(raw, amountInMillimes)
  {
    ProcessReserveResponse(remote(SoapCall(ReserveOperation, PrepareReserveParams(rib, ymd, his))), amountInMillimes)
  }

  /** A balance that covers an amount covers every smaller one, and a balance equal to the
      amount is enough. */
  lemma ReserveThreshold(raw: RawResult, amount: int, smaller: int)
    requires IndicatorIn(raw) == Some("Success")
    requires smaller <= amount
    ensures ProcessReserveResponse(raw, AvailableMillimes(raw)) == Some(Decision(200, true, ReservedMessage))
    ensures ProcessReserveResponse(raw, amount) == Some(Decision(200, true, ReservedMessage)) ==>
      ProcessReserveResponse(raw, smaller) == Some(Decision(200, true, ReservedMessage))
  {
  }

  /** Only the third message is read: the first two never change the outcome. */
  lemma FirstTwoMessagesIgnored(raw: RawResult, m0: string, m1: string, amount: int)
    requires raw.status.Some? && raw.status.value.messages.Some? && |raw.status.value.messages.value| >= 2
    ensures var ms := raw.status.value.messages.value;
      var raw' := raw.(status := Some(raw.status.value.(messages := Some([m0, m1] + ms[2..]))));
      && ProcessConsultResponse(raw') == ProcessConsultResponse(raw)
      && ProcessReserveResponse(raw', amount) == ProcessReserveResponse(raw, amount)
  {
    var ms := raw.status.value.messages.value;
    assert ([m0, m1] + ms[2..])[2..] == ms[2..];
  }
}
