/** What the middleware sends to and reads back from the core-banking platform (T24).
    The SOAP transport itself is not modelled: a call is a function from the request to the
    decoded response, handed to the operations that make it. */
module Gateway {
  import opened Wrappers
  import opened Php

  /** One `enquiryInputCollection` entry: a column, the value it must have, and the operand. */
  datatype Criterion = Criterion(columnName: string, criteriaValue: string, operand: string)

  /** The enquiry part of the parameters (the `...Type` key and its criteria). */
  datatype Enquiry = Enquiry(enquiryType: string, criteria: seq<Criterion>)

  /** A remote procedure call: the SOAP operation name and its enquiry. */
  datatype SoapCall = SoapCall(operation: string, enquiry: Enquiry)

  /** `Status` of a response; a `None` field is a missing or null property. */
  datatype Status = Status(successIndicator: Option<string>, messages: Option<seq<string>>)

  /** A decoded response. `phone` is the consultation payload's `PHONE`; `soldeMillimes` the
      reservation payload's `SOLDE`, already converted to millimes. */
  datatype RawResult = RawResult(status: Option<Status>, phone: Option<string>, soldeMillimes: Option<int>)

  type Remote = SoapCall -> RawResult

  const ErreurCompte := "ERREUR COMPTE"

  /** `Status.successIndicator`, null when `Status` or the indicator is missing. */
  function IndicatorIn(raw: RawResult): Option<string> {
    if raw.status.Some? then raw.status.value.successIndicator else None
  }

  /** `Status.messages`, null when missing. */
  function MessagesIn(raw: RawResult): Option<seq<string>> {
    if raw.status.Some? then raw.status.value.messages else None
  }

  /** `messages[2]`: PHP yields null when the list is absent or has fewer than three entries. */
  function MessageAt(messages: Option<seq<string>>, i: nat): (m: Option<string>)
    ensures m.Some? <==> messages.Some? && i < |messages.value|
    ensures m.Some? ==> m.value == messages.value[i]
  {
    if messages.Some? && i < |messages.value| then Some(messages.value[i]) else None
  }

  /** `substr($rib, 8, -2)`: the account number inside a RIB, without the first eight
      and the last two characters; "" for a RIB shorter than ten characters. */
  function AccountNumber(rib: string): (account: string)
    ensures |rib| >= 10 ==> |account| == |rib| - 10 && rib == rib[..8] + account + rib[|rib| - 2..]
    ensures |rib| < 10 ==> account == ""
  {
    Substr(rib, 8, Some(-2))
  }

  /** The RIB quoted beside the consultation call: its account number is characters 9 to 18. */
  lemma ExampleRibAccount()
    ensures AccountNumber("26016000890125816427") == "8901258164"
  {
    var rib := "26016000890125816427";
    assert rib[8..18] == "8901258164";
  }
}
