/** The static helpers of the `Utils` class: the maintenance-window oracle and the response guard.
    (`normalizeArrayKeys` is in module ArrayKeys.) */
module Utils {
  import opened Wrappers
  import opened Gateway

  /** `Utils::isT24Down` with the clock read injected: over a day, the live channel is down
      exactly in the minutes before 07:30 and from 21:00 on. */
  predicate IsT24Down(hour: int, minute: int)
    ensures 0 <= hour < 24 && 0 <= minute < 60 ==>
      (IsT24Down(hour, minute) <==> hour * 60 + minute < 7 * 60 + 30 || hour * 60 + minute >= 21 * 60)
  {
    hour > 20 || (hour < 7 || (hour == 7 && minute < 30))
  }

  /** What `evalResponse` returns: the error array, or the indicator and the messages. */
  datatype Evaluation =
    | Invalid(httpCode: int, success: bool, message: string)
    | Evaluated(successIndicator: string, messages: seq<string>)

  const InvalidResponseMessage := "Invalid Response from SOAP service"

  /** `Utils::evalResponse`: a response without `Status` or without `Status.successIndicator`
      is invalid; otherwise the indicator is passed on, with the messages or [] when absent. */
  function EvalResponse(raw: RawResult): (e: Evaluation)
    ensures e.Invalid? <==> raw.status.None? || raw.status.value.successIndicator.None?
    ensures e.Invalid? ==> e == Invalid(500, false, InvalidResponseMessage)
    ensures e.Evaluated? ==> Some(e.successIndicator) == raw.status.value.successIndicator
    ensures e.Evaluated? ==> e.messages == (if raw.status.value.messages.Some? then raw.status.value.messages.value else [])
  {
    match raw.status
    case None => Invalid(500, false, InvalidResponseMessage)
    case Some(st) =>
      match st.successIndicator
      case None => Invalid(500, false, InvalidResponseMessage)
      case Some(indicator) => Evaluated(indicator, if st.messages.Some? then st.messages.value else [])
  }

  /** `$responseEval['successIndicator']`: null for the error array, which has no such key. */
  function IndicatorOf(e: Evaluation): (indicator: Option<string>)
    ensures e.Invalid? ==> indicator.None?
    ensures e.Evaluated? ==> indicator == Some(e.successIndicator)
  {
    if e.Evaluated? then Some(e.successIndicator) else None
  }

  /** `$responseEval['messages']`, null for the error array. */
  function MessagesOf(e: Evaluation): (messages: Option<seq<string>>)
    ensures e.Invalid? ==> messages.None?
    ensures e.Evaluated? ==> messages == Some(e.messages)
  {
    if e.Evaluated? then Some(e.messages) else None
  }

  /** The guard hands the caller exactly the indicator the response carries, so an invalid
      response reaches the caller's switch as a null indicator. */
  lemma IndicatorPassesThrough(raw: RawResult)
    ensures IndicatorOf(EvalResponse(raw)) == (if raw.status.Some? then raw.status.value.successIndicator else None)
  {
  }

  /** The guard's messages are the response's messages, so `messages[2]` reads the same entry. */
  lemma MessagePassesThrough(raw: RawResult)
    requires raw.status.Some? && raw.status.value.successIndicator.Some?
    ensures MessageAt(MessagesOf(EvalResponse(raw)), 2) == MessageAt(raw.status.value.messages, 2)
  {
  }
}
