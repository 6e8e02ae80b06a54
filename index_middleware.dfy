/** The `index.php` draft of the Middleware: a time-of-day check chooses between the live
    channel and offline backup data; live reservations are written to the reservations table. */
module IndexMiddleware {
  import opened Wrappers
  import opened Gateway

  /** The readings of `date()` the draft makes: hour and minute for the availability check,
      `Ymd` and `His` for the enquiry, and the `Y-m-d H:i:s` timestamp of a reservation. */
  datatype Clock = Clock(hour: int, minute: int, ymd: string, his: string, timestamp: string)

  /** `isT24Down`: the live channel is down after 20:59 and before 07:30. */
  predicate IsT24Down(hour: int, minute: int)
    ensures 0 <= hour < 24 && 0 <= minute < 60 ==>
      (IsT24Down(hour, minute) <==> hour * 60 + minute < 7 * 60 + 30 || hour * 60 + minute >= 21 * 60)
  {
    hour > 20 || (hour < 7 || (hour == 7 && minute < 30))
  }

  /** The edges of the window: 07:29 and 21:00 are down; 07:30, 20:00 and 20:59 are up. */
  lemma WindowEdges()
    ensures IsT24Down(7, 29) && !IsT24Down(7, 30)
    ensures !IsT24Down(20, 0) && !IsT24Down(20, 59) && IsT24Down(21, 0)
    ensures IsT24Down(0, 0) && IsT24Down(23, 59) && !IsT24Down(12, 0)
  {
  }

  /** Over a day, the rule is exactly: hour after 20, hour before 7, or 7 with minute before 30;
      every hour from 8 to 20 is up whatever the minute. */
  lemma WholeHoursUp(hour: int, minute: int)
    requires 8 <= hour <= 20
    ensures !IsT24Down(hour, minute)
  {
  }

  /** One record of a backup file. Consultation files carry `check_number` and
      `phone_number`, reservation files `current_solde`; one record type serves both. */
  datatype BackupEntry = BackupEntry(rib: string, checkNumber: string, phoneNumber: string, currentSolde: int)

  /** The consultation response array; `None` is a key that is absent or null. */
  datatype ConsultReply = ConsultReply(
    httpCode: int, success: bool, result: Option<string>, phoneNumber: Option<string>,
    sessionId: Option<string>, message: string)

  /** The reservation response array. */
  datatype ReserveReply = ReserveReply(httpCode: int, success: bool, message: string)

  /** A row of the `reservations` table. */
  datatype Reservation = Reservation(rib: string, amount: int, reservedAt: string)

  /** `$entry['rib'] === $rib && $entry['check_number'] === $check_number`. */
  predicate ConsultMatch(e: BackupEntry, rib: string, checkNumber: string) {
    e.rib == rib && e.checkNumber == checkNumber
  }

  /** `$entry['rib'] === $rib && $entry['current_solde'] >= $amount`: the file's balance is
      compared as it stands with the amount in millimes. */
  predicate ReserveMatch(e: BackupEntry, rib: string, amount: int) {
    e.rib == rib && e.currentSolde >= amount
  }

  /** The position of the first entry matching the cheque, if any. */
  function FirstConsultMatch(backup: seq<BackupEntry>, rib: string, checkNumber: string): (r: Option<nat>)
    ensures r.Some? ==> r.value < |backup| && ConsultMatch(backup[r.value], rib, checkNumber)
    ensures r.Some? ==> forall j :: 0 <= j < r.value ==> !ConsultMatch(backup[j], rib, checkNumber)
    ensures r.None? ==> forall j :: 0 <= j < |backup| ==> !ConsultMatch(backup[j], rib, checkNumber)
  {
    if backup == [] then None
    else if ConsultMatch(backup[0], rib, checkNumber) then Some(0)
    else match FirstConsultMatch(backup[1..], rib, checkNumber)
      case None => None
      case Some(i) => Some(i + 1)
  }

  const BackupHitMessage := "Data fetched from backup"
  const BackupMissMessage := "Data not found in backup"

  /** What `consultFromBackup` answers: the first matching entry's phone number, or 404. */
  function BackupConsultReply(backup: seq<BackupEntry>, rib: string, checkNumber: string, sessionId: string): (r: ConsultReply)
    ensures r.httpCode == 200 || r.httpCode == 404
    ensures r.success <==> r.httpCode == 200
    ensures r.httpCode == 200 <==> FirstConsultMatch(backup, rib, checkNumber).Some?
    ensures r.httpCode == 200 ==> r.phoneNumber == Some(backup[FirstConsultMatch(backup, rib, checkNumber).value].phoneNumber)
  {
    match FirstConsultMatch(backup, rib, checkNumber)
    case Some(i) => ConsultReply(200, true, Some("0"), Some(backup[i].phoneNumber), Some(sessionId), BackupHitMessage)
    case None => ConsultReply(404, false, None, None, None, BackupMissMessage)
  }

  /** Some entry for the RIB holds at least the amount. */
  predicate HasFunds(backup: seq<BackupEntry>, rib: string, amount: int) {
    exists i :: 0 <= i < |backup| && ReserveMatch(backup[i], rib, amount)
  }

  const BackupReservedMessage := "Amount reserved from backup"
  const BackupInsufficientMessage := "Insufficient funds in backup"

  /** What `reserveFromBackup` answers. */
  function BackupReserveReply(backup: seq<BackupEntry>, rib: string, amount: int): (r: ReserveReply)
    ensures r.httpCode == 200 || r.httpCode == 500
    ensures r.success <==> r.httpCode == 200
    ensures r.httpCode == 200 <==> HasFunds(backup, rib, amount)
  {
    if HasFunds(backup, rib, amount) then ReserveReply(200, true, BackupReservedMessage)
    else ReserveReply(500, false, BackupInsufficientMessage)
  }

  /** The consultation answer is the phone number of the first entry matching both the RIB and
      the cheque number, with result "0"; when none matches it is 404 and nothing else. */
  lemma BackupConsultFirstMatch(backup: seq<BackupEntry>, rib: string, checkNumber: string, sessionId: string)
    ensures var r := BackupConsultReply(backup, rib, checkNumber, sessionId);
      && (r.httpCode == 200 <==> exists i :: 0 <= i < |backup| && ConsultMatch(backup[i], rib, checkNumber))
      && (r.httpCode == 200 ==>
            && r.success && r.result == Some("0") && r.sessionId == Some(sessionId)
            && exists i :: 0 <= i < |backup| && ConsultMatch(backup[i], rib, checkNumber) &&
                 (forall j :: 0 <= j < i ==> !ConsultMatch(backup[j], rib, checkNumber)) &&
                 r.phoneNumber == Some(backup[i].phoneNumber))
      && (r.httpCode != 200 ==> r == ConsultReply(404, false, None, None, None, BackupMissMessage))
  {
  }

  lemma {:induction false} FirstMatchUnaffectedByTail(backup: seq<BackupEntry>, rest: seq<BackupEntry>, rib: string,
                                                      checkNumber: string)
    requires exists i :: 0 <= i < |backup| && ConsultMatch(backup[i], rib, checkNumber)
    ensures FirstConsultMatch(backup + rest, rib, checkNumber) == FirstConsultMatch(backup, rib, checkNumber)
  {
    var i :| 0 <= i < |backup| && ConsultMatch(backup[i], rib, checkNumber);
    assert (backup + rest)[0] == backup[0];
    if !ConsultMatch(backup[0], rib, checkNumber) {
      assert (backup + rest)[1..] == backup[1..] + rest;
      assert backup[1..][i - 1] == backup[i];
      FirstMatchUnaffectedByTail(backup[1..], rest, rib, checkNumber);
    }
  }

  /** Entries after the first match are never consulted: whatever follows a matching entry,
      the answer is the one the entries up to it give. */
  lemma LaterEntriesIgnored(backup: seq<BackupEntry>, rest: seq<BackupEntry>, rib: string,
                            checkNumber: string, sessionId: string)
    requires exists i :: 0 <= i < |backup| && ConsultMatch(backup[i], rib, checkNumber)
    ensures BackupConsultReply(backup + rest, rib, checkNumber, sessionId) == BackupConsultReply(backup, rib, checkNumber, sessionId)
  {
    FirstMatchUnaffectedByTail(backup, rest, rib, checkNumber);
    var k := FirstConsultMatch(backup, rib, checkNumber).value;
    assert (backup + rest)[k] == backup[k];
  }

  /** A reservation from backup succeeds exactly when some entry for the RIB holds at least the
      amount, an equal balance included; otherwise it is 500, also when the RIB is present but
      every balance for it is lower. */
  lemma BackupReserveCases(backup: seq<BackupEntry>, rib: string, amount: int)
    ensures var r := BackupReserveReply(backup, rib, amount);
      && (r.httpCode == 200 <==> exists i :: 0 <= i < |backup| && backup[i].rib == rib && backup[i].currentSolde >= amount)
      && (r.httpCode == 200 ==> r.success && r.message == BackupReservedMessage)
      && (r.httpCode != 200 ==> r == ReserveReply(500, false, BackupInsufficientMessage))
  {
  }

  /** The reservation scenario at 03:00: a balance of 50000 covers 10000; with no entry for
      the RIB the answer is 500. */
  lemma BackupReserveScenario()
    ensures IsT24Down(3, 0)
    ensures BackupReserveReply([BackupEntry("12345678901234567890", "1234567", "", 50000)], "12345678901234567890", 10000)
      == ReserveReply(200, true, BackupReservedMessage)
    ensures BackupReserveReply([], "12345678901234567890", 10000) == ReserveReply(500, false, BackupInsufficientMessage)
    ensures BackupReserveReply([BackupEntry("12345678901234567890", "1234567", "", 9999)], "12345678901234567890", 10000)
      == ReserveReply(500, false, BackupInsufficientMessage)
  {
    var e := BackupEntry("12345678901234567890", "1234567", "", 50000);
    assert ReserveMatch([e][0], "12345678901234567890", 10000);
  }

  /** `callConsultService($rib)`: the SOLDECLIENT balance enquiry, with four criteria in a fixed
      order and the RIB's account number last. */
  function ConsultServiceCall(rib: string, ymd: string, his: string): (c: SoapCall)
    ensures c.operation == "SOLDECLIENT" && c.enquiry.enquiryType == "TRGENQACCOUNTSOLDE2Type"
    ensures |c.enquiry.criteria| == 4
    ensures forall i :: 0 <= i < 4 ==> c.enquiry.criteria[i].operand == "EQ"
    ensures c.enquiry.criteria[0].columnName == "RRN" && c.enquiry.criteria[0].criteriaValue == "123456789"
    ensures c.enquiry.criteria[1].columnName == "TR.DATE" && c.enquiry.criteria[1].criteriaValue == ymd
    ensures c.enquiry.criteria[2].columnName == "TR.HEURE" && c.enquiry.criteria[2].criteriaValue == his
    ensures c.enquiry.criteria[3].columnName == "ACCOUNT"
    ensures c.enquiry.criteria[3].criteriaValue == AccountNumber(rib)
    ensures |rib| >= 10 ==> rib == rib[..8] + c.enquiry.criteria[3].criteriaValue + rib[|rib| - 2..]
    ensures |rib| < 10 ==> c.enquiry.criteria[3].criteriaValue == ""
  {
    SoapCall("SOLDECLIENT", Enquiry("TRGENQACCOUNTSOLDE2Type", [
      Criterion("RRN", "123456789", "EQ"),
      Criterion("TR.DATE", ymd, "EQ"),
      Criterion("TR.HEURE", his, "EQ"),
      Criterion("ACCOUNT", AccountNumber(rib), "EQ")
    ]))
  }

  /** The code the live consultation switch leaves in `$http_code`: 200 on Success, 404 on a
      T24Error whose third message is "ERREUR COMPTE", 0 (never assigned) on any other
      T24Error, and 400 for any other or missing indicator. */
  function LiveHttpCode(raw: RawResult): (code: int)
    ensures code == 200 <==> IndicatorIn(raw) == Some("Success")
    ensures code == 404 <==> IndicatorIn(raw) == Some("T24Error") && MessageAt(MessagesIn(raw), 2) == Some(ErreurCompte)
    ensures code == 0 <==> IndicatorIn(raw) == Some("T24Error") && MessageAt(MessagesIn(raw), 2) != Some(ErreurCompte)
    ensures code == 400 <==> IndicatorIn(raw) != Some("Success") && IndicatorIn(raw) != Some("T24Error")
  {
    match IndicatorIn(raw)
    case Some("Success") => 200
    case Some("T24Error") => if MessageAt(MessagesIn(raw), 2) == Some(ErreurCompte) then 404 else 0
    case _ => 400
  }

  /** The live consultation answer: `success` holds exactly for 200, and `result` and
      `phone_number` are null unless the code is 200. */
  predicate LiveConsultShape(r: ConsultReply, code: int, otpSent: bool) {
    && r.httpCode == code
    && r.success == (code == 200)
    && r.result == (if code == 200 then Some(if otpSent then "1" else "0") else None)
    && r.phoneNumber == (if code == 200 then Some("12345678") else None)
    && r.sessionId == None
    && r.message == (if code == 200 then "test message SUCCESS" else "test message FAIL")
  }

  /** The Middleware object of `index.php`, with the `reservations` table as its state. */
  class Middleware {
    var reservations: seq<Reservation>

    constructor (existing: seq<Reservation>)
      ensures reservations == existing
    {
      reservations := existing;
    }

    /** `consultFromBackup`: scan the entries in order and answer with the first that matches. */
    method ConsultFromBackup(rib: string, checkNumber: string, backup: seq<BackupEntry>, sessionId: string)
      returns (r: ConsultReply)
      ensures r == BackupConsultReply(backup, rib, checkNumber, sessionId)
    {
      var i := 0;
      while i < |backup|
        invariant 0 <= i <= |backup|
        invariant forall j :: 0 <= j < i ==> !ConsultMatch(backup[j], rib, checkNumber)
      {
        var entry := backup[i];
        if entry.rib == rib && entry.checkNumber == checkNumber {
          return ConsultReply(200, true, Some("0"), Some(entry.phoneNumber), Some(sessionId), BackupHitMessage);
        }
        i := i + 1;
      }
      return ConsultReply(404, false, None, None, None, BackupMissMessage);
    }

    /** `reserveFromBackup`: scan the entries in order for one of the RIB that covers the amount. */
    method ReserveFromBackup(rib: string, amount: int, backup: seq<BackupEntry>) returns (r: ReserveReply)
      ensures r == BackupReserveReply(backup, rib, amount)
    {
      var i := 0;
      while i < |backup|
        invariant 0 <= i <= |backup|
        invariant forall j :: 0 <= j < i ==> !ReserveMatch(backup[j], rib, amount)
      {
        var entry := backup[i];
        if entry.rib == rib && entry.currentSolde >= amount {
          return ReserveReply(200, true, BackupReservedMessage);
        }
        i := i + 1;
      }
      return ReserveReply(500, false, BackupInsufficientMessage);
    }

    /** `reserveAmountInDatabase`: insert one row, or report the database failure `dbFails`
      and leave the table as it was. */
    method ReserveAmountInDatabase(rib: string, amount: int, reservedAt: string, dbFails: bool) returns (ok: bool)
      modifies this
      ensures ok == !dbFails
      ensures reservations == if ok then old(reservations) + [Reservation(rib, amount, reservedAt)] else old(reservations)
    {
      if dbFails {
        return false;
      }
      reservations := reservations + [Reservation(rib, amount, reservedAt)];
      return true;
    }

    /** `consultCheck`. In the window the answer comes from the backup data and the remote
      service is not called (the answer does not depend on `remote`); otherwise the balance
      enquiry goes out and its indicator picks the code. The phone number returned on 200 is the
      literal "12345678"; `otpSent` is what the OTP stub answers. */
    method ConsultCheck(sessionId: string, source: string, checkNumber: string, rib: string, securityKey: string,
                        clock: Clock, phoneBackup: seq<BackupEntry>, remote: Remote, otpSent: bool, freshSessionId: string)
      returns (r: ConsultReply)
      ensures IsT24Down(clock.hour, clock.minute) ==> r == BackupConsultReply(phoneBackup, rib, checkNumber, freshSessionId)
      ensures !IsT24Down(clock.hour, clock.minute) ==>
        LiveConsultShape(r, LiveHttpCode(remote(ConsultServiceCall(rib, clock.ymd, clock.his))), otpSent)
    {
      if IsT24Down(clock.hour, clock.minute) {
        r := ConsultFromBackup(rib, checkNumber, phoneBackup, freshSessionId);
        return;
      }
      var data := remote(ConsultServiceCall(rib, clock.ymd, clock.his));
      var httpCode := 0;
      match IndicatorIn(data) {
        case Some("Success") =>
          httpCode := 200;
        case Some("T24Error") =>
          if MessageAt(MessagesIn(data), 2) == Some(ErreurCompte) {
            httpCode := 404;
          }
        case _ =>
          httpCode := 400;
      }
      var ok := httpCode == 200;
      r := ConsultReply(
        httpCode, ok,
        if ok then Some(if otpSent then "1" else "0") else None,
        if ok then Some("12345678") else None,
        None,
        if ok then "test message SUCCESS" else "test message FAIL");
    }

    /** `reserveCheck`. In the window the answer comes from the backup data and the table is
      untouched. Otherwise no balance is checked: one row (rib, amount, timestamp) is inserted
      and the answer is 200, or, when the insert fails, 500 with the table unchanged. */
    method ReserveCheck(sessionId: string, amountInMillimes: int, source: string, checkNumber: string, rib: string,
                        securityKey: string, clock: Clock, soldeBackup: seq<BackupEntry>, dbFails: bool)
      returns (r: ReserveReply)
      modifies this
      ensures IsT24Down(clock.hour, clock.minute) ==>
        r == BackupReserveReply(soldeBackup, rib, amountInMillimes) && reservations == old(reservations)
      ensures !IsT24Down(clock.hour, clock.minute) && !dbFails ==>
        r == ReserveReply(200, true, "Amount reserved successfully") &&
        reservations == old(reservations) + [Reservation(rib, amountInMillimes, clock.timestamp)]
      ensures !IsT24Down(clock.hour, clock.minute) && dbFails ==>
        r == ReserveReply(500, false, "Failed to reserve amount") && reservations == old(reservations)
    {
      if IsT24Down(clock.hour, clock.minute) {
        r := ReserveFromBackup(rib, amountInMillimes, soldeBackup);
        return;
      }
      var reservationSuccess := ReserveAmountInDatabase(rib, amountInMillimes, clock.timestamp, dbFails);
      r := ReserveReply(
        if reservationSuccess then 200 else 500,
        reservationSuccess,
        if reservationSuccess then "Amount reserved successfully" else "Failed to reserve amount");
    }
  }
}
