# PECC cheque middleware — a Dafny model

The PECC middleware stands between a cheque-payment front end and a bank's systems. It offers
two operations on a cheque:

- **consult** checks a cheque and returns the holder's phone number for an OTP.
- **reserve** reserves the cheque amount, in millimes, on the drawer's account.

Both go to the T24 core-banking platform by a SOAP enquiry. Each request carries the account
number, which is the RIB without its first eight and last two characters. The response's
`Status.successIndicator` (`Success` or `T24Error`) and its third message (`ERREUR COMPTE`)
decide the HTTP status code. T24 is down for maintenance before 07:30 and from 21:00. During
that window the first draft answers from backup data instead.

The repository holds two drafts of this middleware and a third, separate component:

- **`index.php`** (module `IndexMiddleware`, class `Middleware`):
  - decides availability by the clock;
  - in the maintenance window, answers from backup records;
  - otherwise sends one balance enquiry to consult a cheque, and inserts a reservation row
    when reserving.
- **`src/Middleware.php` and `src/Utils.php`** (modules `SrcMiddleware` and `Utils`): the later
  draft.
  - It always calls T24, with a WSWORKFLOWCHQ enquiry to consult and a SOLDECLIENT balance
    enquiry to reserve.
  - It guards each response with `Utils::evalResponse`.
  - A reservation is granted when the balance in millimes covers the amount.
- **`pecc.php`** (module `Pecc`, class `PeccMiddleware`): a request handler. It checks, in
  order:
  - an API key header;
  - a `Bearer` token;
  - the token's JWT signature.

  It then stores the transaction as `held` and checks the Monetique and PECC server replies.
  Any failure becomes HTTP 401 with the failing step's message.

`normalizeArrayKeys`, which trims every key of a nested array, is modelled once, in module
`ArrayKeys`. Both drafts carry an identical copy of it.

Modules `Php` and `Gateway` hold the shared pieces:

- the PHP 8 built-ins the code relies on, with PHP's own edge cases written out:
  - `substr` past the end, and with a negative length;
  - `trim`'s six characters;
  - `empty("0")`;
  - ASCII-only `strtoupper`;
- the shape of a T24 request and of its decoded response.

External effects are parameters:

- The SOAP service is a function `Remote` from request to decoded response.
- The clock is a `Clock` value.
- The database's failure is a flag or an error message.
- The JWT library is a decoder function.
- The backup files are lists of records.

Module `Drafts` relates the two middleware drafts where they implement the same step.

The model follows the code as written, including where it behaves in ways a reader might not
expect:

- In `index.php`, a `T24Error` whose third message is not `ERREUR COMPTE` leaves the code at 0.
  In `src`, `processConsultResponse` and `processReserveResponse` return null in that case.
- In `src`, a response with no indicator gives 400, not 500. The method reads
  `$responseEval['successIndicator']` from `evalResponse`'s 500 error array, which has no such
  key, so the value is null and the switch falls to its default case.
- In `index.php`, the live reserve path calls no remote service and checks no balance. It only
  inserts a row.
- In `index.php`, consult sends the same SOLDECLIENT enquiry that `src` uses to reserve.
- In `index.php`, the live consult reply has the phone number `12345678`.
- In `index.php`, the backup `current_solde` is compared as it stands with the amount in
  millimes.

## Model

| member | source | states |
|---|---|---|
| Php.Substr | src/Middleware.php:42 | `substr` with a start past the end is ""; otherwise a prefix of the rest; an omitted length takes all of it; a negative length drops that many characters from the end, down to "" |
| Php.Trim | src/Utils.php:9 | the result is a contiguous piece of the input; everything removed on either side is one of the six trim characters; the result neither starts nor ends with one |
| Php.TrimIdempotent | src/Utils.php:9 | trimming an already trimmed key changes nothing |
| Php.ToUpper | pecc.php:50 | same length; each character upper-cased in ASCII only |
| Php.ReplaceChar | pecc.php:50 | same length; every '-' becomes '_' and every other character stays |
| Gateway.MessageAt | src/Middleware.php:65 | `messages[2]` exists exactly when the list is present and has more than two entries, and then it is that entry |
| Gateway.AccountNumber | src/Middleware.php:42 | for a RIB of at least ten characters, the account number is what remains after the first eight and the last two; shorter RIBs give "" |
| Gateway.ExampleRibAccount | index.php:107-108 | the RIB 26016000890125816427 yields account 8901258164 |
| Utils.IsT24Down | src/Utils.php:18-22 | within a day, T24 is down exactly before 07:30 and from 21:00 |
| Utils.EvalResponse | src/Utils.php:27-40 | the response is invalid exactly when `Status` or its indicator is missing, and then the result is the 500 error array; otherwise it returns the indicator and the messages, with [] for missing messages |
| Utils.IndicatorOf | src/Middleware.php:51 | reading `successIndicator` from the guard's result gives null for the error array, which has no such key, and the indicator otherwise |
| Utils.MessagesOf | src/Middleware.php:52 | reading `messages` from the guard's result gives null for the error array, and the messages otherwise |
| Utils.IndicatorPassesThrough | src/Middleware.php:50-51 | the indicator the callers read after the guard is the response's own, and null for an invalid response |
| Utils.MessagePassesThrough | src/Middleware.php:50-52 | the third message read after the guard is the response's third message |
| ArrayKeys.Put | src/Utils.php:13 | an assignment adds the key, keeps the length when the key exists, and grows the array by at most one |
| ArrayKeys.PutLookup | src/Utils.php:13 | after `$a[$k] = $v`, key k reads v and every other key reads what it read before |
| ArrayKeys.PutElements | src/Utils.php:13 | an assignment introduces no item but the assigned one |
| ArrayKeys.PutUnique | src/Utils.php:13 | an assignment keeps keys distinct |
| ArrayKeys.PutFresh | src/Utils.php:13 | assigning a new key appends it at the end |
| ArrayKeys.Collect | src/Utils.php:7-15 | assigning the items in order builds an array with distinct keys, exactly the given keys, and no more items than were given |
| ArrayKeys.CollectLookup | src/Utils.php:7-15 | each key of the built array holds the value of the last item with that key |
| ArrayKeys.CollectElements | src/Utils.php:7-15 | the built array holds only given items |
| ArrayKeys.CollectUnique | src/Utils.php:7-15 | items whose keys are already distinct come out unchanged and in order |
| ArrayKeys.Normalize | src/Utils.php:10-12 | non-array values are kept as they are; arrays stay arrays |
| ArrayKeys.NormalizeItems | src/Utils.php:6-16 | the result's keys are distinct and are exactly the trimmed input keys; it is never longer than the input |
| ArrayKeys.NormalizeArrayKeys | index.php:45-55 | the loop over the items, with its recursive call on array values, computes the normalised array |
| ArrayKeys.LaterKeyWins | src/Utils.php:13 | when several keys trim to the same string, that key holds the last one's normalised value |
| ArrayKeys.NormalizeIsNormal | src/Utils.php:6-16 | the result has trimmed, distinct keys at every depth |
| ArrayKeys.NormalIsFixed | src/Utils.php:6-16 | an array whose keys are already trimmed and distinct at every depth is returned unchanged |
| ArrayKeys.Idempotent | src/Utils.php:6-16 | normalising a normalised array changes nothing |
| SrcMiddleware.PrepareConsultParams | src/Middleware.php:33-46 | a WSWORKFLOWCHQType enquiry with exactly one criterion, NUM.COMPTE EQ the RIB's account number |
| SrcMiddleware.PrepareReserveParams | src/Middleware.php:90-106 | a TRGENQACCOUNTSOLDE2Type enquiry with four EQ criteria in order: RRN 123456789, TR.DATE the date, TR.HEURE the time, ACCOUNT the account number, which is "" for a RIB under ten characters |
| SrcMiddleware.ProcessConsultResponse | src/Middleware.php:48-78 | Success gives 200 with result "1", "avec OTP" and the payload's phone; T24Error with ERREUR COMPTE gives 404, any other T24Error null; anything else, an invalid response included, gives 400 |
| SrcMiddleware.AvailableMillimes | src/Middleware.php:114 | a missing SOLDE reads as 0 millimes, as `floatval(null) * 1000` does; otherwise the response's balance |
| SrcMiddleware.ProcessReserveResponse | src/Middleware.php:108-140 | on Success, 200 exactly when the balance in millimes (missing reads 0) covers the amount, else 412; T24Error gives 404 for ERREUR COMPTE, else null; anything else gives 400 |
| SrcMiddleware.ConsultCheck | src/Middleware.php:22-31 | the WSWORKFLOWCHQ call on the account number always goes out, and the reply is exactly `processConsultResponse` of its answer; 200 exactly when it answers Success, and then the phone number is the response's |
| SrcMiddleware.ReserveCheck | src/Middleware.php:80-88 | the SOLDECLIENT call always goes out, and the reply is exactly `processReserveResponse` of its answer and the amount; confirmed exactly when it answers Success with enough balance, refused with 412 exactly when the balance is short |
| SrcMiddleware.ReserveThreshold | src/Middleware.php:118 | a balance equal to the amount is enough, and one that covers an amount covers every smaller one |
| SrcMiddleware.FirstTwoMessagesIgnored | src/Middleware.php:65 | only the third message is read: changing the first two changes no outcome |
| IndexMiddleware.IsT24Down | index.php:161-168 | within a day, T24 is down exactly before 07:30 and from 21:00 |
| IndexMiddleware.WindowEdges | index.php:161-168 | 07:29 and 21:00 are down; 07:30, 20:00 and 20:59 are up |
| IndexMiddleware.WholeHoursUp | index.php:165 | every time from 08:00 to 20:59 is up |
| IndexMiddleware.FirstConsultMatch | index.php:174-175 | finds the first entry whose RIB and cheque number both match, or reports that none does |
| IndexMiddleware.BackupConsultReply | index.php:170-192 | the backup consultation answers 200 or 404, success exactly with 200; 200 exactly when some entry matches, with the phone number of the first match |
| IndexMiddleware.BackupConsultFirstMatch | index.php:170-192 | a backup consultation answers 200 exactly when some entry matches, with the first match's phone number, result "0" and a fresh session id; otherwise 404 "Data not found in backup" and nothing else |
| IndexMiddleware.LaterEntriesIgnored | index.php:174-184 | entries after the first match never change the answer |
| IndexMiddleware.BackupReserveReply | index.php:194-213 | the backup reservation answers 200 or 500, success exactly with 200; 200 exactly when some entry for the RIB holds at least the amount |
| IndexMiddleware.BackupReserveCases | index.php:194-213 | a backup reservation succeeds exactly when some entry for the RIB holds at least the amount; otherwise 500 "Insufficient funds in backup" |
| IndexMiddleware.BackupReserveScenario | index.php:194-213 | at 03:00 a balance of 50000 covers 10000; no entry for the RIB, or a balance of 9999, gives 500 |
| IndexMiddleware.ConsultServiceCall | index.php:57-66 | the consult enquiry is SOLDECLIENT with the four balance-enquiry criteria in order; the ACCOUNT value is the RIB's account number, "" for a RIB under ten characters |
| IndexMiddleware.LiveHttpCode | index.php:112-127 | 200 exactly on Success; 404 exactly on T24Error with ERREUR COMPTE; 0 exactly on any other T24Error; 400 exactly otherwise |
| IndexMiddleware.Middleware.ConsultFromBackup | index.php:170-192 | the loop returns the reply for the first matching entry, or 404 |
| IndexMiddleware.Middleware.ReserveFromBackup | index.php:194-213 | the loop returns 200 once an entry for the RIB covers the amount, or 500 |
| IndexMiddleware.Middleware.ReserveAmountInDatabase | index.php:225-240 | succeeds exactly when the database does, and then appends one row (rib, amount, timestamp); otherwise the table is unchanged |
| IndexMiddleware.Middleware.ConsultCheck | index.php:100-142 | in the window, the backup answer; otherwise the live code of the balance enquiry, with success exactly on 200, result "1"/"0" from the OTP, and phone "12345678" only on 200 |
| IndexMiddleware.Middleware.ReserveCheck | index.php:144-159 | in the window, the backup answer and no insert; otherwise 200 with one row added, or 500 with the table unchanged |
| Drafts.SameMaintenanceWindow | src/Utils.php:18-22 | both drafts use the same maintenance window |
| Drafts.LiveConsultCodesAgree | index.php:112-127 | `src` returns null exactly where `index.php` leaves code 0; otherwise both give the same code |
| Drafts.IndexConsultIsReserveEnquiry | index.php:57-91 | `index.php`'s consult enquiry is `src`'s reserve enquiry, not `src`'s consult enquiry |
| Pecc.HeaderKey | pecc.php:50 | the server key is "HTTP_" and then the header name, upper-cased with '-' as '_', one character for one |
| Pecc.ApiKeyHeaderKey | pecc.php:50 | the header X-API-Key is read from HTTP_X_API_KEY |
| Pecc.AuthHeaderKey | pecc.php:58 | the header Authorization is read from HTTP_AUTHORIZATION |
| Pecc.HeaderValue | pecc.php:50 | a header reads as its `$_SERVER` entry, and as "" when that entry is absent |
| Pecc.ValidateApiKey | pecc.php:48-54 | passes exactly when the header equals the configured key and that key is non-empty in PHP's sense ("0" is empty) |
| Pecc.GetBearerToken | pecc.php:56-64 | succeeds exactly when the header starts with "Bearer ", and the header is then "Bearer " followed by the token |
| Pecc.BearerRoundTrip | pecc.php:56-64 | a header "Bearer " + t yields the token t |
| Pecc.ValidateJwtToken | pecc.php:66-73 | passes exactly when the decoder accepts; a rejection is reported with the prefix "Invalid JWT token: " |
| Pecc.Authenticate | pecc.php:27-29 | the API key is checked first, then the Authorization header, then the JWT; the first failure decides |
| Pecc.ApiKeyCheckedFirst | pecc.php:27-29 | with a bad API key, no Authorization header and no decoder changes the outcome |
| Pecc.HandleServerResponses | pecc.php:122-140 | passes exactly when both servers succeeded, Monetique's code is not 414 and PECC's not 415; failures are reported in the order Monetique error, PECC error, 414, 415 |
| Pecc.MonetiqueFailureFirst | pecc.php:124-126 | a Monetique failure hides whatever PECC answered |
| Pecc.PlaceholdersPass | pecc.php:102-120 | the fixed replies of the notification stubs always pass the server check |
| Pecc.PeccMiddleware.StoreTransaction | pecc.php:92-100 | appends one ('held') row, or fails with the database's message and changes nothing |
| Pecc.PeccMiddleware.ProcessTransaction | pecc.php:75-90 | a missing amount or cheque number fails with nothing stored; otherwise the row is stored before the server replies are checked, and is kept when they fail |
| Pecc.PeccMiddleware.Handle | pecc.php:24-38 | any failing step gives 401 with its message; a request that passes every step gives 200 "Transaction processed successfully."; success holds exactly with 200 |

## Left out

- SOAP transport: there are no WSDL URLs, `SoapClient` or `SoapFault`. A `SoapFault` or other
  exception raised by the call is not modelled. The remote service is a total function from
  request to decoded response.
- Credentials: the `WebRequestCommon` user, password and company are not part of the modelled
  enquiries.
- JSON encoding and decoding: the model works on the decoded values.
- The database connection (PDO), `die` on a failed connection, and `error_log`. A failed insert
  is a parameter (`dbFails` or `dbError`).
- Configuration loading: `.env` and `config.php`, including the "Configuration file not found."
  exception from the constructor. The `Config` value is given directly. The backup files are
  given as entry lists, so reading and decoding them is not modelled; neither is the
  environment variable that names them.
- `date()`: the hour, minute and timestamp strings are fields of a `Clock` value. Parsing them
  from `date('H')` and `date('i')` is not modelled.
- `Uuid::uuid4()`: the fresh session id is a parameter.
- `fetchPhoneNumberFromCheckHolder` and `sendOTP` are stubs. The stubbed phone number is unused,
  and the OTP result is a parameter.
- Context files that are not modelled:
  - `src/Routes.php`, the route table for the `src` draft;
  - `src/Database.php`, the database wrapper with `executeQuery` and `insertReservation`;
  - `src/Service/SoapService.php`, whose `callService` rethrows a `SoapFault` as an `Exception`;
  - the request routing at the bottom of `index.php`;
  - the unimplemented methods that follow `processReserveResponse` in `src/Middleware.php`.
- JWT decoding internals (`Firebase\JWT`): the decoder is a parameter.
- Pecc.PeccMiddleware.ProcessTransaction: `notifyMonetique` and `notifyPecc` are placeholders.
  Their replies are parameters, so the model covers every reply; `Pecc.PlaceholdersPass` states
  what the fixed replies give.
- Pecc.PeccMiddleware.StoreTransaction: the amount is an integer. Floating point, and the
  `TypeError` that `strict_types` raises for a non-string cheque number, are not modelled.
  A `TypeError` is not an `Exception`, so it escapes `handle` uncaught.
- SrcMiddleware.AvailableMillimes: `floatval(SOLDE) * 1000` is taken as an exact integer
  number of millimes. Float parsing and rounding are not modelled.
- ArrayKeys.NormalizeItems: keys are strings only. PHP's integer keys, and numeric-string keys
  that PHP turns into integers, are not modelled.
- Gateway.RawResult: a null property and an absent one are the same `None`. PHP's loose `switch`
  comparison is taken as string equality, which holds for string indicators and messages.
- IndexMiddleware.BackupEntry: a backup record missing `rib`, `check_number` or `current_solde`
  is not modelled; every record has all fields. Each field also has one fixed type (strings,
  and an integer for `current_solde`). The scans compare decoded JSON with `===`, so a
  `rib` or `check_number` stored as a JSON number never matches the request's string; the
  model cannot show that case.
- PHP strings are byte strings: `substr` offsets and `strtoupper` work per byte, while the
  model's `string` is a sequence of characters. The two agree on ASCII text, which is what the
  RIBs and header names the code handles consist of; multi-byte characters are not modelled.
- The reservation table has no uniqueness constraint in the code, and the model imposes none:
  the same cheque can be reserved twice.
