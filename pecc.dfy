/** `PeccMiddleware` (pecc.php): checks the API key, the bearer token and the JWT in turn,
    then stores the transaction as held and checks what the Monetique and PECC servers
    answered. Any exception becomes a 401 with the exception's message. */
module Pecc {
  import opened Wrappers
  import opened Php

  /** The entries of the configuration array that the middleware reads. */
  datatype Config = Config(apiKey: string, jwtSecret: string, jwtAlgo: string, apiKeyHeader: string, authHeader: string)

  /** `$_SERVER`, restricted to string values. */
  type Server = map<string, string>

  /** A check that either passes or throws an exception with a message. */
  datatype Guard = Pass | Fail(message: string)

  /** `str_replace('-', '_', strtoupper($c))` on one character. */
  function HeaderChar(c: char): char {
    if UpperChar(c) == '-' then '_' else UpperChar(c)
  }

  /** The `$_SERVER` key of a request header: "HTTP_", then the header name upper-cased with
      every '-' turned into '_'. */
  function HeaderKey(name: string): (key: string)
    ensures |key| == 5 + |name|
    ensures key[..5] == "HTTP_"
    ensures forall i :: 0 <= i < |name| ==> key[5 + i] == HeaderChar(name[i])
    ensures forall i :: 5 <= i < |key| ==> key[i] != '-' && !('a' <= key[i] <= 'z')
  {
    "HTTP_" + ReplaceChar(ToUpper(name), '-', '_')
  }

  /** A header key is fixed by its characters: the prefix, then one mapped character per name character. */
  lemma HeaderKeyByChars(name: string, expected: string)
    requires |expected| == 5 + |name| && expected[..5] == "HTTP_"
    requires forall i :: 0 <= i < |name| ==> expected[5 + i] == HeaderChar(name[i])
    ensures HeaderKey(name) == expected
  {
    var key := HeaderKey(name);
    forall i | 0 <= i < |key|
      ensures key[i] == expected[i]
    {
      if i < 5 {
        assert key[i] == key[..5][i] && expected[i] == expected[..5][i];
      } else {
        assert key[5 + (i - 5)] == HeaderChar(name[i - 5]);
      }
    }
  }

  /** The API key header of the shipped configuration. */
  lemma ApiKeyHeaderKey()
    ensures HeaderKey("X-API-Key") == "HTTP_X_API_KEY"
  {
    var name := "X-API-Key";
    assert HeaderChar('-') == '_' && HeaderChar('X') == 'X' && HeaderChar('A') == 'A';
    assert HeaderChar('P') == 'P' && HeaderChar('I') == 'I' && HeaderChar('K') == 'K';
    assert HeaderChar('e') == 'E' && HeaderChar('y') == 'Y';
    HeaderKeyByChars(name, "HTTP_X_API_KEY");
  }

  /** The Authorization header of the shipped configuration. */
  lemma AuthHeaderKey()
    ensures HeaderKey("Authorization") == "HTTP_AUTHORIZATION"
  {
    var name := "Authorization";
    assert HeaderChar('A') == 'A' && HeaderChar('u') == 'U' && HeaderChar('t') == 'T';
    assert HeaderChar('h') == 'H' && HeaderChar('o') == 'O' && HeaderChar('r') == 'R';
    assert HeaderChar('i') == 'I' && HeaderChar('z') == 'Z' && HeaderChar('a') == 'A' && HeaderChar('n') == 'N';
    HeaderKeyByChars(name, "HTTP_AUTHORIZATION");
  }

  /** `$server[key] ?? ''`. */
  function HeaderValue(server: Server, name: string): (value: string)
    ensures HeaderKey(name) in server ==> value == server[HeaderKey(name)]
    ensures HeaderKey(name) !in server ==> value == ""
  {
    if HeaderKey(name) in server then server[HeaderKey(name)] else ""
  }

  const ApiKeyError := "Invalid or missing API key."
  const AuthHeaderError := "Missing or invalid Authorization header."
  const TransactionDataError := "Invalid transaction data."

  /** `validateApiKey`: fails exactly when the header is empty (in PHP's sense, so "0" too) or
      differs from the configured key. */
  function ValidateApiKey(config: Config, server: Server): (g: Guard)
    ensures g.Pass? <==> HeaderValue(server, config.apiKeyHeader) == config.apiKey && !Empty(config.apiKey)
    ensures g.Fail? ==> g.message == ApiKeyError
  {
    var apiKey := HeaderValue(server, config.apiKeyHeader);
    if Empty(apiKey) || apiKey != config.apiKey then Fail(ApiKeyError) else Pass
  }

  /** `getBearerToken`: the Authorization header must start with "Bearer "; the token is what
      follows those seven characters. */
  function GetBearerToken(config: Config, server: Server): (r: Result<string, string>)
    ensures r.Success? <==> StartsWith(HeaderValue(server, config.authHeader), "Bearer ")
    ensures r.Success? ==> HeaderValue(server, config.authHeader) == "Bearer " + r.value
    ensures r.Failure? ==> r.error == AuthHeaderError
  {
    var authHeader := HeaderValue(server, config.authHeader);
    if Empty(authHeader) || !StartsWith(authHeader, "Bearer ") then Failure(AuthHeaderError)
    else Success(Substr(authHeader, 7, None))
  }

  /** A header carrying "Bearer " and a token yields exactly that token. */
  lemma BearerRoundTrip(config: Config, server: Server, token: string)
    ensures GetBearerToken(config, server[HeaderKey(config.authHeader) := "Bearer " + token]) == Success(token)
  {
    var s := server[HeaderKey(config.authHeader) := "Bearer " + token];
    assert HeaderValue(s, config.authHeader) == "Bearer " + token;
    assert ("Bearer " + token)[7..] == token;
  }

  /** What the JWT library does with a token, a secret and an algorithm. */
  datatype JwtVerdict = Decoded | Rejected(reason: string)

  type JwtDecoder = (string, string, string) -> JwtVerdict

  /** `validateJwtToken`: the library's rejection is rethrown with a prefix. */
  function ValidateJwtToken(config: Config, token: string, decode: JwtDecoder): (g: Guard)
    ensures g.Pass? <==> decode(token, config.jwtSecret, config.jwtAlgo).Decoded?
    ensures g.Fail? ==> g.message == "Invalid JWT token: " + decode(token, config.jwtSecret, config.jwtAlgo).reason
  {
    match decode(token, config.jwtSecret, config.jwtAlgo)
    case Decoded => Pass
    case Rejected(reason) => Fail("Invalid JWT token: " + reason)
  }

  /** The first three steps of `handle`, in order: API key, bearer token, JWT. The first that
      fails decides the message; the later ones are not reached. */
  function Authenticate(config: Config, server: Server, decode: JwtDecoder): (g: Guard)
    ensures ValidateApiKey(config, server).Fail? ==> g == ValidateApiKey(config, server)
    ensures ValidateApiKey(config, server).Pass? && GetBearerToken(config, server).Failure? ==>
      g == Fail(AuthHeaderError)
    ensures ValidateApiKey(config, server).Pass? && GetBearerToken(config, server).Success? ==>
      g == ValidateJwtToken(config, GetBearerToken(config, server).value, decode)
  {
    match ValidateApiKey(config, server)
    case Fail(m) => Fail(m)
    case Pass =>
      match GetBearerToken(config, server)
      case Failure(m) => Fail(m)
      case Success(token) => ValidateJwtToken(config, token, decode)
  }

  /** Once the API key is wrong, nothing about the Authorization header or the JWT matters. */
  lemma ApiKeyCheckedFirst(config: Config, server: Server, decode: JwtDecoder, decode': JwtDecoder, auth: string)
    requires ValidateApiKey(config, server).Fail?
    requires HeaderKey(config.authHeader) != HeaderKey(config.apiKeyHeader)
    ensures Authenticate(config, server[HeaderKey(config.authHeader) := auth], decode') == Fail(ApiKeyError)
    ensures Authenticate(config, server, decode) == Fail(ApiKeyError)
  {
    var s := server[HeaderKey(config.authHeader) := auth];
    assert HeaderValue(s, config.apiKeyHeader) == HeaderValue(server, config.apiKeyHeader);
  }

  /** The reply to a Monetique or PECC notification. */
  datatype ServerResponse = ServerResponse(success: bool, code: int, message: string)

  /** `handleServerResponses`: Monetique failure, then PECC failure, then Monetique code 414,
      then PECC code 415; the first that applies is reported. */
  function HandleServerResponses(monetique: ServerResponse, pecc: ServerResponse): (g: Guard)
    ensures g.Pass? <==> monetique.success && pecc.success && monetique.code != 414 && pecc.code != 415
    ensures !monetique.success ==> g == Fail("Monetique server error: " + monetique.message)
    ensures monetique.success && !pecc.success ==> g == Fail("PECC server error: " + pecc.message)
    ensures monetique.success && pecc.success && monetique.code == 414 ==>
      g == Fail("Cheque blocked due to opposition on Monetique server.")
    ensures monetique.success && pecc.success && monetique.code != 414 && pecc.code == 415 ==>
      g == Fail("Cheque associated account under banking prohibition on PECC server.")
  {
    if !monetique.success then Fail("Monetique server error: " + monetique.message)
    else if !pecc.success then Fail("PECC server error: " + pecc.message)
    else if monetique.code == 414 then Fail("Cheque blocked due to opposition on Monetique server.")
    else if pecc.code == 415 then Fail("Cheque associated account under banking prohibition on PECC server.")
    else Pass
  }

  /** A failed Monetique reply hides whatever PECC answered. */
  lemma MonetiqueFailureFirst(monetique: ServerResponse, pecc: ServerResponse, pecc': ServerResponse)
    requires !monetique.success
    ensures HandleServerResponses(monetique, pecc) == HandleServerResponses(monetique, pecc')
  {
  }

  /** The fixed replies `notifyMonetique` and `notifyPecc` give in place of the real servers. */
  const MonetiquePlaceholder := ServerResponse(true, 200, "Amount held successfully on Monetique server.")
  const PeccPlaceholder := ServerResponse(true, 200, "Amount held successfully on PECC server.")

  /** With the placeholder replies the server check always passes, whatever the servers' codes
      would otherwise have decided. */
  lemma PlaceholdersPass()
    ensures HandleServerResponses(MonetiquePlaceholder, PeccPlaceholder) == Pass
  {
  }

  /** The request body fields the middleware reads; `None` is a missing or null field. */
  datatype RequestBody = RequestBody(amount: Option<int>, chequeNumber: Option<string>)

  /** A row of the `transactions` table. */
  datatype Transaction = Transaction(chequeNumber: string, amount: int, status: string)

  /** The JSON object `handle` echoes, with the status code it leaves set (200 when unset). */
  datatype Reply = Reply(httpCode: int, success: bool, message: string)

  const SuccessMessage := "Transaction processed successfully."

  class PeccMiddleware {
    /** Set once, by `loadConfig`, in the constructor. */
    const config: Config
    var transactions: seq<Transaction>

    constructor (config: Config, existing: seq<Transaction>)
      ensures this.config == config && transactions == existing
    {
      this.config := config;
      transactions := existing;
    }

    /** `storeTransaction`: insert one 'held' row, or fail with the database's message and
      insert nothing. */
    method StoreTransaction(chequeNumber: string, amount: int, dbError: Option<string>) returns (g: Guard)
      modifies this
      ensures g == if dbError.Some? then Fail(dbError.value) else Pass
      ensures transactions == if dbError.None? then old(transactions) + [Transaction(chequeNumber, amount, "held")]
                              else old(transactions)
    {
      if dbError.Some? {
        return Fail(dbError.value);
      }
      transactions := transactions + [Transaction(chequeNumber, amount, "held")];
      return Pass;
    }

    /** `processTransaction`: with a field missing nothing is stored; otherwise the row is stored
      first, and the server replies are checked afterwards without undoing the insert. */
    method ProcessTransaction(body: RequestBody, dbError: Option<string>,
                              monetique: ServerResponse, pecc: ServerResponse) returns (g: Guard)
      modifies this
      ensures body.amount.None? || body.chequeNumber.None? ==>
        g == Fail(TransactionDataError) && transactions == old(transactions)
      ensures body.amount.Some? && body.chequeNumber.Some? && dbError.Some? ==>
        g == Fail(dbError.value) && transactions == old(transactions)
      ensures body.amount.Some? && body.chequeNumber.Some? && dbError.None? ==>
        g == HandleServerResponses(monetique, pecc) &&
        transactions == old(transactions) + [Transaction(body.chequeNumber.value, body.amount.value, "held")]
    {
      if body.amount.None? || body.chequeNumber.None? {
        return Fail(TransactionDataError);
      }
      var stored := StoreTransaction(body.chequeNumber.value, body.amount.value, dbError);
      if stored.Fail? {
        return stored;
      }
      g := HandleServerResponses(monetique, pecc);
    }

    /** `handle`: every failing step, the transaction data included, gives 401 with that
      step's message; a request that passes them all gives success. */
    method Handle(server: Server, body: RequestBody, decode: JwtDecoder, dbError: Option<string>,
                  monetique: ServerResponse, pecc: ServerResponse) returns (reply: Reply)
      modifies this
      ensures Authenticate(config, server, decode).Fail? ==>
        reply == Reply(401, false, Authenticate(config, server, decode).message) && transactions == old(transactions)
      ensures Authenticate(config, server, decode).Pass? && (body.amount.None? || body.chequeNumber.None?) ==>
        reply == Reply(401, false, TransactionDataError) && transactions == old(transactions)
      ensures Authenticate(config, server, decode).Pass? && body.amount.Some? && body.chequeNumber.Some? ==>
        && transactions == (if dbError.None? then old(transactions) + [Transaction(body.chequeNumber.value, body.amount.value, "held")]
                            else old(transactions))
        && reply == (if dbError.Some? then Reply(401, false, dbError.value)
                     else if HandleServerResponses(monetique, pecc).Fail? then Reply(401, false, HandleServerResponses(monetique, pecc).message)
                     else Reply(200, true, SuccessMessage))
      ensures reply.success <==> reply.httpCode == 200
    {
      var auth := Authenticate(config, server, decode);
      if auth.Fail? {
        return Reply(401, false, auth.message);
      }
      var processed := ProcessTransaction(body, dbError, monetique, pecc);
      if processed.Fail? {
        return Reply(401, false, processed.message);
      }
      return Reply(200, true, SuccessMessage);
    }
  }
}
