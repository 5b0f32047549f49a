/** The request handlers of verification/views.py that hold logic: the
    confirm and deny transitions on a stored verification, the status
    lookup, and the tier dispatch of the bank-statement analysis. */
module Views {
  import opened Wrappers
  import opened JsonValues
  import opened Calendar
  import opened Models
  import opened Verifications

  const EmploymentConfirmed := "Employment confirmed."
  const EmploymentDenied := "Employment denied."
  const InvalidToken := "Invalid token."

  /** The form-encoded body posted to the callback endpoint. */
  datatype Callback = Callback(url: string, status: string, token: string)

  /** `os.environ.get("CALLBACK_URL", "")`. */
  function CallbackUrl(env: map<string, string>): (url: string)
    ensures "CALLBACK_URL" in env ==> url == env["CALLBACK_URL"]
    ensures "CALLBACK_URL" !in env ==> url == ""
  {
    if "CALLBACK_URL" in env then env["CALLBACK_URL"] else ""
  }

  /** `confirm_employment`: for a stored token, sets `is_verified` and stamps
      `verified_at` with the clock reading `now`, saves, then posts
      `{"status": "confirmed", "token": token}`; `status` is left as it was,
      and a repeated confirmation stamps `verified_at` again. For a missing
      or unknown token it answers "Invalid token." and changes nothing. */
  method ConfirmEmployment(db: VerificationTable, token: Option<string>, env: map<string, string>, now: Instant)
    returns (response: string, callback: Option<Callback>)
    requires db.Valid()
    modifies db
    ensures db.Valid()
    ensures token.Some? && token.value in old(db.rows) ==>
      && db.rows == old(db.rows)[token.value := old(db.rows)[token.value].(isVerified := true, verifiedAt := Some(now))]
      && response == EmploymentConfirmed
      && callback == Some(Callback(CallbackUrl(env), "confirmed", token.value))
    ensures !(token.Some? && token.value in old(db.rows)) ==>
      db.rows == old(db.rows) && response == InvalidToken && callback == None
  {
    var found := db.Get(token);
    match found {
      case None =>
        response, callback := InvalidToken, None;
      case Some(verification) =>
        verification.isVerified := true;
        verification.verifiedAt := Some(now);
        verification.Save(db);
        callback := Some(Callback(CallbackUrl(env), "confirmed", token.value));
        response := EmploymentConfirmed;
    }
  }

  /** `deny_employment`: for a stored token, clears `is_verified`, saves, then
      posts `{"status": "denied", "token": token}`; `verified_at` and `status`
      are left as they were. For a missing or unknown token it answers
      "Invalid token." and changes nothing. */
  method DenyEmployment(db: VerificationTable, token: Option<string>, env: map<string, string>)
    returns (response: string, callback: Option<Callback>)
    requires db.Valid()
    modifies db
    ensures db.Valid()
    ensures token.Some? && token.value in old(db.rows) ==>
      && db.rows == old(db.rows)[token.value := old(db.rows)[token.value].(isVerified := false)]
      && response == EmploymentDenied
      && callback == Some(Callback(CallbackUrl(env), "denied", token.value))
    ensures !(token.Some? && token.value in old(db.rows)) ==>
      db.rows == old(db.rows) && response == InvalidToken && callback == None
  {
    var found := db.Get(token);
    match found {
      case None =>
        response, callback := InvalidToken, None;
      case Some(verification) =>
        verification.isVerified := false;
        verification.Save(db);
        callback := Some(Callback(CallbackUrl(env), "denied", token.value));
        response := EmploymentDenied;
    }
  }

  /** The JSON answer of the status lookup. */
  datatype StatusInfo =
    | Found(token: string, status: string, isVerified: bool, verifiedAt: Option<int>)
    | TokenNotFound
  {
    /** The HTTP status code of the answer. */
    function Code(): int {
      if Found? then 200 else 404
    }
  }

  /** `get_employment_verification_info`: a read-only projection of the row
      with that token; `verified_at` is shown to the whole second, or None
      while unset. An unknown token gives "Token not found" with 404. */
  function GetEmploymentVerificationInfo(db: VerificationTable, token: string): (r: StatusInfo)
    reads db
    requires db.Valid()
    ensures r.Found? <==> token in db.rows
    ensures r.Code() == (if token in db.rows then 200 else 404)
    ensures r.Found? ==>
      var row := db.rows[token];
      && r.token == token
      && r.status == StatusName(row.status)
      && r.isVerified == row.isVerified
      && (r.verifiedAt.Some? <==> row.verifiedAt.Some?)
      && (row.verifiedAt.Some? ==> r.verifiedAt.value * MicrosPerSecond <= row.verifiedAt.value < (r.verifiedAt.value + 1) * MicrosPerSecond)
  {
    if token in db.rows then
      var row := db.rows[token];
      Found(row.token, StatusName(row.status), row.isVerified,
            if row.verifiedAt.Some? then Some(WholeSeconds(row.verifiedAt.value)) else None)
    else
      TokenNotFound
  }

  /** Issue a verification, confirm it and look it up: the lookup shows the
      stamp of the confirmation, `is_verified` set, and the status still
      "pending", since confirmation does not touch `status`. */
  method IssueConfirmLookup(token: string, data: Json, created: Instant, env: map<string, string>, confirmedAt: Instant)
    returns (info: StatusInfo)
    ensures info == Found(token, "pending", true, Some(WholeSeconds(confirmedAt)))
  {
    var db := new VerificationTable();
    var created' := db.Create(token, created, data);
    var response, callback := ConfirmEmployment(db, Some(token), env, confirmedAt);
    info := GetEmploymentVerificationInfo(db, token);
  }

  /** Confirm and then deny: `is_verified` ends false while `verified_at`
      keeps the confirmation stamp, so the token never expires afterwards. */
  method ConfirmThenDeny(token: string, data: Json, created: Instant, env: map<string, string>, confirmedAt: Instant, now: Instant)
    returns (info: StatusInfo, expired: bool)
    ensures info == Found(token, "pending", false, Some(WholeSeconds(confirmedAt)))
    ensures !expired
  {
    var db := new VerificationTable();
    var created' := db.Create(token, created, data);
    var r1, c1 := ConfirmEmployment(db, Some(token), env, confirmedAt);
    var r2, c2 := DenyEmployment(db, Some(token), env);
    info := GetEmploymentVerificationInfo(db, token);
    var instance := db.Get(Some(token));
    expired := instance.value.IsTokenExpired(now);
  }

  /** Deny a verification that was never confirmed: it stays undecided, so
      it still expires three working days after its creation. */
  method DenyBeforeConfirm(token: string, data: Json, created: Instant, env: map<string, string>, now: Instant)
    returns (info: StatusInfo, expired: bool)
    ensures info == Found(token, "pending", false, None)
    ensures expired <==> now > ExpirationInstant(created)
  {
    var db := new VerificationTable();
    var created' := db.Create(token, created, data);
    var r, c := DenyEmployment(db, Some(token), env);
    info := GetEmploymentVerificationInfo(db, token);
    var instance := db.Get(Some(token));
    expired := instance.value.IsTokenExpired(now);
  }

  /** Neither view consults `is_token_expired`: an undecided token past its
      expiry is still confirmed, and the lookup then shows it confirmed. */
  method ConfirmAfterExpiry(token: string, data: Json, created: Instant, env: map<string, string>, now: Instant)
    returns (expiredBefore: bool, response: string, info: StatusInfo)
    requires now > ExpirationInstant(created)
    ensures expiredBefore
    ensures response == EmploymentConfirmed
    ensures info == Found(token, "pending", true, Some(WholeSeconds(now)))
  {
    var db := new VerificationTable();
    var created' := db.Create(token, created, data);
    var instance := db.Get(Some(token));
    expiredBefore := instance.value.IsTokenExpired(now);
    var callback;
    response, callback := ConfirmEmployment(db, Some(token), env, now);
    info := GetEmploymentVerificationInfo(db, token);
  }

  /** One request that reaches the table: an employment-letter analysis
      that issues a verification, a confirmation link, or a denial link. */
  datatype Request =
    | IssueLetter(token: string, now: Instant, entities: Option<map<string, Json>>, answer: Option<Json>)
    | ConfirmLink(link: Option<string>, at: Instant)
    | DenyLink(link: Option<string>)

  /** Serves the requests in order against an empty table and answers the
      rows left at the end. Every row is still "pending", since no code
      path writes `status`, and every stored token was issued by a letter
      analysis, since confirming and denying never add a row. */
  method ServeRequests(requests: seq<Request>, env: map<string, string>)
    returns (rows: map<string, VerificationRow>)
    ensures forall t :: t in rows ==> rows[t].token == t && rows[t].status == Pending
    ensures forall t :: t in rows ==>
      exists i :: 0 <= i < |requests| && requests[i].IssueLetter? && requests[i].token == t
  {
    var db := new VerificationTable();
    for n := 0 to |requests|
      invariant db.Valid() && AllPending(db.rows)
      invariant forall t :: t in db.rows ==>
        exists i :: 0 <= i < n && requests[i].IssueLetter? && requests[i].token == t
    {
      match requests[n]
      case IssueLetter(token, now, entities, answer) =>
        var r := EmployeeLetter(db, token, now, entities, answer);
      case ConfirmLink(link, at) =>
        var response, callback := ConfirmEmployment(db, link, env, at);
      case DenyLink(link) =>
        var response, callback := DenyEmployment(db, link, env);
    }
    rows := db.rows;
  }

  // ---------------------------------------------------------------------
  // Bank-statement dispatch
  // ---------------------------------------------------------------------

  const CheckBackMessage := "Analysis on this PDF would take about 60 secs so please check back"
  const InvalidPdfType := "Invalid PDF type"

  /** A `process_pdf_task` invocation handed to the background worker. */
  datatype Job = Job(pdfType: int, url: string)

  /** The JSON answer of `BankStatementView.get`. */
  datatype AnalysisResponse<T> =
    | Completed(result: T)         // {"status": "completed", "result": result}
    | CheckBack(status: string)    // {"status": "Analysis on this PDF ... check back"}
    | Rejected(error: string)      // {"error": "Invalid PDF type"}, status 400
  {
    function Code(): int {
      if Rejected? then 400 else 200
    }
  }

  /** What the view answers and which jobs it leaves queued. */
  datatype Dispatch<T> = Dispatch(response: AnalysisResponse<T>, enqueued: seq<Job>)

  /** The tier branch of `BankStatementView.get`. `process` is what
      `process_pdf_task` computes for a tier and a URL. Tiers 1 and 2 run it
      in the request and answer its result; tier 3 queues one job and
      answers the check-back message; any other tier is a 400 error and
      nothing is queued. */
  function BankStatement<T>(pdfType: int, url: string, process: (int, string) -> T): (d: Dispatch<T>)
    ensures d.response.Completed? <==> pdfType in {1, 2}
    ensures d.response.Completed? ==> d.response.result == process(pdfType, url)
    ensures d.response.CheckBack? <==> pdfType == 3
    ensures d.response.CheckBack? ==> d.response.status == CheckBackMessage
    ensures d.response.Code() == 400 <==> pdfType !in {1, 2, 3}
    ensures d.response.Rejected? ==> d.response.error == InvalidPdfType
    ensures d.enqueued == (if pdfType == 3 then [Job(3, url)] else [])
  {
    if pdfType in [1, 2] then
      Dispatch(Completed(process(pdfType, url)), [])
    else if pdfType == 3 then
      Dispatch(CheckBack(CheckBackMessage), [Job(pdfType, url)])
    else
      Dispatch(Rejected(InvalidPdfType), [])
  }
}
