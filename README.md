# Employment and age verification: a Dafny model

This project models the verification core of a Django service that checks
documents for a mortgage platform:

- the `EmploymentVerification` record: its fields and defaults, the table
  that stores it under a unique token, and `is_token_expired`, which counts
  three Monday-to-Friday days from creation;
- the views that confirm or deny an employment verification by token, the
  read-only status lookup, and the tier dispatch of the bank-statement
  analysis;
- the pure logic of `verifications.py`: the domain taken from an
  organisation's website URL, the projection of an enrichment (Apollo)
  answer, the age computed from birth-certificate entities, and the
  evidence payload that `employee_letter` assembles and stores as a pending
  verification.

Modules, one file each:

- `Wrappers`: `Option` and `Result`.
- `JsonValues`: JSON values, and `dict.get` with and without a default.
- `Calendar`: instants in microseconds since 0001-01-01 00:00 UTC. It gives
  the weekday (Monday is 0, as Python's `weekday()`), whole days added as
  `timedelta(days=k)`, and the calendar dates `datetime` accepts.
- `PyText`: the Python string builtins the code relies on. These are
  `lstrip` with a character set, `replace`, `find`, ASCII `lower`, `strip`,
  and `int()` in base 10.
- `Models`: the record, the expiry rule and the table. The table is a class
  whose `rows` map is updated in place. A loaded model instance is a class
  whose fields the views assign before `save`. `is_token_expired` is a loop
  proved against a closed-form expiry instant.
- `Views`: `confirm_employment`, `deny_employment`,
  `get_employment_verification_info` and `BankStatementView.get`.
- `Verifications`: `extract_domain_from_url`, `extract_apollo_data`, the
  age rule of `birth_certificate`, and the payload and record creation of
  `employee_letter`.

Clock readings (`timezone.now()`, `datetime.now()`), the random token
(`uuid4().hex`), the environment (`CALLBACK_URL`), the extracted entities
and the enrichment answer are parameters. The callback POST is returned as
a value rather than sent.

Behaviours of the code that the model reproduces as written:

- Confirming or denying sets `is_verified` (and, on confirm, `verified_at`).
  Neither changes `status`, which stays "pending" for every row the code
  creates. A repeated confirmation stamps `verified_at` again. A denial
  after a confirmation leaves `verified_at` set, so that token never
  expires.
- Neither view calls `is_token_expired`, so a token past its expiry is
  still confirmed (`Views.ConfirmAfterExpiry`).
- The "no source" sentinel replaces `sources` only when every source value
  is None. The letter's representative entry is always a mapping, so the
  sentinel is never used as written. `Verifications.SourcesAreNeverAllNone`
  proves this, and `Verifications.Payload` states it.
- The tier-3 answer of the bank-statement view carries its message under
  the key "status".

## Model

| member | source | states |
|---|---|---|
| Models.StatusName | verification/models.py:8-15 | each status choice is stored as one of "pending", "verified", "not_verified" |
| Calendar.AddDaysShiftsCalendar | verification/models.py:39-40 | adding k days moves the day number by k and the weekday by k modulo 7, and keeps the time of day |
| Models.ExpirationIsThirdBusinessDay | verification/models.py:34-41 | the closed-form expiry lies 3 to 5 days after creation, on a weekday, at the creation time of day; exactly three weekdays lie in (creation, expiry], and fewer than three lie in any shorter span |
| Models.BusinessDaysMonotone | verification/models.py:38-41 | the count of weekdays reached never decreases as more days are stepped |
| Models.EmploymentVerification.IsTokenExpired | verification/models.py:26-43 | the day-stepping loop answers exactly the reference rule: not yet verified and `now` strictly after the third weekday after creation |
| Models.ThursdayExpiresNextTuesday | verification/models.py:36-43 | a token created on a Thursday expires the next Tuesday at the same time of day |
| Models.DecidedTokenNeverExpires | verification/models.py:30-31 | a token whose `verified_at` is set is never expired |
| Models.ExpiryIsStrict | verification/models.py:43 | at the expiry instant the token is still valid; one microsecond later it is expired |
| Models.ExpiryIsMonotone | verification/models.py:43 | once expired, a token is expired at every later instant |
| Models.NewRowIsPendingAndValidForThreeDays | verification/models.py:15-18 | a new row is pending and unverified, and is not expired within three days of its creation |
| Models.VerificationTable.Get | verification/views.py:33-36 | lookup by token: `DoesNotExist` (None) exactly when the token is missing or not stored; otherwise a fresh instance holding that row |
| Models.VerificationTable.Create | verification/verifications.py:345-350 | inserts a pending, unverified, undecided row under the token exactly when the token is not yet stored (unique token); otherwise changes nothing |
| Models.EmploymentVerification.Save | verification/models.py:45-49 | writes the instance's fields to the row with its token and touches no other row |
| Views.CallbackUrl | verification/views.py:34 | the configured callback URL, or "" when unset |
| Views.ConfirmEmployment | verification/views.py:32-46 | for a stored token: sets `is_verified` and stamps `verified_at` with now, leaves every other field and row unchanged, answers "Employment confirmed." and posts status "confirmed" with the token; otherwise "Invalid token.", no post, no change |
| Views.DenyEmployment | verification/views.py:49-62 | for a stored token: clears `is_verified` and leaves `verified_at`, `status` and other rows unchanged, answers "Employment denied." and posts status "denied"; otherwise "Invalid token.", no post, no change |
| Views.GetEmploymentVerificationInfo | verification/views.py:65-80 | 200 with the row's token, status name and `is_verified`, and `verified_at` to the whole second (None when unset), exactly when the token is stored; 404 otherwise |
| Views.IssueConfirmLookup | verification/views.py:32-80 | issue, confirm, look up: the lookup shows `is_verified` true, the confirmation second, and status still "pending" |
| Views.ConfirmThenDeny | verification/views.py:32-62 | confirm then deny: `is_verified` ends false, `verified_at` keeps the confirmation stamp, and the token never expires |
| Views.DenyBeforeConfirm | verification/views.py:49-62 | a denial before any confirmation leaves the token undecided: it expires exactly when the reference rule says so |
| Views.ConfirmAfterExpiry | verification/views.py:32-46 | confirmation does not check expiry: a token whose expiry has passed is reported expired, is still confirmed, and then shows as confirmed at that second |
| Views.ServeRequests | verification/views.py:32-62 | over any sequence of letter analyses, confirmations and denials from an empty table, every row stays "pending" and is stored under its own token, and every stored token was issued by a letter analysis |
| Views.BankStatement | verification/views.py:101-119 | tiers 1 and 2 answer the processing result in the request; tier 3 queues exactly one job and answers the check-back message; every other tier is a 400 "Invalid PDF type" with nothing queued |
| PyText.LStrip | verification/verifications.py:53 | `lstrip` returns a suffix that does not start with a stripped character, and only stripped characters were removed |
| PyText.LStripIdempotent | verification/verifications.py:53 | stripping a second time removes nothing |
| PyText.ParseIntOfDecimalString | verification/verifications.py:192-194 | `int()` reads back the decimal spelling of every integer |
| Verifications.Netloc | verification/verifications.py:51-52 | the netloc holds no '/', '?', '#', tab, CR or LF, and contains '[' exactly when it contains ']'; a ValueError arises only from a '[' or ']' in the URL |
| Verifications.SchemeUrlNetloc | verification/verifications.py:51-52 | for `scheme://host` followed by an empty path or one starting with '/', '?' or '#', the netloc is exactly `host` |
| Verifications.SchemeUrlDomain | verification/verifications.py:47-53 | for such a URL with a non-empty host, the domain is the host with its leading 'w' and '.' stripped |
| Verifications.WwwPrefixIsRemoved | verification/verifications.py:47-53 | "https://www." + host + "/" gives the host stripped of "www." (and of any further leading 'w' or '.') |
| PyText.LStripDropsPrefix | verification/verifications.py:53 | a prefix made only of stripped characters falls away: stripping it plus a rest equals stripping the rest |
| Verifications.ExtractDomainFromUrl | verification/verifications.py:47-53 | fails exactly when `urlparse` raises; the domain is a suffix of the netloc (or of the whole URL when the netloc is empty), does not start with 'w' or '.', and only 'w' and '.' were removed before it |
| Verifications.DomainStripIsIdempotent | verification/verifications.py:53 | an extracted domain is unchanged by a second strip |
| Verifications.BareHostIsStrippedWhole | verification/verifications.py:51-53 | a URL with no ':' and no leading "//" is stripped whole, since its netloc is empty |
| Verifications.LeadingWIsStripped | verification/verifications.py:53 | the set semantics of `lstrip("www.")`: any bare host after a single 'w' loses that 'w' |
| Verifications.WikipediaLosesItsW | verification/verifications.py:53 | "wikipedia.org" becomes "ikipedia.org" |
| Verifications.ExtractApolloData | verification/verifications.py:88-106 | defined exactly for answers with a first person and an organisation holding the read keys; each of the ten fields is copied from the person or organisation key it names |
| Verifications.MonthNumber | verification/verifications.py:197 | `%B` accepts a name exactly when it is a full English month name in any letter case, and gives its position 1 to 12 |
| Verifications.BirthDateOf | verification/verifications.py:192-200 | in the source's order: a day that does not parse gives `NotAnInteger("birth_date")`, then a year that does not parse `NotAnInteger("birth_year")`, then a month that is not text `MonthNotText`, then an unknown month name `UnknownMonth`; once all are read, the date (defaults 1, "January", 2000) results exactly when it exists, and `InvalidDate` otherwise |
| Verifications.MissingBirthFieldsDefault | verification/verifications.py:192-194 | with no birth fields the birth date is 1 January 2000 |
| Verifications.DayBeyondMonthIsRejected | verification/verifications.py:200 | fields that parse but name a day the month lacks give `InvalidDate` with that date |
| Verifications.FebruaryLengths | verification/verifications.py:200 | February has 29 days in 2000, 28 in 1900, and never 30 |
| Verifications.MonthNamesIgnoreCase | verification/verifications.py:197 | "MARCH" is month 3 |
| Verifications.AbbreviatedMonthIsRejected | verification/verifications.py:197 | "Mar" is not a month name |
| Verifications.AgeCountsAnniversaries | verification/verifications.py:206-213 | the age is the number of birthdays reached: the anniversary in year birth+age is on or before today, and the next one is after |
| Verifications.AgeIsUnique | verification/verifications.py:206-213 | that characterisation admits only one age |
| Verifications.AgeIsMonotone | verification/verifications.py:206-213 | the age never decreases as today advances |
| Verifications.AnniversaryBoundary | verification/verifications.py:206-213 | someone born on 15 March 2000 is 23 on 14 March 2024 and 24 on 15 March 2024 |
| Verifications.LeapDayBirthdayMovesToMarch | verification/verifications.py:206-213 | for a 29 February birth, in a non-leap year the age goes up on 1 March |
| Verifications.BirthCertificate | verification/verifications.py:189-221 | no entities is an error; otherwise it succeeds exactly when the birth date is read; the result is the entities with "age" added and every other entry kept |
| Verifications.EvidencePayload.ToJson | verification/verifications.py:286-287 | the stored JSON quotes the payload's token as `employee_letter_token` |
| Verifications.ApolloSource | verification/verifications.py:310-325 | the enrichment entry copies each enrichment field and splits the primary phone into its number and source |
| Verifications.SourcesAreNeverAllNone | verification/verifications.py:339-342 | the "no source" check never holds: the letter's representative entry is never None |
| Verifications.Payload | verification/verifications.py:286-342 | fails exactly when an enrichment is present and its primary phone cannot be split; otherwise the token, each letter field is the extracted entity or None, the letter's representative is always a source, the enrichment source is present exactly when there is an enrichment, and the sentinel never replaces the sources |
| Verifications.Enrichment | verification/verifications.py:147-152 | no lookup result gives no enrichment; an answer that cannot be projected is an error; otherwise the projection of the answer |
| Verifications.LetterPayload | verification/verifications.py:286-342 | fails exactly on a malformed enrichment answer, missing entities, or an unsplittable primary phone; otherwise it is the payload assembled from the entities and the projected enrichment, and quotes the token |
| Verifications.EmployeeLetter | verification/verifications.py:286-350 | the in-place assembly returns the reference payload (or its error, or a duplicate-token error); on success it stores exactly one new pending row under the token with the payload as its data; on any error nothing is stored |
| Verifications.StoredRowMatchesPayload | verification/verifications.py:345-350 | the stored row is pending, unverified, undecided, its token is the payload's `employee_letter_token`, and its data is the payload |

## Left out

- The PDF loading and splitting, the OpenAI requests, the entity extraction prompts, and the document database query. Their results (entities, enrichment answer, PDF tier and URL) are parameters. They are I/O and foreign code.
- The Apollo HTTP request and the parsing of `extraProperties` (verification/verifications.py:124-145, 231-244). The enrichment answer is an `Option`; None stands for a refused lookup. Network I/O.
- `process_pdf_task` and the Celery machinery. The task's result is the parameter `process`, and a queued job is a value. The worker and its timing are out of scope.
- Sending the verification email, its HTML text, and `BASE_URL`. I/O with no logic to verify.
- Logging and the `print` of the parsed properties. No effect on results.
- Concurrency: two requests racing on one token. The table is updated by one operation at a time.
- Views.ConfirmEmployment: the callback POST is returned, not sent. A failing POST (for example an empty `CALLBACK_URL`) raises after the row is saved. The model does not show that error.
- Views.DenyEmployment: the same holds for the deny callback.
- Views.GetEmploymentVerificationInfo: `verified_at` is given as whole seconds since 0001-01-01. The text rendering of `strftime("%Y-%m-%d %H:%M:%S")` is not modelled.
- Models.EmploymentVerification.IsTokenExpired: instants are unbounded. Python raises OverflowError when stepping past year 9999, and that case is not modelled.
- Verifications.EmployeeLetter: when the lookup found nothing, the model returns the payload. The source stores the row and then fails reading `rep_data["email"]` (verification/verifications.py:366). When `extraProperties` is not valid JSON, `rep_data` is unbound and the source fails at `if rep_data:` with nothing stored. Neither crash is modelled.
- Verifications.Netloc: it models the netloc split and the bracket check. It does not model the stricter bracketed-host validation and port parsing of newer `urlsplit` releases, or the NFKC check on non-ASCII netlocs.
- Verifications.MonthNumber: it matches ASCII case only. `strptime` also folds non-ASCII case and depends on the locale. The C locale is assumed.
- Verifications.BirthDateOf: JSON floats are not modelled, so `int(2000.0)` is missing. `int()` of strings accepts ASCII digits and ASCII whitespace only, not other Unicode digits or spaces.
- Time zones: weekdays are taken in UTC, the zone of the stored timestamps. A deployment with naive local times is not modelled.
- Python dictionary key order. JSON objects are maps, so the order of keys in the stored and returned payload is not captured.
- The commented-out scraping of the organisation website. It is dead code.
