# VIPS API client: a verified model

This project models the logic of `python/common/vips_api.py`, the client that the
driver-prohibition review service uses to talk to VIPS, the legacy system of record
for prohibitions, payments and review applications. Once the HTTP transport is
removed, what remains is pure:

- **Endpoints** (`endpoints.dfy`, module `Endpoints`). `build_endpoint` joins its
  segments with `/`, in order, with no escaping. The module also has the fixed
  segment order of each caller: status, disclosure, payment, application
  get/update, application create, review schedule and health.
- **Date-time strings** (`date_strings.dfy`, module `DateStrings`). These are the string
  stages of `vips_str_to_datetime` and `vips_datetime`. Both convert by fixed-offset
  slicing between the 26-character VIPS layout `YYYY-MM-DD HH:MM:SS +HH:MM`, the RFC 3339
  section 5.6 date-time given to the ISO 8601 parser, and the 25-character `strftime`
  output `YYYY-MM-DD HH:MM:SS +HHMM` (25 characters for years from 1000 on). Python slicing clamps out-of-range bounds, and
  the model clamps them the same way, so every input has a defined result.
- **Surname comparison** (`surnames.dfy`, module `Surnames`). `remove_accents` (NFKD,
  then ASCII encoding that drops everything else) followed by `bytes.upper()`.
- **Response classification** (`responses.dfy`, module `Responses`). A decoded VIPS body is
  a datatype whose keys are `Option`s. The module covers the flags of `get` and `create`,
  the rule of `status_get`, `has_been_paid` and `is_last_name_match`. A Python `KeyError`
  or `TypeError` becomes an `Err` result.
- **Requests and payload** (`requests.dfy`, module `Requests`). The request each call
  issues, and the `application_create` payload built from its keyword arguments.
  The arguments are a `map<string, Arg>`, so an argument passed as `None` can be told
  apart from one that was left out.
- **Payment readiness** (`payment_readiness.dfy`, module `PaymentReadiness`). The
  decision of `is_application_ready_for_payment`. It takes the two HTTP answers as
  parameters and records which requests were issued.
- `wrappers.dfy` (module `Wrappers`) holds `Option` and `Result`.

Boundaries that are parameters of the model:

- The HTTP answer is a `Fetch`: either a decoded body, or `NoResponse`, which stands
  for the `AssertionError` that `get` and `create` catch.
- The correlation id is an opaque string.
- The Unicode decomposition table is a function `decompose: char -> string`. A
  character's NFKD decomposition does not depend on its neighbours, and canonical
  reordering only moves combining marks, which are non-ASCII and get dropped.
  So `remove_accents` is the ASCII part of each character's decomposition, in order.
  The lemmas that need a fact about the table state it as a `requires`:
  `FixesAscii` (every ASCII character decomposes to itself), or, for the `Coté`
  example, that `é` decomposes to `e` followed by U+0301.
- `parse_date` and `strftime` are not modelled. The model stops at the string handed
  to the parser and starts from the string `strftime` returns.

Where the code behaves differently from what its callers might expect, the model
follows the code:

- `status_get` does not return `(False, error)` when the transport fails. It applies
  `'resp' in data` to the caught exception object and raises `TypeError`.
- `status_get` checks `error.message` at line 51 even when `resp` is `"success"`.
  So an `error` object without a `message` raises `KeyError`.
- In `is_application_ready_for_payment`, a failed payment transport raises
  `TypeError` at line 40, where `json.dumps` is applied to the exception object.
- Only `status_get` treats "Record not found" as success. The flag of the other GET
  calls is "the body has a `resp` key", whatever its value.
- `application_update` issues the same GET as `application_get`.

## Model

| member | source | states |
|---|---|---|
| Endpoints.BuildEndpoint | python/common/vips_api.py:112-114 | `'/'.join(args)`: empty for no segments, the segment itself for one. It has no contract of its own; the four lemmas below state what it promises |
| Endpoints.BuildEndpointAppend | python/common/vips_api.py:112-114 | joining reads left to right: adding a segment appends `/` and that segment |
| Endpoints.SplitBuildEndpoint | python/common/vips_api.py:112-114 | splitting the joined string on `/` gives back any non-empty list of segments none of which contains `/` |
| Endpoints.BuildEndpointSplit | python/common/vips_api.py:112-114 | joining the `/`-separated parts of any string gives back that string |
| Endpoints.BuildEndpointInjective | python/common/vips_api.py:112-114 | different non-empty lists of slash-free segments give different endpoints |
| Endpoints.StatusEndpoint | python/common/vips_api.py:48 | the status endpoint is `root/id/status/cid` |
| Endpoints.DisclosureEndpoint | python/common/vips_api.py:56 | the disclosure endpoint is `root/document/disclosure/cid` |
| Endpoints.PaymentEndpoint | python/common/vips_api.py:61 | the payment endpoint is `root/id/payment/status/cid` |
| Endpoints.ApplicationEndpoint | python/common/vips_api.py:66 | the endpoint of `application_get` (and of `application_update`, line 91) is `root/guid/application/cid` |
| Endpoints.ApplicationCreateEndpoint | python/common/vips_api.py:71 | the create endpoint is `root/form_type/id/application/cid` |
| Endpoints.ScheduleEndpoint | python/common/vips_api.py:96-103 | the schedule endpoint is `root/notice/review_type/date/review/availableTimeSlot/cid` |
| Endpoints.HealthEndpoint | python/common/vips_api.py:108 | the health endpoint is `root/api/utility/ping` |
| Endpoints.StatusEndpointInjective | python/common/vips_api.py:47-48 | with slash-free ids, the status endpoint determines the prohibition id and the correlation id |
| Requests.StatusRequest | python/common/vips_api.py:47-49 | the GET of `status_get`: the status endpoint with the configured credentials (no contract of its own; `Requests.RequestsUseConfig` states its credentials and root) |
| Requests.PaymentRequest | python/common/vips_api.py:60-62 | the GET of `payment_get`: the payment endpoint with the configured credentials (no contract of its own; see `Requests.RequestsUseConfig`) |
| Requests.DisclosureRequest | python/common/vips_api.py:55-57 | the GET of `disclosure_get`: the disclosure endpoint with the configured credentials (no contract of its own; see `Requests.RequestsUseConfig`) |
| Requests.ApplicationGetRequest | python/common/vips_api.py:65-67 | the GET that `application_get` and `application_update` (lines 90-92) both issue (no contract of its own; see `Requests.RequestsUseConfig`) |
| Requests.ScheduleRequest | python/common/vips_api.py:95-104 | the GET of `schedule_get`: the schedule endpoint with the configured credentials (no contract of its own; see `Requests.RequestsUseConfig`) |
| Requests.HealthRequest | python/common/vips_api.py:107-109 | the GET of `health_get`: the health endpoint with the configured credentials (no contract of its own; see `Requests.RequestsUseConfig`) |
| Requests.ApplicationCreateRequest | python/common/vips_api.py:70-87 | the POST of `application_create`: the create endpoint, the configured credentials and the payload built from the keyword arguments (no contract of its own; see `Requests.RequestsUseConfig` and the payload lemmas) |
| Requests.ApplicationPayload | python/common/vips_api.py:72-86 | the payload literal, with one `dict.get` per field. It has no contract of its own; the four payload lemmas below state its fields |
| Requests.RequestsUseConfig | python/common/vips_api.py:47-109 | every call sends the configured user name and password to an endpoint that starts with `root/` |
| Requests.PayloadDefaults | python/common/vips_api.py:78-79 | `manualEntryYN` and `noticeSubjectCd` are their arguments when those keys were passed (even as `None`), and `"N"` and `"PERS"` otherwise; with no arguments every other field is null |
| Requests.PayloadFieldsFromArguments | python/common/vips_api.py:72-86 | every other field is its named argument (`formData` from `form_date`, `surnameNm` from `last_name`, ...) or null |
| Requests.PayloadIgnoresUnknownArguments | python/common/vips_api.py:70-86 | keyword arguments outside the eleven it reads do not change the payload |
| Requests.PayloadInjective | python/common/vips_api.py:72-86 | the payload determines all eleven arguments it reads when all were passed |
| DateStrings.VipsStrToIso | python/common/vips_api.py:172-176 | the parser input has at most 25 characters; from 26 or more it has exactly 25, with `T` at index 10, `:` at 22 and the date unchanged |
| DateStrings.VipsDatetime | python/common/vips_api.py:187-188 | the result has at most 26 characters; from 25 or more it has exactly 26, with `:` at index 23 and the first 23 unchanged |
| DateStrings.VipsStrToIsoWellFormed | python/common/vips_api.py:165-176 | for a well-formed VIPS string `s` the parser gets `s[0:10] + "T" + s[11:19] + s[20:23] + ":" + s[24:26]`, i.e. `s` with index 10 replaced by `T` and index 19 removed; this is an RFC 3339 date-time with the same fields |
| DateStrings.VipsStrToIsoIgnoresTail | python/common/vips_api.py:172-175 | characters after the 26th never reach the parser |
| DateStrings.VipsStrToIsoInjective | python/common/vips_api.py:172-176 | distinct well-formed VIPS strings give distinct parser inputs |
| DateStrings.ShortInputNotRfc3339 | python/common/vips_api.py:172-176 | an input shorter than 26 characters gives a parser input that is not an RFC 3339 date-time |
| DateStrings.SingleDigitOffsetMisSliced | python/common/vips_api.py:172-176 | a single-digit offset `+8:00` reaches the parser as `+8::0` |
| DateStrings.VipsDatetimeWellFormed | python/common/vips_api.py:180-188 | on `strftime` output `t`, the result is `t[0:23] + ":" + t[23:25]`, a well-formed VIPS string with the same fields |
| DateStrings.StrftimeRoundTrip | python/common/vips_api.py:165-188 | slicing `vips_datetime`'s output as `vips_str_to_datetime` does recovers the date, time, offset hour and offset minute of the `strftime` output |
| DateStrings.VipsRoundTrip | python/common/vips_api.py:165-188 | if the parser and `strftime` keep the fields, `vips_datetime` rebuilds the original VIPS string |
| DateStrings.DocstringExampleToIso | python/common/vips_api.py:170 | `2019-01-02 17:30:00 -08:00` becomes `2019-01-02T17:30:00-08:00` |
| DateStrings.DocstringExampleFromStrftime | python/common/vips_api.py:185 | `2019-01-02 17:30:00 -0800` becomes `2019-01-02 17:30:00 -08:00` |
| Surnames.AsciiOnly | python/common/vips_api.py:147 | ASCII encoding with `ignore` keeps only ASCII characters, never lengthens, and changes nothing on ASCII input |
| Surnames.AsciiOnlyAppend | python/common/vips_api.py:147 | ASCII encoding with `ignore` keeps a single character exactly when it is ASCII and distributes over concatenation, so it keeps every ASCII character, in order, and drops the rest |
| Surnames.RemoveAccents | python/common/vips_api.py:145-148 | the result of accent removal is all ASCII |
| Surnames.AsciiUpper | python/common/vips_api.py:155 | `bytes.upper()` keeps the length and upper-cases each character on its own |
| Surnames.RemoveAccentsAscii | python/common/vips_api.py:145-148 | accent removal is the identity on ASCII input |
| Surnames.RemoveAccentsAppend | python/common/vips_api.py:145-148 | accent removal works character by character, so it distributes over concatenation |
| Surnames.MatchKey | python/common/vips_api.py:155 | the key compared is `remove_accents(name).upper()`; it is all ASCII and has no lower-case letter |
| Surnames.NamesMatch | python/common/vips_api.py:155 | two names match when their keys are equal (no contract of its own; `Surnames.NamesMatchEquivalence` and `Surnames.AsciiNamesMatchIgnoringCase` state its properties) |
| Surnames.AsciiMatchKey | python/common/vips_api.py:155 | on an ASCII name the comparison key is the upper-cased name |
| Surnames.NamesMatchEquivalence | python/common/vips_api.py:155 | name matching is reflexive, symmetric and transitive |
| Surnames.AsciiNamesMatchIgnoringCase | python/common/vips_api.py:155 | two ASCII names match if and only if they are equal ignoring case |
| Surnames.JonesExamples | python/common/vips_api.py:151-156 | `Jones` matches `JONES` and does not match `Other` |
| Surnames.AccentedExample | python/common/vips_api.py:145-155 | `Coté` matches `Cote` |
| Responses.ReplyOf | python/common/vips_api.py:119-128 | the second value of `get` and `create`: the decoded body when one came back, the caught transport error otherwise |
| Responses.Get | python/common/vips_api.py:117-128 | success if and only if a body came back with a `resp` key, whatever its value; the body is passed on unchanged |
| Responses.Create | python/common/vips_api.py:131-142 | success if and only if any body came back |
| Responses.IsSuccess | python/common/vips_api.py:50 | `'resp' in data and data['resp'] == 'success'` (no contract of its own; `Responses.StatusGet` states the rule it is part of) |
| Responses.IsNotFound | python/common/vips_api.py:51 | raises `KeyError('message')` when `error` has no `message`; otherwise true if and only if the message is `Record not found` |
| Responses.StatusGet | python/common/vips_api.py:47-52 | raises `TypeError` on a transport failure and `KeyError('message')` on an `error` without `message`; otherwise success if and only if `resp == "success"` or the error message is `Record not found`, with the body passed through unchanged |
| Responses.StatusGetShapes | python/common/vips_api.py:49-52 | a success body, a not-found body and a payment `fail` body classify as success, success and failure |
| Responses.GetIgnoresRespValue | python/common/vips_api.py:128 | the value of `resp` does not matter to `get`, so a payment `fail` still counts as success |
| Responses.HasBeenPaid | python/common/vips_api.py:159-162 | the first flag is "`resp` is present"; the second is "`data` is present and has `transactionInfo`" |
| Responses.HasBeenPaidIndependent | python/common/vips_api.py:159-162 | each flag of `has_been_paid` ignores the field the other flag reads |
| Responses.IsLastNameMatch | python/common/vips_api.py:151-156 | false without `data`; raises `KeyError` without `status` or `surnameNm`; otherwise the two names compared after accent removal and upper-casing |
| Responses.NoDataNeverMatches | python/common/vips_api.py:152-156 | a response without `data` never matches, whatever the name |
| Responses.LastNameMatchIgnoresCase | python/common/vips_api.py:151-156 | a record with surname `Jones` matches the entered name `JONES` |
| PaymentReadiness.IsFormSubmitted | python/common/vips_api.py:41 | raises `KeyError` naming the first of `data`, `status`, `reviewCreatedYn` that is missing; otherwise true if and only if it is `"Y"` |
| PaymentReadiness.IsNotPaid | python/common/vips_api.py:42 | raises `TypeError` on the error object of a failed transport and `KeyError('resp')` on a body without `resp`; otherwise true if and only if `resp == "fail"` |
| PaymentReadiness.IsApplicationReadyForPayment | python/common/vips_api.py:32-44 | the status lookup is issued first. A payment lookup follows only on a name match. On a mismatch the result is `(status_ok, False)`. On a match it raises, in source order, `TypeError` on a failed payment transport (line 40), the error of reading `reviewCreatedYn` (line 41), then `KeyError('resp')` (line 42); otherwise it is `(status_ok and payment_ok, reviewCreatedYn == "Y" and payment resp == "fail")` |
| PaymentReadiness.MismatchIgnoresPayment | python/common/vips_api.py:37-44 | on a name mismatch the outcome does not depend on any payment answer |
| PaymentReadiness.ReadyForPaymentExample | python/common/vips_api.py:37-43 | found record, matching name, submitted review, payment `fail`: `(True, True)` after both lookups |
| PaymentReadiness.ReviewFlagReadBeforePayment | python/common/vips_api.py:41-42 | a record without `reviewCreatedYn` and a payment body without `resp` raise `KeyError('reviewCreatedYn')`: line 41 runs before line 42 |
| PaymentReadiness.NotFoundExample | python/common/vips_api.py:35-44 | a not-found status: `(True, False)` after the status lookup alone |

## Left out

- HTTP transport, authentication and logging (`requests.get`/`post`, `response.json()`, `logging.*`). These are I/O. The decoded body, or its absence, is a parameter. Exceptions raised by `requests` other than the caught `AssertionError`, and a body that is not JSON, are not modelled.
- `generate_correlation_id` (vips_api.py:191-192) draws a random UUID. The correlation id is an opaque input string, which only the endpoints use.
- `get_invoice_details` (vips_api.py:13-29). It has a float amount and placeholder text, uses locale-dependent `%b %-d, %Y` formatting, and reads `effectiveDt` before it checks success.
- `iso8601.parse_date` and `datetime.strftime`. These are library calls. The model stops at the string handed to the parser and starts from the `strftime` output. `VipsRoundTrip` states the round trip under the assumption that parsing then formatting keeps the fields. That assumption fails, for example, in these cases. `%z` prints a zero offset as `+0000`, so `-00:00` comes back as `+00:00`. `parse_date` raises on out-of-range fields such as month `13`. And `%Y` may print a year below 1000 without zero-padding: then `strftime` gives the 24-character `999-01-02 17:30:00 -0800`, and `vips_datetime` returns `999-01-02 17:30:00 -080:0`.
- The Unicode NFKD table (`unicodedata.normalize`). This is library data, passed in as `decompose`.
- JSON values other than strings and objects. A key whose value is JSON `null` is the same as an absent key in the model, and a value of the wrong type (an `error` that is not an object, a surname that is not a string) is not modelled. In Python, `get` counts `{"resp": null}` as success.
- Keyword-argument values of `application_create` other than strings and `None`. Endpoint segments that are not strings, which make `join` raise, are not modelled either.
- The status fields that the core does not read (`effectiveDt`, `noticeTypeCd`, `driverLicenceSeizedYn`). The middleware predicates and email templates that use them are in other files, which are not part of this model.
- The response `data` of `disclosure_get`, `application_get`, `schedule_get` and `health_get` is not interpreted. Those calls are their request (`Requests`) plus the `get` flag (`Responses.Get`).
