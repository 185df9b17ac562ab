# ServiceNow CMDB connector — a Dafny model

This project models the decision logic of the ServiceNow CMDB connector, a thin adapter that turns
six configuration-management-database operations into authenticated REST calls and turns the
answers into a return value or a `ConnectorError`. The one source file,
`servicenow-cmdb/operations.py`, holds all of it:

- `check_payload`, the recursive sanitiser that removes `None`, `''` and emptied dicts from a
  payload (module `Payload`);
- the `Servicenow` constructor, which normalises `server_url` into the base URL
  `<scheme>://<host>/api/now` (module `Servicenow`);
- `make_rest_call`, which maps a response status, its headers and any transport exception to
  decoded JSON, the raw response, or an error message, with its `except` clauses tried in source
  order against the exception class hierarchy of `requests` (modules `RestCall`, `Exceptions`);
- the six operation functions, which pop path keys out of `params`, fill a path template and
  sanitise the rest as body or query, plus the `operations` dispatch table, `login` and
  `_check_health` (module `Operations`).

Supporting modules: `Results` (Option/Result), `Text` (Python's `in`, `str.strip`, `str(int)`),
`Values` (Python values as a datatype, and `str()` of scalars).

The HTTP exchange itself is a parameter: an `Exchange` is either a `Response` (status, the text of
`str(response.headers)`, the body bytes, and what `response.json()` would do with them) or the
exception `requests.request` raised. `Operations.Run` composes everything for one operation.

Points where the code's behaviour is easy to misread:

- `server_url.strip('/')` removes slashes at both ends, not only a trailing one.
- `response.ok` in `requests` is false only for statuses 400–599, so redirects (3xx) and statuses
  from 600 up count as success; the extra `== 204` test never changes the outcome
  (`RestCall.SuccessStatuses`).
- Each transport exception gets its own message (SSL, connect timeout, read timeout), and only the
  remaining connection errors become `Invalid Credentials`. `SSLError` and `ConnectTimeout` are
  subclasses of `ConnectionError`, so the clause order decides their message; `ProxyError`, also a
  subclass, is named by no earlier clause and simply falls to the `ConnectionError` clause.
- The scheme test is case-sensitive, so `HTTPS://host` gets a second scheme in front.

## Model

| member | source | states |
|---|---|---|
| Payload.CleanValue | servicenow-cmdb/operations.py:62-67 | a non-dict value is kept as it is; a dict value is sanitised into a dict whose keys are a subset of the original's and which holds no empty value at any depth |
| Payload.CheckPayload | servicenow-cmdb/operations.py:59-68 | output keys are input keys; no kept entry is `None`, `''` or an empty dict at any depth; a non-dict entry is kept, unchanged, exactly when it is neither `None` nor `''`; a dict entry is kept, sanitised, exactly when something is left of it |
| Payload.FixedPointIffSanitised | servicenow-cmdb/operations.py:59-68 | the sanitiser leaves a payload unchanged if and only if the payload is already sanitised |
| Payload.Idempotent | servicenow-cmdb/operations.py:59-68 | sanitising twice gives the same payload as sanitising once |
| Payload.EmptyDictDropped | servicenow-cmdb/operations.py:62-65 | an entry whose value is an empty dict never survives |
| Payload.FalsyScalarsKept | servicenow-cmdb/operations.py:66-67 | `0`, `False` and `[]` are kept unchanged, since only `None` and `''` are removed |
| Text.Strip | servicenow-cmdb/operations.py:17 | `strip('/')` leaves the contiguous middle of the string: everything cut off is `/`, and the result neither begins nor ends with `/` |
| Text.StripIgnoresTrailing | servicenow-cmdb/operations.py:17 | one more trailing `/` does not change the stripped string |
| Text.StripIdempotent | servicenow-cmdb/operations.py:17 | stripping `/` a second time changes nothing |
| Text.ContainsIffOccurs | servicenow-cmdb/operations.py:37 | the `'json' in ...` test holds exactly when the text occurs at some position of the headers string |
| Values.PyStr | servicenow-cmdb/operations.py:73 | a path value formats as `None`, `True`/`False`, its decimal numeral (which reads back as the same number when non-negative) or the string itself; containers get no rendering |
| Servicenow.BaseUrl | servicenow-cmdb/operations.py:17-21 | the stored URL is the stripped `server_url` plus `/api/now` when it starts with `http://` or `https://`, and `https://` + stripped + `/api/now` otherwise; it always starts with a scheme and ends with `/api/now` |
| Servicenow.NewClient | servicenow-cmdb/operations.py:14-22 | the constructor succeeds exactly when `server_url` is present, keeps credentials and the TLS flag, stores the normalised URL; a missing `server_url` raises an AttributeError |
| Servicenow.SlashesIgnored | servicenow-cmdb/operations.py:17-21 | a trailing or a leading `/` on `server_url` does not change the base URL |
| Servicenow.NoSlashBeforeSuffix | servicenow-cmdb/operations.py:17-21 | for a non-empty host the character before `/api/now` is not a slash |
| Servicenow.OneDefaultScheme | servicenow-cmdb/operations.py:18-19 | a URL without a scheme gets `https://`, and what follows it is not another scheme |
| Servicenow.ExplicitHttpsIsDefault | servicenow-cmdb/operations.py:18-21 | writing `https://` in front of a bare host gives the same base URL as leaving it out |
| Servicenow.UpperCaseSchemeDoubled | servicenow-cmdb/operations.py:18-19 | an upper-case `HTTPS://` is not recognised, so a second scheme is put in front |
| Servicenow.BareHost | servicenow-cmdb/operations.py:17-19 | a bare host, with or without a trailing slash, becomes `https://<host>/api/now` |
| Servicenow.SchemedUrl | servicenow-cmdb/operations.py:17-21 | a URL naming its scheme keeps it, loses a trailing slash, and gets `/api/now` once |
| RestCall.FirstMatch | servicenow-cmdb/operations.py:46-56 | the index found is of a clause that catches the class, and no earlier clause catches it; none is found only if no clause catches it |
| RestCall.FirstMatchInSourceOrder | servicenow-cmdb/operations.py:46-56 | every exception class is handled; SSL errors by the first clause, connect timeouts by the second, read timeouts by the third, other connection errors by the fourth, all else by the last |
| RestCall.Translate | servicenow-cmdb/operations.py:46-56 | the raised ConnectorError carries the SSL, connect-timeout or read-timeout message for those classes, `Invalid Credentials` for a plain connection or proxy error, and `str(err)` for every other class, the base `Timeout` included |
| RestCall.SuccessStatuses | servicenow-cmdb/operations.py:35 | a status counts as success exactly when it is below 400 or from 600 up; every 3xx is a success |
| RestCall.Classify | servicenow-cmdb/operations.py:35-56 | decoded JSON exactly for a success whose headers mention `json` and whose body decodes; the raw response exactly for other successes and for 404; otherwise, for a rejected status, the message of line 45 as written, `<status>:` followed by the body's bytes literal (re-raised unchanged by the catch-all), the JSON decoder's message, or the translated transport error |
| RestCall.ClassifyIntended | servicenow-cmdb/operations.py:35-56 | with line 45 corrected, a rejected status raises a ConnectorError whose message splits back into the status and the body text; every other outcome is that of `make_rest_call` as written |
| RestCall.ClassifyDiffersOnlyWhenRejected | servicenow-cmdb/operations.py:41-45 | the program as written and as intended give different results exactly for a rejected status (not a success, not 404), and there both raise a ConnectorError |
| RestCall.TransportFailuresRaise | servicenow-cmdb/operations.py:46-56 | every transport exception surfaces as a ConnectorError, an SSL failure with the SSL message |
| RestCall.StatusMessage | servicenow-cmdb/operations.py:45 | the corrected message of line 45 splits back into the status and the body text |
| RestCall.StatusMessageAsWritten | servicenow-cmdb/operations.py:45 | the message as written is longer than the intended one, since the body is spelled as a bytes literal |
| RestCall.StatusMessageAsWrittenReadsBack | servicenow-cmdb/operations.py:45 | the message as written splits into the status and a bytes literal, and that literal reads back as exactly the body's bytes |
| RestCall.BytesRepr | servicenow-cmdb/operations.py:45 | `str()` of the body bytes is at least three characters longer than the body (the `b` and two quotes); its shape, quote choice and read-back are stated by `RestCall.BytesReprRoundTrip` |
| RestCall.BytesReprRoundTrip | servicenow-cmdb/operations.py:45 | the literal starts with `b`, uses double quotes exactly when the body holds `'` and no `"`, and reads back as the body's bytes for every body |
| RestCall.EscapeByte | servicenow-cmdb/operations.py:45 | a byte stands for itself exactly when it is printable ASCII other than the backslash and the quote in use; every other byte becomes a backslash escape |
| RestCall.UnescapeEscaped | servicenow-cmdb/operations.py:45 | reading the escaped bytes back gives the bytes again, with either quote |
| RestCall.StatusMessageShowsBytesLiteral | servicenow-cmdb/operations.py:45 | as written the message never equals `<status>:<body>`; for plain text it is `<status>:b'<body>'` |
| RestCall.ServerErrorExample | servicenow-cmdb/operations.py:41-45 | a 500 with body `oops` raises `500:b'oops'`; the intended message is `500:oops` |
| RestCall.NotFoundIsData | servicenow-cmdb/operations.py:41-42 | a 404 is returned as the raw response whatever its headers |
| Operations.CreateConfigurationItem | servicenow-cmdb/operations.py:71-76 | POST to `/cmdb/instance/<class_name>` with the sanitised rest as body; `class_name` is popped from `params`; a missing `class_name` raises a KeyError |
| Operations.GetConfigurationItems | servicenow-cmdb/operations.py:79-84 | GET on `/cmdb/instance/<class_name>` with the sanitised rest as query and no body; a missing `class_name` raises a KeyError |
| Operations.GetConfigurationItemDetails | servicenow-cmdb/operations.py:87-91 | never fails and leaves `params` alone; GET on `/cmdb/instance/<class_name>/<sys_id>` read with `get`, without body or query |
| Operations.UpdateConfigurationItem | servicenow-cmdb/operations.py:94-99 | PUT to `/cmdb/instance/<class_name>/<sys_id>` with the sanitised rest as body; the KeyError names `class_name` first, then `sys_id` |
| Operations.AddRelationToConfigurationItem | servicenow-cmdb/operations.py:102-107 | POST to `/cmdb/instance/<class_name>/<sys_id>/relation` with the sanitised rest as body; both keys popped; KeyError for the first missing |
| Operations.DeleteRelationForConfigurationItem | servicenow-cmdb/operations.py:110-115 | DELETE on `/cmdb/instance/<class_name>/<sys_id>/relation/<rel_sys_id>` without body or query; all three keys popped; KeyError for the first missing in pop order |
| Operations.Lookup | servicenow-cmdb/operations.py:141-148 | a name found in the table is the name of the operation returned; a name not found belongs to no operation |
| Operations.LookupByName | servicenow-cmdb/operations.py:141-148 | every operation is found under its own name, no two operations share a name, and the health check is not in the table |
| Operations.Pop | servicenow-cmdb/operations.py:73 | `params.pop(key)` succeeds exactly when the key is present, giving its value and the dict without it; otherwise a KeyError whose message is the quoted key |
| Operations.FirstMissing | servicenow-cmdb/operations.py:112-113 | the key found is missing and every key before it is present, so it is the one whose `pop` raises first; none is found exactly when all keys are present |
| Operations.PrepareRaisesFirstMissing | servicenow-cmdb/operations.py:71-115 | an operation raises a KeyError exactly when it pops a path key that is missing, naming the first such key |
| Operations.PrepareFollowsTable | servicenow-cmdb/operations.py:71-115 | each operation uses the verb and path template of its table row, removes exactly its path keys from `params` (none for the details read), and sends the sanitised rest in the body, in the query, or not at all, as its row says |
| Operations.PreparedVerb | servicenow-cmdb/operations.py:71-115 | a prepared request carries the verb of its operation's table row |
| Operations.PathKeysNeverSent | servicenow-cmdb/operations.py:71-115 | a path key never appears in the body or query, and what is sent is sanitised |
| Operations.RenderPath | servicenow-cmdb/operations.py:73 | a path renders exactly when every formatted value is a scalar, and the rendering starts with the first segment's text |
| Operations.RenderConcat | servicenow-cmdb/operations.py:112-113 | the rendering of two paths joined is the rendering of the first followed by that of the second, and fails when either fails, as `format` lays its pieces side by side |
| Operations.RenderPair | servicenow-cmdb/operations.py:73 | a path of two segments renders as the two pieces side by side |
| Operations.RequestUrl | servicenow-cmdb/operations.py:26 | a URL exists exactly when the path renders, and it is the client's base URL followed by the rendered path |
| Operations.Destination | servicenow-cmdb/operations.py:24-33 | a request is sent only once the client is built and the path keys are found; it goes with its operation's verb to the base URL followed by the rendered path |
| Operations.DetailsPath | servicenow-cmdb/operations.py:87-91 | reading item `abc` of class `c` requests GET `/cmdb/instance/c/abc` with no body |
| Operations.DetailsWithoutKeys | servicenow-cmdb/operations.py:89 | with both keys missing the path is `/cmdb/instance/None/None` |
| Operations.CreateDropsEmptyField | servicenow-cmdb/operations.py:71-76 | creating with an empty `short_description` sends only the non-empty `name` |
| Operations.DeletePath | servicenow-cmdb/operations.py:110-115 | deleting relation `r` of item `s` of class `c` requests DELETE `/cmdb/instance/c/s/relation/r` with no body and leaves `params` empty |
| Operations.Run | servicenow-cmdb/operations.py:71-115 | a missing `server_url` or path key fails before sending, with that error; a KeyError only arises from a missing popped key; otherwise the result is the classification of the exchange by `make_rest_call` as written |
| Operations.RunAtDestination | servicenow-cmdb/operations.py:24-45 | an operation whose request has a destination is sent, and its result is `make_rest_call`'s judgement of the exchange |
| Operations.RunUnderTlsFailure | servicenow-cmdb/operations.py:46-47 | a TLS failure on any operation that sends raises `SSL certificate validation failed` |
| Operations.RunNotFound | servicenow-cmdb/operations.py:41-42 | every operation that sends returns a 404 response as data |
| Operations.LoginRequest | servicenow-cmdb/operations.py:118-127 | the login request is GET `/attachment` with query `sysparm_limit=1` and no body |
| Operations.LoginUrl | servicenow-cmdb/operations.py:118-120 | `login` has a URL exactly when the client is built, and it is the base URL followed by `/attachment` |
| Operations.CheckHealth | servicenow-cmdb/operations.py:130-138 | the health check returns true exactly when the client is built and the login response is `ok`, never false, and otherwise raises `Invalid Credentials!`; success implies the login URL was built |
| Operations.HealthCheckRejectsNotFound | servicenow-cmdb/operations.py:130-138 | a 404 fails the health check although `make_rest_call` would return it as data |
| Operations.RedirectsAreSuccesses | servicenow-cmdb/operations.py:35-40 | a 3xx passes the health check and is a success for `make_rest_call` |

## Findings

| source | as written | input that shows it | evidently intended | confidence | as-written member | corrected member |
|---|---|---|---|---|---|---|
| servicenow-cmdb/operations.py:45 | `"{0}:{1}".format(response.status_code, response.content)` formats the body as a bytes object, so the message is `500:b'oops'` | a 500 response whose body is `oops` | `500:oops`, the status and the body text | medium, not executed | RestCall.Classify | RestCall.ClassifyIntended |

`RestCall.Classify` raises the message as written (`RestCall.StatusMessageAsWritten`), and so
does `Operations.Run`, which composes the program as it stands. `RestCall.ClassifyIntended` raises
the corrected message (`RestCall.StatusMessage`), whose status and body are recoverable.
`RestCall.StatusMessageShowsBytesLiteral` proves the two messages never coincide and gives the
as-written form for plain text; `RestCall.ClassifyDiffersOnlyWhenRejected` proves the two
classifications differ exactly on rejected statuses; `RestCall.ServerErrorExample` shows both on
the 500/`oops` input. The body text is taken one character per byte; for ASCII bodies this is what
decoding would give.

## Left out

- The HTTP request itself (`requests.request`, lines 31-33 and 124-126): the model takes its
  outcome as a parameter and does not model headers sent, Basic authentication or TLS verification,
  which are passed to the library unchanged.
- JSON encoding (`json.dumps`) and decoding (`response.json()`): the payload map stands for the
  body, and the decoder's result or error message is part of the modelled response.
- `str(response.headers)` is taken as a given string; its exact spelling is the library's.
- Logging (`get_logger`, `logger.debug/info/error`): no effect on behaviour.
- The host framework and `ConnectorError` beyond its class and message.
- Values.PyStr: a list or dict value is formatted by Python with its `repr`, which depends on the
  insertion order that a map does not keep; the model gives such a value no rendering.
- Operations.RenderPath: a list or dict value in a path key is formatted by Python with its
  `repr`, which depends on insertion order that a map does not keep; the model gives such a path
  no rendering.
- Operations.UpdateConfigurationItem: when `class_name` is present but `sys_id` is missing, Python
  has already popped `class_name` from the caller's dict before the KeyError; the model reports the
  error but not that partial change to `params`.
- Operations.AddRelationToConfigurationItem: when `class_name` is present but `sys_id` is missing,
  `class_name` has already been popped from the caller's dict before the KeyError; the model reports
  the error but not that partial change to `params`.
- Operations.DeleteRelationForConfigurationItem: when `sys_id` is missing, `class_name` has already
  been popped, and when `rel_sys_id` is missing, both `class_name` and `sys_id` have; the model
  reports the KeyError but not those partial changes to `params`.
- Floats, non-string dict keys and non-string `server_url` values are not part of the value model.
- `login`'s own copy of the request construction is modelled only through its request shape and
  the `response.ok` test in `_check_health`.
- Timeouts and retries: the source configures none.
