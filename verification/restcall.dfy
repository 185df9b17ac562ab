/** `Servicenow.make_rest_call`: how one HTTP exchange becomes a return value or a raised error. */
module RestCall {
  import opened Results
  import opened Text
  import opened Values
  import opened Exceptions

  type Byte = b: int | 0 <= b < 256

  /** What `response.json()` does with the body: decodes it, or raises with a reason. */
  datatype Body = Parsed(value: Value) | Unparsable(reason: string)

  /** The parts of a `requests` response the adapter looks at. `headers` is `str(response.headers)`. */
  datatype Response = Response(status: nat, headers: string, content: seq<Byte>, json: Body)

  /** The outcome of `requests.request`: a response, or an exception raised by the transport. */
  datatype Exchange = Answered(response: Response) | Threw(error: Failure)

  /** What `make_rest_call` gives its caller: decoded JSON, the response object itself, or an error. */
  datatype Reply = Json(value: Value) | Raw(response: Response) | Error(failure: Failure)

  /** `response.ok` of `requests`: false exactly for the 4xx and 5xx statuses. */
  predicate IsOk(status: nat) {
    !(400 <= status < 600)
  }

  const SslMessage := "SSL certificate validation failed"
  const ConnectTimeoutMessage := "The request timed out while trying to connect to the server"
  const ReadTimeoutMessage := "The server did not send any data in the allotted amount of time"
  const ConnectionMessage := "Invalid Credentials"

  /** One `except` clause: the class it names and the message of the ConnectorError it raises;
      `None` stands for `str(err)`. */
  datatype Clause = Clause(catches: ExcClass, fixed: Option<string>)

  /** The `except` clauses of `make_rest_call`, in source order. */
  const Handlers: seq<Clause> := [
    Clause(SSLError, Some(SslMessage)),
    Clause(ConnectTimeout, Some(ConnectTimeoutMessage)),
    Clause(ReadTimeout, Some(ReadTimeoutMessage)),
    Clause(ConnectionError, Some(ConnectionMessage)),
    Clause(Exception, None)
  ]

  /** The index of the first clause in `hs` that catches class `cls`, as Python tries them. */
  function FirstMatch(cls: ExcClass, hs: seq<Clause>): (r: Option<nat>)
    ensures r.Some? ==> r.value < |hs| && IsInstance(cls, hs[r.value].catches)
    ensures r.Some? ==> forall j :: 0 <= j < r.value ==> !IsInstance(cls, hs[j].catches)
    ensures r.None? ==> forall j :: 0 <= j < |hs| ==> !IsInstance(cls, hs[j].catches)
  {
    if hs == [] then None
    else if IsInstance(cls, hs[0].catches) then Some(0)
    else match FirstMatch(cls, hs[1..])
      case None => None
      case Some(j) => Some(j + 1)
  }

  /** The ConnectorError that the `except` chain raises for an exception `e` raised in the `try`. */
  function Translate(e: Failure): (r: Failure)
    ensures r.cls == ConnectorError
    ensures e.cls == SSLError ==> r.message == SslMessage
    ensures e.cls == ConnectTimeout ==> r.message == ConnectTimeoutMessage
    ensures e.cls == ReadTimeout ==> r.message == ReadTimeoutMessage
    ensures e.cls in {ConnectionError, ProxyError} ==> r.message == ConnectionMessage
    // every other class, the base `Timeout` included, reaches `except Exception` and keeps `str(err)`
    ensures e.cls !in {SSLError, ConnectTimeout, ReadTimeout, ConnectionError, ProxyError} ==> r.message == e.message
  {
    FirstMatchInSourceOrder(e.cls);
    match FirstMatch(e.cls, Handlers)
    case None => Failure(ConnectorError, e.message)
    case Some(j) => Failure(ConnectorError, if Handlers[j].fixed.Some? then Handlers[j].fixed.value else e.message)
  }

  /** The clause of `Handlers` that handles each class: a subclass listed before its base wins. */
  function ClauseFor(c: ExcClass): (j: nat)
    ensures j < |Handlers|
  {
    match c
    case SSLError => 0
    case ConnectTimeout => 1
    case ReadTimeout => 2
    case ConnectionError => 3
    case ProxyError => 3
    case _ => 4
  }

  /** Every exception is handled, by the clause `ClauseFor` names. */
  lemma FirstMatchInSourceOrder(c: ExcClass)
    ensures FirstMatch(c, Handlers) == Some(ClauseFor(c))
  {
    var r := FirstMatch(c, Handlers);
    assert IsInstance(c, Handlers[4].catches);
    assert IsInstance(c, Handlers[ClauseFor(c)].catches);
    assert forall j :: 0 <= j < ClauseFor(c) ==> !IsInstance(c, Handlers[j].catches);
  }

  /** Python's `"{0}:{1}".format(status, body)` with the body as text, one character per byte. */
  function StatusMessage(status: nat, content: seq<Byte>): (m: string)
    ensures ParseStatusMessage(m) == Some((status, Latin1(content)))
  {
    var m := NatToDecimal(status) + ":" + Latin1(content);
    StatusMessageRoundTrip(status, Latin1(content));
    m
  }

  /** The body bytes as text, one character per byte (ISO-8859-1). */
  function Latin1(content: seq<Byte>): (t: string)
    ensures |t| == |content|
    ensures forall i :: 0 <= i < |t| ==> t[i] as int == content[i]
  {
    seq(|content|, i requires 0 <= i < |content| => content[i] as char)
  }

  /** Splits an error message of the form `<status>:<body>` back into its parts. */
  function ParseStatusMessage(m: string): Option<(nat, string)> {
    match IndexOf(m, ':')
    case None => None
    case Some(i) =>
      match ParseDecimal(m[..i])
      case None => None
      case Some(n) => Some((n, m[i + 1..]))
  }

  lemma StatusMessageRoundTrip(status: nat, body: string)
    ensures ParseStatusMessage(NatToDecimal(status) + ":" + body) == Some((status, body))
  {
    var d := NatToDecimal(status);
    var m := d + ":" + body;
    assert m[|d|] == ':';
    var i := IndexOf(m, ':');
    assert m[..|d|] == d;
    assert ':' !in d;
    assert i == Some(|d|);
    assert m[|d| + 1..] == body;
    DecimalRoundTrip(status);
  }

  /** The statuses `make_rest_call` treats as success: `response.ok`, or 204. */
  predicate IsSuccess(status: nat) {
    IsOk(status) || status == 204
  }

  /** The 204 test adds nothing to `response.ok`; redirects and statuses from 600 up are successes. */
  lemma SuccessStatuses(status: nat)
    ensures IsSuccess(status) <==> status < 400 || status >= 600
    ensures 300 <= status < 400 ==> IsSuccess(status)
  {
  }

  /** A status `make_rest_call` neither accepts nor hands back as data: it raises. */
  predicate IsRejected(x: Exchange) {
    x.Answered? && !IsSuccess(x.response.status) && x.response.status != 404
  }

  /** `make_rest_call` after the request: decoded JSON for a success whose headers mention `json`,
      the response itself for other successes and for 404, a ConnectorError for everything else.
      A rejected status raises the message of line 45 as written, body spelled as a bytes literal. */
  function Classify(x: Exchange): (r: Reply)
    ensures r.Json? <==> && x.Answered? && IsSuccess(x.response.status)
                         && Contains(x.response.headers, "json") && x.response.json.Parsed?
    ensures r.Json? ==> r.value == x.response.json.value
    ensures r.Raw? <==> && x.Answered?
                        && ((IsSuccess(x.response.status) && !Contains(x.response.headers, "json"))
                            || x.response.status == 404)
    ensures r.Raw? ==> r.response == x.response
    // the ConnectorError for a bad status passes through `except Exception` with its message intact
    ensures IsRejected(x) ==>
              r == Error(Failure(ConnectorError, StatusMessageAsWritten(x.response.status, x.response.content)))
    ensures x.Answered? && IsSuccess(x.response.status) && Contains(x.response.headers, "json")
            && x.response.json.Unparsable? ==>
              r == Error(Failure(ConnectorError, x.response.json.reason))
    ensures x.Threw? ==> r == Error(Translate(x.error))
  {
    match x
    case Threw(e) => Error(Translate(e))
    case Answered(resp) =>
      if IsOk(resp.status) || resp.status == 204 then
        if Contains(resp.headers, "json") then
          match resp.json
          case Parsed(v) => Json(v)
          case Unparsable(reason) => Error(Translate(Failure(JSONDecodeError, reason)))
        else Raw(resp)
      else if resp.status == 404 then Raw(resp)
      else Error(Translate(Failure(ConnectorError, StatusMessageAsWritten(resp.status, resp.content))))
  }

  /** `make_rest_call` with line 45 corrected: a rejected status raises `<status>:<body text>`,
      which splits back into the status and the body; every other outcome is unchanged. */
  function ClassifyIntended(x: Exchange): (r: Reply)
    ensures !IsRejected(x) ==> r == Classify(x)
    ensures IsRejected(x) ==> && r.Error? && r.failure.cls == ConnectorError
                              && ParseStatusMessage(r.failure.message)
                                   == Some((x.response.status, Latin1(x.response.content)))
  {
    if IsRejected(x) then Error(Failure(ConnectorError, StatusMessage(x.response.status, x.response.content)))
    else Classify(x)
  }

  /** The program as written and as intended part ways on exactly the rejected statuses, and
      there only in the message. */
  lemma ClassifyDiffersOnlyWhenRejected(x: Exchange)
    ensures Classify(x) != ClassifyIntended(x) <==> IsRejected(x)
    ensures IsRejected(x) ==> && Classify(x).Error? && ClassifyIntended(x).Error?
                              && Classify(x).failure.cls == ClassifyIntended(x).failure.cls
  {
    if IsRejected(x) {
      StatusMessageShowsBytesLiteral(x.response.status, x.response.content);
    }
  }

  /** Every transport failure is raised as a ConnectorError; none is returned as data. */
  lemma TransportFailuresRaise(e: Failure)
    ensures Classify(Threw(e)).Error? && Classify(Threw(e)).failure.cls == ConnectorError
    ensures e.cls == SSLError ==> Classify(Threw(e)).failure.message == SslMessage
  {
  }

  /** `str(b)` for a bytes object `b` with `b` as content: `b'...'`, escaped as Python does.
      Double quotes are used only when the content holds `'` and no `"`. */
  function BytesRepr(content: seq<Byte>): (r: string)
    ensures |r| >= |content| + 3
  {
    var quote := if 39 in content && 34 !in content then '"' else '\'';
    "b" + [quote] + EscapeBytes(content, quote) + [quote]
  }

  /** A bytes literal reads back as the bytes it spells, whichever quotes it uses. */
  lemma BytesReprRoundTrip(content: seq<Byte>)
    ensures var r := BytesRepr(content);
            && r[0] == 'b' && r[1] == r[|r| - 1] == (if 39 in content && 34 !in content then '"' else '\'')
            && UnBytesRepr(r) == Some(content)
  {
    var quote := if 39 in content && 34 !in content then '"' else '\'';
    var e := EscapeBytes(content, quote);
    var r := "b" + [quote] + e + [quote];
    assert r[2..|r| - 1] == e;
    UnescapeEscaped(content, quote);
  }

  const HexDigits := "0123456789abcdef"

  /** The bytes-literal spelling of one byte inside quotes `quote`. */
  function EscapeByte(b: Byte, quote: char): (r: string)
    ensures |r| >= 1
    // printable ASCII other than the backslash and the quote in use stands for itself
    ensures |r| == 1 <==> 32 <= b < 127 && b != 92 && b != quote as int
    ensures |r| == 1 ==> r[0] as int == b
    ensures |r| > 1 ==> r[0] == '\\'
  {
    if b == quote as int || b == 92 then ['\\', b as char]
    else if b == 9 then "\\t"
    else if b == 10 then "\\n"
    else if b == 13 then "\\r"
    else if b < 32 || b >= 127 then "\\x" + [HexDigits[b / 16], HexDigits[b % 16]]
    else [b as char]
  }

  function EscapeBytes(content: seq<Byte>, quote: char): (r: string)
    ensures |r| >= |content|
  {
    if content == [] then "" else EscapeByte(content[0], quote) + EscapeBytes(content[1..], quote)
  }

  /** The value of a lower-case hexadecimal digit. */
  function HexValue(ch: char): Option<nat> {
    if '0' <= ch <= '9' then Some(ch as int - '0' as int)
    else if 'a' <= ch <= 'f' then Some(ch as int - 'a' as int + 10)
    else None
  }

  lemma HexDigitValue(d: nat)
    requires d < 16
    ensures HexValue(HexDigits[d]) == Some(d)
  {
  }

  /** The byte one escape sequence after a backslash stands for, and how many characters it takes. */
  function EscapeValue(t: string): (r: Option<(Byte, nat)>)
    ensures r.Some? ==> 2 <= r.value.1 <= |t|
  {
    if |t| < 2 || t[0] != '\\' then None
    else if t[1] == 't' then Some((9, 2))
    else if t[1] == 'n' then Some((10, 2))
    else if t[1] == 'r' then Some((13, 2))
    else if t[1] == '\\' then Some((92, 2))
    else if t[1] == '\'' then Some((39, 2))
    else if t[1] == '"' then Some((34, 2))
    else if t[1] == 'x' && |t| >= 4 && HexValue(t[2]).Some? && HexValue(t[3]).Some? then
      Some((HexValue(t[2]).value * 16 + HexValue(t[3]).value, 4))
    else None
  }

  /** Reads the inside of a bytes literal back into its bytes. */
  function Unescape(t: string): (r: Option<seq<Byte>>)
    decreases |t|
  {
    if t == [] then Some([])
    else if t[0] == '\\' then
      match EscapeValue(t)
      case None => None
      case Some((b, n)) =>
        match Unescape(t[n..])
        case None => None
        case Some(rest) => Some([b] + rest)
    else if t[0] as int < 256 then
      match Unescape(t[1..])
      case None => None
      case Some(rest) => Some([t[0] as int as Byte] + rest)
    else None
  }

  /** Reads a bytes literal `b'...'` or `b"..."` back into its bytes. */
  function UnBytesRepr(s: string): Option<seq<Byte>> {
    if |s| >= 3 && s[0] == 'b' && (s[1] == '\'' || s[1] == '"') && s[|s| - 1] == s[1] then Unescape(s[2..|s| - 1])
    else None
  }

  /** Reading back one escaped byte in front of any text. */
  lemma UnescapeByte(b: Byte, quote: char, rest: string)
    requires quote == '\'' || quote == '"'
    ensures Unescape(EscapeByte(b, quote) + rest) ==
              match Unescape(rest)
              case None => None
              case Some(bs) => Some([b] + bs)
  {
    var e := EscapeByte(b, quote);
    var t := e + rest;
    assert t[..|e|] == e && t[|e|..] == rest;
    if |e| == 1 {
      assert t[0] == e[0] && t[1..] == rest;
    } else {
      EscapeReadsBack(b, quote, rest);
      UnescapeStep(t, b, |e|);
    }
  }

  /** An escape sequence in front of any text is read as the byte it was made from. */
  lemma EscapeReadsBack(b: Byte, quote: char, rest: string)
    requires quote == '\'' || quote == '"'
    requires |EscapeByte(b, quote)| > 1
    ensures EscapeValue(EscapeByte(b, quote) + rest) == Some((b, |EscapeByte(b, quote)|))
  {
    var e := EscapeByte(b, quote);
    var t := e + rest;
    assert t[0] == e[0] && t[1] == e[1];
    if |e| == 4 {
      assert t[2] == e[2] && t[3] == e[3];
      HexDigitValue(b / 16);
      HexDigitValue(b % 16);
    }
  }

  /** `Unescape` at an escape sequence: the byte, then the rest read on. */
  lemma UnescapeStep(t: string, b: Byte, n: nat)
    requires |t| > 0 && t[0] == '\\' && EscapeValue(t) == Some((b, n))
    ensures Unescape(t) == match Unescape(t[n..])
                           case None => None
                           case Some(bs) => Some([b] + bs)
  {
  }

  /** Escaping then reading back gives the bytes again. */
  lemma {:induction false} UnescapeEscaped(content: seq<Byte>, quote: char)
    requires quote == '\'' || quote == '"'
    ensures Unescape(EscapeBytes(content, quote)) == Some(content)
  {
    if content == [] {
    } else {
      var es := EscapeBytes(content[1..], quote);
      assert EscapeBytes(content, quote) == EscapeByte(content[0], quote) + es;
      UnescapeEscaped(content[1..], quote);
      UnescapeByte(content[0], quote, es);
      assert [content[0]] + content[1..] == content;
    }
  }

  /** Bytes a bytes literal shows as themselves: printable ASCII other than `'` and the backslash. */
  predicate Plain(content: seq<Byte>) {
    forall i :: 0 <= i < |content| ==> 32 <= content[i] < 127 && content[i] != 39 && content[i] != 92
  }

  /** The error message of line 45 as written: `response.content` is a bytes object, so
      `format` puts its literal, `b'...'`, after the colon. */
  function StatusMessageAsWritten(status: nat, content: seq<Byte>): (m: string)
    ensures |m| > |StatusMessage(status, content)|
  {
    NatToDecimal(status) + ":" + BytesRepr(content)
  }

  /** The message as written still carries the status and, as a bytes literal, the body's bytes. */
  lemma StatusMessageAsWrittenReadsBack(status: nat, content: seq<Byte>)
    ensures var m := StatusMessageAsWritten(status, content);
            && ParseStatusMessage(m) == Some((status, BytesRepr(content)))
            && UnBytesRepr(ParseStatusMessage(m).value.1) == Some(content)
  {
    StatusMessageRoundTrip(status, BytesRepr(content));
    BytesReprRoundTrip(content);
  }

  lemma {:induction false} EscapePlain(content: seq<Byte>)
    requires Plain(content)
    ensures EscapeBytes(content, '\'') == Latin1(content)
  {
    if content != [] {
      EscapePlain(content[1..]);
      assert Latin1(content) == [content[0] as char] + Latin1(content[1..]);
    }
  }

  /** As written, the message never is the intended `<status>:<body>`: for plain text the body
      arrives wrapped as `b'<body>'`. */
  lemma StatusMessageShowsBytesLiteral(status: nat, content: seq<Byte>)
    ensures StatusMessageAsWritten(status, content) != StatusMessage(status, content)
    ensures Plain(content) ==>
      StatusMessageAsWritten(status, content) == NatToDecimal(status) + ":b'" + Latin1(content) + "'"
  {
    if Plain(content) {
      EscapePlain(content);
    }
  }

  lemma DecimalOf500()
    ensures NatToDecimal(500) == "500"
  {
  }

  lemma TextOfOops()
    ensures Latin1([111, 111, 112, 115]) == "oops"
  {
  }

  /** A 500 response with body `oops` raises `500:b'oops'`; the intended message is `500:oops`. */
  lemma ServerErrorExample(r: Response)
    requires r.status == 500 && r.content == [111, 111, 112, 115]
    ensures Classify(Answered(r)) == Error(Failure(ConnectorError, "500:b'oops'"))
    ensures ClassifyIntended(Answered(r)) == Error(Failure(ConnectorError, "500:oops"))
  {
    var oops := r.content;
    DecimalOf500();
    TextOfOops();
    assert Plain(oops);
    StatusMessageShowsBytesLiteral(500, oops);
    assert StatusMessageAsWritten(500, oops) == "500" + ":b'" + "oops" + "'" == "500:b'oops'";
    assert StatusMessage(500, oops) == "500" + ":" + "oops" == "500:oops";
  }

  /** A 404 is handed back as data whatever its headers say. */
  lemma NotFoundIsData(r: Response)
    requires r.status == 404
    ensures Classify(Answered(r)) == Raw(r)
  {
  }
}
