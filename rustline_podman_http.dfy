/**
 * The HTTP layer of the Podman executor of the `src/` code: the client's
 * errors, the status codes it knows, the status-line parser, the request
 * text it writes to the Podman socket, how it splits what it read back into
 * a status and a body, and the rules that turn a response into a JSON value
 * or an error. Also the container description sent on creation and the
 * conversion of the exit code the wait call reports.
 */
module RustlinePodmanHttp {
  import opened Wrappers
  import opened Strings
  import opened Assoc
  import opened JsonValues

  // ---------------------------------------------------------------------
  // Errors
  // ---------------------------------------------------------------------

  datatype PodmanError =
    | ConnectionFailed(message: string)
    | ApiRequest(message: string)
    | ApiResponse(message: string)
    | ContainerCreateFailed(message: string)
    | ContainerStartFailed(message: string)
    | ContainerWaitFailed(message: string)
    | ContainerLogsError(message: string)
    | ContainerRemoveFailed(message: string)
    | ImagePullFailed(message: string)
    | SocketNotFound

  /** The `Display` text of an error: a fixed prefix per kind, then the message. */
  function ErrorText(e: PodmanError): (s: string)
    ensures e.SocketNotFound? ==> s == "Podman socket not found"
    ensures !e.SocketNotFound? ==> |s| > |e.message| + 2 && s[|s| - |e.message| - 2..] == ": " + e.message
  {
    match e
    case ConnectionFailed(m) => "Connection failed: " + m
    case ApiRequest(m) => "API request failed: " + m
    case ApiResponse(m) => "API response error: " + m
    case ContainerCreateFailed(m) => "Container creation failed: " + m
    case ContainerStartFailed(m) => "Container start failed: " + m
    case ContainerWaitFailed(m) => "Container wait failed: " + m
    case ContainerLogsError(m) => "Container logs error: " + m
    case ContainerRemoveFailed(m) => "Container remove failed: " + m
    case ImagePullFailed(m) => "Image pull failed: " + m
    case SocketNotFound => "Podman socket not found"
  }

  // ---------------------------------------------------------------------
  // Status codes
  // ---------------------------------------------------------------------

  /** The 23 status codes the client knows (`StatusCode`); `StatusOk` is Rust's `Ok`. */
  datatype StatusCode =
    | Continue | StatusOk | Created | Accepted | NonAuthoritative | NoContent
    | MovedPermanently | Found | SeeOther | NotModified
    | BadRequest | Unauthorized | Forbidden | NotFound | MethodNotAllowed | NotAcceptable
    | RequestTimeout | Conflict | UnprocessableEntity
    | InternalServerError | BadGateway | ServiceUnavailable | GatewayTimeout

  const KnownCodes: set<nat> := {
    100, 200, 201, 202, 203, 204, 301, 302, 303, 304, 400, 401, 403, 404, 405, 406, 408, 409, 422,
    500, 502, 503, 504 }

  /** `as_u16`: the code's number. */
  function AsU16(s: StatusCode): (n: nat)
    ensures n in KnownCodes && 100 <= n < 600
  {
    match s
    case Continue => 100
    case StatusOk => 200
    case Created => 201
    case Accepted => 202
    case NonAuthoritative => 203
    case NoContent => 204
    case MovedPermanently => 301
    case Found => 302
    case SeeOther => 303
    case NotModified => 304
    case BadRequest => 400
    case Unauthorized => 401
    case Forbidden => 403
    case NotFound => 404
    case MethodNotAllowed => 405
    case NotAcceptable => 406
    case RequestTimeout => 408
    case Conflict => 409
    case UnprocessableEntity => 422
    case InternalServerError => 500
    case BadGateway => 502
    case ServiceUnavailable => 503
    case GatewayTimeout => 504
  }

  /** `from_u16`: exactly the known codes are accepted, each as the status with that number. */
  function FromU16(code: nat): (r: Option<StatusCode>)
    ensures r.Some? <==> code in KnownCodes
    ensures r.Some? ==> AsU16(r.value) == code
  {
    if code < 300 then FromU16Low(code) else FromU16High(code)
  }

  /** The known codes below 300. */
  function FromU16Low(code: nat): (r: Option<StatusCode>)
    requires code < 300
    ensures r.Some? <==> code in {100, 200, 201, 202, 203, 204}
    ensures r.Some? ==> AsU16(r.value) == code
  {
    match code
    case 100 => Some(Continue)
    case 200 => Some(StatusOk)
    case 201 => Some(Created)
    case 202 => Some(Accepted)
    case 203 => Some(NonAuthoritative)
    case 204 => Some(NoContent)
    case _ => None
  }

  /** The known codes from 300 on. */
  function FromU16High(code: nat): (r: Option<StatusCode>)
    requires code >= 300
    ensures r.Some? <==> code in KnownCodes
    ensures r.Some? ==> AsU16(r.value) == code
  {
    if code < 500 then FromU16Middle(code)
    else
      match code
      case 500 => Some(InternalServerError)
      case 502 => Some(BadGateway)
      case 503 => Some(ServiceUnavailable)
      case 504 => Some(GatewayTimeout)
      case _ => None
  }

  /** The known codes from 300 to 499. */
  function FromU16Middle(code: nat): (r: Option<StatusCode>)
    requires 300 <= code < 500
    ensures r.Some? <==> code in {301, 302, 303, 304, 400, 401, 403, 404, 405, 406, 408, 409, 422}
    ensures r.Some? ==> AsU16(r.value) == code
  {
    match code
    case 301 => Some(MovedPermanently)
    case 302 => Some(Found)
    case 303 => Some(SeeOther)
    case 304 => Some(NotModified)
    case 400 => Some(BadRequest)
    case 401 => Some(Unauthorized)
    case 403 => Some(Forbidden)
    case 404 => Some(NotFound)
    case 405 => Some(MethodNotAllowed)
    case 406 => Some(NotAcceptable)
    case 408 => Some(RequestTimeout)
    case 409 => Some(Conflict)
    case 422 => Some(UnprocessableEntity)
    case _ => None
  }

  /** Reading back the number of a status gives the status: the 23 numbers are distinct. */
  lemma FromAsU16(s: StatusCode)
    ensures FromU16(AsU16(s)) == Some(s)
  {
    match s
    case Continue =>
    case StatusOk =>
    case Created =>
    case Accepted =>
    case NonAuthoritative =>
    case NoContent =>
    case MovedPermanently =>
    case Found =>
    case SeeOther =>
    case NotModified =>
    case BadRequest =>
    case Unauthorized =>
    case Forbidden =>
    case NotFound =>
    case MethodNotAllowed =>
    case NotAcceptable =>
    case RequestTimeout =>
    case Conflict =>
    case UnprocessableEntity =>
    case InternalServerError =>
    case BadGateway =>
    case ServiceUnavailable =>
    case GatewayTimeout =>
  }

  /** `is_success`: 200, 201, 202 and 204 only; 203 is not a success. */
  function IsSuccess(s: StatusCode): (b: bool)
    ensures b <==> AsU16(s) in {200, 201, 202, 204}
  {
    s == StatusOk || s == Created || s == Accepted || s == NoContent
  }

  // ---------------------------------------------------------------------
  // The status line
  // ---------------------------------------------------------------------

  /**
   * Rust `s.splitn(n, sep)`: the pieces between the first `n - 1`
   * occurrences of `sep`; the last piece keeps the rest of the text.
   */
  function SplitN(s: string, n: nat, sep: char): (r: seq<string>)
    requires n >= 1
    ensures 1 <= |r| <= n
    ensures forall i :: 0 <= i < |r| - 1 ==> sep !in r[i]
    ensures |r| < n ==> sep !in r[|r| - 1]
    decreases n
  {
    if n == 1 then [s]
    else
      match IndexOf(s, sep)
      case None => [s]
      case Some(i) => [s[..i]] + SplitN(s[i + 1..], n - 1, sep)
  }

  /** Joining the pieces with the separator gives the text back. */
  lemma {:induction false} SplitNJoin(s: string, n: nat, sep: char)
    requires n >= 1
    ensures Join(SplitN(s, n, sep), [sep]) == s
    decreases n
  {
    if n > 1 && IndexOf(s, sep).Some? {
      var i := IndexOf(s, sep).value;
      var rest := SplitN(s[i + 1..], n - 1, sep);
      var parts := SplitN(s, n, sep);
      assert parts == [s[..i]] + rest;
      assert parts[0] == s[..i] && parts[1..] == rest;
      SplitNJoin(s[i + 1..], n - 1, sep);
      JoinCons(parts, [sep]);
      CutAt(s, i);
    }
  }

  /** Joining two or more parts puts the separator after the first. */
  lemma JoinCons(parts: seq<string>, sep: string)
    requires |parts| >= 2
    ensures Join(parts, sep) == parts[0] + sep + Join(parts[1..], sep)
  {
  }

  /** A text is the part before position `i`, the character there, and the part after. */
  lemma CutAt(s: string, i: nat)
    requires i < |s|
    ensures s == s[..i] + [s[i]] + s[i + 1..]
  {
  }

  /**
   * `parse_status_code`: the second space-separated field must be a `u16`
   * that is one of the known codes. Applied to the whole header block.
   */
  function ParseStatusCode(line: string): (r: Result<StatusCode, PodmanError>)
    ensures ' ' !in line ==> r == Err(ApiResponse("Invalid status line: " + line))
    ensures r.Err? ==> r.error.ApiResponse?
  {
    var parts := SplitN(line, 3, ' ');
    if |parts| < 2 then Err(ApiResponse("Invalid status line: " + line))
    else
      match ParseU16(parts[1])
      case None => Err(ApiResponse("Invalid status code in: " + line))
      case Some(code) =>
        match FromU16(code)
        case None => Err(ApiResponse("Unknown status code: " + NatToString(code)))
        case Some(s) => Ok(s)
  }

  /** Rust `s.parse::<u16>()` on a rendered number: its value when it fits, an error otherwise. */
  lemma ParseU16Rendered(code: nat)
    ensures ParseU16(NatToString(code)) == if code < 65536 then Some(code) else None
  {
    DigitsOfNat(code);
  }

  /**
   * A line `<version> <code> <rest>` whose version has no space parses to
   * the status with that number, and otherwise to the error naming why.
   */
  lemma ParseStatusLine(version: string, code: nat, rest: string)
    requires ' ' !in version
    ensures var line := version + " " + NatToString(code) + " " + rest;
      ParseStatusCode(line)
      == if code >= 65536 then Err(ApiResponse("Invalid status code in: " + line))
         else if code !in KnownCodes then Err(ApiResponse("Unknown status code: " + NatToString(code)))
         else Ok(FromU16(code).value)
  {
    var line := version + " " + NatToString(code) + " " + rest;
    StatusLineFields(version, NatToString(code), rest);
    assert SplitN(line, 3, ' ')[1] == NatToString(code);
    ParseU16Rendered(code);
  }

  /** The three fields of `<version> <digits> <rest>` when the version has no space. */
  lemma StatusLineFields(version: string, d: string, rest: string)
    requires ' ' !in version
    requires forall i :: 0 <= i < |d| ==> IsDigit(d[i])
    ensures SplitN(version + " " + d + " " + rest, 3, ' ') == [version, d, rest]
  {
    var tail := d + " " + rest;
    var line := version + " " + d + " " + rest;
    assert line == version + " " + tail;
    assert line[..|version|] == version;
    IndexOfIs(line, ' ', |version|);
    assert line[|version| + 1..] == tail;
    assert ' ' !in d by {
      forall i | 0 <= i < |d| ensures d[i] != ' ' {
        assert IsDigit(d[i]);
      }
    }
    assert tail[..|d|] == d;
    IndexOfIs(tail, ' ', |d|);
    assert tail[|d| + 1..] == rest;
  }

  // ---------------------------------------------------------------------
  // The request
  // ---------------------------------------------------------------------

  const CRLF: string := "\r\n"
  const BlankLine: string := "\r\n\r\n"
  const HostHeader: string := "Host: localhost"
  const AcceptHeader: string := "Accept: application/json"
  const ApiVersionField: string := "Api-Version: "
  const ContentTypeHeader: string := "Content-Type: application/json"
  const ContentLengthField: string := "Content-Length: "

  /** The request path with a leading '/' added when it has none. */
  function PrefixedPath(path: string): (r: string)
    ensures StartsWith(r, "/")
    ensures StartsWith(path, "/") ==> r == path
    ensures !StartsWith(path, "/") ==> r == "/" + path
  {
    if |path| > 0 && path[0] == '/' then path else "/" + path
  }

  /** Rust `s.trim_start_matches(c)`: the longest suffix of `s` that does not start with `c`. */
  function TrimLeading(s: string, c: char): (r: string)
    ensures |r| <= |s| && r == s[|s| - |r|..]
    ensures forall i :: 0 <= i < |s| - |r| ==> s[i] == c
    ensures |r| > 0 ==> r[0] != c
  {
    if |s| > 0 && s[0] == c then TrimLeading(s[1..], c) else s
  }

  /**
   * The `Api-Version` header value: the configured version without its
   * leading 'v's becomes the path of the base URL, and the header is that
   * path without its leading '/'s.
   */
  function ApiVersionHeader(apiVersion: string): (r: string)
    ensures r == TrimLeading(TrimLeading(apiVersion, 'v'), '/')
  {
    TrimLeading("/" + TrimLeading(apiVersion, 'v'), '/')
  }

  /** The default version "v5.0.0" is sent as "5.0.0". */
  lemma DefaultApiVersionHeader()
    ensures ApiVersionHeader("v5.0.0") == "5.0.0"
  {
    assert TrimLeading("v5.0.0", 'v') == TrimLeading("5.0.0", 'v');
  }

  /** Lines, each ended by CRLF. */
  function Lines(ls: seq<string>): (r: string)
    ensures |r| >= 2 * |ls|
  {
    if |ls| == 0 then "" else ls[0] + CRLF + Lines(ls[1..])
  }

  /**
   * The header lines of a request: the request line, host, accept and API
   * version, and for a body its type and its length in bytes.
   */
  function HeaderLines(verb: string, path: string, version: string, body: Option<string>): seq<string> {
    [verb + " " + PrefixedPath(path) + " HTTP/1.1", HostHeader, AcceptHeader, ApiVersionField + version]
    + if body.Some? then [ContentTypeHeader, ContentLengthField + NatToString(Utf8Len(body.value))]
      else []
  }

  /** The request text `send_http_request` writes: the header lines, a blank line, the body if any. */
  function RequestText(verb: string, path: string, version: string, body: Option<string>): string {
    Lines(HeaderLines(verb, path, version, body)) + CRLF + (if body.Some? then body.value else "")
  }

  /** Adding one line at the end of a list adds it, with its CRLF, at the end of the text. */
  lemma {:induction false} LinesSnoc(ls: seq<string>, l: string)
    ensures Lines(ls + [l]) == Lines(ls) + l + CRLF
    decreases |ls|
  {
    if |ls| == 0 {
      assert ls + [l] == [l];
      assert [l][1..] == [];
    } else {
      assert (ls + [l])[1..] == ls[1..] + [l];
      LinesSnoc(ls[1..], l);
    }
  }

  /** The `push_str` calls that build the request. */
  method BuildRequest(verb: string, path: string, version: string, body: Option<string>) returns (request: string)
    ensures request == RequestText(verb, path, version, body)
  {
    ghost var ls := HeaderLines(verb, path, version, body);
    request := BuildHead(verb, path, version);
    assert ls[..4] == HeaderLines(verb, path, version, None);
    if body.Some? {
      request := request + ContentTypeHeader + CRLF;
      assert request == Lines(ls[..5]) by {
        LinesSnoc(ls[..4], ls[4]);
        assert ls[..5] == ls[..4] + [ls[4]];
      }
      assert request + ContentLengthField + NatToString(Utf8Len(body.value)) == request + ls[5];
      request := request + ContentLengthField + NatToString(Utf8Len(body.value)) + CRLF;
      assert request == Lines(ls) by {
        LinesSnoc(ls[..5], ls[5]);
        assert ls == ls[..5] + [ls[5]];
      }
      request := request + CRLF;
      request := request + body.value;
    } else {
      assert ls[..4] == ls;
      request := request + CRLF;
      assert request == request + "";
    }
  }

  /** The request line and the three headers every request has. */
  method BuildHead(verb: string, path: string, version: string) returns (request: string)
    ensures request == Lines(HeaderLines(verb, path, version, None))
  {
    ghost var ls := HeaderLines(verb, path, version, None);
    var pathPrefixed := if |path| > 0 && path[0] == '/' then path else "/" + path;
    request := verb + " " + pathPrefixed + " HTTP/1.1" + CRLF;
    assert request == Lines(ls[..1]) by {
      LinesSnoc([], ls[0]);
      assert ls[..1] == [] + [ls[0]];
    }
    request := request + HostHeader + CRLF;
    assert request == Lines(ls[..2]) by {
      LinesSnoc(ls[..1], ls[1]);
      assert ls[..2] == ls[..1] + [ls[1]];
    }
    request := request + AcceptHeader + CRLF;
    assert request == Lines(ls[..3]) by {
      LinesSnoc(ls[..2], ls[2]);
      assert ls[..3] == ls[..2] + [ls[2]];
    }
    assert request + ApiVersionField + version == request + ls[3];
    request := request + ApiVersionField + version + CRLF;
    assert request == Lines(ls) by {
      LinesSnoc(ls[..3], ls[3]);
      assert ls == ls[..3] + [ls[3]];
    }
  }

  /** A header line as the framing needs it: not empty, no carriage return. */
  predicate PlainLine(l: string) {
    |l| > 0 && '\r' !in l
  }

  /** An occurrence in `b` is one in `a + b`, shifted by `|a|`. */
  lemma OccursAtShift(a: string, b: string, sub: string, k: nat)
    ensures OccursAt(a + b, sub, |a| + k) <==> OccursAt(b, sub, k)
  {
    if 0 <= k && k + |sub| <= |b| {
      assert (a + b)[|a| + k..|a| + k + |sub|] == b[k..k + |sub|];
    }
  }

  /** If `sub` occurs at `p` and nowhere before, `Find` gives `p`. */
  lemma FindIs(s: string, sub: string, p: nat)
    requires OccursAt(s, sub, p)
    requires forall j :: 0 <= j < p ==> !OccursAt(s, sub, j)
    ensures Find(s, sub) == Some(p)
  {
    assert Contains(s, sub);
  }

  /** A blank line cannot start where there is no carriage return, or none two characters on. */
  lemma NotBlankAt(t: string, j: nat)
    requires j + 4 > |t| || t[j] != '\r' || t[j + 2] != '\r'
    ensures !OccursAt(t, BlankLine, j)
  {
    BlankAt(t, j);
  }

  /** Where a blank line starts, there are carriage returns at its first and third characters. */
  lemma BlankAt(t: string, j: nat)
    ensures OccursAt(t, BlankLine, j) ==> j + 4 <= |t| && t[j] == '\r' && t[j + 2] == '\r'
  {
    if OccursAt(t, BlankLine, j) {
      assert t[j] == t[j..j + 4][0] && t[j + 2] == t[j..j + 4][2];
    }
  }

  /**
   * After plain header lines and a CRLF, the first blank line is the one
   * the last header line's CRLF starts, whatever follows.
   */
  lemma {:induction false} FirstBlankLine(ls: seq<string>, rest: string)
    requires |ls| > 0
    requires forall i :: 0 <= i < |ls| ==> PlainLine(ls[i])
    ensures Find(Lines(ls) + CRLF + rest, BlankLine) == Some(|Lines(ls)| - 2)
    decreases |ls|
  {
    assert PlainLine(ls[0]);
    assert Lines(ls) == ls[0] + CRLF + Lines(ls[1..]);
    if |ls| == 1 {
      assert Lines(ls[1..]) == "";
      BlankLineAfterOneLine(ls[0], Lines(ls[1..]), rest);
    } else {
      FirstBlankLine(ls[1..], rest);
      LinesHead(ls[1..]);
      BlankLineAfterLines(ls[0], Lines(ls[1..]), rest);
    }
  }

  /** Header lines start with the first character of their first line. */
  lemma LinesHead(ls: seq<string>)
    requires |ls| > 0 && PlainLine(ls[0])
    ensures |Lines(ls)| > 0 && Lines(ls)[0] == ls[0][0] != '\r'
  {
    assert Lines(ls) == ls[0] + CRLF + Lines(ls[1..]);
  }

  /** The step of `FirstBlankLine`: one more plain line in front of the others. */
  lemma BlankLineAfterLines(x: string, mid: string, rest: string)
    requires PlainLine(x) && |mid| >= 2 && mid[0] != '\r'
    requires Find(mid + CRLF + rest, BlankLine) == Some(|mid| - 2)
    ensures Find(x + CRLF + mid + CRLF + rest, BlankLine) == Some(|x| + |mid|)
  {
    var tail := mid + CRLF + rest;
    assert x + CRLF + mid + CRLF + rest == x + CRLF + tail;
    BlankLineAfterLine(x, tail, |mid| - 2);
  }

  /** A plain line, its CRLF and another CRLF: the blank line starts right after the line. */
  lemma BlankLineAfterOneLine(x: string, none: string, rest: string)
    requires PlainLine(x) && none == ""
    ensures Find(x + CRLF + none + CRLF + rest, BlankLine) == Some(|x|)
  {
    var t := x + CRLF + none + CRLF + rest;
    forall j | 0 <= j < |x| ensures !OccursAt(t, BlankLine, j) {
      assert t[j] == x[j];
      NotBlankAt(t, j);
    }
    assert t[|x|..|x| + 4] == BlankLine;
    FindIs(t, BlankLine, |x|);
  }

  /** A plain line and its CRLF before a text not starting with '\r' shift its first blank line. */
  lemma BlankLineAfterLine(x: string, tail: string, q: nat)
    requires PlainLine(x) && |tail| > 0 && tail[0] != '\r'
    requires Find(tail, BlankLine) == Some(q)
    ensures Find(x + CRLF + tail, BlankLine) == Some(|x| + 2 + q)
  {
    var a := x + CRLF;
    var t := a + tail;
    assert x + CRLF + tail == t;
    forall j | 0 <= j < |a| + q ensures !OccursAt(t, BlankLine, j) {
      if j < |x| {
        assert t[j] == x[j];
        NotBlankAt(t, j);
      } else if j == |x| {
        assert j + 4 > |t| || t[j + 2] == tail[0];
        NotBlankAt(t, j);
      } else if j == |x| + 1 {
        assert t[j] == '\n';
        NotBlankAt(t, j);
      } else {
        OccursAtShift(a, tail, BlankLine, j - |a|);
      }
    }
    OccursAtShift(a, tail, BlankLine, q);
    FindIs(t, BlankLine, |a| + q);
  }

  /**
   * Request framing: when method, path and version carry no carriage
   * return, the first blank line of the request ends its header, and what
   * follows it is exactly the body (nothing for a bodiless request).
   */
  lemma RequestFraming(verb: string, path: string, version: string, body: Option<string>)
    requires '\r' !in verb && '\r' !in path && '\r' !in version
    ensures var t := RequestText(verb, path, version, body);
      var b := if body.Some? then body.value else "";
      |t| >= |b| + 4 && Find(t, BlankLine) == Some(|t| - |b| - 4) && t[|t| - |b|..] == b
  {
    var b := if body.Some? then body.value else "";
    HeaderLinesPlain(verb, path, version, body);
    FirstBlankLine(HeaderLines(verb, path, version, body), b);
  }

  /** Every header line of a request is plain when its parts are. */
  lemma HeaderLinesPlain(verb: string, path: string, version: string, body: Option<string>)
    requires '\r' !in verb && '\r' !in path && '\r' !in version
    ensures var ls := HeaderLines(verb, path, version, body);
      |ls| > 0 && forall i :: 0 <= i < |ls| ==> PlainLine(ls[i])
  {
    RequestLinePlain(verb, path);
    HeaderConstantsPlain();
    FieldLinePlain(ApiVersionField, version);
    if body.Some? {
      var n := NatToString(Utf8Len(body.value));
      NumberPlain(Utf8Len(body.value));
      FieldLinePlain(ContentLengthField, n);
    }
  }

  /** The request line has no carriage return when the verb and the path have none. */
  lemma RequestLinePlain(verb: string, path: string)
    requires '\r' !in verb && '\r' !in path
    ensures PlainLine(verb + " " + PrefixedPath(path) + " HTTP/1.1")
  {
    assert '\r' !in PrefixedPath(path);
  }

  /** The fixed header lines and field names are non-empty and have no carriage return. */
  lemma HeaderConstantsPlain()
    ensures PlainLine(HostHeader) && PlainLine(AcceptHeader) && PlainLine(ContentTypeHeader)
    ensures PlainLine(ApiVersionField) && PlainLine(ContentLengthField)
  {
  }

  /** A field name followed by a value without carriage return is a plain line. */
  lemma FieldLinePlain(field: string, value: string)
    requires PlainLine(field) && '\r' !in value
    ensures PlainLine(field + value)
  {
  }

  /** A rendered number is made of digits, so it has no carriage return. */
  lemma NumberPlain(n: nat)
    ensures '\r' !in NatToString(n)
  {
    var d := NatToString(n);
    assert forall k :: 0 <= k < |d| ==> IsDigit(d[k]);
  }

  // ---------------------------------------------------------------------
  // The response
  // ---------------------------------------------------------------------

  datatype Response = Response(status: StatusCode, body: string)

  /** Where the header block ends: the first blank line, or the end of the text. */
  function BodyStart(resp: string): (k: nat)
    ensures k <= |resp|
    ensures Contains(resp, BlankLine) ==> Find(resp, BlankLine) == Some(k)
    ensures !Contains(resp, BlankLine) ==> k == |resp|
  {
    match Find(resp, BlankLine)
    case None => |resp|
    case Some(i) => i
  }

  /** The split of a response as written, which can panic on the body slice. */
  datatype Exchange = Exchanged(result: Result<Response, PodmanError>) | SlicePanic

  /**
   * The end of `send_http_request` as written: the header block is parsed
   * for the status, and the body is the text from four characters past the
   * block's end, a slice that panics when the block runs to the end.
   */
  function SplitResponseAsWritten(resp: string): Exchange {
    var bodyStart := BodyStart(resp);
    var headerEnd := bodyStart + 4;
    match ParseStatusCode(resp[..bodyStart])
    case Err(e) => Exchanged(Err(e))
    case Ok(status) =>
      if headerEnd > |resp| then SlicePanic else Exchanged(Ok(Response(status, resp[headerEnd..])))
  }

  /**
   * The split this model uses: the same, except that a response without a
   * blank line has an empty body.
   */
  function SplitResponse(resp: string): (r: Result<Response, PodmanError>)
    ensures r.Err? <==> ParseStatusCode(resp[..BodyStart(resp)]).Err?
    ensures r.Err? ==> r.error.ApiResponse?
    ensures !Contains(resp, BlankLine) && r.Ok? ==> r.value.body == ""
  {
    var bodyStart := BodyStart(resp);
    match ParseStatusCode(resp[..bodyStart])
    case Err(e) => Err(e)
    case Ok(status) =>
      Ok(Response(status, if bodyStart + 4 <= |resp| then resp[bodyStart + 4..] else ""))
  }

  /**
   * The two splits agree on every response that has a blank line or whose
   * status does not parse, and on no other: there the code as written panics.
   */
  lemma SplitAsWrittenAgrees(resp: string)
    ensures SplitResponseAsWritten(resp) == Exchanged(SplitResponse(resp))
        <==> Contains(resp, BlankLine) || ParseStatusCode(resp).Err?
    ensures SplitResponseAsWritten(resp) == SlicePanic
        <==> !Contains(resp, BlankLine) && ParseStatusCode(resp).Ok?
  {
    if Contains(resp, BlankLine) {
      assert OccursAt(resp, BlankLine, BodyStart(resp));
    } else {
      assert resp[..BodyStart(resp)] == resp;
    }
  }

  /**
   * A reply that is only a status line, "HTTP/1.1 204 No Content" and a
   * line end, makes the code as written panic; the corrected split gives
   * the status and an empty body.
   */
  lemma NoBlankLinePanics()
    ensures SplitResponseAsWritten(StatusLine(NoContent, "No Content") + CRLF) == SlicePanic
    ensures SplitResponse(StatusLine(NoContent, "No Content") + CRLF) == Ok(Response(NoContent, ""))
  {
    var line := StatusLine(NoContent, "No Content");
    var resp := line + CRLF;
    assert '\r' !in line by {
      StatusLinePlain(NoContent, "No Content");
    }
    NoBlankLineAfterOneLine(line);
    StatusLineParses(NoContent, "No Content");
    SplitAsWrittenAgrees(resp);
    assert resp[..BodyStart(resp)] == resp;
  }

  /** The status line of any status, ended by CRLF, parses back to that status. */
  lemma StatusLineParses(status: StatusCode, reason: string)
    ensures ParseStatusCode(StatusLine(status, reason) + CRLF) == Ok(status)
  {
    var code := AsU16(status);
    StatusLineRegroup(NatToString(code), reason);
    FromAsU16(status);
    ParseStatusLine(HttpVersion, code, reason + CRLF);
  }

  /** A status line ended by CRLF is the version, the code and the reason with the line end. */
  lemma StatusLineRegroup(d: string, reason: string)
    ensures HttpVersion + " " + d + " " + reason + CRLF == HttpVersion + " " + d + " " + (reason + CRLF)
    ensures ' ' !in HttpVersion
  {
  }

  /** One line without carriage return, ended by CRLF, has no blank line. */
  lemma NoBlankLineAfterOneLine(line: string)
    requires '\r' !in line
    ensures !Contains(line + CRLF, BlankLine)
  {
    var t := line + CRLF;
    forall j | 0 <= j <= |t| - 4 ensures !OccursAt(t, BlankLine, j) {
      assert t[j] == line[j];
      NotBlankAt(t, j);
    }
  }

  /** The text of a response: status line, plain header lines, a blank line, the body. */
  function ResponseText(status: StatusCode, reason: string, headers: seq<string>, body: string): string {
    Lines([StatusLine(status, reason)] + headers) + CRLF + body
  }

  /** "HTTP/1.1 <code> <reason>". */
  const HttpVersion: string := "HTTP/1.1"

  function StatusLine(status: StatusCode, reason: string): string {
    HttpVersion + " " + NatToString(AsU16(status)) + " " + reason
  }

  /** Splitting a well-formed response gives back its status and its body. */
  lemma ResponseRoundTrip(status: StatusCode, reason: string, headers: seq<string>, body: string)
    requires '\r' !in reason
    requires forall i :: 0 <= i < |headers| ==> PlainLine(headers[i])
    ensures SplitResponse(ResponseText(status, reason, headers, body)) == Ok(Response(status, body))
  {
    var ls := [StatusLine(status, reason)] + headers;
    var resp := ResponseText(status, reason, headers, body);
    ResponseLinesPlain(status, reason, headers);
    FirstBlankLine(ls, body);
    var k := |Lines(ls)| - 2;
    assert BodyStart(resp) == k;
    assert resp[..k] == HeaderBlock(status, reason, headers);
    HeaderBlockParses(status, reason, headers);
    assert resp[k + 4..] == body;
  }

  /** A status line is plain when its reason is. */
  lemma StatusLinePlain(status: StatusCode, reason: string)
    requires '\r' !in reason
    ensures PlainLine(StatusLine(status, reason))
  {
    var d := NatToString(AsU16(status));
    assert '\r' !in d by {
      assert forall k :: 0 <= k < |d| ==> IsDigit(d[k]);
    }
  }

  /** The status line and the headers of a well-formed response are plain. */
  lemma ResponseLinesPlain(status: StatusCode, reason: string, headers: seq<string>)
    requires '\r' !in reason
    requires forall i :: 0 <= i < |headers| ==> PlainLine(headers[i])
    ensures forall i :: 0 <= i < |headers| + 1 ==> PlainLine(([StatusLine(status, reason)] + headers)[i])
  {
    StatusLinePlain(status, reason);
  }

  /** The header block of a well-formed response: its lines without the last CRLF. */
  function HeaderBlock(status: StatusCode, reason: string, headers: seq<string>): string {
    var block := Lines([StatusLine(status, reason)] + headers);
    block[..|block| - 2]
  }

  /** The header block of a well-formed response parses to its status. */
  lemma HeaderBlockParses(status: StatusCode, reason: string, headers: seq<string>)
    ensures ParseStatusCode(HeaderBlock(status, reason, headers)) == Ok(status)
  {
    var ls := [StatusLine(status, reason)] + headers;
    var block := Lines(ls);
    var d := NatToString(AsU16(status));
    var after := CRLF + Lines(headers);
    assert block == StatusLine(status, reason) + after by {
      assert ls[1..] == headers;
    }
    var rest := reason + after[..|after| - 2];
    assert HeaderBlock(status, reason, headers) == HttpVersion + " " + d + " " + rest;
    ParseStatusLine(HttpVersion, AsU16(status), rest);
    FromAsU16(status);
  }

  // ---------------------------------------------------------------------
  // JSON values and the outcome of a request
  // ---------------------------------------------------------------------

  /**
   * `request`: a non-success status is an error naming the code and the
   * body; an empty body of a success is `null`; any other body is decoded
   * (the decoder is given), and a decoding failure is an error.
   */
  function RequestOutcome(resp: Response, decode: string -> Result<Json, string>): (r: Result<Json, PodmanError>)
    ensures r.Ok? ==> IsSuccess(resp.status)
    ensures r.Err? ==> r.error.ApiResponse?
    ensures !IsSuccess(resp.status) ==>
      r == Err(ApiResponse("API error " + NatToString(AsU16(resp.status)) + ": " + resp.body))
    ensures IsSuccess(resp.status) && resp.body == "" ==> r == Ok(JNull)
    ensures IsSuccess(resp.status) && resp.body != "" ==>
      (r.Ok? <==> decode(resp.body).Ok?) && (r.Ok? ==> r.value == decode(resp.body).value)
  {
    if !IsSuccess(resp.status) then
      Err(ApiResponse("API error " + NatToString(AsU16(resp.status)) + ": " + resp.body))
    else if resp.body == "" then Ok(JNull)
    else
      match decode(resp.body)
      case Ok(json) => Ok(json)
      case Err(message) => Err(ApiResponse("JSON parse failed: " + message))
  }

  /** The container id of a create response: a string field "Id" of an object. */
  function ContainerId(j: Json): (r: Option<string>)
    ensures r.Some? <==> j.JObject? && Get(j.fields, "Id").Some? && Get(j.fields, "Id").value.JString?
    ensures r.Some? ==> r.value == Get(j.fields, "Id").value.s
  {
    if j.JObject? && Get(j.fields, "Id").Some? && Get(j.fields, "Id").value.JString? then
      Some(Get(j.fields, "Id").value.s)
    else None
  }

  const I64Min: int := -0x8000_0000_0000_0000
  const I64Limit: int := 0x8000_0000_0000_0000

  /** `as_i64`: an integer that fits in 64 signed bits. */
  function AsI64(j: Json): (r: Option<int>)
    ensures r.Some? <==> j.JInt? && I64Min <= j.i < I64Limit
    ensures r.Some? ==> r.value == j.i
  {
    if j.JInt? && I64Min <= j.i < I64Limit then Some(j.i) else None
  }

  /**
   * Rust `v as i32`: the one 32-bit signed value congruent to `v` modulo
   * 2^32, which is `v` itself when it fits.
   */
  function ToI32(v: int): (r: int)
    ensures -0x8000_0000 <= r < 0x8000_0000
    ensures (v - r) % 0x1_0000_0000 == 0
    ensures -0x8000_0000 <= v < 0x8000_0000 ==> r == v
  {
    var m := v % 0x1_0000_0000;
    if m >= 0x8000_0000 then m - 0x1_0000_0000 else m
  }

  /** No other 32-bit value is congruent to `v`: `ToI32` is the wrap-around. */
  lemma ToI32Unique(v: int, r: int)
    requires -0x8000_0000 <= r < 0x8000_0000 && (v - r) % 0x1_0000_0000 == 0
    ensures ToI32(v) == r
  {
    var t := ToI32(v);
    var a, b := (v - t) / 0x1_0000_0000, (v - r) / 0x1_0000_0000;
    assert v - t == 0x1_0000_0000 * a;
    assert v - r == 0x1_0000_0000 * b;
    assert t - r == 0x1_0000_0000 * (b - a);
  }

  /** The exit code `wait_container` reports: the reply's 64-bit integer, else 0, cast to 32 bits. */
  function WaitExitCode(j: Json): (code: int)
    ensures AsI64(j).None? ==> code == 0
    ensures AsI64(j).Some? ==> code == ToI32(j.i)
  {
    ToI32(match AsI64(j) case Some(v) => v case None => 0)
  }

  // ---------------------------------------------------------------------
  // The container description
  // ---------------------------------------------------------------------

  /** The create request's container description, before serialisation. */
  datatype ContainerSpec = ContainerSpec(
    image: string, cmd: seq<string>, workingDir: string, env: seq<string>,
    cgroupManager: string, tty: bool, openStdin: bool)

  /** One "k=v" string per environment entry, in the map's order. */
  function EnvStrings(env: Entries<string>): (r: seq<string>)
    ensures |r| == |env|
    ensures forall i :: 0 <= i < |env| ==> r[i] == env[i].0 + "=" + env[i].1
  {
    if |env| == 0 then [] else [env[0].0 + "=" + env[0].1] + EnvStrings(env[1..])
  }

  /** The loop of `create_container` that renders the environment. */
  method BuildEnvStrings(env: Entries<string>) returns (v: seq<string>)
    ensures v == EnvStrings(env)
  {
    v := [];
    var i := 0;
    while i < |env|
      invariant 0 <= i <= |env|
      invariant |v| == i && forall k :: 0 <= k < i ==> v[k] == env[k].0 + "=" + env[k].1
      decreases |env| - i
    {
      v := v + [env[i].0 + "=" + env[i].1];
      i := i + 1;
    }
  }

  /** A rendered pair whose key has no '=' splits back at its first '=' into key and value. */
  lemma EnvStringRoundTrip(env: Entries<string>, i: nat)
    requires i < |env| && '=' !in env[i].0
    ensures var s := EnvStrings(env)[i];
      IndexOf(s, '=') == Some(|env[i].0|) && s[..|env[i].0|] == env[i].0 && s[|env[i].0| + 1..] == env[i].1
  {
    var s := EnvStrings(env)[i];
    assert s[..|env[i].0|] == env[i].0;
    IndexOfIs(s, '=', |env[i].0|);
  }

  /**
   * The description `create_container` sends: `sh -c <command>`, the
   * working directory, the environment, the cgroup manager ("cgroupfs"
   * unless one is given), no terminal and no stdin.
   */
  function CreateSpec(image: string, command: string, env: Entries<string>, workingDir: string,
                      cgroupManager: Option<string>): (s: ContainerSpec)
    ensures s.image == image && s.cmd == ["sh", "-c", command] && s.workingDir == workingDir
    ensures s.env == EnvStrings(env)
    ensures cgroupManager.Some? ==> s.cgroupManager == cgroupManager.value
    ensures cgroupManager.None? ==> s.cgroupManager == "cgroupfs"
    ensures !s.tty && !s.openStdin
  {
    ContainerSpec(image, ["sh", "-c", command], workingDir, EnvStrings(env),
                  if cgroupManager.Some? then cgroupManager.value else "cgroupfs", false, false)
  }
}
