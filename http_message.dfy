/**
 * The HTTP message side of the CommUnity gateway: `HttpRequest` and `HttpResponse`, the
 * request parser (`HttpServer::parseRequest`) and the response serialiser
 * (`HttpServer::buildResponse`). The parser accepts a simplified subset of HTTP/1.1 message
 * syntax (RFC 9112, sections 2.1, 3 and 5.1): a request line, header field lines split at the
 * first colon, an empty line, and the body.
 *
 * An `std::istringstream` read with `std::getline` is modelled by the sequence of lines it
 * yields (`Text.Lines`); the parser's loops walk that sequence.
 */
module HttpMessages {
  import opened Wrappers
  import opened Text
  import opened SortedMaps

  datatype Method = GET | POST | PUT | DELETE | UNKNOWN

  /** The request-line token that selects each method; any other token selects none. */
  function MethodOf(token: string): Method {
    if token == "GET" then GET
    else if token == "POST" then POST
    else if token == "PUT" then PUT
    else if token == "DELETE" then DELETE
    else UNKNOWN
  }

  /** The name `logRequest` prints for a method. */
  function MethodName(m: Method): string {
    match m
    case GET => "GET"
    case POST => "POST"
    case PUT => "PUT"
    case DELETE => "DELETE"
    case UNKNOWN => "UNKNOWN"
  }

  /** Exactly the four method names are recognised, and each selects its own method. */
  lemma MethodTokens(m: Method, token: string)
    ensures m != UNKNOWN ==> MethodOf(MethodName(m)) == m
    ensures MethodOf(token) != UNKNOWN ==> MethodName(MethodOf(token)) == token
    ensures MethodOf(token) == UNKNOWN <==> token !in ["GET", "POST", "PUT", "DELETE"]
  {
  }

  // ---------------------------------------------------------------------------
  // Path and query
  // ---------------------------------------------------------------------------

  /** `getPathComponents`: the non-empty pieces between '/' separators, in order. */
  function PathComponents(path: string): seq<string> {
    NonEmpty(Split(path, '/'))
  }

  /** One `key=value` piece of a query, split at its first '='; a piece without '=' adds nothing. */
  function AddParam(params: Entries, piece: string): Entries {
    match IndexOf(piece, '=')
    case None => params
    case Some(e) => Put(params, piece[..e], piece[e + 1..])
  }

  /** The parameters of the query pieces, taken in order, so a later duplicate wins. */
  function ParamsOf(pieces: seq<string>): Entries
    decreases |pieces|
  {
    if pieces == [] then [] else AddParam(ParamsOf(pieces[..|pieces| - 1]), pieces[|pieces| - 1])
  }

  /** The query pieces: the text after the first '?', split at '&'. */
  function QueryPieces(path: string): seq<string> {
    match IndexOf(path, '?')
    case None => []
    case Some(q) => Split(path[q + 1..], '&')
  }

  /** `getQueryParameters`. */
  function QueryParameters(path: string): Entries {
    ParamsOf(QueryPieces(path))
  }

  /** The parameter map stays an ordered map. */
  lemma {:induction false} ParamsSorted(pieces: seq<string>)
    ensures Sorted(ParamsOf(pieces))
    decreases |pieces|
  {
    if pieces != [] {
      var init, last := pieces[..|pieces| - 1], pieces[|pieces| - 1];
      ParamsSorted(init);
      if IndexOf(last, '=').Some? {
        var e := IndexOf(last, '=').value;
        PutSorted(ParamsOf(init), last[..e], last[e + 1..]);
      }
    }
  }

  /**
   * A later piece `key=value` decides the value of `key`, a piece without '=' changes
   * nothing, and the key is the text before the first '='.
   */
  lemma QueryLastWins(pieces: seq<string>, piece: string)
    ensures '=' !in piece ==> ParamsOf(pieces + [piece]) == ParamsOf(pieces)
    ensures forall e :: 0 <= e < |piece| && piece[e] == '=' && '=' !in piece[..e] ==>
      Get(ParamsOf(pieces + [piece]), piece[..e]) == Some(piece[e + 1..])
  {
    var ps := pieces + [piece];
    assert ps[..|ps| - 1] == pieces;
    if '=' in piece {
      var e := IndexOf(piece, '=').value;
      PutGet(ParamsOf(pieces), piece[..e], piece[e + 1..]);
    }
  }

  /** A path without '?' has no query parameters. */
  lemma NoQueryWithoutMark(path: string)
    requires '?' !in path
    ensures QueryParameters(path) == []
  {
  }

  /** A '/'-free piece followed by '/': the first '/' sits right after the piece. */
  lemma FirstSlash(c: string, rest: string)
    requires '/' !in c
    ensures IndexOf(c + "/" + rest, '/') == Some(|c|)
  {
    var s := c + "/" + rest;
    assert s[|c|] == '/';
    assert s[..|c|] == c;
  }

  /** Joining non-empty '/'-free pieces with '/' and splitting at '/' gives the pieces back. */
  lemma {:induction false} SplitJoinedPath(cs: seq<string>)
    requires forall k :: 0 <= k < |cs| ==> cs[k] != [] && '/' !in cs[k]
    ensures Split(Join(cs, "/"), '/') == cs
    decreases |cs|
  {
    if |cs| == 1 {
      assert Join(cs, "/") == cs[0];
      assert IndexOf(cs[0], '/') == None;
    } else if |cs| > 1 {
      var rest := cs[1..];
      SplitJoinedPath(rest);
      var s := Join(cs, "/");
      assert s == cs[0] + "/" + Join(rest, "/");
      FirstSlash(cs[0], Join(rest, "/"));
      assert s[..|cs[0]|] == cs[0];
      assert s[|cs[0]| + 1..] == Join(rest, "/");
    }
  }

  /** Non-empty pieces pass through `NonEmpty` untouched. */
  lemma {:induction false} NonEmptyKeeps(cs: seq<string>)
    requires forall k :: 0 <= k < |cs| ==> cs[k] != []
    ensures NonEmpty(cs) == cs
    decreases |cs|
  {
    if cs != [] {
      NonEmptyKeeps(cs[1..]);
    }
  }

  /** For an absolute path built from components, `getPathComponents` returns those components. */
  lemma PathComponentsRoundTrip(cs: seq<string>)
    requires forall k :: 0 <= k < |cs| ==> cs[k] != [] && '/' !in cs[k]
    ensures PathComponents("/" + Join(cs, "/")) == cs
  {
    var path := "/" + Join(cs, "/");
    assert IndexOf(path, '/') == Some(0);
    assert path[1..] == Join(cs, "/");
    if cs == [] {
      assert Split(path, '/') == [[]];
      assert NonEmpty([[]]) == NonEmpty([]);
    } else {
      SplitJoinedPath(cs);
      assert Split(path, '/') == [[]] + cs;
      NonEmptyKeeps(cs);
    }
  }

  // ---------------------------------------------------------------------------
  // HttpRequest
  // ---------------------------------------------------------------------------

  /** A parsed request as a value: what `HttpRequest`'s fields hold. */
  datatype Request = Request(verb: Method, path: string, headers: Entries, body: string)

  class HttpRequest {
    /** `method_` */
    var verb: Method
    /** `path_` */
    var path: string
    /** `body_` */
    var body: string
    /** `headers_`, an ordered map */
    var headers: Entries

    /** The header map is an ordered map, so each name holds at most one value. */
    ghost predicate Valid()
      reads this
    {
      Sorted(headers)
    }

    /** The request's state as a value. */
    function Value(): Request
      reads this
    {
      Request(verb, path, headers, body)
    }

    /** A new request has no method, and an empty path, body and header map. */
    constructor()
      ensures Valid()
      ensures verb == UNKNOWN && path == [] && body == [] && headers == []
    {
      verb := UNKNOWN;
      path := [];
      body := [];
      headers := [];
    }

    method SetMethod(m: Method)
      modifies this
      ensures verb == m && path == old(path) && body == old(body) && headers == old(headers)
    {
      verb := m;
    }

    method SetPath(p: string)
      modifies this
      ensures path == p && verb == old(verb) && body == old(body) && headers == old(headers)
    {
      path := p;
    }

    method SetBody(b: string)
      modifies this
      ensures body == b && verb == old(verb) && path == old(path) && headers == old(headers)
    {
      body := b;
    }

    /** `getHeader`: the stored value, or "" for a name never set. */
    function GetHeader(name: string): string
      reads this
    {
      Lookup(headers, name)
    }

    /** `setHeader`: the name now reads back as the value; every other name is unaffected. */
    method SetHeader(name: string, value: string)
      requires Valid()
      modifies this
      ensures Valid()
      ensures headers == Put(old(headers), name, value)
      ensures GetHeader(name) == value
      ensures verb == old(verb) && path == old(path) && body == old(body)
    {
      PutSorted(headers, name, value);
      PutGet(headers, name, value);
      headers := Put(headers, name, value);
    }

    /** `getPathComponents`: the loop over the '/'-separated pieces keeping the non-empty ones. */
    method GetPathComponents() returns (components: seq<string>)
      ensures components == PathComponents(path)
    {
      var pieces := Split(path, '/');
      components := [];
      for i := 0 to |pieces|
        invariant components == NonEmpty(pieces[..i])
      {
        NonEmptySnoc(pieces[..i], pieces[i]);
        assert pieces[..i + 1] == pieces[..i] + [pieces[i]];
        if pieces[i] != [] {
          components := components + [pieces[i]];
        }
      }
      assert pieces[..|pieces|] == pieces;
    }

    /** `getQueryParameters`: the loop over the '&'-separated pieces after the first '?'. */
    method GetQueryParameters() returns (params: Entries)
      ensures params == QueryParameters(path) && Sorted(params)
    {
      params := [];
      var pieces := QueryPieces(path);
      for i := 0 to |pieces|
        invariant params == ParamsOf(pieces[..i])
      {
        assert pieces[..i + 1][..i] == pieces[..i];
        var piece := pieces[i];
        match IndexOf(piece, '=') {
          case Some(e) =>
            params := Put(params, piece[..e], piece[e + 1..]);
          case None =>
        }
      }
      assert pieces[..|pieces|] == pieces;
      ParamsSorted(pieces);
    }
  }

  /** Keeping the non-empty pieces of a longer list extends the kept list by the new piece, if non-empty. */
  lemma {:induction false} NonEmptySnoc(xs: seq<string>, x: string)
    ensures NonEmpty(xs + [x]) == NonEmpty(xs) + (if x == [] then [] else [x])
    decreases |xs|
  {
    if xs != [] {
      assert (xs + [x])[1..] == xs[1..] + [x];
      NonEmptySnoc(xs[1..], x);
    }
  }

  // ---------------------------------------------------------------------------
  // Request parsing
  // ---------------------------------------------------------------------------

  /** The method and path of a request line with at least three whitespace-separated words. */
  function RequestLineFields(line: string): Option<(Method, string)> {
    var words := Words(line);
    if |words| >= 3 then Some((MethodOf(words[0]), words[1])) else None
  }

  /** A line that ends the header block: empty, or a lone carriage return. */
  predicate EndsHeaders(line: string) {
    line == [] || line == "\r"
  }

  /** How many lines at the front of `ls` belong to the header block. */
  function HeaderBlock(ls: seq<string>): (n: nat)
    ensures n <= |ls|
    ensures forall i :: 0 <= i < n ==> !EndsHeaders(ls[i])
    ensures n < |ls| ==> EndsHeaders(ls[n])
  {
    if ls == [] || EndsHeaders(ls[0]) then 0 else 1 + HeaderBlock(ls[1..])
  }

  /** The header block ends at the first line that ends it. */
  lemma {:induction false} HeaderBlockAt(ls: seq<string>, n: nat)
    requires n <= |ls| && forall i :: 0 <= i < n ==> !EndsHeaders(ls[i])
    requires n < |ls| ==> EndsHeaders(ls[n])
    ensures HeaderBlock(ls) == n
    decreases n
  {
    if n > 0 {
      HeaderBlockAt(ls[1..], n - 1);
    }
  }

  /** The name of a header line: the text before the first ':', trimmed at the end. */
  function HeaderName(line: string, c: nat): string
    requires c <= |line|
  {
    TrimRight(line[..c], LineSpace)
  }

  /** The value of a header line: the text after the first ':', trimmed at both ends. */
  function HeaderValue(line: string, c: nat): string
    requires c < |line|
  {
    Trim(line[c + 1..], LineSpace)
  }

  /** One header line; a line without ':' adds nothing. */
  function AddHeader(headers: Entries, line: string): Entries {
    match IndexOf(line, ':')
    case None => headers
    case Some(c) => Put(headers, HeaderName(line, c), HeaderValue(line, c))
  }

  /** The header map built from the header lines in order, so a repeated name keeps its last value. */
  function AddHeaders(headers: Entries, ls: seq<string>): Entries
    decreases |ls|
  {
    if ls == [] then headers else AddHeader(AddHeaders(headers, ls[..|ls| - 1]), ls[|ls| - 1])
  }

  function HeadersOf(ls: seq<string>): Entries {
    AddHeaders([], ls)
  }

  /** The body: every remaining line followed by "\n". */
  function BodyOf(ls: seq<string>): string
    decreases |ls|
  {
    if ls == [] then [] else BodyOf(ls[..|ls| - 1]) + ls[|ls| - 1] + "\n"
  }

  /** The lines after the request line. */
  function AfterRequestLine(lines: seq<string>): seq<string> {
    if lines == [] then [] else lines[1..]
  }

  /** The lines after the header block and the line that ended it. */
  function BodyLines(lines: seq<string>): seq<string> {
    var rest := AfterRequestLine(lines);
    var h := HeaderBlock(rest);
    if h < |rest| then rest[h + 1..] else []
  }

  /** The method and path the first line supplies, if it has three words. */
  function RequestLine(lines: seq<string>): Option<(Method, string)> {
    if lines == [] then None else RequestLineFields(lines[0])
  }

  function ParsedVerb(lines: seq<string>): Method {
    var f := RequestLine(lines);
    if f.Some? then f.value.0 else UNKNOWN
  }

  function ParsedPath(lines: seq<string>): string {
    var f := RequestLine(lines);
    if f.Some? then f.value.1 else []
  }

  function ParsedHeaders(lines: seq<string>): Entries {
    var rest := AfterRequestLine(lines);
    HeadersOf(rest[..HeaderBlock(rest)])
  }

  /** `parseRequest` as a value. */
  function Parse(data: string): Request {
    var lines := Lines(data);
    Request(ParsedVerb(lines), ParsedPath(lines), ParsedHeaders(lines), BodyOf(BodyLines(lines)))
  }

  /**
   * The request line of a new request: with at least three words, the method (if
   * recognised) and the path are set.
   */
  method ReadRequestLine(request: HttpRequest, lines: seq<string>)
    requires request.verb == UNKNOWN && request.path == []
    modifies request
    ensures request.verb == ParsedVerb(lines) && request.path == ParsedPath(lines)
    ensures request.headers == old(request.headers) && request.body == old(request.body)
  {
    if lines != [] {
      var words := Words(lines[0]);
      if |words| >= 3 {
        if words[0] == "GET" {
          request.SetMethod(GET);
        } else if words[0] == "POST" {
          request.SetMethod(POST);
        } else if words[0] == "PUT" {
          request.SetMethod(PUT);
        } else if words[0] == "DELETE" {
          request.SetMethod(DELETE);
        }
        request.SetPath(words[1]);
      }
    }
  }

  /** One header line: split at the first ':', the trimmed name set to the trimmed value. */
  method ReadHeaderLine(request: HttpRequest, line: string)
    requires request.Valid()
    modifies request
    ensures request.Valid() && request.headers == AddHeader(old(request.headers), line)
    ensures request.verb == old(request.verb) && request.path == old(request.path)
    ensures request.body == old(request.body)
  {
    match IndexOf(line, ':') {
      case Some(c) =>
        request.SetHeader(HeaderName(line, c), HeaderValue(line, c));
      case None =>
    }
  }

  /** The header loop: header lines up to the first line that ends the block; returns how many. */
  method ReadHeaders(request: HttpRequest, ls: seq<string>) returns (n: nat)
    requires request.Valid()
    modifies request
    ensures n == HeaderBlock(ls)
    ensures request.Valid() && request.headers == AddHeaders(old(request.headers), ls[..n])
    ensures request.verb == old(request.verb) && request.path == old(request.path)
    ensures request.body == old(request.body)
  {
    n := 0;
    while n < |ls| && !EndsHeaders(ls[n])
      invariant n <= |ls| && forall i :: 0 <= i < n ==> !EndsHeaders(ls[i])
      invariant request.Valid() && request.headers == AddHeaders(old(request.headers), ls[..n])
      invariant request.verb == old(request.verb) && request.path == old(request.path)
      invariant request.body == old(request.body)
      decreases |ls| - n
    {
      assert ls[..n + 1][..n] == ls[..n];
      ReadHeaderLine(request, ls[n]);
      n := n + 1;
    }
    HeaderBlockAt(ls, n);
  }

  /** The body loop: each remaining line followed by "\n". */
  method ReadBody(ls: seq<string>) returns (body: string)
    ensures body == BodyOf(ls)
  {
    body := [];
    for i := 0 to |ls|
      invariant body == BodyOf(ls[..i])
    {
      assert ls[..i + 1][..i] == ls[..i];
      body := body + ls[i] + "\n";
    }
    assert ls[..|ls|] == ls;
  }

  /**
   * `parseRequest`: the request line, then header lines up to the first empty or "\r"
   * line (which is consumed), then the body.
   */
  method ParseRequest(data: string) returns (request: HttpRequest)
    ensures fresh(request) && request.Valid()
    ensures request.Value() == Parse(data)
  {
    request := new HttpRequest();
    var lines := Lines(data);
    ReadRequestLine(request, lines);
    var rest := AfterRequestLine(lines);
    var n := ReadHeaders(request, rest);
    assert request.headers == ParsedHeaders(lines);
    var remaining := if n < |rest| then rest[n + 1..] else [];
    assert remaining == BodyLines(lines);
    var body := ReadBody(remaining);
    request.SetBody(body);
  }

  /** Header names and values: a colon-free line adds nothing and a later line for a name wins. */
  lemma HeaderLineEffect(ls: seq<string>, line: string)
    ensures ':' !in line ==> HeadersOf(ls + [line]) == HeadersOf(ls)
    ensures forall c :: 0 <= c < |line| && line[c] == ':' && ':' !in line[..c] ==>
      Get(HeadersOf(ls + [line]), HeaderName(line, c)) == Some(HeaderValue(line, c))
  {
    var all := ls + [line];
    assert all[..|all| - 1] == ls;
    if ':' in line {
      var c := IndexOf(line, ':').value;
      PutGet(HeadersOf(ls), HeaderName(line, c), HeaderValue(line, c));
    }
  }

  /** The header map of a parsed request is an ordered map. */
  lemma {:induction false} HeadersSorted(h: Entries, ls: seq<string>)
    requires Sorted(h)
    ensures Sorted(AddHeaders(h, ls))
    decreases |ls|
  {
    if ls != [] {
      var init, last := ls[..|ls| - 1], ls[|ls| - 1];
      HeadersSorted(h, init);
      if IndexOf(last, ':').Some? {
        var c := IndexOf(last, ':').value;
        PutSorted(AddHeaders(h, init), HeaderName(last, c), HeaderValue(last, c));
      }
    }
  }

  /** Without three words on the request line, the method stays UNKNOWN and the path empty. */
  lemma ShortRequestLine(data: string)
    requires Lines(data) == [] || |Words(Lines(data)[0])| < 3
    ensures Parse(data).verb == UNKNOWN && Parse(data).path == []
  {
  }

  /** The body joins the remaining lines with "\n" and ends with "\n" when there are any. */
  lemma {:induction false} BodyIsJoin(ls: seq<string>)
    ensures BodyOf(ls) == if ls == [] then [] else Join(ls, "\n") + "\n"
    decreases |ls|
  {
    if ls != [] {
      var init, last := ls[..|ls| - 1], ls[|ls| - 1];
      BodyIsJoin(init);
      JoinSnoc(init, last, "\n");
      assert init + [last] == ls;
    }
  }

  // ---------------------------------------------------------------------------
  // HttpResponse
  // ---------------------------------------------------------------------------

  class HttpResponse {
    /** `status_` */
    var status: int
    /** `content_type_` */
    var contentType: string
    /** `body_` */
    var body: string
    /** `headers_`, an ordered map */
    var headers: Entries

    ghost predicate Valid()
      reads this
    {
      Sorted(headers)
    }

    /** By default a response is 200 with content type "application/json", no body and no headers. */
    constructor(status: int := 200, contentType: string := "application/json")
      ensures Valid()
      ensures this.status == status && this.contentType == contentType
      ensures body == [] && headers == []
    {
      this.status := status;
      this.contentType := contentType;
      body := [];
      headers := [];
    }

    method SetStatus(s: int)
      modifies this
      ensures status == s && contentType == old(contentType) && body == old(body) && headers == old(headers)
    {
      status := s;
    }

    method SetContentType(t: string)
      modifies this
      ensures contentType == t && status == old(status) && body == old(body) && headers == old(headers)
    {
      contentType := t;
    }

    method SetBody(b: string)
      modifies this
      ensures body == b && status == old(status) && contentType == old(contentType) && headers == old(headers)
    {
      body := b;
    }

    /** `setHeader`: one entry per name, the last value set. */
    method SetHeader(name: string, value: string)
      requires Valid()
      modifies this
      ensures Valid() && headers == Put(old(headers), name, value)
      ensures Lookup(headers, name) == value
      ensures status == old(status) && contentType == old(contentType) && body == old(body)
    {
      PutSorted(headers, name, value);
      PutGet(headers, name, value);
      headers := Put(headers, name, value);
    }

    /** `setJsonBody`: the body, with the JSON content type. */
    method SetJsonBody(json: string)
      modifies this
      ensures contentType == "application/json" && body == json
      ensures status == old(status) && headers == old(headers)
    {
      SetContentType("application/json");
      SetBody(json);
    }

    /** `setErrorResponse`: the status and a `{"error":"<message>"}` JSON body. */
    method SetErrorResponse(s: int, message: string)
      modifies this
      ensures status == s && contentType == "application/json" && body == ErrorBody(message)
      ensures headers == old(headers)
    {
      SetStatus(s);
      SetJsonBody(ErrorBody(message));
    }
  }

  /** The JSON body of an error response. */
  function ErrorBody(message: string): string {
    "{\"error\":\"" + message + "\"}"
  }

  // ---------------------------------------------------------------------------
  // Response serialisation
  // ---------------------------------------------------------------------------

  /** The reason phrase `buildResponse` writes after the status code. */
  function ReasonPhrase(status: int): string {
    if status == 200 then "OK"
    else if status == 201 then "Created"
    else if status == 400 then "Bad Request"
    else if status == 401 then "Unauthorized"
    else if status == 404 then "Not Found"
    else if status == 500 then "Internal Server Error"
    else "Unknown"
  }

  /** Only the six handled codes get a phrase of their own; 501 and every other code is "Unknown". */
  lemma ReasonPhraseKnown(status: int)
    ensures ReasonPhrase(status) == "Unknown" <==> status !in {200, 201, 400, 401, 404, 500}
    ensures ReasonPhrase(501) == "Unknown"
  {
  }

  function StatusLine(status: int): string {
    "HTTP/1.1 " + IntString(status) + " " + ReasonPhrase(status) + "\r\n"
  }

  /** The fixed header lines: content type, content length, connection. */
  function FixedHeaders(contentType: string, body: string): string {
    "Content-Type: " + contentType + "\r\n"
    + "Content-Length: " + Decimal(|body|) + "\r\n"
    + "Connection: close\r\n"
  }

  /** The extra header lines, `name: value`, in key order. */
  function HeaderLines(e: Entries): string
    decreases |e|
  {
    if e == [] then [] else HeaderLines(e[..|e| - 1]) + e[|e| - 1].0 + ": " + e[|e| - 1].1 + "\r\n"
  }

  /** The whole serialised response. */
  function ResponseText(status: int, contentType: string, body: string, headers: Entries): string {
    StatusLine(status) + FixedHeaders(contentType, body) + HeaderLines(headers) + "\r\n" + body
  }

  /** `buildResponse`: the status line, the fixed headers, the extra headers, a blank line, the body. */
  method BuildResponse(response: HttpResponse) returns (text: string)
    ensures text == ResponseText(response.status, response.contentType, response.body, response.headers)
  {
    text := StatusLine(response.status) + FixedHeaders(response.contentType, response.body);
    ghost var head := text;
    var headers := response.headers;
    for i := 0 to |headers|
      invariant text == head + HeaderLines(headers[..i])
    {
      assert headers[..i + 1][..i] == headers[..i];
      text := text + headers[i].0 + ": " + headers[i].1 + "\r\n";
    }
    assert headers[..|headers|] == headers;
    text := text + "\r\n";
    text := text + response.body;
  }

  /** Each header line ends with CRLF, so the block of header lines ends with one (or is empty). */
  lemma HeaderLinesEnd(e: Entries)
    ensures HeaderLines(e) == [] || HeaderLines(e)[|HeaderLines(e)| - 2..] == "\r\n"
  {
  }

  /** The header block, with its terminating blank line, ends in "\r\n\r\n". */
  lemma HeadEnd(status: int, contentType: string, body: string, headers: Entries)
    ensures var head := StatusLine(status) + FixedHeaders(contentType, body) + HeaderLines(headers) + "\r\n";
      |head| >= 4 && head[|head| - 4..] == "\r\n\r\n"
  {
    var fixed := StatusLine(status) + FixedHeaders(contentType, body);
    var lines := HeaderLines(headers);
    assert fixed[|fixed| - 2..] == "\r\n";
    HeaderLinesEnd(headers);
    var head := fixed + lines + "\r\n";
    if lines == [] {
      assert head == fixed + "\r\n";
      assert head[|head| - 4..] == fixed[|fixed| - 2..] + "\r\n";
    } else {
      assert head[|head| - 4..] == lines[|lines| - 2..] + "\r\n";
    }
  }

  /**
   * The framing a client relies on: the text starts with "HTTP/1.1 ", the body is what
   * follows a header block ending in a blank line, and the Content-Length value reads back
   * as the body's length.
   */
  lemma ResponseFraming(status: int, contentType: string, body: string, headers: Entries)
    ensures var t := ResponseText(status, contentType, body, headers);
      var n := |t| - |body|;
      n >= 4 && t[n..] == body && t[n - 4..n] == "\r\n\r\n"
      && t[..9] == "HTTP/1.1 "
      && DigitsValue(Decimal(|body|)) == |body|
  {
    var head := StatusLine(status) + FixedHeaders(contentType, body) + HeaderLines(headers) + "\r\n";
    var t := ResponseText(status, contentType, body, headers);
    assert t == head + body;
    HeadEnd(status, contentType, body, headers);
    assert t[..|head|] == head;
    assert t[|head| - 4..|head|] == head[|head| - 4..];
    assert t[..9] == head[..9] == StatusLine(status)[..9];
    DecimalRoundTrip(|body|);
  }
}
