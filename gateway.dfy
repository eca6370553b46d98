/**
 * `handle_cgi_req`, `handle_static_req` and the `.cgi` routing of the GET and
 * POST handlers.
 */
module Gateway {
  import opened Text
  import opened Headers
  import opened CgiEnv
  import opened Pumps

  datatype Method = GET | POST {
    function Name(): string {
      match this
      case GET => "GET"
      case POST => "POST"
    }
  }

  const CGI_SUFFIX := ".cgi"

  /** `os.linesep` on a POSIX host. */
  const LINE_SEPARATOR: char := '\n'

  /** The shell command line of a gateway request: `'"' + dir_path + request.path + '"'`. */
  function CgiCommand(dirPath: string, path: string): string {
    "\"" + dirPath + path + "\""
  }

  /**
   * The command line is the directory and the path inside one pair of double
   * quotes; a double quote in the path adds to the two and ends the quoting early.
   */
  lemma CgiCommandQuotes(dirPath: string, path: string)
    ensures var command := CgiCommand(dirPath, path);
      && |command| == |dirPath| + |path| + 2
      && command[0] == '"' && command[|command| - 1] == '"'
      && command[1..|command| - 1] == dirPath + path
      && Count(command, '"') == Count(dirPath + path, '"') + 2
  {
    var q, inner := "\"", dirPath + path;
    assert CgiCommand(dirPath, path) == q + inner + q;
    assert Count(q, '"') == 1;
    CountAppend(q, inner, '"');
    CountAppend(q + inner, q, '"');
  }

  /** `re.sub(os.linesep, '', dir_path + request.path)`: the static file's path. */
  function StaticFilePath(dirPath: string, path: string): string {
    RemoveChar(dirPath + path, LINE_SEPARATOR)
  }

  lemma {:induction false} RemoveCharAppend(a: string, b: string, c: char)
    ensures RemoveChar(a + b, c) == RemoveChar(a, c) + RemoveChar(b, c)
  {
    if a != [] {
      assert (a + b)[1..] == a[1..] + b;
      RemoveCharAppend(a[1..], b, c);
    } else {
      assert a + b == b;
    }
  }

  /**
   * The static path holds no line separator, and for a directory without one
   * it is the directory followed by the request path with line separators
   * removed (nothing else is checked: `..` segments pass through).
   */
  lemma StaticFilePathShape(dirPath: string, path: string)
    ensures LINE_SEPARATOR !in StaticFilePath(dirPath, path)
    ensures LINE_SEPARATOR !in dirPath ==> StaticFilePath(dirPath, path) == dirPath + RemoveChar(path, LINE_SEPARATOR)
    ensures LINE_SEPARATOR !in dirPath + path ==> StaticFilePath(dirPath, path) == dirPath + path
  {
    RemoveCharAppend(dirPath, path, LINE_SEPARATOR);
  }

  /** What a handler answers with. */
  datatype Route =
    | ServeStatic(file: string)                  // web.FileResponse(filepath)
    | RunGateway(command: string, verb: Method) // handle_cgi_req(dir_path, request, port, method)
    | PlainText(status: int, text: string)       // web.Response(text=..., status=...)

  /** `get_handler`: a path ending in `.cgi` runs the gateway, any other is served as a file. */
  function RouteGet(dirPath: string, path: string): Route {
    if !EndsWith(path, CGI_SUFFIX) then ServeStatic(StaticFilePath(dirPath, path))
    else RunGateway(CgiCommand(dirPath, path), GET)
  }

  /** `post_handler`: a path ending in `.cgi` runs the gateway, any other gets 404 `Not found.`. */
  function RoutePost(dirPath: string, path: string): Route {
    if EndsWith(path, CGI_SUFFIX) then RunGateway(CgiCommand(dirPath, path), POST)
    else PlainText(404, "Not found.")
  }

  /**
   * GET and POST send the same paths to the gateway, with the same command
   * line: exactly the paths that are some stem followed by `.cgi`. Every other
   * POST is answered 404 `Not found.`, every other GET with the static file.
   */
  lemma RoutesAgree(dirPath: string, path: string)
    ensures RouteGet(dirPath, path).RunGateway? <==> exists stem :: path == stem + ".cgi"
    ensures RoutePost(dirPath, path).RunGateway? <==> exists stem :: path == stem + ".cgi"
    ensures RouteGet(dirPath, path).RunGateway? ==>
      RouteGet(dirPath, path).command == RoutePost(dirPath, path).command == CgiCommand(dirPath, path)
    ensures !RoutePost(dirPath, path).RunGateway? ==> RoutePost(dirPath, path) == PlainText(404, "Not found.")
    ensures !RouteGet(dirPath, path).RunGateway? ==> RouteGet(dirPath, path) == ServeStatic(StaticFilePath(dirPath, path))
  {
    EndsWithIff(path, CGI_SUFFIX);
  }

  // ---------------------------------------------------------------------
  // handle_cgi_req
  // ---------------------------------------------------------------------

  /** How a gateway request ends. */
  datatype GatewayEnd =
    | Completed             // the outbound pump met the exit signal; the response is returned
    | WaitingForBody        // the inbound pump is still polling the request body
    | WaitingForScript      // the outbound pump is still polling the script's stdout
    | ContentLengthMissing  // `read_bytes < None` raises TypeError: a POST body without a declared length

  /** The state of one gateway request once the handler has run as far as the read scripts allow. */
  datatype Session = Session(
    status: int,                       // the status line sent by `resp.prepare`
    reason: string,
    command: string,                   // the shell command line
    scriptEnv: map<string, string>,    // the environment the script runs in
    feeds: seq<Bytes>,                 // the body chunks passed to `_feed_stdin`, in order
    readBytes: int,                    // read_bytes
    bodyReadsUsed: nat,                // how many request-body reads were made
    stdin: seq<Bytes>,                 // the chunks the script's stdin received, in order
    stdinClosed: bool,                 // whether stdin has been closed
    body: seq<Bytes>,                  // the chunks written to the response, in order
    outputReadsUsed: nat,              // how many stdout reads were made
    end: GatewayEnd)

  /** The arguments `handle_cgi_req` passes to `process_cgi_env`. */
  function GatewayEnvCall(dirPath: string, request: Request, port: string, m: Method): EnvCall {
    EnvCall(request, "localhost", port, m.Name(), CgiCommand(dirPath, request.path), request.queryString)
  }

  /**
   * `handle_cgi_req`: build the environment (whose writes reach the process
   * environment, which the shell inherits since `process_cgi_env` returns
   * `None`), spawn the command, send status 200 `OK`, pump a POST body into
   * stdin through `_feed_stdin` (then close it), and only then pump stdout
   * into the response. `environ` is `os.environ`, fixed since start-up;
   * `process` is the process environment, which keeps every earlier
   * request's writes.
   */
  method HandleCgiRequest(dirPath: string, request: Request, port: string, m: Method,
                          environ: map<string, string>, process: ProcessEnvironment, b64: Base64Ascii,
                          bodyReads: seq<Bytes>, stdoutReads: seq<StdoutRead>)
    returns (s: Session)
    modifies process
    ensures s.status == 200 && s.reason == "OK"
    ensures s.command == CgiCommand(dirPath, request.path)
    ensures process.vars == CgiEnvironment(GatewayEnvCall(dirPath, request, port, m), old(process.vars), b64)
    ensures s.scriptEnv == process.vars
    ensures !(m == POST && request.canReadBody) ==>
      s.feeds == [] && s.readBytes == 0 && s.bodyReadsUsed == 0 && s.stdin == [] && !s.stdinClosed
    ensures s.end == ContentLengthMissing <==> m == POST && request.canReadBody && request.contentLength.None?
    ensures s.end == ContentLengthMissing ==>
      s.feeds == [] && s.stdin == [] && !s.stdinClosed && s.body == [] && s.outputReadsUsed == 0
    ensures m == POST && request.canReadBody && request.contentLength.Some? ==>
      && InboundPumped(bodyReads, request.contentLength.value, s.feeds, s.readBytes, s.bodyReadsUsed,
                       if s.end == WaitingForBody then Waiting else Done)
      && s.stdin == FirstChunk(s.feeds)
      && s.stdinClosed == (s.feeds != [] || s.end != WaitingForBody)
    ensures s.end == WaitingForBody ==>
      m == POST && request.canReadBody && request.contentLength.Some? && s.body == [] && s.outputReadsUsed == 0
    ensures s.end == Completed || s.end == WaitingForScript ==>
      OutboundPumped(stdoutReads, s.body, s.outputReadsUsed, if s.end == Completed then Done else Waiting)
  {
    var command := CgiCommand(dirPath, request.path);
    var passed := ProcessCgiEnv(GatewayEnvCall(dirPath, request, port, m), environ, process, b64);
    var scriptEnv := ScriptEnvironment(passed, process.vars);

    var stdin := new StdinPipe.Open();
    var feeds: seq<Bytes> := [];
    var readBytes, bodyReadsUsed := 0, 0;
    if m == POST && request.canReadBody {
      if request.contentLength.None? {
        s := Session(200, "OK", command, scriptEnv, [], 0, 0, [], false, [], 0, ContentLengthMissing);
        return;
      }
      var inbound;
      feeds, readBytes, bodyReadsUsed, inbound := PumpRequestBody(bodyReads, request.contentLength.value, stdin);
      if inbound == Waiting {
        s := Session(200, "OK", command, scriptEnv, feeds, readBytes, bodyReadsUsed, stdin.received, stdin.closed,
                     [], 0, WaitingForBody);
        return;
      }
      stdin.Close();
    }

    var body, outputReadsUsed, outbound := PumpResponseBody(stdoutReads);
    s := Session(200, "OK", command, scriptEnv, feeds, readBytes, bodyReadsUsed, stdin.received, stdin.closed,
                 body, outputReadsUsed, if outbound == Done then Completed else WaitingForScript);
  }
}
