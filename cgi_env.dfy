/**
 * `process_cgi_env`: the CGI/1.1 environment (RFC 3875, section 4.1) the
 * gateway builds for a request, overlaid on a copy of the server's own
 * environment.
 *
 * The dictionary is built by a sequence of assignments on one dictionary
 * object (`BuildCgiEnv`), which is proved to produce `CgiEnvironment`, a
 * composition of one function per block of assignments. The dictionary is a
 * copy of `os.environ` whose writes go through `putenv`, so the same writes
 * are applied to the process environment: `CgiEnvironment` of the process
 * environment is what the process environment becomes. The properties of
 * the environment are lemmas about `CgiEnvironment`. The function itself
 * ends without `return`, so the caller receives `None` (`ProcessCgiEnv`),
 * and the script inherits the process environment.
 */
module CgiEnv {
  import opened Wrappers
  import opened Text
  import opened Headers

  /** What the environment builder reads from the aiohttp request. */
  datatype Request = Request(
    path: string,                // request.path
    queryString: string,         // request.query_string
    headers: seq<Header>,        // request.headers, in arrival order
    contentType: string,         // request.content_type
    contentLength: Option<int>,  // request.content_length
    storesRemote: bool,          // 'remote' in request: the request's own key store has a 'remote' entry
    remote: string,              // request.remote, the peer address
    canReadBody: bool)           // request.can_read_body

  /** The arguments of `process_cgi_env` besides the request. */
  datatype EnvCall = EnvCall(
    request: Request,
    serverName: string,
    port: string,
    requestMethod: string,
    pathToScript: string,
    query: string)

  /**
   * `base64.decodebytes(token.encode('ascii')).decode('ascii')`: the decoded
   * text, or `None` where one of the three steps raises `binascii.Error` or
   * `UnicodeError`. Left abstract.
   */
  type Base64Ascii = string -> Option<string>

  const SERVER_SOFTWARE := "aiohttp Python/3.6.4"

  /** Python truthiness of `request.content_length`: present and non-zero. */
  predicate LengthIsTruthy(contentLength: Option<int>) {
    contentLength.Some? && contentLength.value != 0
  }

  /** `str(request.content_length if request.content_length else '')` */
  function ContentLengthText(contentLength: Option<int>): string {
    if LengthIsTruthy(contentLength) then Decimal(contentLength.value) else ""
  }

  /** The variables set from the server and the request line (handlers.py lines 26-40). */
  function ServerVars(call: EnvCall, ambient: map<string, string>): map<string, string> {
    var env := ambient
      ["SERVER_SOFTWARE" := SERVER_SOFTWARE]
      ["SERVER_NAME" := call.serverName]
      ["GATEWAY_INTERFACE" := "CGI/1.1"]
      ["SERVER_PROTOCOL" := "HTTP/1.0"]
      ["SERVER_PORT" := call.port]
      ["REQUEST_METHOD" := call.requestMethod]
      ["PATH_INFO" := ""]
      ["PATH_TRANSLATED" := ""]
      ["SCRIPT_NAME" := call.pathToScript];
    var env := if call.query != "" then env["QUERY_STRING" := call.query] else env;
    env["REMOTE_ADDR" := if call.request.storesRemote then call.request.remote else ""]
  }

  /** The best-effort parse of the `Authorization` header value (lines 41-57). */
  function AuthVars(env: map<string, string>, authorization: string, b64: Base64Ascii): map<string, string> {
    if authorization == "" then env
    else
      var tokens := Split(authorization);
      if |tokens| != 2 then env
      else
        var env := env["AUTH_TYPE" := tokens[0]];
        if Lower(tokens[0]) != "basic" then env
        else
          match b64(tokens[1])
          case None => env
          case Some(text) =>
            var parts := SplitOn(text, ':');
            if |parts| == 2 then env["REMOTE_USER" := parts[0]] else env
  }

  /** The content variables and the referer (lines 59-61). */
  function ContentVars(env: map<string, string>, request: Request): map<string, string> {
    env
      ["CONTENT_TYPE" := request.contentType]
      ["CONTENT_LENGTH" := ContentLengthText(request.contentLength)]
      ["HTTP_REFERER" := HeaderOr(request.headers, "referer")]
  }

  /** An empty `CONTENT_TYPE` is refilled from the `content-type` header (lines 63-64). */
  function ContentTypeFallback(env: map<string, string>, headers: seq<Header>): map<string, string>
    requires "CONTENT_TYPE" in env
  {
    if env["CONTENT_TYPE"] == "" then env["CONTENT_TYPE" := HeaderOr(headers, "content-type")] else env
  }

  /** An empty `CONTENT_LENGTH` sends the `content-length` header to the misspelled `CONTENT_LENGRH` (lines 65-66). */
  function ContentLengthFallback(env: map<string, string>, headers: seq<Header>): map<string, string>
    requires "CONTENT_LENGTH" in env
  {
    if env["CONTENT_LENGTH"] == "" then env["CONTENT_LENGRH" := HeaderOr(headers, "content-length")] else env
  }

  /** The content variables, the referer and their header fallbacks, as written (lines 59-66). */
  function RequestVars(env: map<string, string>, request: Request): map<string, string> {
    ContentLengthFallback(ContentTypeFallback(ContentVars(env, request), request.headers), request.headers)
  }

  /**
   * The writes of `process_cgi_env` (lines 24-68) applied to `ambient`: on
   * the copy of `os.environ` this is the dictionary it builds; on the process
   * environment, what the `putenv` write-through leaves there.
   */
  function CgiEnvironment(call: EnvCall, ambient: map<string, string>, b64: Base64Ascii): map<string, string> {
    var headers := call.request.headers;
    var env := ServerVars(call, ambient);
    var env := AuthVars(env, HeaderOr(headers, "authorization"), b64);
    var env := RequestVars(env, call.request);
    WithHttpVars(env, headers, |headers|)
  }

  /** The header names the builder reads are already lower-case. */
  lemma LowerCaseNames()
    ensures IsLowerCase("authorization") && IsLowerCase("referer")
    ensures IsLowerCase("content-type") && IsLowerCase("content-length")
  {
  }

  /**
   * The body of `process_cgi_env`: a copy of `os.environ` (`environ`) filled
   * by assignments, each of which also writes the process environment.
   */
  method BuildCgiEnv(call: EnvCall, environ: map<string, string>, process: ProcessEnvironment, b64: Base64Ascii)
    returns (env: EnvDict)
    modifies process
    ensures fresh(env) && env.process == process
    ensures env.vars == CgiEnvironment(call, environ, b64)
    ensures process.vars == CgiEnvironment(call, old(process.vars), b64)
  {
    var request := call.request;
    var headers := NormalizeHttpHeaders(request.headers);
    LowerCaseNames();
    NormalizedLookup(request.headers, headers, "authorization");
    NormalizedLookup(request.headers, headers, "referer");
    NormalizedLookup(request.headers, headers, "content-type");
    NormalizedLookup(request.headers, headers, "content-length");

    env := new EnvDict.Copy(environ, process);
    SetServerVars(env, call);
    var authorization := if "authorization" in headers then headers["authorization"] else "";
    SetAuthVars(env, authorization, b64);
    var referer := if "referer" in headers then headers["referer"] else "";
    var contentType := if "content-type" in headers then headers["content-type"] else "";
    var contentLength := if "content-length" in headers then headers["content-length"] else "";
    SetContentVars(env, request, referer, contentType, contentLength);
    env := AppendHttpHeaders(env, request.headers);
  }

  /** Lines 27-40 of `process_cgi_env`, on the dictionary object and through it on the process environment. */
  method SetServerVars(env: EnvDict, call: EnvCall)
    modifies env, env.process
    ensures env.vars == ServerVars(call, old(env.vars))
    ensures env.process.vars == ServerVars(call, old(env.process.vars))
  {
    env.Set("SERVER_SOFTWARE", SERVER_SOFTWARE);
    env.Set("SERVER_NAME", call.serverName);
    env.Set("GATEWAY_INTERFACE", "CGI/1.1");
    env.Set("SERVER_PROTOCOL", "HTTP/1.0");
    env.Set("SERVER_PORT", call.port);
    env.Set("REQUEST_METHOD", call.requestMethod);
    env.Set("PATH_INFO", "");
    env.Set("PATH_TRANSLATED", "");
    env.Set("SCRIPT_NAME", call.pathToScript);
    if call.query != "" {
      env.Set("QUERY_STRING", call.query);
    }
    env.Set("REMOTE_ADDR", if call.request.storesRemote then call.request.remote else "");
  }

  /** Lines 41-57 of `process_cgi_env`, on the dictionary object and through it on the process environment. */
  method SetAuthVars(env: EnvDict, authorization: string, b64: Base64Ascii)
    modifies env, env.process
    ensures env.vars == AuthVars(old(env.vars), authorization, b64)
    ensures env.process.vars == AuthVars(old(env.process.vars), authorization, b64)
  {
    if authorization != "" {
      var tokens := Split(authorization);
      if |tokens| == 2 {
        env.Set("AUTH_TYPE", tokens[0]);
        if Lower(tokens[0]) == "basic" {
          var decoded := b64(tokens[1]);
          if decoded.Some? {
            var parts := SplitOn(decoded.value, ':');
            if |parts| == 2 {
              env.Set("REMOTE_USER", parts[0]);
            }
          }
        }
      }
    }
  }

  /**
   * Lines 59-66 of `process_cgi_env`, on the dictionary object and through it
   * on the process environment, given the values of the normalized `referer`,
   * `content-type` and `content-length` headers (`''` when absent).
   */
  method SetContentVars(env: EnvDict, request: Request, referer: string, contentType: string, contentLength: string)
    requires referer == HeaderOr(request.headers, "referer")
    requires contentType == HeaderOr(request.headers, "content-type")
    requires contentLength == HeaderOr(request.headers, "content-length")
    modifies env, env.process
    ensures env.vars == RequestVars(old(env.vars), request)
    ensures env.process.vars == RequestVars(old(env.process.vars), request)
  {
    env.Set("CONTENT_TYPE", request.contentType);
    env.Set("CONTENT_LENGTH", ContentLengthText(request.contentLength));
    env.Set("HTTP_REFERER", referer);
    assert env.vars == ContentVars(old(env.vars), request);
    assert env.process.vars == ContentVars(old(env.process.vars), request);
    if env.vars["CONTENT_TYPE"] == "" {
      env.Set("CONTENT_TYPE", contentType);
    }
    if env.vars["CONTENT_LENGTH"] == "" {
      env.Set("CONTENT_LENGRH", contentLength);
    }
  }

  /**
   * `process_cgi_env` itself: the dictionary is built and dropped, and the
   * caller gets `None`; what remains is the writes made to the process
   * environment.
   */
  method ProcessCgiEnv(call: EnvCall, environ: map<string, string>, process: ProcessEnvironment, b64: Base64Ascii)
    returns (result: Option<map<string, string>>)
    modifies process
    ensures result == None
    ensures process.vars == CgiEnvironment(call, old(process.vars), b64)
  {
    var env := BuildCgiEnv(call, environ, process, b64);
    result := None;
  }

  /**
   * The environment a shell spawned with `env=passed` runs in: the dictionary
   * passed, or, when `passed` is `None`, the process environment it inherits.
   */
  function ScriptEnvironment(passed: Option<map<string, string>>, inherited: map<string, string>): map<string, string> {
    passed.GetOr(inherited)
  }

  // ---------------------------------------------------------------------
  // Properties of the environment
  // ---------------------------------------------------------------------

  /** `name` is absent from both maps or present in both with one value. */
  predicate AgreesOn(m: map<string, string>, m': map<string, string>, name: string) {
    (name in m <==> name in m') && (name in m ==> m[name] == m'[name])
  }

  /** Writing the header variables last never disturbs a name without the `HTTP_` prefix. */
  lemma CgiEnvironmentBeforeHeaders(call: EnvCall, ambient: map<string, string>, b64: Base64Ascii, name: string)
    requires !HasHttpPrefix(name)
    ensures AgreesOn(CgiEnvironment(call, ambient, b64),
      RequestVars(AuthVars(ServerVars(call, ambient), HeaderOr(call.request.headers, "authorization"), b64), call.request),
      name)
  {
    var headers := call.request.headers;
    var env := RequestVars(AuthVars(ServerVars(call, ambient), HeaderOr(headers, "authorization"), b64), call.request);
    HttpVarsKeepOthers(env, headers, |headers|, name);
  }

  /** The variables the builder sets itself, none of which carries the `HTTP_` prefix. */
  lemma BuilderNamesAreNotHeaderNames()
    ensures !HasHttpPrefix("SERVER_SOFTWARE") && !HasHttpPrefix("SERVER_NAME")
    ensures !HasHttpPrefix("GATEWAY_INTERFACE") && !HasHttpPrefix("SERVER_PROTOCOL")
    ensures !HasHttpPrefix("SERVER_PORT") && !HasHttpPrefix("REQUEST_METHOD")
    ensures !HasHttpPrefix("PATH_INFO") && !HasHttpPrefix("PATH_TRANSLATED")
    ensures !HasHttpPrefix("SCRIPT_NAME") && !HasHttpPrefix("QUERY_STRING")
    ensures !HasHttpPrefix("REMOTE_ADDR") && !HasHttpPrefix("AUTH_TYPE")
    ensures !HasHttpPrefix("REMOTE_USER") && !HasHttpPrefix("CONTENT_TYPE")
    ensures !HasHttpPrefix("CONTENT_LENGTH") && !HasHttpPrefix("CONTENT_LENGRH")
  {
  }

  /** The authorization block writes `AUTH_TYPE` and `REMOTE_USER` and nothing else. */
  lemma AuthVarsKeep(env: map<string, string>, authorization: string, b64: Base64Ascii, name: string)
    requires name != "AUTH_TYPE" && name != "REMOTE_USER"
    ensures AgreesOn(AuthVars(env, authorization, b64), env, name)
  {
  }

  /** The content block writes `CONTENT_TYPE`, `CONTENT_LENGTH`, `HTTP_REFERER` and `CONTENT_LENGRH` and nothing else. */
  lemma RequestVarsKeep(env: map<string, string>, request: Request, name: string)
    requires name != "CONTENT_TYPE" && name != "CONTENT_LENGTH"
    requires name != "HTTP_REFERER" && name != "CONTENT_LENGRH"
    ensures AgreesOn(RequestVars(env, request), env, name)
  {
  }

  /** A name that only the first block writes has its first-block value in the finished environment. */
  lemma CgiEnvironmentFromServerVars(call: EnvCall, ambient: map<string, string>, b64: Base64Ascii, name: string)
    requires !HasHttpPrefix(name)
    requires name != "AUTH_TYPE" && name != "REMOTE_USER"
    requires name != "CONTENT_TYPE" && name != "CONTENT_LENGTH"
    requires name != "HTTP_REFERER" && name != "CONTENT_LENGRH"
    ensures AgreesOn(CgiEnvironment(call, ambient, b64), ServerVars(call, ambient), name)
  {
    var env0 := ServerVars(call, ambient);
    var env1 := AuthVars(env0, HeaderOr(call.request.headers, "authorization"), b64);
    AuthVarsKeep(env0, HeaderOr(call.request.headers, "authorization"), b64, name);
    RequestVarsKeep(env1, call.request, name);
    CgiEnvironmentBeforeHeaders(call, ambient, b64, name);
  }

  /** The values of the first block of assignments. */
  lemma ServerVarsValues(call: EnvCall, ambient: map<string, string>)
    ensures var env := ServerVars(call, ambient);
      && "SERVER_SOFTWARE" in env && env["SERVER_SOFTWARE"] == "aiohttp Python/3.6.4"
      && "SERVER_NAME" in env && env["SERVER_NAME"] == call.serverName
      && "GATEWAY_INTERFACE" in env && env["GATEWAY_INTERFACE"] == "CGI/1.1"
      && "SERVER_PROTOCOL" in env && env["SERVER_PROTOCOL"] == "HTTP/1.0"
      && "SERVER_PORT" in env && env["SERVER_PORT"] == call.port
      && "REQUEST_METHOD" in env && env["REQUEST_METHOD"] == call.requestMethod
      && "PATH_INFO" in env && env["PATH_INFO"] == ""
      && "PATH_TRANSLATED" in env && env["PATH_TRANSLATED"] == ""
      && "SCRIPT_NAME" in env && env["SCRIPT_NAME"] == call.pathToScript
      && "REMOTE_ADDR" in env && env["REMOTE_ADDR"] == (if call.request.storesRemote then call.request.remote else "")
      && (if call.query != "" then "QUERY_STRING" in env && env["QUERY_STRING"] == call.query
          else AgreesOn(env, ambient, "QUERY_STRING"))
  {
  }

  /** The server block leaves the authorization variables and `CONTENT_LENGRH` as the server had them. */
  lemma ServerVarsKeepLaterNames(call: EnvCall, ambient: map<string, string>)
    ensures var env := ServerVars(call, ambient);
      && AgreesOn(env, ambient, "AUTH_TYPE") && AgreesOn(env, ambient, "REMOTE_USER")
      && AgreesOn(env, ambient, "CONTENT_LENGRH")
  {
  }

  /** A name that the content block and the header loop leave alone keeps the value the authorization block gave it. */
  lemma CgiEnvironmentFromAuthVars(call: EnvCall, ambient: map<string, string>, b64: Base64Ascii, name: string)
    requires !HasHttpPrefix(name)
    requires name != "CONTENT_TYPE" && name != "CONTENT_LENGTH"
    requires name != "HTTP_REFERER" && name != "CONTENT_LENGRH"
    ensures AgreesOn(CgiEnvironment(call, ambient, b64),
      AuthVars(ServerVars(call, ambient), HeaderOr(call.request.headers, "authorization"), b64), name)
  {
    var env1 := AuthVars(ServerVars(call, ambient), HeaderOr(call.request.headers, "authorization"), b64);
    RequestVarsKeep(env1, call.request, name);
    CgiEnvironmentBeforeHeaders(call, ambient, b64, name);
  }

  /** The authorization block alone: `AUTH_TYPE` is the first of exactly two tokens, and is untouched otherwise. */
  lemma AuthVarsAuthType(env: map<string, string>, authorization: string, b64: Base64Ascii)
    ensures var env' := AuthVars(env, authorization, b64);
      var tokens := Split(authorization);
      if |tokens| == 2 then "AUTH_TYPE" in env' && env'["AUTH_TYPE"] == tokens[0]
      else AgreesOn(env', env, "AUTH_TYPE")
  {
  }

  /**
   * The authorization block alone: `REMOTE_USER` is the part before the one
   * colon of decoded `basic` credentials, and is untouched otherwise.
   */
  lemma AuthVarsRemoteUser(env: map<string, string>, authorization: string, b64: Base64Ascii)
    ensures var env' := AuthVars(env, authorization, b64);
      var tokens := Split(authorization);
      if |tokens| == 2 && Lower(tokens[0]) == "basic" && b64(tokens[1]).Some?
         && |SplitOn(b64(tokens[1]).value, ':')| == 2
      then "REMOTE_USER" in env' && env'["REMOTE_USER"] == SplitOn(b64(tokens[1]).value, ':')[0]
      else AgreesOn(env', env, "REMOTE_USER")
  {
  }

  /**
   * Every variable RFC 3875 requires is present. The fixed ones hold their
   * constants (`PATH_INFO` and `PATH_TRANSLATED` are always empty), the others
   * the arguments they come from; `REMOTE_ADDR` is empty unless the request's
   * own key store has a `'remote'` entry.
   */
  lemma CgiEnvServerVariables(call: EnvCall, ambient: map<string, string>, b64: Base64Ascii)
    ensures var env := CgiEnvironment(call, ambient, b64);
      && "SERVER_SOFTWARE" in env && env["SERVER_SOFTWARE"] == "aiohttp Python/3.6.4"
      && "SERVER_NAME" in env && env["SERVER_NAME"] == call.serverName
      && "GATEWAY_INTERFACE" in env && env["GATEWAY_INTERFACE"] == "CGI/1.1"
      && "SERVER_PROTOCOL" in env && env["SERVER_PROTOCOL"] == "HTTP/1.0"
      && "SERVER_PORT" in env && env["SERVER_PORT"] == call.port
      && "REQUEST_METHOD" in env && env["REQUEST_METHOD"] == call.requestMethod
      && "PATH_INFO" in env && env["PATH_INFO"] == ""
      && "PATH_TRANSLATED" in env && env["PATH_TRANSLATED"] == ""
      && "SCRIPT_NAME" in env && env["SCRIPT_NAME"] == call.pathToScript
      && "REMOTE_ADDR" in env && env["REMOTE_ADDR"] == (if call.request.storesRemote then call.request.remote else "")
      && "CONTENT_TYPE" in env && "CONTENT_LENGTH" in env
  {
    ServerVarsValues(call, ambient);
    CgiEnvironmentFromServerVars(call, ambient, b64, "SERVER_SOFTWARE");
    CgiEnvironmentFromServerVars(call, ambient, b64, "SERVER_NAME");
    CgiEnvironmentFromServerVars(call, ambient, b64, "GATEWAY_INTERFACE");
    CgiEnvironmentFromServerVars(call, ambient, b64, "SERVER_PROTOCOL");
    CgiEnvironmentFromServerVars(call, ambient, b64, "SERVER_PORT");
    CgiEnvironmentFromServerVars(call, ambient, b64, "REQUEST_METHOD");
    CgiEnvironmentFromServerVars(call, ambient, b64, "PATH_INFO");
    CgiEnvironmentFromServerVars(call, ambient, b64, "PATH_TRANSLATED");
    CgiEnvironmentFromServerVars(call, ambient, b64, "SCRIPT_NAME");
    CgiEnvironmentFromServerVars(call, ambient, b64, "REMOTE_ADDR");
    CgiEnvContentType(call, ambient, b64);
    CgiEnvContentLength(call, ambient, b64);
  }

  /** `QUERY_STRING` is the query when the query is non-empty, and otherwise whatever the server's environment had. */
  lemma CgiEnvQueryString(call: EnvCall, ambient: map<string, string>, b64: Base64Ascii)
    ensures var env := CgiEnvironment(call, ambient, b64);
      if call.query != "" then "QUERY_STRING" in env && env["QUERY_STRING"] == call.query
      else AgreesOn(env, ambient, "QUERY_STRING")
  {
    ServerVarsValues(call, ambient);
    CgiEnvironmentFromServerVars(call, ambient, b64, "QUERY_STRING");
  }

  /**
   * `AUTH_TYPE` is the first token exactly when the `authorization` header
   * splits on whitespace into two tokens; otherwise it is the server's own.
   */
  lemma CgiEnvAuthType(call: EnvCall, ambient: map<string, string>, b64: Base64Ascii)
    ensures var env := CgiEnvironment(call, ambient, b64);
      var tokens := Split(HeaderOr(call.request.headers, "authorization"));
      if |tokens| == 2 then "AUTH_TYPE" in env && env["AUTH_TYPE"] == tokens[0]
      else AgreesOn(env, ambient, "AUTH_TYPE")
  {
    var env0 := ServerVars(call, ambient);
    ServerVarsKeepLaterNames(call, ambient);
    AuthVarsAuthType(env0, HeaderOr(call.request.headers, "authorization"), b64);
    CgiEnvironmentFromAuthVars(call, ambient, b64, "AUTH_TYPE");
  }

  /**
   * For `Basic` (in any letter case) credentials whose decoded text is a user
   * and a password around a single colon, `REMOTE_USER` is the user.
   */
  lemma CgiEnvRemoteUserSet(call: EnvCall, ambient: map<string, string>, b64: Base64Ascii,
                            scheme: string, token: string, user: string, password: string)
    requires Split(HeaderOr(call.request.headers, "authorization")) == [scheme, token]
    requires Lower(scheme) == "basic"
    requires b64(token) == Some(user + [':'] + password)
    requires ':' !in user && ':' !in password
    ensures var env := CgiEnvironment(call, ambient, b64);
      && "AUTH_TYPE" in env && env["AUTH_TYPE"] == scheme
      && "REMOTE_USER" in env && env["REMOTE_USER"] == user
  {
    var env0 := ServerVars(call, ambient);
    var authorization := HeaderOr(call.request.headers, "authorization");
    SplitOnPair(user, ':', password);
    AuthVarsAuthType(env0, authorization, b64);
    AuthVarsRemoteUser(env0, authorization, b64);
    CgiEnvironmentFromAuthVars(call, ambient, b64, "AUTH_TYPE");
    CgiEnvironmentFromAuthVars(call, ambient, b64, "REMOTE_USER");
  }

  /**
   * In every other case (not two tokens, another scheme, a token that does not
   * decode, decoded text without exactly one colon) `REMOTE_USER` is the
   * server's own, and the build does not fail.
   */
  lemma CgiEnvRemoteUserUnset(call: EnvCall, ambient: map<string, string>, b64: Base64Ascii)
    requires var tokens := Split(HeaderOr(call.request.headers, "authorization"));
      || |tokens| != 2
      || Lower(tokens[0]) != "basic"
      || b64(tokens[1]).None?
      || Count(b64(tokens[1]).value, ':') != 1
    ensures AgreesOn(CgiEnvironment(call, ambient, b64), ambient, "REMOTE_USER")
  {
    var env0 := ServerVars(call, ambient);
    var authorization := HeaderOr(call.request.headers, "authorization");
    var tokens := Split(authorization);
    if |tokens| == 2 && b64(tokens[1]).Some? {
      SplitOnTwo(b64(tokens[1]).value, ':');
    }
    ServerVarsKeepLaterNames(call, ambient);
    AuthVarsRemoteUser(env0, authorization, b64);
    CgiEnvironmentFromAuthVars(call, ambient, b64, "REMOTE_USER");
  }

  /** `Authorization: Basic <token>` where the token decodes to `user:password`. */
  lemma CgiEnvBasicAuthorization(call: EnvCall, ambient: map<string, string>, b64: Base64Ascii,
                                 token: string, user: string, password: string)
    requires HeaderOr(call.request.headers, "authorization") == "Basic " + token
    requires IsWord(token)
    requires b64(token) == Some(user + ":" + password)
    requires ':' !in user && ':' !in password
    ensures var env := CgiEnvironment(call, ambient, b64);
      && "AUTH_TYPE" in env && env["AUTH_TYPE"] == "Basic"
      && "REMOTE_USER" in env && env["REMOTE_USER"] == user
  {
    assert "Basic " + token == "Basic" + [' '] + token;
    assert IsWord("Basic");
    SplitTwoWords("Basic", ' ', token);
    assert Lower("Basic") == "basic";
    CgiEnvRemoteUserSet(call, ambient, b64, "Basic", token, user, password);
  }

  /**
   * `CONTENT_TYPE` is the request's content type, or when that is empty the
   * `content-type` header, or `''`.
   */
  lemma CgiEnvContentType(call: EnvCall, ambient: map<string, string>, b64: Base64Ascii)
    ensures var env := CgiEnvironment(call, ambient, b64);
      && "CONTENT_TYPE" in env
      && env["CONTENT_TYPE"] == if call.request.contentType != "" then call.request.contentType
                                else HeaderOr(call.request.headers, "content-type")
  {
    BuilderNamesAreNotHeaderNames();
    CgiEnvironmentBeforeHeaders(call, ambient, b64, "CONTENT_TYPE");
  }

  /**
   * `CONTENT_LENGTH` is the decimal rendering of a present, non-zero content
   * length (it reads back as that length) and `''` otherwise; it is never
   * taken from the header. Instead, when it is `''`, the `content-length`
   * header goes to the misspelled `CONTENT_LENGRH`.
   */
  lemma CgiEnvContentLength(call: EnvCall, ambient: map<string, string>, b64: Base64Ascii)
    ensures var env := CgiEnvironment(call, ambient, b64);
      var length := call.request.contentLength;
      && "CONTENT_LENGTH" in env
      && (LengthIsTruthy(length) ==>
            env["CONTENT_LENGTH"] == Decimal(length.value) && DecimalValue(Decimal(length.value)) == length.value)
      && (!LengthIsTruthy(length) ==> env["CONTENT_LENGTH"] == "")
      && (!LengthIsTruthy(length) ==>
            "CONTENT_LENGRH" in env && env["CONTENT_LENGRH"] == HeaderOr(call.request.headers, "content-length"))
      && (LengthIsTruthy(length) ==> AgreesOn(env, ambient, "CONTENT_LENGRH"))
  {
    var authorization := HeaderOr(call.request.headers, "authorization");
    var env0 := ServerVars(call, ambient);
    var env1 := AuthVars(env0, authorization, b64);
    ServerVarsKeepLaterNames(call, ambient);
    AuthVarsKeep(env0, authorization, b64, "CONTENT_LENGRH");
    RequestVarsContentLength(env1, call.request);
    CgiEnvironmentBeforeHeaders(call, ambient, b64, "CONTENT_LENGTH");
    CgiEnvironmentBeforeHeaders(call, ambient, b64, "CONTENT_LENGRH");
    if LengthIsTruthy(call.request.contentLength) {
      DecimalRoundTrip(call.request.contentLength.value);
    }
  }

  /** The content block alone: what it leaves in `CONTENT_LENGTH` and `CONTENT_LENGRH`. */
  lemma RequestVarsContentLength(env: map<string, string>, request: Request)
    ensures var env' := RequestVars(env, request);
      && "CONTENT_LENGTH" in env' && env'["CONTENT_LENGTH"] == ContentLengthText(request.contentLength)
      && (ContentLengthText(request.contentLength) == "" ==>
            "CONTENT_LENGRH" in env' && env'["CONTENT_LENGRH"] == HeaderOr(request.headers, "content-length"))
      && (ContentLengthText(request.contentLength) != "" ==> AgreesOn(env', env, "CONTENT_LENGRH"))
  {
    var env1 := ContentVars(env, request);
    var env2 := ContentTypeFallback(env1, request.headers);
    assert env2["CONTENT_LENGTH"] == ContentLengthText(request.contentLength);
    assert AgreesOn(env2, env, "CONTENT_LENGRH");
  }

  /**
   * A request whose content length is 0 and whose `Content-Length` header is
   * `0` gets an empty `CONTENT_LENGTH`; the header value lands in `CONTENT_LENGRH`.
   */
  lemma CgiEnvZeroLengthLost(call: EnvCall, ambient: map<string, string>, b64: Base64Ascii)
    requires call.request.contentLength == Some(0)
    requires HeaderOr(call.request.headers, "content-length") == "0"
    ensures var env := CgiEnvironment(call, ambient, b64);
      && "CONTENT_LENGTH" in env && env["CONTENT_LENGTH"] == ""
      && "CONTENT_LENGRH" in env && env["CONTENT_LENGRH"] == "0"
  {
    CgiEnvContentLength(call, ambient, b64);
  }

  /**
   * Every header appears as its `HTTP_` variable with the header's value,
   * provided no header of another name shares that variable.
   */
  lemma CgiEnvHeaderVariable(call: EnvCall, ambient: map<string, string>, b64: Base64Ascii, i: nat)
    requires i < |call.request.headers|
    requires var headers := call.request.headers;
      forall k :: 0 <= k < |headers| && HttpName(headers[k].0) == HttpName(headers[i].0) ==>
        Lower(headers[k].0) == Lower(headers[i].0)
    ensures var env := CgiEnvironment(call, ambient, b64);
      var name := call.request.headers[i].0;
      HttpName(name) in env && Some(env[HttpName(name)]) == Lookup(call.request.headers, name)
  {
    var headers := call.request.headers;
    var env := RequestVars(AuthVars(ServerVars(call, ambient), HeaderOr(headers, "authorization"), b64), call.request);
    HttpVarsOfHeader(env, headers, i);
  }

  // ---------------------------------------------------------------------
  // The environment never reaches the script; the corrected builder
  // ---------------------------------------------------------------------

  /** An absent or empty `authorization` header splits into no tokens. */
  lemma NoAuthorizationNoTokens(call: EnvCall)
    requires HeaderOr(call.request.headers, "authorization") == ""
    ensures Split(HeaderOr(call.request.headers, "authorization")) == []
  {
  }

  /**
   * As written, the script inherits the process environment, which keeps
   * what earlier requests wrote: after a request with a query, a request
   * without one runs its script with the earlier request's `QUERY_STRING`.
   */
  lemma StaleQueryStringLeaks(first: EnvCall, second: EnvCall, startup: map<string, string>, b64: Base64Ascii)
    requires first.query != "" && second.query == ""
    ensures var afterFirst := CgiEnvironment(first, startup, b64);
      var seen := ScriptEnvironment(None, CgiEnvironment(second, afterFirst, b64));
      "QUERY_STRING" in seen && seen["QUERY_STRING"] == first.query
  {
    var afterFirst := CgiEnvironment(first, startup, b64);
    CgiEnvQueryString(first, startup, b64);
    CgiEnvQueryString(second, afterFirst, b64);
  }

  /**
   * Likewise for credentials: after a request with `Basic` credentials for
   * `user`, a request with no `authorization` header runs its script with
   * `AUTH_TYPE` `Basic` and `REMOTE_USER` `user`.
   */
  lemma StaleRemoteUserLeaks(first: EnvCall, second: EnvCall, startup: map<string, string>, b64: Base64Ascii,
                             token: string, user: string, password: string)
    requires HeaderOr(first.request.headers, "authorization") == "Basic " + token
    requires IsWord(token)
    requires b64(token) == Some(user + ":" + password)
    requires ':' !in user && ':' !in password
    requires HeaderOr(second.request.headers, "authorization") == ""
    ensures var afterFirst := CgiEnvironment(first, startup, b64);
      var seen := ScriptEnvironment(None, CgiEnvironment(second, afterFirst, b64));
      && "AUTH_TYPE" in seen && seen["AUTH_TYPE"] == "Basic"
      && "REMOTE_USER" in seen && seen["REMOTE_USER"] == user
  {
    var afterFirst := CgiEnvironment(first, startup, b64);
    CgiEnvBasicAuthorization(first, startup, b64, token, user, password);
    NoAuthorizationNoTokens(second);
    CgiEnvAuthType(second, afterFirst, b64);
    CgiEnvRemoteUserUnset(second, afterFirst, b64);
  }

  /** `process_cgi_env` with the missing `return env` added. */
  method ProcessCgiEnvIntended(call: EnvCall, environ: map<string, string>, process: ProcessEnvironment, b64: Base64Ascii)
    returns (result: Option<map<string, string>>)
    modifies process
    ensures result == Some(CgiEnvironment(call, environ, b64))
    ensures process.vars == CgiEnvironment(call, old(process.vars), b64)
  {
    var env := BuildCgiEnv(call, environ, process, b64);
    result := Some(env.vars);
  }

  /**
   * With the dictionary returned, the script runs under the CGI variables of
   * its own request on top of `os.environ` (`environ`), whatever earlier
   * requests wrote: without a query it sees the start-up `QUERY_STRING`.
   */
  lemma IntendedScriptEnvironment(call: EnvCall, environ: map<string, string>, b64: Base64Ascii)
    ensures var env := ScriptEnvironment(Some(CgiEnvironment(call, environ, b64)), environ);
      && "GATEWAY_INTERFACE" in env && env["GATEWAY_INTERFACE"] == "CGI/1.1"
      && "REQUEST_METHOD" in env && env["REQUEST_METHOD"] == call.requestMethod
      && "SCRIPT_NAME" in env && env["SCRIPT_NAME"] == call.pathToScript
      && (call.query != "" ==> "QUERY_STRING" in env && env["QUERY_STRING"] == call.query)
      && (call.query == "" ==> AgreesOn(env, environ, "QUERY_STRING"))
  {
    CgiEnvServerVariables(call, environ, b64);
    CgiEnvQueryString(call, environ, b64);
  }

  /**
   * With the dictionary returned, a request without an `authorization` header
   * gets the start-up `AUTH_TYPE` and `REMOTE_USER`, whatever earlier requests sent.
   */
  lemma IntendedNoStaleCredentials(call: EnvCall, environ: map<string, string>, b64: Base64Ascii)
    requires HeaderOr(call.request.headers, "authorization") == ""
    ensures var env := ScriptEnvironment(Some(CgiEnvironment(call, environ, b64)), environ);
      AgreesOn(env, environ, "AUTH_TYPE") && AgreesOn(env, environ, "REMOTE_USER")
  {
    NoAuthorizationNoTokens(call);
    CgiEnvAuthType(call, environ, b64);
    CgiEnvRemoteUserUnset(call, environ, b64);
  }

  /** The content-length fallback with the key spelled `CONTENT_LENGTH`. */
  function ContentLengthFallbackIntended(env: map<string, string>, headers: seq<Header>): map<string, string>
    requires "CONTENT_LENGTH" in env
  {
    if env["CONTENT_LENGTH"] == "" then env["CONTENT_LENGTH" := HeaderOr(headers, "content-length")] else env
  }

  /** The content block with the corrected fallback. */
  function RequestVarsIntended(env: map<string, string>, request: Request): map<string, string> {
    ContentLengthFallbackIntended(ContentTypeFallback(ContentVars(env, request), request.headers), request.headers)
  }

  /**
   * With the corrected fallback, `CONTENT_LENGTH` is the request's non-zero
   * length, or else the `content-length` header (or `''`), and no
   * `CONTENT_LENGRH` is written.
   */
  lemma IntendedContentLength(env: map<string, string>, request: Request)
    ensures var env' := RequestVarsIntended(env, request);
      && "CONTENT_LENGTH" in env'
      && env'["CONTENT_LENGTH"] == (if LengthIsTruthy(request.contentLength) then Decimal(request.contentLength.value)
                                    else HeaderOr(request.headers, "content-length"))
      && AgreesOn(env', env, "CONTENT_LENGRH")
  {
    var typed := ContentTypeFallback(ContentVars(env, request), request.headers);
    assert typed["CONTENT_LENGTH"] == ContentLengthText(request.contentLength);
  }
}
