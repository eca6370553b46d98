# CGI gateway and tic-tac-toe handlers, modelled in Dafny

This project models two small aiohttp servers.

**The static-file and CGI web server** (`10-webserver/handlers.py`):
- A GET for a path that does not end in `.cgi` is served from a directory as a static file.
- A GET or POST for a `.cgi` path runs the script through the shell.
- Before the script starts, `process_cgi_env` builds a CGI/1.1 environment dictionary from the request:
  - server variables;
  - `AUTH_TYPE` and `REMOTE_USER` from a `Basic` authorization header;
  - the content variables;
  - one `HTTP_*` variable per request header.
- The dictionary is a copy of `os.environ`, an `os._Environ` whose item assignment calls `putenv`. Every write therefore also lands in the server process's own environment.
- `process_cgi_env` returns `None`, so the shell is spawned without an explicit environment and inherits the process environment, including what earlier requests wrote there.
- The handler sends status 200 `OK`. For a POST it reads the body in chunks and passes each non-empty chunk to `Process._feed_stdin`, which writes the chunk and closes stdin. The script therefore receives only the first non-empty chunk (see Findings).
- It then pumps the script's stdout into the response until the script has exited and its output is drained.

**The tic-tac-toe HTTP handlers** (`12-ttt-client/handlers.py`):
- The start handler creates a game, with the name defaulting to `''`.
- The list handler lists the stored games with a `board_is_empty` flag.
- The status and play handlers validate the query parameters in a fixed order:
  - a failed check gives a 400 JSON message;
  - passing every check gives 200 with the game store's result.

Modules:
- `Wrappers` — `Option`.
- `Text` — the Python string operations the handlers use:
  - `upper`/`lower`;
  - `re.sub('-', '_', …)`;
  - `str.split()` and `str.split(':')`;
  - removal of the line separator;
  - `endswith`;
  - `%d`.
- `Headers` — the request's case-insensitive header multidict, `normalize_http_headers` and `append_http_headers`. The process environment is the class `ProcessEnvironment`. The environment dictionary is the class `EnvDict`; its writes update it in place and write through to the process environment.
- `CgiEnv` — `process_cgi_env`, as a statement-by-statement builder on an `EnvDict`. The builder is proved to leave the dictionary equal to a specification function of `os.environ`, and the process environment equal to the same function of its previous contents. The function has one part per block of the source, and lemmas state what each CGI variable holds.
- `Pumps` — the inbound (request body → stdin) and outbound (stdout → response) loops of `handle_cgi_req`, as methods with loop invariants over finite scripts of read results. The script's stdin is the class `StdinPipe`.
- `Gateway` — `handle_cgi_req` as a whole, `handle_static_req`, and the `.cgi` routing of the GET and POST handlers.
- `Ttt` — the tic-tac-toe handlers, as pure functions from the query (and the store's answers) to a response value.

Two facts about the handler shape the model:
- The inbound pump finishes before the outbound pump starts; the two never run at the same time.
- The script runs under the process environment, not under the dictionary `process_cgi_env` builds (see Findings).

## Model

| member | source | states |
|---|---|---|
| Text.Upper | 10-webserver/handlers.py:11 | `str.upper()`: same length; each ASCII lower-case letter is raised and every other character kept |
| Text.Lower | 10-webserver/handlers.py:18 | `str.lower()`: same length; each ASCII upper-case letter is lowered and every other character kept |
| Text.LowerIsLowerCase | 10-webserver/handlers.py:18 | the result of `lower()` contains no upper-case letter |
| Text.LowerOfLowerCase | 10-webserver/handlers.py:18 | `lower()` leaves a lower-case name unchanged |
| Text.Underscored | 10-webserver/handlers.py:11 | `re.sub('-', '_', s)`: same length, no `-` is left, each `-` becomes `_`, and every other character is kept |
| Text.WordEnd | 10-webserver/handlers.py:43 | the index of the first whitespace character at or after `i`, or the end of the string |
| Text.Split | 10-webserver/handlers.py:43 | `str.split()`: every piece is a non-empty run of non-whitespace characters; `Text.SplitDecomposes` completes it |
| Text.SplitDecomposes | 10-webserver/handlers.py:43-44 | the input is the words of `split()` with blank gaps around them, non-empty between two words: the words are exactly the maximal non-whitespace runs, in order |
| Text.SplitWord | 10-webserver/handlers.py:43 | a single word splits into itself alone |
| Text.SplitTwoWords | 10-webserver/handlers.py:43-44 | two words around one whitespace character split into exactly those two tokens |
| Text.Count | 10-webserver/handlers.py:55-56 | the number of occurrences is at most the length, and it is zero exactly when the character is absent |
| Text.SplitOn | 10-webserver/handlers.py:55 | `str.split(':')`: one more piece than there are separators; no piece holds the separator; joining the pieces with it gives the input back |
| Text.SplitOnTwo | 10-webserver/handlers.py:55-57 | the split has two pieces exactly when there is one separator, and the input is then the first piece, the separator and the second piece |
| Text.SplitOnPair | 10-webserver/handlers.py:55-57 | `user:password` with no colon inside either part splits into `[user, password]` |
| Text.CountAppend | 10-webserver/handlers.py:55 | occurrences in a concatenation are the sum of the occurrences in its parts |
| Text.SeparatorFreeCut | 10-webserver/handlers.py:55-57 | a string cuts at its only separator in just one way |
| Text.RemoveChar | 10-webserver/handlers.py:121 | `re.sub(c, '', s)` for one character: `c` is gone, the length drops by its number of occurrences, and a string without `c` is unchanged |
| Text.EndsWithIff | 10-webserver/handlers.py:127 | `s.endswith(suffix)` holds exactly when `s` is some stem followed by `suffix` |
| Text.DigitChar | 12-ttt-client/handlers.py:70 | a digit value 0-9 maps to its decimal digit character |
| Text.NatDecimal | 12-ttt-client/handlers.py:70 | the decimal rendering of a natural number is non-empty, all digits, has no leading zero, and starts with `0` only for 0 |
| Text.Decimal | 10-webserver/handlers.py:60 | `str(n)` / `%d`: a minus sign exactly when `n` is negative, then digits with no leading zero; only `0` itself starts with `0` |
| Text.NatDecimalRoundTrip | 12-ttt-client/handlers.py:70 | reading back the rendering of a natural number gives the number |
| Text.DecimalRoundTrip | 10-webserver/handlers.py:60 | reading back the rendering of any integer gives the integer |
| Headers.LookupFirstMatch | 10-webserver/handlers.py:18 | `headers[name]` on the multidict finds a value exactly when some header's name matches case-insensitively, and then returns the first match's value |
| Headers.LookupPresent | 10-webserver/handlers.py:10-11 | looking up the name of a header that is present always finds a value |
| Headers.LookupIgnoresCase | 10-webserver/handlers.py:11 | names that agree after lower-casing look up the same value |
| Headers.NormalizeHttpHeaders | 10-webserver/handlers.py:15-20 | every header's lower-cased name is a key; every key is lower-case and maps to the multidict's value for that name |
| Headers.NormalizedLookup | 10-webserver/handlers.py:41 | for a lower-case name, the normalized dictionary's `x if name in d else ''` equals the case-insensitive lookup with `''` as default |
| Headers.HttpNameHasPrefix | 10-webserver/handlers.py:11 | every variable written for a header starts with `HTTP_` |
| Headers.ProcessEnvironment.constructor | 10-webserver/handlers.py:26 | the process environment at start-up |
| Headers.EnvDict.Set | 10-webserver/handlers.py:27-66 | an item assignment on the `os.environ` copy updates the dictionary and, through `putenv`, the process environment with the same entry |
| Headers.EnvDict.Copy | 10-webserver/handlers.py:26 | `copy.deepcopy(os.environ)`: a dictionary holding the variables of `os.environ`, tied to the process environment its writes go through to |
| Headers.AppendHttpHeaders | 10-webserver/handlers.py:9-13 | writes `HTTP_` + upper-cased, underscored name := value for every header in order, into the dictionary and through it into the process environment, and returns the same dictionary it was given |
| Headers.HttpVarsKeepUnwritten | 10-webserver/handlers.py:10-11 | a variable no header maps to keeps its presence and value |
| Headers.HttpVarsKeepOthers | 10-webserver/handlers.py:10-11 | a variable without the `HTTP_` prefix keeps its presence and value |
| Headers.HttpVarsLastWins | 10-webserver/handlers.py:10-11 | the last header writing a variable decides it, and its value is the multidict's value for that header's name |
| Headers.HttpVarsOfHeader | 10-webserver/handlers.py:10-11 | when no header of another name shares a header's variable, the variable holds the multidict's value for that header |
| Headers.LastWithName | 10-webserver/handlers.py:10-11 | a header mapped to a variable has a last such header after it |
| Headers.HttpNameCollision | 10-webserver/handlers.py:11 | `X-Id` and `x_id` are different headers but both write `HTTP_X_ID` |
| CgiEnv.LowerCaseNames | 10-webserver/handlers.py:41-66 | the four header names looked up are lower-case |
| CgiEnv.BuildCgiEnv | 10-webserver/handlers.py:23-68 | the statement sequence of `process_cgi_env` leaves a fresh dictionary equal to the CGI environment over `os.environ`, and the process environment equal to the CGI environment over its previous contents |
| CgiEnv.SetServerVars | 10-webserver/handlers.py:27-40 | the server block writes the eleven server variables, and `QUERY_STRING` only for a non-empty query, into both the dictionary and the process environment |
| CgiEnv.SetAuthVars | 10-webserver/handlers.py:41-57 | the authorization block updates the dictionary and the process environment as the authorization specification says |
| CgiEnv.SetContentVars | 10-webserver/handlers.py:59-66 | the content block updates the dictionary and the process environment as the content specification says |
| CgiEnv.ProcessCgiEnv | 10-webserver/handlers.py:23-68 | `process_cgi_env` returns `None` whatever the request, and leaves the process environment holding the CGI environment over its previous contents |
| CgiEnv.CgiEnvironmentBeforeHeaders | 10-webserver/handlers.py:68 | appending the headers changes no variable outside the `HTTP_` prefix |
| CgiEnv.BuilderNamesAreNotHeaderNames | 10-webserver/handlers.py:27-66 | none of the names the builder writes directly has the `HTTP_` prefix |
| CgiEnv.AuthVarsKeep | 10-webserver/handlers.py:41-57 | the authorization block writes only `AUTH_TYPE` and `REMOTE_USER` |
| CgiEnv.RequestVarsKeep | 10-webserver/handlers.py:59-66 | the content block writes only `CONTENT_TYPE`, `CONTENT_LENGTH`, `HTTP_REFERER` and `CONTENT_LENGRH` |
| CgiEnv.CgiEnvironmentFromServerVars | 10-webserver/handlers.py:26-40 | every variable that no later block writes holds what the server block left |
| CgiEnv.CgiEnvironmentFromAuthVars | 10-webserver/handlers.py:59-68 | a variable that the content block and the header loop leave alone keeps its value from the authorization block |
| CgiEnv.ServerVarsValues | 10-webserver/handlers.py:27-40 | the values of the server variables after the server block |
| CgiEnv.ServerVarsKeepLaterNames | 10-webserver/handlers.py:27-40 | the server block leaves `AUTH_TYPE`, `REMOTE_USER` and `CONTENT_LENGRH` as the server had them |
| CgiEnv.CgiEnvServerVariables | 10-webserver/handlers.py:27-40 | the final environment holds each server variable with its constant or argument value; `REMOTE_ADDR` is `request.remote` only when the request stores `remote`, else `''` |
| CgiEnv.CgiEnvQueryString | 10-webserver/handlers.py:36-37 | `QUERY_STRING` is the query when that is non-empty, and is otherwise the server's own |
| CgiEnv.AuthVarsAuthType | 10-webserver/handlers.py:41-46 | the authorization block sets `AUTH_TYPE` to the first token exactly when the header splits into two tokens, and otherwise leaves it alone |
| CgiEnv.AuthVarsRemoteUser | 10-webserver/handlers.py:41-57 | the authorization block sets `REMOTE_USER` to the part before the one colon of decoded `basic` credentials, and otherwise leaves it alone |
| CgiEnv.CgiEnvAuthType | 10-webserver/handlers.py:41-46 | `AUTH_TYPE` is the first token exactly when the authorization header splits into two tokens, and is otherwise the server's own |
| CgiEnv.CgiEnvRemoteUserSet | 10-webserver/handlers.py:41-57 | `basic` in any letter case with a token that decodes to text with exactly one colon sets `REMOTE_USER` to the part before it |
| CgiEnv.CgiEnvRemoteUserUnset | 10-webserver/handlers.py:42-57 | in every other case `REMOTE_USER` is the server's own and the build still succeeds |
| CgiEnv.CgiEnvBasicAuthorization | 10-webserver/handlers.py:41-57 | the header `Basic <token>` with `user:password` inside gives `AUTH_TYPE` `Basic` and `REMOTE_USER` `user` |
| CgiEnv.CgiEnvContentType | 10-webserver/handlers.py:59-64 | `CONTENT_TYPE` is the request's content type, or when that is empty the `content-type` header, or `''` |
| CgiEnv.RequestVarsContentLength | 10-webserver/handlers.py:60-66 | the content block writes the length text to `CONTENT_LENGTH`, and only when that is `''` sends the `content-length` header to `CONTENT_LENGRH` |
| CgiEnv.CgiEnvContentLength | 10-webserver/handlers.py:60-66 | `CONTENT_LENGTH` is the decimal of a non-zero length, which reads back as that length, and `''` otherwise. Only then does the `content-length` header go to `CONTENT_LENGRH` |
| CgiEnv.CgiEnvZeroLengthLost | 10-webserver/handlers.py:60-66 | a length of 0 with header `0` leaves `CONTENT_LENGTH` empty and puts `0` in `CONTENT_LENGRH` |
| CgiEnv.CgiEnvHeaderVariable | 10-webserver/handlers.py:68 | every header without a colliding name appears as its `HTTP_` variable with the multidict's value |
| CgiEnv.StaleQueryStringLeaks | 10-webserver/handlers.py:23-81 | after a request with a query, the script of a request without one inherits the earlier `QUERY_STRING` |
| CgiEnv.StaleRemoteUserLeaks | 10-webserver/handlers.py:41-81 | after a request with `Basic` credentials, the script of a request without an `authorization` header inherits the earlier `AUTH_TYPE` and `REMOTE_USER` |
| CgiEnv.ProcessCgiEnvIntended | 10-webserver/handlers.py:23-68 | with `return env` added, the builder returns the full CGI environment over `os.environ` |
| CgiEnv.IntendedScriptEnvironment | 10-webserver/handlers.py:75-82 | with the dictionary returned, the script sees `GATEWAY_INTERFACE`, `REQUEST_METHOD`, `SCRIPT_NAME`, its own query, and without a query the start-up `QUERY_STRING` |
| CgiEnv.IntendedNoStaleCredentials | 10-webserver/handlers.py:41-82 | with the dictionary returned, a request without an `authorization` header gets the start-up `AUTH_TYPE` and `REMOTE_USER` |
| CgiEnv.IntendedContentLength | 10-webserver/handlers.py:60-66 | with the key spelled correctly, `CONTENT_LENGTH` falls back to the header and `CONTENT_LENGRH` is untouched |
| Pumps.ConcatSnoc | 10-webserver/handlers.py:100-101 | appending a chunk appends its bytes to the stream |
| Pumps.NonEmptySnoc | 10-webserver/handlers.py:97-101 | an empty chunk is skipped and a non-empty one is appended |
| Pumps.ConcatNonEmpty | 10-webserver/handlers.py:97-101 | skipping empty chunks does not change the byte stream |
| Pumps.ConcatPrefix | 10-webserver/handlers.py:95-101 | the bytes of the first `k` reads are a prefix of the bytes of all reads |
| Pumps.ReadStep | 10-webserver/handlers.py:95-101 | one more read while short of the content length extends the forwarded chunks and the byte count by that read |
| Pumps.ReadSoFarPrefix | 10-webserver/handlers.py:95-101 | what the pump has handed on is, byte for byte, what it read, and a prefix of the whole body |
| Pumps.StdinPipe.Open | 10-webserver/handlers.py:75-79 | the script's stdin pipe starts open and empty |
| Pumps.StdinPipe.Write | 10-webserver/handlers.py:101 | a non-empty chunk written to an open pipe is delivered; on a closed pipe it is dropped |
| Pumps.StdinPipe.Close | 10-webserver/handlers.py:104 | closing keeps what was delivered |
| Pumps.StdinPipe.FeedStdin | 10-webserver/handlers.py:101 | `_feed_stdin`: the chunk is delivered if the pipe is open, and the pipe is closed afterwards |
| Pumps.FirstChunk | 10-webserver/handlers.py:101 | the first chunk of a list, as a list of at most one |
| Pumps.PumpRequestBody | 10-webserver/handlers.py:93-102 | passes exactly the non-empty reads, in order, to `_feed_stdin` until the bytes read reach the content length; an open stdin receives only the first of them and is closed from then on |
| Pumps.PumpRequestBodyIntended | 10-webserver/handlers.py:93-104 | with write-and-drain instead of `_feed_stdin`, an open stdin receives every non-empty read in order and stays open |
| Pumps.InboundForwardsWholeBody | 10-webserver/handlers.py:95-104 | when the content length is the body's length, the pump finishes and the chunks it hands on make up the whole body |
| Pumps.TwoReadBodyTruncated | 10-webserver/handlers.py:95-104 | a 300-byte body read as 256 then 44 bytes is read whole, but the script's stdin receives only the first 256 bytes |
| Pumps.InboundStopsAtFirstSufficientPrefix | 10-webserver/handlers.py:95 | the pump stops at the first read that brings the byte count to the content length, not earlier and not later |
| Pumps.Chunks | 10-webserver/handlers.py:107 | the chunks of a sequence of stdout reads, one per read |
| Pumps.PumpResponseBody | 10-webserver/handlers.py:106-115 | writes every non-empty stdout chunk in order, and stops at the first empty read made after the script has exited |
| Pumps.OutboundDeliversWholeOutput | 10-webserver/handlers.py:106-115 | when the last read is the only exit signal, the pump finishes and the response body is the script's whole output |
| Pumps.OutboundEndsOnlyAfterExit | 10-webserver/handlers.py:108-114 | the pump ends only on an empty read with a return code set |
| Gateway.CgiCommandQuotes | 10-webserver/handlers.py:71 | the command is the directory and path inside one pair of double quotes; a quote in the path adds to the two |
| Gateway.RemoveCharAppend | 10-webserver/handlers.py:121 | removing a character distributes over concatenation |
| Gateway.StaticFilePathShape | 10-webserver/handlers.py:120-122 | the static path holds no line separator, and for a clean directory it starts with the directory |
| Gateway.RoutesAgree | 10-webserver/handlers.py:124-142 | GET and POST send the same paths, exactly those ending in `.cgi`, to the gateway with the same command; other POSTs get 404 `Not found.` and other GETs get the static file |
| Gateway.HandleCgiRequest | 10-webserver/handlers.py:70-118 | status 200 `OK`; the quoted command; the process environment gains the CGI variables of this request and the script runs under it; a POST body is passed to `_feed_stdin` chunk by chunk, the script's stdin gets the first chunk only, and stdin is closed once a chunk was fed or the pump completed; the outbound pump runs only after the inbound pump finished or was skipped; a POST body without a length ends the request |
| Ttt.SendOk | 12-ttt-client/handlers.py:5-11 | status 200, JSON content type, the given body |
| Ttt.SendClientError | 12-ttt-client/handlers.py:13-20 | status 400, JSON content type, a one-key message |
| Ttt.GameName | 12-ttt-client/handlers.py:26 | the `name` parameter when present, `''` otherwise |
| Ttt.StartHandler | 12-ttt-client/handlers.py:23-35 | always 200, with the id of the game created under that name |
| Ttt.ZeroCount | 12-ttt-client/handlers.py:43 | the number of zero cells is at most the board size, and equals it exactly when every cell is zero |
| Ttt.EmptyBoardIffAllZero | 12-ttt-client/handlers.py:43 | on a nine-cell board, `board_is_empty` holds exactly when every cell is 0 |
| Ttt.ListHandler | 12-ttt-client/handlers.py:37-48 | 200 with one entry per stored game, in order, holding its id, name and `board_is_empty` |
| Ttt.StatusHandler | 12-ttt-client/handlers.py:51-77 | 200 exactly when `game` is present, an integer and a stored game, with that game's status; otherwise 400 with a message |
| Ttt.StatusRefusals | 12-ttt-client/handlers.py:55-71 | the reason or error sent for a missing, non-integer or unknown game |
| Ttt.PlayParametersIndexed | 12-ttt-client/handlers.py:83-107 | the named checks on the four parameters agree with the same checks over the ordered parameter list |
| Ttt.ParseMove | 12-ttt-client/handlers.py:103-111 | the four values are parsed exactly when every one is an integer, and they are the parsed values in order |
| Ttt.PlayHandler | 12-ttt-client/handlers.py:79-129 | the status is 200 or 400, and it is 400 exactly when the body is an error message |
| Ttt.PlayOkIff | 12-ttt-client/handlers.py:83-125 | a move is made exactly when all four parameters are present and integers, the game is stored and the player is 1 or 2; the move is the one the parameters name, with `x` and `y` unchecked |
| Ttt.PlayReportsFirstMissing | 12-ttt-client/handlers.py:83-101 | only the first missing parameter, in the order game, x, y, player, is reported |
| Ttt.PlayRejectsNonIntegers | 12-ttt-client/handlers.py:103-111 | any one non-integer parameter gives the single shared reason |
| Ttt.UnknownGameBeforePlayer | 12-ttt-client/handlers.py:68-122 | an unknown game is reported before the player id is examined, with the same response as the status handler |
| Ttt.PlayRejectsUnknownPlayer | 12-ttt-client/handlers.py:119-122 | for a stored game, a player id other than 1 or 2 gives `Invalid player id.` |

## Left out

- The aiohttp request, response and stream objects: a request is a record of the fields the handlers read, and a response is a record of its status, reason and the chunks written.
- Spawning the shell process is left out, and so are its pipes and a spawn failure. Stdout is a finite script of read results, each a chunk plus the return code visible at that moment. The request body is a finite script of chunks.
- The pumps' one-second sleeps are not modelled. A pump that runs out of scripted reads before its exit condition ends as `Waiting`; the source would keep polling.
- `process.stdin.drain()` is called without being awaited, so it has no effect on the model.
- The model takes `port` and `request.remote` as strings. In the source, a value of another type written to the `os.environ` copy raises `TypeError`, and that is not modelled.
- `putenv`'s refusal of a name containing `=` or of a NUL character is not modelled.
- `base64.decodebytes(...).decode('ascii')` is a function parameter: it returns the decoded text, or `None` where the source catches `binascii.Error` or `UnicodeError`. Python's `int()` is likewise a parameter.
- Case mapping covers ASCII letters only. Python's Unicode `upper`/`lower` of other letters is not modelled.
- `os.linesep` is taken to be the POSIX `"\n"`.
- `os.path.join(os.path.dirname(__file__), directory)` is not modelled; the handlers take the resulting directory path as given.
- `web.FileResponse` reading the file is not modelled: the static route yields the file path only.
- JSON serialisation of bodies is not modelled, and neither is numpy. A board is a flat sequence of cells, and `np.where(board == 0)[0]` is taken to count the zero cells.
- The game store (`create_new_game`, `get_game_status`, `make_move`, `game_exists`, `games`) is not modelled. A response names the store call whose result it carries, and `game_exists` is a parameter.
- The status handler catches `Exception` where the play handler catches `ValueError`. For `int()` of a string both catch the same failure, so the model uses one parser.
- `request.query` is a map from each key to its first value, which is what `in` and `[]` on the multidict see.

## Findings

| source | as written | input that shows it | evidently intended | confidence | as-written member | corrected member |
|---|---|---|---|---|---|---|
| 10-webserver/handlers.py:23-81 | `process_cgi_env` has no `return env`, so the shell is spawned with `env=None` and inherits the process environment; the `os.environ` copy's writes reach that environment through `putenv` and stay there, so a script also sees variables that earlier requests set | `GET /a.cgi?x=1` and then `GET /b.cgi`: the second script sees `QUERY_STRING=x=1` | return the dictionary, so each script runs under `os.environ` plus its own request's variables | not executed | CgiEnv.StaleQueryStringLeaks | CgiEnv.ProcessCgiEnvIntended |
| 10-webserver/handlers.py:65-66 | the content-length fallback writes the misspelled key `CONTENT_LENGRH` | a POST with `content_length == 0` and header `Content-Length: 0`: `CONTENT_LENGTH` is `''` and `CONTENT_LENGRH` is `0` | write the header value to `CONTENT_LENGTH` | not executed | CgiEnv.CgiEnvZeroLengthLost | CgiEnv.IntendedContentLength |
| 10-webserver/handlers.py:95-104 | each body chunk goes to `Process._feed_stdin`, which writes it, drains and closes stdin; later writes on the closed pipe are dropped without an error | a POST with `Content-Length: 300` whose body arrives as reads of 256 and 44 bytes: the script reads 256 bytes and then end of file | `stdin.write(chunk)` and `await stdin.drain()` for each chunk, and `stdin.close()` after the loop | not executed | Pumps.TwoReadBodyTruncated | Pumps.PumpRequestBodyIntended |

`Gateway.HandleCgiRequest` keeps the as-written behaviour of all three rows so that it stays faithful to the handler. The corrected halves state what the fixes give the script:
- `CgiEnv.IntendedScriptEnvironment` and `CgiEnv.IntendedNoStaleCredentials` for the returned environment;
- `Pumps.InboundForwardsWholeBody` with `Pumps.PumpRequestBodyIntended` for the whole body reaching stdin.
