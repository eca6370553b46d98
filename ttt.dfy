/**
 * The HTTP handlers of the tic-tac-toe server: the `name` default of the
 * start handler, the game listing, and the guard chains of the status and
 * play handlers. The game store is outside the model: the handlers are
 * given its answers (`game_exists`, the games it holds) and the response
 * names the store call whose result it carries.
 */
module Ttt {
  import opened Wrappers
  import opened Text

  /** `request.query`: each key mapped to its first value. */
  type Query = map<string, string>

  /** Python's `int(str)`: the value, or `None` where it raises `ValueError`. */
  type IntParser = string -> Option<int>

  /** The store calls whose results the handlers send back. */
  datatype StorageCall =
    | CreateNewGame(name: string)
    | GetGameStatus(gameId: int)
    | MakeMove(gameId: int, x: int, y: int, player: int)

  /** One game as the store holds it; `board` lists the cells row by row. */
  datatype Game = Game(id: int, name: string, board: seq<int>)

  /** One entry of the listing. */
  datatype GameSummary = GameSummary(id: int, name: string, boardIsEmpty: bool)

  /** The JSON value a response carries. */
  datatype Body =
    | NewGameId(call: StorageCall)      // {'id': ...} of the game the call created
    | ResultOf(call: StorageCall)       // the call's result, as the store returns it
    | Listing(games: seq<GameSummary>)
    | Message(key: string, text: string) // {'reason': ...} or {'error': ...}

  datatype Response = Response(status: int, contentType: string, body: Body)

  const JSON_CONTENT_TYPE := "application/json; charset=utf-8"

  /** `send_ok_response`: status 200 with a JSON body. */
  function SendOk(body: Body): (r: Response)
    ensures r.status == 200 && r.contentType == JSON_CONTENT_TYPE && r.body == body
  {
    Response(200, JSON_CONTENT_TYPE, body)
  }

  /** `send_client_error_response`: status 400 with a one-key JSON object. */
  function SendClientError(key: string, text: string): (r: Response)
    ensures r.status == 400 && r.contentType == JSON_CONTENT_TYPE && r.body == Message(key, text)
  {
    Response(400, JSON_CONTENT_TYPE, Message(key, text))
  }

  // ---------------------------------------------------------------------
  // get_start_handler and list_handler
  // ---------------------------------------------------------------------

  /** The game name the start handler passes to the store: `name`, or `''` when absent. */
  function GameName(query: Query): (name: string)
    ensures "name" in query ==> name == query["name"]
    ensures "name" !in query ==> name == ""
  {
    if "name" in query then query["name"] else ""
  }

  /** `get_start_handler`: create a game and answer with its id. */
  function StartHandler(query: Query): (r: Response)
    ensures r.status == 200
    ensures r.body == NewGameId(CreateNewGame(GameName(query)))
  {
    SendOk(NewGameId(CreateNewGame(GameName(query))))
  }

  /** The number of zero cells: `len(np.where(board == 0)[0])`. */
  function ZeroCount(board: seq<int>): (n: nat)
    ensures n <= |board|
    ensures n == |board| <==> forall i :: 0 <= i < |board| ==> board[i] == 0
  {
    if board == [] then 0 else (if board[0] == 0 then 1 else 0) + ZeroCount(board[1..])
  }

  /** `board_is_empty`: exactly nine cells are zero. */
  predicate BoardIsEmpty(board: seq<int>) {
    ZeroCount(board) == 9
  }

  /** On a nine-cell board, `board_is_empty` holds exactly when every cell is 0. */
  lemma EmptyBoardIffAllZero(board: seq<int>)
    requires |board| == 9
    ensures BoardIsEmpty(board) <==> forall i :: 0 <= i < 9 ==> board[i] == 0
  {
  }

  /** `list_handler`: every stored game, in the store's order, with id, name and `board_is_empty`. */
  function ListHandler(games: seq<Game>): (r: Response)
    ensures r.status == 200 && r.body.Listing?
    ensures |r.body.games| == |games|
    ensures forall i :: 0 <= i < |games| ==>
      r.body.games[i] == GameSummary(games[i].id, games[i].name, BoardIsEmpty(games[i].board))
  {
    SendOk(Listing(seq(|games|, i requires 0 <= i < |games| =>
      GameSummary(games[i].id, games[i].name, BoardIsEmpty(games[i].board)))))
  }

  // ---------------------------------------------------------------------
  // get_status_handler
  // ---------------------------------------------------------------------

  function MissingParameter(name: string): string {
    "Missing \"" + name + "\" query parameter!"
  }

  const INVALID_GAME_REASON := "Invalid \"game\" query parameter! Expected positive integer."
  const NOT_INTEGERS_REASON := "Parameters \"game\", \"x\", \"y\", \"player\" must be integers!"
  const INVALID_PLAYER_ERROR := "Invalid player id."

  /** `'Game with id %d does not exist.' % game_id` */
  function UnknownGame(gameId: int): string {
    "Game with id " + Decimal(gameId) + " does not exist."
  }

  /** `get_status_handler`: `game` present, an integer, and a stored game, else 400. */
  function StatusHandler(query: Query, parseInt: IntParser, gameExists: int -> bool): (r: Response)
    ensures r.status == 200 <==>
      "game" in query && parseInt(query["game"]).Some? && gameExists(parseInt(query["game"]).value)
    ensures r.status == 200 ==> r.body == ResultOf(GetGameStatus(parseInt(query["game"]).value))
    ensures r.status != 200 ==> r.status == 400 && r.body.Message?
  {
    if "game" !in query then SendClientError("reason", MissingParameter("game"))
    else match parseInt(query["game"])
      case None => SendClientError("reason", INVALID_GAME_REASON)
      case Some(gameId) =>
        if !gameExists(gameId) then SendClientError("error", UnknownGame(gameId))
        else SendOk(ResultOf(GetGameStatus(gameId)))
  }

  /** Each way the status handler can refuse, with the message it sends. */
  lemma StatusRefusals(query: Query, parseInt: IntParser, gameExists: int -> bool)
    ensures "game" !in query ==>
      StatusHandler(query, parseInt, gameExists) == SendClientError("reason", "Missing \"game\" query parameter!")
    ensures "game" in query && parseInt(query["game"]).None? ==>
      StatusHandler(query, parseInt, gameExists) == SendClientError("reason", INVALID_GAME_REASON)
    ensures "game" in query && parseInt(query["game"]).Some? && !gameExists(parseInt(query["game"]).value) ==>
      StatusHandler(query, parseInt, gameExists).body ==
        Message("error", "Game with id " + Decimal(parseInt(query["game"]).value) + " does not exist.")
  {
    if "game" !in query {
      assert MissingParameter("game") == "Missing \"game\" query parameter!";
    } else if parseInt(query["game"]).Some? {
      var gameId := parseInt(query["game"]).value;
      assert UnknownGame(gameId) == "Game with id " + Decimal(gameId) + " does not exist.";
    }
  }

  // ---------------------------------------------------------------------
  // get_play_handler
  // ---------------------------------------------------------------------

  /** The parameters of the play handler, in the order it checks them. */
  const PLAY_PARAMETERS: seq<string> := ["game", "x", "y", "player"]

  /** All four play parameters are present. */
  predicate HasPlayParameters(query: Query) {
    "game" in query && "x" in query && "y" in query && "player" in query
  }

  /** All four play parameters parse as integers. */
  predicate PlayParametersAreIntegers(query: Query, parseInt: IntParser)
    requires HasPlayParameters(query)
  {
    parseInt(query["game"]).Some? && parseInt(query["x"]).Some? &&
    parseInt(query["y"]).Some? && parseInt(query["player"]).Some?
  }

  /** `HasPlayParameters` and `PlayParametersAreIntegers` say the same of every entry of `PLAY_PARAMETERS`. */
  lemma PlayParametersIndexed(query: Query, parseInt: IntParser)
    ensures HasPlayParameters(query) <==> forall k :: 0 <= k < |PLAY_PARAMETERS| ==> PLAY_PARAMETERS[k] in query
    ensures HasPlayParameters(query) ==>
      (PlayParametersAreIntegers(query, parseInt) <==>
       forall k :: 0 <= k < |PLAY_PARAMETERS| ==> parseInt(query[PLAY_PARAMETERS[k]]).Some?)
  {
    if forall k :: 0 <= k < |PLAY_PARAMETERS| ==> PLAY_PARAMETERS[k] in query {
      assert PLAY_PARAMETERS[0] in query && PLAY_PARAMETERS[1] in query;
      assert PLAY_PARAMETERS[2] in query && PLAY_PARAMETERS[3] in query;
    }
    if HasPlayParameters(query) && forall k :: 0 <= k < |PLAY_PARAMETERS| ==> parseInt(query[PLAY_PARAMETERS[k]]).Some? {
      assert parseInt(query[PLAY_PARAMETERS[0]]).Some? && parseInt(query[PLAY_PARAMETERS[1]]).Some?;
      assert parseInt(query[PLAY_PARAMETERS[2]]).Some? && parseInt(query[PLAY_PARAMETERS[3]]).Some?;
    }
  }

  /** The four parameters parsed, in order, or `None` if any one fails to parse. */
  function ParseMove(query: Query, parseInt: IntParser): (move: Option<(int, int, int, int)>)
    requires HasPlayParameters(query)
    ensures move.Some? <==> PlayParametersAreIntegers(query, parseInt)
    ensures move.Some? ==>
      move.value == (parseInt(query["game"]).value, parseInt(query["x"]).value,
                     parseInt(query["y"]).value, parseInt(query["player"]).value)
  {
    var g, x, y, p := parseInt(query["game"]), parseInt(query["x"]), parseInt(query["y"]), parseInt(query["player"]);
    if g.Some? && x.Some? && y.Some? && p.Some? then Some((g.value, x.value, y.value, p.value)) else None
  }

  /**
   * `get_play_handler`: the four parameters present (checked in order), all
   * integers, a stored game, and a player id of 1 or 2; then the move is
   * made. `x` and `y` are not range-checked here.
   */
  function PlayHandler(query: Query, parseInt: IntParser, gameExists: int -> bool): (r: Response)
    ensures r.status == 200 || r.status == 400
    ensures r.status == 400 <==> r.body.Message?
  {
    if "game" !in query then SendClientError("reason", MissingParameter("game"))
    else if "x" !in query then SendClientError("reason", MissingParameter("x"))
    else if "y" !in query then SendClientError("reason", MissingParameter("y"))
    else if "player" !in query then SendClientError("reason", MissingParameter("player"))
    else match ParseMove(query, parseInt)
      case None => SendClientError("reason", NOT_INTEGERS_REASON)
      case Some((gameId, x, y, player)) =>
        if !gameExists(gameId) then SendClientError("error", UnknownGame(gameId))
        else if player != 1 && player != 2 then SendClientError("error", INVALID_PLAYER_ERROR)
        else SendOk(ResultOf(MakeMove(gameId, x, y, player)))
  }

  /**
   * The play handler makes a move exactly when every parameter is present and
   * an integer, the game is stored and the player is 1 or 2; the move is the
   * one the parameters name.
   */
  lemma PlayOkIff(query: Query, parseInt: IntParser, gameExists: int -> bool)
    ensures PlayHandler(query, parseInt, gameExists).status == 200 <==>
      && HasPlayParameters(query)
      && PlayParametersAreIntegers(query, parseInt)
      && gameExists(parseInt(query["game"]).value)
      && parseInt(query["player"]).value in {1, 2}
    ensures PlayHandler(query, parseInt, gameExists).status == 200 ==>
      PlayHandler(query, parseInt, gameExists).body ==
        ResultOf(MakeMove(parseInt(query["game"]).value, parseInt(query["x"]).value,
                          parseInt(query["y"]).value, parseInt(query["player"]).value))
  {
  }

  /** Only the first missing parameter, in the order game, x, y, player, is reported. */
  lemma {:induction false} PlayReportsFirstMissing(query: Query, parseInt: IntParser, gameExists: int -> bool, k: nat)
    requires k < |PLAY_PARAMETERS| && PLAY_PARAMETERS[k] !in query
    requires forall j :: 0 <= j < k ==> PLAY_PARAMETERS[j] in query
    ensures PlayHandler(query, parseInt, gameExists) ==
      SendClientError("reason", "Missing \"" + PLAY_PARAMETERS[k] + "\" query parameter!")
  {
    assert k == 0 || PLAY_PARAMETERS[0] in query;
    assert k <= 1 || PLAY_PARAMETERS[1] in query;
    assert k <= 2 || PLAY_PARAMETERS[2] in query;
  }

  /** Any parameter that is not an integer gives the same single reason, whatever the others hold. */
  lemma PlayRejectsNonIntegers(query: Query, parseInt: IntParser, gameExists: int -> bool, k: nat)
    requires HasPlayParameters(query)
    requires k < |PLAY_PARAMETERS| && parseInt(query[PLAY_PARAMETERS[k]]).None?
    ensures PlayHandler(query, parseInt, gameExists) == SendClientError("reason", NOT_INTEGERS_REASON)
  {
    PlayParametersIndexed(query, parseInt);
  }

  /**
   * An unknown game is reported before the player id is looked at, and the
   * status and play handlers report it with the same message.
   */
  lemma UnknownGameBeforePlayer(query: Query, parseInt: IntParser, gameExists: int -> bool)
    requires HasPlayParameters(query) && PlayParametersAreIntegers(query, parseInt)
    requires !gameExists(parseInt(query["game"]).value)
    ensures PlayHandler(query, parseInt, gameExists) == StatusHandler(query, parseInt, gameExists)
    ensures PlayHandler(query, parseInt, gameExists).body ==
      Message("error", UnknownGame(parseInt(query["game"]).value))
  {
  }

  /** With a stored game, a player id other than 1 or 2 is refused, whatever `x` and `y` are. */
  lemma PlayRejectsUnknownPlayer(query: Query, parseInt: IntParser, gameExists: int -> bool)
    requires HasPlayParameters(query) && PlayParametersAreIntegers(query, parseInt)
    requires gameExists(parseInt(query["game"]).value)
    requires parseInt(query["player"]).value !in {1, 2}
    ensures PlayHandler(query, parseInt, gameExists) == SendClientError("error", "Invalid player id.")
  {
  }
}
