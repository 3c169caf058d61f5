/**
 * The game-session server: a registry from game id to session (position,
 * white seat, optional black seat) and the handlers for the client events
 * SEARCHGAMECODE, PING, START, MOVE and RESET. Messages sent to a connection
 * are appended to `outbox`; each handler runs to completion on its own.
 */
module SocketServer {
  import opened Wrappers
  import opened Chess

  type GameId = int
  /** A session token, as stored by the account service. */
  type Token = string
  /** A client connection. */
  type Socket = nat

  /** What the session lookup answers for a token. */
  datatype Profile = Profile(userId: int, username: string, elo: int)

  /** A seated user: the token they joined with and their profile. */
  datatype User = User(session: Token, userId: int, username: string, elo: int)

  datatype Player = Player(user: User, socket: Socket)

  /** A session record. */
  datatype GameConnection = GameConnection(game: Position, white: Player, black: Option<Player>)

  /** An opening-book entry; either name may be missing. */
  datatype Opening = Opening(white: Option<string>, black: Option<string>)

  /** Outbound messages. `Update` without a comment field has `comment == None`. */
  datatype Msg =
    | SearchResult(found: bool)
    | Pong
    | Init(color: Color)
    | Update(pgn: string, comment: Option<string>)
    | Start(opponent: User, user: User)
    | Error(error: string)
    | Invalid(error: string)
    | GameEvent(error: string)

  /** Inbound events, already decoded. */
  datatype Event =
    | SearchGameCode(code: GameId)
    | Ping
    | StartGame(user: Token, gameId: GameId)
    | Move(from: Square, to: Square, gameId: GameId, user: Token)
    | Reset(gameId: GameId)
    | Unknown(eventType: string)

  const GameIsFull: string := "GAME IS FULL"
  const WrongColor: string := "INVALID MOVE WRONG COLOR"
  const EngineFail: string := "INVALID MOVE ENGINE FAIL"
  const NotPartOfGame: string := "NOT PART OF GAME"
  const Checkmate: string := "CHECKMATE"

  /** `userInGame`: white is tried first, then black, by resolved user id. */
  function SeatOf(s: GameConnection, userId: int): Option<Color> {
    if s.white.user.userId == userId then Some(White)
    else if s.black.Some? && s.black.value.user.userId == userId then Some(Black)
    else None
  }

  /** No user holds both seats of a session. */
  ghost predicate DistinctSeats(s: GameConnection) {
    s.black.Some? ==> s.black.value.user.userId != s.white.user.userId
  }

  /**
   * In a session whose seats hold different users, the seat found does not
   * depend on trying white first: a user is seated as black exactly when the
   * black seat holds their id.
   */
  lemma SeatOfUnique(s: GameConnection, userId: int)
    requires DistinctSeats(s)
    ensures SeatOf(s, userId) == Some(White) <==> s.white.user.userId == userId
    ensures SeatOf(s, userId) == Some(Black) <==> s.black.Some? && s.black.value.user.userId == userId
    ensures SeatOf(s, userId) == None <==>
      s.white.user.userId != userId && (s.black.None? || s.black.value.user.userId != userId)
  {
  }

  /**
   * `comment` of a move update: the white name of the opening reached, else
   * its black name (absent when both are missing); "" when the notation is
   * not in the book.
   */
  function OpeningComment(openings: map<string, Opening>, pgn: string): (c: Option<string>)
    ensures c.None? <==> pgn in openings && openings[pgn].white.None? && openings[pgn].black.None?
    ensures c.Some? && c.value != "" ==> pgn in openings && (c == openings[pgn].white || c == openings[pgn].black)
    ensures pgn in openings && openings[pgn].white.Some? ==> c == openings[pgn].white
    ensures pgn in openings && openings[pgn].white.None? ==> c == openings[pgn].black
    ensures pgn !in openings ==> c == Some("")
  {
    if pgn in openings then
      (if openings[pgn].white.Some? then openings[pgn].white else openings[pgn].black)
    else Some("")
  }

  class Server {
    const rules: Rules
    /** The session lookup: token to user profile. */
    const lookup: Token -> Profile
    const openings: map<string, Opening>

    var games: map<GameId, GameConnection>
    var outbox: seq<(Socket, Msg)>

    constructor (rules: Rules, lookup: Token -> Profile, openings: map<string, Opening>)
      ensures this.rules == rules && this.lookup == lookup && this.openings == openings
      ensures games == map[] && outbox == []
      ensures Valid()
    {
      this.rules, this.lookup, this.openings := rules, lookup, openings;
      games, outbox := map[], [];
    }

    /** The user record built from the session lookup for `token`. */
    function UserFor(token: Token): User {
      var p := lookup(token);
      User(token, p.userId, p.username, p.elo)
    }

    /**
     * Every seat holds the user record the lookup gives for its token, and
     * no user holds both seats of a session.
     */
    ghost predicate Valid()
      reads this
    {
      forall id :: id in games ==>
        && games[id].white.user == UserFor(games[id].white.user.session)
        && (games[id].black.Some? ==> games[id].black.value.user == UserFor(games[id].black.value.user.session))
        && DistinctSeats(games[id])
    }

    /** The registry and outbox after `handleStart`. */
    function AfterStart(g: map<GameId, GameConnection>, o: seq<(Socket, Msg)>, socket: Socket, token: Token, gameId: GameId)
      : (map<GameId, GameConnection>, seq<(Socket, Msg)>)
    {
      var me := UserFor(token);
      if gameId !in g then
        (g[gameId := GameConnection(rules.initial, Player(me, socket), None)], o + [(socket, Init(White))])
      else
        var s := g[gameId];
        match SeatOf(s, me.userId)
        case None =>
          if s.black.None? then
            (g[gameId := s.(black := Some(Player(me, socket)))],
             o + [(socket, Init(Black)), (socket, Start(s.white.user, me))] + [(s.white.socket, Start(me, s.white.user))])
          else
            (g, o + [(socket, Error(GameIsFull))])
        case Some(color) =>
          var g' := if color == White then g[gameId := s.(white := Player(me, socket))]
                    else g[gameId := s.(black := Some(Player(me, socket)))];
          var resumed := o + [(socket, Init(color)), (socket, Update(rules.pgn(s.game), None))];
          if s.black.Some? then
            var opponent := if color == White then s.black.value.user else s.white.user;
            var user := if color == White then s.white.user else s.black.value.user;
            (g', resumed + [(socket, Start(opponent, user))])
          else
            (g', resumed)
    }

    /** The registry and outbox after `handleMove`. */
    function AfterMove(g: map<GameId, GameConnection>, o: seq<(Socket, Msg)>, socket: Socket, from: Square, to: Square, gameId: GameId, token: Token)
      : (map<GameId, GameConnection>, seq<(Socket, Msg)>)
    {
      if gameId !in g then (g, o + [(socket, Invalid(EngineFail))])
      else
        var s := g[gameId];
        var mover := if s.white.user.session == token then White else Black;
        if rules.pieceColorAt(s.game, from) != Some(mover) then (g, o + [(socket, Invalid(WrongColor))])
        else match rules.tryMove(s.game, from, to)
          case None => (g, o + [(socket, Invalid(EngineFail))])
          case Some(next) =>
            var g' := g[gameId := s.(game := next)];
            if s.black.None? then (g', o + [(socket, Invalid(EngineFail))])
            else
              var update := Update(rules.pgn(next), OpeningComment(openings, rules.pgn(next)));
              var broadcast := o + [(s.black.value.socket, update), (s.white.socket, update)];
              if rules.isCheckmate(next) then
                (g', broadcast + [(s.black.value.socket, GameEvent(Checkmate)), (s.white.socket, GameEvent(Checkmate))])
              else
                (g', broadcast)
    }

    /** The registry and outbox after `handleReset`. */
    function AfterReset(g: map<GameId, GameConnection>, o: seq<(Socket, Msg)>, socket: Socket, gameId: GameId)
      : (map<GameId, GameConnection>, seq<(Socket, Msg)>)
    {
      if gameId !in g then (g, o)
      else
        var s := g[gameId];
        var g' := g[gameId := s.(game := rules.initial)];
        if s.black.None? then (g', o)
        else if s.black.value.socket != socket && s.white.socket != socket then (g', o + [(socket, Error(NotPartOfGame))])
        else
          var update := Update(rules.pgn(rules.initial), Some(""));
          (g', o + [(s.black.value.socket, update), (s.white.socket, update)])
    }

    /** The registry and outbox after one event, routed as `handleMessage` routes it. */
    function After(g: map<GameId, GameConnection>, o: seq<(Socket, Msg)>, socket: Socket, event: Event)
      : (map<GameId, GameConnection>, seq<(Socket, Msg)>)
    {
      match event
      case SearchGameCode(code) => (g, o + [(socket, SearchResult(code in g))])
      case Ping => (g, o + [(socket, Pong)])
      case StartGame(token, gameId) => AfterStart(g, o, socket, token, gameId)
      case Move(from, to, gameId, token) => AfterMove(g, o, socket, from, to, gameId, token)
      case Reset(gameId) => AfterReset(g, o, socket, gameId)
      case Unknown(_) => (g, o)
    }

    /** `handleMessage`: routes an event to its handler; an unknown type changes nothing. */
    method HandleMessage(socket: Socket, event: Event)
      requires Valid()
      modifies this
      ensures Valid()
      ensures (games, outbox) == After(old(games), old(outbox), socket, event)
      ensures old(games).Keys <= games.Keys
      ensures event.Unknown? ==> games == old(games) && outbox == old(outbox)
    {
      match event
      case SearchGameCode(code) => SearchGameCode(socket, code);
      case Ping => HandlePing(socket);
      case StartGame(user, gameId) => HandleStart(socket, user, gameId);
      case Move(from, to, gameId, user) => HandleMove(socket, from, to, gameId, user);
      case Reset(gameId) => HandleReset(socket, gameId);
      case Unknown(_) =>
    }

    /** `searchGameCode`: FOUND exactly when the id is registered. */
    method SearchGameCode(socket: Socket, code: GameId)
      modifies this`outbox
      ensures outbox == old(outbox) + [(socket, SearchResult(code in games))]
    {
      outbox := outbox + [(socket, SearchResult(code in games))];
    }

    /** `handlePing` */
    method HandlePing(socket: Socket)
      modifies this`outbox
      ensures outbox == old(outbox) + [(socket, Pong)]
    {
      outbox := outbox + [(socket, Pong)];
    }

    /**
     * `handleStart` with `createNewGame` and `addToGame` inlined:
     * - unknown id: a new session with a fresh game, the caller as white and
     *   no black seat; the caller alone gets `INIT white`;
     * - caller not seated, black seat empty: the caller becomes black; the
     *   game and white are kept; the caller gets `INIT black` then `START`,
     *   white gets `START`;
     * - caller not seated, both seats taken: `GAME IS FULL`, nothing changes;
     * - caller seated (same resolved user id): only that seat takes the new
     *   token and connection; the caller gets `INIT`, `UPDATE` with the
     *   current notation, and `START` only when a black seat exists.
     */
    method HandleStart(socket: Socket, token: Token, gameId: GameId)
      requires Valid()
      modifies this
      ensures Valid()
      ensures (games, outbox) == AfterStart(old(games), old(outbox), socket, token, gameId)
      ensures games.Keys == old(games).Keys + {gameId}
      ensures forall id :: id in old(games) && id != gameId ==> games[id] == old(games)[id]
      ensures gameId in old(games) ==> games[gameId].game == old(games)[gameId].game
      ensures gameId !in old(games) ==>
        && games[gameId] == GameConnection(rules.initial, Player(UserFor(token), socket), None)
        && outbox == old(outbox) + [(socket, Init(White))]
      ensures gameId in old(games) ==>
        var s, me := old(games)[gameId], UserFor(token);
        match SeatOf(s, me.userId)
        case None =>
          if s.black.None? then
            && games[gameId] == s.(black := Some(Player(me, socket)))
            && outbox == old(outbox) + [(socket, Init(Black)), (socket, Start(s.white.user, me)), (s.white.socket, Start(me, s.white.user))]
          else
            && games == old(games)
            && outbox == old(outbox) + [(socket, Error(GameIsFull))]
        case Some(White) =>
          && games[gameId] == s.(white := Player(me, socket))
          && outbox == old(outbox) + [(socket, Init(White)), (socket, Update(rules.pgn(s.game), None))]
                                   + (if s.black.Some? then [(socket, Start(s.black.value.user, s.white.user))] else [])
        case Some(Black) =>
          && s.black.Some?
          && games[gameId] == s.(black := Some(Player(me, socket)))
          && outbox == old(outbox) + [(socket, Init(Black)), (socket, Update(rules.pgn(s.game), None)),
                                      (socket, Start(s.white.user, s.black.value.user))]
    {
      var me := UserFor(token);
      if gameId !in games {
        // createNewGame
        games := games[gameId := GameConnection(rules.initial, Player(me, socket), None)];
        outbox := outbox + [(socket, Init(White))];
        return;
      }

      var current := games[gameId];
      var color := SeatOf(current, me.userId);
      if color.None? {
        if current.black.None? {
          // addToGame
          games := games[gameId := current.(black := Some(Player(me, socket)))];
          outbox := outbox + [(socket, Init(Black)), (socket, Start(current.white.user, me))];
          outbox := outbox + [(current.white.socket, Start(me, current.white.user))];
          return;
        }
        outbox := outbox + [(socket, Error(GameIsFull))];
        return;
      }

      if color == Some(White) {
        games := games[gameId := current.(white := Player(me, socket))];
      } else {
        games := games[gameId := current.(black := Some(Player(me, socket)))];
      }

      outbox := outbox + [(socket, Init(color.value)), (socket, Update(rules.pgn(current.game), None))];

      if current.black.Some? {
        var opponent := if color == Some(White) then current.black.value.user else current.white.user;
        var user := if color == Some(White) then current.white.user else current.black.value.user;
        outbox := outbox + [(socket, Start(opponent, user))];
      }
    }

    /**
     * `handleMove`. The mover is white exactly when the token equals white's
     * stored token, otherwise black, outsiders included.
     * - unknown id: `ENGINE FAIL` to the sender;
     * - mover's colour differs from the piece on `from` (or there is none):
     *   `WRONG COLOR` to the sender;
     * - the rules reject the move: `ENGINE FAIL` to the sender;
     * - otherwise only the position is replaced, seats kept; if there is no
     *   black seat the broadcast fails and the sender gets `ENGINE FAIL` even
     *   though the position advanced; else the same `UPDATE` goes to black,
     *   then white, followed on checkmate by `GAMEEVENT` to both.
     * Rejections leave the registry unchanged.
     */
    method HandleMove(socket: Socket, from: Square, to: Square, gameId: GameId, token: Token)
      requires Valid()
      modifies this
      ensures Valid()
      ensures (games, outbox) == AfterMove(old(games), old(outbox), socket, from, to, gameId, token)
      ensures games.Keys == old(games).Keys
      ensures forall id :: id in old(games) && id != gameId ==> games[id] == old(games)[id]
      ensures gameId !in old(games) ==> games == old(games) && outbox == old(outbox) + [(socket, Invalid(EngineFail))]
      ensures gameId in old(games) ==>
        var s := old(games)[gameId];
        var mover := if s.white.user.session == token then White else Black;
        if rules.pieceColorAt(s.game, from) != Some(mover) then
          games == old(games) && outbox == old(outbox) + [(socket, Invalid(WrongColor))]
        else match rules.tryMove(s.game, from, to)
          case None =>
            games == old(games) && outbox == old(outbox) + [(socket, Invalid(EngineFail))]
          case Some(next) =>
            && games[gameId] == s.(game := next)
            && if s.black.None? then
                 outbox == old(outbox) + [(socket, Invalid(EngineFail))]
               else
                 var update := Update(rules.pgn(next), OpeningComment(openings, rules.pgn(next)));
                 outbox == old(outbox) + [(s.black.value.socket, update), (s.white.socket, update)]
                   + (if rules.isCheckmate(next)
                      then [(s.black.value.socket, GameEvent(Checkmate)), (s.white.socket, GameEvent(Checkmate))]
                      else [])
    {
      if gameId !in games {
        // `currentGame!.white` throws; the catch block answers
        outbox := outbox + [(socket, Invalid(EngineFail))];
        return;
      }
      var current := games[gameId];
      var color := if current.white.user.session == token then White else Black;
      if rules.pieceColorAt(current.game, from) != Some(color) {
        outbox := outbox + [(socket, Invalid(WrongColor))];
        return;
      }

      var moved := rules.tryMove(current.game, from, to);
      if moved.None? {
        outbox := outbox + [(socket, Invalid(EngineFail))];
        return;
      }
      var gameCopy := moved.value;
      games := games[gameId := current.(game := gameCopy)];

      var comment := OpeningComment(openings, rules.pgn(gameCopy));
      var update := Update(rules.pgn(gameCopy), comment);

      if current.black.None? {
        // `currentGame!.black!.socket` throws after the position was stored
        outbox := outbox + [(socket, Invalid(EngineFail))];
        return;
      }
      outbox := outbox + [(current.black.value.socket, update), (current.white.socket, update)];

      if rules.isCheckmate(gameCopy) {
        outbox := outbox + [(current.black.value.socket, GameEvent(Checkmate)), (current.white.socket, GameEvent(Checkmate))];
      }
    }

    /**
     * `handleReset`: a fresh game is stored BEFORE membership is checked, so
     * any caller resets a known session's board. With no black seat the
     * handler then fails and nothing is sent. A caller whose connection is
     * neither seat's gets only `NOT PART OF GAME`; otherwise black, then
     * white, get `UPDATE` of the fresh game with an empty comment. An unknown
     * id makes the handler fail before any change.
     */
    method HandleReset(socket: Socket, gameId: GameId)
      requires Valid()
      modifies this
      ensures Valid()
      ensures (games, outbox) == AfterReset(old(games), old(outbox), socket, gameId)
      ensures games.Keys == old(games).Keys
      ensures forall id :: id in old(games) && id != gameId ==> games[id] == old(games)[id]
      ensures gameId !in old(games) ==> games == old(games) && outbox == old(outbox)
      ensures gameId in old(games) ==>
        var s := old(games)[gameId];
        && games[gameId] == s.(game := rules.initial)
        && if s.black.None? then
             outbox == old(outbox)
           else if s.black.value.socket != socket && s.white.socket != socket then
             outbox == old(outbox) + [(socket, Error(NotPartOfGame))]
           else
             var update := Update(rules.pgn(rules.initial), Some(""));
             outbox == old(outbox) + [(s.black.value.socket, update), (s.white.socket, update)]
    {
      if gameId !in games {
        // `currentGame!.white` throws inside the async handler
        return;
      }
      var current := games[gameId];
      var gameCopy := rules.initial;
      games := games[gameId := current.(game := gameCopy)];
      var update := Update(rules.pgn(gameCopy), Some(""));

      if current.black.None? {
        // `currentGame!.black!.socket` throws after the reset was stored
        return;
      }
      if current.black.value.socket != socket && current.white.socket != socket {
        outbox := outbox + [(socket, Error(NotPartOfGame))];
        return;
      }
      outbox := outbox + [(current.black.value.socket, update), (current.white.socket, update)];
    }
  }
}
