/**
 * The earlier game-session server: the same registry and handlers as
 * `SocketServer`, but seats carry a raw client-supplied user id, a caller
 * who is not seated always takes (or overwrites) the black seat, and every
 * rejected move is answered with the same `ERROR "INVALID MOVE"`. There is
 * no RESET handler. The opening comment comes from the opening book read by
 * `OpeningBook`.
 */
module AppServer {
  import opened Wrappers
  import opened Chess
  import OpeningBook

  type GameId = int
  type Socket = nat

  /** A user id as sent by the client: a number, a string, or missing. */
  datatype Id = Num(n: int) | Str(s: string) | Undefined

  /** A seat: the id the client gave and its connection. */
  datatype Seat = Seat(userId: Id, socket: Socket)

  datatype GameConnection = GameConnection(game: Position, white: Seat, black: Option<Seat>)

  datatype Msg =
    | SearchResult(found: bool)
    | Pong
    | Init(color: Color)
    | Update(pgn: string, comment: Option<string>)
    | Start(opponent: Id)
    | Error(error: string)

  datatype Event =
    | SearchGameCode(code: GameId)
    | Ping
    | StartGame(userId: Id, gameId: GameId)
    | Move(from: Square, to: Square, gameId: GameId, userId: Id)
    | Unknown(eventType: string)

  const InvalidMove: string := "INVALID MOVE"

  /**
   * JavaScript's loose `==` on ids. A number and a string are equal when the
   * string converts to that number; `toNumber(s)` is the integer the
   * language's string-to-number conversion gives for `s` (None for NaN or a
   * fraction).
   */
  predicate LooseEquals(toNumber: string -> Option<int>, a: Id, b: Id) {
    match (a, b)
    case (Num(x), Num(y)) => x == y
    case (Str(x), Str(y)) => x == y
    case (Undefined, Undefined) => true
    case (Num(x), Str(y)) => toNumber(y) == Some(x)
    case (Str(x), Num(y)) => toNumber(x) == Some(y)
    case (_, _) => false
  }

  /** Loose equality agrees with strict equality except between a number and a string. */
  lemma LooseEqualsStrictOnSameKind(toNumber: string -> Option<int>, a: Id, b: Id)
    ensures a == b ==> LooseEquals(toNumber, a, b)
    ensures (a.Num? == b.Num? && a.Str? == b.Str?) ==> (LooseEquals(toNumber, a, b) <==> a == b)
  {
  }

  /** `currentGame?.black?.userId`: undefined when there is no black seat. */
  function BlackId(s: GameConnection): Id {
    if s.black.Some? then s.black.value.userId else Undefined
  }

  /**
   * `userInGame`: white is matched with loose `==`, black with strict `===`
   * against `black?.userId`, so a caller without an id matches an empty
   * black seat.
   */
  function SeatOf(toNumber: string -> Option<int>, s: GameConnection, userId: Id): (c: Option<Color>)
    ensures LooseEquals(toNumber, s.white.userId, userId) ==> c == Some(White)
    ensures c == Some(Black) ==> !LooseEquals(toNumber, s.white.userId, userId)
    ensures s.black.Some? ==> (c == Some(Black) <==> userId == s.black.value.userId && !LooseEquals(toNumber, s.white.userId, userId))
    ensures s.black.None? ==> (c == Some(Black) <==> userId == Undefined && !LooseEquals(toNumber, s.white.userId, Undefined))
    ensures c.None? ==> !LooseEquals(toNumber, s.white.userId, userId) && (s.black.Some? ==> userId != s.black.value.userId)
  {
    if LooseEquals(toNumber, s.white.userId, userId) then Some(White)
    else if BlackId(s) == userId then Some(Black)
    else None
  }

  /**
   * The two seats compare ids differently: a numeric string the language
   * converts to white's number reclaims white's seat, while the same string
   * against a numeric black id matches nothing, so that caller is seated as
   * a new black player over the old one.
   */
  lemma StringIdMatchesOnlyWhite(toNumber: string -> Option<int>, s: GameConnection, x: string, n: int)
    requires toNumber(x) == Some(n)
    requires s.black.Some? && s.black.value.userId == Num(n)
    ensures s.white.userId == Num(n) ==> SeatOf(toNumber, s, Str(x)) == Some(White)
    ensures s.white.userId != Num(n) && !LooseEquals(toNumber, s.white.userId, Str(x)) ==> SeatOf(toNumber, s, Str(x)) == None
  {
  }

  /** `comment` of a move update, from the opening book: white name, else black name; "" off the book. */
  function OpeningComment(openings: map<string, OpeningBook.Entry>, pgn: string): (c: Option<string>)
    ensures c.None? <==> pgn in openings && openings[pgn].white.None? && openings[pgn].black.None?
    ensures c.Some? && c.value != "" ==> pgn in openings && (c == openings[pgn].white || c == openings[pgn].black)
    ensures pgn in openings && openings[pgn].white.Some? ==> c == openings[pgn].white
    ensures pgn in openings && openings[pgn].white.None? ==> c == openings[pgn].black
    ensures pgn !in openings ==> c == Some("")
  {
    if pgn in openings then
      (if openings[pgn].white.Some? then openings[pgn].white else openings[pgn].black)
    else Some("")
  }

  class Server {
    const rules: Rules
    const toNumber: string -> Option<int>
    const openings: map<string, OpeningBook.Entry>

    var games: map<GameId, GameConnection>
    var outbox: seq<(Socket, Msg)>

    /** The server with the opening book read from `bookText`. */
    constructor (rules: Rules, toNumber: string -> Option<int>, bookText: string)
      ensures this.rules == rules && this.toNumber == toNumber
      ensures openings == OpeningBook.ParsePgn(bookText)
      ensures games == map[] && outbox == []
    {
      this.rules, this.toNumber := rules, toNumber;
      openings := OpeningBook.ParsePgn(bookText);
      games, outbox := map[], [];
    }

    /** The registry and outbox after `handleStart`. */
    function AfterStart(g: map<GameId, GameConnection>, o: seq<(Socket, Msg)>, socket: Socket, userId: Id, gameId: GameId)
      : (map<GameId, GameConnection>, seq<(Socket, Msg)>)
    {
      if gameId !in g then
        (g[gameId := GameConnection(rules.initial, Seat(userId, socket), None)], o + [(socket, Init(White))])
      else
        var s := g[gameId];
        match SeatOf(toNumber, s, userId)
        case None =>
          (g[gameId := s.(black := Some(Seat(userId, socket)))],
           o + [(socket, Init(Black)), (socket, Start(s.white.userId))] + [(s.white.socket, Start(userId))])
        case Some(color) =>
          var g' := if color == White then g[gameId := s.(white := Seat(userId, socket))]
                    else g[gameId := s.(black := Some(Seat(userId, socket)))];
          var resumed := o + [(socket, Init(color)), (socket, Update(rules.pgn(s.game), None))];
          if BlackId(s) != Undefined then
            var opponent := if color == White then BlackId(s) else s.white.userId;
            (g', resumed + [(socket, Start(opponent))])
          else
            (g', resumed)
    }

    /** The registry and outbox after `handleMove`. */
    function AfterMove(g: map<GameId, GameConnection>, o: seq<(Socket, Msg)>, socket: Socket, from: Square, to: Square, gameId: GameId, userId: Id)
      : (map<GameId, GameConnection>, seq<(Socket, Msg)>)
    {
      if gameId !in g then (g, o + [(socket, Error(InvalidMove))])
      else
        var s := g[gameId];
        var mover := if s.white.userId == userId then White else Black;
        if rules.pieceColorAt(s.game, from) != Some(mover) then (g, o + [(socket, Error(InvalidMove))])
        else match rules.tryMove(s.game, from, to)
          case None => (g, o + [(socket, Error(InvalidMove))])
          case Some(next) =>
            var g' := g[gameId := s.(game := next)];
            if s.black.None? then (g', o + [(socket, Error(InvalidMove))])
            else
              var update := Update(rules.pgn(next), OpeningComment(openings, rules.pgn(next)));
              (g', o + [(s.black.value.socket, update), (s.white.socket, update)])
    }

    /** The registry and outbox after one event, routed as `handleMessage` routes it. */
    function After(g: map<GameId, GameConnection>, o: seq<(Socket, Msg)>, socket: Socket, event: Event)
      : (map<GameId, GameConnection>, seq<(Socket, Msg)>)
    {
      match event
      case SearchGameCode(code) => (g, o + [(socket, SearchResult(code in g))])
      case Ping => (g, o + [(socket, Pong)])
      case StartGame(userId, gameId) => AfterStart(g, o, socket, userId, gameId)
      case Move(from, to, gameId, userId) => AfterMove(g, o, socket, from, to, gameId, userId)
      case Unknown(_) => (g, o)
    }

    /** `handleMessage`: there is no RESET branch; unknown types change nothing. */
    method HandleMessage(socket: Socket, event: Event)
      modifies this
      ensures (games, outbox) == After(old(games), old(outbox), socket, event)
      ensures old(games).Keys <= games.Keys
      ensures event.Unknown? ==> games == old(games) && outbox == old(outbox)
    {
      match event
      case SearchGameCode(code) => SearchGameCode(socket, code);
      case Ping => HandlePing(socket);
      case StartGame(userId, gameId) => HandleStart(socket, userId, gameId);
      case Move(from, to, gameId, userId) => HandleMove(socket, from, to, gameId, userId);
      case Unknown(_) =>
    }

    /** `searchGameCode`: FOUND exactly when the id is registered. */
    method SearchGameCode(socket: Socket, code: GameId)
      modifies this`outbox
      ensures outbox == old(outbox) + [(socket, SearchResult(code in games))]
    {
      outbox := outbox + [(socket, SearchResult(code in games))];
    }

    /** `handlePing` */
    method HandlePing(socket: Socket)
      modifies this`outbox
      ensures outbox == old(outbox) + [(socket, Pong)]
    {
      outbox := outbox + [(socket, Pong)];
    }

    /**
     * `handleStart`:
     * - unknown id: a new session with the caller as white and no black
     *   seat; the caller gets `INIT white`;
     * - caller not seated: the caller becomes black, overwriting any black
     *   seat (there is no full-game check); the caller gets `INIT black` and
     *   `START` with white's id, white gets `START` with the caller's id;
     * - caller seated: only that seat takes the new connection; the caller
     *   gets `INIT`, `UPDATE`, and `START` with the other seat's id only when
     *   black's id was defined.
     * The game is never changed.
     */
    method HandleStart(socket: Socket, userId: Id, gameId: GameId)
      modifies this
      ensures (games, outbox) == AfterStart(old(games), old(outbox), socket, userId, gameId)
      ensures games.Keys == old(games).Keys + {gameId}
      ensures forall id :: id in old(games) && id != gameId ==> games[id] == old(games)[id]
      ensures gameId in old(games) ==> games[gameId].game == old(games)[gameId].game
      ensures gameId !in old(games) ==>
        && games[gameId] == GameConnection(rules.initial, Seat(userId, socket), None)
        && outbox == old(outbox) + [(socket, Init(White))]
      ensures gameId in old(games) ==>
        var s := old(games)[gameId];
        match SeatOf(toNumber, s, userId)
        case None =>
          && games[gameId] == s.(black := Some(Seat(userId, socket)))
          && outbox == old(outbox) + [(socket, Init(Black)), (socket, Start(s.white.userId)), (s.white.socket, Start(userId))]
        case Some(White) =>
          && games[gameId] == s.(white := Seat(userId, socket))
          && outbox == old(outbox) + [(socket, Init(White)), (socket, Update(rules.pgn(s.game), None))]
                                   + (if BlackId(s) != Undefined then [(socket, Start(BlackId(s)))] else [])
        case Some(Black) =>
          && games[gameId] == s.(black := Some(Seat(userId, socket)))
          && outbox == old(outbox) + [(socket, Init(Black)), (socket, Update(rules.pgn(s.game), None))]
                                   + (if BlackId(s) != Undefined then [(socket, Start(s.white.userId))] else [])
    {
      if gameId !in games {
        // createNewGame
        games := games[gameId := GameConnection(rules.initial, Seat(userId, socket), None)];
        outbox := outbox + [(socket, Init(White))];
        return;
      }

      var current := games[gameId];
      var color := SeatOf(toNumber, current, userId);
      if color.None? {
        // addToGame
        games := games[gameId := current.(black := Some(Seat(userId, socket)))];
        outbox := outbox + [(socket, Init(Black)), (socket, Start(current.white.userId))];
        outbox := outbox + [(current.white.socket, Start(userId))];
        return;
      }

      if color == Some(White) {
        games := games[gameId := current.(white := Seat(userId, socket))];
      } else {
        games := games[gameId := current.(black := Some(Seat(userId, socket)))];
      }

      outbox := outbox + [(socket, Init(color.value)), (socket, Update(rules.pgn(current.game), None))];

      if BlackId(current) != Undefined {
        var opponent := if color == Some(White) then BlackId(current) else current.white.userId;
        outbox := outbox + [(socket, Start(opponent))];
      }
    }

    /**
     * `handleMove`. The mover is white exactly when the id is strictly equal
     * to white's, otherwise black. An unknown id, a wrong colour and a move
     * the rules reject all answer `ERROR "INVALID MOVE"` to the sender only,
     * with the registry unchanged. An accepted move replaces only the
     * position; the same `UPDATE` with the opening comment goes to black,
     * then white, and with no black seat the sender gets `INVALID MOVE`
     * after the position was stored.
     */
    method HandleMove(socket: Socket, from: Square, to: Square, gameId: GameId, userId: Id)
      modifies this
      ensures (games, outbox) == AfterMove(old(games), old(outbox), socket, from, to, gameId, userId)
      ensures games.Keys == old(games).Keys
      ensures forall id :: id in old(games) && id != gameId ==> games[id] == old(games)[id]
      ensures gameId !in old(games) ==> games == old(games) && outbox == old(outbox) + [(socket, Error(InvalidMove))]
      ensures gameId in old(games) ==>
        var s := old(games)[gameId];
        var mover := if s.white.userId == userId then White else Black;
        if rules.pieceColorAt(s.game, from) != Some(mover) then
          games == old(games) && outbox == old(outbox) + [(socket, Error(InvalidMove))]
        else match rules.tryMove(s.game, from, to)
          case None =>
            games == old(games) && outbox == old(outbox) + [(socket, Error(InvalidMove))]
          case Some(next) =>
            && games[gameId] == s.(game := next)
            && if s.black.None? then
                 outbox == old(outbox) + [(socket, Error(InvalidMove))]
               else
                 var update := Update(rules.pgn(next), OpeningComment(openings, rules.pgn(next)));
                 outbox == old(outbox) + [(s.black.value.socket, update), (s.white.socket, update)]
    {
      if gameId !in games {
        outbox := outbox + [(socket, Error(InvalidMove))];
        return;
      }
      var current := games[gameId];
      var color := if current.white.userId == userId then White else Black;
      if rules.pieceColorAt(current.game, from) != Some(color) {
        outbox := outbox + [(socket, Error(InvalidMove))];
        return;
      }

      var moved := rules.tryMove(current.game, from, to);
      if moved.None? {
        outbox := outbox + [(socket, Error(InvalidMove))];
        return;
      }
      var gameCopy := moved.value;
      games := games[gameId := current.(game := gameCopy)];

      var update := Update(rules.pgn(gameCopy), OpeningComment(openings, rules.pgn(gameCopy)));
      if current.black.None? {
        outbox := outbox + [(socket, Error(InvalidMove))];
        return;
      }
      outbox := outbox + [(current.black.value.socket, update), (current.white.socket, update)];
    }
  }
}
