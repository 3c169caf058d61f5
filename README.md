# ws-chess: a verified model of the game server core

ws-chess is a two-player chess server with a web frontend. Clients talk to it
over a WebSocket. They open or join a game by code, reconnect to a seat, play
moves, and reset the board. Every accepted move is broadcast to both seats as
PGN, together with the name of the opening when the position is in an opening
book. The backend also rates players with an Elo formula, validates account
data, reads the opening book from a PGN file, and drives a chess engine over
its standard streams. The frontend animates the rating change and lets a player
step through the history of the game.

This project models that core in Dafny and proves what each part promises.

- `SocketServer` (socket.ts) and `AppServer` (the earlier app.ts) model the
  session registry. Each is a class with a `games` map from game id to session
  record and an `outbox` of `(socket, message)` pairs. Every handler is a
  method. Each handler's postcondition ties the new registry and outbox to a
  value-level transition (`AfterStart`, `AfterMove`, `AfterReset`), and the
  start, move and reset handlers also spell out every branch: the whole new
  registry and the exact messages appended, including error replies and
  thrown-and-caught errors. The dispatcher `HandleMessage` is tied to `After`,
  which routes each event type to its transition. The chess rules are an abstract position type with given functions
  (`Chess.Rules`).
- `Rating` (ratingHelper.ts) models the K-factor, expected score and new
  rating. Ratings are integers; the score arithmetic is over the reals. `pow10` is a parameter that satisfies
  `Pow10Laws`: 10^0 = 1, positive, strictly increasing.
- `OpeningBook` (Identifier.ts) models the PGN opening-book reader. It has a
  value-level fold `Run` over trimmed lines, and the imperative loop
  `ParsePgnFile` over `PgnRecord` objects. The loop reproduces the aliasing
  between the current record and the dictionary entries.
- `Engine` (stockfish.ts) models the engine's stdout line splitter with its
  carry-over buffer, the best-move filter, and the command writers.
- `UserService` (userService.ts) models the password, username and email
  validators and the decision logic of `register` and `login`.
- `HistoryNavigator` (GameHistoryNavigator.tsx) models the bounds-checked
  history index.
- `ScoreAnimation` (GameOverModal.tsx) models the step that moves the
  displayed rating towards the new rating, and the loop that runs it to the end.
- `Text` holds the JavaScript string operations the core relies on: `split` on
  one character, `trim`, `substring` with its clamping and argument swap, and
  `startsWith`. `Wrappers` holds `Option`.

At equal ratings the K-factor is 16 and a loss scores -1, so a win gives +8,
a draw 0 and a loss -24 (`Rating.EqualRatingsOutcomes`): two players rated
1500 move to 1508 after a win and to 1476 after a loss.

## Model

| member | source | states |
|---|---|---|
| `SocketServer.SeatOf` | backend/src/socket.ts:59-66 | Definition, no contract: white when white's user id is the caller's, else black when black's is, else no seat; `SeatOfUnique` states its meaning |
| `SocketServer.SeatOfUnique` | backend/src/socket.ts:59-66 | When the two seats hold different users, a user is matched to white exactly when white's user id is theirs, to black exactly when black's is, and otherwise to no seat |
| `SocketServer.OpeningComment` | backend/src/socket.ts:166-169 | The comment is missing exactly when the position is in the book with neither name; a non-empty comment is one of the book's names for that position; the white name wins when present, and otherwise the black name (possibly missing) is the comment; off the book the comment is "" |
| `SocketServer.Server.UserFor` | backend/src/socket.ts:116-124 | Definition, no contract: the seat record for a token, from the session lookup; `HandleStart` states which seat receives it |
| `SocketServer.Server.constructor` | backend/src/socket.ts:8-12 | The registry starts empty with nothing sent, and satisfies the seat invariant |
| `SocketServer.Server.AfterStart` | backend/src/socket.ts:68-147 | Definition, no contract: the registry and outbox after START; `HandleStart` states each branch |
| `SocketServer.Server.AfterMove` | backend/src/socket.ts:149-189 | Definition, no contract: the registry and outbox after MOVE; `HandleMove` states each branch |
| `SocketServer.Server.AfterReset` | backend/src/socket.ts:191-212 | Definition, no contract: the registry and outbox after RESET; `HandleReset` states each branch |
| `SocketServer.Server.After` | backend/src/socket.ts:18-40 | Definition, no contract: the event routing of the message handler |
| `SocketServer.Server.HandleMessage` | backend/src/socket.ts:18-40 | The new registry and outbox are `After` of the old ones: SEARCHGAMECODE, PING, START, MOVE and RESET each run their handler, any other type changes nothing; no game is removed and the seat invariant is kept |
| `SocketServer.Server.SearchGameCode` | backend/src/socket.ts:42-48 | Replies FOUND exactly when the code is a registered game id, else NOT FOUND, and changes nothing else |
| `SocketServer.Server.HandlePing` | backend/src/socket.ts:55-57 | Replies PONG to the sender only |
| `SocketServer.Server.HandleStart` | backend/src/socket.ts:68-147 | Unknown id: new session with a fresh game, the caller as white, no black seat, INIT white to the caller. Unseated caller: takes an empty black seat (INIT black and START to the caller, START to white), or gets GAME IS FULL with the registry unchanged. Seated caller (matched by resolved user id): only that seat is replaced; INIT, UPDATE and, when a black seat exists, START go to the caller. The game and other sessions never change; the seat invariant is kept |
| `SocketServer.Server.HandleMove` | backend/src/socket.ts:149-189 | The mover is white exactly when the token equals white's stored token. Unknown id or rejected move: ENGINE FAIL to the sender, registry unchanged. Wrong piece colour: WRONG COLOR to the sender, registry unchanged. Accepted move: only the position changes; the same UPDATE with the opening comment goes to black then white, then CHECKMATE to both on mate; with no black seat the position is stored and the sender gets ENGINE FAIL |
| `SocketServer.Server.HandleReset` | backend/src/socket.ts:191-212 | A known game is reset to the initial position before membership is checked; a non-member gets only NOT PART OF GAME; a member's reset sends UPDATE with empty comment to black then white; with no black seat nothing is sent; an unknown id changes nothing |
| `AppServer.LooseEquals` | backend/src/app.ts:52-57 | Definition, no contract: JavaScript's `==` on ids; `LooseEqualsStrictOnSameKind` states its meaning |
| `AppServer.LooseEqualsStrictOnSameKind` | backend/src/app.ts:52-57 | Loose id equality contains strict equality and coincides with it when both ids are of the same kind |
| `AppServer.BlackId` | backend/src/app.ts:55 | Definition, no contract: black's id, undefined when black's seat is empty |
| `AppServer.SeatOf` | backend/src/app.ts:52-57 | A caller loosely equal to white's id is white; with a black seat, a caller is matched to black exactly when its id strictly equals black's and is not loosely equal to white's; with no black seat, exactly a caller without an id (when white's id is not also missing) is matched to black; an unmatched caller equals neither seat's id |
| `AppServer.StringIdMatchesOnlyWhite` | backend/src/app.ts:52-57 | A numeric string reclaims white's seat when white's id is that number, but never matches a black id that is that number, so the caller is seated over black |
| `AppServer.OpeningComment` | backend/src/app.ts:125-128 | The comment is missing exactly when the position is in the book with neither name; a non-empty comment is one of the book's names for that position; the white name wins when present, and otherwise the black name (possibly missing) is the comment; off the book the comment is "" |
| `AppServer.Server.constructor` | backend/src/app.ts:6-8 | The opening table is the parsed opening book; the registry starts empty |
| `AppServer.Server.AfterStart` | backend/src/app.ts:59-106 | Definition, no contract: the registry and outbox after START; `HandleStart` states each branch |
| `AppServer.Server.AfterMove` | backend/src/app.ts:108-142 | Definition, no contract: the registry and outbox after MOVE; `HandleMove` states each branch |
| `AppServer.Server.After` | backend/src/app.ts:14-33 | Definition, no contract: the event routing of the message handler |
| `AppServer.Server.HandleMessage` | backend/src/app.ts:14-33 | The new registry and outbox are `After` of the old ones: SEARCHGAMECODE, PING, START and MOVE each run their handler, any other type (RESET included) changes nothing; no game is removed |
| `AppServer.Server.SearchGameCode` | backend/src/app.ts:35-41 | Replies FOUND exactly when the code is a registered game id |
| `AppServer.Server.HandlePing` | backend/src/app.ts:48-50 | Replies PONG to the sender only |
| `AppServer.Server.HandleStart` | backend/src/app.ts:59-106 | Unknown id: new session with the caller as white and INIT white. Unseated caller: becomes black, overwriting any black seat; INIT black and START to the caller, START to white. Seated caller: only that seat gets the new connection; INIT, UPDATE, and START only when black's id is defined. The game never changes |
| `AppServer.Server.HandleMove` | backend/src/app.ts:108-142 | The mover is white exactly when the id strictly equals white's. Unknown id, wrong colour or rejected move: INVALID MOVE to the sender, registry unchanged. Accepted move: only the position changes and one UPDATE with the opening comment goes to black then white; with no black seat the position is stored and the sender gets INVALID MOVE |
| `Rating.Score` | backend/src/helpers/ratingHelper.ts:1-5 | Definition, no contract: the enum values 1, 0.5 and -1 |
| `Rating.Round` | backend/src/helpers/ratingHelper.ts:18 | Rounds half up: the result is within (x - 1/2, x + 1/2] |
| `Rating.RoundMonotone` | backend/src/helpers/ratingHelper.ts:18 | Rounding is monotone |
| `Rating.KFactor` | backend/src/helpers/ratingHelper.ts:21-36 | K lies in [16, 32]; it is 16 exactly when the ratings are equal, 32 when they differ by at least 400, and linear in the difference in between |
| `Rating.KFactorSymmetric` | backend/src/helpers/ratingHelper.ts:27 | K does not depend on which rating is the player's |
| `Rating.ExpectedScore` | backend/src/helpers/ratingHelper.ts:12-13 | The expected score lies strictly between 0 and 1 |
| `Rating.ExpectedScoreDecreasing` | backend/src/helpers/ratingHelper.ts:12-13 | A stronger opponent gives a strictly lower expected score |
| `Rating.ExpectedScoreEven` | backend/src/helpers/ratingHelper.ts:12-13 | Equal ratings give an expected score of exactly 1/2 |
| `Rating.RatingChange` | backend/src/helpers/ratingHelper.ts:16 | A win gains between 0 and 32 points; a loss loses more than 16 and less than 64 |
| `Rating.ChangeBounds` | backend/src/helpers/ratingHelper.ts:16 | For K in [16, 32] and an expected score strictly between 0 and 1, K times (actual minus expected) is in (0, 32) for a win and in (-64, -16) for a loss |
| `Rating.NewRating` | backend/src/helpers/ratingHelper.ts:9-19 | The new rating is the old rating plus the change, rounded half up |
| `Rating.EqualRatingsOutcomes` | backend/src/helpers/ratingHelper.ts:1-19 | At equal ratings a win gives +8, a draw +0 and a loss -24 |
| `Rating.NewRatingMonotoneInResult` | backend/src/helpers/ratingHelper.ts:9-19 | For fixed ratings: new rating after a win ≥ after a draw ≥ after a loss |
| `Rating.UnderdogWinGainsMore` | backend/src/helpers/ratingHelper.ts:9-36 | A player who beats an opponent rated at least 400 higher gains at least 16 points, more than a win at equal ratings gives |
| `Text.StartsWith` | backend/src/stockfish.ts:17 | Definition, no contract: `startsWith`, the prefix test |
| `Text.Split` | backend/src/Identifier.ts:7 | Splitting on one character gives at least one part, no part contains it, and joining the parts with it gives back the input |
| `Text.SplitJoin` | backend/src/stockfish.ts:13 | Splitting a join of separator-free parts gives back the parts |
| `Text.SplitNoSep` | backend/src/stockfish.ts:13 | A string without the separator splits into itself |
| `Text.SplitPrefix` | backend/src/stockfish.ts:13 | A separator-free head followed by the separator splits off as the first part |
| `Text.Trim` | backend/src/Identifier.ts:7 | Definition, no contract: `trimStart` then `trimEnd`; `TrimCore` states its meaning |
| `Text.TrimStartLeading` | backend/src/Identifier.ts:7 | `trimStart` drops a prefix that is all whitespace and keeps a suffix that does not start with whitespace |
| `Text.TrimEndTrailing` | backend/src/Identifier.ts:7 | `trimEnd` drops a suffix that is all whitespace and keeps a prefix that does not end with whitespace |
| `Text.TrimCore` | backend/src/Identifier.ts:7 | The result is a slice of the input with only whitespace outside it, and it neither starts nor ends with whitespace |
| `Text.Substring` | backend/src/Identifier.ts:13 | In-range ordered bounds give that slice; in-range swapped bounds give the slice between them; never longer than the input |
| `Text.Utf16Length` | backend/src/services/userService.ts:158 | `.length` counts UTF-16 code units: between the number of characters and twice it, and exactly it when every character is in the Basic Multilingual Plane |
| `OpeningBook.Key` | backend/src/Identifier.ts:27 | Definition, no contract: the property name `games[game.moves]` uses, "undefined" before any Site line |
| `OpeningBook.IsMoveLine` | backend/src/Identifier.ts:22 | Definition, no contract: `/^\d+\./` via the leading-digit count; `IsMoveLineExactly` states its meaning |
| `OpeningBook.DigitRunLeading` | backend/src/Identifier.ts:22 | The leading-digit count is the length of the maximal run of ASCII digits at the start of the line |
| `OpeningBook.IsMoveLineExactly` | backend/src/Identifier.ts:22 | Holds exactly when the line starts with one or more digits followed by '.' |
| `OpeningBook.Classify` | backend/src/Identifier.ts:10-28 | Definition, no contract: which branch of the loop a line takes; `TagValues`, `IsMoveLineExactly`, `BlankLine` and `NoTagAfterSpace` state its meaning |
| `OpeningBook.TagValues` | backend/src/Identifier.ts:10-21 | `[Site "X"]`, `[White "X"]` and `[Black "X"]` are read as that tag with value X |
| `OpeningBook.Entries` | backend/src/Identifier.ts:18-27 | Definition, no contract: the dictionary as a reader sees it, where keys stored from the current record show that record; `ParsePgnFile` ties it to the objects |
| `OpeningBook.Apply` | backend/src/Identifier.ts:10-28 | Definition, no contract: what each kind of line does to the state; `SiteStartsRecord`, `BlankStoresCurrent`, `FieldLinesReachStoredEntries` and `OtherLinesIgnored` state its meaning |
| `OpeningBook.Step` | backend/src/Identifier.ts:10-28 | Definition, no contract: one loop iteration, `Apply` of the line's kind; `RunStep` and `ReadLine` state its meaning |
| `OpeningBook.Run` | backend/src/Identifier.ts:9-29 | Definition, no contract: the loop over all lines as a fold; `ParsePgnFile` states that the loop computes it |
| `OpeningBook.RunStep` | backend/src/Identifier.ts:9-28 | Helper: reading one more line is one more step of the fold |
| `OpeningBook.Lines` | backend/src/Identifier.ts:7 | Definition, no contract: split on '\n', then trim each piece; `LinesAreTrimmed` states its meaning |
| `OpeningBook.LinesAreTrimmed` | backend/src/Identifier.ts:7 | There is one line per '\n'-separated piece, at least one; no line contains '\n' or starts or ends with white space |
| `OpeningBook.ParsePgn` | backend/src/Identifier.ts:3-32 | Definition, no contract: the dictionary for the file content; `ParsePgnFile` states that the loop builds it |
| `OpeningBook.SiteStartsRecord` | backend/src/Identifier.ts:10-17 | A Site line starts a fresh record with that site and empty white, black and moves, and changes no stored entry |
| `OpeningBook.BlankStoresCurrent` | backend/src/Identifier.ts:25-27 | A blank line stores the current record under its moves, overwriting an earlier entry with that key |
| `OpeningBook.BlankLine` | backend/src/Identifier.ts:25 | A line that trims to empty is classified as blank |
| `OpeningBook.NoTagAfterSpace` | backend/src/Identifier.ts:10 | A line starting with whitespace does not start with a tag |
| `OpeningBook.AllSpaceIfBlank` | backend/src/Identifier.ts:25 | A line that trims to empty is all whitespace |
| `OpeningBook.FieldLinesReachStoredEntries` | backend/src/Identifier.ts:18-27 | A White, Black or moves line changes the current record and every entry already stored from it, and no other entry |
| `OpeningBook.OtherLinesIgnored` | backend/src/Identifier.ts:9-28 | A line matching no branch leaves the state unchanged |
| `OpeningBook.StoredEntrySeesLaterTag` | backend/src/Identifier.ts:18-27 | Example: a White tag after the blank line that stored a record also changes that stored entry; the general statement is `FieldLinesReachStoredEntries` |
| `OpeningBook.PgnRecord.constructor` | backend/src/Identifier.ts:6 | The initial record has no fields |
| `OpeningBook.PgnRecord.FromSite` | backend/src/Identifier.ts:12-17 | A new record has the site and empty white, black and moves |
| `OpeningBook.ReadLine` | backend/src/Identifier.ts:10-28 | One loop iteration on the objects mirrors one step of the line machine |
| `OpeningBook.ParsePgnFile` | backend/src/Identifier.ts:3-32 | The dictionary the loop builds has the keys of `ParsePgn` of the content, and each stored object's fields are that entry |
| `Engine.Terminated` | backend/src/stockfish.ts:13-14 | Definition, no contract: lines each followed by '\n'; `TerminatedAppend` and `JoinIsTerminated` state its meaning |
| `Engine.TerminatedAppend` | backend/src/stockfish.ts:13-14 | Emitting two batches of lines emits their concatenation |
| `Engine.JoinIsTerminated` | backend/src/stockfish.ts:13-14 | Joining lines with '\n' is all but the last followed by '\n', then the last |
| `Engine.SplitChunk` | backend/src/stockfish.ts:12-14 | The emitted lines, each followed by '\n', plus the new buffer equal old buffer plus chunk; the buffer and every line are free of '\n' |
| `Engine.NoLineFeedNoLines` | backend/src/stockfish.ts:12-14 | A chunk without a newline emits no lines and only grows the buffer |
| `Engine.ChunkKeepsStream` | backend/src/stockfish.ts:9-16 | After a chunk, all emitted lines plus the buffer equal everything received |
| `Engine.BestMoveLines` | backend/src/stockfish.ts:16-22 | Definition, no contract: the lines the handler logs as best moves; `BestMoveLinesExactly` states its meaning |
| `Engine.BestMoveLinesExactly` | backend/src/stockfish.ts:16-22 | A line is reported exactly when it is among the emitted lines and starts with "bestmove" |
| `Engine.NatToString` | backend/src/stockfish.ts:32 | Decimal digits with no leading zero |
| `Engine.DecimalValue` | backend/src/stockfish.ts:32 | Definition, no contract: the value of a digit string, the reader for `NatToStringRoundTrip` |
| `Engine.NatToStringRoundTrip` | backend/src/stockfish.ts:32 | Reading back the decimal digits gives the number |
| `Engine.IntToString` | backend/src/stockfish.ts:32 | Definition, no contract: the decimal form of an integer, with '-' for a negative one; `NatToStringRoundTrip` states the meaning of the digits |
| `Engine.Stockfish.constructor` | backend/src/stockfish.ts:7-10 | Empty buffer, nothing received, reported or written |
| `Engine.Stockfish.OnData` | backend/src/stockfish.ts:11-23 | Appends the chunk's complete lines and keeps the rest as buffer; reports exactly the best-move lines among them; writes nothing; the stream invariant is kept |
| `Engine.Stockfish.Write` | backend/src/stockfish.ts:27-29 | Writes exactly the query followed by '\n' |
| `Engine.Stockfish.SetDifficulty` | backend/src/stockfish.ts:31-33 | Writes "setoption name Skill Level value " then the level in decimal then '\n' |
| `Engine.Stockfish.SetPosition` | backend/src/stockfish.ts:35-37 | Writes "position " then the position then '\n' |
| `Engine.Stockfish.LoadFen` | backend/src/stockfish.ts:39-41 | Writes "position fen " then the FEN then '\n' |
| `UserService.AnyIn` | backend/src/services/userService.ts:163-173 | Holds exactly when some character is in the class |
| `UserService.AllIn` | backend/src/services/userService.ts:182-183 | Holds exactly when every character is in the class |
| `UserService.IsStrongPassword` | backend/src/services/userService.ts:156-179 | Holds exactly when the UTF-16 length is at least 8 and there is an ASCII uppercase letter, a lowercase letter and a digit |
| `UserService.ShortEmojiPasswordIsStrong` | backend/src/services/userService.ts:158 | Example: six characters, three of them outside the Basic Multilingual Plane, meet the length rule |
| `UserService.UsernameValid` | backend/src/services/userService.ts:181-184 | Holds exactly when there are 1 to 30 characters, all in [A-Za-z0-9_] |
| `UserService.IndexOf` | backend/src/services/userService.ts:187 | The first position of the character, or none when it is absent |
| `UserService.LastIndexOf` | backend/src/services/userService.ts:187 | The last position of the character, or none when it is absent |
| `UserService.EmailValid` | backend/src/services/userService.ts:186-189 | Holds exactly when the address is L@D.T with L non-empty over [A-Za-z0-9_.-], D non-empty over [A-Za-z0-9.-], T two or more ASCII letters |
| `UserService.EmailSplitForced` | backend/src/services/userService.ts:187 | In such an address the '@' is the first '@' and the '.' is the last '.' |
| `UserService.Register` | backend/src/services/userService.ts:44-60 | Inserts exactly when all five checks pass; otherwise status 400 with the last failing check's error in the order username invalid, username exists, email invalid, email exists, weak password |
| `UserService.Login` | backend/src/services/userService.ts:91-132 | 401 with the same message for an unknown identifier and for a wrong password; otherwise 200, looking up by the email column exactly when the identifier is a registered email |
| `HistoryNavigator.Navigator.constructor` | frontend/src/components/GameHistoryNavigator.tsx:3 | Starts at the given index with no board loaded |
| `HistoryNavigator.Navigator.Navigate` | frontend/src/components/GameHistoryNavigator.tsx:5-11 | An out-of-range target changes nothing; an in-range target becomes the index and loads that FEN; an in-range index stays in range |
| `HistoryNavigator.Navigator.Beginning` | frontend/src/components/GameHistoryNavigator.tsx:15 | Goes to index 0 for a non-empty history; does nothing for an empty one |
| `HistoryNavigator.Navigator.Back` | frontend/src/components/GameHistoryNavigator.tsx:16 | Navigates to the index one lower: when that index is in the history it becomes the index and its FEN is loaded, otherwise (at index 0 or below, and beyond the end) nothing changes; keeps an in-range index in range |
| `HistoryNavigator.Navigator.Forward` | frontend/src/components/GameHistoryNavigator.tsx:17 | Navigates to the index one higher: when that index is in the history it becomes the index and its FEN is loaded (so -1 loads the first entry), otherwise (at the last index or beyond, and below -1) nothing changes; keeps an in-range index in range |
| `HistoryNavigator.Navigator.Current` | frontend/src/components/GameHistoryNavigator.tsx:18 | Goes to the last index for a non-empty history; does nothing for an empty one |
| `ScoreAnimation.AnimationTick` | frontend/src/components/Game/GameOverModal.tsx:113-121 | Schedules another step exactly when the value is more than 1 away; then it moves one closer; otherwise it becomes the new rating; never leaves the interval between the two |
| `ScoreAnimation.NewEloIsFixedPoint` | frontend/src/components/Game/GameOverModal.tsx:119-121 | At the new rating the step stays there and schedules nothing |
| `ScoreAnimation.Animate` | frontend/src/components/Game/GameOverModal.tsx:110-124 | Definition, no contract: the displayed value after n steps; `AnimationSettles` states its meaning |
| `ScoreAnimation.AnimationSettles` | frontend/src/components/Game/GameOverModal.tsx:102-124 | From the old rating, step n schedules another exactly when n < max(1, distance); at that step the value is the new rating; it never overshoots |
| `ScoreAnimation.ScoreCounter.constructor` | frontend/src/components/Game/GameOverModal.tsx:102 | The displayed value starts at the old rating |
| `ScoreAnimation.ScoreCounter.RunAnimation` | frontend/src/components/Game/GameOverModal.tsx:110-124 | Runs max(1, distance) steps and ends at the new rating |

## Left out

- Transport and encoding: the WebSocket server, JSON parsing and serialisation, and `socket.send`. Events arrive as decoded datatypes. A send is an append to `outbox`. A message without a `comment` field is an `Update` whose comment is `None`.
- Game ids are modelled as integers. The registry's `Map` compares keys with SameValueZero, so the string "5" and the number 5 would be different sessions. That distinction is not modelled.
- Asynchronous interleaving: `handleStart`, `createNewGame`, `addToGame` and `handleReset` are async, and the source does not await the nested calls. Each handler is modelled as one atomic step.
- Errors thrown inside the async `handleReset` (an unknown id, or a session with no black seat) end the handler with an unhandled rejection. The model ends the handler there, keeping any change already made; the rejection itself is not modelled.
- Session lookup failure: `getSession` returns an error object when the query fails. The model takes the lookup as a total function from token to profile.
- The chess rules (chess.js) are a foreign library. They are abstract functions in `Chess.Rules`. `loadPgn(pgn())` is assumed to restore the stored position. An illegal move is modelled as rejected (the library throws and the handler catches). An empty square has no colour.
- The opening book used by socket.ts comes from `PGNHelper`, which is not part of this model. There it is a given map from PGN to names.
- Floating point: ratings are integers, as the callers store them; a fractional rating is not modelled. The expected score, `Math.pow` and the change use reals, with `pow10` constrained only by `Pow10Laws`. Rounding error is not modelled.
- Database, hashing, uuid tokens and HTTP controllers: `register` and `login` take the existence and password checks as parameters. `Register` returns only the decision to insert, not the insert, token or status 200/500 that follow it.
- File and process I/O: reading `eco.pgn` (the content is a parameter), spawning the engine (writes go to the `written` log), and the console logging of best moves (kept as the `reported` log).
- `OpeningBook.Classify`: `substring(7, line.length - 2)` counts UTF-16 code units, while the model's `Text.Substring` counts characters. The two agree when the tag line has no character outside the Basic Multilingual Plane; other lines are not modelled exactly.
- `Engine.Stockfish.SetDifficulty`: takes an integer level. A fractional JavaScript number is not modelled.
- `HistoryNavigator.Navigator.Navigate`: `game.load` is modelled as recording the chosen FEN. A FEN the chess library rejects is not modelled.
- The timer in the rating animation: each `setTimeout` step is one loop iteration.
- Frontend pages, presentational components, styling, and event types the shown servers do not handle (chat, resign, engine games) are outside the core.
