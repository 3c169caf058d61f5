/**
 * The opening-book reader: a line-oriented pass over a PGN file that builds
 * a dictionary from move text to the opening record (site, white, black,
 * moves). One mutable "current record" is filled in tag by tag and stored
 * under its move text at each blank line; the dictionary holds that same
 * object, so tags read after the blank line still change the stored entry
 * until the next `[Site ` tag starts a new record.
 */
module OpeningBook {
  import opened Wrappers
  import opened Text

  /** The fields of a record at one moment; a field never assigned is `undefined` (None). */
  datatype Entry = Entry(site: Option<string>, white: Option<string>, black: Option<string>, moves: Option<string>)

  /** The initial current record `{}`, in use until the first `[Site ` tag. */
  const EmptyEntry: Entry := Entry(None, None, None, None)

  /** The property key `games[game.moves]` writes: `undefined` becomes the string "undefined". */
  function Key(moves: Option<string>): string {
    match moves
    case None => "undefined"
    case Some(m) => m
  }

  /** Number of leading ASCII digits. */
  function DigitRun(line: string): nat {
    if |line| > 0 && IsDigit(line[0]) then 1 + DigitRun(line[1..]) else 0
  }

  /** `line.match(/^\d+\./)`: one or more digits, then a dot. */
  predicate IsMoveLine(line: string) {
    var n := DigitRun(line);
    1 <= n < |line| && line[n] == '.'
  }

  /** `DigitRun` counts the maximal run of leading digits. */
  lemma {:induction false} DigitRunLeading(line: string)
    ensures DigitRun(line) <= |line|
    ensures forall i :: 0 <= i < DigitRun(line) ==> IsDigit(line[i])
    ensures DigitRun(line) < |line| ==> !IsDigit(line[DigitRun(line)])
  {
    if |line| > 0 && IsDigit(line[0]) {
      DigitRunLeading(line[1..]);
      assert forall i :: 1 <= i < DigitRun(line) ==> line[i] == line[1..][i - 1];
    }
  }

  /** The move-line test holds exactly when the line is one or more digits followed by '.'. */
  lemma IsMoveLineExactly(line: string)
    ensures IsMoveLine(line) <==>
      exists n :: 1 <= n < |line| && line[n] == '.' && forall i :: 0 <= i < n ==> IsDigit(line[i])
  {
    DigitRunLeading(line);
    var n := DigitRun(line);
    forall m | 1 <= m < |line| && line[m] == '.' && (forall i :: 0 <= i < m ==> IsDigit(line[i]))
      ensures m == n
    {
    }
  }

  /** How a (trimmed) line is read, in the order the branches are tried. */
  datatype LineKind =
    | SiteTag(site: string)
    | WhiteTag(white: string)
    | BlackTag(black: string)
    | MoveText(moves: string)
    | Blank
    | Other

  function Classify(line: string): LineKind {
    if StartsWith(line, "[Site ") then SiteTag(Substring(line, 7, |line| - 2))
    else if StartsWith(line, "[White ") then WhiteTag(Substring(line, 8, |line| - 2))
    else if StartsWith(line, "[Black ") then BlackTag(Substring(line, 8, |line| - 2))
    else if IsMoveLine(line) then MoveText(line)
    else if Trim(line) == "" then Blank
    else Other
  }

  /** The tag value between the quotes of `[Site "X"]`, `[White "X"]` and `[Black "X"]` is X. */
  lemma TagValues(x: string)
    ensures Classify("[Site \"" + x + "\"]") == SiteTag(x)
    ensures Classify("[White \"" + x + "\"]") == WhiteTag(x)
    ensures Classify("[Black \"" + x + "\"]") == BlackTag(x)
  {
    var site, white, black := "[Site \"" + x + "\"]", "[White \"" + x + "\"]", "[Black \"" + x + "\"]";
    assert site[..6] == "[Site ";
    assert site[7..|site| - 2] == x;
    assert white[..6][1] == 'W' && white[..7] == "[White ";
    assert white[8..|white| - 2] == x;
    assert black[..6][1] == 'B' && black[..7] == "[Black ";
    assert black[8..|black| - 2] == x;
  }

  /**
   * The parser's state as values: the current record, the keys whose
   * dictionary entry IS the current record (stored since the last `[Site `),
   * and the entries that hold an earlier record, whose fields no longer change.
   */
  datatype Book = Book(current: Entry, live: set<string>, frozen: map<string, Entry>)

  const InitialBook: Book := Book(EmptyEntry, {}, map[])

  /** The dictionary this state stands for. */
  function Entries(b: Book): map<string, Entry> {
    map k | k in b.live + b.frozen.Keys :: if k in b.live then b.current else b.frozen[k]
  }

  /** What each kind of line does to the state. */
  function Apply(b: Book, kind: LineKind): Book {
    match kind
    case SiteTag(site) => Book(Entry(Some(site), Some(""), Some(""), Some("")), {}, Entries(b))
    case WhiteTag(name) => b.(current := b.current.(white := Some(name)))
    case BlackTag(name) => b.(current := b.current.(black := Some(name)))
    case MoveText(moves) => b.(current := b.current.(moves := Some(moves)))
    case Blank =>
      var k := Key(b.current.moves);
      b.(live := b.live + {k}, frozen := b.frozen - {k})
    case Other => b
  }

  /** One line of the loop. */
  function Step(b: Book, line: string): Book {
    Apply(b, Classify(line))
  }

  /** The state after the given lines. */
  function Run(lines: seq<string>): Book {
    if |lines| == 0 then InitialBook else Step(Run(lines[..|lines| - 1]), lines[|lines| - 1])
  }

  lemma RunStep(lines: seq<string>, i: nat)
    requires i < |lines|
    ensures Run(lines[..i + 1]) == Step(Run(lines[..i]), lines[i])
  {
    assert lines[..i + 1][..i] == lines[..i];
  }

  /** The file content split on line feeds, every line trimmed. */
  function Lines(content: string): seq<string> {
    var parts := Split(content, '\n');
    seq(|parts|, i requires 0 <= i < |parts| => Trim(parts[i]))
  }

  /**
   * The reader sees one line per `\n`-separated piece of the file, none of
   * them holding a line break or starting or ending with white space.
   */
  lemma LinesAreTrimmed(content: string)
    ensures |Lines(content)| == |Split(content, '\n')| >= 1
    ensures forall i :: 0 <= i < |Lines(content)| ==> '\n' !in Lines(content)[i]
    ensures forall i :: 0 <= i < |Lines(content)| && Lines(content)[i] != [] ==>
      !IsSpace(Lines(content)[i][0]) && !IsSpace(Lines(content)[i][|Lines(content)[i]| - 1])
  {
    var parts := Split(content, '\n');
    forall i | 0 <= i < |parts|
      ensures '\n' !in Lines(content)[i]
      ensures Lines(content)[i] != [] ==> !IsSpace(Lines(content)[i][0]) && !IsSpace(Lines(content)[i][|Lines(content)[i]| - 1])
    {
      TrimCore(parts[i]);
      var a, b :| 0 <= a <= b <= |parts[i]| && Trim(parts[i]) == parts[i][a..b] && AllSpace(parts[i][..a]) && AllSpace(parts[i][b..]);
      assert '\n' !in parts[i];
      assert forall c :: c in parts[i][a..b] ==> c in parts[i];
    }
  }

  /** The dictionary the reader returns for the file content. */
  function ParsePgn(content: string): map<string, Entry> {
    Entries(Run(Lines(content)))
  }

  /**
   * A `[Site ` line starts a fresh record (site set, white, black and moves
   * empty) and leaves every stored entry as it is.
   */
  lemma SiteStartsRecord(b: Book, site: string)
    ensures Step(b, "[Site \"" + site + "\"]").current == Entry(Some(site), Some(""), Some(""), Some(""))
    ensures Entries(Step(b, "[Site \"" + site + "\"]")) == Entries(b)
  {
    TagValues(site);
  }

  /**
   * A blank line stores the current record under its move text, replacing
   * any earlier entry with that key; every other entry is kept.
   */
  lemma BlankStoresCurrent(b: Book, line: string)
    requires Trim(line) == ""
    ensures Entries(Step(b, line)) == Entries(b)[Key(b.current.moves) := b.current]
  {
    BlankLine(line);
  }

  /** A line that trims to nothing takes the blank-line branch. */
  lemma BlankLine(line: string)
    requires Trim(line) == ""
    ensures Classify(line) == Blank
  {
    AllSpaceIfBlank(line);
    if |line| > 0 {
      assert IsSpace(line[0]);
      NoTagAfterSpace(line, "[Site ");
      NoTagAfterSpace(line, "[White ");
      NoTagAfterSpace(line, "[Black ");
      assert DigitRun(line) == 0;
    }
    assert !IsMoveLine(line);
  }

  lemma NoTagAfterSpace(line: string, tag: string)
    requires |line| > 0 && IsSpace(line[0])
    requires |tag| > 0 && tag[0] == '['
    ensures !StartsWith(line, tag)
  {
    if |tag| <= |line| {
      assert line[..|tag|][0] == line[0];
    }
  }

  /** A line that trims to nothing is white space only. */
  lemma AllSpaceIfBlank(line: string)
    requires Trim(line) == ""
    ensures AllSpace(line)
  {
    TrimCore(line);
    var i, j :| 0 <= i <= j <= |line| && Trim(line) == line[i..j] && AllSpace(line[..i]) && AllSpace(line[j..]);
    forall k | 0 <= k < |line| ensures IsSpace(line[k]) {
      if k < i { assert line[..i][k] == line[k]; } else { assert line[j..][k - j] == line[k]; }
    }
  }

  /**
   * Aliasing: a tag or move-text line changes the current record, and with
   * it every entry stored since the last `[Site ` line; the entries of
   * earlier records stay as they were.
   */
  lemma FieldLinesReachStoredEntries(b: Book, line: string)
    requires Classify(line).WhiteTag? || Classify(line).BlackTag? || Classify(line).MoveText?
    ensures Step(b, line).live == b.live
    ensures forall k :: k in b.live ==> Entries(Step(b, line))[k] == Step(b, line).current
    ensures forall k :: k in Entries(b) && k !in b.live ==> Entries(Step(b, line))[k] == Entries(b)[k]
    ensures Entries(Step(b, line)).Keys == Entries(b).Keys
  {
  }

  /** A line matching no branch changes nothing. */
  lemma OtherLinesIgnored(b: Book, line: string)
    requires Classify(line) == Other
    ensures Step(b, line) == b
  {
  }

  /**
   * Example: after `[Site "S"]`, a move line and a blank line, a `[White "W"]`
   * line still sets the white name of the entry already stored.
   */
  lemma StoredEntrySeesLaterTag()
    ensures var d := Entries(Run(["[Site \"S\"]", "1. e4", "", "[White \"W\"]"]));
      "1. e4" in d && d["1. e4"] == Entry(Some("S"), Some("W"), Some(""), Some("1. e4"))
  {
    var lines := ["[Site \"S\"]", "1. e4", "", "[White \"W\"]"];
    var entry := Entry(Some("S"), Some(""), Some(""), Some(""));
    ExampleKinds();
    assert Entries(InitialBook) == map[];
    assert lines[..0] == [];
    RunStep(lines, 0);
    assert Run(lines[..1]) == Book(entry, {}, map[]);
    RunStep(lines, 1);
    assert Run(lines[..2]) == Book(entry.(moves := Some("1. e4")), {}, map[]);
    RunStep(lines, 2);
    assert Run(lines[..3]) == Book(entry.(moves := Some("1. e4")), {"1. e4"}, map[]);
    RunStep(lines, 3);
    assert lines[..4] == lines;
  }

  /** How the lines of the aliasing example are read. */
  lemma ExampleKinds()
    ensures Classify("[Site \"S\"]") == SiteTag("S")
    ensures Classify("1. e4") == MoveText("1. e4")
    ensures Classify("") == Blank
    ensures Classify("[White \"W\"]") == WhiteTag("W")
  {
    TagValues("S");
    assert "[Site \"" + "S" + "\"]" == "[Site \"S\"]";
    assert DigitRun("1. e4") == 1 by { assert DigitRun("1. e4"[1..]) == 0; }
    BlankLine("");
    TagValues("W");
    assert "[White \"" + "W" + "\"]" == "[White \"W\"]";
  }

  /** An opening record object, shared between the parser's current record and the dictionary. */
  class PgnRecord {
    var site: Option<string>
    var white: Option<string>
    var black: Option<string>
    var moves: Option<string>

    /** The empty object `{}`. */
    constructor ()
      ensures Value() == EmptyEntry
    {
      site, white, black, moves := None, None, None, None;
    }

    /** The object literal of a `[Site ` branch. */
    constructor FromSite(site: string)
      ensures Value() == Entry(Some(site), Some(""), Some(""), Some(""))
    {
      this.site := Some(site);
      white, black, moves := Some(""), Some(""), Some("");
    }

    function Value(): Entry
      reads this
    {
      Entry(site, white, black, moves)
    }
  }

  /**
   * The dictionary and the current record object stand for the state `b`:
   * the current object holds `b.current`, the live keys map to that very
   * object, and every other key maps to another object holding its frozen entry.
   */
  ghost predicate Mirrors(games: map<string, PgnRecord>, game: PgnRecord, b: Book)
    reads game, games.Values
  {
    && game.Value() == b.current
    && games.Keys == b.live + b.frozen.Keys
    && (forall k :: k in b.live ==> games[k] == game)
    && (forall k :: k in games && k !in b.live ==> games[k] != game && games[k].Value() == b.frozen[k])
  }

  /** The body of the loop for one line: updates the current record in place or replaces it. */
  method ReadLine(games: map<string, PgnRecord>, game: PgnRecord, line: string, ghost b: Book)
    returns (games': map<string, PgnRecord>, game': PgnRecord)
    requires Mirrors(games, game, b)
    modifies game
    ensures Mirrors(games', game', Step(b, line))
    ensures game' == game || fresh(game')
  {
    games', game' := games, game;
    var kind := Classify(line);
    if kind.SiteTag? {
      game' := new PgnRecord.FromSite(kind.site);
    } else if kind.WhiteTag? {
      game.white := Some(kind.white);
    } else if kind.BlackTag? {
      game.black := Some(kind.black);
    } else if kind.MoveText? {
      game.moves := Some(kind.moves);
    } else if kind.Blank? {
      games' := games[Key(game.moves) := game];
    }
  }

  /**
   * `parsePGNFile`, with the file's content passed in: the dictionary has
   * exactly the keys of `ParsePgn(content)`, and each entry's record holds
   * the fields `ParsePgn(content)` gives it.
   */
  method ParsePgnFile(fileContent: string) returns (games: map<string, PgnRecord>)
    ensures games.Keys == ParsePgn(fileContent).Keys
    ensures forall k :: k in games ==> games[k].Value() == ParsePgn(fileContent)[k]
  {
    games := map[];
    var game := new PgnRecord();
    var lines := Lines(fileContent);
    ghost var book := InitialBook;
    var i := 0;
    while i < |lines|
      invariant 0 <= i <= |lines|
      invariant book == Run(lines[..i])
      invariant fresh(game)
      invariant Mirrors(games, game, book)
    {
      RunStep(lines, i);
      games, game := ReadLine(games, game, lines[i], book);
      book := Step(book, lines[i]);
      i := i + 1;
    }
    assert lines[..i] == lines;
  }
}
