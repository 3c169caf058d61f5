/**
 * Account validation and the decision logic of registration and login. The
 * database answers (does the username exist, does the e-mail exist, does the
 * password match the row found) are parameters; the SQL, hashing and token
 * generation are not part of this model.
 */
module UserService {
  import opened Text
  import opened Wrappers

  /** The character classes the validators' regular expressions use. */
  datatype CharClass =
    | Upper        // [A-Z]
    | Lower        // [a-z]
    | Digit        // \d
    | Word         // \w = [a-zA-Z0-9_]
    | LocalChar    // [\w.-]
    | DomainChar   // [a-zA-Z0-9.-]
    | Letter       // [a-zA-Z]

  predicate InClass(c: char, cls: CharClass) {
    match cls
    case Upper => IsUpper(c)
    case Lower => IsLower(c)
    case Digit => IsDigit(c)
    case Word => IsWordChar(c)
    case LocalChar => IsWordChar(c) || c == '.' || c == '-'
    case DomainChar => IsLetter(c) || IsDigit(c) || c == '.' || c == '-'
    case Letter => IsLetter(c)
  }

  /** `/[...]/.test(s)`: some character of `s` is in the class. */
  function AnyIn(s: string, cls: CharClass): (b: bool)
    ensures b <==> exists i :: 0 <= i < |s| && InClass(s[i], cls)
  {
    if |s| == 0 then false
    else if InClass(s[0], cls) then true
    else
      var b := AnyIn(s[1..], cls);
      assert forall i :: 1 <= i < |s| ==> s[i] == s[1..][i - 1];
      b
  }

  /** Every character of `s` is in the class. */
  function AllIn(s: string, cls: CharClass): (b: bool)
    ensures b <==> forall i :: 0 <= i < |s| ==> InClass(s[i], cls)
  {
    if |s| == 0 then true
    else if !InClass(s[0], cls) then false
    else
      var b := AllIn(s[1..], cls);
      assert forall i :: 1 <= i < |s| ==> s[i] == s[1..][i - 1];
      b
  }

  /**
   * `isStrongPassword`: at least 8 UTF-16 code units with an ASCII
   * upper-case letter, a lower-case letter and a digit.
   */
  function IsStrongPassword(password: string): (strong: bool)
    ensures strong <==>
      && Utf16Length(password) >= 8
      && (exists i :: 0 <= i < |password| && IsUpper(password[i]))
      && (exists i :: 0 <= i < |password| && IsLower(password[i]))
      && (exists i :: 0 <= i < |password| && IsDigit(password[i]))
  {
    if Utf16Length(password) < 8 then false
    else if !AnyIn(password, Upper) then false
    else if !AnyIn(password, Lower) then false
    else if !AnyIn(password, Digit) then false
    else true
  }

  /**
   * The length rule counts code units, not characters: three letters and
   * three emoji (six characters, nine code units) pass it.
   */
  lemma ShortEmojiPasswordIsStrong()
    ensures IsStrongPassword("Aa1\U{1F600}\U{1F600}\U{1F600}")
  {
    var p := "Aa1\U{1F600}\U{1F600}\U{1F600}";
    var e := "\U{1F600}";
    assert Utf16Length(e) == 2;
    assert p[3..] == e + e + e && (e + e + e)[1..] == e + e && (e + e)[1..] == e;
    assert IsUpper(p[0]) && IsLower(p[1]) && IsDigit(p[2]);
  }

  /** `usernameValid`, i.e. `/^[a-zA-Z0-9_]{1,30}$/`. */
  function UsernameValid(username: string): (valid: bool)
    ensures valid <==> 1 <= |username| <= 30 && forall i :: 0 <= i < |username| ==> IsWordChar(username[i])
  {
    1 <= |username| <= 30 && AllIn(username, Word)
  }

  /** The three parts of `L@D.T` in `/^[\w.-]+@[a-zA-Z0-9.-]+\.[a-zA-Z]{2,}$/`. */
  ghost predicate LocalPart(l: string) {
    |l| >= 1 && forall i :: 0 <= i < |l| ==> IsWordChar(l[i]) || l[i] == '.' || l[i] == '-'
  }
  ghost predicate DomainPart(d: string) {
    |d| >= 1 && forall i :: 0 <= i < |d| ==> IsLetter(d[i]) || IsDigit(d[i]) || d[i] == '.' || d[i] == '-'
  }
  ghost predicate TopLevelPart(t: string) {
    |t| >= 2 && forall i :: 0 <= i < |t| ==> IsLetter(t[i])
  }

  /** `email` reads as `L@D.T` with the '@' at `at` and the final '.' at `dot`. */
  ghost predicate EmailSplit(email: string, at: int, dot: int) {
    && 0 <= at < dot < |email|
    && email[at] == '@' && email[dot] == '.'
    && LocalPart(email[..at]) && DomainPart(email[at + 1..dot]) && TopLevelPart(email[dot + 1..])
  }

  /** Index of the first occurrence of `c`. */
  function IndexOf(s: string, c: char): (r: Option<nat>)
    ensures r.None? ==> c !in s
    ensures r.Some? ==> r.value < |s| && s[r.value] == c && c !in s[..r.value]
  {
    if |s| == 0 then None
    else if s[0] == c then Some(0)
    else
      match IndexOf(s[1..], c)
      case None => None
      case Some(i) =>
        assert s[..i + 1] == [s[0]] + s[1..][..i];
        Some(i + 1)
  }

  /** Index of the last occurrence of `c`. */
  function LastIndexOf(s: string, c: char): (r: Option<nat>)
    ensures r.None? ==> c !in s
    ensures r.Some? ==> r.value < |s| && s[r.value] == c && c !in s[r.value + 1..]
  {
    if |s| == 0 then None
    else if s[|s| - 1] == c then Some(|s| - 1)
    else
      match LastIndexOf(s[..|s| - 1], c)
      case None =>
        assert s == s[..|s| - 1] + [s[|s| - 1]];
        None
      case Some(i) =>
        assert s[i + 1..] == s[..|s| - 1][i + 1..] + [s[|s| - 1]];
        Some(i)
  }

  /**
   * `emailValid`: the regular expression holds exactly when the address
   * splits as `L@D.T`. The split is forced: L and D contain no '@', so the
   * '@' is the first one, and T contains no '.', so the dot is the last one.
   */
  function EmailValid(email: string): (valid: bool)
    ensures valid <==> exists at, dot :: EmailSplit(email, at, dot)
  {
    match (IndexOf(email, '@'), LastIndexOf(email, '.'))
    case (Some(at), Some(dot)) =>
      var valid := at < dot && 1 <= at && AllIn(email[..at], LocalChar)
        && at + 1 < dot && AllIn(email[at + 1..dot], DomainChar)
        && dot + 3 <= |email| && AllIn(email[dot + 1..], Letter);
      assert valid ==> EmailSplit(email, at, dot);
      assert !valid ==> forall a, d :: !EmailSplit(email, a, d) by {
        forall a, d | EmailSplit(email, a, d) ensures valid {
          EmailSplitForced(email, a, d, at, dot);
        }
      }
      valid
    case (_, _) =>
      assert forall a, d :: !EmailSplit(email, a, d);
      false
  }

  /** Any `L@D.T` split uses the first '@' and the last '.'. */
  lemma EmailSplitForced(email: string, a: int, d: int, at: nat, dot: nat)
    requires EmailSplit(email, a, d)
    requires at < |email| && email[at] == '@' && '@' !in email[..at]
    requires dot < |email| && email[dot] == '.' && '.' !in email[dot + 1..]
    ensures a == at && d == dot
  {
  }

  /** What `register` returns before touching the database. */
  datatype RegisterDecision =
    | Reject(status: nat, error: string)
    | Insert   // goes on to insert the user and issue a session token

  /**
   * The validation part of `register`. Each failing check overwrites the
   * error, so the one reported is the LAST failing check in the order
   * username invalid, username taken, e-mail invalid, e-mail taken, weak
   * password; any error means status 400 and no insert.
   */
  method Register(email: string, username: string, password: string, usernameExists: bool, emailExists: bool)
    returns (r: RegisterDecision)
    ensures r.Insert? <==>
      UsernameValid(username) && !usernameExists && EmailValid(email) && !emailExists && IsStrongPassword(password)
    ensures r.Reject? ==> r.status == 400
    ensures r ==
      if !IsStrongPassword(password) then Reject(400, "Password is not strong enough")
      else if emailExists then Reject(400, "Email already exists")
      else if !EmailValid(email) then Reject(400, "Email invalid")
      else if usernameExists then Reject(400, "Username already exists")
      else if !UsernameValid(username) then Reject(400, "Username invalid")
      else Insert
  {
    var error: Option<string> := None;
    if !UsernameValid(username) { error := Some("Username invalid"); }
    if usernameExists { error := Some("Username already exists"); }
    if !EmailValid(email) { error := Some("Email invalid"); }
    if emailExists { error := Some("Email already exists"); }
    if !IsStrongPassword(password) { error := Some("Password is not strong enough"); }

    if error.Some? {
      return Reject(400, error.value);
    }
    return Insert;
  }

  /** The column the login lookup uses. */
  datatype Column = UsernameColumn | EmailColumn

  datatype LoginResult =
    | Unauthorized(status: nat, error: string)
    | LoggedIn(status: nat, lookup: Column)   // a fresh session token is issued

  const InvalidCredentials: string := "Invalid username or password combination"

  /**
   * The decision logic of `login`. `passwordMatches(col)` says whether the
   * password checks against the row found through column `col`. An unknown
   * identifier and a wrong password give the same 401 answer; an identifier
   * that is an e-mail is looked up by e-mail even if it is also a username.
   */
  method Login(usernameExists: bool, emailExists: bool, passwordMatches: Column -> bool) returns (r: LoginResult)
    ensures !usernameExists && !emailExists ==> r == Unauthorized(401, InvalidCredentials)
    ensures usernameExists || emailExists ==>
      var col := if emailExists then EmailColumn else UsernameColumn;
      r == if passwordMatches(col) then LoggedIn(200, col) else Unauthorized(401, InvalidCredentials)
    ensures r.Unauthorized? ==> r.status == 401 && r.error == InvalidCredentials
    ensures r.LoggedIn? ==> r.status == 200 && (r.lookup == EmailColumn <==> emailExists)
  {
    var loginType := UsernameColumn;
    if !usernameExists && !emailExists {
      return Unauthorized(401, InvalidCredentials);
    }
    if emailExists {
      loginType := EmailColumn;
    }
    var passwordValid := passwordMatches(loginType);
    if !passwordValid {
      return Unauthorized(401, InvalidCredentials);
    }
    return LoggedIn(200, loginType);
  }
}
