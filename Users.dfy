/** The user registry of `finance_tracker/users.py`: profiles kept in a
    dictionary by username, with passwords stored only as their hash. */
module Users {
  import opened Common
  import opened Text

  // ---------------------------------------------------------------------------
  // The e-mail pattern `^[a-zA-Z0-9._%+-]+@[a-zA-Z0-9.-]+\.[a-zA-Z]{2,}$`

  predicate Letter(c: char) {
    ('a' <= c <= 'z') || ('A' <= c <= 'Z')
  }

  predicate LetterOrDigit(c: char) {
    Letter(c) || ('0' <= c <= '9')
  }

  /** `[a-zA-Z0-9._%+-]` */
  predicate LocalChar(c: char) {
    LetterOrDigit(c) || c == '.' || c == '_' || c == '%' || c == '+' || c == '-'
  }

  /** `[a-zA-Z0-9.-]` */
  predicate DomainChar(c: char) {
    LetterOrDigit(c) || c == '.' || c == '-'
  }

  /** `s` splits as local part, `@` at `i`, domain, `.` at `j`, and a final
      run of two or more letters. */
  predicate MatchesAt(s: string, i: nat, j: nat) {
    && 0 < i && i + 1 < j && j + 2 < |s|
    && s[i] == '@' && s[j] == '.'
    && (forall k :: 0 <= k < i ==> LocalChar(s[k]))
    && (forall k :: i < k < j ==> DomainChar(s[k]))
    && (forall k :: j < k < |s| ==> Letter(s[k]))
  }

  /** The whole of `s` is a word of the pattern's language. */
  ghost predicate MatchesPattern(s: string) {
    exists i: nat, j: nat :: MatchesAt(s, i, j)
  }

  /** The position of the first `c` in `s`. */
  function IndexOf(s: string, c: char): (r: Option<nat>)
    ensures r.None? <==> c !in s
    ensures r.Some? ==> r.value < |s| && s[r.value] == c && forall k :: 0 <= k < r.value ==> s[k] != c
  {
    if s == [] then None
    else if s[0] == c then Some(0)
    else
      match IndexOf(s[1..], c)
      case None => None
      case Some(k) => Some(k + 1)
  }

  /** The position of the last `c` in `s`. */
  function LastIndexOf(s: string, c: char): (r: Option<nat>)
    ensures r.None? <==> c !in s
    ensures r.Some? ==> r.value < |s| && s[r.value] == c && forall k :: r.value < k < |s| ==> s[k] != c
  {
    if s == [] then None
    else if s[|s| - 1] == c then Some(|s| - 1)
    else LastIndexOf(s[..|s| - 1], c)
  }

  /** The pattern checked directly: the local part cannot hold `@` and the
      final letters cannot hold `.`, so the split is at the first `@` and
      the last `.`. */
  predicate EmailShape(s: string) {
    match IndexOf(s, '@')
    case None => false
    case Some(i) =>
      match LastIndexOf(s, '.')
      case None => false
      case Some(j) => MatchesAt(s, i, j)
  }

  /** The direct check accepts exactly the words of the pattern. */
  lemma EmailShapeIsPattern(s: string)
    ensures EmailShape(s) <==> MatchesPattern(s)
  {
    if MatchesPattern(s) {
      var i: nat, j: nat :| MatchesAt(s, i, j);
      var a := IndexOf(s, '@');
      var d := LastIndexOf(s, '.');
      assert a == Some(i) by {
        assert s[i] == '@';
      }
      assert d == Some(j) by {
        assert s[j] == '.';
      }
    }
  }

  /** `validate_email`: `re.match` with a final `$`, which also matches just
      before a newline that ends the string. */
  function ValidateEmail(email: string): (ok: bool)
    ensures ok <==> (MatchesPattern(email)
                     || (email != [] && email[|email| - 1] == '\n' && MatchesPattern(email[..|email| - 1])))
  {
    EmailShapeIsPattern(email);
    if email != [] && email[|email| - 1] == '\n' then
      EmailShapeIsPattern(email[..|email| - 1]);
      EmailShape(email) || EmailShape(email[..|email| - 1])
    else
      EmailShape(email)
  }

  /** The unit test's address is accepted. */
  lemma AcceptedEmailExample()
    ensures ValidateEmail("test@example.com")
  {
    assert MatchesAt("test@example.com", 4, 12);
  }

  /** The unit test's address without an `@` is rejected. */
  lemma RejectedEmailExample()
    ensures !ValidateEmail("invalid_email")
  {
    var s := "invalid_email";
    assert '@' !in s && s[|s| - 1] != '\n';
    assert IndexOf(s, '@') == None;
  }

  /** The `$` lets a single trailing newline through. */
  lemma TrailingNewlineAccepted()
    ensures ValidateEmail("a@b.cd\n")
  {
    var s := "a@b.cd\n";
    assert s[..|s| - 1] == "a@b.cd";
    assert MatchesAt("a@b.cd", 1, 3);
  }

  /** A word of the pattern starts with a local-part character and ends
      with a letter, so it has no whitespace to strip. */
  lemma PatternHasNoEdgeSpace(s: string)
    requires MatchesPattern(s)
    ensures s != [] && !IsSpace(s[0]) && !IsSpace(s[|s| - 1])
  {
    var i: nat, j: nat :| MatchesAt(s, i, j);
    assert LocalChar(s[0]) && Letter(s[|s| - 1]);
  }

  /** Stripping a string without edge whitespace followed by a newline drops
      just the newline. */
  lemma StripDropsNewline(init: string)
    requires init != [] && !IsSpace(init[0]) && !IsSpace(init[|init| - 1])
    ensures Strip(init + "\n") == init
  {
    var s := init + "\n";
    assert s[0] == init[0];
    assert LeadingSpaces(s) == 0;
    assert s[..|s| - 1] == init;
    assert TrailingSpaces(init) == 0;
    assert TrailingSpaces(s) == 1;
  }

  /** An accepted address, once stripped as the profile stores it, is a word
      of the pattern: the newline the `$` lets through is cut off. */
  lemma StoredEmailMatches(email: string)
    requires ValidateEmail(email)
    ensures MatchesPattern(Strip(email))
  {
    if MatchesPattern(email) {
      PatternHasNoEdgeSpace(email);
      StripFixed(email);
    } else {
      var init := email[..|email| - 1];
      PatternHasNoEdgeSpace(init);
      assert email == init + "\n";
      StripDropsNewline(init);
    }
  }

  // ---------------------------------------------------------------------------
  // Profiles

  /** One profile; `preferences` is a dictionary of strings. */
  datatype User = User(
    username: string,
    passwordHash: string,
    email: string,
    createdAt: string,
    preferences: map<string, string>)

  /** The preferences every new profile starts with. */
  const DefaultPreferences: map<string, string> := map["currency" := "USD", "language" := "en"]

  /** `User(username, password, email)`: names and address stripped, the
      password replaced by its hash, default preferences. */
  function NewUser(username: string, password: string, email: string, createdAt: string,
                   hash: string -> string): (u: User)
    ensures u.passwordHash == hash(password) && u.preferences == DefaultPreferences
  {
    User(Strip(username), hash(password), Strip(email), createdAt, DefaultPreferences)
  }

  /** The checks of `register_user`, in the order it makes them. */
  function RegisterError(users: map<string, User>, username: string, password: string, email: string): (err: Option<Error>)
    ensures err.None? <==>
      username != "" && password != "" && email != "" && username !in users && ValidateEmail(email) && |password| >= 8
    ensures (username == "" || password == "" || email == "") ==>
      err == Some(ValueError("Username, password, and email cannot be empty"))
    ensures username != "" && password != "" && email != "" && username in users ==>
      err == Some(ValueError("Username already exists"))
    ensures username != "" && password != "" && email != "" && username !in users && !ValidateEmail(email) ==>
      err == Some(ValueError("Invalid email format"))
    ensures username != "" && password != "" && email != "" && username !in users && ValidateEmail(email)
            && |password| < 8 ==>
      err == Some(ValueError("Password must be at least 8 characters"))
  {
    if username == "" || password == "" || email == "" then
      Some(ValueError("Username, password, and email cannot be empty"))
    else if username in users then Some(ValueError("Username already exists"))
    else if !ValidateEmail(email) then Some(ValueError("Invalid email format"))
    else if |password| < 8 then Some(ValueError("Password must be at least 8 characters"))
    else None
  }

  /** The unit test's rejected registrations, each for its own reason. */
  lemma RegisterErrorExamples(users: map<string, User>)
    requires "testuser" !in users
    ensures RegisterError(users, "", "password123", "test@example.com")
         == Some(ValueError("Username, password, and email cannot be empty"))
    ensures RegisterError(users, "testuser", "short", "test@example.com")
         == Some(ValueError("Password must be at least 8 characters"))
    ensures RegisterError(users, "testuser", "password123", "invalid_email")
         == Some(ValueError("Invalid email format"))
  {
    AcceptedEmailExample();
    RejectedEmailExample();
  }

  /** The profile after `update_user`'s writes: the e-mail is checked and
      written, then the password, then the preferences are merged. */
  function PatchUser(u: User, email: Option<string>, password: Option<string>,
                     preferences: Option<map<string, string>>, hash: string -> string): (p: Patched<User>)
    ensures p.record.username == u.username && p.record.createdAt == u.createdAt
    ensures p.error.None? <==>
      (email.None? || ValidateEmail(email.value)) && (password.None? || |password.value| >= 8)
    ensures p.record.email == if email.Some? && ValidateEmail(email.value) then Strip(email.value) else u.email
    ensures p.record.passwordHash ==
      if p.error.None? && password.Some? then hash(password.value) else u.passwordHash
    ensures p.error.None? && preferences.Some? ==>
      && (forall k :: k in p.record.preferences <==> k in u.preferences || k in preferences.value)
      && (forall k :: k in preferences.value ==> p.record.preferences[k] == preferences.value[k])
      && (forall k :: k in u.preferences && k !in preferences.value ==> p.record.preferences[k] == u.preferences[k])
    ensures p.error.Some? || preferences.None? ==> p.record.preferences == u.preferences
  {
    if email.Some? && !ValidateEmail(email.value) then
      Patched(u, Some(ValueError("Invalid email format")))
    else
      var u1 := if email.Some? then u.(email := Strip(email.value)) else u;
      if password.Some? && |password.value| < 8 then
        Patched(u1, Some(ValueError("Password must be at least 8 characters")))
      else
        var u2 := if password.Some? then u1.(passwordHash := hash(password.value)) else u1;
        Patched(if preferences.Some? then u2.(preferences := u2.preferences + preferences.value) else u2, None)
  }

  /** A valid new e-mail stays written when the password given with it is too short. */
  lemma EmailWrittenBeforePasswordRejected(u: User, email: string, password: string, hash: string -> string)
    requires ValidateEmail(email) && |password| < 8
    ensures var p := PatchUser(u, Some(email), Some(password), None, hash);
      && p.error == Some(ValueError("Password must be at least 8 characters"))
      && p.record == u.(email := Strip(email))
  {
  }

  /** A profile stored under `name`: the name stripped, an address of the pattern. */
  ghost predicate ProfileFits(name: string, u: User) {
    u.username == Strip(name) && MatchesPattern(u.email)
  }

  /** A registered profile fits the key it is stored under. */
  lemma NewUserFits(username: string, password: string, email: string, createdAt: string, hash: string -> string)
    requires ValidateEmail(email)
    ensures ProfileFits(username, NewUser(username, password, email, createdAt, hash))
  {
    StoredEmailMatches(email);
  }

  /** Updating a profile keeps it fitting its key. */
  lemma PatchKeepsFit(name: string, u: User, email: Option<string>, password: Option<string>,
                      preferences: Option<map<string, string>>, hash: string -> string)
    requires ProfileFits(name, u)
    ensures ProfileFits(name, PatchUser(u, email, password, preferences, hash).record)
  {
    if email.Some? && ValidateEmail(email.value) {
      StoredEmailMatches(email.value);
    }
  }

  /** A registry in which every profile fits the key it is stored under. */
  ghost predicate Registry(users: map<string, User>) {
    forall name :: name in users ==> ProfileFits(name, users[name])
  }

  /** `users[name] = u` keeps the registry when `u` fits `name`. */
  lemma StoreKeepsRegistry(users: map<string, User>, name: string, u: User)
    requires Registry(users) && ProfileFits(name, u)
    ensures Registry(users[name := u])
  {
  }

  /** A new key makes the registry one profile larger. */
  lemma NewKeyCounts(users: map<string, User>, name: string, u: User)
    requires name !in users
    ensures |users[name := u].Keys| == |users.Keys| + 1
  {
    assert users[name := u].Keys == users.Keys + {name};
  }

  class UserManager {
    /** `hashlib.sha256(password.encode()).hexdigest()` */
    const hash: string -> string
    var users: map<string, User>

    /** Each profile holds its key, stripped, and an address of the pattern. */
    ghost predicate Valid()
      reads this
    {
      Registry(users)
    }

    /** `UserManager()` with nothing loaded from the file. */
    constructor (hash: string -> string)
      ensures this.hash == hash && users == map[] && Valid()
    {
      this.hash := hash;
      users := map[];
    }

    /** `register_user`: all checks first, then one new profile under the
        username as given. */
    method RegisterUser(username: string, password: string, email: string, now: string) returns (r: Result<bool>)
      requires Valid()
      modifies this
      ensures Valid()
      ensures var err := RegisterError(old(users), username, password, email);
        && (err.Some? ==> r == Raised(err.value) && users == old(users))
        && (err.None? ==>
              && r == Ok(true)
              && users == old(users)[username := NewUser(username, password, email, now, hash)]
              && |users.Keys| == |old(users).Keys| + 1
              && (forall p :: AuthenticateUser(username, p) <==> hash(p) == hash(password)))
    {
      var err := RegisterError(users, username, password, email);
      if err.Some? {
        return Raised(err.value);
      }
      var u := NewUser(username, password, email, now, hash);
      NewUserFits(username, password, email, now, hash);
      StoreKeepsRegistry(users, username, u);
      NewKeyCounts(users, username, u);
      users := users[username := u];
      assert users[username].passwordHash == hash(password);
      r := Ok(true);
    }

    /** `authenticate_user`: the profile `get_user` finds holds the hash of
        the password given. */
    function AuthenticateUser(username: string, password: string): (ok: bool)
      reads this
      ensures ok <==> GetUser(username).Some? && GetUser(username).value.passwordHash == hash(password)
    {
      username in users && users[username].passwordHash == hash(password)
    }

    /** `update_user`: false for an unknown user; otherwise the profile's
        fields are written one check at a time. */
    method UpdateUser(username: string, email: Option<string> := None, password: Option<string> := None,
                      preferences: Option<map<string, string>> := None) returns (r: Result<bool>)
      requires Valid()
      modifies this
      ensures Valid()
      ensures username !in old(users) ==> r == Ok(false) && users == old(users)
      ensures username in old(users) ==>
        var p := PatchUser(old(users)[username], email, password, preferences, hash);
        && users == old(users)[username := p.record]
        && r == (if p.error.Some? then Raised(p.error.value) else Ok(true))
      ensures r == Ok(true) && password.Some? ==>
        forall p :: AuthenticateUser(username, p) <==> hash(p) == hash(password.value)
    {
      if username !in users {
        return Ok(false);
      }
      var p := PatchUser(users[username], email, password, preferences, hash);
      PatchKeepsFit(username, users[username], email, password, preferences, hash);
      StoreKeepsRegistry(users, username, p.record);
      users := users[username := p.record];
      if p.error.Some? {
        return Raised(p.error.value);
      }
      return Ok(true);
    }

    /** `delete_user`: removes the profile if there is one; others stay. */
    method DeleteUser(username: string) returns (removed: bool)
      requires Valid()
      modifies this
      ensures Valid()
      ensures removed <==> username in old(users)
      ensures users == old(users) - {username}
      ensures GetUser(username) == None
    {
      removed := username in users;
      users := users - {username};
    }

    /** `get_user`: the profile, or `None` for an unknown name. */
    function GetUser(username: string): (r: Option<User>)
      reads this
      ensures r.None? <==> username !in users
      ensures r.Some? ==> r.value == users[username]
    {
      if username in users then Some(users[username]) else None
    }
  }
}
