// The profile routes of the backend (PUT /api/users/profile and
// PUT /api/users/preferences): their validation chains, the uniqueness
// rules for a new username or email, and the columns each one writes.
module UserRoutes {
  import opened Common
  import opened Api
  import opened Json
  import UserService

  // ---------------------------------------------------------------------
  // The trim() sanitizer
  // ---------------------------------------------------------------------

  function TrimEnd(s: string): (r: string)
    ensures r <= s
    ensures r != [] ==> !IsJsSpace(r[|r| - 1])
    ensures forall i :: |r| <= i < |s| ==> IsJsSpace(s[i])
  {
    if s != [] && IsJsSpace(s[|s| - 1]) then TrimEnd(s[..|s| - 1]) else s
  }

  /** trim(): drops white space and line terminators at both ends. */
  function Trim(s: string): (r: string)
    ensures |r| <= |s|
    ensures r != [] ==> !IsJsSpace(r[0]) && !IsJsSpace(r[|r| - 1])
  {
    TrimEnd(SkipSpaces(s))
  }

  /** How many characters trim() drops at the front: the white space before the first other character. */
  function Leading(s: string): (n: nat)
    ensures n <= |s|
    ensures forall i :: 0 <= i < n ==> IsJsSpace(s[i])
    ensures n < |s| ==> !IsJsSpace(s[n])
  {
    LeadingSpaces(s);
    |s| - |SkipSpaces(s)|
  }

  /**
   * What trim() leaves is the piece of the text between the white space at
   * its front and the white space at its end.
   */
  lemma TrimMeaning(s: string)
    ensures Leading(s) + |Trim(s)| <= |s|
    ensures Trim(s) == s[Leading(s)..Leading(s) + |Trim(s)|]
    ensures forall i :: 0 <= i < Leading(s) ==> IsJsSpace(s[i])
    ensures forall i :: Leading(s) + |Trim(s)| <= i < |s| ==> IsJsSpace(s[i])
  {
    var t := SkipSpaces(s);
    LeadingSpaces(s);
    SuffixKept(s, |s| - |t|, TrimEnd(t));
  }

  /** The front of a suffix of s is a slice of s, and what follows it in s is what follows it in the suffix. */
  lemma SuffixKept(s: string, k: nat, r: string)
    requires k <= |s| && r <= s[k..]
    requires forall i :: |r| <= i < |s| - k ==> IsJsSpace(s[k..][i])
    ensures k + |r| <= |s| && r == s[k..k + |r|]
    ensures forall i :: k + |r| <= i < |s| ==> IsJsSpace(s[i])
  {
    forall i | k + |r| <= i < |s| ensures IsJsSpace(s[i]) {
      assert s[i] == s[k..][i - k];
    }
  }

  /** Nothing trim() leaves starts or ends with white space, so trimming twice is trimming once. */
  lemma TrimIdempotent(s: string)
    ensures Trim(s) != [] ==> !IsJsSpace(Trim(s)[0]) && !IsJsSpace(Trim(s)[|Trim(s)| - 1])
    ensures Trim(Trim(s)) == Trim(s)
  {
    var t := SkipSpaces(s);
    var r := TrimEnd(t);
    if r != [] {
      assert r[0] == t[0];
    }
    TrimEndIdempotent(r);
  }

  lemma {:induction false} LeadingSpaces(s: string)
    ensures forall i :: 0 <= i < |s| - |SkipSpaces(s)| ==> IsJsSpace(s[i])
  {
    if s != [] && IsJsSpace(s[0]) {
      LeadingSpaces(s[1..]);
    }
  }

  lemma TrimEndIdempotent(r: string)
    requires r != [] ==> !IsJsSpace(r[0]) && !IsJsSpace(r[|r| - 1])
    ensures Trim(r) == r
  {
  }

  // ---------------------------------------------------------------------
  // PUT /api/users/profile
  // ---------------------------------------------------------------------

  /**
   * A profile row as the profile route reads it. `userId` is the row's
   * user_id column, which registration does not fill in (None for null or
   * undefined); `id` is the key the rest of the backend uses.
   */
  datatype Account = Account(id: int, userId: Option<int>, username: string, email: Option<string>)

  /** username and email of the request body; None when undefined. */
  datatype ProfileBody = ProfileBody(username: Option<string>, email: Option<string>)

  const InvalidEmail := "Please enter a valid email"
  const UsernameTaken := "Username already taken"
  const EmailTaken := "Email already registered"

  /**
   * The validation chains: an optional username, trimmed, then the length
   * and charset checks; an optional email checked by isEmail (a parameter
   * here).
   */
  function ProfileErrors(b: ProfileBody, isEmail: string -> bool): (r: seq<FieldError>)
    ensures r == [] <==>
      ((b.username.Some? ==> UsernameErrors(Trim(b.username.value)) == [])
       && (b.email.Some? ==> isEmail(b.email.value)))
  {
    (if b.username.Some? then UsernameErrors(Trim(b.username.value)) else [])
    + (if b.email.Some? && !isEmail(b.email.value) then [FieldError("email", InvalidEmail)] else [])
  }

  /** The body the handler reads: trim() and normalizeEmail() rewrite the fields. */
  function Sanitized(b: ProfileBody, normalizeEmail: string -> string): (r: ProfileBody)
    ensures r.username.Some? <==> b.username.Some?
    ensures r.email.Some? <==> b.email.Some?
    ensures b.username.Some? ==> r.username == Some(Trim(b.username.value))
    ensures b.email.Some? ==> r.email == Some(normalizeEmail(b.email.value))
  {
    ProfileBody(
      if b.username.Some? then Some(Trim(b.username.value)) else None,
      if b.email.Some? then Some(normalizeEmail(b.email.value)) else None)
  }

  /** The column by which the route tells two accounts apart. */
  datatype Identity = ByUserIdColumn | ByIdColumn

  function IdentityOf(a: Account, key: Identity): Option<int>
  {
    if key.ByIdColumn? then Some(a.id) else a.userId
  }

  /** `existingUser && existingUser.<identity> !== currentUser.<identity>` */
  predicate HeldByOther(existing: Option<Account>, current: Account, key: Identity)
  {
    existing.Some? && IdentityOf(existing.value, key) != IdentityOf(current, key)
  }

  /** The updateData object: the columns the request changes. */
  datatype ProfileChanges = ProfileChanges(username: Option<string>, email: Option<string>)

  /**
   * A username (email) is written when it is non-empty and differs from the
   * stored one; the change is refused when the account found under the new
   * value is another one.
   */
  function PlanProfileChanges(current: Account, b: ProfileBody, byUsername: Option<Account>,
                              byEmail: Option<Account>, key: Identity): (r: Result<ProfileChanges, string>)
    ensures var newName := UserService.Given(b.username) && b.username.value != current.username;
      r == Err(UsernameTaken) <==> newName && HeldByOther(byUsername, current, key)
    ensures var newName := UserService.Given(b.username) && b.username.value != current.username;
      var newEmail := UserService.Given(b.email) && Some(b.email.value) != current.email;
      r.Ok? <==> !(newName && HeldByOther(byUsername, current, key)) && !(newEmail && HeldByOther(byEmail, current, key))
    ensures r.Ok? ==>
      && (r.value.username.Some? <==> UserService.Given(b.username) && b.username.value != current.username)
      && (r.value.username.Some? ==> r.value.username == b.username)
      && (r.value.email.Some? <==> UserService.Given(b.email) && Some(b.email.value) != current.email)
      && (r.value.email.Some? ==> r.value.email == b.email)
  {
    var newName := UserService.Given(b.username) && b.username.value != current.username;
    var newEmail := UserService.Given(b.email) && Some(b.email.value) != current.email;
    if newName && HeldByOther(byUsername, current, key) then Err(UsernameTaken)
    else if newEmail && HeldByOther(byEmail, current, key) then Err(EmailTaken)
    else Ok(ProfileChanges(if newName then b.username else None, if newEmail then b.email else None))
  }

  function Apply(a: Account, c: ProfileChanges): Account
  {
    a.(username := c.username.GetOr(a.username),
       email := if c.email.Some? then c.email else a.email)
  }

  /**
   * userService.updateUser(key, updateData): writes the row whose id is
   * `key`; a key that names no row makes `.single()` fail with `noRow`.
   */
  function UpdateRow(table: map<int, Account>, key: Option<int>, c: ProfileChanges,
                     updateError: Option<string>, noRow: string): (r: Result<Account, string>)
    ensures r.Ok? <==> updateError.None? && key.Some? && key.value in table
    ensures r.Ok? ==> r.value == Apply(table[key.value], c)
  {
    if updateError.Some? then Err(updateError.value)
    else if key.Some? && key.value in table then Ok(Apply(table[key.value], c))
    else Err(noRow)
  }

  /**
   * The profile route for the signed-in account `signedIn`: findUserById
   * reads its row, the lookups by username and by email are inputs, and
   * the write goes to the row keyed by the signed-in account's identity.
   */
  function ProfileRoute(b: ProfileBody, isEmail: string -> bool, normalizeEmail: string -> string,
                        table: map<int, Account>, signedIn: int,
                        byUsername: Option<Account>, byEmail: Option<Account>,
                        updateError: Option<string>, noRow: string, key: Identity): (r: Reply<Account>)
    ensures r.Invalid? <==> ProfileErrors(b, isEmail) != []
    ensures r.Failure? && r.status == 404 <==>
      ProfileErrors(b, isEmail) == [] && signedIn !in table
  {
    var errors := ProfileErrors(b, isEmail);
    if errors != [] then Invalid(errors)
    else if signedIn !in table then Failure(404, UserService.UserNotFound)
    else
      var current := table[signedIn];
      match PlanProfileChanges(current, Sanitized(b, normalizeEmail), byUsername, byEmail, key)
      case Err(m) => Failure(400, m)
      case Ok(c) =>
        match UpdateRow(table, IdentityOf(current, key), c, updateError, noRow)
        case Ok(a) => Success(200, a)
        case Err(m) => Forwarded(m)
  }

  /** The route as written: accounts are told apart, and written, by user_id. */
  function UpdateProfileAsWritten(b: ProfileBody, isEmail: string -> bool, normalizeEmail: string -> string,
                                  table: map<int, Account>, signedIn: int,
                                  byUsername: Option<Account>, byEmail: Option<Account>,
                                  updateError: Option<string>, noRow: string): (r: Reply<Account>)
    ensures (ProfileErrors(b, isEmail) == [] && signedIn in table && table[signedIn].userId.None?
             && updateError.None?) ==>
      (r == Forwarded(noRow)
       || (r == Failure(400, UsernameTaken) && byUsername.Some? && byUsername.value.userId.Some?)
       || (r == Failure(400, EmailTaken) && byEmail.Some? && byEmail.value.userId.Some?))
  {
    ProfileRoute(b, isEmail, normalizeEmail, table, signedIn, byUsername, byEmail, updateError, noRow, ByUserIdColumn)
  }

  /**
   * Two profiles registered by email, so with a null user_id: when the
   * first asks for the second's name, the route as written does not see the
   * name as taken and then fails on a write that matches no row, where the
   * intended route answers that the name is taken.
   */
  lemma NullUserIdHidesTheTakenName(isEmail: string -> bool, normalizeEmail: string -> string, noRow: string)
    ensures
      var me := Account(1, None, "alice", None);
      var other := Account(2, None, "bob", None);
      var table := map[1 := me, 2 := other];
      var b := ProfileBody(Some("bob"), None);
      UpdateProfileAsWritten(b, isEmail, normalizeEmail, table, 1, Some(other), None, None, noRow) == Forwarded(noRow)
      && UpdateProfile(b, isEmail, normalizeEmail, table, 1, Some(other), None, None, noRow) == Failure(400, UsernameTaken)
  {
    var b := ProfileBody(Some("bob"), None);
    UsernameErrorsExact("bob");
    assert Trim("bob") == "bob" by { TrimEndIdempotent("bob"); }
    assert ProfileErrors(b, isEmail) == [];
    assert Sanitized(b, normalizeEmail) == b;
  }

  /** Every row of the table sits under its own id. */
  predicate Keyed(table: map<int, Account>)
  {
    forall k :: k in table ==> table[k].id == k
  }

  /** The route as intended: accounts are told apart, and written, by id. */
  function UpdateProfile(b: ProfileBody, isEmail: string -> bool, normalizeEmail: string -> string,
                         table: map<int, Account>, signedIn: int,
                         byUsername: Option<Account>, byEmail: Option<Account>,
                         updateError: Option<string>, noRow: string): (r: Reply<Account>)
    ensures Keyed(table) && r.Success? ==> r.data.id == signedIn
  {
    ProfileRoute(b, isEmail, normalizeEmail, table, signedIn, byUsername, byEmail, updateError, noRow, ByIdColumn)
  }

  /**
   * The intended route writes the signed-in row: it succeeds exactly when
   * the body is valid, the row exists, neither new value is held by another
   * account and the write goes through; the name (email) it stores is the
   * sanitized one when that is new, and the stored one otherwise.
   */
  lemma UpdateProfileWritesTheSignedInRow(b: ProfileBody, isEmail: string -> bool, normalizeEmail: string -> string,
                                          table: map<int, Account>, signedIn: int,
                                          byUsername: Option<Account>, byEmail: Option<Account>,
                                          updateError: Option<string>, noRow: string)
    requires Keyed(table) && ProfileErrors(b, isEmail) == [] && signedIn in table
    ensures
      var r := UpdateProfile(b, isEmail, normalizeEmail, table, signedIn, byUsername, byEmail, updateError, noRow);
      var s := Sanitized(b, normalizeEmail);
      var me := table[signedIn];
      var newName := UserService.Given(s.username) && s.username.value != me.username;
      var newEmail := UserService.Given(s.email) && Some(s.email.value) != me.email;
      var nameClash := newName && byUsername.Some? && byUsername.value.id != signedIn;
      var emailClash := newEmail && byEmail.Some? && byEmail.value.id != signedIn;
      (r == Failure(400, UsernameTaken) <==> nameClash)
      && (r == Failure(400, EmailTaken) <==> !nameClash && emailClash)
      && (r.Success? <==> !nameClash && !emailClash && updateError.None?)
      && (r.Success? ==>
            r.data.id == signedIn && r.data.userId == me.userId
            && r.data.username == (if newName then s.username.value else me.username)
            && r.data.email == (if newEmail then s.email else me.email))
  {
  }

  // ---------------------------------------------------------------------
  // PUT /api/users/preferences
  // ---------------------------------------------------------------------

  /** The four optional preference fields of the request body; None when undefined. */
  datatype PreferencesBody = PreferencesBody(soundEnabled: Option<JsonValue>, musicEnabled: Option<JsonValue>,
                                             volume: Option<JsonValue>, graphicsQuality: Option<JsonValue>)

  /**
   * isBoolean(): the text of the value is one of "true", "false", "1", "0".
   * null reads as "", a fractional number and an object never match.
   */
  predicate IsBooleanValue(v: JsonValue)
  {
    match v
    case JBool(_) => true
    case JInt(i) => i == 0 || i == 1
    case JString(s) => s == "true" || s == "false" || s == "1" || s == "0"
    case _ => false
  }

  /** The integer a text written as an optional sign and decimal digits stands for. */
  function SignedInteger(s: string): (r: Option<int>)
    ensures r.Some? <==> (|s| >= 1 && AllDigits(s)) || (|s| >= 2 && (s[0] == '+' || s[0] == '-') && AllDigits(s[1..]))
    ensures |s| >= 1 && s[0] != '+' ==> r == ParseDecimal(s)
    ensures |s| >= 1 && s[0] == '+' && r.Some? ==> r.value >= 0 && ParseDecimal(s[1..]) == r
  {
    if |s| >= 2 && (s[0] == '+' || s[0] == '-') && AllDigits(s[1..]) then
      Some(if s[0] == '-' then -(DigitsValue(s[1..]) as int) else DigitsValue(s[1..]))
    else if |s| >= 1 && AllDigits(s) then Some(DigitsValue(s))
    else None
  }

  /** Every integer's decimal text reads back as that integer, and so does a non-negative one written with '+'. */
  lemma SignedIntegerReadsPrinted(i: int)
    ensures SignedInteger(IntToString(i)) == Some(i)
    ensures i >= 0 ==> SignedInteger("+" + IntToString(i)) == Some(i)
  {
    IntToStringRoundTrip(i);
    if i >= 0 {
      var t := IntToString(i);
      assert ("+" + t)[1..] == t;
    }
  }

  /** isInt({ min, max }): an integer text, leading zeros allowed, within the bounds. */
  predicate IsIntBetween(v: JsonValue, min: int, max: int)
  {
    match v
    case JInt(i) => min <= i <= max
    case JString(s) => SignedInteger(s).Some? && min <= SignedInteger(s).value <= max
    case _ => false
  }

  /** isIn(['low', 'medium', 'high', 'ultra']). */
  predicate IsQuality(v: JsonValue)
  {
    v.JString? && v.s in ["low", "medium", "high", "ultra"]
  }

  function Check(field: string, v: Option<JsonValue>, ok: bool, message: string): (r: seq<FieldError>)
    ensures |r| <= 1 && forall e :: e in r ==> e == FieldError(field, message)
    ensures FieldError(field, message) in r <==> v.Some? && !ok
  {
    if v.Some? && !ok then [FieldError(field, message)] else []
  }

  function PreferenceErrors(b: PreferencesBody): (r: seq<FieldError>)
    ensures |r| <= 4
    ensures forall i, j :: 0 <= i < j < |r| ==> r[i].field != r[j].field
    ensures FieldError("soundEnabled", "Sound enabled must be a boolean") in r
            <==> b.soundEnabled.Some? && !IsBooleanValue(b.soundEnabled.value)
    ensures FieldError("musicEnabled", "Music enabled must be a boolean") in r
            <==> b.musicEnabled.Some? && !IsBooleanValue(b.musicEnabled.value)
    ensures FieldError("volume", "Volume must be between 0 and 100") in r
            <==> b.volume.Some? && !IsIntBetween(b.volume.value, 0, 100)
    ensures FieldError("graphicsQuality", "Graphics quality must be low, medium, high, or ultra") in r
            <==> b.graphicsQuality.Some? && !IsQuality(b.graphicsQuality.value)
  {
    var sound := Check("soundEnabled", b.soundEnabled, b.soundEnabled.Some? && IsBooleanValue(b.soundEnabled.value),
                       "Sound enabled must be a boolean");
    var music := Check("musicEnabled", b.musicEnabled, b.musicEnabled.Some? && IsBooleanValue(b.musicEnabled.value),
                       "Music enabled must be a boolean");
    var volume := Check("volume", b.volume, b.volume.Some? && IsIntBetween(b.volume.value, 0, 100),
                        "Volume must be between 0 and 100");
    var quality := Check("graphicsQuality", b.graphicsQuality,
                         b.graphicsQuality.Some? && IsQuality(b.graphicsQuality.value),
                         "Graphics quality must be low, medium, high, or ultra");
    FieldsDistinct(sound, music, volume, quality);
    sound + music + volume + quality
  }

  /** Four checks of four different fields report each field at most once. */
  lemma FieldsDistinct(a: seq<FieldError>, b: seq<FieldError>, c: seq<FieldError>, d: seq<FieldError>)
    requires |a| <= 1 && |b| <= 1 && |c| <= 1 && |d| <= 1
    requires forall e :: e in a ==> e.field == "soundEnabled"
    requires forall e :: e in b ==> e.field == "musicEnabled"
    requires forall e :: e in c ==> e.field == "volume"
    requires forall e :: e in d ==> e.field == "graphicsQuality"
    ensures forall i, j :: 0 <= i < j < |a + b + c + d| ==> (a + b + c + d)[i].field != (a + b + c + d)[j].field
    ensures forall e :: e in a + b + c + d ==>
      && (e.field == "soundEnabled" ==> e in a) && (e.field == "musicEnabled" ==> e in b)
      && (e.field == "volume" ==> e in c) && (e.field == "graphicsQuality" ==> e in d)
  {
    var r := a + b + c + d;
    forall i, j | 0 <= i < j < |r|
      ensures r[i].field != r[j].field
    {
      var x, y := r[i], r[j];
      assert x in r && y in r;
    }
  }

  function Column(m: map<string, JsonValue>, key: string, v: Option<JsonValue>): map<string, JsonValue>
  {
    if v.Some? then m[key := v.value] else m
  }

  /** updateData: a column for every field the body defines, holding its value as sent. */
  function PreferenceColumns(b: PreferencesBody): (r: map<string, JsonValue>)
  {
    Column(Column(Column(Column(map[], "sound_enabled", b.soundEnabled),
                         "music_enabled", b.musicEnabled),
                  "volume", b.volume),
           "graphics_quality", b.graphicsQuality)
  }

  /** The preferences object of the reply; None where the row lacks the column. */
  datatype PreferencesView = PreferencesView(soundEnabled: Option<JsonValue>, musicEnabled: Option<JsonValue>,
                                             volume: Option<JsonValue>, graphicsQuality: Option<JsonValue>)

  function Read(row: map<string, JsonValue>, key: string): Option<JsonValue>
  {
    if key in row then Some(row[key]) else None
  }

  function PreferencesOf(row: map<string, JsonValue>): PreferencesView
  {
    PreferencesView(Read(row, "sound_enabled"), Read(row, "music_enabled"),
                    Read(row, "volume"), Read(row, "graphics_quality"))
  }

  /**
   * The preferences route: `update` is updateUser on the signed-in account,
   * which writes the columns it is given and answers with the row the
   * database returns (typed columns convert what they store), or with the
   * error it throws. The reply reads the preferences from that row.
   */
  function UpdatePreferences(b: PreferencesBody, update: map<string, JsonValue> -> Result<map<string, JsonValue>, string>)
    : (r: Reply<PreferencesView>)
    ensures r.Invalid? <==> PreferenceErrors(b) != []
    ensures r.Forwarded? <==> PreferenceErrors(b) == [] && update(PreferenceColumns(b)).Err?
    ensures r.Forwarded? ==> r.message == update(PreferenceColumns(b)).error
    ensures r.Success? ==> r.status == 200 && r.data == PreferencesOf(update(PreferenceColumns(b)).value)
  {
    var errors := PreferenceErrors(b);
    if errors != [] then Invalid(errors)
    else match update(PreferenceColumns(b))
      case Err(m) => Forwarded(m)
      case Ok(updated) => Success(200, PreferencesOf(updated))
  }

  /**
   * updateData holds exactly the fields the body defines, each under its
   * column name with the value sent.
   */
  lemma PreferenceColumnsExact(b: PreferencesBody)
    ensures ("sound_enabled" in PreferenceColumns(b) <==> b.soundEnabled.Some?)
            && ("music_enabled" in PreferenceColumns(b) <==> b.musicEnabled.Some?)
            && ("volume" in PreferenceColumns(b) <==> b.volume.Some?)
            && ("graphics_quality" in PreferenceColumns(b) <==> b.graphicsQuality.Some?)
    ensures PreferenceColumns(b).Keys <= {"sound_enabled", "music_enabled", "volume", "graphics_quality"}
    ensures b.soundEnabled.Some? ==> PreferenceColumns(b)["sound_enabled"] == b.soundEnabled.value
    ensures b.musicEnabled.Some? ==> PreferenceColumns(b)["music_enabled"] == b.musicEnabled.value
    ensures b.volume.Some? ==> PreferenceColumns(b)["volume"] == b.volume.value
    ensures b.graphicsQuality.Some? ==> PreferenceColumns(b)["graphics_quality"] == b.graphicsQuality.value
  {
  }

  /**
   * A valid request changes only the preferences it names: with a database
   * that stores each written value as sent and keeps the other columns, the
   * reply shows each given value and the stored value of every other
   * preference.
   */
  lemma PreferencesKeepWhatIsNotSent(b: PreferencesBody, stored: map<string, JsonValue>,
                                     update: map<string, JsonValue> -> Result<map<string, JsonValue>, string>)
    requires PreferenceErrors(b) == []
    requires update(PreferenceColumns(b)) == Ok(stored + PreferenceColumns(b))
    ensures
      var r := UpdatePreferences(b, update);
      r.Success? && r.status == 200
      && r.data.soundEnabled == (if b.soundEnabled.Some? then b.soundEnabled else Read(stored, "sound_enabled"))
      && r.data.musicEnabled == (if b.musicEnabled.Some? then b.musicEnabled else Read(stored, "music_enabled"))
      && r.data.volume == (if b.volume.Some? then b.volume else Read(stored, "volume"))
      && r.data.graphicsQuality ==
           (if b.graphicsQuality.Some? then b.graphicsQuality else Read(stored, "graphics_quality"))
  {
    PreferenceColumnsExact(b);
  }

  /**
   * What the validators accept: booleans in any of their text forms, a
   * volume that is an integer from 0 to 100, and one of the four quality
   * names; every defined field that fails is reported under its own name.
   */
  lemma PreferenceErrorsExact(b: PreferencesBody)
    ensures PreferenceErrors(b) == [] <==>
      ((b.soundEnabled.Some? ==> IsBooleanValue(b.soundEnabled.value))
       && (b.musicEnabled.Some? ==> IsBooleanValue(b.musicEnabled.value))
       && (b.volume.Some? ==> IsIntBetween(b.volume.value, 0, 100))
       && (b.graphicsQuality.Some? ==> IsQuality(b.graphicsQuality.value)))
    ensures b.volume == Some(JString("+007")) ==> FieldError("volume", "Volume must be between 0 and 100") !in PreferenceErrors(b)
    ensures b.volume == Some(JInt(101)) ==> FieldError("volume", "Volume must be between 0 and 100") in PreferenceErrors(b)
    ensures b.soundEnabled == Some(JNull) ==> PreferenceErrors(b) != []
  {
    PlusSevenIsAVolume();
  }

  lemma PlusSevenIsAVolume()
    ensures IsIntBetween(JString("+007"), 0, 100)
  {
    assert AllDigits("+007"[1..]);
    assert DigitsValue("007") == 7 by {
      assert "007"[..2] == "00";
      assert "00"[..1] == "0";
      assert "0"[..0] == "";
    }
  }
}
