/**
 * The User document (server/models/User.js): the validators of its fields,
 * the pre-save hook that hashes the password, and the `friendCount` virtual.
 *
 * Mongoose runs validation before any user pre-save hook, collects at most one
 * error per path (the first failing validator in declaration order, `required`
 * first), and after a successful save marks the document as no longer new with
 * no modified paths. `bcrypt.hash` is a parameter of type Hasher.
 */
module UserModel {
  import opened Wrappers
  import opened JsString

  /** `minlength` of the password, in JavaScript `.length` units. */
  const PasswordMinLength: nat := 5

  /** The cost factor handed to `bcrypt.hash`. */
  const SaltRounds: nat := 10

  /**
   * `bcrypt.hash(data, saltRounds)` with one random salt drawn: the library
   * picks a fresh salt on every call, so a Hasher stands for one such choice.
   */
  type Hasher = (string, nat) -> string

  /** A reference to another document. */
  type ObjectId = string

  // ---------------------------------------------------------------------------
  // The email pattern /.+@.+\..+/

  /** `.` of a pattern without the s flag matches each of s[lo..hi]: none of them is a line terminator. */
  predicate DotsIn(s: string, lo: int, hi: int)
    requires 0 <= lo <= hi <= |s|
  {
    forall k :: lo <= k < hi ==> !IsLineTerminator(s[k])
  }

  /**
   * `.+@.+\..+` matches the piece s[a..e] as a whole: it is X + "@" + Y + "." + Z
   * with X = s[a..i], Y = s[i+1..j] and Z = s[j+1..e] each a non-empty `.+`.
   */
  ghost predicate MatchesIn(s: string, a: int, e: int)
    requires 0 <= a <= e <= |s|
  {
    exists i, j | a < i && i + 1 < j && j + 1 < e ::
      s[i] == '@' && s[j] == '.' && DotsIn(s, a, i) && DotsIn(s, i + 1, j) && DotsIn(s, j + 1, e)
  }

  /** The unanchored pattern `/.+@.+\..+/` matches s: it matches some piece of s. */
  ghost predicate MatchesEmailPattern(s: string)
    ensures MatchesEmailPattern(s) ==> |s| >= 5 && '@' in s && '.' in s
  {
    exists a, e | 0 <= a <= e <= |s| :: MatchesIn(s, a, e)
  }

  /**
   * The test the validator performs, stated on positions: an '@' at i with a
   * non-line-terminator before it, and a '.' at j, at least two places later,
   * with only non-line-terminators between them and one after it.
   */
  predicate IsEmailAddress(s: string)
    ensures IsEmailAddress(s) ==> |s| >= 5 && '@' in s && '.' in s
  {
    exists i, j | 1 <= i < |s| && 0 <= j < |s| && i + 2 <= j && j + 2 <= |s| ::
      s[i] == '@' && s[j] == '.' && DotsIn(s, i - 1, i) && DotsIn(s, i + 1, j) && DotsIn(s, j + 1, j + 2)
  }

  /** The position test accepts exactly the strings the regular expression matches. */
  lemma IsEmailAddressMatchesPattern(s: string)
    ensures IsEmailAddress(s) <==> MatchesEmailPattern(s)
  {
    if IsEmailAddress(s) {
      var i, j :| 1 <= i < |s| && 0 <= j < |s| && i + 2 <= j && j + 2 <= |s|
        && s[i] == '@' && s[j] == '.' && DotsIn(s, i - 1, i) && DotsIn(s, i + 1, j) && DotsIn(s, j + 1, j + 2);
      assert MatchesIn(s, i - 1, j + 2);
    }
    if MatchesEmailPattern(s) {
      var a, e :| 0 <= a <= e <= |s| && MatchesIn(s, a, e);
      var i, j :| a < i && i + 1 < j && j + 1 < e
        && s[i] == '@' && s[j] == '.' && DotsIn(s, a, i) && DotsIn(s, i + 1, j) && DotsIn(s, j + 1, e);
      assert DotsIn(s, i - 1, i) && DotsIn(s, j + 1, j + 2);
    }
  }

  /** Some examples of what the pattern accepts and refuses; it is not anchored. */
  lemma EmailPatternExamples()
    ensures IsEmailAddress("a@b.c")
    ensures IsEmailAddress("say a@b.c here")
    ensures !IsEmailAddress("a@b")
    ensures !IsEmailAddress("@b.c")
    ensures !IsEmailAddress("a@.c")
  {
    var s := "a@b.c";
    assert s[1] == '@' && s[3] == '.' && DotsIn(s, 0, 1) && DotsIn(s, 2, 3) && DotsIn(s, 4, 5);
    var w := "say a@b.c here";
    assert w[5] == '@' && w[7] == '.' && DotsIn(w, 4, 5) && DotsIn(w, 6, 7) && DotsIn(w, 8, 9);
  }

  // ---------------------------------------------------------------------------
  // Validation

  /** The validated paths of the schema. */
  datatype Path = Username | Email | Password

  /** The Mongoose validators the schema declares. */
  datatype Validator = Required | Match | MinLength

  /** `required` on a string path: the value is defined and not empty. */
  predicate Present(v: Option<string>) {
    v.Some? && v.value != ""
  }

  /** The failing validator of `username` (`required: true`), if any. */
  function UsernameError(v: Option<string>): Option<Validator> {
    if !Present(v) then Some(Required) else None
  }

  /** The failing validator of `email` (`required: true`, then `match`), if any. */
  function EmailError(v: Option<string>): Option<Validator> {
    if !Present(v) then Some(Required)
    else if !IsEmailAddress(v.value) then Some(Match)
    else None
  }

  /** The failing validator of `password` (`required: true`, then `minlength: 5`), if any. */
  function PasswordError(v: Option<string>): Option<Validator> {
    if !Present(v) then Some(Required)
    else if Utf16Length(v.value) < PasswordMinLength then Some(MinLength)
    else None
  }

  /** The state of a user document: its stored fields and Mongoose's change tracking. */
  datatype UserState = UserState(
    username: Option<string>,
    email: Option<string>,
    password: Option<string>,
    thoughts: seq<ObjectId>,
    friends: seq<ObjectId>,
    isNew: bool,
    passwordModified: bool)

  /**
   * The validation errors of a document, one per failing path. A path fails
   * exactly when its value is missing or empty, or (email) does not match the
   * pattern, or (password) is shorter than five `.length` units; a missing
   * value reports `required` rather than the later validator.
   */
  function ValidationErrors(s: UserState): (errs: map<Path, Validator>)
    ensures Username in errs <==> !Present(s.username)
    ensures Email in errs <==> !(Present(s.email) && MatchesEmailPattern(s.email.value))
    ensures Password in errs <==> !(Present(s.password) && Utf16Length(s.password.value) >= 5)
    ensures forall p :: p in errs && errs[p] != Required ==>
              (p == Email && errs[p] == Match) || (p == Password && errs[p] == MinLength)
    ensures forall p :: p in errs ==>
              (errs[p] == Required <==> !Present(match p case Username => s.username
                                                         case Email => s.email
                                                         case Password => s.password))
  {
    var address := if s.email.Some? then s.email.value else "";
    IsEmailAddressMatchesPattern(address);
    var u := UsernameError(s.username);
    var e := EmailError(s.email);
    var p := PasswordError(s.password);
    (if u.Some? then map[Username := u.value] else map[])
    + (if e.Some? then map[Email := e.value] else map[])
    + (if p.Some? then map[Password := p.value] else map[])
  }

  /** Validation passes exactly when each field is present and the email and password pass their checks. */
  predicate IsValid(s: UserState) {
    ValidationErrors(s) == map[]
  }

  /** A document is valid exactly when every field is present and email and password pass their checks. */
  lemma IsValidIff(s: UserState)
    ensures IsValid(s) <==>
              Present(s.username)
              && Present(s.email) && MatchesEmailPattern(s.email.value)
              && Present(s.password) && Utf16Length(s.password.value) >= PasswordMinLength
  {
    var errs := ValidationErrors(s);
    if Username !in errs && Email !in errs && Password !in errs {
      assert forall p: Path :: p !in errs;
      assert errs == map[];
    }
  }

  /** A password of four characters is refused, one of five accepted. */
  lemma PasswordLengthExamples(s: UserState)
    requires Present(s.username) && s.email == Some("a@b.c")
    ensures !IsValid(s.(password := Some("abcd")))
    ensures IsValid(s.(password := Some("abcde")))
  {
    var e := "a@b.c";
    assert e[1] == '@' && e[3] == '.' && DotsIn(e, 0, 1) && DotsIn(e, 2, 3) && DotsIn(e, 4, 5);
    IsEmailAddressMatchesPattern(e);
    Utf16LengthOfBmp("abcd");
    Utf16LengthOfBmp("abcde");
    IsValidIff(s.(password := Some("abcd")));
    IsValidIff(s.(password := Some("abcde")));
  }

  // ---------------------------------------------------------------------------
  // Creating, changing and saving a document

  /** The fields handed to `new User({...})`; any of them may be missing. */
  datatype UserInput = UserInput(username: Option<string>, email: Option<string>, password: Option<string>)

  /** The `trim: true` setter of `username`. */
  function SetUsername(v: Option<string>): (r: Option<string>)
    ensures r.Some? <==> v.Some?
    ensures r.Some? ==> r.value == Trim(v.value) && Trimmed(r.value)
  {
    match v
    case None => None
    case Some(name) => Some(Trim(name))
  }

  /** A new, unsaved document: the username trimmed, no thoughts or friends, and `isNew` set. */
  function NewDocument(input: UserInput): (s: UserState)
    ensures s.isNew
    ensures s.username == SetUsername(input.username)
    ensures s.username.Some? ==> Trimmed(s.username.value)
    ensures s.email == input.email && s.password == input.password
    ensures s.passwordModified <==> input.password.Some?
    ensures s.thoughts == [] && s.friends == []
  {
    UserState(SetUsername(input.username), input.email, input.password, [], [], true, input.password.Some?)
  }

  /** A username of white space only trims to the empty string, which `required` refuses. */
  lemma BlankUsernameIsRequired(input: UserInput)
    requires input.username.Some? && AllWhiteSpace(input.username.value)
    ensures NewDocument(input).username == Some("")
    ensures Username in ValidationErrors(NewDocument(input))
  {
    TrimOfWhiteSpace(input.username.value);
  }

  /**
   * `doc.password = p`, with Mongoose's change tracking: the path is marked
   * modified when the document is new or the value differs from the stored one.
   */
  function AssignPassword(s: UserState, p: string): (t: UserState)
    ensures t.password == Some(p)
    ensures t.passwordModified <==> s.passwordModified || s.isNew || s.password != Some(p)
    ensures t.username == s.username && t.email == s.email && t.isNew == s.isNew
    ensures t.thoughts == s.thoughts && t.friends == s.friends
  {
    if s.isNew || s.password != Some(p) then s.(password := Some(p), passwordModified := true)
    else s
  }

  /** The password once the pre-save hook has run: hashed when the document is new or the password was modified. */
  function HookedPassword(s: UserState, hash: Hasher): (r: Option<string>)
    requires s.password.Some?
    ensures s.isNew || s.passwordModified ==> r == Some(hash(s.password.value, SaltRounds))
    ensures !s.isNew && !s.passwordModified ==> r == s.password
  {
    if s.isNew || s.passwordModified then Some(hash(s.password.value, SaltRounds)) else s.password
  }

  /** What `save()` reports. The hook always calls `next()`, so a valid document is always saved. */
  datatype SaveResult = Saved | Invalid(errors: map<Path, Validator>)

  datatype SaveOutcome = SaveOutcome(state: UserState, result: SaveResult)

  /**
   * `doc.save()`: an invalid document is refused unchanged; a valid one passes
   * through the pre-save hook and is stored, no longer new and with no modified path.
   */
  function SaveDocument(s: UserState, hash: Hasher): (o: SaveOutcome)
    ensures o.result == Saved <==> IsValid(s)
    ensures o.result != Saved ==> o == SaveOutcome(s, Invalid(ValidationErrors(s)))
    ensures o.result == Saved ==> !o.state.isNew && !o.state.passwordModified
  {
    var errs := ValidationErrors(s);
    if errs != map[] then SaveOutcome(s, Invalid(errs))
    else SaveOutcome(s.(password := HookedPassword(s, hash), isNew := false, passwordModified := false), Saved)
  }

  /**
   * Saving a valid document stores `hash(password, 10)` in place of the password
   * exactly when the document is new or its password was modified, keeps it
   * otherwise, changes no other field, and always completes.
   */
  lemma SaveHashesIffNewOrModified(s: UserState, hash: Hasher)
    requires IsValid(s)
    ensures SaveDocument(s, hash).result == Saved
    ensures SaveDocument(s, hash).state.password
         == if s.isNew || s.passwordModified then Some(hash(s.password.value, 10)) else s.password
    ensures var t := SaveDocument(s, hash).state;
            t.username == s.username && t.email == s.email
            && t.thoughts == s.thoughts && t.friends == s.friends
    ensures !SaveDocument(s, hash).state.isNew && !SaveDocument(s, hash).state.passwordModified
  {
  }

  /** Saving an invalid document changes nothing and reports every failing path. */
  lemma SaveRefusesInvalid(s: UserState, hash: Hasher)
    requires !IsValid(s)
    ensures SaveDocument(s, hash) == SaveOutcome(s, Invalid(ValidationErrors(s)))
  {
  }

  /** Saving an existing document whose password is unmodified leaves the password as it is. */
  lemma SaveUnmodifiedKeepsPassword(s: UserState, hash: Hasher)
    requires !s.isNew && !s.passwordModified
    ensures SaveDocument(s, hash).state.password == s.password
  {
  }

  /** `n` saves in a row, with nothing changed in between. */
  function SaveRepeatedly(s: UserState, hash: Hasher, n: nat): UserState
    decreases n
  {
    if n == 0 then s else SaveRepeatedly(SaveDocument(s, hash).state, hash, n - 1)
  }

  /** Saving again after a save changes nothing: the password is hashed at most once. */
  lemma {:induction false} RepeatedSavesDoNotRehash(s: UserState, hash: Hasher, n: nat)
    requires n >= 1
    ensures SaveRepeatedly(s, hash, n) == SaveDocument(s, hash).state
    decreases n
  {
    var t := SaveDocument(s, hash).state;
    if n > 1 {
      assert SaveDocument(t, hash).state == t;
      RepeatedSavesDoNotRehash(t, hash, n - 1);
    }
  }

  /**
   * Assigning a new password to a stored document and saving it stores the hash
   * of the new password (if it validates); assigning the stored value again does
   * not mark it modified, so the save keeps it.
   */
  lemma AssignThenSave(s: UserState, p: string, hash: Hasher)
    requires !s.isNew && !s.passwordModified
    ensures s.password == Some(p) ==> SaveDocument(AssignPassword(s, p), hash).state.password == s.password
    ensures s.password != Some(p) && IsValid(AssignPassword(s, p)) ==>
              SaveDocument(AssignPassword(s, p), hash).state.password == Some(hash(p, SaltRounds))
  {
  }

  // ---------------------------------------------------------------------------
  // The JSON view

  /** A document as `toJSON({virtuals: true})` renders it: the stored fields and the `friendCount` virtual. */
  datatype UserJson = UserJson(
    username: Option<string>,
    email: Option<string>,
    password: Option<string>,
    thoughts: seq<ObjectId>,
    friends: seq<ObjectId>,
    friendCount: nat)

  /** The rendered document: every stored field as stored, and `friendCount` the length of `friends`. */
  function ToJson(s: UserState): (j: UserJson)
    ensures j.friendCount == |s.friends| && j.friends == s.friends
    ensures j.username == s.username && j.email == s.email && j.password == s.password
    ensures j.thoughts == s.thoughts
  {
    UserJson(s.username, s.email, s.password, s.thoughts, s.friends, |s.friends|)
  }

  /** `friendCount` is derived: saving a document never changes it. */
  lemma SaveKeepsFriendCount(s: UserState, hash: Hasher)
    ensures ToJson(SaveDocument(s, hash).state).friendCount == ToJson(s).friendCount
  {
  }

  // ---------------------------------------------------------------------------
  // The document object

  /** A Mongoose user document, updated in place by assignment, the hook and `save()`. */
  class UserDocument {
    var username: Option<string>
    var email: Option<string>
    var password: Option<string>
    var thoughts: seq<ObjectId>
    var friends: seq<ObjectId>
    var isNew: bool
    var passwordModified: bool

    /** The document's state as a value. */
    function State(): UserState
      reads this
    {
      UserState(username, email, password, thoughts, friends, isNew, passwordModified)
    }

    /** `new User(input)`. */
    constructor (input: UserInput)
      ensures State() == NewDocument(input)
    {
      username := SetUsername(input.username);
      email := input.email;
      password := input.password;
      thoughts := [];
      friends := [];
      isNew := true;
      passwordModified := input.password.Some?;
    }

    /** `doc.password = p`. */
    method SetPassword(p: string)
      modifies this
      ensures State() == AssignPassword(old(State()), p)
    {
      if isNew || password != Some(p) {
        password := Some(p);
        passwordModified := true;
      }
    }

    /** The pre-save hook: rehash only a new document or a modified password, then continue. */
    method PreSave(hash: Hasher)
      requires password.Some?
      modifies this`password
      ensures password == HookedPassword(old(State()), hash)
    {
      if isNew || passwordModified {
        password := Some(hash(password.value, SaltRounds));
      }
    }

    /** `doc.save()`: validate, run the hook, and reset the change tracking. */
    method Save(hash: Hasher) returns (r: SaveResult)
      modifies this
      ensures SaveOutcome(State(), r) == SaveDocument(old(State()), hash)
    {
      var errs := ValidationErrors(State());
      if errs != map[] {
        return Invalid(errs);
      }
      PreSave(hash);
      isNew := false;
      passwordModified := false;
      return Saved;
    }

    /** The `friendCount` virtual getter. */
    function FriendCount(): (n: nat)
      reads this
      ensures n == ToJson(State()).friendCount
    {
      |friends|
    }
  }
}
