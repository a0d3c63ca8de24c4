/**
 * artisanapp/static/auth.js: the browser-side `AuthSystem`, which keeps registered users and the
 * signed-in session in `localStorage`. Storage is a map from key to stored value; a value the
 * source writes with `JSON.stringify` is held as the structure itself.
 */
module BrowserAuth {

  import opened Basics

  /** A registered user, as `signup` stores it (the password in plain text, as the source does). */
  datatype Account = Account(email: string, password: string, fullName: string, role: string, createdAt: string)

  /** The signed-in user, as `login` stores it under the user key. */
  datatype SessionUser = SessionUser(email: string, fullName: string, role: string)

  /** What a `localStorage` key holds: plain text, the JSON table of users, or the JSON session user. */
  datatype Stored = Text(text: string) | Accounts(table: map<string, Account>) | Signed(user: SessionUser)

  const Prefix: string := "artisanedge_"
  const UsersKey: string := Prefix + "users"
  const UserKey: string := Prefix + "user"
  const LoggedInKey: string := Prefix + "isLoggedIn"
  const RoleKey: string := Prefix + "userRole"
  const RedirectKey: string := Prefix + "redirectUrl"

  /** The four keys of the signed-in session, which `logout` removes. */
  function SessionKeys(): set<string> {
    {LoggedInKey, UserKey, RoleKey, RedirectKey}
  }

  /** The table of registered users is none of the session keys, so signing out keeps it. */
  lemma KeysDistinct()
    ensures UsersKey !in SessionKeys()
    ensures |SessionKeys()| == 4
  {
    assert UsersKey[13] == 's' && UserKey[..12] == Prefix && |UserKey| == 16;
    assert LoggedInKey[12] == 'i' && RoleKey[12] == 'u' && RedirectKey[12] == 'r';
    assert |UsersKey| == 17 && |RoleKey| == 20 && |LoggedInKey| == 22 && |RedirectKey| == 23;
  }

  /** `JSON.parse(localStorage.getItem(users) || '{}')`: the registered users, none if absent. */
  function UsersIn(storage: map<string, Stored>): map<string, Account> {
    if UsersKey in storage && storage[UsersKey].Accounts? then storage[UsersKey].table else map[]
  }

  /** `isLoggedIn()`: the flag holds exactly the text "true". */
  predicate LoggedInIn(storage: map<string, Stored>) {
    LoggedInKey in storage && storage[LoggedInKey] == Text("true")
  }

  /** `getCurrentUser()`: null when signed out, else the stored session user, if any. */
  function CurrentUserIn(storage: map<string, Stored>): (r: Option<SessionUser>)
    ensures !LoggedInIn(storage) ==> r.None?
  {
    if !LoggedInIn(storage) then None
    else if UserKey in storage && storage[UserKey].Signed? then Some(storage[UserKey].user)
    else None
  }

  /** `getUserRole()`: null when signed out, else the stored role, if any. */
  function RoleIn(storage: map<string, Stored>): (r: Option<string>)
    ensures !LoggedInIn(storage) ==> r.None?
  {
    if !LoggedInIn(storage) then None
    else if RoleKey in storage && storage[RoleKey].Text? then Some(storage[RoleKey].text)
    else None
  }

  /** `localStorage.getItem(redirectUrl)`. */
  function RedirectIn(storage: map<string, Stored>): Option<string> {
    if RedirectKey in storage && storage[RedirectKey].Text? then Some(storage[RedirectKey].text) else None
  }

  /** The storage after a successful login of `a`: flag, session user and role are written. */
  function SignedIn(storage: map<string, Stored>, a: Account): map<string, Stored> {
    storage[LoggedInKey := Text("true")][UserKey := Signed(SessionUser(a.email, a.fullName, a.role))][RoleKey := Text(a.role)]
  }

  /** `login` accepts exactly a non-empty email that is registered with this exact password. */
  predicate LoginAccepts(storage: map<string, Stored>, email: string, password: string) {
    Filled(email) && Filled(password) && email in UsersIn(storage) && UsersIn(storage)[email].password == password
  }

  /**
   * After a login the session reads back: signed in, as that user, with that role, and the
   * registered users untouched.
   */
  lemma SignedInReadsBack(storage: map<string, Stored>, a: Account)
    ensures var after := SignedIn(storage, a);
      && LoggedInIn(after)
      && CurrentUserIn(after) == Some(SessionUser(a.email, a.fullName, a.role))
      && RoleIn(after) == Some(a.role)
      && UsersIn(after) == UsersIn(storage)
      && RedirectIn(after) == RedirectIn(storage)
  {
    KeysDistinct();
  }

  /** After a logout nobody is signed in, no redirect is pending, and every registered user remains. */
  lemma SignedOutReadsBack(storage: map<string, Stored>)
    ensures var after := storage - SessionKeys();
      && !LoggedInIn(after) && CurrentUserIn(after).None? && RoleIn(after).None? && RedirectIn(after).None?
      && UsersIn(after) == UsersIn(storage)
  {
    KeysDistinct();
  }

  /** A stored redirect is read back once: `getRedirectUrl` after `setRedirectUrl(u)` gives `u`, then null. */
  lemma RedirectGetAndClear(storage: map<string, Stored>, url: string)
    ensures RedirectIn(storage[RedirectKey := Text(url)]) == Some(url)
    ensures RedirectIn(storage[RedirectKey := Text(url)] - {RedirectKey}) == None
  {
  }

  /** JavaScript's `\s`: the ECMAScript white space and line terminators. */
  predicate IsJsSpace(c: char) {
    var n := c as int;
    0x09 <= n <= 0x0D || n == 0x20 || n == 0xA0 || n == 0x1680 || 0x2000 <= n <= 0x200A
    || n == 0x2028 || n == 0x2029 || n == 0x202F || n == 0x205F || n == 0x3000 || n == 0xFEFF
  }

  /** `[^\s@]`. */
  predicate Plain(c: char) {
    !IsJsSpace(c) && c != '@'
  }

  /** Every character of `s[lo..hi]` is `[^\s@]`. */
  predicate PlainRun(s: string, lo: int, hi: int)
    requires 0 <= lo <= hi <= |s|
  {
    forall k :: lo <= k < hi ==> Plain(s[k])
  }

  /**
   * `validateEmail`: the whole string matches `^[^\s@]+@[^\s@]+\.[^\s@]+$`, that is, it splits
   * at an '@' (position i) and a later '.' (position j) into three non-empty runs of `[^\s@]`.
   */
  predicate ValidateEmail(s: string) {
    exists i, j | 0 < i && i + 1 < j && j + 1 < |s| ::
      s[i] == '@' && s[j] == '.' && PlainRun(s, 0, i) && PlainRun(s, i + 1, j) && PlainRun(s, j + 1, |s|)
  }

  /** How many times `c` occurs in `s`. */
  function Count(s: string, c: char): nat {
    if s == [] then 0 else Count(s[..|s| - 1], c) + (if s[|s| - 1] == c then 1 else 0)
  }

  lemma {:induction false} CountAppend(a: string, b: string, c: char)
    ensures Count(a + b, c) == Count(a, c) + Count(b, c)
    decreases |b|
  {
    if b == [] {
      assert a + b == a;
    } else {
      assert (a + b)[..|a + b| - 1] == a + b[..|b| - 1];
      CountAppend(a, b[..|b| - 1], c);
    }
  }

  lemma {:induction false} CountNone(s: string, c: char)
    requires forall k :: 0 <= k < |s| ==> s[k] != c
    ensures Count(s, c) == 0
  {
    if s != [] {
      CountNone(s[..|s| - 1], c);
    }
  }

  lemma {:induction false} CountPositive(s: string, c: char, k: int)
    requires 0 <= k < |s| && s[k] == c
    ensures Count(s, c) >= 1
  {
    if k < |s| - 1 {
      CountPositive(s[..|s| - 1], c, k);
    }
  }

  /** A character that occurs once in `s` sits at one position only. */
  lemma CountOneUnique(s: string, c: char, i: int, k: int)
    requires Count(s, c) == 1 && 0 <= i < |s| && 0 <= k < |s| && s[i] == c && s[k] == c
    ensures i == k
  {
    if i != k {
      var m := if i < k then k else i;
      var n := if i < k then i else k;
      assert s == s[..m] + s[m..];
      CountAppend(s[..m], s[m..], c);
      CountPositive(s[..m], c, n);
      CountPositive(s[m..], c, 0);
    }
  }

  /**
   * The pattern, in words: no whitespace, exactly one '@' with text before it, and after it a
   * '.' with text on both sides.
   */
  predicate EmailShape(s: string) {
    && (forall k :: 0 <= k < |s| ==> !IsJsSpace(s[k]))
    && Count(s, '@') == 1
    && exists i, j | 0 < i && i + 1 < j && j + 1 < |s| :: s[i] == '@' && s[j] == '.'
  }

  /** A split the pattern matches has no whitespace and exactly one '@'. */
  lemma ShapeOfMatch(s: string, i: int, j: int)
    requires 0 < i && i + 1 < j && j + 1 < |s| && s[i] == '@' && s[j] == '.'
    requires PlainRun(s, 0, i) && PlainRun(s, i + 1, j) && PlainRun(s, j + 1, |s|)
    ensures forall k :: 0 <= k < |s| ==> !IsJsSpace(s[k])
    ensures Count(s, '@') == 1
  {
    forall k | 0 <= k < |s| && k != i
      ensures Plain(s[k]) || k == j
    {
    }
    assert s == s[..i] + ([s[i]] + s[i + 1..]);
    CountNone(s[..i], '@');
    CountNone(s[i + 1..], '@');
    assert Count([s[i]], '@') == 1 by {
      assert [s[i]][..0] == [];
    }
    CountAppend([s[i]], s[i + 1..], '@');
    CountAppend(s[..i], [s[i]] + s[i + 1..], '@');
  }

  /** In a string with no whitespace and one '@', every character but that '@' is `[^\s@]`. */
  lemma MatchOfShape(s: string, i: int, j: int)
    requires 0 < i && i + 1 < j && j + 1 < |s| && s[i] == '@' && s[j] == '.'
    requires forall k :: 0 <= k < |s| ==> !IsJsSpace(s[k])
    requires Count(s, '@') == 1
    ensures PlainRun(s, 0, i) && PlainRun(s, i + 1, j) && PlainRun(s, j + 1, |s|)
  {
    forall k | 0 <= k < |s| && k != i
      ensures Plain(s[k])
    {
      if s[k] == '@' {
        CountOneUnique(s, '@', i, k);
      }
    }
  }

  /** `validateEmail` accepts exactly the strings of that shape. */
  lemma ValidateEmailIff(s: string)
    ensures ValidateEmail(s) <==> EmailShape(s)
  {
    if ValidateEmail(s) {
      var i, j :| 0 < i && i + 1 < j && j + 1 < |s| && s[i] == '@' && s[j] == '.'
        && PlainRun(s, 0, i) && PlainRun(s, i + 1, j) && PlainRun(s, j + 1, |s|);
      ShapeOfMatch(s, i, j);
    }
    if EmailShape(s) {
      var i, j :| 0 < i && i + 1 < j && j + 1 < |s| && s[i] == '@' && s[j] == '.';
      MatchOfShape(s, i, j);
    }
  }

  /** Two concrete cases of the pattern: a plain address passes, one with two '@' does not. */
  lemma ValidateEmailExamples()
    ensures ValidateEmail("a@b.co")
    ensures !ValidateEmail("a@b@c.d")
  {
    var s := "a@b.co";
    assert s[1] == '@' && s[3] == '.' && PlainRun(s, 0, 1) && PlainRun(s, 2, 3) && PlainRun(s, 4, |s|);
    var t := "a@b@c.d";
    assert Count(t, '@') == 2 by {
      assert t[..|t| - 1] == "a@b@c.";
      assert "a@b@c."[..5] == "a@b@c";
      assert "a@b@c"[..4] == "a@b@";
      assert "a@b@"[..3] == "a@b";
      assert "a@b"[..2] == "a@";
      assert "a@"[..1] == "a";
      assert "a"[..0] == "";
    }
    ValidateEmailIff(t);
  }

  /** What `signup` checks before it stores anything. */
  predicate SignupAccepts(storage: map<string, Stored>, email: string, password: string, fullName: string, role: string) {
    && Filled(email) && Filled(password) && Filled(fullName) && Filled(role)
    && ValidateEmail(email)
    && |password| >= 6
    && email !in UsersIn(storage)
  }

  /** The storage after `signup` has stored a new account, before it logs in. */
  function Registered(storage: map<string, Stored>, a: Account): map<string, Stored> {
    storage[UsersKey := Accounts(UsersIn(storage)[a.email := a])]
  }

  /**
   * Whoever has signed up can log in with the same email and password, whatever happens to the
   * session keys in between, and a second signup with that email is refused.
   */
  lemma SignedUpCanLogIn(storage: map<string, Stored>, a: Account, session: map<string, Stored>)
    requires SignupAccepts(storage, a.email, a.password, a.fullName, a.role)
    requires forall k :: k in session ==> k in SessionKeys()
    ensures var after := Registered(storage, a) + session;
      && LoginAccepts(after, a.email, a.password)
      && !SignupAccepts(after, a.email, a.password, a.fullName, a.role)
  {
    KeysDistinct();
    var after := Registered(storage, a) + session;
    assert UsersKey !in session;
    assert UsersIn(after) == UsersIn(storage)[a.email := a];
  }

  class AuthSystem {
    /** The browser's `localStorage`. */
    var storage: map<string, Stored>

    constructor (initial: map<string, Stored>)
      ensures storage == initial
    {
      storage := initial;
    }

    predicate IsLoggedIn()
      reads this
    {
      LoggedInIn(storage)
    }

    /** `getCurrentUser()`: null whenever the session is not signed in. */
    function GetCurrentUser(): (r: Option<SessionUser>)
      reads this
      ensures r.Some? ==> IsLoggedIn()
    {
      CurrentUserIn(storage)
    }

    /** `getUserRole()`: null whenever the session is not signed in. */
    function GetUserRole(): (r: Option<string>)
      reads this
      ensures r.Some? ==> IsLoggedIn()
    {
      RoleIn(storage)
    }

    /** `hasRole(role)`: signed in with exactly that role. */
    predicate HasRole(role: string): (r: bool)
      reads this
      ensures r ==> IsLoggedIn()
    {
      GetUserRole() == Some(role)
    }

    /** `login`: on success the session keys are written; on failure nothing changes. */
    method Login(email: string, password: string) returns (ok: bool)
      modifies this
      ensures ok == LoginAccepts(old(storage), email, password)
      ensures storage == if ok then SignedIn(old(storage), UsersIn(old(storage))[email]) else old(storage)
    {
      if !Filled(email) || !Filled(password) {
        return false;
      }
      var users := UsersIn(storage);
      if email !in users || users[email].password != password {
        return false;
      }
      var a := users[email];
      storage := storage[LoggedInKey := Text("true")];
      storage := storage[UserKey := Signed(SessionUser(a.email, a.fullName, a.role))];
      storage := storage[RoleKey := Text(a.role)];
      ok := true;
    }

    /**
     * `signup`: after the field, format, length and duplicate checks, the new account is stored
     * under its email and the user is logged in. `now` is the creation timestamp.
     */
    method Signup(email: string, password: string, fullName: string, role: string, now: string) returns (ok: bool)
      modifies this
      ensures ok == SignupAccepts(old(storage), email, password, fullName, role)
      ensures storage == if ok
        then SignedIn(Registered(old(storage), Account(email, password, fullName, role, now)), Account(email, password, fullName, role, now))
        else old(storage)
    {
      if !Filled(email) || !Filled(password) || !Filled(fullName) || !Filled(role) {
        return false;
      }
      if !ValidateEmail(email) {
        return false;
      }
      if |password| < 6 {
        return false;
      }
      var users := UsersIn(storage);
      if email in users {
        return false;
      }
      var a := Account(email, password, fullName, role, now);
      storage := storage[UsersKey := Accounts(users[email := a])];
      assert UsersIn(storage) == users[email := a];
      ok := Login(email, password);
    }

    /** `logout`: exactly the four session keys are removed. */
    method Logout()
      modifies this
      ensures storage == old(storage) - SessionKeys()
    {
      storage := storage - {LoggedInKey};
      storage := storage - {UserKey};
      storage := storage - {RoleKey};
      storage := storage - {RedirectKey};
    }

    method SetRedirectUrl(url: string)
      modifies this
      ensures storage == old(storage)[RedirectKey := Text(url)]
    {
      storage := storage[RedirectKey := Text(url)];
    }

    /** `getRedirectUrl`: returns the stored URL, if any, and removes it. */
    method GetRedirectUrl() returns (url: Option<string>)
      modifies this
      ensures url == RedirectIn(old(storage))
      ensures storage == old(storage) - {RedirectKey}
    {
      url := RedirectIn(storage);
      storage := storage - {RedirectKey};
    }

    /**
     * `requireLogin`, without the navigation to the sign-in page: a signed-out visitor has the
     * current page remembered as the redirect target.
     */
    method RequireLogin(currentPageUrl: string) returns (ok: bool)
      modifies this
      ensures ok == LoggedInIn(old(storage))
      ensures storage == if ok then old(storage) else old(storage)[RedirectKey := Text(currentPageUrl)]
    {
      if !IsLoggedIn() {
        SetRedirectUrl(currentPageUrl);
        return false;
      }
      ok := true;
    }
  }
}
