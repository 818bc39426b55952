/** Accounts and their one verification-token slot: the sign-up/login route with
    its input checks, the e-mail verification route and the forgot-password
    route, over an in-memory user table. Password hashing and comparison, the
    random tokens and the signing of session tokens are outside the model: their
    results arrive as parameters. Instants are milliseconds. */
module Auth {
  import opened Common

  // ---------------------------------------------------------------------------
  // The e-mail pattern `^[^\s@]+@[^\s@]+\.[^\s@]+$`.

  /** The characters JavaScript's `\s` matches. */
  predicate IsJsSpace(c: char)
  {
    var n := c as int;
    (9 <= n <= 13) || n == 32 || n == 0xA0 || n == 0x1680 || (0x2000 <= n <= 0x200A) ||
    n == 0x2028 || n == 0x2029 || n == 0x202F || n == 0x205F || n == 0x3000 || n == 0xFEFF
  }

  /** A character `[^\s@]` accepts. */
  predicate IsPlain(c: char)
  {
    !IsJsSpace(c) && c != '@'
  }

  /** A non-empty run of `[^\s@]`. */
  ghost predicate PlainRun(s: string)
  {
    |s| > 0 && forall k :: 0 <= k < |s| ==> IsPlain(s[k])
  }

  /** `s` read as local part, "@" at `at`, domain name, "." at `dot`, and suffix,
      each part a non-empty plain run. */
  ghost predicate PatternSplit(s: string, at: int, dot: int)
  {
    0 <= at < dot < |s| && s[at] == '@' && s[dot] == '.' &&
    PlainRun(s[..at]) && PlainRun(s[at + 1..dot]) && PlainRun(s[dot + 1..])
  }

  /** The regular expression matches `s` exactly when some split fits it. */
  ghost predicate MatchesEmailPattern(s: string)
  {
    exists at, dot :: PatternSplit(s, at, dot)
  }

  /** A "." in the domain after the "@" at `at`, with text on both sides of it. */
  predicate HasInnerDot(s: string, at: int)
  {
    exists dot :: 0 <= at && at + 1 < dot < |s| - 1 && s[dot] == '.'
  }

  /** The only "@" of a string without white space is at `at`, with text before it,
      and the domain after it has an inner ".". */
  predicate EmailShapeAt(s: string, at: int)
  {
    0 < at < |s| && s[at] == '@' &&
    (forall k :: 0 <= k < |s| ==> !IsJsSpace(s[k])) &&
    (forall k :: 0 <= k < |s| && k != at ==> s[k] != '@') &&
    HasInnerDot(s, at)
  }

  /** The route's e-mail test: no white space, exactly one "@" with text before it,
      and a "." in the domain with text on both sides. */
  function IsValidEmail(s: string): (b: bool)
    ensures b <==> MatchesEmailPattern(s)
  {
    EmailShapeIsPattern(s);
    exists at :: 0 <= at < |s| && EmailShapeAt(s, at)
  }

  lemma EmailShapeIsPattern(s: string)
    ensures (exists at :: 0 <= at < |s| && EmailShapeAt(s, at)) <==> MatchesEmailPattern(s)
  {
    if exists at :: 0 <= at < |s| && EmailShapeAt(s, at) {
      var at :| 0 <= at < |s| && EmailShapeAt(s, at);
      var dot :| at + 1 < dot < |s| - 1 && s[dot] == '.';
      forall k | 0 <= k < |s[..at]| ensures IsPlain(s[..at][k]) {
        assert s[..at][k] == s[k];
      }
      var domain, suffix := s[at + 1..dot], s[dot + 1..];
      forall k | 0 <= k < |domain| ensures IsPlain(domain[k]) {
        assert domain[k] == s[at + 1 + k];
      }
      forall k | 0 <= k < |suffix| ensures IsPlain(suffix[k]) {
        assert suffix[k] == s[dot + 1 + k];
      }
      assert PatternSplit(s, at, dot);
    }
    if MatchesEmailPattern(s) {
      var at, dot :| PatternSplit(s, at, dot);
      forall k | 0 <= k < |s| && k != at ensures IsPlain(s[k]) || k == dot {
        if k < at {
          assert s[k] == s[..at][k];
        } else if at < k < dot {
          assert s[k] == s[at + 1..dot][k - at - 1];
        } else if dot < k {
          assert s[k] == s[dot + 1..][k - dot - 1];
        }
      }
      assert EmailShapeAt(s, at);
    }
  }

  /** Addresses the pattern accepts. */
  lemma EmailExamplesAccepted()
    ensures IsValidEmail("ana@mail.fr")
    ensures IsValidEmail("a.b@c.d.e")
  {
    var good := "ana@mail.fr";
    assert good[8] == '.';
    assert EmailShapeAt(good, 3);
    var good2 := "a.b@c.d.e";
    assert good2[5] == '.';
    assert EmailShapeAt(good2, 3);
  }

  /** Addresses the pattern rejects for their shape: no dot after the "@", an
      empty local part, an empty domain label, a trailing dot. */
  lemma EmailExamplesMisshapen()
    ensures !IsValidEmail("ana@mail")
    ensures !IsValidEmail("@mail.fr")
    ensures !IsValidEmail("ana@.fr")
    ensures !IsValidEmail("ana@mail.")
  {
  }

  /** Addresses the pattern rejects for a forbidden character: a second "@", a
      space. */
  lemma EmailExamplesBadCharacter()
    ensures !IsValidEmail("ana@b@mail.fr")
    ensures !IsValidEmail("ana @mail.fr")
  {
    var twoAts := "ana@b@mail.fr";
    assert twoAts[3] == '@' && twoAts[5] == '@';
    var space := "ana @mail.fr";
    assert IsJsSpace(space[3]);
  }

  /** `firstName && lastName ? "first last" : (firstName || lastName || null)`. */
  function FullName(firstName: Option<string>, lastName: Option<string>): (r: Option<string>)
    ensures Truthy(firstName) && Truthy(lastName) ==> r == Some(firstName.value + " " + lastName.value)
    ensures Truthy(firstName) && !Truthy(lastName) ==> r == firstName
    ensures !Truthy(firstName) && Truthy(lastName) ==> r == lastName
    ensures r.None? <==> !Truthy(firstName) && !Truthy(lastName)
    ensures r.Some? ==> r.value != ""
  {
    if Truthy(firstName) && Truthy(lastName) then Some(firstName.value + " " + lastName.value)
    else if Truthy(firstName) then firstName
    else if Truthy(lastName) then lastName
    else None
  }

  /** A composed name splits back at its first space when the first name has none. */
  lemma FullNameSplitsBack(first: string, last: string)
    requires first != "" && last != ""
    requires forall k :: 0 <= k < |first| ==> first[k] != ' '
    ensures var n := FullName(Some(first), Some(last)).value;
      n[..|first|] == first && n[|first|] == ' ' && n[|first| + 1..] == last &&
      forall k :: 0 <= k < |first| ==> n[k] != ' '
  {
    var n := first + " " + last;
    assert n[..|first|] == first;
    assert n[|first| + 1..] == last;
  }

  // ---------------------------------------------------------------------------
  // Accounts and the lookups the routes make.

  const MillisecondsPerDay := 24 * 60 * 60 * 1000
  const MillisecondsPerHour := 60 * 60 * 1000
  const MinPasswordLength := 6

  datatype Account = Account(
    id: nat,
    email: string,
    passwordHash: string,
    name: Option<string>,
    firstName: Option<string>,
    lastName: Option<string>,
    emailVerified: bool,
    verificationToken: Option<string>,
    verificationTokenExpiry: Option<int>)

  /** The position of the account with this e-mail (`findUnique`). */
  function IndexOfEmail(accounts: seq<Account>, email: string): (r: Option<nat>)
    ensures r.Some? ==> r.value < |accounts| && accounts[r.value].email == email
    ensures r.Some? ==> forall j :: 0 <= j < r.value ==> accounts[j].email != email
    ensures r.None? <==> forall j :: 0 <= j < |accounts| ==> accounts[j].email != email
    decreases |accounts|
  {
    if accounts == [] then None
    else if accounts[0].email == email then Some(0)
    else
      match IndexOfEmail(accounts[1..], email)
      case None => None
      case Some(k) => Some(k + 1)
  }

  /** A token unlocks an account while it is the stored token and its expiry is
      at or after `now`. */
  predicate TokenOpens(a: Account, token: string, now: int)
  {
    a.verificationToken == Some(token) && a.verificationTokenExpiry.Some? && a.verificationTokenExpiry.value >= now
  }

  /** The position of the first account the token unlocks (`findFirst`). */
  function IndexOfToken(accounts: seq<Account>, token: string, now: int): (r: Option<nat>)
    ensures r.Some? ==> r.value < |accounts| && TokenOpens(accounts[r.value], token, now)
    ensures r.Some? ==> forall j :: 0 <= j < r.value ==> !TokenOpens(accounts[j], token, now)
    ensures r.None? <==> forall j :: 0 <= j < |accounts| ==> !TokenOpens(accounts[j], token, now)
    decreases |accounts|
  {
    if accounts == [] then None
    else if TokenOpens(accounts[0], token, now) then Some(0)
    else
      match IndexOfToken(accounts[1..], token, now)
      case None => None
      case Some(k) => Some(k + 1)
  }

  /** What verification does to an account. */
  function Verified(a: Account): (v: Account)
    ensures v.emailVerified && v.verificationToken.None? && v.verificationTokenExpiry.None?
    ensures v.(emailVerified := a.emailVerified, verificationToken := a.verificationToken,
               verificationTokenExpiry := a.verificationTokenExpiry) == a
  {
    a.(emailVerified := true, verificationToken := None, verificationTokenExpiry := None)
  }

  /** What a password-reset request does to an account: the same token slot is
      overwritten, and nothing else. */
  function WithResetToken(a: Account, token: string, expiry: int): (v: Account)
    ensures v.verificationToken == Some(token) && v.verificationTokenExpiry == Some(expiry)
    ensures v.(verificationToken := a.verificationToken, verificationTokenExpiry := a.verificationTokenExpiry) == a
  {
    a.(verificationToken := Some(token), verificationTokenExpiry := Some(expiry))
  }

  /** The account sign-up creates. */
  function NewAccount(id: nat, email: string, hash: string, firstName: Option<string>, lastName: Option<string>,
                      token: string, now: int): Account
  {
    Account(id, email, hash, FullName(firstName, lastName), OrNull(firstName), OrNull(lastName),
            false, Some(token), Some(now + MillisecondsPerDay))
  }

  /** No account but the one at `i` holds `token`. */
  predicate OnlyHolder(accounts: seq<Account>, i: nat, token: string)
  {
    forall j :: 0 <= j < |accounts| && j != i ==> accounts[j].verificationToken != Some(token)
  }

  // ---------------------------------------------------------------------------
  // Route outcomes.

  /** What a session token is signed over: the account's id and e-mail. */
  datatype Claims = Claims(userId: nat, email: string)

  datatype AuthRequest = AuthRequest(
    email: Option<string>,
    password: Option<string>,
    firstName: Option<string>,
    lastName: Option<string>,
    kind: Option<string>)

  datatype AuthResponse =
    | MissingFields
    | InvalidEmail
    | PasswordTooShort
    | EmailTaken
    | SignedUp(email: string)
    | BadCredentials
    | NotVerified(email: string)
    | LoggedIn(claims: Claims, name: Option<string>)
    | InvalidKind

  function AuthStatus(r: AuthResponse): nat
  {
    match r
    case MissingFields => 400
    case InvalidEmail => 400
    case PasswordTooShort => 400
    case EmailTaken => 409
    case SignedUp(_) => 200
    case BadCredentials => 401
    case NotVerified(_) => 403
    case LoggedIn(_, _) => 200
    case InvalidKind => 400
  }

  datatype VerifyResponse = MissingToken | InvalidToken | EmailVerified(claims: Claims, name: Option<string>)

  datatype ResetResponse = MissingEmail | ResetRequested

  const ResetMessage := "Si un compte existe avec cet email, vous recevrez un lien de réinitialisation"

  // ---------------------------------------------------------------------------
  // The user table.

  class UserTable {
    var accounts: seq<Account>
    var nextId: nat

    /** Ids are issued in creation order; e-mails are unique. */
    ghost predicate Valid()
      reads this
    {
      (forall i :: 0 <= i < |accounts| ==> accounts[i].id < nextId) &&
      (forall i, j :: 0 <= i < j < |accounts| ==> accounts[i].id < accounts[j].id) &&
      (forall i, j :: 0 <= i < j < |accounts| ==> accounts[i].email != accounts[j].email)
    }

    constructor ()
      ensures Valid() && accounts == []
    {
      accounts, nextId := [], 0;
    }

    method FindByEmail(email: string) returns (found: Option<nat>)
      ensures found == IndexOfEmail(accounts, email)
    {
      var i := 0;
      while i < |accounts|
        invariant 0 <= i <= |accounts|
        invariant forall j :: 0 <= j < i ==> accounts[j].email != email
      {
        if accounts[i].email == email {
          IndexOfEmailFirst(accounts, email, i);
          return Some(i);
        }
        i := i + 1;
      }
      return None;
    }

    method FindByToken(token: string, now: int) returns (found: Option<nat>)
      ensures found == IndexOfToken(accounts, token, now)
    {
      var i := 0;
      while i < |accounts|
        invariant 0 <= i <= |accounts|
        invariant forall j :: 0 <= j < i ==> !TokenOpens(accounts[j], token, now)
      {
        if TokenOpens(accounts[i], token, now) {
          IndexOfTokenFirst(accounts, token, now, i);
          return Some(i);
        }
        i := i + 1;
      }
      return None;
    }

    /** The sign-up/login route. `hash` is the password's hash and `token` a fresh
        random token, both used only by a sign-up that succeeds; `matches` is the
        password comparison against a stored hash. */
    method Authenticate(request: AuthRequest, hash: string, token: string, now: int,
                        matches: (string, string) -> bool)
      returns (r: AuthResponse)
      requires Valid()
      modifies this
      ensures Valid()
      ensures !(Truthy(request.email) && Truthy(request.password) && Truthy(request.kind)) ==>
        r == MissingFields && accounts == old(accounts)
      ensures (Truthy(request.email) && Truthy(request.password) && Truthy(request.kind) &&
               !IsValidEmail(request.email.value)) ==>
        r == InvalidEmail && accounts == old(accounts)
      ensures r.SignedUp? <==> accounts != old(accounts)
      ensures r.SignedUp? ==>
        request.kind == Some("signup") && |request.password.value| >= MinPasswordLength &&
        IndexOfEmail(old(accounts), request.email.value).None? &&
        r.email == request.email.value &&
        accounts == old(accounts) + [NewAccount(old(nextId), request.email.value, hash,
                                                request.firstName, request.lastName, token, now)]
      ensures r == PasswordTooShort ==>
        request.kind == Some("signup") && |request.password.value| < MinPasswordLength
      ensures r == EmailTaken ==>
        request.kind == Some("signup") && IndexOfEmail(old(accounts), request.email.value).Some?
      ensures (Truthy(request.email) && Truthy(request.password) && IsValidEmail(request.email.value) &&
               request.kind == Some("signup")) ==>
        r == (if |request.password.value| < MinPasswordLength then PasswordTooShort
              else if IndexOfEmail(old(accounts), request.email.value).Some? then EmailTaken
              else SignedUp(request.email.value))
      ensures (Truthy(request.email) && Truthy(request.password) && IsValidEmail(request.email.value) &&
               request.kind == Some("login")) ==>
        r == LoginDecision(old(accounts), request.email.value, request.password.value, matches)
      ensures (Truthy(request.email) && Truthy(request.password) && Truthy(request.kind) &&
               IsValidEmail(request.email.value) && request.kind != Some("signup") && request.kind != Some("login")) ==>
        r == InvalidKind
    {
      if !Truthy(request.email) || !Truthy(request.password) || !Truthy(request.kind) {
        return MissingFields;
      }
      var email, password := request.email.value, request.password.value;
      if !IsValidEmail(email) {
        return InvalidEmail;
      }
      if request.kind == Some("signup") {
        if |password| < MinPasswordLength {
          return PasswordTooShort;
        }
        var existing := FindByEmail(email);
        if existing.Some? {
          return EmailTaken;
        }
        var account := NewAccount(nextId, email, hash, request.firstName, request.lastName, token, now);
        accounts := accounts + [account];
        nextId := nextId + 1;
        return SignedUp(email);
      }
      if request.kind == Some("login") {
        var found := FindByEmail(email);
        if found.None? {
          return BadCredentials;
        }
        var user := accounts[found.value];
        if !matches(password, user.passwordHash) {
          return BadCredentials;
        }
        if !user.emailVerified {
          return NotVerified(user.email);
        }
        return LoggedIn(Claims(user.id, user.email), user.name);
      }
      return InvalidKind;
    }

    /** The verification route: a missing token or one that unlocks no account
        changes nothing; otherwise the first account it unlocks is verified and
        its token slot emptied. */
    method Verify(token: Option<string>, now: int) returns (r: VerifyResponse)
      requires Valid()
      modifies this`accounts
      ensures Valid()
      ensures !Truthy(token) ==> r == MissingToken && accounts == old(accounts)
      ensures Truthy(token) && IndexOfToken(old(accounts), token.value, now).None? ==>
        r == InvalidToken && accounts == old(accounts)
      ensures Truthy(token) && IndexOfToken(old(accounts), token.value, now).Some? ==>
        var i := IndexOfToken(old(accounts), token.value, now).value;
        accounts == old(accounts)[i := Verified(old(accounts)[i])] &&
        r == EmailVerified(Claims(old(accounts)[i].id, old(accounts)[i].email), old(accounts)[i].name)
    {
      if !Truthy(token) {
        return MissingToken;
      }
      var found := FindByToken(token.value, now);
      if found.None? {
        return InvalidToken;
      }
      var user := accounts[found.value];
      accounts := accounts[found.value := Verified(user)];
      return EmailVerified(Claims(user.id, user.email), user.name);
    }

    /** The forgot-password route: the same answer whether or not the e-mail is
        registered; a registered account's token slot gets the reset token, valid
        for one hour. */
    method ForgotPassword(email: Option<string>, resetToken: string, now: int) returns (r: ResetResponse)
      requires Valid()
      modifies this`accounts
      ensures Valid()
      ensures !Truthy(email) ==> r == MissingEmail && accounts == old(accounts)
      ensures Truthy(email) ==> r == ResetRequested
      ensures Truthy(email) && IndexOfEmail(old(accounts), email.value).None? ==> accounts == old(accounts)
      ensures Truthy(email) && IndexOfEmail(old(accounts), email.value).Some? ==>
        var i := IndexOfEmail(old(accounts), email.value).value;
        accounts == old(accounts)[i := WithResetToken(old(accounts)[i], resetToken, now + MillisecondsPerHour)]
    {
      if !Truthy(email) {
        return MissingEmail;
      }
      var found := FindByEmail(email.value);
      if found.Some? {
        var i := found.value;
        accounts := accounts[i := WithResetToken(accounts[i], resetToken, now + MillisecondsPerHour)];
      }
      return ResetRequested;
    }
  }

  /** The login chain on the stored accounts: unknown e-mail and wrong password
      get the same answer, then an unverified account is refused, and only then
      are claims issued. */
  function LoginDecision(accounts: seq<Account>, email: string, password: string,
                         matches: (string, string) -> bool): (r: AuthResponse)
    ensures r.LoggedIn? <==>
      IndexOfEmail(accounts, email).Some? &&
      matches(password, accounts[IndexOfEmail(accounts, email).value].passwordHash) &&
      accounts[IndexOfEmail(accounts, email).value].emailVerified
    ensures r.LoggedIn? || r.NotVerified? || r == BadCredentials
    ensures r == BadCredentials <==>
      IndexOfEmail(accounts, email).None? ||
      !matches(password, accounts[IndexOfEmail(accounts, email).value].passwordHash)
    ensures r.NotVerified? <==>
      IndexOfEmail(accounts, email).Some? &&
      matches(password, accounts[IndexOfEmail(accounts, email).value].passwordHash) &&
      !accounts[IndexOfEmail(accounts, email).value].emailVerified
    ensures r.NotVerified? ==> r.email == email
    ensures r.LoggedIn? ==>
      exists i :: (0 <= i < |accounts| && accounts[i].email == email &&
                   r.claims == Claims(accounts[i].id, email) && accounts[i].emailVerified)
    ensures r.LoggedIn? ==> r.name == accounts[IndexOfEmail(accounts, email).value].name
  {
    match IndexOfEmail(accounts, email)
    case None => BadCredentials
    case Some(i) =>
      if !matches(password, accounts[i].passwordHash) then BadCredentials
      else if !accounts[i].emailVerified then NotVerified(accounts[i].email)
      else LoggedIn(Claims(accounts[i].id, accounts[i].email), accounts[i].name)
  }

  lemma IndexOfEmailFirst(accounts: seq<Account>, email: string, i: nat)
    requires i < |accounts| && accounts[i].email == email
    requires forall j :: 0 <= j < i ==> accounts[j].email != email
    ensures IndexOfEmail(accounts, email) == Some(i)
  {
  }

  lemma IndexOfTokenFirst(accounts: seq<Account>, token: string, now: int, i: nat)
    requires i < |accounts| && TokenOpens(accounts[i], token, now)
    requires forall j :: 0 <= j < i ==> !TokenOpens(accounts[j], token, now)
    ensures IndexOfToken(accounts, token, now) == Some(i)
  {
  }

  // ---------------------------------------------------------------------------
  // The token lifecycle.

  /** A token is single-use: once it has verified its (only) holder, it unlocks
      nothing, at any later instant. */
  lemma VerifyIsSingleUse(accounts: seq<Account>, token: string, now: int, later: int)
    requires IndexOfToken(accounts, token, now).Some?
    requires OnlyHolder(accounts, IndexOfToken(accounts, token, now).value, token)
    ensures var i := IndexOfToken(accounts, token, now).value;
      IndexOfToken(accounts[i := Verified(accounts[i])], token, later).None?
  {
    var i := IndexOfToken(accounts, token, now).value;
    var after := accounts[i := Verified(accounts[i])];
    forall j | 0 <= j < |after| ensures !TokenOpens(after[j], token, later) {
      if j != i {
        assert after[j] == accounts[j];
      }
    }
  }

  /** A password-reset request replaces a pending sign-up token: the old token no
      longer unlocks that account. */
  lemma ResetInvalidatesPendingToken(accounts: seq<Account>, i: nat, oldToken: string, resetToken: string,
                                     now: int, later: int)
    requires i < |accounts| && oldToken != resetToken
    ensures IndexOfToken(accounts[i := WithResetToken(accounts[i], resetToken, now + MillisecondsPerHour)],
                         oldToken, later) != Some(i)
  {
  }

  /** Because the reset token lives in the verification slot, the verification
      route accepts it, and verifies the account, until the hour is up, and not
      after. */
  lemma ResetTokenVerifiesUntilExpiry(accounts: seq<Account>, i: nat, resetToken: string, now: int, later: int)
    requires i < |accounts| && OnlyHolder(accounts, i, resetToken)
    ensures var after := accounts[i := WithResetToken(accounts[i], resetToken, now + MillisecondsPerHour)];
      (later <= now + MillisecondsPerHour ==> IndexOfToken(after, resetToken, later) == Some(i)) &&
      (later > now + MillisecondsPerHour ==> IndexOfToken(after, resetToken, later).None?)
  {
    var after := accounts[i := WithResetToken(accounts[i], resetToken, now + MillisecondsPerHour)];
    assert forall j :: 0 <= j < |after| && j != i ==> !TokenOpens(after[j], resetToken, later);
    if later <= now + MillisecondsPerHour {
      IndexOfTokenFirst(after, resetToken, later, i);
    }
  }

  /** A fresh sign-up token verifies the new account for 24 hours, inclusive. */
  lemma SignupTokenVerifiesForADay(accounts: seq<Account>, a: Account, token: string, now: int, later: int)
    requires a.verificationToken == Some(token) && a.verificationTokenExpiry == Some(now + MillisecondsPerDay)
    requires forall j :: 0 <= j < |accounts| ==> accounts[j].verificationToken != Some(token)
    ensures later <= now + MillisecondsPerDay ==> IndexOfToken(accounts + [a], token, later) == Some(|accounts|)
    ensures later > now + MillisecondsPerDay ==> IndexOfToken(accounts + [a], token, later).None?
  {
    var after := accounts + [a];
    assert forall j :: 0 <= j < |accounts| ==> after[j] == accounts[j];
    if later <= now + MillisecondsPerDay {
      IndexOfTokenFirst(after, token, later, |accounts|);
    }
  }

  /** Verification is what opens login: a verified account whose password matches
      gets claims naming it. */
  lemma VerifiedAccountCanLogIn(accounts: seq<Account>, token: string, now: int, password: string,
                                matches: (string, string) -> bool)
    requires IndexOfToken(accounts, token, now).Some?
    requires var i := IndexOfToken(accounts, token, now).value;
      IndexOfEmail(accounts, accounts[i].email) == Some(i) && matches(password, accounts[i].passwordHash)
    ensures var i := IndexOfToken(accounts, token, now).value;
      var after := accounts[i := Verified(accounts[i])];
      LoginDecision(after, accounts[i].email, password, matches) ==
        LoggedIn(Claims(accounts[i].id, accounts[i].email), accounts[i].name)
  {
    var i := IndexOfToken(accounts, token, now).value;
    var after := accounts[i := Verified(accounts[i])];
    assert forall j :: 0 <= j < |after| ==> after[j].email == accounts[j].email;
    IndexOfEmailFirst(after, accounts[i].email, i);
  }
}
