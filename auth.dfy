/**
 * The authentication service: a users table and a password-reset-token
 * table, the registration check on e-mail addresses, the two login checks,
 * and the token life cycle (issued for an hour, used once). Password
 * hashing is abstract: the hash of a new password is passed in, and
 * checking a password against a stored hash is a function parameter. The
 * clock and the random token are parameters too.
 */
module Auth {
  import opened Wrappers

  /** A row of the users table. */
  datatype User = User(
    id: nat, email: string, hashedPassword: string, firstName: string, lastName: string,
    isActive: bool, createdAt: int, updatedAt: int)
  {
    /** `user_to_response`: what the API shows of a user. */
    function ToResponse(): UserResponse {
      UserResponse(id, email, firstName, lastName, createdAt, isActive)
    }
  }

  datatype UserResponse = UserResponse(
    id: nat, email: string, firstName: string, lastName: string, createdAt: int, isActive: bool)

  /** A row of the password-reset-token table. */
  datatype ResetToken = ResetToken(id: nat, userId: nat, token: string, expiresAt: int, used: bool)

  /** The outcome codes of the detailed login check. */
  datatype AuthStatus = EmailNotFound | IncorrectPassword | Success {
    function Code(): string {
      match this
      case EmailNotFound => "EMAIL_NOT_FOUND"
      case IncorrectPassword => "INCORRECT_PASSWORD"
      case Success => "SUCCESS"
    }
  }

  /** A reset token is good for one hour, in seconds. */
  const ResetLifetime := 3600

  // ---------------------------------------------------------------- queries

  /** The position of the first user with this e-mail address. */
  function EmailIndex(users: seq<User>, email: string): (r: Option<nat>)
    ensures r.Some? ==> r.value < |users| && users[r.value].email == email
    ensures r.Some? ==> forall j | 0 <= j < r.value :: users[j].email != email
    ensures r.None? <==> forall j | 0 <= j < |users| :: users[j].email != email
    decreases |users|
  {
    if users == [] then None
    else if users[0].email == email then Some(0)
    else match EmailIndex(users[1..], email)
      case None => None
      case Some(k) => Some(k + 1)
  }

  /** The position of the first user with this id. */
  function IdIndex(users: seq<User>, id: nat): (r: Option<nat>)
    ensures r.Some? ==> r.value < |users| && users[r.value].id == id
    ensures r.None? <==> forall j | 0 <= j < |users| :: users[j].id != id
    decreases |users|
  {
    if users == [] then None
    else if users[0].id == id then Some(0)
    else match IdIndex(users[1..], id)
      case None => None
      case Some(k) => Some(k + 1)
  }

  /** `get_user_by_email`. */
  function UserByEmail(users: seq<User>, email: string): (r: Option<User>)
    ensures r.Some? <==> exists j | 0 <= j < |users| :: users[j].email == email
    ensures r.Some? ==> r.value in users && r.value.email == email
  {
    match EmailIndex(users, email)
    case None => None
    case Some(k) => Some(users[k])
  }

  /** `get_user_by_id`. */
  function UserById(users: seq<User>, id: nat): (r: Option<User>)
    ensures r.Some? <==> exists j | 0 <= j < |users| :: users[j].id == id
    ensures r.Some? ==> r.value in users && r.value.id == id
  {
    match IdIndex(users, id)
    case None => None
    case Some(k) => Some(users[k])
  }

  /** `authenticate_user_detailed`: the user and SUCCESS, or why not. */
  function AuthenticateDetailed(users: seq<User>, email: string, password: string,
                                verify: (string, string) -> bool): (r: (Option<User>, AuthStatus))
    ensures r.1 == EmailNotFound <==> UserByEmail(users, email).None?
    ensures r.1 == IncorrectPassword <==>
      UserByEmail(users, email).Some? && !verify(password, UserByEmail(users, email).value.hashedPassword)
    ensures r.0.Some? <==> r.1 == Success
    ensures r.0.Some? ==> r.0 == UserByEmail(users, email)
  {
    match UserByEmail(users, email)
    case None => (None, EmailNotFound)
    case Some(u) => if !verify(password, u.hashedPassword) then (None, IncorrectPassword) else (Some(u), Success)
  }

  /** `authenticate_user`: the user when the address is known and the password verifies. */
  function Authenticate(users: seq<User>, email: string, password: string,
                        verify: (string, string) -> bool): (r: Option<User>)
    ensures r.Some? <==> exists j | 0 <= j < |users| :: users[j].email == email
                                          && verify(password, UserByEmail(users, email).value.hashedPassword)
    ensures r.Some? ==> r.value.email == email
  {
    match UserByEmail(users, email)
    case None => None
    case Some(u) => if !verify(password, u.hashedPassword) then None else Some(u)
  }

  /** The two login checks agree: the plain one succeeds exactly when the detailed one says SUCCESS. */
  lemma LoginChecksAgree(users: seq<User>, email: string, password: string, verify: (string, string) -> bool)
    ensures Authenticate(users, email, password, verify) == AuthenticateDetailed(users, email, password, verify).0
    ensures Authenticate(users, email, password, verify).Some?
      <==> AuthenticateDetailed(users, email, password, verify).1 == Success
  {
  }

  /** A token is active when it is unused and expires after now. */
  predicate Active(t: ResetToken, token: string, now: int) {
    t.token == token && !t.used && t.expiresAt > now
  }

  /** The position of the first active token with this value. */
  function ActiveIndex(tokens: seq<ResetToken>, token: string, now: int): (r: Option<nat>)
    ensures r.Some? ==> r.value < |tokens| && Active(tokens[r.value], token, now)
    ensures r.None? <==> forall j | 0 <= j < |tokens| :: !Active(tokens[j], token, now)
    decreases |tokens|
  {
    if tokens == [] then None
    else if Active(tokens[0], token, now) then Some(0)
    else match ActiveIndex(tokens[1..], token, now)
      case None => None
      case Some(k) => Some(k + 1)
  }

  /** No two tokens share a value; the table's unique constraint. */
  predicate UniqueTokens(tokens: seq<ResetToken>) {
    forall i, j | 0 <= i < j < |tokens| :: tokens[i].token != tokens[j].token
  }

  /** Once the only token with a value is used, that value is never active again. */
  lemma UsedNeverActive(tokens: seq<ResetToken>, i: nat, now: int)
    requires UniqueTokens(tokens) && i < |tokens| && tokens[i].used
    ensures ActiveIndex(tokens, tokens[i].token, now).None?
  {
    forall j | 0 <= j < |tokens| ensures !Active(tokens[j], tokens[i].token, now) {
      if j != i {
        assert tokens[j].token != tokens[i].token by {
          if j < i {
            assert tokens[j].token != tokens[i].token;
          }
        }
      }
    }
  }

  /** The users with the password of the user at `k` replaced. */
  function SetPassword(users: seq<User>, k: nat, newHash: string, now: int): (r: seq<User>)
    requires k < |users|
    ensures |r| == |users| && r[k].hashedPassword == newHash && r[k].updatedAt == now
    ensures r[k].id == users[k].id && r[k].email == users[k].email
    ensures forall j | 0 <= j < |users| && j != k :: r[j] == users[j]
  {
    users[k := users[k].(hashedPassword := newHash, updatedAt := now)]
  }

  /** Distinct e-mail addresses and ids, every id positive and below the next to hand out. */
  ghost predicate UsersValid(users: seq<User>, nextUserId: nat) {
    && (forall i, j | 0 <= i < j < |users| :: users[i].email != users[j].email)
    && 0 < nextUserId && (forall i | 0 <= i < |users| :: 0 < users[i].id < nextUserId)
    && (forall i, j | 0 <= i < j < |users| :: users[i].id != users[j].id)
  }

  /** Distinct token values, every id below the next to hand out. */
  ghost predicate TokensValid(tokens: seq<ResetToken>, nextTokenId: nat) {
    UniqueTokens(tokens) && (forall i | 0 <= i < |tokens| :: tokens[i].id < nextTokenId)
  }

  /** Replacing a password keeps addresses and ids as they were. */
  lemma SetPasswordValid(users: seq<User>, k: nat, newHash: string, now: int, nextUserId: nat)
    requires k < |users| && UsersValid(users, nextUserId)
    ensures UsersValid(SetPassword(users, k, newHash, now), nextUserId)
  {
    var r := SetPassword(users, k, newHash, now);
    assert forall j | 0 <= j < |users| :: r[j].email == users[j].email && r[j].id == users[j].id;
  }

  /** Marking a token used keeps values and ids as they were. */
  lemma MarkUsedValid(tokens: seq<ResetToken>, i: nat, nextTokenId: nat)
    requires i < |tokens| && TokensValid(tokens, nextTokenId)
    ensures TokensValid(tokens[i := tokens[i].(used := true)], nextTokenId)
  {
    var r := tokens[i := tokens[i].(used := true)];
    assert forall j | 0 <= j < |tokens| :: r[j].token == tokens[j].token && r[j].id == tokens[j].id;
  }

  // ---------------------------------------------------------------- the tables

  class AuthStore {
    var users: seq<User>
    var tokens: seq<ResetToken>
    var nextUserId: nat
    var nextTokenId: nat

    /** Distinct e-mail addresses, ids and token values; ids below the next to hand out. */
    ghost predicate Valid()
      reads this
    {
      UsersValid(users, nextUserId) && TokensValid(tokens, nextTokenId)
    }

    constructor ()
      ensures Valid()
      ensures users == [] && tokens == [] && nextUserId == 1 && nextTokenId == 1
    {
      users, tokens := [], [];
      nextUserId, nextTokenId := 1, 1;
    }

    /** `create_user`: a known address is refused with 400 and nothing is stored. */
    method CreateUser(email: string, firstName: string, lastName: string, hashed: string, now: int)
      returns (r: Result<User, HttpError>)
      requires Valid()
      modifies this
      ensures Valid()
      ensures old(UserByEmail(users, email)).Some? ==>
        r == Err(HttpError(400, "Email already registered")) && users == old(users) && nextUserId == old(nextUserId)
      ensures old(UserByEmail(users, email)).None? ==>
        && r == Ok(User(old(nextUserId), email, hashed, firstName, lastName, true, now, now))
        && users == old(users) + [r.value] && nextUserId == old(nextUserId) + 1
      ensures tokens == old(tokens) && nextTokenId == old(nextTokenId)
    {
      if UserByEmail(users, email).Some? {
        return Err(HttpError(400, "Email already registered"));
      }
      var u := User(nextUserId, email, hashed, firstName, lastName, true, now, now);
      users := users + [u];
      nextUserId := nextUserId + 1;
      r := Ok(u);
    }

    /** `authenticate_user_detailed` on the current table. */
    method AuthenticateUserDetailed(email: string, password: string, verify: (string, string) -> bool)
      returns (user: Option<User>, status: AuthStatus)
      ensures (user, status) == AuthenticateDetailed(users, email, password, verify)
    {
      var u := UserByEmail(users, email);
      if u.None? {
        return None, EmailNotFound;
      }
      if !verify(password, u.value.hashedPassword) {
        return None, IncorrectPassword;
      }
      return u, Success;
    }

    /**
     * `create_password_reset_token`: nothing for an unknown address;
     * otherwise a new unused token for the user expiring an hour from now.
     * A value already in the table breaks the unique constraint and is
     * refused.
     */
    method CreatePasswordResetToken(email: string, token: string, now: int)
      returns (r: Result<Option<string>, string>)
      requires Valid()
      modifies this
      ensures Valid()
      ensures users == old(users) && nextUserId == old(nextUserId)
      ensures old(UserByEmail(users, email)).None? ==>
        r == Ok(None) && tokens == old(tokens) && nextTokenId == old(nextTokenId)
      ensures r.Err? <==> old(UserByEmail(users, email)).Some? && exists j | 0 <= j < |old(tokens)| :: old(tokens)[j].token == token
      ensures r.Err? ==> tokens == old(tokens) && nextTokenId == old(nextTokenId)
      ensures r == Ok(Some(token)) ==>
        && tokens == old(tokens) + [ResetToken(old(nextTokenId), old(UserByEmail(users, email)).value.id,
                                               token, now + ResetLifetime, false)]
        && nextTokenId == old(nextTokenId) + 1
      ensures r.Ok? ==> r == Ok(None) || r == Ok(Some(token))
    {
      var user := UserByEmail(users, email);
      if user.None? {
        return Ok(None);
      }
      if exists j | 0 <= j < |tokens| :: tokens[j].token == token {
        return Err("IntegrityError");
      }
      tokens := tokens + [ResetToken(nextTokenId, user.value.id, token, now + ResetLifetime, false)];
      nextTokenId := nextTokenId + 1;
      r := Ok(Some(token));
    }

    /**
     * `reset_password_with_token`: only an active token of an existing user
     * works; it sets the new hash and uses up the token, so the same value
     * never works again.
     */
    method ResetPasswordWithToken(token: string, newHash: string, now: int) returns (ok: bool)
      requires Valid()
      modifies this
      ensures Valid()
      ensures ok <==> old(ActiveIndex(tokens, token, now)).Some?
                      && old(UserById(users, tokens[ActiveIndex(tokens, token, now).value].userId)).Some?
      ensures !ok ==> users == old(users) && tokens == old(tokens)
      ensures ok ==>
        var i := old(ActiveIndex(tokens, token, now)).value;
        && tokens == old(tokens)[i := old(tokens)[i].(used := true)]
        && users == SetPassword(old(users), old(IdIndex(users, tokens[i].userId)).value, newHash, now)
      ensures ok ==> forall later :: ActiveIndex(tokens, token, later).None?
      ensures nextUserId == old(nextUserId) && nextTokenId == old(nextTokenId)
    {
      var i := ActiveIndex(tokens, token, now);
      if i.None? {
        return false;
      }
      var k := IdIndex(users, tokens[i.value].userId);
      if k.None? {
        return false;
      }
      SetPasswordValid(users, k.value, newHash, now, nextUserId);
      MarkUsedValid(tokens, i.value, nextTokenId);
      users := SetPassword(users, k.value, newHash, now);
      tokens := tokens[i.value := tokens[i.value].(used := true)];
      forall later ensures ActiveIndex(tokens, token, later).None? {
        UsedNeverActive(tokens, i.value, later);
      }
      ok := true;
    }

    /** `reset_password_by_email`: False for an unknown address, else the hash is replaced. */
    method ResetPasswordByEmail(email: string, newHash: string, now: int) returns (ok: bool)
      requires Valid()
      modifies this
      ensures Valid()
      ensures ok <==> old(UserByEmail(users, email)).Some?
      ensures !ok ==> users == old(users)
      ensures ok ==> users == SetPassword(old(users), old(EmailIndex(users, email)).value, newHash, now)
      ensures tokens == old(tokens) && nextUserId == old(nextUserId) && nextTokenId == old(nextTokenId)
    {
      var k := EmailIndex(users, email);
      if k.None? {
        return false;
      }
      SetPasswordValid(users, k.value, newHash, now, nextUserId);
      users := SetPassword(users, k.value, newHash, now);
      ok := true;
    }
  }

  // ---------------------------------------------------------------- properties

  /** After a reset the user logs in with a password that verifies against the new hash, and is still found. */
  lemma ResetThenLogin(users: seq<User>, k: nat, newHash: string, now: int, password: string,
                       verify: (string, string) -> bool)
    requires k < |users| && EmailIndex(users, users[k].email) == Some(k)
    requires verify(password, newHash)
    ensures var after := SetPassword(users, k, newHash, now);
      Authenticate(after, users[k].email, password, verify) == Some(after[k])
  {
    var after := SetPassword(users, k, newHash, now);
    var email := users[k].email;
    assert forall j | 0 <= j < k :: after[j].email != email;
    assert EmailIndex(after, email) == Some(k) by {
      EmailIndexAt(after, email, k);
    }
  }

  /** The first position holding an address is the one `EmailIndex` finds. */
  lemma {:induction false} EmailIndexAt(users: seq<User>, email: string, k: nat)
    requires k < |users| && users[k].email == email
    requires forall j | 0 <= j < k :: users[j].email != email
    ensures EmailIndex(users, email) == Some(k)
    decreases k
  {
    if k > 0 {
      assert forall j | 0 <= j < k - 1 :: users[1..][j] == users[j + 1];
      EmailIndexAt(users[1..], email, k - 1);
    }
  }

  /** A token issued now is active until its hour is up, and not after. */
  lemma FreshTokenLifetime(tokens: seq<ResetToken>, t: ResetToken, now: int, later: int)
    requires UniqueTokens(tokens + [t]) && !t.used && t.expiresAt == now + ResetLifetime
    ensures ActiveIndex(tokens + [t], t.token, later).Some? <==> later < now + ResetLifetime
  {
    var ts := tokens + [t];
    assert ts[|tokens|] == t;
    if later >= now + ResetLifetime {
      forall j | 0 <= j < |ts| ensures !Active(ts[j], t.token, later) {
        if j < |tokens| {
          assert ts[j].token != ts[|tokens|].token;
        }
      }
    }
  }
}
