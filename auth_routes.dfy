/**
 * `routes/auth.js`, `POST /verify-code`: find the user whose `loginCode` is
 * the given code, issue a one-hour token for that user, and clear the code.
 *
 * The User collection is an array whose entries are updated in place. The
 * signed token is kept abstract: the user id it is bound to and its lifetime.
 */
module AuthRoutes {
  import opened Options

  type UserId = nat

  /** A User document, reduced to its id and `loginCode` (null once used). */
  datatype User = User(id: UserId, loginCode: Option<string>)

  /** `expiresIn: '1h'`, in seconds. */
  const TokenLifetimeSeconds: int := 60 * 60

  /** `jwt.sign({ userId }, secretKey, { expiresIn: '1h' })`, abstracted. */
  datatype Token = Token(userId: UserId, lifetimeSeconds: int)

  /** `{ token }`, 400 "Invalid or expired code", or 500 "Server error". */
  datatype AuthResponse = TokenIssued(token: Token) | InvalidCode400 | ServerError500

  /** The positions of the users whose login code is code. */
  ghost function Holders(users: seq<User>, code: string): set<nat> {
    set i | 0 <= i < |users| && users[i].loginCode == Some(code)
  }

  /** The collection after `user.loginCode = null; await user.save()` for the user at i. */
  function ClearLoginCode(users: seq<User>, i: nat): (r: seq<User>)
    requires i < |users|
  {
    users[i := users[i].(loginCode := None)]
  }

  /**
   * Clearing the login code of a holder removes that holder, and only it,
   * from the holders of the code: each successful verification uses up one.
   */
  lemma ClearRemovesOneHolder(users: seq<User>, code: string, i: nat)
    requires i in Holders(users, code)
    ensures Holders(ClearLoginCode(users, i), code) == Holders(users, code) - {i}
    ensures |Holders(ClearLoginCode(users, i), code)| == |Holders(users, code)| - 1
  {
  }

  /**
   * A login code held by one user works once: after that user's
   * verification no user holds it, so the next verification is refused.
   */
  lemma LoginCodeIsSingleUse(users: seq<User>, code: string, i: nat)
    requires Holders(users, code) == {i}
    ensures Holders(ClearLoginCode(users, i), code) == {}
  {
    ClearRemovesOneHolder(users, code, i);
  }

  /** `User.findOne({ loginCode: code })`: the position of some holder of the code, or None when there is none. */
  method FindUserByLoginCode(users: array<User>, code: string) returns (found: Option<nat>)
    ensures found == None <==> Holders(users[..], code) == {}
    ensures found.Some? ==> found.value in Holders(users[..], code)
  {
    if exists i :: 0 <= i < users.Length && users[i].loginCode == Some(code) {
      var i :| 0 <= i < users.Length && users[i].loginCode == Some(code);
      assert i in Holders(users[..], code);
      found := Some(i);
    } else {
      found := None;
    }
  }

  /**
   * `POST /verify-code`. A token is issued only for a user holding the code,
   * bound to that user's id for one hour, and that user's login code is then
   * cleared; no other user changes. An unknown code is refused with 400 and
   * nothing changes. When the lookup or the save of the cleared code fails,
   * the `catch` answers 500 and nothing changes.
   */
  method VerifyCode(users: array<User>, code: string, lookupSucceeds: bool, saveSucceeds: bool)
    returns (resp: AuthResponse, ghost matched: Option<nat>)
    modifies users
    ensures !lookupSucceeds ==> resp == ServerError500 && matched == None
    ensures lookupSucceeds ==> (matched == None <==> Holders(old(users[..]), code) == {})
    ensures matched.Some? ==> matched.value in Holders(old(users[..]), code)
    ensures lookupSucceeds && matched == None ==> resp == InvalidCode400
    ensures resp.TokenIssued? <==> matched.Some? && saveSucceeds
    ensures resp.TokenIssued? ==> resp.token == Token(old(users[matched.value]).id, TokenLifetimeSeconds)
    ensures resp.TokenIssued? ==> users[..] == ClearLoginCode(old(users[..]), matched.value)
    ensures matched.Some? && !saveSucceeds ==> resp == ServerError500
    ensures !resp.TokenIssued? ==> users[..] == old(users[..])
  {
    if !lookupSucceeds {
      return ServerError500, None;
    }
    var user := FindUserByLoginCode(users, code);
    matched := user;
    if user == None {
      return InvalidCode400, matched;
    }
    var i := user.value;
    var token := Token(users[i].id, TokenLifetimeSeconds);
    if !saveSucceeds {
      return ServerError500, matched;
    }
    users[i] := users[i].(loginCode := None);
    resp := TokenIssued(token);
  }

  /**
   * Presenting the same code twice: when one user held it, the first
   * presentation yields that user's token and the second is refused.
   */
  method VerifyTwice(users: array<User>, code: string, holder: nat)
    returns (first: AuthResponse, second: AuthResponse)
    requires Holders(users[..], code) == {holder}
    modifies users
    ensures first == TokenIssued(Token(old(users[holder]).id, TokenLifetimeSeconds))
    ensures second == InvalidCode400
  {
    ghost var before := users[..];
    ghost var matched;
    first, matched := VerifyCode(users, code, true, true);
    LoginCodeIsSingleUse(before, code, holder);
    second, matched := VerifyCode(users, code, true, true);
  }
}
