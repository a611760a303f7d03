/**
 * The membership views: sign-up, forgot-password and reset-password, as
 * state transitions over the user table and the password-reset token table.
 *
 * Both tables are sequences of rows in insertion order, so "the first row
 * matching a filter" is the lowest matching index. Passwords are opaque
 * values (hashing is not part of this model), and the reset token issued by
 * forgot-password is supplied by the caller in place of the generator.
 */
module Accounts {
  import opened Wrappers
  import opened ResetTokens

  datatype User = User(username: string, email: string, password: string)

  /** The answer of each branch of the three views. */
  datatype Outcome =
    | Created            // sign-up stored a new user
    | UsernameTaken      // sign-up: "username" error
    | EmailTaken         // sign-up: "email" error
    | EmailNotFound      // forgot-password: no user has this e-mail
    | DuplicateToken     // forgot-password: the token column's unique constraint fired
    | ResetLinkSent      // forgot-password: token stored, mail sent
    | TokenNotFound      // reset-password: no row carries this token
    | TokenExpired       // reset-password: row found but older than an hour
    | NoUser             // reset-password: no user has the row's e-mail
    | PasswordUpdated    // reset-password: success

  /** The HTTP status code each outcome is answered with. */
  function Status(o: Outcome): (code: int)
    ensures code == 200 <==> o == ResetLinkSent || o == PasswordUpdated
    ensures code == 201 <==> o == Created
    ensures code == 404 <==> o in {EmailNotFound, TokenNotFound, NoUser}
    ensures code == 400 <==> o in {UsernameTaken, EmailTaken, TokenExpired}
    ensures code == 500 <==> o == DuplicateToken
  {
    match o
    case Created => 201
    case UsernameTaken => 400
    case EmailTaken => 400
    case EmailNotFound => 404
    case DuplicateToken => 500
    case ResetLinkSent => 200
    case TokenNotFound => 404
    case TokenExpired => 400
    case NoUser => 404
    case PasswordUpdated => 200
  }

  /** Whether some user has this username. */
  predicate HasUsername(users: seq<User>, name: string)
    ensures HasUsername(users, name) <==> name in (set u | u in users :: u.username)
  {
    exists i :: 0 <= i < |users| && users[i].username == name
  }

  /** Whether some user has this e-mail. */
  predicate HasEmail(users: seq<User>, email: string)
    ensures HasEmail(users, email) <==> email in (set u | u in users :: u.email)
  {
    exists i :: 0 <= i < |users| && users[i].email == email
  }

  /** The first user whose e-mail is `email`, if any. */
  function IndexOfEmail(users: seq<User>, email: string): (r: Option<nat>)
    ensures r.None? <==> !HasEmail(users, email)
    ensures r.Some? ==> r.value < |users| && users[r.value].email == email
    ensures r.Some? ==> forall j :: 0 <= j < r.value ==> users[j].email != email
  {
    if |users| == 0 then None
    else if users[0].email == email then Some(0)
    else
      match IndexOfEmail(users[1..], email)
      case None => None
      case Some(k) => Some(k + 1)
  }

  /** The first reset-token row carrying `token`, if any. */
  function IndexOfToken(tokens: seq<ResetToken>, token: string): (r: Option<nat>)
    ensures r.None? <==> forall i :: 0 <= i < |tokens| ==> tokens[i].token != token
    ensures r.Some? ==> r.value < |tokens| && tokens[r.value].token == token
    ensures r.Some? ==> forall j :: 0 <= j < r.value ==> tokens[j].token != token
  {
    if |tokens| == 0 then None
    else if tokens[0].token == token then Some(0)
    else
      match IndexOfToken(tokens[1..], token)
      case None => None
      case Some(k) => Some(k + 1)
  }

  /** `rows` with the row at index `i` deleted; the others keep their order. */
  function Without<T>(rows: seq<T>, i: nat): (r: seq<T>)
    requires i < |rows|
    ensures |r| == |rows| - 1
    ensures forall j :: 0 <= j < i ==> r[j] == rows[j]
    ensures forall j :: i <= j < |r| ==> r[j] == rows[j + 1]
  {
    rows[..i] + rows[i + 1..]
  }

  ghost predicate UniqueUsernames(users: seq<User>)
  {
    forall i, j :: 0 <= i < |users| && 0 <= j < |users| && users[i].username == users[j].username ==> i == j
  }

  ghost predicate UniqueEmails(users: seq<User>)
  {
    forall i, j :: 0 <= i < |users| && 0 <= j < |users| && users[i].email == users[j].email ==> i == j
  }

  ghost predicate UniqueTokens(tokens: seq<ResetToken>)
  {
    forall i, j :: 0 <= i < |tokens| && 0 <= j < |tokens| && tokens[i].token == tokens[j].token ==> i == j
  }

  /** Because token strings are unique, a lookup by token matches at most one row. */
  lemma TokenMatchesAtMostOneRow(tokens: seq<ResetToken>, token: string)
    requires UniqueTokens(tokens)
    ensures |set i | 0 <= i < |tokens| && tokens[i].token == token| <= 1
  {
    var matching := set i | 0 <= i < |tokens| && tokens[i].token == token;
    match IndexOfToken(tokens, token)
    case None =>
      assert matching == {};
    case Some(k) =>
      assert matching == {k};
  }

  /** Deleting a token row keeps the table's tokens unique, and the deleted
      token can no longer be found, so it cannot be used a second time. */
  lemma DeletedTokenIsGone(tokens: seq<ResetToken>, i: nat)
    requires UniqueTokens(tokens)
    requires i < |tokens|
    ensures UniqueTokens(Without(tokens, i))
    ensures IndexOfToken(Without(tokens, i), tokens[i].token) == None
  {
  }

  /** The database the three views work on. */
  class Accounts {
    var users: seq<User>
    var tokens: seq<ResetToken>

    /** Usernames are unique (a column constraint) and reset tokens are
        unique (a column constraint). E-mails are assumed unique: sign-up
        refuses an e-mail that is already stored, but it checks the e-mail
        before it is trimmed, so the assumption is not fully enforced. */
    ghost predicate Valid()
      reads this
    {
      UniqueUsernames(users) && UniqueEmails(users) && UniqueTokens(tokens)
    }

    constructor ()
      ensures Valid()
      ensures users == [] && tokens == []
    {
      users := [];
      tokens := [];
    }

    /** Sign-up: the username check runs first, then the e-mail check; only
        a fresh username with a fresh e-mail creates an account. */
    method SignUp(username: string, email: string, password: string) returns (o: Outcome)
      requires Valid()
      modifies this
      ensures Valid()
      ensures tokens == old(tokens)
      ensures old(HasUsername(users, username)) ==> o == UsernameTaken && users == old(users)
      ensures !old(HasUsername(users, username)) && old(HasEmail(users, email)) ==>
                o == EmailTaken && users == old(users)
      ensures !old(HasUsername(users, username)) && !old(HasEmail(users, email)) ==>
                o == Created && users == old(users) + [User(username, email, password)]
    {
      if HasUsername(users, username) {
        return UsernameTaken;
      }
      if HasEmail(users, email) {
        return EmailTaken;
      }
      users := users + [User(username, email, password)];
      o := Created;
    }

    /** Forgot-password: for a known e-mail, store a reset token issued now
        for that e-mail. The token string must not already be stored. */
    method ForgotPassword(email: string, token: string, now: int) returns (o: Outcome)
      requires Valid()
      modifies this
      ensures Valid()
      ensures users == old(users)
      ensures old(!HasEmail(users, email)) ==> o == EmailNotFound && tokens == old(tokens)
      ensures old(HasEmail(users, email)) && old(IndexOfToken(tokens, token)).Some? ==>
                o == DuplicateToken && tokens == old(tokens)
      ensures old(HasEmail(users, email)) && old(IndexOfToken(tokens, token)).None? ==>
                o == ResetLinkSent && tokens == old(tokens) + [ResetToken(email, token, now)]
    {
      if IndexOfEmail(users, email).None? {
        return EmailNotFound;
      }
      if IndexOfToken(tokens, token).Some? {
        return DuplicateToken;
      }
      tokens := tokens + [ResetToken(email, token, now)];
      o := ResetLinkSent;
    }

    /** Reset-password: not found, then expired, then no user, then success.
        Every branch that found the row deletes it. */
    method ResetPassword(token: string, newPassword: string, now: int) returns (o: Outcome)
      requires Valid()
      modifies this
      ensures Valid()
      ensures old(IndexOfToken(tokens, token)).None? ==>
                o == TokenNotFound && users == old(users) && tokens == old(tokens)
      ensures old(IndexOfToken(tokens, token)).Some? ==>
                var i := old(IndexOfToken(tokens, token)).value;
                var row := old(tokens)[i];
                && tokens == Without(old(tokens), i)
                && IndexOfToken(tokens, token) == None
                && (row.IsExpired(now) ==> o == TokenExpired && users == old(users))
                && (!row.IsExpired(now) && old(!HasEmail(users, row.email)) ==>
                      o == NoUser && users == old(users))
                && (!row.IsExpired(now) && old(HasEmail(users, row.email)) ==>
                      var u := old(IndexOfEmail(users, row.email)).value;
                      o == PasswordUpdated && users == old(users)[u := old(users)[u].(password := newPassword)])
    {
      var found := IndexOfToken(tokens, token);
      if found.None? {
        return TokenNotFound;
      }
      var i := found.value;
      var row := tokens[i];
      DeletedTokenIsGone(tokens, i);
      if row.IsExpired(now) {
        tokens := Without(tokens, i);
        return TokenExpired;
      }
      var owner := IndexOfEmail(users, row.email);
      if owner.None? {
        tokens := Without(tokens, i);
        return NoUser;
      }
      var u := owner.value;
      users := users[u := users[u].(password := newPassword)];
      tokens := Without(tokens, i);
      o := PasswordUpdated;
    }
  }

  /** A successful reset gives the new password to the one account whose
      e-mail the token was issued for, and changes nothing else. */
  lemma ResetSetsOnlyOwnersPassword(users: seq<User>, email: string, newPassword: string)
    requires UniqueEmails(users)
    requires HasEmail(users, email)
    ensures var u := IndexOfEmail(users, email).value;
            var after := users[u := users[u].(password := newPassword)];
            && |after| == |users|
            && forall j :: 0 <= j < |users| ==>
                 && after[j].username == users[j].username
                 && after[j].email == users[j].email
                 && after[j].password == (if users[j].email == email then newPassword else users[j].password)
  {
  }
}
