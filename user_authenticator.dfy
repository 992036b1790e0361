/**
 * Account registration and HTTP Basic credential checking over the users
 * table. Registration refuses empty fields and taken usernames and stores the
 * password's hash code; a login is accepted when the stored hash equals the
 * hash code of the presented password.
 */
module Authentication {
  import opened JavaLang
  import opened Users
  import opened Database

  /**
   * The users table after `addUser(username, password, email)`, None when the
   * call returns false: an empty field, or a username that is already taken.
   */
  function Register(t: Tables, username: string, password: string, email: string): Option<Tables> {
    if username == "" || password == "" || email == "" then None
    else InsertUser(t, username, UserRow(HashCode(password), email))
  }

  /** `checkCredentials(username, password)`: a stored user whose hash matches the password's. */
  predicate Authenticates(t: Tables, username: string, password: string) {
    FindUser(t, username).Some? && FindUser(t, username).value.password == HashCode(password)
  }

  // ---------------------------------------------------------------------------
  // Properties

  /** Registration succeeds exactly when all three fields are non-empty and the username is new. */
  lemma RegisterIff(t: Tables, username: string, password: string, email: string)
    ensures Register(t, username, password, email).Some? <==>
      username != "" && password != "" && email != "" && FindUser(t, username).None?
  {
  }

  /**
   * A successful registration adds exactly one user, stored with the
   * password's hash code and the e-mail, and changes nothing else.
   */
  lemma RegisterAddsOneUser(t: Tables, username: string, password: string, email: string)
    requires Register(t, username, password, email).Some?
    ensures Register(t, username, password, email).value
      == t.(users := t.users[username := UserRow(HashCode(password), email)])
    ensures username !in t.users
  {
  }

  /**
   * After registering, the same username with the same password is accepted,
   * and a password is accepted exactly when its hash code equals the registered one's.
   */
  lemma RegisterThenAuthenticate(t: Tables, username: string, password: string, email: string, attempt: string)
    requires Register(t, username, password, email).Some?
    ensures Authenticates(Register(t, username, password, email).value, username, password)
    ensures Authenticates(Register(t, username, password, email).value, username, attempt)
      <==> HashCode(attempt) == HashCode(password)
  {
  }

  /** Registering one user does not change whether any other user's login is accepted. */
  lemma RegisterKeepsOtherLogins(t: Tables, username: string, password: string, email: string,
                                 other: string, attempt: string)
    requires Register(t, username, password, email).Some? && other != username
    ensures Authenticates(Register(t, username, password, email).value, other, attempt)
      <==> Authenticates(t, other, attempt)
  {
    InsertUserThenFind(t, username, UserRow(HashCode(password), email), other);
  }

  /** A username with no row is never accepted. */
  lemma UnknownUserRejected(t: Tables, username: string, password: string)
    requires username !in t.users
    ensures !Authenticates(t, username, password)
  {
  }

  /** The check compares hashes: a password with the registered one's hash code is accepted too. */
  lemma SameHashAccepted(t: Tables, username: string, password: string, attempt: string)
    requires Authenticates(t, username, password) && HashCode(attempt) == HashCode(password)
    ensures Authenticates(t, username, attempt)
  {
  }

  /** A user registered with password "Aa" can log in with the different password "BB". */
  lemma CollidingPasswordAccepted(t: Tables, username: string, email: string)
    requires Register(t, username, "Aa", email).Some?
    ensures Authenticates(Register(t, username, "Aa", email).value, username, "BB")
  {
    HashCodeCollision();
  }

  /**
   * Registering alice with pw1 on an empty table: alice/pw1 is accepted,
   * alice/wrong and bob/pw1 are not.
   */
  lemma RegistrationScenario()
    ensures Register(Tables(map[], []), "alice", "pw1", "a@x.com").Some?
    ensures Authenticates(Register(Tables(map[], []), "alice", "pw1", "a@x.com").value, "alice", "pw1")
    ensures !Authenticates(Register(Tables(map[], []), "alice", "pw1", "a@x.com").value, "alice", "wrong")
    ensures !Authenticates(Register(Tables(map[], []), "alice", "pw1", "a@x.com").value, "bob", "pw1")
  {
    HashCodePw1();
    HashCodeWrong();
  }

  lemma HashCodePw1()
    ensures HashCode("pw1") == 111370
  {
    Utf16Bmp("pw1");
    assert Utf16("pw1") == [112, 119, 49];
    assert [112, 119, 49][..2] == [112, 119];
    assert [112, 119][..1] == [112];
    assert [112][..0] == [];
    assert HashUnits([112, 119]) == 3591;
  }

  lemma HashCodeWrong()
    ensures HashCode("wrong") == 113405357
  {
    Utf16Bmp("wrong");
    assert Utf16("wrong") == [119, 114, 111, 110, 103];
    assert [119, 114, 111, 110, 103][..4] == [119, 114, 111, 110];
    assert [119, 114, 111, 110][..3] == [119, 114, 111];
    assert [119, 114, 111][..2] == [119, 114];
    assert [119, 114][..1] == [119];
    assert [119][..0] == [];
    assert HashUnits([119, 114]) == 3803;
    assert HashUnits([119, 114, 111]) == 118004;
    assert HashUnits([119, 114, 111, 110]) == 3658234;
  }

  class UserAuthenticator {
    const userDB: MsgServerDatabase

    /** Both constructors of the source; the realm and charset belong to the HTTP layer. */
    constructor (database: MsgServerDatabase)
      ensures userDB == database
    {
      userDB := database;
    }

    method AddUser(username: string, password: string, email: string) returns (ok: bool)
      requires Usable(userDB.session) && userDB.Valid()
      modifies userDB
      ensures ok <==> Register(old(userDB.Contents()), username, password, email).Some?
      ensures ok ==> Some(userDB.Contents()) == Register(old(userDB.Contents()), username, password, email)
      ensures !ok ==> userDB.Contents() == old(userDB.Contents())
      ensures userDB.session == old(userDB.session) && userDB.Valid()
    {
      if username == "" || password == "" || email == "" {
        return false;
      }
      var taken := userDB.ContainsUser(username);
      if taken {
        return false;
      }
      var user := new User.FromPlaintext(username, password, email);
      var _ := userDB.AddUser(user);
      ok := true;
    }

    /** Reads the table only: the stored hash against the presented password's hash code. */
    method CheckCredentials(username: string, password: string) returns (ok: bool)
      requires Usable(userDB.session)
      ensures ok == Authenticates(userDB.Contents(), username, password)
    {
      var known := userDB.ContainsUser(username);
      if known {
        var user := userDB.GetUser(username);
        ok := user.password == HashCode(password);
      } else {
        ok := false;
      }
    }
  }
}
