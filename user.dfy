/**
 * A registered account as the server holds it in memory: the username, the
 * password as an `Integer` hash (never the plaintext) and the e-mail address.
 */
module Users {
  import opened JavaLang

  class User {
    var username: string
    var password: Int32
    var email: string

    /** Builds a user from a plaintext password, which is stored only as its hash code. */
    constructor FromPlaintext(username: string, password: string, email: string)
      ensures this.username == username && this.email == email
      ensures this.password == HashCode(password)
    {
      this.username := username;
      this.password := HashCode(password);
      this.email := email;
    }

    /** Builds a user from an already hashed password, which is stored unchanged. */
    constructor FromHash(username: string, password: Int32, email: string)
      ensures this.username == username && this.email == email
      ensures this.password == password
    {
      this.username := username;
      this.password := password;
      this.email := email;
    }

    method SetUsername(username: string)
      modifies this
      ensures this.username == username
      ensures password == old(password) && email == old(email)
    {
      this.username := username;
    }

    /** Replaces the stored hash by the hash code of the new plaintext. */
    method SetPassword(password: string)
      modifies this
      ensures this.password == HashCode(password)
      ensures username == old(username) && email == old(email)
    {
      this.password := HashCode(password);
    }

    method SetEmail(email: string)
      modifies this
      ensures this.email == email
      ensures username == old(username) && password == old(password)
    {
      this.email := email;
    }
  }
}
