/**
 * The server's store: a `users` table keyed by username and a `messages`
 * table keyed by locationName, behind a connection that `open` establishes
 * and `close` releases. The tables are kept in memory as a map and a
 * sequence of rows; a failed SQL statement (primary-key or NOT NULL
 * violation, or a NullPointerException while the row is built) inserts
 * nothing, which the model reports as `ok == false`.
 */
module Database {
  import opened JavaLang
  import opened Users
  import opened Messages

  /** A row of `users`: the password column holds the hash, never the plaintext. */
  datatype UserRow = UserRow(password: Int32, email: string)

  /** A row of `messages`: the posting time is stored as epoch milliseconds. */
  datatype MessageRow = MessageRow(
    locationName: string,
    locationDescription: string,
    locationCity: string,
    originalPostingTime: int)

  /** The contents of both tables; `messages` is listed in insertion order. */
  datatype Tables = Tables(users: map<string, UserRow>, messages: seq<MessageRow>)

  predicate NameTaken(messages: seq<MessageRow>, name: string) {
    exists i :: 0 <= i < |messages| && messages[i].locationName == name
  }

  /** The primary key of `messages`: no two rows share a locationName. */
  predicate UniqueNames(t: Tables) {
    forall i, j :: 0 <= i < j < |t.messages| ==> t.messages[i].locationName != t.messages[j].locationName
  }

  /** `SELECT * FROM users WHERE username = ?`, None when no row matches. */
  function FindUser(t: Tables, username: string): Option<UserRow> {
    if username in t.users then Some(t.users[username]) else None
  }

  /** `INSERT INTO users`: None when the username is already a key. */
  function InsertUser(t: Tables, username: string, row: UserRow): Option<Tables> {
    if username in t.users then None else Some(t.(users := t.users[username := row]))
  }

  /** `INSERT INTO messages`: None when the locationName is already a key. */
  function InsertMessage(t: Tables, row: MessageRow): Option<Tables> {
    if NameTaken(t.messages, row.locationName) then None
    else Some(t.(messages := t.messages + [row]))
  }

  /**
   * The row `addMessage` inserts for a message: None when the posting time is
   * null (the conversion throws before the statement runs) or when the name,
   * description or city is null (the NOT NULL columns refuse the row).
   */
  function MessageRowOf(d: MessageData, parse: string -> Option<int>): Option<MessageRow> {
    if d.locationName.Some? && d.locationDescription.Some? && d.locationCity.Some?
      && d.originalPostingTime.Some?
    then Some(MessageRow(d.locationName.value, d.locationDescription.value,
      d.locationCity.value, UnixDate(d.originalPostingTime.value, parse)))
    else None
  }

  /** The tables after `addMessage(message)`, None when the insert fails. */
  function AddMessageTo(t: Tables, d: MessageData, parse: string -> Option<int>): Option<Tables> {
    match MessageRowOf(d, parse)
    case None => None
    case Some(row) => InsertMessage(t, row)
  }

  /**
   * The Message `getMessages` builds for a row: name, description and city
   * from the row, the time formatted back to text, every other field null.
   */
  function RowMessage(row: MessageRow, unixToDate: int -> string): MessageData {
    MessageData(None, Some(row.locationName), Some(row.locationDescription),
      Some(row.locationCity), None, None, None, Some(unixToDate(row.originalPostingTime)),
      None, None, None, None)
  }

  // ---------------------------------------------------------------------------
  // Properties of the tables

  /** Lookup after insert returns the inserted row, and every other user is unchanged. */
  lemma InsertUserThenFind(t: Tables, username: string, row: UserRow, other: string)
    requires InsertUser(t, username, row).Some?
    ensures FindUser(InsertUser(t, username, row).value, username) == Some(row)
    ensures other != username ==>
      FindUser(InsertUser(t, username, row).value, other) == FindUser(t, other)
    ensures InsertUser(t, username, row).value.messages == t.messages
  {
  }

  /** username is the primary key: a second insert under the same name fails. */
  lemma InsertUserIffNew(t: Tables, username: string, row: UserRow)
    ensures InsertUser(t, username, row).Some? <==> FindUser(t, username).None?
  {
  }

  /** locationName is the primary key: an insert under a taken name fails. */
  lemma InsertMessageIffNew(t: Tables, row: MessageRow)
    ensures InsertMessage(t, row).Some? <==>
      forall i :: 0 <= i < |t.messages| ==> t.messages[i].locationName != row.locationName
  {
  }

  /**
   * A successful message insert keeps the primary key unique, keeps every
   * earlier row in place and makes the new row the last one.
   */
  lemma InsertMessageKeepsValid(t: Tables, row: MessageRow)
    requires UniqueNames(t) && InsertMessage(t, row).Some?
    ensures UniqueNames(InsertMessage(t, row).value)
    ensures InsertMessage(t, row).value.messages == t.messages + [row]
    ensures InsertMessage(t, row).value.users == t.users
  {
  }

  /** `addMessage` succeeds exactly when the four columns are non-null and the name is new. */
  lemma AddMessageToIff(t: Tables, d: MessageData, parse: string -> Option<int>)
    ensures AddMessageTo(t, d, parse).Some? <==>
      d.locationName.Some? && d.locationDescription.Some? && d.locationCity.Some?
      && d.originalPostingTime.Some? && !NameTaken(t.messages, d.locationName.value)
  {
  }

  /**
   * Reading a row back and inserting the resulting message again yields the
   * same row, whenever the date format parses its own output.
   */
  lemma RowMessageRoundTrip(row: MessageRow, unixToDate: int -> string, parse: string -> Option<int>)
    requires parse(unixToDate(row.originalPostingTime)) == Some(row.originalPostingTime)
    ensures MessageRowOf(RowMessage(row, unixToDate), parse) == Some(row)
  {
  }

  // ---------------------------------------------------------------------------
  // Opening the database

  /**
   * The state `open` leaves behind: whether a JDBC connection is held and
   * whether the jOOQ query context has been created.
   */
  datatype Session = Session(connected: bool, queryContext: bool)

  /** Queries need both the connection and the jOOQ context. */
  predicate Usable(s: Session) {
    s.connected && s.queryContext
  }

  /**
   * `open` as written (MsgServerDatabase.java:38-45): an existing database
   * file is only connected to; `jooq` is assigned in `createDB` alone.
   */
  function OpenAsWritten(dbExists: bool): Session {
    if dbExists then Session(true, false) else Session(true, true)
  }

  /** Opening an existing file leaves the query context unset, so every later query throws. */
  lemma OpenExistingFileUnusable()
    ensures OpenAsWritten(true).connected && !Usable(OpenAsWritten(true))
    ensures Usable(OpenAsWritten(false))
  {
  }

  /** `open` with the query context created on both paths, as `createDB` does. */
  function Open(dbExists: bool): Session {
    Session(true, true)
  }

  lemma OpenIsUsable(dbExists: bool)
    ensures Usable(Open(dbExists))
    ensures !dbExists ==> Open(dbExists) == OpenAsWritten(dbExists)
  {
  }

  class MsgServerDatabase {
    var session: Session
    var users: map<string, UserRow>
    var messages: seq<MessageRow>

    function Contents(): Tables
      reads this
    {
      Tables(users, messages)
    }

    /** The class invariant: the stored tables respect the primary key of `messages`. */
    predicate Valid()
      reads this
    {
      UniqueNames(Contents())
    }

    /**
     * Opens the database: `stored` holds the tables of an existing file, and
     * a missing file is created with both tables empty. The session is the
     * one the corrected `Open` gives; `OpenAsWritten` would leave it unusable
     * for an existing file.
     */
    constructor (stored: Option<Tables>)
      requires stored.Some? ==> UniqueNames(stored.value)
      ensures session == Open(stored.Some?) && Usable(session)
      ensures Contents() == if stored.Some? then stored.value else Tables(map[], [])
      ensures Valid()
    {
      session := Open(stored.Some?);
      OpenIsUsable(stored.Some?);
      if stored.Some? {
        users := stored.value.users;
        messages := stored.value.messages;
      } else {
        users := map[];
        messages := [];
      }
    }

    /** Releases the connection; on a closed database it does nothing. */
    method Close()
      requires Valid()
      modifies this
      ensures Valid()
      ensures session == old(session).(connected := false)
      ensures !old(session).connected ==> session == old(session)
      ensures Contents() == old(Contents())
    {
      if session.connected {
        session := session.(connected := false);
      }
    }

    /** Inserts the user's username, password hash and e-mail; fails on a taken username. */
    method AddUser(user: User) returns (ok: bool)
      requires Usable(session) && Valid()
      modifies this
      ensures Valid()
      ensures ok <==> InsertUser(old(Contents()), user.username, UserRow(user.password, user.email)).Some?
      ensures ok ==> Some(Contents()) == InsertUser(old(Contents()), user.username, UserRow(user.password, user.email))
      ensures !ok ==> Contents() == old(Contents())
      ensures session == old(session)
    {
      if user.username in users {
        ok := false;
      } else {
        users := users[user.username := UserRow(user.password, user.email)];
        ok := true;
      }
    }

    method ContainsUser(username: string) returns (b: bool)
      requires Usable(session)
      ensures b <==> FindUser(Contents(), username).Some?
    {
      b := username in users;
    }

    /** A fresh User holding the stored hash and e-mail, or null when no row matches. */
    method GetUser(username: string) returns (user: User?)
      requires Usable(session)
      ensures user == null <==> FindUser(Contents(), username).None?
      ensures user != null ==> fresh(user)
      ensures user != null ==>
        user.username == username && UserRow(user.password, user.email) == FindUser(Contents(), username).value
    {
      if username in users {
        var row := users[username];
        user := new User.FromHash(username, row.password, row.email);
      } else {
        user := null;
      }
    }

    /**
     * Inserts the message's name, description, city and posting time (as epoch
     * milliseconds, 0 when `parse` rejects it).
     */
    method AddMessage(message: Message, parse: string -> Option<int>) returns (ok: bool)
      requires Usable(session) && Valid()
      modifies this
      ensures ok <==> AddMessageTo(old(Contents()), message.Data(), parse).Some?
      ensures ok ==> Some(Contents()) == AddMessageTo(old(Contents()), message.Data(), parse)
      ensures !ok ==> Contents() == old(Contents())
      ensures Valid() && session == old(session)
    {
      if message.originalPostingTime.None? {
        ok := false;
        return;
      }
      var unix := message.GetUnixDate(parse);
      if message.locationName.None? || message.locationDescription.None? || message.locationCity.None? {
        ok := false;
        return;
      }
      var row := MessageRow(message.locationName.value, message.locationDescription.value,
        message.locationCity.value, unix);
      if NameTaken(messages, row.locationName) {
        ok := false;
      } else {
        InsertMessageKeepsValid(Contents(), row);
        messages := messages + [row];
        ok := true;
      }
    }

    /** One fresh Message per row, in table order. */
    method GetMessages(unixToDate: int -> string) returns (result: seq<Message>)
      requires Usable(session)
      ensures |result| == |messages|
      ensures forall i :: 0 <= i < |result| ==> fresh(result[i])
      ensures forall i :: 0 <= i < |result| ==> result[i].Data() == RowMessage(messages[i], unixToDate)
    {
      result := [];
      var i := 0;
      while i < |messages|
        invariant 0 <= i <= |messages| && |result| == i
        invariant forall j :: 0 <= j < i ==> fresh(result[j])
        invariant forall j :: 0 <= j < i ==> result[j].Data() == RowMessage(messages[j], unixToDate)
      {
        var row := messages[i];
        var message := new Message.FromUnixTime(None, Some(row.locationName),
          Some(row.locationDescription), Some(row.locationCity), None, None,
          row.originalPostingTime, None, None, None, None, None, unixToDate);
        result := result + [message];
        i := i + 1;
      }
    }
  }
}
