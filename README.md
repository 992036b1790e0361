# Location-sharing server core, modelled in Dafny

This project models the core of a small Java location-sharing server.

- **Accounts.** `User` stores a password only as Java's `String.hashCode` of the plaintext. `UserAuthenticator` registers accounts and checks HTTP Basic credentials against the users table:
  - registration refuses an empty username, password or e-mail, and a username that is already taken;
  - a login is accepted when the stored hash equals the hash code of the presented password.
- **The store.** `MsgServerDatabase` holds two keyed tables:
  - `users`, keyed by `username`;
  - `messages`, keyed by `locationName`.
- **Locations.** `Message` is a posted location with twelve nullable fields. `toJSONObject` projects it to a JSON object.
- **Tours.** `Tour` serialises its location ids as `"id,id,...,"`.
- **Request buffer.** The plain `httpServer` handler stores POST bodies in a fixed 100-slot array and renders them on GET.

Each core source file is one module:

| file | module | source |
|---|---|---|
| `java_lang.dfy` | `JavaLang` | the `java.lang` behaviour the core relies on: nullable references (`Option`), 32-bit `int` wrap-around, UTF-16 and `String.hashCode`, `Integer.toString` |
| `user.dfy` | `Users` | `User.java` |
| `message.dfy` | `Messages` | `Message.java`; a JSON object is a map from key to value |
| `msg_server_database.dfy` | `Database` | `MsgServerDatabase.java`; the tables are a map and a sequence of rows |
| `user_authenticator.dfy` | `Authentication` | `UserAuthenticator.java` |
| `tour.dfy` | `Tours` | `Tour.java` |
| `http_server.dfy` | `RequestBuffer` | the `requestMessages` / `storedBodyAmount` buffer of `httpServer.java` |

Classes whose fields the source updates in place are Dafny classes with `modifies` frames. Loops are methods with loop invariants, each proved against a pure specification function. The properties are lemmas about those functions.

Two foreign functions are parameters of the model:

- `parse: string -> Option<int>` is the date-time library's parse of the posting time, giving epoch milliseconds;
- `unixToDate: int -> string` is its formatter.

`String.hashCode` is modelled exactly:

- a Dafny `string` is a sequence of Unicode scalar values;
- `Utf16` gives its UTF-16 code units;
- `HashUnits` folds `h = 31*h + unit` with two's-complement wrap-around.

## Model

| member | source | states |
|---|---|---|
| JavaLang.Wrap32 | server/src/main/java/com/server/User.java:35 | Java `int` arithmetic: the result is the exact value modulo 2^32 in the signed range, and values already in range are unchanged |
| JavaLang.Utf16 | server/src/main/java/com/server/User.java:35 | a string of n characters has between n and 2n UTF-16 code units |
| JavaLang.Utf16Bmp | server/src/main/java/com/server/User.java:35 | for characters below U+10000 the code units are the characters themselves |
| JavaLang.HashUnitsIsWrappedPoly | server/src/main/java/com/server/User.java:35 | the wrapped fold `h = 31*h + c` equals the polynomial s[0]*31^(n-1)+...+s[n-1] wrapped once at the end |
| JavaLang.HashCodeIsWrappedPoly | server/src/main/java/com/server/User.java:35 | `hashCode` is that polynomial over the UTF-16 code units, wrapped to a signed 32-bit int |
| JavaLang.HashCodeEmpty | server/src/main/java/com/server/User.java:35 | the empty string hashes to 0 |
| JavaLang.HashCodeCollision | server/src/main/java/com/server/User.java:35 | "Aa" and "BB" differ but both hash to 2112 |
| JavaLang.IntToString | server/src/main/java/com/server/Tour.java:44 | the decimal text of an id is non-empty, made of digits with an optional leading '-', starts with '-' iff the id is negative, and has no leading zero: it starts with '0' only for 0, and "-0" never starts it |
| JavaLang.ParseIntToString | server/src/main/java/com/server/Tour.java:44 | reading the decimal text back gives the id: the text is lossless |
| Users.User.FromPlaintext | server/src/main/java/com/server/User.java:8-12 | the plaintext constructor stores the password's hash code, never the plaintext, and the username and e-mail unchanged |
| Users.User.FromHash | server/src/main/java/com/server/User.java:17-21 | the hash constructor stores the given hash unchanged |
| Users.User.SetUsername | server/src/main/java/com/server/User.java:26-28 | changes the username only |
| Users.User.SetPassword | server/src/main/java/com/server/User.java:34-36 | stores the new password's hash code and changes nothing else |
| Users.User.SetEmail | server/src/main/java/com/server/User.java:42-44 | changes the e-mail only |
| Messages.Message.constructor | server/src/main/java/com/server/Message.java:22-35 | the text-time constructor leaves the id null and stores every other argument, the posting time verbatim |
| Messages.Message.FromUnixTime | server/src/main/java/com/server/Message.java:37-51 | the epoch-time constructor stores the id and fields, and the posting time as the formatter's text for the given milliseconds |
| Messages.Message.SetId | server/src/main/java/com/server/Message.java:56-58 | changes the id only |
| Messages.Message.SetLocationName | server/src/main/java/com/server/Message.java:63-65 | changes the location name only |
| Messages.Message.SetLocationDescription | server/src/main/java/com/server/Message.java:71-73 | changes the description only |
| Messages.Message.SetLocationCity | server/src/main/java/com/server/Message.java:79-81 | changes the city only |
| Messages.Message.SetLocationCountry | server/src/main/java/com/server/Message.java:86-88 | changes the country only |
| Messages.Message.SetLocationStreetAddress | server/src/main/java/com/server/Message.java:94-96 | changes the street address only |
| Messages.Message.SetOriginalPostingTime | server/src/main/java/com/server/Message.java:102-104 | changes the posting time only |
| Messages.Message.SetOriginalPoster | server/src/main/java/com/server/Message.java:110-112 | changes the poster only |
| Messages.Message.SetLatitude | server/src/main/java/com/server/Message.java:118-120 | changes the latitude only |
| Messages.Message.SetLongitude | server/src/main/java/com/server/Message.java:126-128 | changes the longitude only |
| Messages.Message.SetWeather | server/src/main/java/com/server/Message.java:134-136 | changes the weather only |
| Messages.Message.SetTimesVisited | server/src/main/java/com/server/Message.java:142-144 | changes the visit count only |
| Messages.UnixDate | server/src/main/java/com/server/Message.java:151-165 | the posting time's epoch milliseconds when it parses, and 0 when it does not |
| Messages.Message.GetUnixDate | server/src/main/java/com/server/Message.java:151-165 | `getUnixDate` returns `UnixDate` of the stored time, so an unparsable time gives 0 rather than an exception |
| Messages.MessageJson | server/src/main/java/com/server/Message.java:182-202 | the projection holds a key exactly when that key's field value is non-null, with that value |
| Messages.MessageJsonKeys | server/src/main/java/com/server/Message.java:182-202 | key by key: each plain key is present iff its field is non-null; latitude iff latitude is non-null; longitude iff latitude and longitude are both non-null; weather iff weather is non-null; no other key exists |
| Messages.NineKeysPresent | server/src/main/java/com/server/Message.java:184-192 | with the nine plain fields non-null, all nine keys are present with their fields' values |
| Messages.KeyNamesDistinct | server/src/main/java/com/server/Message.java:184-199 | the twelve key texts are pairwise distinct, so no put overwrites another field |
| Messages.ToJsonPutsIsMessageJson | server/src/main/java/com/server/Message.java:182-202 | issuing the puts in the code's order and under its two `if`s builds exactly the key-by-key projection |
| Messages.Message.ToJSONObject | server/src/main/java/com/server/Message.java:182-202 | the object `toJSONObject` fills equals the projection of the message's current fields |
| Database.InsertUserThenFind | server/src/main/java/com/server/MsgServerDatabase.java:105-131 | after a user insert, looking the username up returns the inserted row, every other username returns what it did before, and messages are untouched |
| Database.InsertUserIffNew | server/src/main/java/com/server/MsgServerDatabase.java:105-109 | `username` is the primary key: an insert succeeds iff no row has that username |
| Database.InsertMessageIffNew | server/src/main/java/com/server/MsgServerDatabase.java:95-99 | `locationName` is the primary key: an insert succeeds iff no row has that name |
| Database.InsertMessageKeepsValid | server/src/main/java/com/server/MsgServerDatabase.java:95-99 | a successful insert keeps location names unique, keeps earlier rows in place, appends the new row and leaves users untouched |
| Database.AddMessageToIff | server/src/main/java/com/server/MsgServerDatabase.java:95-99 | `addMessage` inserts iff name, description, city and posting time are non-null and the name is new |
| Database.RowMessageRoundTrip | server/src/main/java/com/server/MsgServerDatabase.java:133-151 | the message built from a row gives back that same row when inserted again, provided the date format parses its own output |
| Database.OpenExistingFileUnusable | server/src/main/java/com/server/MsgServerDatabase.java:38-45 | as written, opening an existing file connects but leaves the query context unset; opening a new file leaves both set |
| Database.OpenIsUsable | server/src/main/java/com/server/MsgServerDatabase.java:38-45 | the corrected `open` leaves a usable session on both paths and agrees with the code for a new file |
| Database.MsgServerDatabase.constructor | server/src/main/java/com/server/MsgServerDatabase.java:23-32 | opening through the corrected `Open` yields a usable session over the existing file's tables, or over two empty tables for a new file; location names are unique |
| Database.MsgServerDatabase.Close | server/src/main/java/com/server/MsgServerDatabase.java:51-57 | `close` drops the connection, a second `close` changes nothing, and the tables are untouched; location names stay unique |
| Database.MsgServerDatabase.AddUser | server/src/main/java/com/server/MsgServerDatabase.java:105-109 | inserts the username, hash and e-mail iff the username is new; otherwise nothing changes; location names stay unique |
| Database.MsgServerDatabase.ContainsUser | server/src/main/java/com/server/MsgServerDatabase.java:111-117 | true iff a row with that username exists |
| Database.MsgServerDatabase.GetUser | server/src/main/java/com/server/MsgServerDatabase.java:119-131 | null iff no row has the username, which is exactly when `ContainsUser` is false; otherwise a fresh User carrying the row's hash and e-mail |
| Database.MsgServerDatabase.AddMessage | server/src/main/java/com/server/MsgServerDatabase.java:95-99 | inserts the row `AddMessageTo` describes, or changes nothing when that insert fails; uniqueness of names is kept |
| Database.MsgServerDatabase.GetMessages | server/src/main/java/com/server/MsgServerDatabase.java:133-152 | one fresh Message per stored row, in table order, carrying the row's name, description, city and formatted time; an empty table gives an empty list |
| Authentication.RegisterIff | server/src/main/java/com/server/UserAuthenticator.java:69-74 | `addUser` succeeds iff username, password and e-mail are all non-empty and the username is not yet stored |
| Authentication.RegisterAddsOneUser | server/src/main/java/com/server/UserAuthenticator.java:72-73 | a successful registration adds exactly one row, holding the password's hash code and the e-mail |
| Authentication.RegisterThenAuthenticate | server/src/main/java/com/server/UserAuthenticator.java:62-73 | after registering, the same credentials are accepted, and a password is accepted iff its hash code equals the registered one's |
| Authentication.RegisterKeepsOtherLogins | server/src/main/java/com/server/UserAuthenticator.java:69-74 | registering one user does not change whether any other user's login is accepted |
| Authentication.UnknownUserRejected | server/src/main/java/com/server/UserAuthenticator.java:62-67 | a username with no row is never accepted |
| Authentication.SameHashAccepted | server/src/main/java/com/server/UserAuthenticator.java:64 | any password with the stored password's hash code is accepted |
| Authentication.CollidingPasswordAccepted | server/src/main/java/com/server/UserAuthenticator.java:64 | a user registered with "Aa" can log in with "BB" |
| Authentication.RegistrationScenario | server/src/main/java/com/server/UserAuthenticator.java:62-74 | after registering alice with pw1, alice/pw1 is accepted and alice/wrong and bob/pw1 are rejected |
| Authentication.UserAuthenticator.constructor | server/src/main/java/com/server/UserAuthenticator.java:23-26 | the authenticator works on the database it is given |
| Authentication.UserAuthenticator.AddUser | server/src/main/java/com/server/UserAuthenticator.java:69-74 | returns true and stores the user iff `Register` succeeds; on false the tables are unchanged; the database's invariant is kept |
| Authentication.UserAuthenticator.CheckCredentials | server/src/main/java/com/server/UserAuthenticator.java:61-67 | true iff `Authenticates` holds; it modifies nothing |
| Tours.IdsText | server/src/main/java/com/server/Tour.java:41-48 | the text is empty iff the list is |
| Tours.IdsTextSnoc | server/src/main/java/com/server/Tour.java:43-46 | appending an id appends its decimal text and one ',' |
| Tours.ParseIdsText | server/src/main/java/com/server/Tour.java:41-48 | splitting the text at ',' and parsing each piece gives back the list |
| Tours.IdsTextInjective | server/src/main/java/com/server/Tour.java:43-46 | different lists give different texts, so order and duplicates are kept |
| Tours.EndsWithComma | server/src/main/java/com/server/Tour.java:45 | a non-empty list's text ends with ',' |
| Tours.CommaCount | server/src/main/java/com/server/Tour.java:43-46 | the text has exactly one ',' per id |
| Tours.TextExamples | server/src/main/java/com/server/Tour.java:43-46 | [3,1,7] gives "3,1,7,", [3,1,3] gives "3,1,3,", and [1,3,7] gives a different text |
| Tours.Tour.constructor | server/src/main/java/com/server/Tour.java:11-15 | stores name, description and ids unchanged |
| Tours.Tour.SetLocationIDs | server/src/main/java/com/server/Tour.java:17-19 | changes the ids only |
| Tours.Tour.SetTourName | server/src/main/java/com/server/Tour.java:27-29 | changes the name only |
| Tours.Tour.SetTourDescription | server/src/main/java/com/server/Tour.java:33-35 | changes the description only |
| Tours.Tour.LocationIDsToString | server/src/main/java/com/server/Tour.java:41-48 | the builder loop produces `IdsText` of the current ids |
| RequestBuffer.RenderBodies | server/src/main/java/com/server/httpServer.java:44-52 | rendering no bodies gives the empty string |
| RequestBuffer.RenderHeld | server/src/main/java/com/server/httpServer.java:47-52 | a buffer whose first slots hold the bodies and whose rest is null renders the bodies in order, each followed by "\n" |
| RequestBuffer.HttpServer.constructor | server/src/main/java/com/server/httpServer.java:19-21 | 100 slots, all null, and a zero counter |
| RequestBuffer.HttpServer.StoreBody | server/src/main/java/com/server/httpServer.java:39 | the counter always grows by one; the store succeeds iff the old counter was below 100, and then it writes exactly that slot; slots 0..k-1 keep the stored bodies in arrival order and the rest stay null |
| RequestBuffer.HttpServer.Render | server/src/main/java/com/server/httpServer.java:44-52 | the GET loop renders the stored bodies in arrival order, each followed by "\n", and modifies nothing |

## Left out

- Getters: they are reads of the fields, which the setters' and constructors' contracts describe.
- Null strings in `User`, `Tour`, the HTTP body and the table rows are not modelled. Only `Message`'s fields are nullable (`Option`), because `toJSONObject` and `addMessage` depend on nullness.
- Tours.Tour.LocationIDsToString: a null element of the id list (Java appends "null") is not modelled. Ids are `Int32`.
- Tours.Tour.SetLocationIDs: aliasing of the caller's `ArrayList` is not modelled. The ids are a value.
- JavaLang.HashCodeIsWrappedPoly: strings holding unpaired surrogates cannot be written as a Dafny `string`, so `hashCode` is modelled only for well-formed Unicode text.
- Latitude, longitude and weather are `real`. Only null versus non-null matters to the core, so floating-point values and NaN are not modelled.
- The date-time library is left uninterpreted:
  - `LocalDateTime.parse` with pattern `yyyy-MM-dd'T'HH:mm:ss.SSSX` plus `toEpochMilli` is the `parse` parameter; a `DateTimeException` or `ArithmeticException` is its `None`;
  - `unixToDate` is the `unixToDate` parameter; its failure for instants out of range is not modelled.
- Messages.Message.GetUnixDate: requires a non-null posting time. With a null time the date-time library throws a NullPointerException that the code does not catch.
- `toJSONObject` keys: org.json's `put(key, value)` removes the key when the value is null. So:
  - each plain key is present only when its field is non-null;
  - longitude is present only when latitude and longitude are both non-null.
- The `MsgServerDatabase` constructor's SQLException path is not modelled. Its message is printed, and the object is left without a connection.
- Database.MsgServerDatabase.constructor: opens through the corrected `Open` of the Findings table, so it promises a usable session for an existing file too. `open` as written leaves `jooq` null on that branch; `OpenAsWritten` and `OpenExistingFileUnusable` state that behaviour.
- Console output and failures of cleanup are not modelled:
  - `getUnixDate`'s "Error parsing date" message and stack trace on its catch path; the model keeps only the fallback value 0;
  - `close`'s "closing DB connection" message, and a `SQLException` thrown by `dbConnection.close()`.
- Schema creation (`createDB`'s DDL), SQLite and jOOQ specifics are not modelled. A failed statement is `ok == false` with nothing inserted.
- `addUser` and `addMessage` return nothing in the source and throw on a failed insert. The model returns that outcome as `ok`.
- Queries on a closed database are excluded by the `Usable(session)` precondition. In the source they throw from the JDBC driver.
- Row order of `SELECT * FROM messages` is not fixed by SQL. The model lists rows in insertion order, one admissible order.
- `MsgServerDatabase.addMessage` calls `message.dateToUnix()`, and `getMessages` calls a four-argument `Message` constructor. Neither exists in `Message.java`:
  - `dateToUnix()` is modelled as `getUnixDate`;
  - the four-argument constructor is modelled as the epoch-time constructor, with the id and every other field null.
- `UserAuthenticator`'s realm and charset constructor arguments belong to the HTTP Basic authentication layer and are not modelled. The authenticator's two constructors are one.
- RequestBuffer.HttpServer.StoreBody: the counter is an unbounded integer. Java's 32-bit wrap-around after 2^31 stores is not modelled.
- HTTP exchange I/O, status codes, `handle` dispatch, TLS, `main` and thread-per-request concurrency are not modelled. The body text arrives as a parameter and the rendered text is returned.

## Findings

| source | as written | input that shows it | evidently intended | confidence | as-written member | corrected member |
|---|---|---|---|---|---|---|
| server/src/main/java/com/server/MsgServerDatabase.java:38-45 | `open` on an existing database file sets `dbConnection` but never assigns `jooq`, which only `createDB` does | the branch runs only when a file whose path is literally the `dbPath + dbName` string exists. `DriverManager.getConnection` needs that string to be a `jdbc:sqlite:` URL, so `new File(database).exists()` tests a path named after the URL, not the SQLite file. A normal restart most likely goes through `createDB` again, and `createTableIfNotExists` keeps the tables. When the branch is taken, the first `addUser`, `containsUser` or `getMessages` dereferences the null `jooq`. No call site of the constructor appears in the modelled files | both branches create the jOOQ context over the connection | medium (not executed): the defect is in the text, but how often the branch is reached depends on the callers | Database.OpenExistingFileUnusable | Database.OpenIsUsable |
