/** The user table: an in-memory dictionary from user name to a record of
    text fields, with password hashing, creation, update, deletion and
    login. SHA-256 is passed in as an uninterpreted `hash` function; the
    clock and the random sources are parameters; saving to disk is not
    modelled. */
module Auth {

  /** A field of a user record: a string, or `None` (only `last_login`
      before the first login). */
  datatype Value = Text(text: string) | Null

  type Record = map<string, Value>
  type Users = map<string, Record>

  /** What an operation returns (`(success, message)`) and the table after it. */
  datatype Outcome = Outcome(ok: bool, message: string, users: Users)

  /** Python truthiness of a field value: a non-empty string. */
  predicate Truthy(v: Value) {
    v.Text? && v.text != ""
  }

  /** The stored form of a password: its hex digest. */
  function MakeHashedPassword(hash: string -> string, password: string): string {
    hash(password)
  }

  /** A password matches a stored field when the field holds its digest. */
  predicate CheckPassword(hash: string -> string, stored: Value, password: string) {
    stored == Text(MakeHashedPassword(hash, password))
  }

  /** Every user has a password field, so login can look it up. */
  predicate AllHavePasswords(users: Users) {
    forall u :: u in users ==> "password" in users[u]
  }

  /** The record `create_user` stores; `now` is the formatted creation time. */
  function NewUser(hash: string -> string, password: string, name: string, email: string,
                   role: string, now: string): Record
  {
    map["password" := Text(MakeHashedPassword(hash, password)), "role" := Text(role),
        "name" := Text(name), "email" := Text(email), "created_at" := Text(now), "last_login" := Null]
  }

  /** `create_user`: refuses a taken name, otherwise adds exactly the new record. */
  function Create(users: Users, hash: string -> string, username: string, password: string,
                  name: string, email: string, now: string, role: string := "user"): (r: Outcome)
    ensures r.ok <==> username !in users
    ensures !r.ok ==> r.users == users && r.message == "Username already exists"
    ensures r.ok ==> r.users.Keys == users.Keys + {username}
    ensures r.ok ==> r.users[username].Keys == {"password", "role", "name", "email", "created_at", "last_login"}
    ensures r.ok ==> r.users[username]["password"] == Text(hash(password)) && r.users[username]["role"] == Text(role)
    ensures r.ok ==> r.users[username]["name"] == Text(name) && r.users[username]["email"] == Text(email)
    ensures r.ok ==> r.users[username]["created_at"] == Text(now) && r.users[username]["last_login"] == Null
    ensures r.ok ==> forall u :: u in users ==> r.users[u] == users[u]
    ensures AllHavePasswords(users) ==> AllHavePasswords(r.users)
  {
    if username in users then Outcome(false, "Username already exists", users)
    else Outcome(true, "User created successfully", users[username := NewUser(hash, password, name, email, role, now)])
  }

  /** The value `update_user` stores for `key`: a password is hashed first. */
  function Stored(hash: string -> string, key: string, value: Value): Value {
    if key == "password" && Truthy(value) then Text(MakeHashedPassword(hash, value.text)) else value
  }

  /** One keyword argument: its (stored) value replaces the field only if it is truthy. */
  function ApplyField(record: Record, hash: string -> string, key: string, value: Value): Record {
    var v := Stored(hash, key, value);
    if Truthy(v) then record[key := v] else record
  }

  /** The record after the keyword arguments, applied in order. */
  function UpdateFields(record: Record, hash: string -> string, kwargs: seq<(string, Value)>): Record {
    if kwargs == [] then record
    else
      var last := kwargs[|kwargs| - 1];
      ApplyField(UpdateFields(record, hash, kwargs[..|kwargs| - 1]), hash, last.0, last.1)
  }

  /** `update_user`: refuses an unknown name, otherwise changes only that user's record. */
  function Update(users: Users, hash: string -> string, username: string, kwargs: seq<(string, Value)>): (r: Outcome)
    ensures r.ok <==> username in users
    ensures !r.ok ==> r.users == users && r.message == "User not found"
    ensures r.ok ==> r.users.Keys == users.Keys
    ensures r.ok ==> forall u :: u in users && u != username ==> r.users[u] == users[u]
  {
    if username !in users then Outcome(false, "User not found", users)
    else Outcome(true, "User updated successfully", users[username := UpdateFields(users[username], hash, kwargs)])
  }

  /** `delete_user`: refuses an unknown name and the literal name `admin`. */
  function Delete(users: Users, username: string): (r: Outcome)
    ensures r.ok <==> username in users && username != "admin"
    ensures !r.ok ==> r.users == users
    ensures r.ok ==> r.users.Keys == users.Keys - {username}
    ensures r.ok ==> forall u :: u in r.users ==> r.users[u] == users[u]
    ensures AllHavePasswords(users) ==> AllHavePasswords(r.users)
  {
    if username !in users then Outcome(false, "User not found", users)
    else if username == "admin" then Outcome(false, "Cannot delete admin user", users)
    else Outcome(true, "User deleted successfully", users - {username})
  }

  /** `authenticate`: succeeds exactly for a known user whose stored digest
      matches, and then records the login time `now`. */
  function Authenticate(users: Users, hash: string -> string, username: string, password: string, now: string): (r: Outcome)
    requires username in users ==> "password" in users[username]
    ensures r.ok <==> username in users && users[username]["password"] == Text(hash(password))
    ensures !r.ok ==> r.users == users && r.message == "Invalid username or password"
    ensures r.ok ==> r.users.Keys == users.Keys && r.users[username] == users[username]["last_login" := Text(now)]
    ensures r.ok ==> forall u :: u in users && u != username ==> r.users[u] == users[u]
    ensures AllHavePasswords(users) ==> AllHavePasswords(r.users)
  {
    if username !in users then Outcome(false, "Invalid username or password", users)
    else if CheckPassword(hash, users[username]["password"], password) then
      Outcome(true, "Authentication successful", users[username := users[username]["last_login" := Text(now)]])
    else Outcome(false, "Invalid username or password", users)
  }

  /** The user table of a session. */
  class UserStore {
    var users: Users
    const hash: string -> string

    constructor(users: Users, hash: string -> string)
      ensures this.users == users && this.hash == hash
    {
      this.users := users;
      this.hash := hash;
    }

    method CreateUser(username: string, password: string, name: string, email: string, now: string, role: string := "user")
      returns (ok: bool, message: string)
      modifies this
      ensures Outcome(ok, message, users) == Create(old(users), hash, username, password, name, email, now, role)
    {
      if username in users {
        return false, "Username already exists";
      }
      users := users[username := NewUser(hash, password, name, email, role, now)];
      return true, "User created successfully";
    }

    /** The keyword loop updates the stored record field by field. */
    method UpdateUser(username: string, kwargs: seq<(string, Value)>) returns (ok: bool, message: string)
      modifies this
      ensures Outcome(ok, message, users) == Update(old(users), hash, username, kwargs)
    {
      if username !in users {
        return false, "User not found";
      }
      for i := 0 to |kwargs|
        invariant users == old(users)[username := UpdateFields(old(users)[username], hash, kwargs[..i])]
      {
        var (key, value) := kwargs[i];
        if key == "password" && Truthy(value) {
          value := Text(MakeHashedPassword(hash, value.text));
        }
        if Truthy(value) {
          users := users[username := users[username][key := value]];
        }
        assert kwargs[..i + 1][..i] == kwargs[..i];
      }
      assert kwargs[..|kwargs|] == kwargs;
      return true, "User updated successfully";
    }

    method DeleteUser(username: string) returns (ok: bool, message: string)
      modifies this
      ensures Outcome(ok, message, users) == Delete(old(users), username)
    {
      if username !in users {
        return false, "User not found";
      }
      if username == "admin" {
        return false, "Cannot delete admin user";
      }
      users := users - {username};
      return true, "User deleted successfully";
    }

    method AuthenticateUser(username: string, password: string, now: string) returns (ok: bool, message: string)
      requires username in users ==> "password" in users[username]
      modifies this
      ensures Outcome(ok, message, users) == Authenticate(old(users), hash, username, password, now)
    {
      if username !in users {
        return false, "Invalid username or password";
      }
      var storedPassword := users[username]["password"];
      if CheckPassword(hash, storedPassword, password) {
        users := users[username := users[username]["last_login" := Text(now)]];
        return true, "Authentication successful";
      }
      return false, "Invalid username or password";
    }
  }

  /** `generate_credentials(n)`: `n` pairs (five by default, none for `n <= 0`) of a name
      `user_` followed by six hex digits of a fresh UUID and a fresh
      password; `uuidHex(i)` and `password(i)` are the `i`-th random draws. */
  method GenerateCredentials(uuidHex: nat -> string, password: nat -> string, n: int := 5)
    returns (credentials: seq<(string, string)>)
    requires forall i: nat :: i < n ==> |uuidHex(i)| == 32
    ensures |credentials| == if n < 0 then 0 else n
    ensures forall i :: 0 <= i < |credentials| ==>
      credentials[i] == ("user_" + uuidHex(i)[..6], password(i)) && |credentials[i].0| == 11
  {
    credentials := [];
    var i := 0;
    while i < n
      invariant 0 <= i && (n < 0 ==> i == 0) && (0 <= n ==> i <= n)
      invariant |credentials| == i
      invariant forall j :: 0 <= j < i ==>
        credentials[j] == ("user_" + uuidHex(j)[..6], password(j)) && |credentials[j].0| == 11
    {
      credentials := credentials + [("user_" + uuidHex(i)[..6], password(i))];
      i := i + 1;
    }
  }
}
