/** What the user-table operations guarantee together: hashing round trips,
    what an update stores, and how the operations undo or enable each other. */
module AuthProperties {
  import opened Auth

  /** A password always matches its own digest. */
  lemma CheckPasswordRoundTrip(hash: string -> string, password: string)
    ensures CheckPassword(hash, Text(MakeHashedPassword(hash, password)), password)
  {
  }

  ghost predicate Injective(hash: string -> string) {
    forall p, q :: hash(p) == hash(q) ==> p == q
  }

  /** With a collision-free hash, only the original password matches a digest. */
  lemma CheckPasswordExact(hash: string -> string, original: string, password: string)
    requires Injective(hash)
    ensures CheckPassword(hash, Text(MakeHashedPassword(hash, original)), password) <==> password == original
  {
  }

  /** The keyword names of one call are distinct, as Python keyword arguments are. */
  predicate DistinctKeys(kwargs: seq<(string, Value)>) {
    forall i, j :: 0 <= i < j < |kwargs| ==> kwargs[i].0 != kwargs[j].0
  }

  /** A field that no keyword names is left as it was. */
  lemma {:induction false} UpdateFieldsKeeps(record: Record, hash: string -> string, kwargs: seq<(string, Value)>, key: string)
    requires forall i :: 0 <= i < |kwargs| ==> kwargs[i].0 != key
    ensures key in UpdateFields(record, hash, kwargs) <==> key in record
    ensures key in record ==> UpdateFields(record, hash, kwargs)[key] == record[key]
  {
    if kwargs != [] {
      UpdateFieldsKeeps(record, hash, kwargs[..|kwargs| - 1], key);
    }
  }

  /** No field is ever removed. */
  lemma {:induction false} UpdateFieldsGrows(record: Record, hash: string -> string, kwargs: seq<(string, Value)>)
    ensures record.Keys <= UpdateFields(record, hash, kwargs).Keys
  {
    if kwargs != [] {
      UpdateFieldsGrows(record, hash, kwargs[..|kwargs| - 1]);
    }
  }

  /** A keyword whose (hashed) value is truthy ends up stored under its name;
      one whose value is falsy leaves that field as it was. */
  lemma {:induction false} UpdateFieldsAt(record: Record, hash: string -> string, kwargs: seq<(string, Value)>, i: nat)
    requires DistinctKeys(kwargs) && i < |kwargs|
    ensures Truthy(Stored(hash, kwargs[i].0, kwargs[i].1)) ==>
      kwargs[i].0 in UpdateFields(record, hash, kwargs) &&
      UpdateFields(record, hash, kwargs)[kwargs[i].0] == Stored(hash, kwargs[i].0, kwargs[i].1)
    ensures !Truthy(Stored(hash, kwargs[i].0, kwargs[i].1)) ==>
      (kwargs[i].0 in UpdateFields(record, hash, kwargs) <==> kwargs[i].0 in record) &&
      (kwargs[i].0 in record ==> UpdateFields(record, hash, kwargs)[kwargs[i].0] == record[kwargs[i].0])
  {
    var prefix := kwargs[..|kwargs| - 1];
    if i == |kwargs| - 1 {
      UpdateFieldsKeeps(record, hash, prefix, kwargs[i].0);
    } else {
      UpdateFieldsAt(record, hash, prefix, i);
    }
  }

  /** A non-empty new password is stored as its digest (given a digest is
      never empty, as a hex digest is not). */
  lemma PasswordStoredHashed(record: Record, hash: string -> string, kwargs: seq<(string, Value)>, i: nat, password: string)
    requires DistinctKeys(kwargs) && i < |kwargs| && kwargs[i] == ("password", Text(password))
    requires password != "" && hash(password) != ""
    ensures "password" in UpdateFields(record, hash, kwargs)
    ensures UpdateFields(record, hash, kwargs)["password"] == Text(hash(password))
  {
    UpdateFieldsAt(record, hash, kwargs, i);
  }

  /** An empty new password keeps the old digest. */
  lemma EmptyPasswordKeepsHash(record: Record, hash: string -> string, kwargs: seq<(string, Value)>, i: nat)
    requires DistinctKeys(kwargs) && i < |kwargs| && kwargs[i] == ("password", Text(""))
    requires "password" in record
    ensures "password" in UpdateFields(record, hash, kwargs)
    ensures UpdateFields(record, hash, kwargs)["password"] == record["password"]
  {
    UpdateFieldsAt(record, hash, kwargs, i);
  }

  /** Whatever the keywords, the stored password is the old one or a digest:
      a raw password is never stored. */
  lemma {:induction false} PasswordNeverRaw(record: Record, hash: string -> string, kwargs: seq<(string, Value)>)
    requires "password" in record
    ensures "password" in UpdateFields(record, hash, kwargs)
    ensures UpdateFields(record, hash, kwargs)["password"] == record["password"] ||
            exists p :: UpdateFields(record, hash, kwargs)["password"] == Text(hash(p))
  {
    if kwargs != [] {
      var prefix := kwargs[..|kwargs| - 1];
      var last := kwargs[|kwargs| - 1];
      PasswordNeverRaw(record, hash, prefix);
      if last.0 == "password" && Truthy(last.1) {
        assert Stored(hash, last.0, last.1) == Text(hash(last.1.text));
      }
    }
  }

  /** Updates keep every user's password field. */
  lemma UpdateKeepsPasswords(users: Users, hash: string -> string, username: string, kwargs: seq<(string, Value)>)
    requires AllHavePasswords(users)
    ensures AllHavePasswords(Update(users, hash, username, kwargs).users)
  {
    if username in users {
      UpdateFieldsGrows(users[username], hash, kwargs);
    }
  }

  /** Without a role argument a new user gets the role `user`. */
  lemma CreateDefaultsToUserRole(users: Users, hash: string -> string, username: string, password: string,
                                 name: string, email: string, now: string)
    requires username !in users
    ensures Create(users, hash, username, password, name, email, now).users[username]["role"] == Text("user")
  {
  }

  /** Deleting a user just created restores the table (for any name but `admin`). */
  lemma DeleteUndoesCreate(users: Users, hash: string -> string, username: string, password: string,
                           name: string, email: string, now: string, role: string)
    requires username !in users && username != "admin"
    ensures Delete(Create(users, hash, username, password, name, email, now, role).users, username).users == users
  {
    var created := Create(users, hash, username, password, name, email, now, role).users;
    assert created - {username} == users;
  }

  /** A user just created can log in with the password given, and with a
      collision-free hash with no other. */
  lemma CreateThenAuthenticate(users: Users, hash: string -> string, username: string, password: string,
                               name: string, email: string, now: string, role: string, attempt: string, later: string)
    requires username !in users
    ensures Authenticate(Create(users, hash, username, password, name, email, now, role).users,
                         hash, username, password, later).ok
    ensures Injective(hash) ==>
      (Authenticate(Create(users, hash, username, password, name, email, now, role).users, hash, username, attempt, later).ok
       <==> attempt == password)
  {
  }

  /** After a password change the new password logs in. */
  lemma UpdatePasswordThenAuthenticate(users: Users, hash: string -> string, username: string,
                                       kwargs: seq<(string, Value)>, i: nat, password: string, now: string)
    requires username in users && AllHavePasswords(users)
    requires DistinctKeys(kwargs) && i < |kwargs| && kwargs[i] == ("password", Text(password))
    requires password != "" && hash(password) != ""
    ensures AllHavePasswords(Update(users, hash, username, kwargs).users)
    ensures Authenticate(Update(users, hash, username, kwargs).users, hash, username, password, now).ok
  {
    UpdateKeepsPasswords(users, hash, username, kwargs);
    PasswordStoredHashed(users[username], hash, kwargs, i, password);
  }

  /** A failed login changes nothing, whatever was tried. */
  lemma FailedLoginChangesNothing(users: Users, hash: string -> string, username: string, password: string, now: string)
    requires username in users ==> "password" in users[username]
    requires !Authenticate(users, hash, username, password, now).ok
    ensures Authenticate(users, hash, username, password, now).users == users
  {
  }
}
