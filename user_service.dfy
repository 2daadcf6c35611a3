/** The file-backed user accounts of the web server (server/user-service.ts).
    The accounts live in a JSON file that every operation reads afresh and the
    mutating operations write back whole. Password hashing (`bcrypt.hash`,
    salted and therefore not a function of the password) is the parameter
    `hashed`; `bcrypt.compare` is the parameter `verify`. */
module UserService {
  import opened Wrappers

  datatype UserRecord = UserRecord(id: int, username: string, password: Option<string>, role: Option<string>, note: Option<string>)

  /** A user as returned to callers: every field but `password`. */
  datatype PublicUser = PublicUser(id: int, username: string, role: Option<string>, note: Option<string>)

  /** The users file: absent, blank (only white space), a parsed list, or text
      that is not valid JSON. */
  datatype StoredFile = Missing | Blank | Parsed(users: seq<UserRecord>) | Corrupt

  const AlreadyExists := "User already exists"
  const NotFound := "User not found"
  const NoPassword := "User has no password set and cannot be deleted this way."
  const WrongPassword := "Incorrect password"

  /** What `readUsers` yields: a blank or unreadable file is an empty list. */
  function UsersOf(f: StoredFile): (r: seq<UserRecord>)
    ensures !f.Parsed? ==> r == []
  {
    if f.Parsed? then f.users else []
  }

  /** `findIndex(user => user.username === username)`. */
  function IndexOfName(users: seq<UserRecord>, name: string): (i: int)
    ensures -1 <= i < |users|
    ensures i == -1 <==> forall j :: 0 <= j < |users| ==> users[j].username != name
    ensures i >= 0 ==> users[i].username == name && forall j :: 0 <= j < i ==> users[j].username != name
  {
    if users == [] then -1
    else if users[0].username == name then 0
    else
      var i := IndexOfName(users[1..], name);
      if i == -1 then -1 else i + 1
  }

  /** `users.reduce((max, user) => (user.id > max ? user.id : max), 0)`. */
  function MaxId(users: seq<UserRecord>): (m: int)
    ensures m >= 0
    ensures forall j :: 0 <= j < |users| ==> users[j].id <= m
    ensures m == 0 || exists j :: 0 <= j < |users| && users[j].id == m
  {
    if users == [] then 0
    else
      var m := MaxId(users[..|users| - 1]);
      var last := users[|users| - 1];
      assert forall j :: 0 <= j < |users| - 1 ==> users[j] == users[..|users| - 1][j];
      if last.id > m then last.id else m
  }

  function Strip(u: UserRecord): (p: PublicUser)
    ensures p.id == u.id && p.username == u.username && p.role == u.role && p.note == u.note
  {
    PublicUser(u.id, u.username, u.role, u.note)
  }

  predicate UniqueIds(users: seq<UserRecord>)
  {
    forall i, j :: 0 <= i < j < |users| ==> users[i].id != users[j].id
  }

  predicate UniqueNames(users: seq<UserRecord>)
  {
    forall i, j :: 0 <= i < j < |users| ==> users[i].username != users[j].username
  }

  /** The record `createUser` appends. */
  function NewRecord(users: seq<UserRecord>, username: string, hashed: string): UserRecord
  {
    UserRecord(MaxId(users) + 1, username, Some(hashed), None, None)
  }

  /** Appending a new account keeps ids unique, and keeps names unique when the
      name was not taken. */
  lemma CreateKeepsUnique(users: seq<UserRecord>, username: string, hashed: string)
    requires UniqueIds(users)
    ensures UniqueIds(users + [NewRecord(users, username, hashed)])
    ensures UniqueNames(users) && IndexOfName(users, username) == -1 ==>
      UniqueNames(users + [NewRecord(users, username, hashed)])
  {
    var t := users + [NewRecord(users, username, hashed)];
    forall i, j | 0 <= i < j < |t| ensures t[i].id != t[j].id {
      if j == |users| {
        assert t[i] == users[i];
      }
    }
  }

  /** The splice of `deleteUser`: the account at `i` goes, the others keep
      their order; with unique names no account of that name remains. */
  lemma SpliceRemovesOnlyThatUser(users: seq<UserRecord>, i: nat)
    requires i < |users|
    ensures var r := users[..i] + users[i + 1..];
      |r| == |users| - 1
      && (forall j :: 0 <= j < i ==> r[j] == users[j])
      && (forall j :: i <= j < |r| ==> r[j] == users[j + 1])
      && (UniqueNames(users) ==> forall u :: u in r ==> u.username != users[i].username)
  {
    var r := users[..i] + users[i + 1..];
    if UniqueNames(users) {
      forall u | u in r ensures u.username != users[i].username {
        var j :| 0 <= j < |r| && r[j] == u;
        if j < i {
          assert r[j] == users[j];
        } else {
          assert r[j] == users[j + 1];
        }
      }
    }
  }

  class UserFile {
    var file: StoredFile

    constructor (initial: StoredFile)
      ensures file == initial
    {
      file := initial;
    }

    /** `readUsers`: `fs.ensureFile` creates an empty file when there is none. */
    method ReadUsers() returns (users: seq<UserRecord>)
      modifies this
      ensures users == UsersOf(old(file))
      ensures file == if old(file).Missing? then Blank else old(file)
    {
      if file.Missing? {
        file := Blank;
      }
      users := UsersOf(file);
    }

    /** `findUser`: the first account with that name. */
    method FindUser(username: string) returns (r: Option<UserRecord>)
      modifies this
      ensures var users := UsersOf(old(file));
        (r.None? <==> forall j :: 0 <= j < |users| ==> users[j].username != username)
        && (r.Some? ==> r == Some(users[IndexOfName(users, username)]))
      ensures file == if old(file).Missing? then Blank else old(file)
    {
      var users := ReadUsers();
      var i := IndexOfName(users, username);
      r := if i == -1 then None else Some(users[i]);
    }

    /** `createUser`: a taken name fails without writing; otherwise the account
        gets id `1 + max id` and the hash as password, the whole list is
        written back, and the account is returned without its password. */
    method CreateUser(username: string, hashed: string) returns (r: Result<PublicUser>)
      modifies this
      ensures var users := UsersOf(old(file));
        if IndexOfName(users, username) != -1 then
          r == Err(AlreadyExists) && file == (if old(file).Missing? then Blank else old(file))
        else
          r == Ok(Strip(NewRecord(users, username, hashed)))
          && file == Parsed(users + [NewRecord(users, username, hashed)])
      ensures r.Ok? ==> forall u :: u in UsersOf(old(file)) ==> u.id < r.value.id
    {
      var users := ReadUsers();
      if IndexOfName(users, username) != -1 {
        return Err(AlreadyExists);
      }
      var maxId := MaxId(users);
      var newUser := UserRecord(maxId + 1, username, Some(hashed), None, None);
      users := users + [newUser];
      file := Parsed(users);
      r := Ok(Strip(newUser));
    }

    /** `deleteUser`: fails without writing when the name is unknown, the
        account has no (or an empty) password, or the password does not match
        its hash; otherwise the account is spliced out and the list written. */
    method DeleteUser(username: string, password: string, verify: (string, string) -> bool)
      returns (r: Result<()>)
      modifies this
      ensures var users := UsersOf(old(file));
        var i := IndexOfName(users, username);
        if i == -1 then r == Err(NotFound)
        else if !Truthy(users[i].password) then r == Err(NoPassword)
        else if !verify(password, users[i].password.value) then r == Err(WrongPassword)
        else r == Ok(()) && file == Parsed(users[..i] + users[i + 1..])
      ensures r.Err? ==> file == if old(file).Missing? then Blank else old(file)
    {
      var users := ReadUsers();
      var i := IndexOfName(users, username);
      if i == -1 {
        return Err(NotFound);
      }
      var user := users[i];
      if !Truthy(user.password) {
        return Err(NoPassword);
      }
      if !verify(password, user.password.value) {
        return Err(WrongPassword);
      }
      users := users[..i] + users[i + 1..];
      file := Parsed(users);
      r := Ok(());
    }

    /** `getAllUsers`: every account, in file order, without its password. */
    method GetAllUsers() returns (r: seq<PublicUser>)
      modifies this
      ensures |r| == |UsersOf(old(file))|
      ensures forall j :: 0 <= j < |r| ==> r[j] == Strip(UsersOf(old(file))[j])
      ensures file == if old(file).Missing? then Blank else old(file)
    {
      var users := ReadUsers();
      r := seq(|users|, j requires 0 <= j < |users| => Strip(users[j]));
    }
  }
}
