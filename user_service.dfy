/** Account rules on top of the store: unique emails on registration and on
    update, exact-match login, and the administrator check. */
module UserServices {
  import opened Results
  import opened Users
  import opened Store
  import opened Collections

  /** No two stored accounts share an email (exact comparison). */
  ghost predicate EmailsUnique(users: map<int, User>)
  {
    forall a, b :: a in users && b in users && users[a].email == users[b].email ==> a == b
  }

  /** Under unique emails, an email identifies at most one stored account. */
  lemma EmailIdentifiesUser(users: map<int, User>, u: User, v: User)
    requires EmailsUnique(users)
    requires u in users.Values && v in users.Values && u.email == v.email
    ensures u == v
  {
    var a := KeyFor(users, u);
    var b := KeyFor(users, v);
  }

  class UserService {
    const db: InMemoryDatabase

    constructor (db: InMemoryDatabase)
      ensures this.db == db
    {
      this.db := db;
    }

    /** Registers a new account unless some stored account already has the email. */
    method Register(email: string, password: string, name: string, role: Role) returns (r: Result<User>)
      requires db.Valid()
      modifies db`users, db`nextUserId
      ensures db.Valid()
      ensures r.Err? <==> exists u :: u in old(db.users).Values && u.email == email
      ensures r.Err? ==> r.error == DuplicateEmail(email)
      ensures r.Err? ==> db.users == old(db.users) && db.nextUserId == old(db.nextUserId)
      ensures r.Ok? ==> && r.value == User(old(db.nextUserId), email, password, name, role)
                        && r.value.id !in old(db.users)
                        && db.users == old(db.users)[r.value.id := r.value]
                        && db.nextUserId == old(db.nextUserId) + 1
      ensures EmailsUnique(old(db.users)) ==> EmailsUnique(db.users)
    {
      var existing := db.FindUserByEmail(email);
      if existing.Some? {
        return Err(DuplicateEmail(email));
      }
      var user := db.NewUser(email, password, name, role);
      var saved := db.SaveUser(user);
      r := Ok(saved);
      assert forall id :: id in old(db.users) ==> old(db.users)[id] in old(db.users).Values;
    }

    /** Logs in with an exact email and password match. Both causes of failure
        give the same error. */
    method Login(email: string, password: string) returns (r: Result<User>)
      requires db.Valid()
      ensures r.Ok? ==> && r.value.id in db.users && db.users[r.value.id] == r.value
                        && r.value.email == email && r.value.password == password
      ensures r.Err? ==> r.error == InvalidCredentials
      ensures EmailsUnique(db.users) ==>
                (r.Ok? <==> exists u :: u in db.users.Values && u.email == email && u.password == password)
    {
      var found := db.FindUserByEmail(email);
      if found.None? || found.value.password != password {
        r := Err(InvalidCredentials);
        if EmailsUnique(db.users) && found.Some? {
          forall u | u in db.users.Values && u.email == email
            ensures u.password != password
          {
            EmailIdentifiesUser(db.users, u, found.value);
          }
        }
        return;
      }
      KeyOfValue(db.users, (u: User) => u.id, found.value);
      return Ok(found.value);
    }

    /** Replaces email, password and name of a stored account. Fails when the id
        is not stored, or when another account already holds the new email; an
        account may keep its own email. */
    method UpdateUser(userId: int, newEmail: string, newPassword: string, newName: string)
      returns (r: Outcome)
      requires db.Valid()
      modifies db`users
      ensures db.Valid()
      ensures userId !in old(db.users) ==> r == Failed(NotFound(UserEntity, userId))
      ensures userId in old(db.users) && r.Failed? ==> r.error == DuplicateEmail(newEmail)
      ensures r.Failed? ==> db.users == old(db.users)
      ensures r.Done? ==> && userId in old(db.users)
                          && db.users == old(db.users)[userId := old(db.users)[userId].(
                               email := newEmail, password := newPassword, name := newName)]
      ensures r.Done? ==> IsAdmin(db.users[userId]) == IsAdmin(old(db.users)[userId])
      ensures r == Failed(DuplicateEmail(newEmail)) ==>
                exists u :: u in old(db.users).Values && u.email == newEmail && u.id != userId
      ensures (userId in old(db.users) &&
               forall u :: u in old(db.users).Values && u.email == newEmail ==> u.id == userId) ==> r.Done?
      ensures (userId in old(db.users) && old(db.users)[userId].email != newEmail &&
               exists u :: u in old(db.users).Values && u.email == newEmail) ==>
                r == Failed(DuplicateEmail(newEmail))
      ensures (userId in old(db.users) && EmailsUnique(old(db.users)) &&
               exists u :: u in old(db.users).Values && u.email == newEmail && u.id != userId) ==>
                r == Failed(DuplicateEmail(newEmail))
      ensures EmailsUnique(old(db.users)) ==> EmailsUnique(db.users)
    {
      var user := db.FindUserById(userId);
      if user.None? {
        return Failed(NotFound(UserEntity, userId));
      }
      var existing := db.FindUserByEmail(newEmail);
      if existing.Some? && existing.value.id != userId {
        r := Failed(DuplicateEmail(newEmail));
        return;
      }
      if existing.Some? {
        KeyOfValue(db.users, (u: User) => u.id, existing.value);
      }
      ghost var before := db.users;
      var saved := db.SaveUser(user.value.(email := newEmail, password := newPassword, name := newName));
      r := Done;
      if EmailsUnique(before) {
        forall a, b | a in db.users && b in db.users && db.users[a].email == db.users[b].email
          ensures a == b
        {
          if a != b && (a == userId || b == userId) {
            assert false;
          }
        }
      }
      if existing.Some? && EmailsUnique(before) {
        forall u | u in before.Values && u.email == newEmail
          ensures u.id == userId
        {
          EmailIdentifiesUser(before, u, existing.value);
        }
      }
    }

    /** Removes the account if present; never fails. */
    method DeleteUser(userId: int)
      requires db.Valid()
      modifies db`users
      ensures db.Valid()
      ensures db.users == old(db.users) - {userId}
      ensures userId !in old(db.users) ==> db.users == old(db.users)
      ensures EmailsUnique(old(db.users)) ==> EmailsUnique(db.users)
    {
      db.DeleteUser(userId);
    }

    /** Every stored account, each exactly once. */
    function FindAllUsers(): (r: set<User>)
      reads db
      requires db.Valid()
      ensures forall u :: u in r <==> u.id in db.users && db.users[u.id] == u
      ensures |r| == |db.users|
    {
      db.FindAllUsers()
    }

    function IsAdmin(user: User): (b: bool)
      ensures b <==> user.role == ADMIN
      ensures !b <==> user.role == USER
    {
      user.role == ADMIN
    }
  }
}
