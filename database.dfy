/**
 * The identity resolver `DBManager.GetUserOrCreate` over an in-memory user table keyed by
 * Telegram ID. The generated queries it calls (`GetUserByTelegramID`, `UpdateUser`, `CreateUser`)
 * become reads and writes of that table; the internal id of a created user is the next value of a
 * counter, as a serial column would give it.
 */
module Database {

  /** A stored user record. */
  datatype User = User(id: int, telegramId: int, telegramUsername: string, firstName: string, lastName: string)

  /** Which write, if any, a GetUserOrCreate call performed. */
  datatype Write = NoWrite | Updated | Created

  /** The stored record already carries these display fields. */
  predicate SameProfile(user: User, username: string, firstName: string, lastName: string) {
    user.telegramUsername == username && user.firstName == firstName && user.lastName == lastName
  }

  /** Every record is filed under its own Telegram ID. */
  ghost predicate WellKeyed(users: map<int, User>) {
    forall t :: t in users ==> users[t].telegramId == t
  }

  /**
   * The table after GetUserOrCreate(telegramId, username, firstName, lastName), `freshId` being
   * the id a created record would get. Afterwards the entry for `telegramId` holds exactly the
   * given display fields; an existing record keeps its id; every other entry is unchanged.
   */
  function Resolved(users: map<int, User>, telegramId: int, username: string, firstName: string,
                    lastName: string, freshId: int): (r: map<int, User>)
    ensures r.Keys == users.Keys + {telegramId}
    ensures SameProfile(r[telegramId], username, firstName, lastName)
    ensures telegramId in users ==>
      r[telegramId].id == users[telegramId].id && r[telegramId].telegramId == users[telegramId].telegramId
    ensures telegramId !in users ==> r[telegramId] == User(freshId, telegramId, username, firstName, lastName)
    ensures telegramId in users && SameProfile(users[telegramId], username, firstName, lastName) ==> r == users
    ensures forall t :: t in users && t != telegramId ==> r[t] == users[t]
    ensures WellKeyed(users) ==> WellKeyed(r)
  {
    if telegramId in users then
      var user := users[telegramId];
      if SameProfile(user, username, firstName, lastName) then users
      else users[telegramId := user.(telegramUsername := username, firstName := firstName, lastName := lastName)]
    else
      users[telegramId := User(freshId, telegramId, username, firstName, lastName)]
  }

  /** Resolving the same user twice leaves the table as once: the second call writes nothing. */
  lemma ResolvedIdempotent(users: map<int, User>, telegramId: int, username: string, firstName: string,
                           lastName: string, freshId: int, freshId2: int)
    requires WellKeyed(users)
    ensures var once := Resolved(users, telegramId, username, firstName, lastName, freshId);
      telegramId in once && SameProfile(once[telegramId], username, firstName, lastName)
      && Resolved(once, telegramId, username, firstName, lastName, freshId2) == once
  {
  }

  /** The user table and the id counter behind `Queries`. */
  class DBManager {
    var users: map<int, User>
    var nextId: int

    ghost predicate Valid()
      reads this
    {
      WellKeyed(users) && forall t :: t in users ==> users[t].id < nextId
    }

    constructor ()
      ensures Valid() && users == map[] && nextId == 1
    {
      users := map[];
      nextId := 1;
    }

    /**
     * GetUserOrCreate. A stored user with the same username, first and last name is returned
     * and nothing is written; a stored user whose fields drifted is updated in place under the
     * same Telegram ID and id; an unknown Telegram ID gets a new record with a fresh id. Other
     * users are untouched, and the returned record is the one now stored.
     */
    method GetUserOrCreate(telegramId: int, username: string, firstName: string, lastName: string)
      returns (user: User, write: Write)
      requires Valid()
      modifies this
      ensures Valid()
      ensures users == Resolved(old(users), telegramId, username, firstName, lastName, old(nextId))
      ensures user == users[telegramId]
      ensures user == User(user.id, telegramId, username, firstName, lastName)
      ensures write == NoWrite <==> telegramId in old(users) && SameProfile(old(users)[telegramId], username, firstName, lastName)
      ensures write == Created <==> telegramId !in old(users)
      ensures write == NoWrite ==> users == old(users) && nextId == old(nextId)
      ensures write == Created ==> user.id == old(nextId) && nextId == old(nextId) + 1
      ensures write == Updated ==> user.id == old(users)[telegramId].id && nextId == old(nextId)
    {
      if telegramId in users {
        var found := users[telegramId];
        if found.telegramUsername != username || found.firstName != firstName || found.lastName != lastName {
          user := found.(telegramUsername := username, firstName := firstName, lastName := lastName);
          users := users[telegramId := user];
          write := Updated;
          return;
        }
        user, write := found, NoWrite;
        return;
      }
      user := User(nextId, telegramId, username, firstName, lastName);
      users := users[telegramId := user];
      nextId := nextId + 1;
      write := Created;
    }
  }
}
